/** The editor's upsert and removal in the program's own form: a view object changed field by field inside a
    transaction, flags set along the way, and the virtualization touched at the end. */
module EditorServices {
  import opened Prelude
  import opened PreviewEdits

  /** The entity a transaction works on; it is written back when the transaction commits. */
  class ViewDefinition {
    const id: string
    const name: string
    var ddl: Option<string>
    var description: Option<string>
    var complete: bool
    var userDefined: bool
    var parsable: bool
    var sourcePaths: seq<string>

    constructor (row: View)
      ensures Row() == row
    {
      id, name, ddl, description := row.id, row.name, row.ddl, row.description;
      complete, userDefined, parsable, sourcePaths := row.complete, row.userDefined, row.parsable, row.sourcePaths;
    }

    function Row(): View
      reads this
    {
      View(id, name, ddl, description, complete, userDefined, parsable, sourcePaths)
    }

    method ClearState()
      modifies this`sourcePaths
      ensures sourcePaths == []
    {
      sourcePaths := [];
    }
  }

  class EditorService {
    var version: nat
    var rows: seq<View>
    var preview: Option<Cached>

    ghost function Abstract(): State
      reads this
    {
      State(version, rows, preview)
    }

    constructor ()
      ensures Abstract() == Init
    {
      version, rows, preview := 0, [], None;
    }

    /** Change the view object as requested; `generated` and `parsed` are the answers of the DDL generator and
        the parser.  Fails, as the program throws, when DDL has to be generated and cannot be. */
    method ApplyRequest(viewDefn: ViewDefinition, isNew: bool, r: Request, parsed: Parsed, generated: Option<string>)
      returns (failed: bool, touch: bool)
      modifies viewDefn
      ensures failed == Edited(old(viewDefn.Row()), isNew, r, parsed, generated).None?
      ensures !failed ==> Edited(old(viewDefn.Row()), isNew, r, parsed, generated) == Some((viewDefn.Row(), touch))
    {
      var pathsSame := false;
      var updateDv := false;
      if isNew {
        updateDv := true;
      } else {
        pathsSame := r.sourcePaths == viewDefn.sourcePaths;
      }
      viewDefn.ClearState();
      var oldDdl := viewDefn.ddl;
      viewDefn.ddl := r.ddl;
      viewDefn.description := r.description;
      viewDefn.sourcePaths := viewDefn.sourcePaths + r.sourcePaths;
      assert [] + r.sourcePaths == r.sourcePaths;
      viewDefn.complete := r.complete;
      viewDefn.userDefined := r.userDefined;
      failed, touch := false, false;
      if viewDefn.complete {
        if !viewDefn.userDefined {
          if viewDefn.ddl.None? || !pathsSame || !viewDefn.parsable {
            if generated.None? {
              failed := true;
              return;
            }
            viewDefn.ddl := generated;
            viewDefn.parsable := true;
            updateDv := true;
          }
        } else if viewDefn.ddl.Some? && oldDdl != viewDefn.ddl {
          viewDefn.ClearState();
          if parsed.table && !parsed.multiple {
            if parsed.annotation.Some? {
              viewDefn.description := parsed.annotation;
            }
            if !parsed.failed {
              viewDefn.parsable := true;
              updateDv := true;
            }
          } else {
            if viewDefn.parsable {
              updateDv := true;
            }
            viewDefn.parsable := false;
          }
        }
        touch := updateDv;
      }
    }

    /** The stored view that a request is for; `i` is behind them for a new one. */
    method FindViewDefinition(r: Request) returns (thrown: bool, i: nat)
      ensures thrown == Rejected(Abstract(), r)
      ensures !thrown ==> i == Target(Abstract(), r) && i <= |rows|
    {
      if r.id.Some? {
        i := IndexById(rows, r.id.value);
        if i == |rows| || r.stale {
          return true, i;
        }
      } else {
        i := IndexByName(rows, r.name);
      }
      thrown := i < |rows| && r.name != rows[i].name;
    }

    method UpsertViewEditorState(r: Request, newId: string, parsed: Parsed, generated: Option<string>)
      returns (thrown: bool)
      modifies this
      ensures Abstract() == Upserted(old(Abstract()), r, newId, parsed, generated)
      ensures thrown ==> Abstract() == old(Abstract())
    {
      var i;
      thrown, i := FindViewDefinition(r);
      if thrown {
        return;
      }
      var isNew := i == |rows|;
      var viewDefn := new ViewDefinition(if isNew then NewView(newId, r.name) else rows[i]);
      var touch;
      thrown, touch := ApplyRequest(viewDefn, isNew, r, parsed, generated);
      if thrown {
        return;
      }
      rows := if isNew then rows + [viewDefn.Row()] else rows[i := viewDefn.Row()];
      if touch {
        version := version + 1;
      }
    }

    method RemoveViewDefinition(id: string) returns (found: bool)
      modifies this
      ensures Abstract() == Removed(old(Abstract()), id)
      ensures found == (exists v :: v in old(rows) && v.id == id)
    {
      var i := IndexById(rows, id);
      found := i < |rows|;
      if found {
        assert rows[i] in rows;
        if rows[i].complete && rows[i].parsable {
          version := version + 1;
        }
        rows := rows[..i] + rows[i + 1..];
      }
    }

    /** Overwrite a view, stored or new, with an imported table. */
    method ImportInto(row: View, t: Import) returns (imported: View)
      ensures imported == row.(userDefined := false, ddl := t.generated, description := None, complete := true,
                               parsable := true, sourcePaths := [t.path])
    {
      var viewDefn := new ViewDefinition(row);
      viewDefn.ClearState();
      viewDefn.userDefined := false;
      viewDefn.ddl := None;
      viewDefn.description := None;
      viewDefn.complete := true;
      viewDefn.sourcePaths := viewDefn.sourcePaths + [t.path];
      assert [] + [t.path] == [t.path];
      viewDefn.ddl := t.generated;
      viewDefn.parsable := true;
      imported := viewDefn.Row();
    }

    /** Import one view per table: stored views of that name are overwritten, the others created.  Saving two
        new views of one name violates the uniqueness of view names and rolls everything back. */
    method ImportViews(imports: seq<Import>) returns (thrown: bool)
      modifies this
      ensures Abstract() == Imported(old(Abstract()), imports)
      ensures thrown ==> Abstract() == old(Abstract())
    {
      var stored := rows;
      var toSave: seq<View> := [];
      var clash := false;
      assert imports[0..] == imports && stored + toSave == stored;
      for k := 0 to |imports|
        invariant Abstract() == old(Abstract()) && |stored| == |rows|
        invariant clash ==> ImportedViews(rows, |rows|, imports).None?
        invariant !clash ==> ImportedViews(rows, |rows|, imports) == ImportedViews(stored + toSave, |rows|, imports[k..])
      {
        var t := imports[k];
        assert imports[k..][0] == t && imports[k..][1..] == imports[k + 1..];
        IndexByNameAppend(stored, toSave, t.name);
        if t.generated.None? {
          return true;
        }
        var i := IndexByName(stored, t.name);
        if i < |stored| {
          var imported := ImportInto(stored[i], t);
          assert (stored + toSave)[i := imported] == stored[i := imported] + toSave;
          stored := stored[i := imported];
        } else {
          var imported := ImportInto(NewView(t.newId, t.name), t);
          clash := clash || IndexByName(toSave, t.name) < |toSave|;
          assert (stored + toSave) + [imported] == stored + (toSave + [imported]);
          toSave := toSave + [imported];
        }
      }
      thrown := clash;
      if !clash {
        assert imports[|imports|..] == [];
        rows := stored + toSave;
        version := version + 1;
      }
    }
  }
}
