/** What edits store, field by field, and what the preview shows of it. */
module PreviewEditResults {
  import opened CaseFolding
  import opened Prelude
  import opened PreviewEdits
  import opened PreviewEditTheorems

  // ---------------------------------------------------------------- which view an upsert is about

  /** The request names the stored view at `i`: by its id, with the right version, or by its name. */
  ghost predicate Finds(s: State, r: Request, i: nat) {
    && i < |s.views| && r.name == s.views[i].name
    && if r.id.Some? then
         !r.stale && s.views[i].id == r.id.value && forall j | 0 <= j < i :: s.views[j].id != r.id.value
       else
         forall j | 0 <= j < i :: Upper(s.views[j].name) != Upper(r.name)
  }

  /** The request is for a new view: without an id, and by a name that no view has in whichever case. */
  ghost predicate FindsNone(s: State, r: Request) {
    r.id.None? && forall v | v in s.views :: Upper(v.name) != Upper(r.name)
  }

  lemma FoundIsTarget(s: State, r: Request, i: nat)
    requires Finds(s, r, i)
    ensures !Rejected(s, r) && Target(s, r) == i
  {
    assert s.views[i] in s.views;
    if r.id.Some? { FirstById(s.views, r.id.value, i); } else { FirstByName(s.views, r.name, i); }
  }

  lemma FirstById(views: seq<View>, id: string, i: nat)
    requires i < |views| && views[i].id == id && forall j | 0 <= j < i :: views[j].id != id
    ensures IndexById(views, id) == i
  {
    if i > 0 {
      assert views[0].id != id;
      FirstById(views[1..], id, i - 1);
    }
  }

  lemma FirstByName(views: seq<View>, name: string, i: nat)
    requires i < |views| && Upper(views[i].name) == Upper(name)
    requires forall j | 0 <= j < i :: Upper(views[j].name) != Upper(name)
    ensures IndexByName(views, name) == i
  {
    if i > 0 {
      assert Upper(views[0].name) != Upper(name);
      FirstByName(views[1..], name, i - 1);
    }
  }

  lemma IdIsFirst(views: seq<View>, id: string)
    ensures forall j | 0 <= j < IndexById(views, id) :: views[j].id != id
  {
    if views != [] && views[0].id != id {
      IdIsFirst(views[1..], id);
      assert forall j | 0 < j < IndexById(views, id) :: views[j] == views[1..][j - 1];
    }
  }

  lemma NameIsFirst(views: seq<View>, name: string)
    ensures forall j | 0 <= j < IndexByName(views, name) :: Upper(views[j].name) != Upper(name)
  {
    if views != [] && Upper(views[0].name) != Upper(name) {
      NameIsFirst(views[1..], name);
      assert forall j | 0 < j < IndexByName(views, name) :: views[j] == views[1..][j - 1];
    }
  }

  /** A request that is not for a new view and finds none changes nothing. */
  lemma OtherRequestsChangeNothing(s: State, r: Request, newId: string, parsed: Parsed, generated: Option<string>)
    requires !FindsNone(s, r) && forall i | 0 <= i < |s.views| :: !Finds(s, r, i)
    ensures Upserted(s, r, newId, parsed, generated) == s
  {
    IdIsFirst(s.views, if r.id.Some? then r.id.value else "");
    NameIsFirst(s.views, r.name);
    var i := Target(s, r);
    if i < |s.views| { assert !Finds(s, r, i); }
  }

  // ---------------------------------------------------------------- what an upsert stores

  /** The DDL of the view has to be generated: it is complete, not the user's own, and new, without DDL, over
      other paths, or not parsable. */
  predicate NeedsDdl(stored: Option<View>, r: Request) {
    && r.complete && !r.userDefined
    && (stored.None? || r.ddl.None? || r.sourcePaths != stored.value.sourcePaths || !stored.value.parsable)
  }

  /** The user's own DDL is parsed again: it is there, and other than before. */
  predicate ParsesAgain(stored: Option<View>, r: Request) {
    r.complete && r.userDefined && r.ddl.Some? && (stored.None? || r.ddl != stored.value.ddl)
  }

  /** The parser finds the view's table and nothing else. */
  predicate Usable(parsed: Parsed) { parsed.table && !parsed.multiple }

  predicate WasParsable(stored: Option<View>) { stored.Some? && stored.value.parsable }

  predicate Fits(v: View, id: string, stored: Option<View>, r: Request, parsed: Parsed, generated: Option<string>) {
    && v.id == id && v.name == r.name && v.complete == r.complete && v.userDefined == r.userDefined
    && v.ddl == (if NeedsDdl(stored, r) then generated else r.ddl)
    && v.sourcePaths == (if ParsesAgain(stored, r) then [] else r.sourcePaths)
    && v.description ==
         (if ParsesAgain(stored, r) && Usable(parsed) && parsed.annotation.Some? then parsed.annotation else r.description)
    && (v.parsable <==>
         || NeedsDdl(stored, r)
         || (ParsesAgain(stored, r) && Usable(parsed) && (!parsed.failed || WasParsable(stored)))
         || (!ParsesAgain(stored, r) && WasParsable(stored)))
  }

  /** The virtualization's version goes up: a complete view is new, has its DDL generated, becomes parsable with
      its new DDL, or stops being so. */
  predicate Touches(stored: Option<View>, r: Request, parsed: Parsed) {
    r.complete &&
    (|| stored.None? || NeedsDdl(stored, r)
     || (ParsesAgain(stored, r) && if Usable(parsed) then !parsed.failed else WasParsable(stored)))
  }

  /** An upsert of a stored view changes this view alone, in exactly these fields; it changes nothing when DDL
      has to be generated and cannot be. */
  lemma UpsertStored(s: State, r: Request, i: nat, newId: string, parsed: Parsed, generated: Option<string>)
    requires Finds(s, r, i)
    ensures var s', v := Upserted(s, r, newId, parsed, generated), Some(s.views[i]);
            if NeedsDdl(v, r) && generated.None? then s' == s
            else
              && |s'.views| == |s.views| && (forall j | 0 <= j < |s.views| && j != i :: s'.views[j] == s.views[j])
              && Fits(s'.views[i], s.views[i].id, v, r, parsed, generated)
              && s'.version == s.version + (if Touches(v, r, parsed) then 1 else 0) && s'.cache == s.cache
  {
    FoundIsTarget(s, r, i);
  }

  /** And an upsert by a new name adds one view at the end. */
  lemma UpsertNew(s: State, r: Request, newId: string, parsed: Parsed, generated: Option<string>)
    requires FindsNone(s, r)
    ensures var s' := Upserted(s, r, newId, parsed, generated);
            if NeedsDdl(None, r) && generated.None? then s' == s
            else
              && |s'.views| == |s.views| + 1 && s'.views[..|s.views|] == s.views
              && Fits(s'.views[|s.views|], newId, None, r, parsed, generated)
              && s'.version == s.version + (if Touches(None, r, parsed) then 1 else 0) && s'.cache == s.cache
  {}

  // ---------------------------------------------------------------- what the preview shows

  /** A preview exists if and only if every view that takes part has DDL. */
  lemma {:induction false} PreviewExists(views: seq<View>)
    ensures Build(views).None? <==> exists v :: v in views && v.complete && v.parsable && v.ddl.None?
  {
    if views != [] {
      var front, last := views[..|views| - 1], views[|views| - 1];
      PreviewExists(front);
      assert forall v :: v in views <==> v in front || v == last;
    }
  }

  /** A complete and parsable view shows in the preview with its whole DDL, on lines of its own between those of
      the views before it and those after; any other view does not show. */
  lemma PreviewShows(before: seq<View>, v: View, after: seq<View>)
    requires Build(before + [v] + after).Some?
    ensures Build(before).Some? && Build(after).Some?
    ensures var text := Build(before + [v] + after).value;
            if v.complete && v.parsable then
              && v.ddl.Some?
              && (if v.ddl.value != "" && v.ddl.value[|v.ddl.value| - 1] == ';'
                  then text == Build(before).value + (v.ddl.value + "\n") + Build(after).value
                  else text == Build(before).value + (";" + v.ddl.value + "\n") + Build(after).value)
            else text == Build(before).value + Build(after).value
  {
    BuildThree(before, v, after);
    if !Live(v) { assert Build(before).value + "" == Build(before).value; }
  }

  /** Serving hands out a preview of the current version: the one in the cache if it is of that version, else
      one built now, which the cache takes. */
  lemma ServedPreview(s: State)
    ensures Served(s).views == s.views && Served(s).version == s.version
    ensures if s.cache.Some? && s.cache.value.version == s.version then Served(s).cache == s.cache
            else if Build(s.views).Some? then Served(s).cache == Some(Cached(s.version, Build(s.views).value))
            else Served(s).cache == s.cache
  {}

  /** Once a refresh has dropped the preview, the next one is built from the views as they are, and the views
      themselves stay; so a refresh makes up for every harmful edit before it. */
  lemma DroppedIsRebuilt(s: State)
    requires Build(s.views).Some?
    ensures Served(Step(s, DropPreview)) == State(s.version, s.views, Some(Cached(s.version, Build(s.views).value)))
  {}

  ghost predicate Contains(text: string, part: string) {
    exists a, b :: text == a + part + b
  }

  lemma ShareIsShown(before: seq<View>, v: View, after: seq<View>)
    requires Build(before + [v] + after).Some? && Live(v)
    ensures v.ddl.Some? && Contains(Build(before + [v] + after).value, v.ddl.value)
  {
    var a, b := Build(before), Build(after);
    PreviewShows(before, v, after);
    var x := if v.ddl.value != "" && v.ddl.value[|v.ddl.value| - 1] == ';' then "" else ";";
    assert Build(before + [v] + after).value == (a.value + x) + v.ddl.value + ("\n" + b.value);
  }

  /** Once DDL has been generated for a stored view, the next preview contains it, whatever was in the cache. */
  lemma GeneratedIsServed(s: State, r: Request, i: nat, newId: string, parsed: Parsed, generated: Option<string>)
    requires Inv(s) && Finds(s, r, i) && NeedsDdl(Some(s.views[i]), r) && generated.Some?
    ensures var s' := Upserted(s, r, newId, parsed, generated);
            Build(s'.views).Some? ==>
              Served(s').cache.Some? && Served(s').cache.value.version == s.version + 1
              && Contains(Served(s').cache.value.ddl, generated.value)
  {
    var s' := Upserted(s, r, newId, parsed, generated);
    UpsertStored(s, r, i, newId, parsed, generated);
    ServedPreview(s');
    if Build(s'.views).Some? {
      assert s'.views == s'.views[..i] + [s'.views[i]] + s'.views[i + 1..];
      ShareIsShown(s'.views[..i], s'.views[i], s'.views[i + 1..]);
    }
  }

  /** So does it after DDL has been generated for a new one. */
  lemma GeneratedIsServedForNew(s: State, r: Request, newId: string, parsed: Parsed, generated: Option<string>)
    requires Inv(s) && FindsNone(s, r) && NeedsDdl(None, r) && generated.Some?
    ensures var s' := Upserted(s, r, newId, parsed, generated);
            Build(s'.views).Some? ==>
              Served(s').cache.Some? && Served(s').cache.value.version == s.version + 1
              && Contains(Served(s').cache.value.ddl, generated.value)
  {
    var s', n := Upserted(s, r, newId, parsed, generated), |s.views|;
    UpsertNew(s, r, newId, parsed, generated);
    ServedPreview(s');
    if Build(s'.views).Some? {
      assert s'.views == s'.views[..n] + [s'.views[n]] + [];
      ShareIsShown(s'.views[..n], s'.views[n], []);
    }
  }

  // ---------------------------------------------------------------- removals

  /** View `v`, the first one with that id, has been taken out from between the others. */
  ghost predicate Taken(s: State, s': State, id: string, before: seq<View>, v: View, after: seq<View>) {
    && s.views == before + [v] + after && v.id == id && (forall w | w in before :: w.id != id)
    && s' == State(s.version + (if v.complete && v.parsable then 1 else 0), before + after, s.cache)
  }

  /** A removal takes out the first view with that id and no other, keeps the order, and touches the version if
      and only if the view took part in the preview; without such a view it changes nothing. */
  lemma RemovalTakesOne(s: State, id: string)
    ensures var s' := Removed(s, id);
            if forall v | v in s.views :: v.id != id then s' == s
            else
              exists before, v: View, after :: Taken(s, s', id, before, v, after)
  {
    var i := IndexById(s.views, id);
    if i < |s.views| {
      var before, v, after := s.views[..i], s.views[i], s.views[i + 1..];
      IdIsFirst(s.views, id);
      assert s.views == before + [v] + after && v in s.views;
      assert Taken(s, Removed(s, id), id, before, v, after);
    }
  }

  // ---------------------------------------------------------------- imports

  /** No two views have one name, in whichever case. */
  ghost predicate NamesDiffer(views: seq<View>) {
    forall i, j | 0 <= i < j < |views| :: Upper(views[i].name) != Upper(views[j].name)
  }

  /** The last import by a name. */
  function LastImport(imports: seq<Import>, name: string): Option<Import> {
    if imports == [] then None
    else
      var later := LastImport(imports[1..], name);
      if later.Some? then later else if Upper(imports[0].name) == Upper(name) then Some(imports[0]) else None
  }

  ghost predicate Named(views: seq<View>, name: string) {
    exists i | 0 <= i < |views| :: Upper(views[i].name) == Upper(name)
  }

  /** What an imported table makes of a view. */
  function Shows(id: string, name: string, t: Import): View {
    View(id, name, t.generated, None, true, false, true, [t.path])
  }

  /** The views of the imports that find no stored one, in order. */
  ghost function NewViews(views: seq<View>, imports: seq<Import>): seq<View> {
    if imports == [] then []
    else
      var rest := NewViews(views, imports[1..]);
      if Named(views, imports[0].name) then rest else [Shows(imports[0].newId, imports[0].name, imports[0])] + rest
  }

  ghost predicate SameNames(a: seq<View>, b: seq<View>) {
    |a| == |b| && forall i | 0 <= i < |a| :: a[i].name == b[i].name && a[i].id == b[i].id
  }

  lemma {:induction false} SameNamesSameNew(a: seq<View>, b: seq<View>, imports: seq<Import>)
    requires SameNames(a, b)
    ensures NewViews(a, imports) == NewViews(b, imports)
  {
    if imports != [] {
      SameNamesSameNew(a, b, imports[1..]);
      assert Named(a, imports[0].name) <==> Named(b, imports[0].name);
    }
  }

  /** What importing makes of a stored view: the last import by its name shows, if there is one. */
  function Overwritten(v: View, imports: seq<Import>): View {
    var last := LastImport(imports, v.name);
    if last.Some? then Shows(v.id, v.name, last.value) else v
  }

  lemma FoundInBase(base: seq<View>, added: seq<View>, name: string)
    ensures IndexByName(base + added, name) < |base| <==> Named(base, name)
    ensures IndexByName(base + added, name) < |base| + |added| <==> Named(base, name) || Named(added, name)
    ensures Named(base, name) ==> IndexByName(base + added, name) == IndexByName(base, name)
  {
    IndexByNameAppend(base, added, name);
  }

  /** What the imports make of the stored views and of those added before. */
  ghost predicate AreImported(views: seq<View>, base: seq<View>, added: seq<View>, imports: seq<Import>) {
    && |views| == |base| + |added| + |NewViews(base, imports)|
    && (forall i | 0 <= i < |base| :: views[i] == Overwritten(base[i], imports))
    && views[|base|..] == added + NewViews(base, imports)
  }

  lemma OneOverwritten(views: seq<View>, base: seq<View>, added: seq<View>, imports: seq<Import>, i: nat)
    requires NamesDiffer(base) && imports != [] && i < |base| && Upper(base[i].name) == Upper(imports[0].name)
    requires AreImported(views, base[i := Shows(base[i].id, base[i].name, imports[0])], added, imports[1..])
    ensures AreImported(views, base, added, imports)
  {
    SameNamesSameNew(base, base[i := Shows(base[i].id, base[i].name, imports[0])], imports[1..]);
  }

  lemma NotOverwritten(base: seq<View>, imports: seq<Import>, i: nat)
    requires imports != [] && !Named(base, imports[0].name) && i < |base|
    ensures Overwritten(base[i], imports) == Overwritten(base[i], imports[1..])
  {
    assert Upper(base[i].name) != Upper(imports[0].name);
  }

  lemma NewViewFirst(base: seq<View>, imports: seq<Import>)
    requires imports != [] && !Named(base, imports[0].name)
    ensures NewViews(base, imports) == [Shows(imports[0].newId, imports[0].name, imports[0])] + NewViews(base, imports[1..])
  {}

  lemma OneAdded(views: seq<View>, base: seq<View>, added: seq<View>, imports: seq<Import>)
    requires imports != [] && !Named(base, imports[0].name)
    requires AreImported(views, base, added + [Shows(imports[0].newId, imports[0].name, imports[0])], imports[1..])
    ensures AreImported(views, base, added, imports)
  {
    var v := Shows(imports[0].newId, imports[0].name, imports[0]);
    NewViewFirst(base, imports);
    assert added + [v] + NewViews(base, imports[1..]) == added + ([v] + NewViews(base, imports[1..]));
    forall i | 0 <= i < |base| ensures views[i] == Overwritten(base[i], imports) { NotOverwritten(base, imports, i); }
  }

  lemma {:induction false} ImportedAre(base: seq<View>, added: seq<View>, imports: seq<Import>)
    requires NamesDiffer(base) && ImportedViews(base + added, |base|, imports).Some?
    ensures AreImported(ImportedViews(base + added, |base|, imports).value, base, added, imports)
    decreases |imports|
  {
    if imports == [] {
      assert added + NewViews(base, imports) == added;
    } else {
      var t := imports[0];
      var i := IndexByName(base + added, t.name);
      FoundInBase(base, added, t.name);
      if i < |base| {
        var base' := base[i := Shows(base[i].id, base[i].name, t)];
        assert (base + added)[i := Shows(base[i].id, base[i].name, t)] == base' + added;
        ImportedAre(base', added, imports[1..]);
        OneOverwritten(ImportedViews(base + added, |base|, imports).value, base, added, imports, i);
      } else {
        var v := Shows(t.newId, t.name, t);
        assert base + added + [v] == base + (added + [v]);
        ImportedAre(base, added + [v], imports[1..]);
        OneAdded(ImportedViews(base + added, |base|, imports).value, base, added, imports);
      }
    }
  }

  /** An import fails at a table whose DDL cannot be generated, and at a second table of a name that no stored
      view has. */
  ghost predicate FailsAt(base: seq<View>, added: seq<View>, imports: seq<Import>, k: nat)
    requires k < |imports|
  {
    var t := imports[k];
    || t.generated.None?
    || (!Named(base, t.name) && (Named(added, t.name) || exists j | 0 <= j < k :: Upper(imports[j].name) == Upper(t.name)))
  }

  ghost predicate Fails(base: seq<View>, added: seq<View>, imports: seq<Import>) {
    exists k | 0 <= k < |imports| :: FailsAt(base, added, imports, k)
  }

  /** Taking the first table off, once its view is overwritten or added. */
  lemma FailsLater(base: seq<View>, added: seq<View>, imports: seq<Import>, base': seq<View>, added': seq<View>, k: nat)
    requires k + 1 < |imports| && SameNames(base, base')
    requires if Named(base, imports[0].name) then added' == added
             else |added'| == |added| + 1 && added'[..|added|] == added && added'[|added|].name == imports[0].name
    ensures FailsAt(base', added', imports[1..], k) <==> FailsAt(base, added, imports, k + 1)
  {
    var name := imports[k + 1].name;
    assert imports[1..][k] == imports[k + 1];
    assert Named(base, name) <==> Named(base', name);
    if !Named(base, imports[0].name) { NamedAppended(added, added', name); }
    assert forall j | 0 <= j < k :: imports[1..][j] == imports[j + 1];
    assert (exists j | 0 <= j < k + 1 :: Upper(imports[j].name) == Upper(name))
      <==> Upper(imports[0].name) == Upper(name) || (exists j | 0 <= j < k :: Upper(imports[1..][j].name) == Upper(name));
  }

  lemma NamedAppended(added: seq<View>, added': seq<View>, name: string)
    requires |added'| == |added| + 1 && added'[..|added|] == added
    ensures Named(added', name) <==> Named(added, name) || Upper(added'[|added|].name) == Upper(name)
  {
    assert forall i | 0 <= i < |added| :: added'[i] == added[i];
    if Named(added, name) {
      var i :| 0 <= i < |added| && Upper(added[i].name) == Upper(name);
      assert Upper(added'[i].name) == Upper(name);
    }
  }

  lemma FailsStep(base: seq<View>, added: seq<View>, imports: seq<Import>, base': seq<View>, added': seq<View>)
    requires imports != [] && !FailsAt(base, added, imports, 0) && SameNames(base, base')
    requires if Named(base, imports[0].name) then added' == added
             else |added'| == |added| + 1 && added'[..|added|] == added && added'[|added|].name == imports[0].name
    ensures Fails(base', added', imports[1..]) <==> Fails(base, added, imports)
  {
    if Fails(base', added', imports[1..]) {
      var k :| 0 <= k < |imports[1..]| && FailsAt(base', added', imports[1..], k);
      FailsLater(base, added, imports, base', added', k);
    }
    if Fails(base, added, imports) {
      var k :| 0 <= k < |imports| && FailsAt(base, added, imports, k);
      FailsLater(base, added, imports, base', added', k - 1);
    }
  }

  lemma {:induction false} ImportFails(base: seq<View>, added: seq<View>, imports: seq<Import>)
    ensures ImportedViews(base + added, |base|, imports).None? <==> Fails(base, added, imports)
    decreases |imports|
  {
    if imports != [] {
      var t := imports[0];
      var i := IndexByName(base + added, t.name);
      FoundInBase(base, added, t.name);
      if FailsAt(base, added, imports, 0) {
      } else if i < |base| {
        var base' := base[i := Shows(base[i].id, base[i].name, t)];
        assert (base + added)[i := Shows(base[i].id, base[i].name, t)] == base' + added;
        ImportFails(base', added, imports[1..]);
        FailsStep(base, added, imports, base', added);
      } else {
        var v := Shows(t.newId, t.name, t);
        assert base + added + [v] == base + (added + [v]);
        ImportFails(base, added + [v], imports[1..]);
        FailsStep(base, added, imports, base, added + [v]);
      }
    }
  }

  /** An import fails, and then changes nothing, if and only if DDL cannot be generated for one of its tables or
      two of them have one name that no stored view has.  Otherwise every stored view shows the last table of its
      name, if there is one, the other tables become new views, in their order, and the version goes up. */
  lemma ImportStores(s: State, imports: seq<Import>)
    requires NamesDiffer(s.views)
    ensures var s', n := Imported(s, imports), |s.views|;
            if Fails(s.views, [], imports) then s' == s
            else
              && s'.version == s.version + 1 && s'.cache == s.cache
              && |s'.views| == n + |NewViews(s.views, imports)| && s'.views[n..] == NewViews(s.views, imports)
              && forall i | 0 <= i < n :: s'.views[i] == Overwritten(s.views[i], imports)
  {
    assert s.views + [] == s.views;
    ImportFails(s.views, [], imports);
    if !Fails(s.views, [], imports) { ImportedAre(s.views, [], imports); }
  }

  // ---------------------------------------------------------------- over every history

  lemma {:induction false} NewViewsDiffer(base: seq<View>, added: seq<View>, imports: seq<Import>)
    requires NamesDiffer(base + added) && ImportedViews(base + added, |base|, imports).Some?
    ensures NamesDiffer(ImportedViews(base + added, |base|, imports).value)
    decreases |imports|
  {
    if imports != [] {
      var t := imports[0];
      var i := IndexByName(base + added, t.name);
      FoundInBase(base, added, t.name);
      if i < |base| {
        var base' := base[i := Shows(base[i].id, base[i].name, t)];
        assert (base + added)[i := Shows(base[i].id, base[i].name, t)] == base' + added;
        RenamedNothing(base + added, base' + added);
        NewViewsDiffer(base', added, imports[1..]);
      } else {
        var v := Shows(t.newId, t.name, t);
        assert base + added + [v] == base + (added + [v]);
        AddedDiffers(base + added, v);
        NewViewsDiffer(base, added + [v], imports[1..]);
      }
    }
  }

  lemma RenamedNothing(a: seq<View>, b: seq<View>)
    requires NamesDiffer(a) && SameNames(a, b)
    ensures NamesDiffer(b)
  {}

  lemma AddedDiffers(views: seq<View>, v: View)
    requires NamesDiffer(views) && !Named(views, v.name)
    ensures NamesDiffer(views + [v])
  {
    assert forall i | 0 <= i < |views| :: Upper(views[i].name) != Upper(v.name);
  }

  lemma UpsertKeepsNames(s: State, r: Request, newId: string, parsed: Parsed, generated: Option<string>)
    requires NamesDiffer(s.views)
    ensures NamesDiffer(Upserted(s, r, newId, parsed, generated).views)
  {
    var s' := Upserted(s, r, newId, parsed, generated);
    if FindsNone(s, r) {
      UpsertNew(s, r, newId, parsed, generated);
      if s' != s {
        assert forall i | 0 <= i < |s.views| :: s.views[i] in s.views;
        assert s'.views == s.views + [s'.views[|s.views|]];
        AddedDiffers(s.views, s'.views[|s.views|]);
      }
    } else if i :| 0 <= i < |s.views| && Finds(s, r, i) {
      UpsertStored(s, r, i, newId, parsed, generated);
      if s' != s { RenamedNothing(s.views, s'.views); }
    } else {
      OtherRequestsChangeNothing(s, r, newId, parsed, generated);
    }
  }

  /** Over every history, no two views of a virtualization have names that differ in case only. */
  lemma {:induction false} NamesDifferOverRuns(actions: seq<Action>)
    ensures NamesDiffer(Run(Init, actions).views)
  {
    if actions != [] {
      var n := |actions| - 1;
      var s := Run(Init, actions[..n]);
      NamesDifferOverRuns(actions[..n]);
      match actions[n]
      case Upsert(r, newId, parsed, generated) => UpsertKeepsNames(s, r, newId, parsed, generated);
      case ImportViews(imports) =>
        if ImportedViews(s.views, |s.views|, imports).Some? {
          assert s.views + [] == s.views;
          NewViewsDiffer(s.views, [], imports);
        }
      case _ =>
    }
  }

  /** Over every history without a harmful edit, a preview that is served shows the views as they are, and is of
      the current version. */
  lemma ServedShowsTheViews(actions: seq<Action>)
    requires NeverHarmful(Init, actions) && Build(Run(Init, actions).views).Some?
    ensures var s := Run(Init, actions); Served(s).cache == Some(Cached(s.version, Build(s.views).value))
  {
    CacheIsExact(actions);
    ServedPreview(Run(Init, actions));
  }
}
