/** The synchronizer in the program's form: data source objects that the cache and the loop may share, maps that
    are updated in place, and the loops over the remote list and over what has vanished from it. */
module ConnectionSynchronizers {
  import opened Prelude
  import opened Reconciliation

  class DataSource {
    const id: Id
    var teiidName: Option<string>

    constructor (id: Id, teiidName: Option<string>)
      ensures this.id == id && this.teiidName == teiidName
    {
      this.id, this.teiidName := id, teiidName;
    }
  }

  class ConnectionSynchronizer {
    var rows: map<Id, string>
    var datasources: map<string, Id>
    var syndesisSources: map<Id, DataSource>
    var owned: set<Id>

    constructor (rows: map<Id, string>, owned: set<Id>)
      ensures Valid() && View() == Start(rows, owned)
    {
      this.rows, datasources, syndesisSources, this.owned := rows, map[], map[], owned;
    }

    /** The cache holds every object under its own id. */
    ghost predicate Valid()
      reads this
    {
      forall id | id in syndesisSources :: syndesisSources[id].id == id
    }

    ghost function CachedNames(): map<Id, Option<string>>
      reads this, syndesisSources.Values
    {
      map id | id in syndesisSources :: syndesisSources[id].teiidName
    }

    ghost function View(): World
      reads this, syndesisSources.Values
    {
      World(rows, datasources, CachedNames(), owned)
    }

    ghost function WorkOf(ds: DataSource): Work
      reads this, ds
    {
      Work(ds.id, ds.teiidName, ds.id in syndesisSources && syndesisSources[ds.id] == ds)
    }

    /** A remote connection becomes an object, which the cache takes if it has none. */
    method BuildSyndesisDataSource(id: Id) returns (dsd: DataSource)
      requires Valid()
      modifies `syndesisSources
      ensures Valid() && fresh(dsd) && dsd.id == id
      ensures syndesisSources == if id in old(syndesisSources) then old(syndesisSources) else old(syndesisSources)[id := dsd]
      ensures (View(), WorkOf(dsd)) == Built(old(View()), id)
    {
      dsd := new DataSource(id, if id in rows then Some(rows[id]) else None);
      if id !in syndesisSources {
        syndesisSources := syndesisSources[id := dsd];
      }
      assert CachedNames() == if id in old(syndesisSources) then old(CachedNames()) else old(CachedNames())[id := dsd.teiidName];
    }

    method GetSyndesisDataSourceById(id: Id) returns (source: DataSource)
      requires Valid()
      modifies this
      ensures Valid() && source.id == id
      ensures fresh(source) || source in old(syndesisSources.Values)
      ensures (View(), WorkOf(source)) ==
              if id in old(View()).cache then (old(View()), Work(id, old(View()).cache[id], true)) else Built(old(View()), id)
    {
      if id in syndesisSources {
        source := syndesisSources[id];
      } else {
        source := BuildSyndesisDataSource(id);
      }
    }

    /** Names the connection if need be, then registers it; `o` says how naming and registration turn out. */
    method CreateDataSource(scd: DataSource, o: Outcome)
      requires Valid()
      modifies `rows, `datasources, scd
      ensures Valid() && View() == Created(old(View()), o, old(WorkOf(scd)))
    {
      if scd.teiidName == None {
        if scd.id in rows {
          scd.teiidName := Some(rows[scd.id]);
        } else if scd.id in o.names {
          rows := rows[scd.id := o.names[scd.id]];
          scd.teiidName := Some(o.names[scd.id]);
        } else {
          return;
        }
      }
      var name := scd.teiidName.value;
      assert CachedNames() == if old(WorkOf(scd)).cached then old(CachedNames())[scd.id := Some(name)] else old(CachedNames());
      if name !in datasources && scd.id !in o.refused {
        datasources := datasources[name := scd.id];
      }
    }

    method DeleteDataSource(dsd: DataSource)
      requires Valid()
      modifies `datasources, `syndesisSources
      ensures Valid() && syndesisSources == old(syndesisSources) - {dsd.id}
      ensures View() == Dropped(old(View()), dsd.id, dsd.teiidName)
    {
      if dsd.teiidName.Some? {
        datasources := datasources - {dsd.teiidName.value};
      }
      syndesisSources := syndesisSources - {dsd.id};
      assert CachedNames() == old(CachedNames()) - {dsd.id};
    }

    method AddConnection(sds: DataSource, update: bool, o: Outcome)
      requires Valid()
      modifies `rows, `datasources, `syndesisSources, sds
      ensures Valid() && View() == Added(old(View()), o, old(WorkOf(sds)), update)
      ensures syndesisSources == if update && sds.id !in owned then old(syndesisSources) - {sds.id} else old(syndesisSources)
    {
      if sds.id in owned {
        return;
      }
      if update {
        DeleteDataSource(sds);
      }
      CreateDataSource(sds, o);
    }

    /** A failure to delete the row is logged, and the data source goes all the same. */
    method HandleDeleteConnection(id: Id, o: Outcome)
      requires Valid()
      modifies `rows, `datasources, `syndesisSources
      ensures Valid() && View() == Deleted(old(View()), o, id)
    {
      if id in syndesisSources {
        var dsd := syndesisSources[id];
        if id !in o.kept {
          rows := rows - {id};
        }
        DeleteDataSource(dsd);
      }
    }

    method HandleAddConnection(id: Id, update: bool, o: Outcome)
      requires Valid()
      modifies this, syndesisSources.Values
      ensures Valid() && View() == Handled(old(View()), o, ConnectionAdded(id, update))
    {
      var sds := GetSyndesisDataSourceById(id);
      AddConnection(sds, update, o);
    }

    /** Publishing looks a data source up by the name it is registered under. */
    method GetSyndesisDataSource(dsName: string) returns (source: DataSource?)
      requires Valid()
      modifies this
      ensures Valid() && (source != null <==> dsName in datasources)
      ensures source != null ==> source.id == datasources[dsName]
      ensures forall o :: View() == Handled(old(View()), o, LookedUp(dsName))
    {
      source := null;
      if dsName in datasources {
        source := GetSyndesisDataSourceById(datasources[dsName]);
      }
    }

    /** The cache never takes an object over one that it has, nor an earlier object for a new one. */
    method BuildOneMore(objects: seq<DataSource>, id: Id) returns (dsd: DataSource)
      requires Valid()
      modifies `syndesisSources
      ensures Valid() && fresh(dsd) && dsd.id == id
      ensures syndesisSources == if id in old(syndesisSources) then old(syndesisSources) else old(syndesisSources)[id := dsd]
      ensures (View(), Works(objects + [dsd])) == (Built(old(View()), id).0, old(Works(objects)) + [Built(old(View()), id).1])
    {
      ghost var before := Works(objects);
      dsd := BuildSyndesisDataSource(id);
      assert Works(objects) == before;
      assert Works(objects + [dsd]) == before + [WorkOf(dsd)];
    }

    /** Reads the remote list; the loop below works on the objects made here, which are all different. */
    method GetSyndesisSources(remote: seq<Id>) returns (result: seq<DataSource>)
      requires Valid()
      modifies `syndesisSources
      ensures Valid() && fresh(result) && |result| == |remote|
      ensures forall i | 0 <= i < |result| :: result[i].id == remote[i]
      ensures forall i, j | 0 <= i < j < |result| :: result[i] != result[j]
      ensures (View(), Works(result)) == BuiltAll(old(View()), remote)
      ensures forall id | id in syndesisSources :: id in old(syndesisSources) || syndesisSources[id] in result
      ensures forall id | id in old(syndesisSources) :: id in syndesisSources && syndesisSources[id] == old(syndesisSources)[id]
    {
      result := [];
      assert Works(result) == [] && remote[..0] == [];
      for i := 0 to |remote|
        invariant Valid() && fresh(result) && |result| == i
        invariant forall j | 0 <= j < i :: result[j].id == remote[j]
        invariant forall j, k | 0 <= j < k < |result| :: result[j] != result[k]
        invariant (View(), Works(result)) == BuiltAll(old(View()), remote[..i])
        invariant forall id | id in syndesisSources :: id in old(syndesisSources) || syndesisSources[id] in result
        invariant forall id | id in old(syndesisSources) :: id in syndesisSources && syndesisSources[id] == old(syndesisSources)[id]
      {
        assert remote[..i + 1][..i] == remote[..i];
        var ds := BuildOneMore(result, remote[i]);
        result := result + [ds];
      }
      assert remote[..|remote|] == remote;
    }

    ghost function Works(objects: seq<DataSource>): seq<Work>
      reads this, objects
    {
      seq(|objects|, i requires 0 <= i < |objects| reads this, objects => WorkOf(objects[i]))
    }

    /** Every listed connection is added and struck off the registered ones. */
    method AddAll(objects: seq<DataSource>, update: bool, o: Outcome, registered: set<Id>) returns (existing: set<Id>)
      requires Valid() && forall i, j | 0 <= i < j < |objects| :: objects[i] != objects[j]
      modifies `rows, `datasources, `syndesisSources, objects
      ensures Valid() && View() == AddedAll(old(View()), o, old(Works(objects)), update)
      ensures existing == registered - Ids(objects)
    {
      ghost var works := Works(objects);
      existing := registered;
      for i := 0 to |objects|
        invariant Valid() && View() == AddedAll(old(View()), o, works[..i], update)
        invariant existing == registered - Ids(objects[..i])
        invariant forall j | i <= j < |objects| :: objects[j].teiidName == works[j].name
        invariant !update ==> syndesisSources == old(syndesisSources)
      {
        existing := existing - {objects[i].id};
        OneMoreId(objects, i);
        assert works[..i + 1][..i] == works[..i];
        AddConnection(objects[i], update, o);
      }
      assert objects[..|objects|] == objects && works[..|objects|] == works;
    }

    method DeleteAll(vanished: set<Id>, o: Outcome)
      requires Valid()
      modifies `rows, `datasources, `syndesisSources
      ensures Valid() && View() == DeletedAll(old(View()), o, vanished)
    {
      var existing := vanished;
      ghost var w, deleted: set<Id> := View(), {};
      NothingDeleted(w, o);
      while existing != {}
        invariant Valid() && deleted !! existing && deleted + existing == vanished
        invariant View() == DeletedAll(w, o, deleted)
      {
        var removed :| removed in existing;
        HandleDeleteConnection(removed, o);
        DeleteOneMore(w, o, deleted, removed);
        existing, deleted := existing - {removed}, deleted + {removed};
      }
    }

    /** The reconciliation; `failed` tells of the exception for two registrations of one connection. */
    method SynchronizeConnections(update: bool, remote: seq<Id>, o: Outcome) returns (failed: bool)
      requires Valid()
      modifies this
      ensures Valid() && View() == Synchronized(old(View()), o, remote, update)
      ensures failed <==> !IdsUnique(old(datasources))
    {
      var objects := GetSyndesisSources(remote);
      failed := !IdsUnique(datasources);
      if !failed {
        var existing := AddAll(objects, update, o, datasources.Values);
        IdsAreRemote(objects, remote);
        DeleteAll(existing, o);
      }
    }
  }

  lemma NothingDeleted(w: World, o: Outcome)
    ensures DeletedAll(w, o, {}) == w
  {
    var v := DeletedAll(w, o, {});
    assert v.rows == w.rows && v.datasources == w.datasources && v.cache == w.cache;
  }

  lemma DeleteOneMore(w: World, o: Outcome, ids: set<Id>, id: Id)
    requires id !in ids
    ensures DeletedAll(w, o, ids + {id}) == Deleted(DeletedAll(w, o, ids), o, id)
  {
    var u, v := DeletedAll(w, o, ids + {id}), Deleted(DeletedAll(w, o, ids), o, id);
    assert u.rows == v.rows;
    assert u.cache == v.cache;
    assert u.datasources == v.datasources;
  }

  ghost function Ids(objects: seq<DataSource>): set<Id> { set ds | ds in objects :: ds.id }

  lemma OneMoreId(objects: seq<DataSource>, i: nat)
    requires i < |objects|
    ensures Ids(objects[..i + 1]) == Ids(objects[..i]) + {objects[i].id}
  {
    assert objects[..i + 1] == objects[..i] + [objects[i]];
  }

  lemma IdsAreRemote(objects: seq<DataSource>, remote: seq<Id>)
    requires |objects| == |remote| && forall i | 0 <= i < |remote| :: objects[i].id == remote[i]
    ensures Ids(objects) == (set id | id in remote)
  {
    forall id | id in remote ensures id in Ids(objects) {
      var i :| 0 <= i < |remote| && remote[i] == id;
      assert objects[i] in objects;
    }
  }
}
