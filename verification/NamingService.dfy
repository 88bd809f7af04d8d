/** Naming in the program's own form: a database changed by transactions, a data source whose name is set, and the
    retry loop.  The transactions of one attempt are the steps of the naming specification. */
module NamingServices {
  import opened CaseFolding
  import opened Prelude
  import opened NameSuffix
  import opened Naming
  import opened NamingBases

  class Database {
    var rows: map<string, string>
    var virtualizations: set<string>

    constructor ()
      ensures Contents() == Table(map[], {})
    {
      rows, virtualizations := map[], {};
    }

    function Contents(): Table
      reads this
    {
      Table(rows, virtualizations)
    }

    /** Inserts a row, or fails and changes nothing when a unique column would repeat a value. */
    method CreateSchema(id: string, name: string) returns (saved: bool)
      modifies this
      ensures saved <==> id !in old(rows) && !Taken(old(Contents()), Upper(name))
      ensures Contents() == if saved then old(Contents()).(rows := old(rows)[id := name]) else old(Contents())
    {
      saved := id !in rows && !Taken(Contents(), Upper(name));
      if saved {
        rows := rows[id := name];
      }
    }
  }

  class DataSource {
    const id: string
    const syndesisName: string
    var teiidName: Option<string>

    constructor (id: string, syndesisName: string)
      ensures this.id == id && this.syndesisName == syndesisName && teiidName == None
    {
      this.id, this.syndesisName, teiidName := id, syndesisName, None;
    }
  }

  /** The three transactions of one attempt that nobody disturbs. */
  function Attempt(t: Table, reserved: set<string>, id: string, syndesisName: string, val: Int32): (Table, Call) {
    Commit(t, ChooseName(t, reserved, ReadRow(t, Started(id, syndesisName)), val))
  }

  /** The connection cannot be named with the random word `val`. */
  predicate Hopeless(t: Table, reserved: set<string>, id: string, base: string, val: Int32) {
    && id !in t.rows
    && (Upper(base) in reserved || Taken(t, Upper(base)))
    && Taken(t, Upper(NameOf(base, Suffixed(val))))
  }

  /** An attempt fails exactly when its draw is hopeless, and then changes nothing. */
  lemma AttemptFails(t: Table, reserved: set<string>, id: string, syndesisName: string, val: Int32)
    ensures var (u, c) := Attempt(t, reserved, id, syndesisName, val);
            && (c.phase.Named? <==> !Hopeless(t, reserved, id, Base(syndesisName), val))
            && (c.phase.Named? ==> u == t.(rows := t.rows[id := c.phase.name])
                                   && (id in t.rows ==> c.phase.name == t.rows[id]))
            && (!c.phase.Named? ==> u == t)
  {
    if id in t.rows { assert t.rows[id := t.rows[id]] == t.rows; }
  }

  /** A connection that has a row keeps that name; one without a row gets its base if nothing goes by that name
      in whichever case, and otherwise its base, an underscore and five random characters, or nothing. */
  lemma AttemptGives(t: Table, reserved: set<string>, id: string, syndesisName: string, val: Int32)
    ensures var (u, c) := Attempt(t, reserved, id, syndesisName, val);
            var base := Base(syndesisName);
            var other := base + "_" + Suffix(val);
            if id in t.rows then u == t && c.phase == Named(t.rows[id])
            else if Upper(base) !in reserved && !Taken(t, Upper(base)) then
              u.rows == t.rows[id := base] && u.virtualizations == t.virtualizations && c.phase == Named(base)
            else if !Taken(t, Upper(other)) then
              && u.rows == t.rows[id := other] && u.virtualizations == t.virtualizations && c.phase == Named(other)
              && |other| == |base| + 6
            else u == t && !c.phase.Named?
  {}

  /** A name that needs no change and that nothing goes by. */
  predicate Untouched(t: Table, reserved: set<string>, name: string) {
    |name| <= 249 && (forall c | c in name :: !IsProblematic(c)) && Upper(name) !in reserved && !Taken(t, Upper(name))
  }

  /** One attempt in the program's form.  `val` is the random word.  It is the composition of the three
      transactions.  An unnamed connection whose name needs no change gets exactly that name, if nothing goes by
      it. */
  method GetUniqueKomodoName(db: Database, reserved: set<string>, scd: DataSource, val: Int32) returns (name: Option<string>)
    modifies db
    ensures var (u, c) := Attempt(old(db.Contents()), reserved, scd.id, scd.syndesisName, val);
            db.Contents() == u && name == if c.phase.Named? then Some(c.phase.name) else None
    ensures scd.id !in old(db.rows) && Untouched(old(db.Contents()), reserved, scd.syndesisName) ==> name == Some(scd.syndesisName)
  {
    if scd.id in db.rows {
      return Some(db.rows[scd.id]);
    }
    var toUse := Base(scd.syndesisName);
    if Untouched(db.Contents(), reserved, scd.syndesisName) { GoodNameIsItsBase(scd.syndesisName); }
    if Upper(toUse) in reserved || Taken(db.Contents(), Upper(toUse)) {
      var rand := RandomCharacters(val);
      toUse := toUse + "_" + rand[..];
    }
    var saved := db.CreateSchema(scd.id, toUse);
    name := if saved then Some(toUse) else None;
  }

  /** What one pass of the retry loop tries, whose failure the loop catches. */
  method TryToName(db: Database, reserved: set<string>, scd: DataSource, val: Int32)
    modifies db, scd`teiidName
    ensures scd.teiidName.None? <==> Hopeless(old(db.Contents()), reserved, scd.id, Base(scd.syndesisName), val)
    ensures scd.teiidName.None? ==> db.Contents() == old(db.Contents())
    ensures scd.teiidName.Some? ==>
              && db.Contents() == old(db.Contents()).(rows := old(db.rows)[scd.id := scd.teiidName.value])
              && (scd.id in old(db.rows) ==> scd.teiidName.value == old(db.rows)[scd.id])
  {
    AttemptFails(db.Contents(), reserved, scd.id, scd.syndesisName, val);
    var name := GetUniqueKomodoName(db, reserved, scd, val);
    scd.teiidName := name;
  }

  /** The retry loop of a pod that nobody disturbs: it ends in a conflict exactly when the connection is unnamed,
      its base is in use and every draw gives a name in use; otherwise the data source gets the name of its row. */
  method CreateDataSource(db: Database, reserved: set<string>, scd: DataSource, draws: seq<Int32>) returns (conflict: bool)
    requires |draws| == ATTEMPTS
    modifies db, scd`teiidName
    ensures conflict <==> old(scd.teiidName).None?
                          && forall i | 0 <= i < ATTEMPTS ::
                               Hopeless(old(db.Contents()), reserved, scd.id, Base(scd.syndesisName), draws[i])
    ensures conflict || old(scd.teiidName).Some? ==> db.Contents() == old(db.Contents()) && scd.teiidName == old(scd.teiidName)
    ensures !conflict && old(scd.teiidName).None? ==>
              && scd.teiidName.Some?
              && db.Contents() == old(db.Contents()).(rows := old(db.rows)[scd.id := scd.teiidName.value])
              && (scd.id in old(db.rows) ==> scd.teiidName.value == old(db.rows)[scd.id])
  {
    if scd.teiidName.Some? {
      return false;
    }
    ghost var t := db.Contents();
    var i := 0;
    while i < ATTEMPTS && scd.teiidName.None?
      invariant i <= ATTEMPTS
      invariant scd.teiidName.None? ==> db.Contents() == t && forall j | 0 <= j < i :: Hopeless(t, reserved, scd.id, Base(scd.syndesisName), draws[j])
      invariant scd.teiidName.Some? ==>
                  && 0 < i && !Hopeless(t, reserved, scd.id, Base(scd.syndesisName), draws[i - 1])
                  && db.Contents() == t.(rows := t.rows[scd.id := scd.teiidName.value])
                  && (scd.id in t.rows ==> scd.teiidName.value == t.rows[scd.id])
    {
      TryToName(db, reserved, scd, draws[i]);
      i := i + 1;
    }
    conflict := scd.teiidName.None?;
  }
}
