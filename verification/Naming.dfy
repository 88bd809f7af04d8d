/** Naming a connection: several pods choose names for connections at once, under two uniqueness constraints
    of the database, and retry when they lose a race.  Each transaction is split into the read of the
    connection's row, the check of the candidate name, and the commit. */
module Naming {
  import opened CaseFolding
  import opened NameSuffix

  const ATTEMPTS: nat := 3
  const MAXIMUM_LENGTH: nat := 255
  const BASE_LENGTH: nat := MAXIMUM_LENGTH - 6

  // ---------------------------------------------------------------- names

  predicate IsProblematic(c: char) {
    c in {'.', '?', '_', ' ', '\t', '\n', '\r', 11 as char, 12 as char}
  }

  function Strip(name: string): (s: string)
    ensures |s| <= |name| && forall c | c in s :: !IsProblematic(c)
  {
    if name == "" then ""
    else if IsProblematic(name[0]) then Strip(name[1..])
    else [name[0]] + Strip(name[1..])
  }

  /** The connection's own name, without problematic characters and cut to length. */
  function Base(name: string): (s: string)
    ensures |s| <= BASE_LENGTH && forall c | c in s :: !IsProblematic(c)
  {
    var s := Strip(name);
    if |s| > BASE_LENGTH then s[..BASE_LENGTH] else s
  }

  datatype Candidate = Plain | Suffixed(val: Int32)

  function NameOf(base: string, c: Candidate): string {
    match c
    case Plain => base
    case Suffixed(val) => base + "_" + Suffix(val)
  }

  // ---------------------------------------------------------------- the shared table and one call

  /** The table's two unique columns: the connection id of each source row with its name, and the upper-cased
      names of the virtualizations, which live in the same table. */
  datatype Table = Table(rows: map<string, string>, virtualizations: set<string>)

  predicate Taken(t: Table, upper: string) {
    upper in t.virtualizations || exists id | id in t.rows :: Upper(t.rows[id]) == upper
  }

  datatype Loss = LostById | LostByName(candidate: Candidate)

  datatype Phase = Reading | Choosing | Saving(candidate: Candidate) | Named(name: string) | GaveUp

  /** One call that has to name connection `id`; `lost` lists the commits it has lost so far. */
  datatype Call = Call(id: string, base: string, phase: Phase, lost: seq<Loss>)

  function Started(id: string, syndesisName: string): Call { Call(id, Base(syndesisName), Reading, []) }

  function ReadRow(t: Table, c: Call): Call {
    if !c.phase.Reading? then c
    else if c.id in t.rows then c.(phase := Named(t.rows[c.id]))
    else c.(phase := Choosing)
  }

  function ChooseName(t: Table, reserved: set<string>, c: Call, val: Int32): Call {
    if !c.phase.Choosing? then c
    else if Upper(c.base) in reserved || Taken(t, Upper(c.base)) then c.(phase := Saving(Suffixed(val)))
    else c.(phase := Saving(Plain))
  }

  function Lose(c: Call, loss: Loss): Call {
    c.(lost := c.lost + [loss], phase := if |c.lost| + 1 < ATTEMPTS then Reading else GaveUp)
  }

  /** The commit, under both uniqueness constraints. */
  function Commit(t: Table, c: Call): (Table, Call) {
    if !c.phase.Saving? then (t, c)
    else
      var name := NameOf(c.base, c.phase.candidate);
      if c.id in t.rows then (t, Lose(c, LostById))
      else if Taken(t, Upper(name)) then (t, Lose(c, LostByName(c.phase.candidate)))
      else (t.(rows := t.rows[c.id := name]), c.(phase := Named(name)))
  }

  // ---------------------------------------------------------------- all pods together

  datatype State = State(table: Table, reserved: set<string>, calls: map<nat, Call>)

  datatype Action =
    | Begin(call: nat, id: string, syndesisName: string)
    | Read(call: nat)
    | Choose(call: nat, val: Int32)
    | Save(call: nat)
    | CreateVirtualization(name: string)

  function Init(reserved: set<string>): State { State(Table(map[], {}), reserved, map[]) }

  function Step(s: State, a: Action): State {
    match a
    case Begin(k, id, syndesisName) => s.(calls := s.calls[k := Started(id, syndesisName)])
    case Read(k) => if k in s.calls then s.(calls := s.calls[k := ReadRow(s.table, s.calls[k])]) else s
    case Choose(k, val) =>
      if k in s.calls then s.(calls := s.calls[k := ChooseName(s.table, s.reserved, s.calls[k], val)]) else s
    case Save(k) =>
      if k in s.calls then
        var (t, c) := Commit(s.table, s.calls[k]);
        s.(table := t, calls := s.calls[k := c])
      else s
    case CreateVirtualization(name) =>
      if Taken(s.table, Upper(name)) then s
      else s.(table := s.table.(virtualizations := s.table.virtualizations + {Upper(name)}))
  }

  /** Calls are distinct; nothing else restricts who steps when. */
  predicate Enabled(s: State, a: Action) { a.Begin? ==> a.call !in s.calls }

  function Run(s: State, actions: seq<Action>): State {
    if actions == [] then s else Step(Run(s, actions[..|actions| - 1]), actions[|actions| - 1])
  }

  predicate IsRun(s: State, actions: seq<Action>) {
    actions == [] ||
    var n := |actions| - 1;
    IsRun(s, actions[..n]) && Enabled(Run(s, actions[..n]), actions[n])
  }

  // ---------------------------------------------------------------- the invariant

  /** Names given out are made from a stripped base. */
  ghost predicate Minted(name: string) {
    exists base, c: Candidate :: |base| <= BASE_LENGTH && '_' !in base && name == NameOf(base, c)
  }

  ghost predicate TableOk(t: Table) {
    && (forall id | id in t.rows :: Minted(t.rows[id]) && Upper(t.rows[id]) !in t.virtualizations)
    && (forall i, j | i in t.rows && j in t.rows && i != j :: Upper(t.rows[i]) != Upper(t.rows[j]))
  }

  predicate Unavailable(s: State, base: string) { Upper(base) in s.reserved || Taken(s.table, Upper(base)) }

  /** What the losses of a call say about the table.  A loss by id is answered by the row it lost to, so it can
      only be the latest; after a loss by name the base is in use, so every later candidate is suffixed. */
  ghost predicate LossesOk(s: State, c: Call) {
    && |c.lost| <= ATTEMPTS && (c.phase.GaveUp? <==> |c.lost| == ATTEMPTS)
    && (forall i | 0 <= i < |c.lost| && c.lost[i].LostByName? ::
          Taken(s.table, Upper(NameOf(c.base, c.lost[i].candidate))) && (i > 0 ==> c.lost[i].candidate.Suffixed?))
    && (forall i | 0 <= i < |c.lost| - 1 :: c.lost[i].LostByName?)
    && (c.lost != [] && c.lost[|c.lost| - 1].LostById? ==> c.id in s.table.rows && !c.phase.Choosing? && !c.phase.Saving?)
    && (|c.lost| > 0 && c.lost[0].LostByName? ==> Unavailable(s, c.base))
  }

  ghost predicate CallOk(s: State, c: Call) {
    && |c.base| <= BASE_LENGTH && '_' !in c.base
    && (c.phase.Named? ==> c.id in s.table.rows && s.table.rows[c.id] == c.phase.name)
    && (c.phase.Saving? ==> if c.phase.candidate.Plain? then c.lost == [] else Unavailable(s, c.base))
    && LossesOk(s, c)
  }

  ghost predicate Inv(s: State) {
    TableOk(s.table) && forall k | k in s.calls :: CallOk(s, s.calls[k])
  }
}
