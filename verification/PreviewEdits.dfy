/** The preview of one virtualization is cached under the virtualization's version.  Edits of its views bump
    that version only in some of their branches; this module specifies the edits and the cached preview. */
module PreviewEdits {
  import opened CaseFolding
  import opened Prelude

  datatype View = View(
    id: string,
    name: string,
    ddl: Option<string>,
    description: Option<string>,
    complete: bool,
    userDefined: bool,
    parsable: bool,
    sourcePaths: seq<string>)

  datatype Cached = Cached(version: nat, ddl: string)

  datatype State = State(version: nat, views: seq<View>, cache: Option<Cached>)

  /** An upsert request.  `stale` says that it names a version other than the stored one. */
  datatype Request = Request(
    id: Option<string>,
    name: string,
    ddl: Option<string>,
    description: Option<string>,
    complete: bool,
    userDefined: bool,
    sourcePaths: seq<string>,
    stale: bool)

  /** What parsing a view's DDL reports: whether it declares a table of the view's name, whether it declares
      anything else, whether parsing ended in an exception, and the table's annotation. */
  datatype Parsed = Parsed(table: bool, multiple: bool, failed: bool, annotation: Option<string>)

  /** One imported table: its name and path, the id a new view would get, the DDL generated for it (absent
      when the generator throws). */
  datatype Import = Import(name: string, path: string, newId: string, generated: Option<string>)

  // ---------------------------------------------------------------- the preview

  /** A view takes part in the preview when it is complete and parsable. */
  predicate Live(v: View) { v.complete && v.parsable }

  /** A view's share of the preview: its DDL, preceded by a semicolon unless it ends with one. */
  function Text(ddl: string): string {
    (if |ddl| > 0 && ddl[|ddl| - 1] == ';' then "" else ";") + ddl + "\n"
  }

  /** The preview's DDL; absent when building it throws, on a live view without DDL. */
  function Build(views: seq<View>): Option<string> {
    if views == [] then Some("")
    else
      var front, last := Build(views[..|views| - 1]), views[|views| - 1];
      if front.None? then None
      else if !Live(last) then front
      else if last.ddl.None? then None
      else Some(front.value + Text(last.ddl.value))
  }

  // ---------------------------------------------------------------- looking up views

  function IndexById(views: seq<View>, id: string): (i: nat)
    ensures i <= |views|
    ensures i < |views| ==> views[i].id == id
    ensures i == |views| ==> forall v | v in views :: v.id != id
  {
    if views == [] then 0 else if views[0].id == id then 0 else 1 + IndexById(views[1..], id)
  }

  function IndexByName(views: seq<View>, name: string): (i: nat)
    ensures i <= |views|
    ensures i < |views| ==> Upper(views[i].name) == Upper(name)
    ensures i == |views| ==> forall j | 0 <= j < i :: Upper(views[j].name) != Upper(name)
  {
    if views == [] then 0
    else if Upper(views[0].name) == Upper(name) then 0
    else
      var i := IndexByName(views[1..], name);
      assert forall j | 0 < j < |views| :: views[j] == views[1..][j - 1];
      1 + i
  }

  lemma IndexByNameAppend(a: seq<View>, b: seq<View>, name: string)
    ensures IndexByName(a + b, name) == if IndexByName(a, name) < |a| then IndexByName(a, name) else |a| + IndexByName(b, name)
  {
    if a == [] {
      assert a + b == b;
    } else {
      assert (a + b)[1..] == a[1..] + b;
      IndexByNameAppend(a[1..], b, name);
    }
  }

  // ---------------------------------------------------------------- edits

  /** The view that an edit starts from: the stored one with its paths cleared, or a new one. */
  function Draft(v: View, r: Request): View {
    v.(ddl := r.ddl, description := r.description, sourcePaths := r.sourcePaths,
       complete := r.complete, userDefined := r.userDefined)
  }

  function NewView(id: string, name: string): View {
    View(id, name, None, None, false, false, false, [])
  }

  predicate Regenerates(v: View, isNew: bool, r: Request) {
    r.complete && !r.userDefined && (r.ddl.None? || isNew || r.sourcePaths != v.sourcePaths || !v.parsable)
  }

  predicate Reparses(v: View, r: Request) {
    r.complete && r.userDefined && r.ddl.Some? && r.ddl != v.ddl
  }

  /** The edited view and whether the virtualization is touched; absent when the DDL generator throws. */
  function Edited(v: View, isNew: bool, r: Request, parsed: Parsed, generated: Option<string>): Option<(View, bool)> {
    var draft := Draft(v, r);
    if Regenerates(v, isNew, r) then
      if generated.None? then None else Some((draft.(ddl := generated, parsable := true), true))
    else if Reparses(v, r) then
      var bare := draft.(sourcePaths := []);
      if parsed.table && !parsed.multiple then
        var described := if parsed.annotation.Some? then bare.(description := parsed.annotation) else bare;
        if parsed.failed then Some((described, isNew)) else Some((described.(parsable := true), true))
      else Some((bare.(parsable := false), isNew || v.parsable))
    else Some((draft, r.complete && isNew))
  }

  function Touched(s: State, touched: bool): State {
    if touched then s.(version := s.version + 1) else s
  }

  predicate Rejected(s: State, r: Request) {
    if r.id.Some? then
      var i := IndexById(s.views, r.id.value);
      i == |s.views| || r.stale || r.name != s.views[i].name
    else
      var i := IndexByName(s.views, r.name);
      i < |s.views| && r.name != s.views[i].name
  }

  function Target(s: State, r: Request): nat {
    if r.id.Some? then IndexById(s.views, r.id.value) else IndexByName(s.views, r.name)
  }

  /** An upsert; a request that throws leaves the state as it was. */
  function Upserted(s: State, r: Request, newId: string, parsed: Parsed, generated: Option<string>): State {
    if Rejected(s, r) then s
    else
      var i := Target(s, r);
      if i < |s.views| then
        match Edited(s.views[i], false, r, parsed, generated)
        case None => s
        case Some((v, touched)) => Touched(s.(views := s.views[i := v]), touched)
      else
        match Edited(NewView(newId, r.name), true, r, parsed, generated)
        case None => s
        case Some((v, touched)) => Touched(s.(views := s.views + [v]), touched)
  }

  function Removed(s: State, id: string): State {
    var i := IndexById(s.views, id);
    if i == |s.views| then s
    else Touched(s.(views := s.views[..i] + s.views[i + 1..]), Live(s.views[i]))
  }

  /** The views after importing tables in order; absent when the generator throws or two new views clash.
      `stored` counts the views that were there before. */
  function ImportedViews(views: seq<View>, stored: nat, imports: seq<Import>): Option<seq<View>>
    requires stored <= |views|
    decreases |imports|
  {
    if imports == [] then Some(views)
    else
      var t := imports[0];
      var i := IndexByName(views, t.name);
      if t.generated.None? || stored <= i < |views| then None
      else if i < |views| then
        var v := views[i].(userDefined := false, ddl := t.generated, description := None, complete := true,
                           parsable := true, sourcePaths := [t.path]);
        ImportedViews(views[i := v], stored, imports[1..])
      else
        var v := NewView(t.newId, t.name).(ddl := t.generated, complete := true, parsable := true, sourcePaths := [t.path]);
        ImportedViews(views + [v], stored, imports[1..])
  }

  function Imported(s: State, imports: seq<Import>): State {
    match ImportedViews(s.views, |s.views|, imports)
    case None => s
    case Some(views) => Touched(s.(views := views), true)
  }

  /** Serving a preview: the cached one if its version is current, else one built now. */
  function Served(s: State): State {
    if s.cache.Some? && s.cache.value.version == s.version then s
    else
      match Build(s.views)
      case None => s
      case Some(ddl) => s.(cache := Some(Cached(s.version, ddl)))
  }

  datatype Action =
    | Upsert(r: Request, newId: string, parsed: Parsed, generated: Option<string>)
    | RemoveView(id: string)
    | ImportViews(imports: seq<Import>)
    | Serve
    | DropPreview

  function Step(s: State, a: Action): State {
    match a
    case Upsert(r, newId, parsed, generated) => Upserted(s, r, newId, parsed, generated)
    case RemoveView(id) => Removed(s, id)
    case ImportViews(imports) => Imported(s, imports)
    case Serve => Served(s)
    case DropPreview => s.(cache := None)
  }

  const Init := State(0, [], None)

  function Run(s: State, actions: seq<Action>): State {
    if actions == [] then s else Step(Run(s, actions[..|actions| - 1]), actions[|actions| - 1])
  }

  // ---------------------------------------------------------------- coherence

  predicate Current(s: State) { s.cache.Some? && s.cache.value.version == s.version }

  /** A preview cached under the current version is the one that would be built now. */
  predicate Coherent(s: State) { Current(s) ==> Build(s.views) == Some(s.cache.value.ddl) }

  predicate Inv(s: State) { Coherent(s) && (s.cache.Some? ==> s.cache.value.version <= s.version) }

  predicate SameText(a: Option<string>, b: Option<string>) {
    a.Some? && b.Some? && Text(a.value) == Text(b.value)
  }

  /** The edits of a stored view that change its share of the preview without touching the version, told from
      the stored view, the request and the parser's report alone. */
  predicate Harmful(v: View, r: Request, parsed: Parsed) {
    if !r.complete then
      Live(v)                                                        // taken out of the preview
    else if !r.userDefined then
      !Regenerates(v, false, r) && !(v.complete && SameText(v.ddl, r.ddl))   // DDL trusted to the user interface
    else if r.ddl.None? then
      v.parsable                                                     // left live without DDL
    else if r.ddl == v.ddl then
      v.parsable && !v.complete                                      // completed with unchanged DDL
    else
      parsed.table && !parsed.multiple && parsed.failed              // parse error on a view that stays parsable
      && v.parsable && !(v.complete && SameText(v.ddl, r.ddl))
  }

  predicate HarmfulStep(s: State, a: Action) {
    && a.Upsert? && Current(s) && !Rejected(s, a.r)
    && Target(s, a.r) < |s.views|
    && Harmful(s.views[Target(s, a.r)], a.r, a.parsed)
  }

  predicate AlwaysCoherent(s: State, actions: seq<Action>) {
    Coherent(Run(s, actions)) && (actions == [] || AlwaysCoherent(s, actions[..|actions| - 1]))
  }

  predicate NeverHarmful(s: State, actions: seq<Action>) {
    actions == [] ||
    var n := |actions| - 1;
    NeverHarmful(s, actions[..n]) && !HarmfulStep(Run(s, actions[..n]), actions[n])
  }
}
