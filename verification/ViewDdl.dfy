/** The text generated for a view over one source table, and a parser for it written from the grammar alone. */
module ViewDdl {
  import opened Prelude

  // ---------------------------------------------------------------- what a view says

  datatype KeyKind = PrimaryKey | Unique

  datatype Key = Key(kind: KeyKind, columns: seq<string>)

  /** A view: its declared columns, the key clause, the annotation, the select items and the source table. */
  datatype View = View(
    name: string,
    columns: seq<string>,
    key: Option<Key>,
    annotation: Option<string>,
    selected: seq<string>,
    schema: string,
    table: string)

  function Keyword(kind: KeyKind): string { if kind.PrimaryKey? then "PRIMARY KEY(" else "UNIQUE(" }

  function Join(names: seq<string>): string {
    if names == [] then ""
    else if |names| == 1 then names[0]
    else names[0] + ", " + Join(names[1..])
  }

  function KeyText(key: Option<Key>): string {
    match key
    case None => ""
    case Some(k) => ", " + Keyword(k.kind) + Join(k.columns) + ")"
  }

  function AnnotationText(annotation: Option<string>): string {
    match annotation
    case None => ""
    case Some(text) => "OPTIONS (ANNOTATION '" + text + "') "
  }

  // The text is put together from its last part to its first.

  function Source(v: View): string { v.schema + ("." + v.table) }

  function Query(v: View): string { "AS \nSELECT " + (Join(v.selected) + ("\nFROM " + Source(v))) }

  function Print(v: View): string {
    "CREATE VIEW " + (v.name + (" (" + (Join(v.columns) + (KeyText(v.key) + (") " + (AnnotationText(v.annotation) + Query(v)))))))
  }

  // ---------------------------------------------------------------- the parser

  predicate IsDelimiter(c: char) { c in {',', '(', ')', ' ', '\n', '\'', '.'} }

  predicate Starts(s: string, prefix: string) { |prefix| <= |s| && s[..|prefix|] == prefix }

  /** The text after a prefix. */
  function After(s: string, prefix: string): (r: Option<string>)
    ensures r.Some? ==> |r.value| == |s| - |prefix|
  {
    if Starts(s, prefix) then Some(s[|prefix|..]) else None
  }

  /** A stretch free of delimiters, and the rest. */
  function Name(s: string): (r: (string, string))
    ensures |r.0| + |r.1| == |s|
  {
    if s == "" || IsDelimiter(s[0]) then ("", s)
    else
      var (n, rest) := Name(s[1..]);
      ([s[0]] + n, rest)
  }

  predicate StartsKey(s: string) { Starts(s, "PRIMARY KEY(") || Starts(s, "UNIQUE(") }

  /** Names separated by commas, up to a key clause or anything else. */
  function Names(s: string): (r: (seq<string>, string))
    ensures |r.1| <= |s|
    decreases |s|
  {
    var (n, rest) := Name(s);
    if n == "" then ([], s)
    else if Starts(rest, ", ") && !StartsKey(rest[2..]) then
      var (more, end) := Names(rest[2..]);
      ([n] + more, end)
    else ([n], rest)
  }

  function ParseKeyOf(kind: KeyKind, s: string): Option<(Key, string)> {
    match After(s, ", " + Keyword(kind))
    case None => None
    case Some(list) =>
      var (columns, rest) := Names(list);
      match After(rest, ")")
      case None => None
      case Some(end) => Some((Key(kind, columns), end))
  }

  function ParseKey(s: string): (Option<Key>, string) {
    match ParseKeyOf(PrimaryKey, s)
    case Some(r) => (Some(r.0), r.1)
    case None =>
      match ParseKeyOf(Unique, s)
      case Some(r) => (Some(r.0), r.1)
      case None => (None, s)
  }

  function UpToQuote(s: string): (r: (string, string))
    ensures |r.0| + |r.1| == |s|
  {
    if s == "" || s[0] == '\'' then ("", s)
    else
      var (text, rest) := UpToQuote(s[1..]);
      ([s[0]] + text, rest)
  }

  function ParseAnnotation(s: string): Option<(Option<string>, string)> {
    match After(s, "OPTIONS (ANNOTATION '")
    case None => Some((None, s))
    case Some(quoted) =>
      var (text, rest) := UpToQuote(quoted);
      match After(rest, "') ")
      case None => None
      case Some(end) => Some((Some(text), end))
  }

  /** The select items and the source table. */
  function ParseQuery(s: string): Option<(seq<string>, string, string)> {
    match After(s, "AS \nSELECT ")
    case None => None
    case Some(items) =>
      var (selected, rest) := Names(items);
      match After(rest, "\nFROM ")
      case None => None
      case Some(source) =>
        var (schema, dotted) := Name(source);
        match After(dotted, ".")
        case None => None
        case Some(last) =>
          var (table, end) := Name(last);
          if end == "" then Some((selected, schema, table)) else None
  }

  function Parse(s: string): Option<View> {
    match After(s, "CREATE VIEW ")
    case None => None
    case Some(named) =>
      var (name, afterName) := Name(named);
      match After(afterName, " (")
      case None => None
      case Some(list) =>
        var (columns, keyed) := Names(list);
        var (key, closed) := ParseKey(keyed);
        match After(closed, ") ")
        case None => None
        case Some(annotated) =>
          match ParseAnnotation(annotated)
          case None => None
          case Some(a) =>
            match ParseQuery(a.1)
            case None => None
            case Some(q) => Some(View(name, columns, key, a.0, q.0, q.1, q.2))
  }

  // ---------------------------------------------------------------- the round trip

  predicate IsName(n: string) { n != "" && forall c | c in n :: !IsDelimiter(c) }

  predicate AllNames(names: seq<string>) { forall i | 0 <= i < |names| :: IsName(names[i]) }

  /** All names are free of delimiters, the annotation of quotes. */
  predicate WellNamed(v: View) {
    && IsName(v.name) && IsName(v.schema) && IsName(v.table)
    && AllNames(v.columns) && AllNames(v.selected)
    && (v.key.Some? ==> AllNames(v.key.value.columns))
    && (v.annotation.Some? ==> '\'' !in v.annotation.value)
  }

  lemma AfterPrefix(prefix: string, s: string)
    ensures After(prefix + s, prefix) == Some(s)
  {
    assert (prefix + s)[..|prefix|] == prefix && (prefix + s)[|prefix|..] == s;
  }

  lemma {:induction false} NameEnds(n: string, rest: string)
    requires forall c | c in n :: !IsDelimiter(c)
    requires rest != "" ==> IsDelimiter(rest[0])
    ensures Name(n + rest) == (n, rest)
  {
    if n == "" {
      assert n + rest == rest;
    } else {
      assert (n + rest)[1..] == n[1..] + rest;
      NameEnds(n[1..], rest);
      assert n == [n[0]] + n[1..];
    }
  }

  /** After a name no comma, parenthesis or line end makes it a key clause. */
  lemma NamesAreNoKeywords(n: string, rest: string)
    requires IsName(n) && (rest != "" ==> rest[0] in {',', ')', '\n'})
    ensures !StartsKey(n + rest)
  {
    NameEnds(n, rest);
    var s := n + rest;
    if Starts(s, "PRIMARY KEY(") {
      assert s == "PRIMARY" + s[7..] && s[7..][0] == s[..12][7];
      NameEnds("PRIMARY", s[7..]);
    }
    if Starts(s, "UNIQUE(") {
      assert s == "UNIQUE" + s[6..] && s[6..][0] == s[..7][6];
      NameEnds("UNIQUE", s[6..]);
    }
  }

  /** What may follow a list of names. */
  predicate EndsList(rest: string) {
    (rest != "" ==> rest[0] in {',', ')', '\n'}) && (Starts(rest, ", ") ==> StartsKey(rest[2..]))
  }

  lemma OneName(n: string, rest: string)
    requires IsName(n) && EndsList(rest)
    ensures Names(n + rest) == ([n], rest)
  {
    NameEnds(n, rest);
  }

  lemma NameAndMore(n: string, tail: string)
    requires IsName(n) && !StartsKey(tail)
    ensures Names(n + (", " + tail)) == ([n] + Names(tail).0, Names(tail).1)
  {
    var rest := ", " + tail;
    NameEnds(n, rest);
    assert rest[..2] == ", " && rest[2..] == tail;
  }

  lemma NoNames(rest: string)
    requires EndsList(rest)
    ensures Names(Join([]) + rest) == ([], rest)
  {
    assert Join([]) + rest == rest;
    NameEnds("", rest);
    assert "" + rest == rest;
  }

  lemma {:induction false} NamesEnd(names: seq<string>, rest: string)
    requires AllNames(names) && EndsList(rest)
    ensures Names(Join(names) + rest) == (names, rest)
  {
    if names == [] {
      NoNames(rest);
    } else if |names| == 1 {
      OneName(names[0], rest);
      assert names == [names[0]];
    } else {
      var more := names[1..];
      var tail := Join(more) + rest;
      assert Join(names) + rest == names[0] + (", " + tail);
      FirstIsNoKeyword(more, rest);
      NameAndMore(names[0], tail);
      NamesEnd(more, rest);
      assert names == [names[0]] + more;
    }
  }

  lemma FirstIsNoKeyword(names: seq<string>, rest: string)
    requires AllNames(names) && names != [] && EndsList(rest)
    ensures !StartsKey(Join(names) + rest)
  {
    if |names| == 1 {
      NamesAreNoKeywords(names[0], rest);
    } else {
      var tail := ", " + Join(names[1..]) + rest;
      assert Join(names) + rest == names[0] + tail;
      NamesAreNoKeywords(names[0], tail);
    }
  }

  lemma KeyOfKind(k: Key, rest: string)
    requires AllNames(k.columns)
    ensures ParseKeyOf(k.kind, (", " + Keyword(k.kind)) + (Join(k.columns) + (")" + rest))) == Some((k, rest))
  {
    NamesEnd(k.columns, ")" + rest);
    AfterPrefix(", " + Keyword(k.kind), Join(k.columns) + (")" + rest));
    AfterPrefix(")", rest);
  }

  lemma KeyRoundTrip(key: Option<Key>, rest: string)
    requires (key.Some? ==> AllNames(key.value.columns)) && rest != "" && rest[0] == ')'
    ensures ParseKey(KeyText(key) + rest) == (key, rest)
    ensures EndsList(KeyText(key) + rest)
  {
    match key
    case None =>
      assert KeyText(key) + rest == rest;
    case Some(k) =>
      var list := Join(k.columns) + (")" + rest);
      assert KeyText(key) + rest == (", " + Keyword(k.kind)) + list;
      KeyOfKind(k, rest);
      KeywordsDiffer(k.kind, list);
  }

  lemma KeywordsDiffer(kind: KeyKind, list: string)
    ensures var s := (", " + Keyword(kind)) + list;
            && s[..2] == ", " && StartsKey(s[2..])
            && (kind.Unique? ==> After(s, ", " + Keyword(PrimaryKey)) == None)
  {
    var s := (", " + Keyword(kind)) + list;
    assert s[2..] == Keyword(kind) + list;
    AfterPrefix(Keyword(kind), list);
    if kind.Unique? {
      assert s[2] == 'U';
      assert (", " + Keyword(PrimaryKey))[2] == 'P';
    }
  }

  lemma {:induction false} QuoteEnds(text: string, rest: string)
    requires '\'' !in text && rest != "" && rest[0] == '\''
    ensures UpToQuote(text + rest) == (text, rest)
  {
    if text == "" {
      assert text + rest == rest;
    } else {
      assert (text + rest)[1..] == text[1..] + rest;
      QuoteEnds(text[1..], rest);
      assert text == [text[0]] + text[1..];
    }
  }

  lemma AnnotationRoundTrip(annotation: Option<string>, rest: string)
    requires (annotation.Some? ==> '\'' !in annotation.value) && rest != "" && rest[0] == 'A'
    ensures ParseAnnotation(AnnotationText(annotation) + rest) == Some((annotation, rest))
  {
    match annotation
    case None =>
      assert AnnotationText(annotation) + rest == rest;
      assert "OPTIONS (ANNOTATION '"[0] == 'O';
    case Some(text) =>
      var closing := "') " + rest;
      assert AnnotationText(annotation) + rest == "OPTIONS (ANNOTATION '" + (text + closing);
      AfterPrefix("OPTIONS (ANNOTATION '", text + closing);
      QuoteEnds(text, closing);
      AfterPrefix("') ", rest);
  }

  lemma QueryRoundTrip(v: View)
    requires WellNamed(v)
    ensures ParseQuery(Query(v)) == Some((v.selected, v.schema, v.table))
  {
    var source := "\nFROM " + Source(v);
    AfterPrefix("AS \nSELECT ", Join(v.selected) + source);
    NamesEnd(v.selected, source);
    AfterPrefix("\nFROM ", Source(v));
    NameEnds(v.schema, "." + v.table);
    AfterPrefix(".", v.table);
    NameEnds(v.table, "");
    assert v.table + "" == v.table;
  }

  /** Parsing undoes printing: the text of a view says exactly what the view says. */
  lemma RoundTrip(v: View)
    requires WellNamed(v)
    ensures Parse(Print(v)) == Some(v)
  {
    var annotated := AnnotationText(v.annotation) + Query(v);
    var closed := ") " + annotated;
    var keyed := KeyText(v.key) + closed;
    var list := Join(v.columns) + keyed;
    AfterPrefix("CREATE VIEW ", v.name + (" (" + list));
    NameEnds(v.name, " (" + list);
    AfterPrefix(" (", list);
    KeyRoundTrip(v.key, closed);
    NamesEnd(v.columns, keyed);
    AfterPrefix(") ", annotated);
    AnnotationRoundTrip(v.annotation, Query(v));
    QueryRoundTrip(v);
  }

  // ---------------------------------------------------------------- the view of a table

  /** A source table; a name is escaped wherever it is printed, except in the key clause. */
  datatype Table = Table(
    schema: string,
    name: string,
    columns: seq<string>,
    primaryKey: Option<seq<string>>,
    uniqueKeys: seq<seq<string>>)

  /** The names in the order of their first appearance. */
  function Distinct(names: seq<string>): (r: seq<string>)
    ensures forall n :: n in r <==> n in names
  {
    if names == [] then []
    else
      var n := |names| - 1;
      var front := Distinct(names[..n]);
      if names[n] in front then front else front + [names[n]]
  }

  function Escaped(names: seq<string>, escape: string -> string): (r: seq<string>)
    ensures |r| == |names| && forall i | 0 <= i < |names| :: r[i] == escape(names[i])
  {
    seq(|names|, i requires 0 <= i < |names| => escape(names[i]))
  }

  /** The primary key, or else the first unique key. */
  function Constraint(t: Table): Option<Key> {
    match t.primaryKey
    case Some(columns) => Some(Key(PrimaryKey, columns))
    case None => if t.uniqueKeys == [] then None else Some(Key(Unique, t.uniqueKeys[0]))
  }

  function UsableKey(t: Table, columns: seq<string>): Option<Key> {
    match Constraint(t)
    case None => None
    case Some(key) => if forall c | c in key.columns :: c in columns then Some(key) else None
  }

  function ViewOf(name: string, description: Option<string>, t: Table, escape: string -> string): View {
    var columns := Distinct(Escaped(t.columns, escape));
    View(escape(name), columns, UsableKey(t, columns),
         if description == Some("") then None else description,
         columns, escape(t.schema), escape(t.name))
  }

  lemma {:induction false} DistinctOnce(names: seq<string>, i: nat, j: nat)
    requires i < j < |Distinct(names)|
    ensures Distinct(names)[i] != Distinct(names)[j]
  {
    var n := |names| - 1;
    if j < |Distinct(names[..n])| { DistinctOnce(names[..n], i, j); }
  }

  /** Names without repetition keep their places. */
  lemma {:induction false} DistinctKeeps(names: seq<string>)
    requires forall i, j | 0 <= i < j < |names| :: names[i] != names[j]
    ensures Distinct(names) == names
  {
    if names != [] {
      var n := |names| - 1;
      DistinctKeeps(names[..n]);
      assert names == names[..n] + [names[n]];
    }
  }

  /** Names are in the order of their first appearance: more names only add at the end. */
  lemma {:induction false} DistinctGrows(names: seq<string>, k: nat)
    requires k <= |names|
    ensures Distinct(names[..k]) <= Distinct(names)
    decreases |names|
  {
    if k < |names| {
      var n := |names| - 1;
      assert names[..n][..k] == names[..k];
      DistinctGrows(names[..n], k);
    } else {
      assert names[..k] == names;
    }
  }

  /** The table has a primary key with these columns; or it has none, and its first unique key has them. */
  predicate HasKey(t: Table, kind: KeyKind, columns: seq<string>) {
    if t.primaryKey.Some? then kind == PrimaryKey && columns == t.primaryKey.value
    else kind == Unique && t.uniqueKeys != [] && columns == t.uniqueKeys[0]
  }

  /** What the printed view of a table says, read back by the parser: it declares each of the table's columns
      once and selects them in the same order; it has the description for an annotation, unless that is empty; the
      key clause is the table's primary key, or its first unique key if it has none, and is there if and only if
      all its columns are declared; and for columns with different names under an injective escape, the columns
      are the table's, in the table's order. */
  lemma PrintedViewOfTable(name: string, description: Option<string>, t: Table, escape: string -> string)
    requires WellNamed(ViewOf(name, description, t, escape))
    ensures var parsed := Parse(Print(ViewOf(name, description, t, escape)));
            && parsed.Some?
            && var v := parsed.value;
            && v.name == escape(name) && v.schema == escape(t.schema) && v.table == escape(t.name)
            && v.selected == v.columns
            && (forall c :: c in v.columns <==> c in Escaped(t.columns, escape))
            && (forall i, j | 0 <= i < j < |v.columns| :: v.columns[i] != v.columns[j])
            && v.annotation == (if description.Some? && description.value != "" then description else None)
            && (v.key.Some? ==>
                  && HasKey(t, v.key.value.kind, v.key.value.columns)
                  && forall c | c in v.key.value.columns :: c in v.columns)
            && (forall kind, columns | HasKey(t, kind, columns) && v.key.None? :: exists c | c in columns :: c !in v.columns)
            && ((forall a, b :: escape(a) == escape(b) ==> a == b) && (forall i, j | 0 <= i < j < |t.columns| :: t.columns[i] != t.columns[j])
                ==> v.columns == Escaped(t.columns, escape))
  {
    var v := ViewOf(name, description, t, escape);
    RoundTrip(v);
    var names := Escaped(t.columns, escape);
    forall i: nat, j: nat | i < j < |v.columns| ensures v.columns[i] != v.columns[j] { DistinctOnce(names, i, j); }
    if (forall a, b :: escape(a) == escape(b) ==> a == b) && (forall i, j | 0 <= i < j < |t.columns| :: t.columns[i] != t.columns[j]) {
      DistinctKeeps(names);
    }
  }

  /** Escaping leaves a name alone or puts it in quotes. */
  ghost predicate Quotes(escape: string -> string) {
    forall n :: escape(n) == n || escape(n) == "\"" + n + "\""
  }

  predicate IsQuoted(n: string) { n != "" && n[0] == '"' }

  /** The key of a table is printed if and only if none of its columns needs escaping, for an escape that quotes and
      key columns that are columns of the table and are not named with quotes. */
  lemma KeyIsPrinted(name: string, description: Option<string>, t: Table, escape: string -> string, key: Key)
    requires WellNamed(ViewOf(name, description, t, escape)) && Quotes(escape) && HasKey(t, key.kind, key.columns)
    requires forall c | c in key.columns :: c in t.columns && !IsQuoted(c)
    ensures var parsed := Parse(Print(ViewOf(name, description, t, escape)));
            && parsed.Some?
            && parsed.value.key == if forall c | c in key.columns :: escape(c) == c then Some(key) else None
  {
    var v := ViewOf(name, description, t, escape);
    RoundTrip(v);
    var names := Escaped(t.columns, escape);
    forall c | c in key.columns ensures c in v.columns <==> escape(c) == c {
      var i :| 0 <= i < |t.columns| && t.columns[i] == c;
      assert names[i] == escape(c);
      if c in names {
        var j :| 0 <= j < |names| && names[j] == c;
        assert escape(t.columns[j]) == c;
      }
    }
  }

  /** The escape of a language with one reserved word. */
  function Reserving(word: string): string -> string {
    (n: string) => if n == word then "\"" + word + "\"" else n
  }

  lemma QuotedName(word: string)
    requires IsName(word)
    ensures IsName("\"" + word + "\"")
  {}

  lemma OneColumn(word: string, escape: string -> string)
    ensures Distinct(Escaped([word], escape)) == [escape(word)]
  {
    assert Escaped([word], escape) == [escape(word)];
    assert [escape(word)][..0] == [];
  }

  /** A table whose only column is a reserved word loses its primary key, though the column is projected. */
  lemma ReservedKeyIsLeftOut(view: string, schema: string, table: string, word: string)
    requires IsName(view) && IsName(schema) && IsName(table) && IsName(word)
    requires word != view && word != schema && word != table
    ensures var t := Table(schema, table, [word], Some([word]), []);
            var quoted := "\"" + word + "\"";
            var v := ViewOf(view, None, t, Reserving(word));
            && v == View(view, [quoted], None, None, [quoted], schema, table)
            && HasKey(t, PrimaryKey, [word])
            && Parse(Print(v)) == Some(v)
  {
    var v := ViewOf(view, None, Table(schema, table, [word], Some([word]), []), Reserving(word));
    var quoted := "\"" + word + "\"";
    OneColumn(word, Reserving(word));
    QuotedName(word);
    assert |quoted| != |word| && word in [word];
    assert v == View(view, [quoted], None, None, [quoted], schema, table);
    RoundTrip(v);
  }

  // ---------------------------------------------------------------- the generator

  lemma {:induction false} JoinExtends(names: seq<string>, n: string)
    ensures Join(names + [n]) == (if names == [] then "" else Join(names) + ", ") + n
  {
    if |names| > 0 {
      var more := names[1..];
      assert (names + [n])[1..] == more + [n];
      JoinExtends(more, n);
      if more != [] { assert Join(names) == names[0] + ", " + Join(more); }
    }
  }

  /** The loop that appends a list of names with separators between them. */
  method AppendNames(sb: string, names: seq<string>) returns (r: string)
    ensures r == sb + Join(names)
  {
    r := sb;
    var i := 0;
    while i < |names|
      invariant 0 <= i <= |names|
      invariant r == sb + Join(names[..i]) + if 0 < i < |names| then ", " else ""
    {
      JoinExtends(names[..i], names[i]);
      assert names[..i + 1] == names[..i] + [names[i]];
      r := r + names[i];
      i := i + 1;
      if i < |names| {
        r := r + ", ";
      }
    }
    assert names[..i] == names;
  }

  /** The columns go into an insertion-ordered map by their escaped names. */
  method CollectColumns(t: Table, escape: string -> string) returns (columns: seq<string>)
    ensures columns == Distinct(Escaped(t.columns, escape))
  {
    ghost var names := Escaped(t.columns, escape);
    columns := [];
    for i := 0 to |t.columns|
      invariant columns == Distinct(names[..i])
    {
      var name := escape(t.columns[i]);
      if name !in columns {
        columns := columns + [name];
      }
      assert names[..i + 1][..i] == names[..i];
    }
    assert names[..|t.columns|] == names;
  }

  /** The key clause is used only if all its columns are projected. */
  method AppendKey(sb: string, t: Table, projected: seq<string>) returns (r: string)
    ensures r == sb + KeyText(UsableKey(t, projected))
  {
    r := sb;
    var constraint := Constraint(t);
    if constraint.Some? {
      var keyCols := constraint.value.columns;
      var usingKey := true;
      for i := 0 to |keyCols|
        invariant usingKey && forall j | 0 <= j < i :: keyCols[j] in projected
      {
        if keyCols[i] !in projected {
          usingKey := false;
          break;
        }
      }
      if usingKey {
        r := r + (", " + Keyword(constraint.value.kind));
        r := AppendNames(r, keyCols);
        r := r + ")";
      }
    }
  }

  lemma Rotate(a: string, b: string, c: string)
    ensures a + (b + c) == (a + b) + c
  {}

  /** The head of the text: up to the opening parenthesis of the column list. */
  method StartView(viewName: string, ghost rest: string) returns (sb: string)
    ensures sb + rest == "CREATE VIEW " + (viewName + (" (" + rest))
  {
    sb := "CREATE VIEW ";
    Rotate(sb, viewName, " (" + rest);
    sb := sb + viewName;
    Rotate(sb, " (", rest);
    assert " " + "(" == " (";
    Rotate(sb, " ", "(");
    sb := sb + " ";
    sb := sb + "(";
  }

  /** The rest of the text, from the select items on. */
  method AppendQuery(sb: string, selected: seq<string>, schema: string, table: string, ghost v: View) returns (r: string)
    requires v.selected == selected && v.schema == schema && v.table == table
    ensures r == sb + Query(v)
  {
    ghost var source := "\nFROM " + Source(v);
    Rotate(sb, "AS \nSELECT ", Join(v.selected) + source);
    r := sb + "AS \nSELECT ";
    Rotate(r, Join(v.selected), source);
    r := AppendNames(r, selected);
    Rotate(r, "\nFROM ", Source(v));
    assert "\n" + "FROM " == "\nFROM ";
    Rotate(r, "\n", "FROM ");
    r := r + "\n";
    r := r + "FROM ";
    r := r + (schema + ("." + table));
  }

  /** The text of a view over one table, appended piece by piece. */
  method GetODataViewDdl(name: string, description: Option<string>, t: Table, escape: string -> string) returns (sb: string)
    ensures sb == Print(ViewOf(name, description, t, escape))
  {
    var columns := CollectColumns(t, escape);
    ghost var v := ViewOf(name, description, t, escape);
    ghost var annotated := AnnotationText(v.annotation) + Query(v);
    ghost var keyed := KeyText(v.key) + (") " + annotated);
    sb := StartView(escape(name), Join(columns) + keyed);
    Rotate(sb, Join(columns), keyed);
    sb := AppendNames(sb, columns);
    Rotate(sb, KeyText(v.key), ") " + annotated);
    sb := AppendKey(sb, t, columns);
    Rotate(sb, ") ", annotated);
    sb := sb + ") ";
    Rotate(sb, AnnotationText(v.annotation), Query(v));
    sb := sb + GetTableAnnotation(description);
    sb := AppendQuery(sb, columns, escape(t.schema), escape(t.name), v);
  }

  function GetTableAnnotation(description: Option<string>): string {
    if description.Some? && |description.value| > 0 then "OPTIONS (ANNOTATION '" + description.value + "') " else ""
  }
}
