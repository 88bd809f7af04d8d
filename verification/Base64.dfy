/** Base64 between byte arrays and text, in the chunked form of the bundle, against section 4 of RFC 4648.  Bytes
    and sextets are bit vectors, and the code's 32-bit shifts and masks are taken as they are. */
module Base64 {
  type Byte = bv8
  type Sextet = bv6

  const CHUNK: nat := 16383

  /** The two tables of the code: the letter of each sextet, and the number of each letter. */
  datatype Tables = Tables(letters: string, values: map<char, nat>)

  ghost predicate Usable(tables: Tables) {
    && |tables.letters| == 64
    && (forall v | 0 <= v < 64 :: tables.letters[v] in tables.values && tables.values[tables.letters[v]] == v)
    && (forall v | 0 <= v < 64 :: tables.letters[v] != '=')
    && (forall c | c in tables.values :: tables.values[c] < 64)
  }

  function Letter(tables: Tables, v: Sextet): char
    requires Usable(tables)
  {
    tables.letters[v as int]
  }

  /** The sextet of a character; a character that has none counts as zero. */
  function Value(tables: Tables, c: char): Sextet
    requires Usable(tables)
  {
    if c in tables.values then tables.values[c] as bv6 else 0
  }

  lemma LetterHasItsValue(tables: Tables, v: Sextet)
    requires Usable(tables)
    ensures Value(tables, Letter(tables, v)) == v && Letter(tables, v) != '='
  {}

  // The four sextets of the bytes a, b and c.
  function Sextet0(a: Byte): Sextet { (a >> 2) as bv6 }
  function Sextet1(a: Byte, b: Byte): Sextet { (((a & 3) << 4) | (b >> 4)) as bv6 }
  function Sextet2(b: Byte, c: Byte): Sextet { (((b & 15) << 2) | (c >> 6)) as bv6 }
  function Sextet3(c: Byte): Sextet { (c & 63) as bv6 }

  // The three bytes of the sextets u, v, w and x.
  function Byte0(u: Sextet, v: Sextet): Byte { ((u as bv8) << 2) | ((v as bv8) >> 4) }
  function Byte1(v: Sextet, w: Sextet): Byte { (((v as bv8) & 15) << 4) | ((w as bv8) >> 2) }
  function Byte2(w: Sextet, x: Sextet): Byte { (((w as bv8) & 3) << 6) | (x as bv8) }

  lemma BytesOfSextets(a: Byte, b: Byte, c: Byte)
    ensures Byte0(Sextet0(a), Sextet1(a, b)) == a
    ensures Byte1(Sextet1(a, b), Sextet2(b, c)) == b
    ensures Byte2(Sextet2(b, c), Sextet3(c)) == c
  {}

  /** The 24-bit number of three bytes, and the sextets that shifts and masks read off it. */
  function Word(a: Byte, b: Byte, c: Byte): bv32 {
    (((a as bv32) << 16) & 0xff0000) + (((b as bv32) << 8) & 0xff00) + ((c as bv32) & 255)
  }

  function Low6(i: bv32): Sextet { (i & 63) as bv6 }

  lemma WordSextets(a: Byte, b: Byte, c: Byte)
    ensures var i := Word(a, b, c);
            && Low6(i >> 18) == Sextet0(a) && Low6(i >> 12) == Sextet1(a, b)
            && Low6(i >> 6) == Sextet2(b, c) && Low6(i) == Sextet3(c)
  {}

  /** The 24-bit number of four sextets, and the bytes read off it. */
  function Joined(u: Sextet, v: Sextet, w: Sextet, x: Sextet): bv32 {
    ((u as bv32) << 18) | ((v as bv32) << 12) | ((w as bv32) << 6) | (x as bv32)
  }

  function Low8(e: bv32): Byte { (e & 255) as bv8 }

  lemma WordBytes(u: Sextet, v: Sextet, w: Sextet, x: Sextet)
    ensures var e := Joined(u, v, w, x);
            Low8(e >> 16) == Byte0(u, v) && Low8(e >> 8) == Byte1(v, w) && Low8(e) == Byte2(w, x)
  {}

  // ---------------------------------------------------------------- the tables

  function Stretch(first: char, n: nat): (s: string)
    requires first as int + n <= 128
    ensures |s| == n && forall i | 0 <= i < n :: s[i] as int == first as int + i
  {
    seq(n, i requires 0 <= i < n => (first as int + i) as char)
  }

  /** A-Z, a-z, 0-9, then `+` and `/`. */
  function Alphabet(): (s: string)
    ensures |s| == 64
    ensures forall v | 0 <= v < 64 :: s[v] as int == AlphabetCode(v)
  {
    Stretch('A', 26) + Stretch('a', 26) + Stretch('0', 10) + ['+', '/']
  }

  function AlphabetCode(v: int): int {
    if v < 26 then v + 65 else if v < 52 then v + 71 else if v < 62 then v - 4 else if v == 62 then 43 else 47
  }

  /** The loop that fills both tables.  The URL-safe letters are read as well. */
  method BuildTables() returns (tables: Tables)
    ensures Usable(tables) && tables.letters == Alphabet()
    ensures '-' in tables.values && tables.values['-'] == 62 && '_' in tables.values && tables.values['_'] == 63
  {
    var letters := Alphabet();
    var values: map<char, nat> := map[];
    for a := 0 to 64
      invariant forall v | 0 <= v < a :: letters[v] in values && values[letters[v]] == v
      invariant forall c | c in values :: values[c] < 64
    {
      values := values[letters[a] := a];
    }
    values := values['-' := 62]['_' := 63];
    tables := Tables(letters, values);
  }

  // ---------------------------------------------------------------- the standard

  function Group(tables: Tables, a: Byte, b: Byte, c: Byte): string
    requires Usable(tables)
  {
    [Letter(tables, Sextet0(a)), Letter(tables, Sextet1(a, b)), Letter(tables, Sextet2(b, c)), Letter(tables, Sextet3(c))]
  }

  /** Groups of three bytes; a last group of one or two bytes is filled up with zero bits and padded. */
  function Encoding(tables: Tables, t: seq<Byte>): string
    requires Usable(tables)
  {
    if t == [] then ""
    else if |t| == 1 then [Letter(tables, Sextet0(t[0])), Letter(tables, Sextet1(t[0], 0)), '=', '=']
    else if |t| == 2 then
      [Letter(tables, Sextet0(t[0])), Letter(tables, Sextet1(t[0], t[1])), Letter(tables, Sextet2(t[1], 0)), '=']
    else Group(tables, t[0], t[1], t[2]) + Encoding(tables, t[3..])
  }

  lemma {:induction false} EncodingAppends(tables: Tables, s: seq<Byte>, t: seq<Byte>, groups: nat)
    requires Usable(tables) && |s| == 3 * groups
    ensures Encoding(tables, s + t) == Encoding(tables, s) + Encoding(tables, t)
  {
    if groups == 0 {
      assert s + t == t && Encoding(tables, s) + Encoding(tables, t) == Encoding(tables, t);
    } else {
      assert (s + t)[3..] == s[3..] + t;
      EncodingAppends(tables, s[3..], t, groups - 1);
    }
  }

  lemma OneGroup(tables: Tables, group: seq<Byte>)
    requires Usable(tables) && |group| == 3
    ensures Encoding(tables, group) == Group(tables, group[0], group[1], group[2])
  {
    assert group[3..] == [];
    assert Encoding(tables, group) == Group(tables, group[0], group[1], group[2]) + "";
  }

  // ---------------------------------------------------------------- the encoder

  lemma Slices(t: array<Byte>, i: nat, j: nat, k: nat)
    requires i <= j <= k <= t.Length
    ensures t[i..j] + t[j..k] == t[i..k]
  {}

  method EncodeThree(tables: Tables, t: array<Byte>, a: nat) returns (s: string)
    requires Usable(tables) && a + 3 <= t.Length
    ensures s == Encoding(tables, t[a..a + 3])
  {
    var i := Word(t[a], t[a + 1], t[a + 2]);
    WordSextets(t[a], t[a + 1], t[a + 2]);
    OneGroup(tables, t[a..a + 3]);
    s := [Letter(tables, Low6(i >> 18)), Letter(tables, Low6(i >> 12)), Letter(tables, Low6(i >> 6)), Letter(tables, Low6(i))];
  }

  lemma ChunkExtends(tables: Tables, t: array<Byte>, start: nat, a: nat, groups: nat)
    requires Usable(tables) && a == start + 3 * groups && a + 3 <= t.Length
    ensures Encoding(tables, t[start..a + 3]) == Encoding(tables, t[start..a]) + Encoding(tables, t[a..a + 3])
  {
    Slices(t, start, a, a + 3);
    EncodingAppends(tables, t[start..a], t[a..a + 3], groups);
  }

  /** One chunk, three bytes at a time. */
  method EncodeChunk(tables: Tables, t: array<Byte>, start: nat, end: nat, ghost groups: nat) returns (s: string)
    requires Usable(tables) && start <= end <= t.Length && end - start == 3 * groups
    ensures s == Encoding(tables, t[start..end])
  {
    s := "";
    var a := start;
    ghost var k := 0;
    while a < end
      invariant a == start + 3 * k && k <= groups
      invariant s == Encoding(tables, t[start..a])
      decreases end - a
    {
      var four := EncodeThree(tables, t, a);
      ChunkExtends(tables, t, start, a, k);
      s := s + four;
      a, k := a + 3, k + 1;
    }
  }

  /** The whole groups, in chunks. */
  method EncodeChunks(tables: Tables, t: array<Byte>, end: nat, ghost groups: nat) returns (s: string)
    requires Usable(tables) && end <= t.Length && end == 3 * groups
    ensures s == Encoding(tables, t[..end])
  {
    s := "";
    var u := 0;
    ghost var k := 0;
    while u < end
      invariant u == CHUNK * k && (u < end || s == Encoding(tables, t[..end]))
      invariant u <= end ==> s == Encoding(tables, t[..u])
      decreases end - u
    {
      var stop := if u + CHUNK > end then end else u + CHUNK;
      var chunk := EncodeChunk(tables, t, u, stop, if u + CHUNK > end then groups - 5461 * k else 5461);
      EncodingAppends(tables, t[..u], t[u..stop], 5461 * k);
      Slices(t, 0, u, stop);
      s := s + chunk;
      u, k := u + CHUNK, k + 1;
    }
  }

  lemma OneByte(a: Byte)
    ensures Low6((a as bv32) >> 2) == Sextet0(a) && Low6((a as bv32) << 4) == Sextet1(a, 0)
  {}

  lemma TwoBytes(a: Byte, b: Byte)
    ensures var e := ((a as bv32) << 8) + (b as bv32);
            Low6(e >> 10) == Sextet0(a) && Low6(e >> 4) == Sextet1(a, b) && Low6(e << 2) == Sextet2(b, 0)
  {}

  method EncodeOne(tables: Tables, a: Byte) returns (s: string)
    requires Usable(tables)
    ensures s == Encoding(tables, [a])
  {
    var e := a as bv32;
    OneByte(a);
    s := [Letter(tables, Low6(e >> 2)), Letter(tables, Low6(e << 4))] + "==";
  }

  method EncodeTwo(tables: Tables, a: Byte, b: Byte) returns (s: string)
    requires Usable(tables)
    ensures s == Encoding(tables, [a, b])
  {
    var e := ((a as bv32) << 8) + (b as bv32);
    TwoBytes(a, b);
    s := [Letter(tables, Low6(e >> 10)), Letter(tables, Low6(e >> 4)), Letter(tables, Low6(e << 2))] + "=";
  }

  /** The one or two bytes after the whole groups. */
  method EncodeRest(tables: Tables, t: array<Byte>) returns (s: string)
    requires Usable(tables)
    ensures s == Encoding(tables, t[t.Length - t.Length % 3..])
  {
    var n := t.Length;
    var extra := n % 3;
    ghost var rest := t[n - extra..];
    if extra == 1 {
      s := EncodeOne(tables, t[n - 1]);
      assert rest == [t[n - 1]];
    } else if extra == 2 {
      s := EncodeTwo(tables, t[n - 2], t[n - 1]);
      assert rest == [t[n - 2], t[n - 1]];
    } else {
      s := "";
    }
  }

  method FromByteArray(tables: Tables, t: array<Byte>) returns (s: string)
    requires Usable(tables)
    ensures s == Encoding(tables, t[..])
  {
    var end := t.Length - t.Length % 3;
    var groups := EncodeChunks(tables, t, end, t.Length / 3);
    var rest := EncodeRest(tables, t);
    EncodingAppends(tables, t[..end], t[end..], t.Length / 3);
    assert t[..] == t[..end] + t[end..];
    s := groups + rest;
  }

  // ---------------------------------------------------------------- decoding

  function Ungroup(tables: Tables, s: string): seq<Byte>
    requires Usable(tables) && |s| == 4
  {
    var u, v, w, x := Value(tables, s[0]), Value(tables, s[1]), Value(tables, s[2]), Value(tables, s[3]);
    [Byte0(u, v), Byte1(v, w), Byte2(w, x)]
  }

  function Ungroups(tables: Tables, s: string, groups: nat): (t: seq<Byte>)
    requires Usable(tables) && 4 * groups <= |s|
    ensures |t| == 3 * groups
  {
    if groups == 0 then [] else Ungroup(tables, s[..4]) + Ungroups(tables, s[4..], groups - 1)
  }

  /** Everything in front of the first padding character. */
  function ValidLength(s: string): (n: nat)
    ensures n <= |s|
  {
    if s == "" || s[0] == '=' then 0 else 1 + ValidLength(s[1..])
  }

  datatype Decoded = Bytes(bytes: seq<Byte>) | InvalidLength | RangeError

  /** The bytes of a padded group, of which the characters before the padding are given. */
  function Partial(tables: Tables, last: string): seq<Byte>
    requires Usable(tables)
  {
    if |last| == 2 then [Byte0(Value(tables, last[0]), Value(tables, last[1]))]
    else if |last| == 3 then
      [Byte0(Value(tables, last[0]), Value(tables, last[1])), Byte1(Value(tables, last[1]), Value(tables, last[2]))]
    else []
  }

  /** The bytes of `groups` groups followed by `more` characters of a padded one. */
  function Assembled(tables: Tables, s: string, groups: nat, more: nat): seq<Byte>
    requires Usable(tables) && 4 * groups + more <= |s|
  {
    Ungroups(tables, s, groups) + Partial(tables, s[4 * groups..4 * groups + more])
  }

  /** Decoding of any text.  Padding where none is due makes room for two bytes that stay zero, or for an array
      of negative length. */
  function Decoding(tables: Tables, s: string): Decoded
    requires Usable(tables)
  {
    var n := ValidLength(s);
    if |s| % 4 != 0 then InvalidLength
    else if n % 4 != 0 || n == |s| then Bytes(Assembled(tables, s, n / 4, n % 4))
    else if n == 0 then RangeError
    else Bytes(Ungroups(tables, s, n / 4 - 1) + [0, 0])
  }

  // ---------------------------------------------------------------- the decoder

  lemma {:induction false} UngroupsExtend(tables: Tables, s: string, groups: nat)
    requires Usable(tables) && 4 * groups + 4 <= |s|
    ensures Ungroups(tables, s, groups + 1) == Ungroups(tables, s, groups) + Ungroup(tables, s[4 * groups..4 * groups + 4])
  {
    if groups > 0 {
      var n := 4 * (groups - 1);
      UngroupsExtend(tables, s[4..], groups - 1);
      assert s[4..][n..n + 4] == s[n + 4..n + 8];
    } else {
      assert Ungroups(tables, s, 1) == Ungroup(tables, s[..4]) + [];
    }
  }

  /** Four characters make a 24-bit number, and that three bytes. */
  method DecodeFour(tables: Tables, t: string, l: nat) returns (b0: Byte, b1: Byte, b2: Byte)
    requires Usable(tables) && l + 4 <= |t|
    ensures [b0, b1, b2] == Ungroup(tables, t[l..l + 4])
  {
    var u, v, w, x := Value(tables, t[l]), Value(tables, t[l + 1]), Value(tables, t[l + 2]), Value(tables, t[l + 3]);
    var e := Joined(u, v, w, x);
    WordBytes(u, v, w, x);
    b0, b1, b2 := Low8(e >> 16), Low8(e >> 8), Low8(e);
  }

  /** One turn of the decoding loop. */
  method DecodeStep(tables: Tables, t: string, k: nat, a: array<Byte>)
    requires Usable(tables) && 4 * k + 4 <= |t| && 3 * k + 3 <= a.Length
    requires a[..3 * k] == Ungroups(tables, t, k)
    modifies a
    ensures a[..3 * k + 3] == Ungroups(tables, t, k + 1)
    ensures forall j | 3 * k + 3 <= j < a.Length :: a[j] == old(a[j])
  {
    var b0, b1, b2 := DecodeFour(tables, t, 4 * k);
    UngroupsExtend(tables, t, k);
    var s := 3 * k;
    ghost var done := a[..s];
    a[s], a[s + 1], a[s + 2] := b0, b1, b2;
    assert a[..s + 3] == done + [b0, b1, b2];
  }

  /** The loop over whole groups of four characters, up to position `f`. */
  method DecodeGroups(tables: Tables, t: string, f: int, ghost groups: nat, a: array<Byte>)
    requires Usable(tables) && 4 * groups <= |t| && 3 * groups <= a.Length
    requires 4 * groups - 4 < f <= 4 * groups || (groups == 0 && f <= 0)
    modifies a
    ensures a[..3 * groups] == Ungroups(tables, t, groups)
    ensures forall j | 3 * groups <= j < a.Length :: a[j] == old(a[j])
  {
    var k := 0;
    while 4 * k < f
      invariant k <= groups
      invariant a[..3 * k] == Ungroups(tables, t, k)
      invariant forall j | 3 * k <= j < a.Length :: a[j] == old(a[j])
      decreases groups - k
    {
      DecodeStep(tables, t, k, a);
      k := k + 1;
    }
  }

  lemma TwoSextets(u: Sextet, v: Sextet)
    ensures Low8(((u as bv32) << 2) | ((v as bv32) >> 4)) == Byte0(u, v)
  {}

  lemma ThreeSextets(u: Sextet, v: Sextet, w: Sextet)
    ensures var e := ((u as bv32) << 10) | ((v as bv32) << 4) | ((w as bv32) >> 2);
            Low8(e >> 8) == Byte0(u, v) && Low8(e) == Byte1(v, w)
  {}

  method DecodeTwo(tables: Tables, last: string) returns (b0: Byte)
    requires Usable(tables) && |last| == 2
    ensures [b0] == Partial(tables, last)
  {
    var u, v := Value(tables, last[0]), Value(tables, last[1]);
    TwoSextets(u, v);
    b0 := Low8(((u as bv32) << 2) | ((v as bv32) >> 4));
  }

  method DecodeThree(tables: Tables, last: string) returns (b0: Byte, b1: Byte)
    requires Usable(tables) && |last| == 3
    ensures [b0, b1] == Partial(tables, last)
  {
    var u, v, w := Value(tables, last[0]), Value(tables, last[1]), Value(tables, last[2]);
    var e := ((u as bv32) << 10) | ((v as bv32) << 4) | ((w as bv32) >> 2);
    ThreeSextets(u, v, w);
    b0, b1 := Low8(e >> 8), Low8(e);
  }

  /** The padded group goes to the end of the array. */
  method DecodeLast(tables: Tables, last: string, a: array<Byte>)
    requires Usable(tables) && 2 <= |last| <= 3 && a.Length >= |last| - 1
    modifies a
    ensures a[..] == old(a[..a.Length + 1 - |last|]) + Partial(tables, last)
  {
    if |last| == 2 {
      a[a.Length - 1] := DecodeTwo(tables, last);
      assert a[..] == a[..a.Length - 1] + [a[a.Length - 1]];
    } else {
      a[a.Length - 2], a[a.Length - 1] := DecodeThree(tables, last);
      assert a[..] == a[..a.Length - 2] + [a[a.Length - 2], a[a.Length - 1]];
    }
  }

  /** Fills the array, when `n` characters come before `u` of padding. */
  method Fill(tables: Tables, t: string, n: int, u: int, a: array<Byte>, ghost groups: nat, ghost more: nat)
    requires Usable(tables) && n == 4 * groups + more && n <= |t| && more < 4
    requires || (u == 0 && more == 0 && a.Length == 3 * groups)
             || (u == 4 - more && more > 0 && a.Length == 3 * groups + more - 1)
             || (u == 4 && more == 0 && groups > 0 && a.Length == 3 * groups - 1)
    requires forall j | 0 <= j < a.Length :: a[j] == 0
    modifies a
    ensures a[..] == if u == 4 then Ungroups(tables, t, groups - 1) + [0, 0] else Assembled(tables, t, groups, more)
  {
    ghost var whole := if u == 4 then groups - 1 else groups;
    DecodeGroups(tables, t, if u > 0 then n - 4 else n, whole, a);
    ghost var done := a[..3 * whole];
    if u == 1 || u == 2 {
      DecodeLast(tables, t[n - 4 + u..n], a);
    } else if u == 4 {
      assert a[..] == done + [0, 0];
    } else {
      assert a[..] == done;
    }
  }

  /** A quotient and remainder by four are determined by the sum they make up. */
  lemma Fours(n: int, q: int, r: int)
    requires n == 4 * q + r && 0 <= r < 4
    ensures n / 4 == q && n % 4 == r
  {}

  /** The room for the decoded bytes. */
  lemma Sizes(n: nat, u: nat, padded: bool)
    requires if padded then u == 4 - n % 4 else u == 0 && n % 4 == 0
    ensures 3 * (n + u) / 4 - u == 3 * (n / 4) + if !padded then 0 else if n % 4 == 0 then -1 else n % 4 - 1
  {
    var g := n / 4 + if padded then 1 else 0;
    assert n + u == 4 * g;
    Fours(3 * (n + u), 3 * g, 0);
  }

  /** The decoder; no array stands for an exception, about the length of the text or of the array. */
  method ToByteArray(tables: Tables, t: string) returns (a: array?<Byte>, invalidLength: bool)
    requires Usable(tables)
    ensures match Decoding(tables, t)
            case Bytes(bytes) => a != null && a[..] == bytes
            case InvalidLength => a == null && invalidLength
            case RangeError => a == null && !invalidLength
  {
    a, invalidLength := null, |t| % 4 != 0;
    if invalidLength {
      return;
    }
    var n: int := ValidLength(t);
    var u: int := if n == |t| then 0 else 4 - n % 4;
    Sizes(n, u, n != |t|);
    var size: int := 3 * (n + u) / 4 - u;
    if size < 0 {
      return;
    }
    a := new Byte[size](_ => 0);
    Fill(tables, t, n, u, a, n / 4, n % 4);
  }

  // ---------------------------------------------------------------- the round trip

  lemma {:induction false} ValidLengthSkips(s: string, t: string)
    requires '=' !in s
    ensures ValidLength(s + t) == |s| + ValidLength(t)
  {
    if s == "" {
      assert s + t == t;
    } else {
      assert (s + t)[1..] == s[1..] + t;
      ValidLengthSkips(s[1..], t);
    }
  }

  lemma GroupRoundTrip(tables: Tables, a: Byte, b: Byte, c: Byte)
    requires Usable(tables)
    ensures '=' !in Group(tables, a, b, c) && Ungroup(tables, Group(tables, a, b, c)) == [a, b, c]
  {
    LetterHasItsValue(tables, Sextet0(a));
    LetterHasItsValue(tables, Sextet1(a, b));
    LetterHasItsValue(tables, Sextet2(b, c));
    LetterHasItsValue(tables, Sextet3(c));
    BytesOfSextets(a, b, c);
  }

  lemma OneByteRoundTrip(tables: Tables, a: Byte)
    requires Usable(tables)
    ensures var s := Encoding(tables, [a]);
            |s| == 4 && ValidLength(s) == 2 && Assembled(tables, s, 0, 2) == [a]
  {
    var u, v := Sextet0(a), Sextet1(a, 0);
    var head := [Letter(tables, u), Letter(tables, v)];
    LetterHasItsValue(tables, u);
    LetterHasItsValue(tables, v);
    BytesOfSextets(a, 0, 0);
    ValidLengthSkips(head, "==");
    var s := Encoding(tables, [a]);
    assert s == head + "==" && s[0..2] == head;
  }

  lemma TwoByteRoundTrip(tables: Tables, a: Byte, b: Byte)
    requires Usable(tables)
    ensures var s := Encoding(tables, [a, b]);
            |s| == 4 && ValidLength(s) == 3 && Assembled(tables, s, 0, 3) == [a, b]
  {
    var u, v, w := Sextet0(a), Sextet1(a, b), Sextet2(b, 0);
    var head := [Letter(tables, u), Letter(tables, v), Letter(tables, w)];
    LetterHasItsValue(tables, u);
    LetterHasItsValue(tables, v);
    LetterHasItsValue(tables, w);
    BytesOfSextets(a, b, 0);
    ValidLengthSkips(head, "=");
    var s := Encoding(tables, [a, b]);
    assert s == head + "=" && s[0..3] == head;
  }

  lemma GroupInFront(tables: Tables, g: string, s: string, groups: nat, more: nat)
    requires Usable(tables) && |g| == 4 && 4 * groups + more <= |s|
    ensures Assembled(tables, g + s, 1 + groups, more) == Ungroup(tables, g) + Assembled(tables, s, groups, more)
  {
    var t := g + s;
    assert t[..4] == g && t[4..] == s;
    assert t[4 * (1 + groups)..4 * (1 + groups) + more] == s[4 * groups..4 * groups + more];
    assert Ungroups(tables, t, 1 + groups) == Ungroup(tables, g) + Ungroups(tables, s, groups);
  }

  /** The text `s` consists of whole groups and one padded group of `more` characters, if that is not zero. */
  ghost predicate Shaped(tables: Tables, s: string, t: seq<Byte>, groups: nat, more: nat)
    requires Usable(tables)
  {
    && more < 4 && |s| == 4 * groups + (if more == 0 then 0 else 4)
    && ValidLength(s) == 4 * groups + more
    && Assembled(tables, s, groups, more) == t
  }

  lemma GroupKeepsShape(tables: Tables, a: Byte, b: Byte, c: Byte, s: string, t: seq<Byte>, groups: nat, more: nat)
    requires Usable(tables) && Shaped(tables, s, t, groups, more)
    ensures Shaped(tables, Group(tables, a, b, c) + s, [a, b, c] + t, groups + 1, more)
  {
    var g := Group(tables, a, b, c);
    GroupRoundTrip(tables, a, b, c);
    ValidLengthSkips(g, s);
    GroupInFront(tables, g, s, groups, more);
  }

  lemma SmallShape(tables: Tables, t: seq<Byte>)
    requires Usable(tables) && |t| < 3
    ensures Shaped(tables, Encoding(tables, t), t, 0, if t == [] then 0 else |t| + 1)
  {
    if |t| == 1 {
      OneByteRoundTrip(tables, t[0]);
      assert t == [t[0]];
    } else if |t| == 2 {
      TwoByteRoundTrip(tables, t[0], t[1]);
      assert t == [t[0], t[1]];
    }
  }

  lemma EncodingUnfolds(tables: Tables, t: seq<Byte>)
    requires Usable(tables) && |t| >= 3
    ensures Encoding(tables, t) == Group(tables, t[0], t[1], t[2]) + Encoding(tables, t[3..])
    ensures [t[0], t[1], t[2]] + t[3..] == t
  {}

  lemma GroupInFrontKeepsShape(tables: Tables, t: seq<Byte>, s: string, groups: nat, more: nat)
    requires Usable(tables) && |t| >= 3 && Shaped(tables, s, t[3..], groups, more)
    ensures Shaped(tables, Group(tables, t[0], t[1], t[2]) + s, t, groups + 1, more)
  {
    GroupKeepsShape(tables, t[0], t[1], t[2], s, t[3..], groups, more);
    assert [t[0], t[1], t[2]] + t[3..] == t;
  }

  /** An encoding consists of whole groups and at most one padded group, and assembles to the bytes. */
  lemma {:induction false} EncodingShape(tables: Tables, t: seq<Byte>) returns (groups: nat, more: nat)
    requires Usable(tables)
    ensures Shaped(tables, Encoding(tables, t), t, groups, more)
  {
    if |t| < 3 {
      SmallShape(tables, t);
      groups, more := 0, if t == [] then 0 else |t| + 1;
    } else {
      groups, more := EncodingShape(tables, t[3..]);
      GroupInFrontKeepsShape(tables, t, Encoding(tables, t[3..]), groups, more);
      EncodingUnfolds(tables, t);
      groups := groups + 1;
    }
  }

  /** Decoding undoes encoding, for all bytes. */
  lemma RoundTrip(tables: Tables, t: seq<Byte>)
    requires Usable(tables)
    ensures Decoding(tables, Encoding(tables, t)) == Bytes(t)
  {
    var groups, more := EncodingShape(tables, t);
    Fours(|Encoding(tables, t)|, groups + if more == 0 then 0 else 1, 0);
    Fours(ValidLength(Encoding(tables, t)), groups, more);
  }

  /** The letter of a number of six bits, by the table in section 4 of RFC 4648. */
  function StandardLetter(v: Sextet): int {
    var n := v as int;
    if n < 26 then 'A' as int + n
    else if n < 52 then 'a' as int + (n - 26)
    else if n < 62 then '0' as int + (n - 52)
    else if n == 62 then '+' as int else '/' as int
  }

  /** The letters of a group are those of its 24 bits, six at a time, first bits first; one byte takes two letters
      and two padding characters, two bytes take three and one. */
  lemma StandardGroups(tables: Tables, a: Byte, b: Byte, c: Byte)
    requires Usable(tables) && tables.letters == Alphabet()
    ensures var bits := (a as bv24 << 16) | (b as bv24 << 8) | (c as bv24);
            var s := Encoding(tables, [a, b, c]);
            && |s| == 4
            && s[0] as int == StandardLetter((bits >> 18) as bv6) && s[1] as int == StandardLetter(((bits >> 12) & 63) as bv6)
            && s[2] as int == StandardLetter(((bits >> 6) & 63) as bv6) && s[3] as int == StandardLetter((bits & 63) as bv6)
    ensures Encoding(tables, [a, b])[..2] == Encoding(tables, [a, b, 0])[..2] && Encoding(tables, [a, b])[3..] == "="
    ensures Encoding(tables, [a, b])[2] == Encoding(tables, [a, b, 0])[2]
    ensures Encoding(tables, [a])[..2] == Encoding(tables, [a, 0, 0])[..2] && Encoding(tables, [a])[2..] == "=="
  {
    OneGroup(tables, [a, b, c]);
    OneGroup(tables, [a, b, 0]);
    OneGroup(tables, [a, 0, 0]);
  }

  /** Decoding refuses text whose length is no multiple of four, and text that begins with padding; it reads
      everything else. */
  lemma Refusals(tables: Tables, s: string)
    requires Usable(tables)
    ensures Decoding(tables, s).InvalidLength? <==> |s| % 4 != 0
    ensures Decoding(tables, s).RangeError? <==> |s| % 4 == 0 && s != "" && s[0] == '='
  {}

  /** A character that is no letter of the alphabet is read as the letter of zero. */
  lemma OtherCharacters(tables: Tables, c: char, rest: string)
    requires Usable(tables) && tables.letters == Alphabet() && c !in tables.values && |rest| == 3
    ensures Ungroup(tables, [c] + rest) == Ungroup(tables, ['A'] + rest)
  {
    assert tables.letters[0] == 'A';
  }
}
