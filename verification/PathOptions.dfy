/** Parsing of paths of the form `key=value/key=value`, with both parts form-encoded. */
module PathOptions {
  import opened Prelude
  import opened UrlCoding

  const OPTION_SEPARATOR := '/'
  const VALUE_SEPARATOR := '='

  // ---------------------------------------------------------------- tokens

  /** The length of the longest prefix without the delimiter. */
  function RunLength(s: string, d: char): (n: nat)
    ensures n <= |s| && d !in s[..n] && (n < |s| ==> s[n] == d)
  {
    if s == "" || s[0] == d then 0
    else
      assert s[..1 + RunLength(s[1..], d)] == [s[0]] + s[1..][..RunLength(s[1..], d)];
      1 + RunLength(s[1..], d)
  }

  /** The maximal delimiter-free stretches of a text, in order. */
  function Tokens(s: string, d: char): seq<string> {
    if s == "" then []
    else if s[0] == d then Tokens(s[1..], d)
    else [s[..RunLength(s, d)]] + Tokens(s[RunLength(s, d)..], d)
  }

  /** A tokenizer with one delimiter. */
  class StringTokenizer {
    const text: string
    const delimiter: char
    var position: nat

    constructor (text: string, delimiter: char)
      ensures Valid() && Remaining() == Tokens(text, delimiter)
    {
      this.text, this.delimiter, position := text, delimiter, 0;
      assert text[0..] == text;
    }

    predicate Valid()
      reads this
    {
      position <= |text|
    }

    ghost function Remaining(): seq<string>
      requires Valid()
      reads this
    {
      Tokens(text[position..], delimiter)
    }

    method SkipDelimiters()
      requires Valid()
      modifies this
      ensures Valid() && Remaining() == old(Remaining())
      ensures position < |text| ==> text[position] != delimiter
    {
      while position < |text| && text[position] == delimiter
        invariant Valid() && Remaining() == old(Remaining())
      {
        assert text[position..][1..] == text[position + 1..];
        position := position + 1;
      }
    }

    method HasMoreTokens() returns (more: bool)
      requires Valid()
      modifies this
      ensures Valid() && Remaining() == old(Remaining()) && (more <==> Remaining() != [])
    {
      SkipDelimiters();
      more := position < |text|;
    }

    /** The next token, or nothing (an exception) when none is left. */
    method NextToken() returns (token: Option<string>)
      requires Valid()
      modifies this
      ensures Valid()
      ensures old(Remaining()) == [] ==> token == None && Remaining() == []
      ensures old(Remaining()) != [] ==> token == Some(old(Remaining())[0]) && Remaining() == old(Remaining())[1..]
    {
      SkipDelimiters();
      var start := position;
      ghost var rest := text[start..];
      while position < |text| && text[position] != delimiter
        invariant start <= position <= |text|
        invariant position - start + RunLength(text[position..], delimiter) == RunLength(rest, delimiter)
      {
        assert text[position..][1..] == text[position + 1..];
        position := position + 1;
      }
      assert text[start..position] == rest[..position - start];
      assert text[position..] == rest[position - start..];
      token := if start < position then Some(text[start..position]) else None;
    }
  }

  // ---------------------------------------------------------------- the parser

  type Pair = (string, string)

  /** The list of options, or the exception that ends the parse. */
  datatype Parsed = Options(pairs: seq<Pair>) | NoSuchElement | IllegalArgument

  function PairOf(token: string): Parsed {
    var parts := Tokens(token, VALUE_SEPARATOR);
    if |parts| < 2 then NoSuchElement
    else
      match (Decode(parts[0]), Decode(parts[1]))
      case (Some(key), Some(value)) => Options([(key, value)])
      case _ => IllegalArgument
  }

  function ParseTokens(tokens: seq<string>): Parsed {
    if tokens == [] then Options([])
    else
      match PairOf(tokens[0])
      case Options(first) =>
        (match ParseTokens(tokens[1..])
         case Options(rest) => Options(first + rest)
         case failure => failure)
      case failure => failure
  }

  function Parse(path: string): Parsed { ParseTokens(Tokens(path, OPTION_SEPARATOR)) }

  /** Options read before the rest of the tokens is parsed. */
  function Prepend(props: seq<Pair>, rest: Parsed): Parsed {
    if rest.Options? then Options(props + rest.pairs) else rest
  }

  /** One token: the key and the value are the first two parts around equals signs. */
  method GetOption(token: string) returns (r: Parsed)
    ensures r == PairOf(token)
  {
    var parts := new StringTokenizer(token, VALUE_SEPARATOR);
    var key := parts.NextToken();
    if key == None {
      return NoSuchElement;
    }
    var value := parts.NextToken();
    if value == None {
      return NoSuchElement;
    }
    var k, v := Decode(key.value), Decode(value.value);
    if k == None || v == None {
      return IllegalArgument;
    }
    r := Options([(k.value, v.value)]);
  }

  lemma OneMoreOption(props: seq<Pair>, tokens: seq<string>)
    requires tokens != []
    ensures match PairOf(tokens[0])
            case Options(pairs) => Prepend(props, ParseTokens(tokens)) == Prepend(props + pairs, ParseTokens(tokens[1..]))
            case failure => Prepend(props, ParseTokens(tokens)) == failure
  {
    match (PairOf(tokens[0]), ParseTokens(tokens[1..]))
    case (Options(pairs), Options(rest)) => assert props + (pairs + rest) == props + pairs + rest;
    case _ =>
  }

  method GetOptions(path: string) returns (r: Parsed)
    ensures r == Parse(path)
  {
    var tokenizer := new StringTokenizer(path, OPTION_SEPARATOR);
    var props: seq<Pair> := [];
    ghost var left := tokenizer.Remaining();
    var more := tokenizer.HasMoreTokens();
    while more
      invariant tokenizer.Valid() && fresh(tokenizer)
      invariant left == tokenizer.Remaining() && (more <==> left != [])
      invariant Prepend(props, ParseTokens(left)) == Parse(path)
      decreases |left|
    {
      OneMoreOption(props, left);
      var token := tokenizer.NextToken();
      var option := GetOption(token.value);
      if !option.Options? {
        return option;
      }
      props := props + option.pairs;
      left := left[1..];
      more := tokenizer.HasMoreTokens();
    }
    r := Options(props);
  }

  // ---------------------------------------------------------------- printing and parsing

  lemma {:induction false} RunOfConcat(s: string, t: string, d: char)
    requires d !in s && (t != "" ==> t[0] == d)
    ensures RunLength(s + t, d) == |s|
  {
    if s == "" {
      assert s + t == t;
    } else {
      assert (s + t)[1..] == s[1..] + t;
      RunOfConcat(s[1..], t, d);
    }
  }

  lemma FirstToken(token: string, tail: string, d: char)
    requires token != "" && d !in token && (tail != "" ==> tail[0] == d)
    ensures Tokens(token + tail, d) == [token] + Tokens(tail, d)
  {
    RunOfConcat(token, tail, d);
    assert (token + tail)[0] == token[0] && token[0] in token;
    assert (token + tail)[..|token|] == token && (token + tail)[|token|..] == tail;
  }

  lemma DelimiterFirst(rest: string, d: char)
    ensures Tokens([d] + rest, d) == Tokens(rest, d)
  {
    assert ([d] + rest)[1..] == rest;
  }

  lemma DelimiterAndMore(a: string, b: string, d: char)
    requires Tokens(a + [d] + b, d) == Tokens(a, d) + Tokens(b, d)
    ensures Tokens([d] + a + [d] + b, d) == Tokens([d] + a, d) + Tokens(b, d)
  {
    Associates([d], a, [d]);
    Associates([d], a + [d], b);
    DelimiterFirst(a, d);
    DelimiterFirst(a + [d] + b, d);
  }

  lemma Associates<T>(x: seq<T>, y: seq<T>, z: seq<T>)
    ensures x + (y + z) == x + y + z
  {}

  lemma TokenAndMore(token: string, a: string, b: string, d: char)
    requires token != "" && d !in token && (a != "" ==> a[0] == d)
    requires Tokens(a + [d] + b, d) == Tokens(a, d) + Tokens(b, d)
    ensures Tokens(token + a + [d] + b, d) == Tokens(token + a, d) + Tokens(b, d)
  {
    Associates(token, a, [d]);
    Associates(token, a + [d], b);
    FirstToken(token, a, d);
    FirstToken(token, a + [d] + b, d);
    Associates([token], Tokens(a, d), Tokens(b, d));
  }

  /** A delimiter separates: the tokens of the two sides follow each other. */
  lemma {:induction false} TokensSplit(a: string, b: string, d: char)
    ensures Tokens(a + [d] + b, d) == Tokens(a, d) + Tokens(b, d)
    decreases |a|
  {
    if a == "" {
      assert a + [d] + b == [d] + b;
      DelimiterFirst(b, d);
    } else {
      var n := if a[0] == d then 1 else RunLength(a, d);
      TokensSplit(a[n..], b, d);
      assert a == a[..n] + a[n..];
      if a[0] == d {
        assert a[..n] == [d];
        DelimiterAndMore(a[n..], b, d);
      } else {
        TokenAndMore(a[..n], a[n..], b, d);
      }
    }
  }

  /** Repeating a slash, or adding one in front or behind, changes nothing. */
  lemma RepeatedSlashes(a: string, b: string)
    ensures Parse(a + "/" + "/" + b) == Parse(a + "/" + b)
    ensures Parse("/" + a) == Parse(a) && Parse(a + "/") == Parse(a)
  {
    var d := OPTION_SEPARATOR;
    TokensSplit(a, b, d);
    TokensSplit(a + "/", b, d);
    TokensSplit(a, "", d);
    TokensSplit("", a, d);
    assert a + "/" == a + [d] + "" && "/" + a == "" + [d] + a;
    assert a + "/" + "/" + b == (a + "/") + [d] + b;
    assert Tokens(a, d) + Tokens("", d) == Tokens(a, d) && Tokens("", d) + Tokens(a, d) == Tokens(a, d);
  }

  lemma OneToken(s: string, d: char)
    requires s != "" && d !in s
    ensures Tokens(s, d) == [s]
  {
    RunOfConcat(s, "", d);
    assert s + "" == s && s[..|s|] == s && s[|s|..] == "";
  }

  function PrintPair(p: Pair): string { Encode(p.0) + "=" + Encode(p.1) }

  function Print(pairs: seq<Pair>): string {
    if pairs == [] then ""
    else if |pairs| == 1 then PrintPair(pairs[0])
    else PrintPair(pairs[0]) + "/" + Print(pairs[1..])
  }

  predicate NonEmptyParts(pairs: seq<Pair>) {
    forall i | 0 <= i < |pairs| :: pairs[i].0 != "" && pairs[i].1 != ""
  }

  lemma PairRoundTrip(p: Pair)
    requires p.0 != "" && p.1 != ""
    ensures PairOf(PrintPair(p)) == Options([p])
    ensures PrintPair(p) != "" && OPTION_SEPARATOR !in PrintPair(p)
  {
    EncodingIsSafe(p.0);
    EncodingIsSafe(p.1);
    OneToken(Encode(p.0), VALUE_SEPARATOR);
    OneToken(Encode(p.1), VALUE_SEPARATOR);
    TokensSplit(Encode(p.0), Encode(p.1), VALUE_SEPARATOR);
    DecodeUndoesEncode(p.0);
    DecodeUndoesEncode(p.1);
  }

  /** Parsing undoes printing, for every list of non-empty pairs and all text. */
  lemma {:induction false} RoundTrip(pairs: seq<Pair>)
    requires NonEmptyParts(pairs)
    ensures Parse(Print(pairs)) == Options(pairs)
  {
    if pairs != [] {
      var p, rest := pairs[0], pairs[1..];
      PairRoundTrip(p);
      OneToken(PrintPair(p), OPTION_SEPARATOR);
      RoundTrip(rest);
      assert [p] + rest == pairs;
      var tokens := Tokens(Print(rest), OPTION_SEPARATOR);
      assert ([PrintPair(p)] + tokens)[1..] == tokens;
      if rest == [] {
        assert [PrintPair(p)] + tokens == [PrintPair(p)];
      } else {
        TokensSplit(PrintPair(p), Print(rest), OPTION_SEPARATOR);
      }
    }
  }

  // ---------------------------------------------------------------- other text

  /** A token with a key and a value yields them, whatever follows the value behind another equals sign. */
  lemma MoreThanAPair(p: Pair, rest: string)
    requires p.0 != "" && p.1 != ""
    ensures PairOf(PrintPair(p) + "=" + rest) == Options([p])
  {
    EncodingIsSafe(p.0);
    EncodingIsSafe(p.1);
    OneToken(Encode(p.0), VALUE_SEPARATOR);
    OneToken(Encode(p.1), VALUE_SEPARATOR);
    TokensSplit(Encode(p.0), Encode(p.1), VALUE_SEPARATOR);
    assert PrintPair(p) + "=" + rest == PrintPair(p) + [VALUE_SEPARATOR] + rest;
    TokensSplit(PrintPair(p), rest, VALUE_SEPARATOR);
    DecodeUndoesEncode(p.0);
    DecodeUndoesEncode(p.1);
  }

  /** A token without a value, or without a key, ends the parse with an exception; so does a malformed escape in
      either of them, with another one. */
  lemma BadTokens(key: string, value: string)
    requires key != "" && '=' !in key && value != "" && '=' !in value
    ensures PairOf(key) == NoSuchElement && PairOf(key + "=") == NoSuchElement && PairOf("=" + value) == NoSuchElement
    ensures HasBadEscape(key) || HasBadEscape(value) <==> PairOf(key + "=" + value) == IllegalArgument
  {
    OneToken(key, VALUE_SEPARATOR);
    OneToken(value, VALUE_SEPARATOR);
    assert key + "=" == key + [VALUE_SEPARATOR] + "" && "=" + value == "" + [VALUE_SEPARATOR] + value;
    TokensSplit(key, "", VALUE_SEPARATOR);
    TokensSplit("", value, VALUE_SEPARATOR);
    TokensSplit(key, value, VALUE_SEPARATOR);
    MalformedEscapes(key);
    MalformedEscapes(value);
  }

  lemma {:induction false} FailureAmongTokens(good: seq<string>, bad: string, rest: seq<string>)
    requires !PairOf(bad).Options? && forall t | t in good :: PairOf(t).Options?
    ensures ParseTokens(good + [bad] + rest) == PairOf(bad)
  {
    var tokens := good + [bad] + rest;
    if good != [] {
      assert good[0] in good && tokens[0] == good[0] && tokens[1..] == good[1..] + [bad] + rest;
      FailureAmongTokens(good[1..], bad, rest);
    }
  }

  lemma {:induction false} PrintedTokens(pairs: seq<Pair>)
    requires NonEmptyParts(pairs)
    ensures forall t | t in Tokens(Print(pairs), OPTION_SEPARATOR) :: PairOf(t).Options?
  {
    if pairs != [] {
      var p, rest := pairs[0], pairs[1..];
      PairRoundTrip(p);
      OneToken(PrintPair(p), OPTION_SEPARATOR);
      PrintedTokens(rest);
      if rest != [] { TokensSplit(PrintPair(p), Print(rest), OPTION_SEPARATOR); }
    }
  }

  /** The first bad token of a path decides, whatever comes after it. */
  lemma FirstFailureDecides(pairs: seq<Pair>, bad: string, rest: string)
    requires NonEmptyParts(pairs) && bad != "" && '/' !in bad && !PairOf(bad).Options?
    ensures Parse(Print(pairs) + "/" + bad + "/" + rest) == PairOf(bad)
  {
    var d := OPTION_SEPARATOR;
    var front := Print(pairs) + [d] + bad;
    assert Print(pairs) + "/" + bad + "/" + rest == front + [d] + rest;
    TokensSplit(front, rest, d);
    TokensSplit(Print(pairs), bad, d);
    OneToken(bad, d);
    PrintedTokens(pairs);
    FailureAmongTokens(Tokens(Print(pairs), d), bad, Tokens(rest, d));
  }
}
