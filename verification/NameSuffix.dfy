/** The five characters that make a taken name unique, drawn from a random 32-bit word. */
module NameSuffix {
  type Int32 = x: int | -0x8000_0000 <= x < 0x8000_0000

  const SUFFIX_LENGTH: nat := 5

  /** The number of different suffixes. */
  const SUFFIXES: int := 0x200_0000

  /** One character for the five low bits of a word. */
  function Letter(low: int): (c: char)
    requires 0 <= low < 32
  {
    if low < 10 then (low + 48) as char else (low + 87) as char
  }

  /** The value a character stands for. */
  function LetterValue(c: char): int {
    if c <= '9' then c as int - 48 else c as int - 87
  }

  /** `n` characters of a word, lowest bits first.  Masking with 0x1f and the arithmetic shift by five are the
      Euclidean remainder and quotient by 32, for negative words too. */
  function Letters(val: int, n: nat): (s: string)
    ensures |s| == n
    ensures forall i | 0 <= i < n :: '0' <= s[i] <= '9' || 'a' <= s[i] <= 'v'
    decreases n
  {
    if n == 0 then "" else [Letter(val % 32)] + Letters(val / 32, n - 1)
  }

  /** The number whose base-32 digits are the characters, lowest first. */
  function Value(s: string): int {
    if s == "" then 0 else LetterValue(s[0]) + 32 * Value(s[1..])
  }

  function Suffix(val: Int32): string { Letters(val, SUFFIX_LENGTH) }

  /** One turn of the loop: a character moves from the word to the array. */
  lemma MoveLetter(done: string, val: int, n: nat)
    requires n > 0
    ensures done + Letters(val, n) == done + [Letter(val % 32)] + Letters(val / 32, n - 1)
  {}

  lemma ShiftKeepsTheWord(val: Int32)
    ensures -0x8000_0000 <= val / 32 < 0x8000_0000
  {}

  /** The loop that fills the array of characters. */
  method RandomCharacters(seed: Int32) returns (rand: array<char>)
    ensures fresh(rand) && rand[..] == Suffix(seed)
  {
    rand := new char[SUFFIX_LENGTH];
    var val: Int32 := seed;
    var i := 0;
    while i < rand.Length
      invariant 0 <= i <= rand.Length == SUFFIX_LENGTH
      invariant rand[..i] + Letters(val, SUFFIX_LENGTH - i) == Suffix(seed)
    {
      MoveLetter(rand[..i], val, SUFFIX_LENGTH - i);
      ShiftKeepsTheWord(val);
      ghost var done := rand[..i];
      var low, rest := val % 32, val / 32;
      if low < 10 {
        rand[i] := (low + 48) as char;
      } else {
        rand[i] := (low + 87) as char;
      }
      assert rand[..i + 1] == done + [Letter(low)];
      val, i := rest, i + 1;
    }
    assert rand[..] == rand[..i];
  }

  /** The characters of `32 * rest + digit`. */
  lemma FirstLetter(val: int, n: nat)
    requires n > 0
    ensures Value(Letters(val, n)) == val % 32 + 32 * Value(Letters(val / 32, n - 1))
  {
    assert Letters(val, n)[1..] == Letters(val / 32, n - 1);
  }

  /** A number in base 32, five digits at a time. */
  lemma FiveDigits(val: int, d0: int, d1: int, d2: int, d3: int, d4: int, high: int)
    requires val == d0 + 32 * (d1 + 32 * (d2 + 32 * (d3 + 32 * (d4 + 32 * high))))
    requires 0 <= d0 < 32 && 0 <= d1 < 32 && 0 <= d2 < 32 && 0 <= d3 < 32 && 0 <= d4 < 32
    ensures val % SUFFIXES == d0 + 32 * (d1 + 32 * (d2 + 32 * (d3 + 32 * d4)))
  {
    assert val == (d0 + 32 * (d1 + 32 * (d2 + 32 * (d3 + 32 * d4)))) + SUFFIXES * high;
  }

  /** A suffix is the little-endian base-32 form of the word modulo 2^25. */
  lemma SuffixIsTheLowBits(val: Int32)
    ensures Value(Suffix(val)) == val % SUFFIXES
  {
    var v1 := val / 32;
    var v2 := v1 / 32;
    var v3 := v2 / 32;
    var v4 := v3 / 32;
    FirstLetter(val, 5);
    FirstLetter(v1, 4);
    FirstLetter(v2, 3);
    FirstLetter(v3, 2);
    FirstLetter(v4, 1);
    FiveDigits(val, val % 32, v1 % 32, v2 % 32, v3 % 32, v4 % 32, v4 / 32);
  }

  /** Characters of equal value are equal. */
  lemma {:induction false} ValueIsInjective(s: string, t: string)
    requires |s| == |t| && Value(s) == Value(t)
    requires forall i | 0 <= i < |s| :: '0' <= s[i] <= '9' || 'a' <= s[i] <= 'v'
    requires forall i | 0 <= i < |t| :: '0' <= t[i] <= '9' || 'a' <= t[i] <= 'v'
    ensures s == t
  {
    if s != "" {
      assert 0 <= LetterValue(s[0]) < 32 && 0 <= LetterValue(t[0]) < 32;
      ValueIsInjective(s[1..], t[1..]);
      assert s == [s[0]] + s[1..] && t == [t[0]] + t[1..];
    }
  }

  /** Two draws give the same suffix exactly when they agree modulo 2^25. */
  lemma SuffixesAgree(v: Int32, w: Int32)
    ensures Suffix(v) == Suffix(w) <==> v % SUFFIXES == w % SUFFIXES
  {
    SuffixIsTheLowBits(v);
    SuffixIsTheLowBits(w);
    if v % SUFFIXES == w % SUFFIXES { ValueIsInjective(Suffix(v), Suffix(w)); }
  }
}
