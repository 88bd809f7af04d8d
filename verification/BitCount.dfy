/** The bitmap words of the hash trie.  A word is a number below 2^32 standing for its 32 bits, lowest first;
    this module proves that the word operations of the program, among them the branch-free population count,
    act on those bits as intended.  (The program's arithmetic right shifts differ from division by a power of
    two only in copies of the sign bit, all of which the following mask removes.) */
module BitCount {
  function Pow(base: nat, n: nat): (p: nat)
    ensures base > 0 ==> p > 0
  {
    if n == 0 then 1 else base * Pow(base, n - 1)
  }

  // ---------------------------------------------------------------- the program's operations

  function And(x: nat, y: nat): nat {
    if x == 0 || y == 0 then 0 else (if x % 2 == 1 && y % 2 == 1 then 1 else 0) + 2 * And(x / 2, y / 2)
  }

  function Or(x: nat, y: nat): nat
    decreases x + y
  {
    if x == 0 then y else if y == 0 then x
    else (if x % 2 == 1 || y % 2 == 1 then 1 else 0) + 2 * Or(x / 2, y / 2)
  }

  function Xor(x: nat, y: nat): nat
    decreases x + y
  {
    if x == 0 then y else if y == 0 then x
    else (if x % 2 != y % 2 then 1 else 0) + 2 * Xor(x / 2, y / 2)
  }

  function Halved(x: nat, m: nat): int { x - And(x / 2, m) }

  function AddNeighbours(p: nat, m: nat): nat { And(p, m) + And(p / 4, m) }

  function AddHalves(b: nat, m: nat): nat { And(b + b / 16, m) }

  function Pairs(x: nat): int { Halved(x, 0x5555_5555) }

  function Nibbles(p: nat): nat { AddNeighbours(p, 0x3333_3333) }

  function Bytes(b: nat): nat { AddHalves(b, 0x0f0f_0f0f) }

  function Fold(c: nat): nat {
    var d := c + c / 256;
    And(d + d / 65536, 127)
  }

  function Popcount(x: nat): nat
    requires Pairs(x) >= 0
  {
    Fold(Bytes(Nibbles(Pairs(x))))
  }

  // ---------------------------------------------------------------- what they mean

  /** The low `n` bits of a word. */
  function Bits(x: nat, n: nat): (bits: seq<bool>)
    ensures |bits| == n
  {
    if n == 0 then [] else [x % 2 == 1] + Bits(x / 2, n - 1)
  }

  function CountTrue(bits: seq<bool>): nat {
    if bits == [] then 0 else (if bits[0] then 1 else 0) + CountTrue(bits[1..])
  }

  /** The mask that repeats `digit` in `n` places of base `base`. */
  function Mask(digit: nat, base: nat, n: nat): nat {
    if n == 0 then 0 else digit + base * Mask(digit, base, n - 1)
  }

  lemma TheMasks()
    ensures Mask(1, 4, 16) == 0x5555_5555
    ensures Mask(3, 16, 8) == 0x3333_3333
    ensures Mask(15, 256, 4) == 0x0f0f_0f0f
  {
    assert Mask(1, 4, 4) == 0x55;
    assert Mask(1, 4, 8) == 0x5555;
    assert Mask(1, 4, 12) == 0x55_5555;
    assert Mask(3, 16, 4) == 0x3333;
  }

  // ---------------------------------------------------------------- masking digit by digit

  lemma {:induction false} AndBit(a: nat, r: nat, c: nat, m: nat)
    requires a < 2 && c < 2
    ensures And(a + 2 * r, c + 2 * m) == (if a == 1 && c == 1 then 1 else 0) + 2 * And(r, m)
  {
    assert (a + 2 * r) / 2 == r && (c + 2 * m) / 2 == m;
  }

  lemma {:induction false} AndPair(a: nat, b: nat, r: nat, c: nat, d: nat, m: nat)
    requires a < 2 && b < 2 && c < 2 && d < 2
    ensures And(a + 2 * b + 4 * r, c + 2 * d + 4 * m)
         == (if a == 1 && c == 1 then 1 else 0) + (if b == 1 && d == 1 then 2 else 0) + 4 * And(r, m)
  {
    AndBit(a, b + 2 * r, c, d + 2 * m);
    AndBit(b, r, d, m);
  }

  /** Masking base-4 digits with 0, 1 or 3. */
  lemma {:induction false} AndDigit4(d: nat, r: nat, m: nat)
    requires d < 4
    ensures And(d + 4 * r, 1 + 4 * m) == d % 2 + 4 * And(r, m)
    ensures And(d + 4 * r, 3 + 4 * m) == d + 4 * And(r, m)
    ensures And(d + 4 * r, 4 * m) == 4 * And(r, m)
  {
    AndPair(d % 2, d / 2, r, 1, 0, m);
    AndPair(d % 2, d / 2, r, 1, 1, m);
    AndPair(d % 2, d / 2, r, 0, 0, m);
  }

  /** Masking base-16 digits, given as two base-4 digits, with 3, 15 or 0. */
  lemma {:induction false} AndDigit16(low: nat, high: nat, r: nat, m: nat)
    requires low < 4 && high < 4
    ensures And(low + 4 * high + 16 * r, 3 + 16 * m) == low + 16 * And(r, m)
  {
    AndDigit4(low, high + 4 * r, 4 * m);
    AndDigit4(high, r, m);
  }

  lemma {:induction false} AndWhole16(low: nat, high: nat, r: nat, m: nat)
    requires low < 4 && high < 4
    ensures And(low + 4 * high + 16 * r, 15 + 16 * m) == low + 4 * high + 16 * And(r, m)
  {
    AndDigit4(low, high + 4 * r, 3 + 4 * m);
    AndDigit4(high, r, m);
  }

  lemma {:induction false} AndNone16(low: nat, high: nat, r: nat, m: nat)
    requires low < 4 && high < 4
    ensures And(low + 4 * high + 16 * r, 16 * m) == 16 * And(r, m)
  {
    AndDigit4(low, high + 4 * r, 4 * m);
    AndDigit4(high, r, m);
  }

  lemma {:induction false} AndDigit256(low: nat, high: nat, r: nat, m: nat)
    requires low < 16 && high < 16
    ensures And(low + 16 * high + 256 * r, 15 + 256 * m) == low + 256 * And(r, m)
  {
    AndWhole16(low % 4, low / 4, high + 16 * r, 16 * m);
    AndNone16(high % 4, high / 4, r, m);
  }

  lemma {:induction false} AndThreeBits(b4: nat, b5: nat, b6: nat, r: nat)
    requires b4 < 2 && b5 < 2 && b6 < 2
    ensures And(b4 + 2 * b5 + 4 * (b6 + 2 * r), 7) == b4 + 2 * b5 + 4 * b6
  {
    AndPair(b4, b5, b6 + 2 * r, 1, 1, 1);
    AndBit(b6, r, 1, 0);
  }

  lemma {:induction false} AndSevenBits(low: nat, high: nat, b4: nat, b5: nat, b6: nat, r: nat)
    requires low < 4 && high < 4 && b4 < 2 && b5 < 2 && b6 < 2
    ensures And(low + 4 * high + 16 * (b4 + 2 * b5 + 4 * (b6 + 2 * r)), 127)
         == low + 4 * high + 16 * (b4 + 2 * b5 + 4 * b6)
  {
    AndWhole16(low, high, b4 + 2 * b5 + 4 * (b6 + 2 * r), 7);
    AndThreeBits(b4, b5, b6, r);
  }

  lemma {:induction false} AndLowSeven(t: nat, r: nat)
    requires t < 128
    ensures And(t + 128 * r, 127) == t
  {
    var low, high, b4, b5, b6 := t % 4, (t / 4) % 4, (t / 16) % 2, (t / 32) % 2, t / 64;
    assert t == low + 4 * high + 16 * b4 + 32 * b5 + 64 * b6;
    AndSevenBits(low, high, b4, b5, b6, r);
  }

  // ---------------------------------------------------------------- the four stages

  /** The number written with the given digits, lowest first. */
  function Value(digits: seq<nat>, base: nat): nat {
    if digits == [] then 0 else digits[0] + base * Value(digits[1..], base)
  }

  function Sum(digits: seq<nat>): nat {
    if digits == [] then 0 else digits[0] + Sum(digits[1..])
  }

  /** Neighbouring digits added in pairs. */
  function PairUp(digits: seq<nat>): seq<nat>
    requires |digits| % 2 == 0
  {
    if digits == [] then [] else [digits[0] + digits[1]] + PairUp(digits[2..])
  }

  ghost predicate AtMost(digits: seq<nat>, bound: nat) { forall k | 0 <= k < |digits| :: digits[k] <= bound }

  lemma {:induction false} PairUpSums(digits: seq<nat>, bound: nat)
    requires |digits| % 2 == 0 && AtMost(digits, bound)
    ensures |PairUp(digits)| == |digits| / 2 && AtMost(PairUp(digits), 2 * bound)
    ensures Sum(PairUp(digits)) == Sum(digits)
  {
    if digits != [] {
      PairUpSums(digits[2..], bound);
      assert digits[1..][1..] == digits[2..];
      assert Sum(digits[1..]) == digits[1] + Sum(digits[2..]);
      assert PairUp(digits)[1..] == PairUp(digits[2..]);
    }
  }

  lemma {:induction false} TwoDigits(digits: seq<nat>, base: nat)
    requires |digits| >= 2
    ensures Value(digits, base) == digits[0] + base * (digits[1] + base * Value(digits[2..], base))
  {
    assert digits[1..][1..] == digits[2..];
    assert Value(digits[1..], base) == digits[1] + base * Value(digits[2..], base);
  }

  lemma {:induction false} PairUpValue(digits: seq<nat>, base: nat)
    requires |digits| >= 2 && |digits| % 2 == 0
    ensures Value(PairUp(digits), base) == digits[0] + digits[1] + base * Value(PairUp(digits[2..]), base)
  {
    assert PairUp(digits)[1..] == PairUp(digits[2..]);
  }

  lemma {:induction false} PairsStep(a: nat, b: nat, r: nat, m: nat)
    requires a < 2 && b < 2
    ensures Halved(a + 2 * (b + 2 * r), 1 + 4 * m) == a + b + 4 * Halved(r, m)
  {
    AndDigit4(b + 2 * (r % 2), r / 2, m);
    assert (a + 2 * (b + 2 * r)) / 2 == b + 2 * (r % 2) + 4 * (r / 2);
  }

  lemma {:induction false} PairsStage(digits: seq<nat>, n: nat)
    requires |digits| == 2 * n && AtMost(digits, 1)
    ensures Halved(Value(digits, 2), Mask(1, 4, n)) == Value(PairUp(digits), 4)
  {
    if n > 0 {
      PairsStage(digits[2..], n - 1);
      TwoDigits(digits, 2);
      PairUpValue(digits, 4);
      PairsStep(digits[0], digits[1], Value(digits[2..], 2), Mask(1, 4, n - 1));
    }
  }

  lemma {:induction false} NibblesStep(low: nat, high: nat, rest: nat, m: nat)
    requires low < 4 && high < 4
    ensures AddNeighbours(low + 4 * (high + 4 * rest), 3 + 16 * m) == low + high + 16 * AddNeighbours(rest, m)
  {
    AndDigit16(low, high, rest, m);
    AndDigit16(high, rest % 4, rest / 4, m);
    assert (low + 4 * (high + 4 * rest)) / 4 == high + 4 * (rest % 4) + 16 * (rest / 4);
  }

  lemma {:induction false} NibblesStage(digits: seq<nat>, n: nat)
    requires |digits| == 2 * n && AtMost(digits, 2)
    ensures AddNeighbours(Value(digits, 4), Mask(3, 16, n)) == Value(PairUp(digits), 16)
  {
    if n > 0 {
      NibblesStage(digits[2..], n - 1);
      TwoDigits(digits, 4);
      PairUpValue(digits, 16);
      NibblesStep(digits[0], digits[1], Value(digits[2..], 4), Mask(3, 16, n - 1));
    }
  }

  lemma {:induction false} BytesStep(low: nat, high: nat, r: nat, m: nat)
    requires low <= 4 && high <= 4 && r % 16 <= 4
    ensures AddHalves(low + 16 * (high + 16 * r), 15 + 256 * m) == low + high + 256 * AddHalves(r, m)
  {
    AndDigit256(low + high, high + r % 16, r + r / 16, m);
    assert r == r % 16 + 16 * (r / 16);
    assert (low + 16 * (high + 16 * r)) / 16 == high + 16 * r;
  }

  lemma {:induction false} SmallFirstDigit(digits: seq<nat>)
    requires AtMost(digits, 4)
    ensures Value(digits, 16) % 16 <= 4
  {
    if digits != [] {
      var rest := Value(digits[1..], 16);
      assert (digits[0] + 16 * rest) % 16 == digits[0];
    }
  }

  lemma {:induction false} BytesStage(digits: seq<nat>, n: nat)
    requires |digits| == 2 * n && AtMost(digits, 4)
    ensures AddHalves(Value(digits, 16), Mask(15, 256, n)) == Value(PairUp(digits), 256)
  {
    if n > 0 {
      BytesStage(digits[2..], n - 1);
      TwoDigits(digits, 16);
      PairUpValue(digits, 256);
      SmallFirstDigit(digits[2..]);
      BytesStep(digits[0], digits[1], Value(digits[2..], 16), Mask(15, 256, n - 1));
    }
  }

  lemma {:induction false} FoldBytes(c0: nat, c1: nat, c2: nat, c3: nat)
    requires c0 <= 8 && c1 <= 8 && c2 <= 8 && c3 <= 8
    ensures Fold(c0 + 256 * (c1 + 256 * (c2 + 256 * c3))) == c0 + c1 + c2 + c3
  {
    var c := c0 + 256 * (c1 + 256 * (c2 + 256 * c3));
    assert c / 256 == c1 + 256 * c2 + 65536 * c3;
    var d := c + c / 256;
    assert d / 65536 == (c2 + c3) + 256 * c3;
    var r := 2 * (c1 + c2) + 512 * (c2 + c3) + 0x2_0000 * c3 + 2 * c3;
    assert d + d / 65536 == (c0 + c1 + c2 + c3) + 128 * r;
    AndLowSeven(c0 + c1 + c2 + c3, r);
  }

  lemma {:induction false} FoldStage(digits: seq<nat>)
    requires |digits| == 4 && AtMost(digits, 8)
    ensures Fold(Value(digits, 256)) == Sum(digits)
  {
    TwoDigits(digits, 256);
    TwoDigits(digits[2..], 256);
    assert digits[2..][2..] == [];
    assert digits[1..][1..] == digits[2..] && digits[2..][1..] == digits[3..] && digits[3..][1..] == [];
    assert Sum(digits) == digits[0] + (digits[1] + (digits[2] + (digits[3] + Sum([])))) by {
      assert Sum(digits[3..]) == digits[3] + Sum([]);
      assert Sum(digits[2..]) == digits[2] + Sum(digits[3..]);
      assert Sum(digits[1..]) == digits[1] + Sum(digits[2..]);
    }
    FoldBytes(digits[0], digits[1], digits[2], digits[3]);
  }

  /** A number below 2^n is written by its low n bits, and the count of the set ones is their sum. */
  lemma {:induction false} BinaryDigits(x: nat, n: nat) returns (digits: seq<nat>)
    requires x < Pow(2, n)
    ensures |digits| == n && AtMost(digits, 1)
    ensures Value(digits, 2) == x && Sum(digits) == CountTrue(Bits(x, n))
  {
    if n == 0 {
      digits := [];
    } else {
      var rest := BinaryDigits(x / 2, n - 1);
      digits := [x % 2] + rest;
      assert digits[1..] == rest;
      assert Bits(x, n)[1..] == Bits(x / 2, n - 1);
    }
  }

  lemma {:induction false} PowWord()
    ensures Pow(2, 32) == 0x1_0000_0000
  {
    assert Pow(2, 4) == 16;
    assert Pow(2, 8) == 256;
    assert Pow(2, 12) == 4096;
    assert Pow(2, 16) == 65536;
    assert Pow(2, 20) == 0x10_0000;
    assert Pow(2, 24) == 0x100_0000;
    assert Pow(2, 28) == 0x1000_0000;
  }

  /** The branch-free count is the number of set bits, for every 32-bit word. */
  lemma {:induction false} PopcountCounts(x: nat)
    requires x < 0x1_0000_0000
    ensures Pairs(x) >= 0 && Popcount(x) == CountTrue(Bits(x, 32))
  {
    TheMasks();
    PowWord();
    var bits := BinaryDigits(x, 32);
    PairsStage(bits, 16);
    PairUpSums(bits, 1);
    var pairs := PairUp(bits);
    NibblesStage(pairs, 8);
    PairUpSums(pairs, 2);
    var nibbles := PairUp(pairs);
    BytesStage(nibbles, 4);
    PairUpSums(nibbles, 4);
    FoldStage(PairUp(nibbles));
  }

  // ---------------------------------------------------------------- testing, setting and ranking a bit

  /** The number whose bits are given, lowest first. */
  function Num(bits: seq<bool>): nat {
    if bits == [] then 0 else (if bits[0] then 1 else 0) + 2 * Num(bits[1..])
  }

  lemma {:induction false} NumOfBits(x: nat, n: nat)
    requires x < Pow(2, n)
    ensures Num(Bits(x, n)) == x
  {
    if n > 0 {
      NumOfBits(x / 2, n - 1);
      assert Bits(x, n)[1..] == Bits(x / 2, n - 1);
    }
  }

  lemma {:induction false} BitsOfNum(bits: seq<bool>)
    ensures Bits(Num(bits), |bits|) == bits
    ensures Num(bits) < Pow(2, |bits|)
  {
    if bits != [] { BitsOfNum(bits[1..]); }
  }

  lemma {:induction false} OrSets(bits: seq<bool>, i: nat)
    requires i < |bits|
    ensures Or(Num(bits), Pow(2, i)) == Num(bits[i := true])
  {
    var b, rest := if bits[0] then 1 else 0, Num(bits[1..]);
    if i > 0 {
      OrSets(bits[1..], i - 1);
      OrBit(b, rest, 0, Pow(2, i - 1));
      assert bits[i := true][1..] == bits[1..][i - 1 := true];
    } else {
      OrBit(b, rest, 1, 0);
      assert bits[0 := true][1..] == bits[1..];
    }
  }

  lemma {:induction false} XorClears(bits: seq<bool>, i: nat)
    requires i < |bits| && bits[i]
    ensures Xor(Num(bits), Pow(2, i)) == Num(bits[i := false])
  {
    var b, rest := if bits[0] then 1 else 0, Num(bits[1..]);
    if i > 0 {
      XorClears(bits[1..], i - 1);
      XorBit(b, rest, 0, Pow(2, i - 1));
      assert bits[i := false][1..] == bits[1..][i - 1 := false];
    } else {
      XorBit(1, rest, 1, 0);
      assert bits[0 := false][1..] == bits[1..];
    }
  }

  lemma {:induction false} OrBit(a: nat, r: nat, b: nat, q: nat)
    requires a < 2 && b < 2
    ensures Or(a + 2 * r, b + 2 * q) == (if a == 1 || b == 1 then 1 else 0) + 2 * Or(r, q)
  {
    assert (a + 2 * r) / 2 == r && (b + 2 * q) / 2 == q;
  }

  lemma {:induction false} XorBit(a: nat, r: nat, b: nat, q: nat)
    requires a < 2 && b < 2
    ensures Xor(a + 2 * r, b + 2 * q) == (if a != b then 1 else 0) + 2 * Xor(r, q)
  {
    assert (a + 2 * r) / 2 == r && (b + 2 * q) / 2 == q;
  }

  lemma AndNothing(x: nat)
    ensures And(x, 0) == 0
  {}

  /** Masking with one bit tests it. */
  lemma {:induction false} AndTests(bits: seq<bool>, i: nat)
    requires i < |bits|
    ensures And(Num(bits), Pow(2, i)) == if bits[i] then Pow(2, i) else 0
  {
    var b, rest := if bits[0] then 1 else 0, Num(bits[1..]);
    if i > 0 {
      AndTests(bits[1..], i - 1);
      AndBit(b, rest, 0, Pow(2, i - 1));
    } else {
      AndBit(b, rest, 1, 0);
      AndNothing(rest);
    }
  }

  /** The bits below `i`, the others cleared. */
  function Below(bits: seq<bool>, i: nat): (low: seq<bool>)
    ensures |low| == |bits|
  {
    if bits == [] then []
    else if i == 0 then [false] + Below(bits[1..], 0)
    else [bits[0]] + Below(bits[1..], i - 1)
  }

  lemma {:induction false} AndKeepsBelow(bits: seq<bool>, i: nat)
    requires i <= |bits|
    ensures And(Num(bits), Pow(2, i) - 1) == Num(Below(bits, i))
  {
    if bits == [] {
    } else if i > 0 {
      AndKeepsBelow(bits[1..], i - 1);
      AndBit(if bits[0] then 1 else 0, Num(bits[1..]), 1, Pow(2, i - 1) - 1);
      assert Below(bits, i)[1..] == Below(bits[1..], i - 1);
    } else {
      AndNothing(Num(bits));
      NothingBelow(bits);
    }
  }

  lemma {:induction false} NothingBelow(bits: seq<bool>)
    ensures Num(Below(bits, 0)) == 0 && CountTrue(Below(bits, 0)) == 0
  {
    if bits != [] {
      NothingBelow(bits[1..]);
      assert Below(bits, 0)[1..] == Below(bits[1..], 0);
    }
  }

  lemma {:induction false} CountBelow(bits: seq<bool>, i: nat)
    requires i <= |bits|
    ensures CountTrue(Below(bits, i)) == CountTrue(bits[..i])
  {
    if bits == [] {
    } else if i > 0 {
      CountBelow(bits[1..], i - 1);
      assert Below(bits, i)[1..] == Below(bits[1..], i - 1);
      assert bits[..i][1..] == bits[1..][..i - 1];
    } else {
      NothingBelow(bits);
    }
  }

  // ---------------------------------------------------------------- the operations of a bitmap node

  type Word = x: nat | x < 0x1_0000_0000

  /** `0 != (bitmap & 1 << i)` */
  predicate Has(bitmap: Word, i: nat)
    requires i < 32
    ensures Has(bitmap, i) == Bits(bitmap, 32)[i]
  {
    PowWord();
    NumOfBits(bitmap, 32);
    AndTests(Bits(bitmap, 32), i);
    And(bitmap, Pow(2, i)) != 0
  }

  lemma {:induction false} BelowIsWord(bitmap: Word, i: nat)
    requires i < 32
    ensures And(bitmap, Pow(2, i) - 1) < 0x1_0000_0000
    ensures CountTrue(Bits(And(bitmap, Pow(2, i) - 1), 32)) == CountTrue(Bits(bitmap, 32)[..i])
  {
    var bits := Bits(bitmap, 32);
    PowWord();
    NumOfBits(bitmap, 32);
    AndKeepsBelow(bits, i);
    BitsOfNum(Below(bits, i));
    CountBelow(bits, i);
  }

  /** The index of bit `i` among the set bits: the population count of the bits below it. */
  function Rank(bitmap: Word, i: nat): (rank: nat)
    requires i < 32
    ensures rank == CountTrue(Bits(bitmap, 32)[..i])
  {
    BelowIsWord(bitmap, i);
    PopcountCounts(And(bitmap, Pow(2, i) - 1));
    Popcount(And(bitmap, Pow(2, i) - 1))
  }

  /** `bitmap | 1 << i` */
  function With(bitmap: Word, i: nat): (r: Word)
    requires i < 32
    ensures Bits(r, 32) == Bits(bitmap, 32)[i := true]
  {
    PowWord();
    NumOfBits(bitmap, 32);
    OrSets(Bits(bitmap, 32), i);
    BitsOfNum(Bits(bitmap, 32)[i := true]);
    Or(bitmap, Pow(2, i))
  }

  /** `bitmap ^ 1 << i`, for a bit that is set */
  function Without(bitmap: Word, i: nat): (r: Word)
    requires i < 32 && Has(bitmap, i)
    ensures Bits(r, 32) == Bits(bitmap, 32)[i := false]
  {
    PowWord();
    NumOfBits(bitmap, 32);
    XorClears(Bits(bitmap, 32), i);
    BitsOfNum(Bits(bitmap, 32)[i := false]);
    Xor(bitmap, Pow(2, i))
  }
}
