/** The 32-bit arithmetic of the text hash, the embedder's seeds and the mulberry generators, on
    unsigned words. */
module Words {

  type Word = w: nat | w < 0x1_0000_0000
  type CodeUnit = u: nat | u < 0x1_0000

  function Wrap(n: nat): Word { n % 0x1_0000_0000 }

  // ---------------------------------------------------------------- bits

  function Xor(a: nat, b: nat): nat
    decreases a + b
  {
    if a == 0 && b == 0 then 0 else (a + b) % 2 + 2 * Xor(a / 2, b / 2)
  }

  function Or(a: nat, b: nat): (r: nat)
    ensures r % 2 == if a % 2 == 1 || b % 2 == 1 then 1 else 0
    decreases a + b
  {
    if a == 0 && b == 0 then 0 else
      var bit := if a % 2 == 1 || b % 2 == 1 then 1 else 0;
      Digit(bit, Or(a / 2, b / 2));
      bit + 2 * Or(a / 2, b / 2)
  }

  function Pow2(k: nat): (r: nat)
    ensures r >= 1
  {
    if k == 0 then 1 else 2 * Pow2(k - 1)
  }

  lemma {:induction false} XorFits(a: nat, b: nat, k: nat)
    requires a < Pow2(k) && b < Pow2(k)
    ensures Xor(a, b) < Pow2(k)
    decreases k
  {
    if k > 0 && !(a == 0 && b == 0) {
      XorFits(a / 2, b / 2, k - 1);
    }
  }

  lemma WordIsPow2()
    ensures Pow2(32) == 0x1_0000_0000
  {
    assert Pow2(8) == 0x100;
    assert Pow2(16) == 0x1_0000;
    assert Pow2(24) == 0x100_0000;
  }

  function XorWord(a: Word, b: Word): (r: Word) {
    WordIsPow2();
    XorFits(a, b, 32);
    Xor(a, b)
  }

  lemma XorBits(a: nat, b: nat)
    ensures Xor(a, b) % 2 == (a + b) % 2 && Xor(a, b) / 2 == Xor(a / 2, b / 2)
  {
    if a == 0 && b == 0 {
      assert Xor(0, 0) == 0;
    } else {
      Digit((a + b) % 2, Xor(a / 2, b / 2));
    }
  }

  lemma Digit(r: nat, y: nat)
    requires r < 2
    ensures (r + 2 * y) % 2 == r && (r + 2 * y) / 2 == y
  {
  }

  lemma {:induction false} XorTwice(a: nat, b: nat)
    ensures Xor(Xor(a, b), b) == a
    decreases a + b
  {
    if !(a == 0 && b == 0) {
      XorTwice(a / 2, b / 2);
      var x := Xor(a, b);
      XorBits(a, b);
      XorBits(x, b);
      SameDigits(a, b, x, Xor(x, b));
    }
  }

  lemma SameDigits(a: nat, b: nat, x: nat, y: nat)
    requires x % 2 == (a + b) % 2 && y % 2 == (x + b) % 2 && y / 2 == a / 2
    ensures y == a
  {
  }

  lemma {:induction false} XorCommutes(a: nat, b: nat)
    ensures Xor(a, b) == Xor(b, a)
    decreases a + b
  {
    if !(a == 0 && b == 0) {
      XorCommutes(a / 2, b / 2);
    }
  }

  lemma {:induction false} XorZero(a: nat, b: nat)
    ensures Xor(a, b) == 0 <==> a == b
    decreases a + b
  {
    if !(a == 0 && b == 0) {
      XorZero(a / 2, b / 2);
    }
  }

  /** Whether bit `k` is set. */
  predicate Bit(n: nat, k: nat) {
    if k == 0 then n % 2 == 1 else Bit(n / 2, k - 1)
  }

  lemma OrHalves(a: nat, b: nat)
    ensures Or(a, b) / 2 == Or(a / 2, b / 2)
  {
    if a == 0 && b == 0 {
      assert Or(0, 0) == 0;
    } else {
      Digit(if a % 2 == 1 || b % 2 == 1 then 1 else 0, Or(a / 2, b / 2));
    }
  }

  /** Or and exclusive or, bit by bit. */
  lemma {:induction false} BitsExactly(a: nat, b: nat, k: nat)
    ensures Bit(Or(a, b), k) <==> Bit(a, k) || Bit(b, k)
    ensures Bit(Xor(a, b), k) <==> Bit(a, k) != Bit(b, k)
    decreases k
  {
    OrHalves(a, b);
    XorBits(a, b);
    if k == 0 {
      SumDigit(a, b);
    } else {
      BitsExactly(a / 2, b / 2, k - 1);
    }
  }

  lemma SumDigit(a: nat, b: nat)
    ensures (a + b) % 2 == 1 <==> (a % 2 == 1) != (b % 2 == 1)
  {
  }

  // ---------------------------------------------------------------- multiplication modulo 2^32

  lemma WrapShift(a: nat, k: nat)
    ensures Wrap(a + k * 0x1_0000_0000) == Wrap(a)
  {
  }

  lemma WrapPlus(x: nat, c: nat)
    ensures Wrap(Wrap(x) + c) == Wrap(x + c)
  {
    var q := x / 0x1_0000_0000;
    assert x + c == Wrap(x) + c + q * 0x1_0000_0000;
    WrapShift(Wrap(x) + c, q);
  }

  lemma WrapTimes(x: nat, y: nat)
    ensures Wrap(Wrap(x) * y) == Wrap(x * y)
  {
    var q := x / 0x1_0000_0000;
    assert x == q * 0x1_0000_0000 + Wrap(x);
    assert x * y == Wrap(x) * y + (q * y) * 0x1_0000_0000;
    WrapShift(Wrap(x) * y, q * y);
  }

  /** Multiplying by two inverse factors in turn gives the word back. */
  lemma TimesInverse(i: nat, f: nat, g: nat, c: nat)
    requires f * g == 1 + c * 0x1_0000_0000
    ensures Wrap(Wrap(i * f) * g) == Wrap(i)
  {
    WrapTimes(i * f, g);
    assert (i * f) * g == i * (f * g) == i + (i * c) * 0x1_0000_0000;
    WrapShift(i, i * c);
  }

  lemma TimesBack(h: Word, f: nat, g: nat, c: nat)
    requires f * g == 1 + c * 0x1_0000_0000
    ensures Wrap(Wrap(h * f) * g) == h
  {
    TimesInverse(h, f, g, c);
  }

  // ---------------------------------------------------------------- the text hash

  const PRIME := 16777619
  const PRIME_INVERSE := 899433627
  const OFFSET: Word := 2166136261

  function Mix(h: Word, unit: CodeUnit): Word {
    Wrap(XorWord(h, unit) * PRIME)
  }

  function Unmix(h: Word, unit: CodeUnit): Word {
    XorWord(Wrap(h * PRIME_INVERSE), unit)
  }

  /** The hash state after the UTF-16 code units of a text, from any state. */
  function Hash(h: Word, text: seq<CodeUnit>): Word {
    if text == [] then h else Mix(Hash(h, text[..|text| - 1]), text[|text| - 1])
  }

  function Fnv(text: seq<CodeUnit>): Word {
    Hash(OFFSET, text)
  }

  method Fnv1a(text: seq<CodeUnit>) returns (h: Word)
    ensures h == Fnv(text)
  {
    h := OFFSET;
    for i := 0 to |text|
      invariant h == Hash(OFFSET, text[..i])
    {
      assert text[..i + 1][..i] == text[..i];
      h := XorWord(h, text[i]);
      h := Wrap(h * PRIME);
    }
    assert text[..|text|] == text;
  }

  /** Every step of the hash is a bijection on words. */
  lemma MixBijective(h: Word, u: CodeUnit)
    ensures Unmix(Mix(h, u), u) == h && Mix(Unmix(h, u), u) == h
  {
    TimesBack(XorWord(h, u), PRIME, PRIME_INVERSE, 3513497);
    TimesBack(h, PRIME_INVERSE, PRIME, 3513497);
    XorTwice(h, u);
    XorTwice(Wrap(h * PRIME_INVERSE), u);
  }

  /** From one state, distinct units step apart. */
  lemma UnitsStepApart(h: Word, u: CodeUnit, v: CodeUnit)
    ensures Mix(h, u) == Mix(h, v) <==> u == v
  {
    TimesBack(XorWord(h, u), PRIME, PRIME_INVERSE, 3513497);
    TimesBack(XorWord(h, v), PRIME, PRIME_INVERSE, 3513497);
    XorCommutes(h, u);
    XorCommutes(h, v);
    XorTwice(u, h);
    XorTwice(v, h);
  }

  /** A common suffix cancels: after it two states agree exactly when they agreed before it. */
  lemma {:induction false} SuffixCancels(h: Word, g: Word, text: seq<CodeUnit>)
    ensures Hash(h, text) == Hash(g, text) <==> h == g
  {
    if text != [] {
      var p, u := text[..|text| - 1], text[|text| - 1];
      SuffixCancels(h, g, p);
      MixBijective(Hash(h, p), u);
      MixBijective(Hash(g, p), u);
    }
  }

  lemma {:induction false} HashConcat(h: Word, a: seq<CodeUnit>, b: seq<CodeUnit>)
    ensures Hash(h, a + b) == Hash(Hash(h, a), b)
  {
    if b == [] {
      assert a + b == a;
    } else {
      var n := |b| - 1;
      HashConcat(h, a, b[..n]);
      assert (a + b)[..|a| + n] == a + b[..n];
    }
  }

  /** Texts with a common ending collide exactly when the parts before it do. */
  lemma CollisionsComeFromPrefixes(a: seq<CodeUnit>, b: seq<CodeUnit>, suffix: seq<CodeUnit>)
    ensures Fnv(a + suffix) == Fnv(b + suffix) <==> Fnv(a) == Fnv(b)
  {
    HashConcat(OFFSET, a, suffix);
    HashConcat(OFFSET, b, suffix);
    SuffixCancels(Fnv(a), Fnv(b), suffix);
  }

  /** Two texts of equal length that differ in exactly one code unit never collide. */
  lemma OneUnitApart(s: seq<CodeUnit>, t: seq<CodeUnit>, k: nat)
    requires |s| == |t| && k < |s| && s[k] != t[k] && forall i | 0 <= i < |s| && i != k :: s[i] == t[i]
    ensures Fnv(s) != Fnv(t)
  {
    var p, rest := s[..k], s[k + 1..];
    assert s == (p + [s[k]]) + rest && t == (p + [t[k]]) + rest;
    CollisionsComeFromPrefixes(p + [s[k]], p + [t[k]], rest);
    assert (p + [s[k]])[..k] == p && (p + [t[k]])[..k] == p;
    UnitsStepApart(Fnv(p), s[k], t[k]);
  }

  lemma {:induction false} XorWithZero(a: nat)
    ensures Xor(a, 0) == a
  {
    if a > 0 {
      XorWithZero(a / 2);
    }
  }

  lemma {:induction false} OrWithZero(a: nat)
    ensures Or(a, 0) == a
  {
    if a > 0 {
      OrWithZero(a / 2);
    }
  }

  /** One more low bit of a known exclusive or, or of a known or. */
  lemma XorStep(a: nat, b: nat, r: nat)
    requires Xor(a / 2, b / 2) == r / 2 && (a + b) % 2 == r % 2
    ensures Xor(a, b) == r
  {
    XorBits(a, b);
    SameParts(Xor(a, b), r);
  }

  lemma OrStep(a: nat, b: nat, r: nat)
    requires Or(a / 2, b / 2) == r / 2 && r % 2 == if a % 2 == 1 || b % 2 == 1 then 1 else 0
    ensures Or(a, b) == r
  {
    OrHalves(a, b);
    SameParts(Or(a, b), r);
  }

  lemma SameParts(x: nat, y: nat)
    requires x % 2 == y % 2 && x / 2 == y / 2
    ensures x == y
  {
  }

  lemma BitParts(a: nat, b: nat, x: nat, y: nat)
    requires x < 2 && y < 2
    ensures (2 * a + x) / 2 == a && (2 * b + y) / 2 == b && (2 * a + x + (2 * b + y)) % 2 == (x + y) % 2
  {
    if x == 0 || y == 0 {
      assert 2 * a + x + (2 * b + y) == 2 * (a + b) + (x + y);
    } else {
      assert 2 * a + x + (2 * b + y) == 2 * (a + b + 1);
    }
  }

  lemma SetBits(z: nat, r: nat, bit: nat)
    requires bit < 2 && z % 2 == bit && z / 2 == r
    ensures z == 2 * r + bit
  {
  }

  /** One more low bit on both sides. */
  lemma XorBit(a: nat, b: nat, x: nat, y: nat, m: nat, n: nat)
    requires x < 2 && y < 2 && m == 2 * a + x && n == 2 * b + y
    ensures Xor(m, n) == 2 * Xor(a, b) + (x + y) % 2
  {
    BitParts(a, b, x, y);
    assert m / 2 == a && n / 2 == b && (m + n) % 2 == (x + y) % 2;
    XorBits(m, n);
    SetBits(Xor(m, n), Xor(a, b), (x + y) % 2);
  }

  lemma HighPart(h: nat, zero: nat)
    requires zero == 0
    ensures Xor(4 * h + 2, 3) == 4 * h + 1
  {
    XorWithZero(h);
    XorBit(h, zero, 1, 1, 2 * h + 1, 1);
    XorBit(2 * h + 1, 1, 0, 1, 4 * h + 2, 3);
  }

  lemma MiddlePart(a: nat, r: nat)
    requires Xor(a, 3) == r
    ensures Xor(4 * a, 12) == 4 * r
  {
    XorBit(a, 3, 0, 0, 2 * a, 6);
    XorBit(2 * a, 6, 0, 0, 4 * a, 12);
  }

  lemma LowPart(a: nat, r: nat)
    requires Xor(a, 12) == r
    ensures Xor(8 * a + 5, 97) == 8 * r + 4
  {
    NextBit(a, r);
    LastTwo(2 * a + 1, 2 * r + 1);
  }

  lemma NextBit(a: nat, r: nat)
    requires Xor(a, 12) == r
    ensures Xor(2 * a + 1, 24) == 2 * r + 1
  {
    XorBit(a, 12, 1, 0, 2 * a + 1, 24);
  }

  lemma LastTwo(b: nat, q: nat)
    requires Xor(b, 24) == q
    ensures Xor(4 * b + 1, 97) == 4 * q
  {
    XorBit(b, 24, 0, 0, 2 * b, 48);
    XorBit(2 * b, 48, 1, 1, 4 * b + 1, 97);
  }

  /** The low bits of a word against those of "a". */
  lemma LowBits(h: nat, a: nat, b: nat)
    requires a == 4 * h + 2 && b == 4 * a
    ensures Xor(8 * b + 5, 97) == 128 * h + 36
  {
    HighPart(h, 0);
    MiddlePart(a, 4 * h + 1);
    LowPart(b, 16 * h + 4);
  }

  lemma MixIs(h: Word, u: CodeUnit, x: nat)
    requires Xor(h, u) == x
    ensures Mix(h, u) == Wrap(x * PRIME)
  {
  }

  lemma HashOne(h: Word, u: CodeUnit)
    ensures Hash(h, []) == h && Hash(h, [u]) == Mix(h, u)
  {
    assert [u][..0] == [];
  }

  lemma Product(x: nat)
    requires x == 2166136228
    ensures Wrap(x * PRIME) == 0xe40c292c
  {
  }

  /** The published values of the 32-bit FNV-1a hash of the empty text and of "a". */
  lemma PublishedHashes(a: CodeUnit)
    requires a == 97
    ensures Fnv([]) == 0x811c9dc5 && Fnv([a]) == 0xe40c292c
  {
    var h := OFFSET;
    LowBits(16922939, 67691758, 270767032);
    HashOne(h, a);
    MixIs(h, a, 2166136228);
    Product(2166136228);
  }

  // ---------------------------------------------------------------- per-dimension seeds

  const GOLDEN := 2654435761
  const GOLDEN_INVERSE := 244002641

  function Seed(base: Word, i: nat): Word {
    XorWord(base, Wrap((i + 1) * GOLDEN))
  }

  lemma WrapSuccessor(i: nat, j: nat)
    ensures Wrap(i + 1) == Wrap(j + 1) <==> Wrap(i) == Wrap(j)
  {
  }

  lemma XorCancels(base: Word, a: Word, b: Word)
    ensures XorWord(base, a) == XorWord(base, b) <==> a == b
  {
    XorCommutes(base, a);
    XorCommutes(base, b);
    XorTwice(a, base);
    XorTwice(b, base);
  }

  /** Multiplication by a factor with an inverse separates words. */
  lemma TimesCancels(i: nat, j: nat, f: nat, g: nat, c: nat)
    requires f * g == 1 + c * 0x1_0000_0000
    ensures Wrap(i * f) == Wrap(j * f) <==> Wrap(i) == Wrap(j)
  {
    TimesInverse(i, f, g, c);
    TimesInverse(j, f, g, c);
    WrapTimes(i, f);
    WrapTimes(j, f);
  }

  /** Two dimensions share a seed exactly when they are equal modulo 2^32. */
  lemma SeedsDistinct(base: Word, i: nat, j: nat)
    ensures Seed(base, i) == Seed(base, j) <==> Wrap(i) == Wrap(j)
  {
    XorCancels(base, Wrap((i + 1) * GOLDEN), Wrap((j + 1) * GOLDEN));
    TimesCancels(i + 1, j + 1, GOLDEN, GOLDEN_INVERSE, 150801925);
    WrapSuccessor(i, j);
  }

  lemma ZeroXor(zero: nat, w: nat)
    requires zero == 0
    ensures Xor(zero, w) == w
  {
    XorCommutes(zero, w);
    XorWithZero(w);
  }

  /** The seeds of the zero hash are the multiples of the published multiplier. */
  lemma SeedKnown(zero: Word, i: nat)
    requires zero == 0
    ensures Seed(zero, i) == ((i + 1) * 0x9e3779b1) % 0x1_0000_0000
  {
    ZeroXor(zero, Wrap((i + 1) * GOLDEN));
  }

  // ---------------------------------------------------------------- mulberry output

  /** The two multiplying rounds and the final shift, applied to a generator state. */
  function Round1(s: Word): Word { Wrap(XorWord(s, s / 0x8000) * Or(s, 1)) }

  function Blend(s: Word, x: Word, y: nat): Word { XorWord(s, Wrap(s + Wrap(x * y))) }

  function Round2(s: Word): Word { Blend(s, XorWord(s, s / 0x80), Or(s, 61)) }

  function Scramble(s: Word): Word {
    var t := Round2(Round1(s));
    XorWord(t, t / 0x4000)
  }

  lemma {:induction false} OddFactor(x: nat, y: nat, k: nat, q: nat)
    requires y % 2 == 1 && x < Pow2(k) && x * y == q * Pow2(k)
    ensures x == 0
  {
    if k > 0 {
      var z := q * Pow2(k - 1);
      assert q * Pow2(k) == 2 * z;
      Even(x, y, z);
      var h := x / 2;
      assert 2 * (h * y) == x * y;
      OddFactor(h, y, k - 1, q);
    }
  }

  lemma Even(x: nat, y: nat, z: nat)
    requires y % 2 == 1 && x * y == 2 * z
    ensures x % 2 == 0
  {
    var m := y / 2;
    assert x * y == 2 * (x * m) + x by {
      assert y == 2 * m + 1;
    }
  }

  lemma OddProduct(x: Word, y: nat)
    requires y % 2 == 1
    ensures Wrap(x * y) == 0 <==> x == 0
  {
    WordIsPow2();
    if Wrap(x * y) == 0 {
      OddFactor(x, y, 32, (x * y) / 0x1_0000_0000);
    }
  }

  lemma ShiftZero(s: Word, q: Word)
    requires q < s || s == q == 0
    ensures Xor(s, q) == 0 <==> s == 0
  {
    XorZero(s, q);
  }

  lemma Smaller(s: Word)
    ensures s > 0 ==> s / 0x80 < s && s / 0x4000 < s && s / 0x8000 < s
  {
  }

  lemma Round2Zero(s: Word)
    ensures Round2(s) == 0 <==> s == 0
  {
    var x := XorWord(s, s / 0x80);
    Smaller(s);
    ShiftZero(s, s / 0x80);
    AddedZero(s, x, Or(s, 61));
  }

  lemma AddedZero(s: Word, x: Word, y: nat)
    requires y % 2 == 1
    ensures Blend(s, x, y) == 0 <==> x == 0
  {
    OddProduct(x, y);
    XorZero(s, Wrap(s + Wrap(x * y)));
    AddNothing(s, Wrap(x * y));
  }

  lemma AddNothing(s: Word, m: Word)
    ensures Wrap(s + m) == s <==> m == 0
  {
  }

  /** The output word is zero for the zero state and for no other. */
  lemma ScrambleZero(s: Word)
    ensures Scramble(s) == 0 <==> s == 0
  {
    Smaller(s);
    Smaller(Round2(Round1(s)));
    ShiftZero(s, s / 0x8000);
    OddProduct(XorWord(s, s / 0x8000), Or(s, 1));
    Round2Zero(Round1(s));
    ShiftZero(Round2(Round1(s)), Round2(Round1(s)) / 0x4000);
  }

  lemma ShiftedIn(a: nat, b: nat)
    requires a == 32768 && b == 1
    ensures Xor(a, b) == 32769
  {
    XorWithZero(16384);
    XorStep(32768, 1, 32769);
  }

  lemma MadeOdd(a: nat, b: nat)
    requires a == 32768 && b == 1
    ensures Or(a, b) == 32769
  {
    OrWithZero(16384);
    OrStep(32768, 1, 32769);
  }

  lemma Round1Is(s: Word, x: nat, y: nat)
    requires Xor(s, s / 0x8000) == x && Or(s, 1) == y
    ensures Round1(s) == Wrap(x * y)
  {
  }

  /** The first round shifts by fifteen bits. */
  lemma Round1Known(s: Word)
    requires s == 0x8000
    ensures Round1(s) == 0x40010001
  {
    var x, y := Xor(s, s / 0x8000), Or(s, 1);
    assert x == 0x8001 by { ShiftedIn(s, s / 0x8000); }
    assert y == 0x8001 by { MadeOdd(s, 1); }
    Round1Is(s, x, y);
    SquareIs(x);
  }

  lemma SquareIs(x: nat)
    requires x == 0x8001
    ensures Wrap(x * x) == 0x40010001
  {
  }

  lemma Sixteen(a: nat, b: nat)
    requires a == 16 && b == 1
    ensures Or(a, b) == 17
  {
    OrWithZero(8);
    OrStep(16, 1, 17);
  }

  lemma Mixed(a: nat, b: nat)
    requires a == 272 && b == 2
    ensures Xor(a, b) == 274
  {
    XorWithZero(68);
    XorStep(136, 1, 137);
    XorStep(272, 2, 274);
  }

  lemma Masked(a: nat, b: nat)
    requires a == 272 && b == 61
    ensures Or(a, b) == 317
  {
    OrWithZero(4);
    OrStep(8, 1, 9);
    OrStep(17, 3, 19);
    OrStep(34, 7, 39);
    OrStep(68, 15, 79);
    OrStep(136, 30, 158);
    OrStep(272, 61, 317);
  }

  lemma Blended(a: nat, b: nat)
    requires a == 87130 && b == 272
    ensures Xor(a, b) == 87370
  {
    XorWithZero(170);
    XorStep(340, 1, 341);
    XorStep(680, 2, 682);
    XorStep(1361, 4, 1365);
    XorStep(2722, 8, 2730);
    XorStep(5445, 17, 5460);
    XorStep(10891, 34, 10921);
    XorStep(21782, 68, 21842);
    XorStep(43565, 136, 43685);
    XorStep(87130, 272, 87370);
  }

  lemma Folded(a: nat, b: nat)
    requires a == 87370 && b == 5
    ensures Xor(a, b) == 87375
  {
    XorWithZero(10921);
    XorStep(21842, 1, 21843);
    XorStep(43685, 2, 43687);
    XorStep(87370, 5, 87375);
  }

  lemma Round2Is(s: Word, x: Word, y: nat)
    requires XorWord(s, s / 0x80) == x && Or(s, 61) == y
    ensures Round2(s) == Blend(s, x, y)
  {
  }

  lemma BlendsTo(s: Word, x: Word, y: nat, z: Word)
    requires Wrap(s + Wrap(x * y)) == z
    ensures Blend(s, x, y) == Xor(s, z)
  {
  }

  lemma BlendIs(s: nat, x: nat, y: nat)
    requires s == 272 && x == 274 && y == 317
    ensures Wrap(s + Wrap(x * y)) == 87130
  {
  }

  lemma Round2Known(s: Word)
    requires s == 272
    ensures Round2(s) == 87370
  {
    var x, y := XorWord(s, s / 0x80), Or(s, 61);
    assert x == 274 by { Mixed(s, s / 0x80); }
    assert y == 317 by { Masked(s, 61); }
    var z := Wrap(s + Wrap(x * y));
    assert z == 87130 by { BlendIs(s, x, y); }
    assert Xor(s, z) == 87370 by {
      Blended(z, s);
      XorCommutes(s, z);
    }
    Round2Is(s, x, y);
    BlendsTo(s, x, y, z);
  }

  lemma ScrambleIs(s: Word, t: Word, r: nat)
    requires Round2(Round1(s)) == t && Xor(t, t / 0x4000) == r
    ensures Scramble(s) == r
  {
  }

  /** The second round and the end shift by seven and by fourteen. */
  lemma ScrambleKnown(s: Word)
    requires s == 16
    ensures Scramble(s) == 87375
  {
    XorWithZero(s);
    Sixteen(s, 1);
    Round1Is(s, 16, 17);
    Round2Known(Round1(s));
    var t: Word := 87370;
    Folded(t, t / 0x4000);
    ScrambleIs(s, t, 87375);
  }

  // ---------------------------------------------------------------- the unit sample

  const INCREMENT := 0x6d2b79f5
  const INCREMENT_INVERSE := 3696798301

  function Fraction(w: Word): (r: real)
    ensures 0.0 <= r < 1.0
    ensures r == 0.0 <==> w == 0
  {
    (w as real) / 4294967296.0
  }

  /** A state is a step of the published increment past the seed, and a sample twice the fraction less one. */
  lemma SampleKnown(seed: Word, r: nat)
    requires Scramble((seed + 0x6d2b79f5) % 0x1_0000_0000) == r
    ensures MulberryUnit(seed) == 2.0 * r as real / 4294967296.0 - 1.0
  {
  }

  function MulberryUnit(seed: Word): real {
    Fraction(Scramble(Wrap(seed + INCREMENT))) * 2.0 - 1.0
  }

  /** The sample lies in [-1, 1), and is -1 for exactly one seed (the comment claims the open interval). */
  lemma UnitRange(seed: Word)
    ensures -1.0 <= MulberryUnit(seed) < 1.0
    ensures MulberryUnit(seed) == -1.0 <==> seed == 0x1_0000_0000 - INCREMENT
  {
    var s := Wrap(seed + INCREMENT);
    ScrambleZero(s);
    UnitOf(Scramble(s));
    SumIsZero(seed);
  }

  lemma UnitOf(w: Word)
    ensures -1.0 <= Fraction(w) * 2.0 - 1.0 < 1.0
    ensures Fraction(w) * 2.0 - 1.0 == -1.0 <==> w == 0
  {
  }

  lemma SumIsZero(seed: Word)
    ensures Wrap(seed + INCREMENT) == 0 <==> seed == 0x1_0000_0000 - INCREMENT
  {
  }

  /** The vector before normalisation. */
  method RawVector(text: seq<CodeUnit>, dim: nat) returns (out: array<real>)
    ensures fresh(out) && out.Length == dim
    ensures forall i | 0 <= i < dim :: out[i] == MulberryUnit(Seed(Fnv(text), i)) && -1.0 <= out[i] < 1.0
  {
    out := new real[dim];
    var base := Fnv1a(text);
    for i := 0 to dim
      invariant forall k | 0 <= k < i :: out[k] == MulberryUnit(Seed(base, k)) && -1.0 <= out[k] < 1.0
    {
      UnitRange(Seed(base, i));
      out[i] := MulberryUnit(Seed(base, i));
    }
  }

  // ---------------------------------------------------------------- the generator

  /** The state after `n` calls. */
  function State(seed: Word, n: nat): Word {
    Wrap(seed + n * INCREMENT)
  }

  class Mulberry32 {
    var state: Word

    constructor (seed: nat)
      ensures state == Wrap(seed)
    {
      state := Wrap(seed);
    }

    method Next() returns (r: real)
      modifies this
      ensures state == Wrap(old(state) + INCREMENT)
      ensures r == Fraction(Scramble(state)) && 0.0 <= r < 1.0
    {
      state := Wrap(state + INCREMENT);
      var t := state;
      t := Round1(t);
      t := Round2(t);
      r := Fraction(XorWord(t, t / 0x4000));
    }

    /** Any number of calls. */
    method Draw(n: nat) returns (rs: seq<real>)
      modifies this
      ensures state == State(old(state), n) && |rs| == n
      ensures forall k | 0 <= k < n :: rs[k] == Fraction(Scramble(State(old(state), k + 1))) && 0.0 <= rs[k] < 1.0
    {
      rs := [];
      for i := 0 to n
        invariant state == State(old(state), i) && |rs| == i
        invariant forall k | 0 <= k < i :: rs[k] == Fraction(Scramble(State(old(state), k + 1))) && 0.0 <= rs[k] < 1.0
      {
        StateNext(old(state), i);
        var r := Next();
        rs := rs + [r];
      }
    }
  }

  lemma StateNext(seed: Word, n: nat)
    ensures State(seed, n + 1) == Wrap(State(seed, n) + INCREMENT)
  {
    assert (n + 1) * INCREMENT == n * INCREMENT + INCREMENT;
    WrapPlus(seed + n * INCREMENT, INCREMENT);
  }

  /** Full period: the state after `n` calls recurs after `m` exactly when they are equal modulo 2^32. */
  lemma FullPeriod(seed: Word, n: nat, m: nat)
    ensures State(seed, n) == State(seed, m) <==> Wrap(n) == Wrap(m)
  {
    TimesCancels(n, m, INCREMENT, INCREMENT_INVERSE, 1576479847);
    WrapOffset(seed, n * INCREMENT, m * INCREMENT);
  }

  lemma WrapOffset(s: Word, a: nat, b: nat)
    ensures Wrap(s + a) == Wrap(s + b) <==> Wrap(a) == Wrap(b)
  {
  }

  /** Every word is the state at some call below 2^32. */
  lemma EveryStateVisited(seed: Word, w: Word) returns (n: Word)
    ensures State(seed, n) == w
  {
    var d := Wrap(w + (0x1_0000_0000 - seed));
    n := Wrap(d * INCREMENT_INVERSE);
    TimesInverse(d, INCREMENT_INVERSE, INCREMENT, 1576479847);
    assert Wrap(n * INCREMENT) == d;
    WrapOffset(seed, n * INCREMENT, d);
    assert Wrap(seed + d) == w;
  }
}
