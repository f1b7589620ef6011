// The synthetic VIO node: stream seeds, delayed delivery and the angle wrap.

/** The 64-bit arithmetic of fnv1a and stream_seed; uint64_t is an integer modulo 2^64, names are their bytes. */
module StreamSeeds {
  import opened PxxCan

  const TWO_64 := 0x1_0000_0000_0000_0000

  type Word64 = x: int | 0 <= x < 0x1_0000_0000_0000_0000

  const FNV_OFFSET: Word64 := 14695981039346656037
  const FNV_PRIME := 1099511628211
  const GOLDEN: Word64 := 0x9e3779b97f4a7c15
  const MIX1: Word64 := 0xbf58476d1ce4e5b9
  const MIX2: Word64 := 0x94d049bb133111eb
  const UNMIX1: Word64 := 0x96de1b173f119089
  const UNMIX2: Word64 := 0x319642b2d24d8ec3

  const WHITE_NOISE: seq<bv8> := [0x77, 0x68, 0x69, 0x74, 0x65, 0x5f, 0x6e, 0x6f, 0x69, 0x73, 0x65]   // "white_noise"
  const DRIFT: seq<bv8> := [0x64, 0x72, 0x69, 0x66, 0x74]   // "drift"
  const FAULTS: seq<bv8> := [0x66, 0x61, 0x75, 0x6c, 0x74, 0x73]   // "faults"
  const PROFILE: seq<bv8> := [0x70, 0x72, 0x6f, 0x66, 0x69, 0x6c, 0x65]   // "profile"

  // Exclusive or and shifts ----------------------------------------------------------------------------------

  function Xor(a: nat, b: nat): nat
    decreases a + b
  {
    if a == 0 && b == 0 then 0 else (a + b) % 2 + 2 * Xor(a / 2, b / 2)
  }

  function Pow2(k: nat): (p: nat)
    ensures p > 0
  {
    if k == 0 then 1 else 2 * Pow2(k - 1)
  }

  /** x >> k */
  function Shift(x: nat, k: nat): nat {
    if k == 0 then x else Shift(x / 2, k - 1)
  }

  lemma DoubleTimes(p: nat, q: nat)
    ensures (2 * p) * q == 2 * (p * q)
  {
  }

  lemma DivideTwice(x: nat, p: nat)
    requires p > 0
    ensures x / (2 * p) == x / 2 / p
  {
    var h := x / 2;
    var q, r := h / p, h % p;
    assert h == p * q + r;
    DoubleTimes(p, q);
    DivisionIsUnique(x, 2 * p, q, 2 * r + x % 2);
  }

  /** Shifting by k divides by 2^k. */
  lemma {:induction false} ShiftDivides(x: nat, k: nat)
    ensures Shift(x, k) == x / Pow2(k)
  {
    if k > 0 {
      ShiftDivides(x / 2, k - 1);
      DivideTwice(x, Pow2(k - 1));
    }
  }

  lemma XorIs(a: nat, b: nat)
    ensures Xor(a, b) == (a + b) % 2 + 2 * Xor(a / 2, b / 2)
  {
  }

  lemma Halves(x: nat, bit: nat, q: nat)
    requires x == bit + 2 * q && bit < 2
    ensures x % 2 == bit && x / 2 == q
  {
  }

  lemma XorBits(a: nat, b: nat)
    ensures Xor(a, b) % 2 == (a + b) % 2 && Xor(a, b) / 2 == Xor(a / 2, b / 2)
  {
    hide Xor;
    XorIs(a, b);
    Halves(Xor(a, b), (a + b) % 2, Xor(a / 2, b / 2));
  }

  lemma {:induction false} XorSelf(a: nat)
    ensures Xor(a, a) == 0
  {
    hide Xor;
    XorIs(a, a);
    if a != 0 { XorSelf(a / 2); } else { XorNone(); }
  }

  lemma XorNone()
    ensures Xor(0, 0) == 0
  {
  }

  lemma {:induction false} XorZero(a: nat)
    ensures Xor(a, 0) == a
  {
    hide Xor;
    XorIs(a, 0);
    if a != 0 { XorZero(a / 2); } else { XorNone(); }
  }

  lemma {:induction false} XorComm(a: nat, b: nat)
    ensures Xor(a, b) == Xor(b, a)
    decreases a + b
  {
    hide Xor;
    XorIs(a, b);
    XorIs(b, a);
    if a != 0 || b != 0 { XorComm(a / 2, b / 2); }
  }

  lemma Parity(p: nat, q: nat, a: nat, b: nat, c: nat)
    requires p % 2 == (a + b) % 2 && q % 2 == (b + c) % 2
    ensures (p + c) % 2 == (a + q) % 2
  {
  }

  lemma SameBits(x: nat, y: nat)
    requires x % 2 == y % 2 && x / 2 == y / 2
    ensures x == y
  {
  }

  lemma {:induction false} XorAssoc(a: nat, b: nat, c: nat)
    ensures Xor(Xor(a, b), c) == Xor(a, Xor(b, c))
    decreases a + b + c
  {
    hide Xor;
    if a == 0 && b == 0 && c == 0 {
      XorNone();
    } else {
      XorAssoc(a / 2, b / 2, c / 2);
      XorBits(a, b);
      XorBits(b, c);
      XorBits(Xor(a, b), c);
      XorBits(a, Xor(b, c));
      Parity(Xor(a, b), Xor(b, c), a, b, c);
      SameBits(Xor(Xor(a, b), c), Xor(a, Xor(b, c)));
    }
  }

  /** What is xored twice is gone. */
  lemma XorCancels(a: nat, k: nat)
    ensures Xor(Xor(a, k), k) == a
  {
    hide Xor;
    XorAssoc(a, k, k);
    XorSelf(k);
    XorZero(a);
  }

  lemma {:induction false} XorBound(a: nat, b: nat, n: nat)
    requires a < Pow2(n) && b < Pow2(n)
    ensures Xor(a, b) < Pow2(n)
  {
    hide Xor;
    XorIs(a, b);
    if n > 0 { XorBound(a / 2, b / 2, n - 1); } else { XorNone(); }
  }

  lemma {:induction false} ShiftXor(a: nat, b: nat, k: nat)
    ensures Shift(Xor(a, b), k) == Xor(Shift(a, k), Shift(b, k))
  {
    hide Xor;
    if k > 0 {
      XorBits(a, b);
      ShiftXor(a / 2, b / 2, k - 1);
    }
  }

  lemma {:induction false} ShiftShift(a: nat, j: nat, k: nat)
    ensures Shift(Shift(a, j), k) == Shift(a, j + k)
  {
    if j > 0 { ShiftShift(a / 2, j - 1, k); }
  }

  lemma {:induction false} ShiftShrinks(x: nat, k: nat)
    ensures Shift(x, k) <= x
  {
    if k > 0 { ShiftShrinks(x / 2, k - 1); }
  }

  lemma {:induction false} ShiftedOut(x: nat, n: nat, k: nat)
    requires x < Pow2(n) && n <= k
    ensures Shift(x, k) == 0
  {
    if n > 0 { ShiftedOut(x / 2, n - 1, k - 1); } else { ShiftShrinks(x, k); }
  }

  lemma PowBy8(k: nat)
    ensures Pow2(k + 8) == 256 * Pow2(k)
  {
    assert Pow2(k + 2) == 4 * Pow2(k);
    assert Pow2(k + 4) == 4 * Pow2(k + 2);
    assert Pow2(k + 6) == 4 * Pow2(k + 4);
    assert Pow2(k + 8) == 4 * Pow2(k + 6);
  }

  lemma Pow64()
    ensures Pow2(64) == TWO_64
  {
    hide Pow2;
    Pow0();
    PowBy8(0);
    PowBy8(8);
    PowBy8(16);
    PowBy8(24);
    PowBy8(32);
    PowBy8(40);
    PowBy8(48);
    PowBy8(56);
  }

  lemma Pow0()
    ensures Pow2(0) == 1
  {
  }

  function XorWord(a: Word64, b: Word64): Word64 {
    Pow64();
    XorBound(a, b, 64);
    Xor(a, b)
  }

  function ShiftWord(x: Word64, k: nat): Word64 {
    ShiftShrinks(x, k);
    Shift(x, k)
  }

  /** value ^ (value >> k) */
  function XorWithShift(x: Word64, k: nat): Word64 {
    XorWord(x, ShiftWord(x, k))
  }

  function UndoXorWithShift(y: Word64, k: nat): Word64 {
    XorWord(XorWord(y, ShiftWord(y, k)), ShiftWord(y, 2 * k))
  }

  /** Folding by k >= 22 bits is undone by folding with two terms. */
  lemma FoldInverts(x: Word64, k: nat)
    requires 3 * k >= 64
    ensures UndoXorWithShift(XorWithShift(x, k), k) == x
  {
    hide Xor, Shift, Pow2;
    var s, t := Shift(x, k), Shift(x, 2 * k);
    var y := XorWithShift(x, k);
    ShiftXor(x, s, k);
    ShiftXor(x, s, 2 * k);
    ShiftShift(x, k, k);
    ShiftShift(x, k, 2 * k);
    Pow64();
    ShiftedOut(x, 64, 3 * k);
    XorZero(t);
    assert Shift(y, k) == Xor(s, t) && Shift(y, 2 * k) == t;
    XorAssoc(y, Xor(s, t), t);
    XorCancels(s, t);
    XorCancels(x, s);
  }

  lemma UnfoldInverts(y: Word64, k: nat)
    requires 3 * k >= 64
    ensures XorWithShift(UndoXorWithShift(y, k), k) == y
  {
    hide Xor, Shift, Pow2;
    var s, t := Shift(y, k), Shift(y, 2 * k);
    var x := UndoXorWithShift(y, k);
    ShiftXor(Xor(y, s), t, k);
    ShiftXor(y, s, k);
    ShiftShift(y, k, k);
    ShiftShift(y, 2 * k, k);
    Pow64();
    ShiftedOut(y, 64, 3 * k);
    XorZero(Xor(s, t));
    assert Shift(x, k) == Xor(s, t);
    XorAssoc(y, s, t);
    XorCancels(y, Xor(s, t));
  }

  // Multiplication modulo 2^64 -------------------------------------------------------------------------------

  function Times(x: Word64, c: Word64): Word64 {
    x * c % TWO_64
  }

  /** Multiplying by d undoes multiplying by c if c times d is one modulo 2^64. */
  lemma TimesInverts(x: Word64, c: Word64, d: Word64, e: nat)
    requires c * d == 1 + e * TWO_64
    ensures Times(Times(x, c), d) == x
  {
    var q, r := x * c / TWO_64, x * c % TWO_64;
    var k := x * e - q * d;
    Associate(x, c, d);
    Associate(TWO_64, q, d);
    Distribute(TWO_64 * q, r, d);
    Distribute(e * TWO_64, 1, x);
    Associate(TWO_64, e, x);
    assert x * c == TWO_64 * q + r;
    assert (e * TWO_64 + 1) * x == x * (c * d);
    assert e * x == x * e;
    RemainderOf(r * d, x, k);
  }

  lemma Associate(a: int, b: int, c: int)
    ensures a * b * c == a * (b * c)
  {
  }

  lemma Distribute(a: int, b: int, c: int)
    ensures (a + b) * c == a * c + b * c
  {
  }

  lemma RemainderOf(n: nat, x: Word64, k: int)
    requires n == x + k * TWO_64
    ensures n % TWO_64 == x
  {
  }

  lemma MultipliersInvert(x: Word64)
    ensures Times(Times(x, MIX1), UNMIX1) == x && Times(Times(x, UNMIX1), MIX1) == x
    ensures Times(Times(x, MIX2), UNMIX2) == x && Times(Times(x, UNMIX2), MIX2) == x
  {
    hide Times;
    TimesInverts(x, MIX1, UNMIX1, MIX1 * UNMIX1 / TWO_64);
    TimesInverts(x, UNMIX1, MIX1, MIX1 * UNMIX1 / TWO_64);
    TimesInverts(x, MIX2, UNMIX2, MIX2 * UNMIX2 / TWO_64);
    TimesInverts(x, UNMIX2, MIX2, MIX2 * UNMIX2 / TWO_64);
  }

  // The mixer ------------------------------------------------------------------------------------------------

  function Mix(value: Word64): Word64 {
    XorWithShift(Times(XorWithShift(Times(XorWithShift(value, 30), MIX1), 27), MIX2), 31)
  }

  function Unmix(value: Word64): Word64 {
    UndoXorWithShift(Times(UndoXorWithShift(Times(UndoXorWithShift(value, 31), UNMIX2), 27), UNMIX1), 30)
  }

  lemma MixIsInvertible(x: Word64)
    ensures Unmix(Mix(x)) == x && Mix(Unmix(x)) == x
  {
    hide XorWithShift, UndoXorWithShift, Times;
    var a := XorWithShift(x, 30);
    var b := XorWithShift(Times(a, MIX1), 27);
    FoldInverts(x, 30);
    MultipliersInvert(a);
    FoldInverts(Times(a, MIX1), 27);
    MultipliersInvert(b);
    FoldInverts(Times(b, MIX2), 31);
    var c := UndoXorWithShift(x, 31);
    var d := UndoXorWithShift(Times(c, UNMIX2), 27);
    UnfoldInverts(x, 31);
    MultipliersInvert(c);
    UnfoldInverts(Times(c, UNMIX2), 27);
    MultipliersInvert(d);
    UnfoldInverts(Times(d, UNMIX1), 30);
  }

  // Names ----------------------------------------------------------------------------------------------------

  function FnvStep(value: Word64, c: bv8): Word64 {
    XorWord(value, Value(c)) * FNV_PRIME % TWO_64
  }

  function Fnv(text: seq<bv8>): Word64 {
    if text == [] then FNV_OFFSET else FnvStep(Fnv(text[..|text| - 1]), text[|text| - 1])
  }

  method Fnv1a(text: seq<bv8>) returns (value: Word64)
    ensures value == Fnv(text)
  {
    hide XorWord;
    value := FNV_OFFSET;
    for i := 0 to |text|
      invariant value == Fnv(text[..i])
    {
      assert text[..i + 1][..i] == text[..i];
      value := XorWord(value, Value(text[i]));
      value := value * FNV_PRIME % TWO_64;
    }
    assert text[..|text|] == text;
  }

  /** What initialize_random_streams seeds a generator with. */
  function StreamSeed(seed: Word64, name: seq<bv8>): Word64 {
    Mix(XorWord(seed, (Fnv(name) + GOLDEN) % TWO_64))
  }

  /** The inverse of StreamSeed for one name. */
  function RunSeedOf(stream: Word64, name: seq<bv8>): Word64 {
    XorWord(Unmix(stream), (Fnv(name) + GOLDEN) % TWO_64)
  }

  /** For every name, stream_seed is a permutation of the 64-bit values. */
  lemma StreamSeedIsAPermutation(seed: Word64, stream: Word64, name: seq<bv8>)
    ensures RunSeedOf(StreamSeed(seed, name), name) == seed
    ensures StreamSeed(RunSeedOf(stream, name), name) == stream
  {
    hide Mix, Unmix, Fnv, Xor;
    var k := (Fnv(name) + GOLDEN) % TWO_64;
    MixIsInvertible(XorWord(seed, k));
    MixIsInvertible(stream);
    XorCancels(seed, k);
    XorCancels(Unmix(stream), k);
  }

  /** For a fixed run seed two names share a stream exactly when their FNV-1a hashes collide. */
  lemma StreamsCollideLikeHashes(seed: Word64, name: seq<bv8>, name': seq<bv8>)
    ensures StreamSeed(seed, name) == StreamSeed(seed, name') <==> Fnv(name) == Fnv(name')
  {
    hide Mix, Unmix, Fnv, Xor;
    var k, k' := (Fnv(name) + GOLDEN) % TWO_64, (Fnv(name') + GOLDEN) % TWO_64;
    MixIsInvertible(XorWord(seed, k));
    MixIsInvertible(XorWord(seed, k'));
    XorComm(seed, k);
    XorComm(seed, k');
    XorCancels(k, seed);
    XorCancels(k', seed);
  }

  lemma NoBytes()
    ensures forall text: seq<bv8> {:trigger text[..0]} :: Fnv(text[..0]) == FNV_OFFSET
  {
  }

  function Up(h: nat, n: nat): nat {
    if n == 0 then h else 2 * Up(h, n - 1)
  }

  lemma HalfBelow(a: nat, n: nat)
    requires n > 0 && a < Pow2(n)
    ensures a / 2 < Pow2(n - 1)
  {
  }

  lemma XorUps(h: nat, g: nat, a: nat, b: nat)
    requires Xor(h + a / 2, g + b / 2) == Xor(h, g) + Xor(a / 2, b / 2)
    ensures Xor(2 * h + a, 2 * g + b) == 2 * Xor(h, g) + Xor(a, b)
  {
    hide Xor;
    XorIs(2 * h + a, 2 * g + b);
    XorIs(a, b);
    assert (2 * h + a) / 2 == h + a / 2 && (2 * g + b) / 2 == g + b / 2;
    assert (2 * h + a + (2 * g + b)) % 2 == (a + b) % 2;
  }

  /** High and low parts of two words are xored separately. */
  lemma {:induction false} XorParts(h: nat, g: nat, a: nat, b: nat, n: nat)
    requires a < Pow2(n) && b < Pow2(n)
    ensures Xor(Up(h, n) + a, Up(g, n) + b) == Up(Xor(h, g), n) + Xor(a, b)
  {
    hide Xor, Pow2;
    if n == 0 {
      Pow0();
      XorNone();
    } else {
      HalfBelow(a, n);
      HalfBelow(b, n);
      XorParts(h, g, a / 2, b / 2, n - 1);
      XorUp(h, g, n - 1);
      XorUps(Up(h, n - 1), Up(g, n - 1), a, b);
    }
  }

  lemma {:induction false} XorUp(h: nat, g: nat, n: nat)
    ensures Xor(Up(h, n), Up(g, n)) == Up(Xor(h, g), n)
  {
    hide Xor;
    if n > 0 {
      XorUp(h, g, n - 1);
      XorIs(Up(h, n), Up(g, n));
    }
  }

  lemma UpBy8(h: nat)
    ensures Up(h, 8) == 256 * h
  {
    assert Up(h, 2) == 2 * Up(h, 1);
    assert Up(h, 4) == 2 * Up(h, 3);
    assert Up(h, 6) == 2 * Up(h, 5);
  }

  /** A byte only reaches the low byte of the word. */
  lemma XorByte(value: nat, c: Byte)
    ensures Xor(value, c) == value - value % 256 + Xor(value % 256, c)
  {
    hide Xor;
    var h := value / 256;
    PowBy8(0);
    Pow0();
    UpBy8(h);
    UpBy8(0);
    XorZero(h);
    XorParts(h, 0, value % 256, c, 8);
  }

  function Value(x: bv8): Byte {
    x as int
  }

  lemma ByteHalves(x: bv8)
    ensures Value(x) / 2 == Value(x >> 1) && Value(x) % 2 == Value(x & 1)
  {
  }

  lemma ByteBits(x: bv8, y: bv8)
    ensures Value((x ^ y) & 1) == (Value(x & 1) + Value(y & 1)) % 2
    ensures (x ^ y) >> 1 == (x >> 1) ^ (y >> 1)
  {
  }

  lemma SumParity(a: nat, b: nat)
    ensures (a + b) % 2 == (a % 2 + b % 2) % 2
  {
  }

  lemma ByteXorHalves(x: bv8, y: bv8)
    ensures Value(x ^ y) / 2 == Value((x >> 1) ^ (y >> 1))
    ensures Value(x ^ y) % 2 == (Value(x) + Value(y)) % 2
  {
    hide Value;
    ByteHalves(x);
    ByteHalves(y);
    ByteHalves(x ^ y);
    ByteBits(x, y);
    SumParity(Value(x), Value(y));
  }

  /** On bytes, Xor is the machine's exclusive or. */
  lemma {:induction false} BytesXor(x: bv8, y: bv8)
    ensures Xor(Value(x), Value(y)) == Value(x ^ y)
    decreases Value(x) + Value(y)
  {
    hide Xor, Value;
    if Value(x) == 0 && Value(y) == 0 {
      XorNone();
      NoBits(x, y);
    } else {
      ByteHalves(x);
      ByteHalves(y);
      ByteXorHalves(x, y);
      BytesXor(x >> 1, y >> 1);
      LowestBit(Value(x), Value(y), Value(x ^ y));
    }
  }

  lemma LowestBit(a: nat, b: nat, z: nat)
    requires z % 2 == (a + b) % 2 && Xor(a / 2, b / 2) == z / 2
    ensures Xor(a, b) == z
  {
    hide Xor;
    XorIs(a, b);
  }

  lemma NoBits(x: bv8, y: bv8)
    requires Value(x) == 0 && Value(y) == 0
    ensures Value(x ^ y) == 0
  {
  }

  /** One character: the low byte of the hash is xored, then the whole is multiplied. */
  lemma HashStep(text: seq<bv8>, k: nat, value: Word64, low: bv8, c: bv8, mixed: nat, next: Word64)
    requires k < |text| && Fnv(text[..k]) == value && text[k] == c && value % 256 == Value(low)
    requires Value(low ^ c) == mixed
    requires (value - Value(low) + mixed) * FNV_PRIME % TWO_64 == next
    ensures Fnv(text[..k + 1]) == next
  {
    hide Xor, Value;
    assert text[..k + 1][..k] == text[..k];
    XorByte(value, Value(c));
    BytesXor(low, c);
  }

  lemma WhiteNoiseHash4()
    ensures Fnv(WHITE_NOISE[..4]) == 0x9bcdd5f64f101687
  {
    hide Fnv;
    NoBytes();
    HashStep(WHITE_NOISE, 0, 0xcbf29ce484222325, 0x25, 0x77, 0x52, 0xaf63ea4c86020456);
    HashStep(WHITE_NOISE, 1, 0xaf63ea4c86020456, 0x56, 0x68, 0x3e, 0x08cb5e07b56d355a);
    HashStep(WHITE_NOISE, 2, 0x08cb5e07b56d355a, 0x5a, 0x69, 0x33, 0x5ec5fa19489165a9);
    HashStep(WHITE_NOISE, 3, 0x5ec5fa19489165a9, 0xa9, 0x74, 0xdd, 0x9bcdd5f64f101687);
  }

  lemma WhiteNoiseHash8()
    ensures Fnv(WHITE_NOISE[..8]) == 0x412435a8d936d500
  {
    hide Fnv;
    WhiteNoiseHash4();
    HashStep(WHITE_NOISE, 4, 0x9bcdd5f64f101687, 0x87, 0x65, 0xe2, 0xced973885856e206);
    HashStep(WHITE_NOISE, 5, 0xced973885856e206, 0x06, 0x5f, 0x59, 0xd261a9ae1ba29d3b);
    HashStep(WHITE_NOISE, 6, 0xd261a9ae1ba29d3b, 0x3b, 0x6e, 0x55, 0x1e90a7d8f551576f);
    HashStep(WHITE_NOISE, 7, 0x1e90a7d8f551576f, 0x6f, 0x6f, 0x00, 0x412435a8d936d500);
  }

  lemma WhiteNoiseHash()
    ensures Fnv(WHITE_NOISE) == 0x00ee811db42de6f7
  {
    hide Fnv;
    WhiteNoiseHash8();
    HashStep(WHITE_NOISE, 8, 0x412435a8d936d500, 0x00, 0x69, 0x69, 0xe75c96e9182ca16b);
    HashStep(WHITE_NOISE, 9, 0xe75c96e9182ca16b, 0x6b, 0x73, 0x18, 0x4ef5861413d5bbc8);
    HashStep(WHITE_NOISE, 10, 0x4ef5861413d5bbc8, 0xc8, 0x65, 0xad, 0x00ee811db42de6f7);
    assert WHITE_NOISE[..11] == WHITE_NOISE;
  }

  lemma DriftHash4()
    ensures Fnv(DRIFT[..4]) == 0xf19ba566dccf3998
  {
    hide Fnv;
    NoBytes();
    HashStep(DRIFT, 0, 0xcbf29ce484222325, 0x25, 0x64, 0x41, 0xaf63d94c8601e773);
    HashStep(DRIFT, 1, 0xaf63d94c8601e773, 0x73, 0x72, 0x01, 0x08913e07b53b86b3);
    HashStep(DRIFT, 2, 0x08913e07b53b86b3, 0xb3, 0x69, 0xda, 0xca534118f426246e);
    HashStep(DRIFT, 3, 0xca534118f426246e, 0x6e, 0x66, 0x08, 0xf19ba566dccf3998);
  }

  lemma DriftHash()
    ensures Fnv(DRIFT) == 0x5ab3f9c9341f6c04
  {
    hide Fnv;
    DriftHash4();
    HashStep(DRIFT, 4, 0xf19ba566dccf3998, 0x98, 0x74, 0xec, 0x5ab3f9c9341f6c04);
    assert DRIFT[..5] == DRIFT;
  }

  lemma FaultsHash4()
    ensures Fnv(FAULTS[..4]) == 0xef61467916cc0a51
  {
    hide Fnv;
    NoBytes();
    HashStep(FAULTS, 0, 0xcbf29ce484222325, 0x25, 0x66, 0x43, 0xaf63db4c8601ead9);
    HashStep(FAULTS, 1, 0xaf63db4c8601ead9, 0xd9, 0x61, 0xb8, 0x08985b07b541d6a8);
    HashStep(FAULTS, 2, 0x08985b07b541d6a8, 0xa8, 0x75, 0xdd, 0xdcb98b18fee01987);
    HashStep(FAULTS, 3, 0xdcb98b18fee01987, 0x87, 0x6c, 0xeb, 0xef61467916cc0a51);
  }

  lemma FaultsHash()
    ensures Fnv(FAULTS) == 0x8f7d6133a7f61844
  {
    hide Fnv;
    FaultsHash4();
    HashStep(FAULTS, 4, 0xef61467916cc0a51, 0x51, 0x74, 0x25, 0x8e54e4c1bcb53cdf);
    HashStep(FAULTS, 5, 0x8e54e4c1bcb53cdf, 0xdf, 0x73, 0xac, 0x8f7d6133a7f61844);
    assert FAULTS[..6] == FAULTS;
  }

  lemma ProfileHash4()
    ensures Fnv(PROFILE[..4]) == 0x85729e0e3537c17a
  {
    hide Fnv;
    NoBytes();
    HashStep(PROFILE, 0, 0xcbf29ce484222325, 0x25, 0x70, 0x55, 0xaf63ed4c8602096f);
    HashStep(PROFILE, 1, 0xaf63ed4c8602096f, 0x6f, 0x72, 0x1d, 0x08d55607b5757c47);
    HashStep(PROFILE, 2, 0x08d55607b5757c47, 0x47, 0x6f, 0x28, 0x77fd571956a1f7f8);
    HashStep(PROFILE, 3, 0x77fd571956a1f7f8, 0xf8, 0x66, 0x9e, 0x85729e0e3537c17a);
  }

  lemma ProfileHash()
    ensures Fnv(PROFILE) == 0x8add349e618ba10e
  {
    hide Fnv;
    ProfileHash4();
    HashStep(PROFILE, 4, 0x85729e0e3537c17a, 0x7a, 0x69, 0x13, 0xf983a5246dbd1349);
    HashStep(PROFILE, 5, 0xf983a5246dbd1349, 0x49, 0x6c, 0x25, 0xb7c4c1e6784787df);
    HashStep(PROFILE, 6, 0xb7c4c1e6784787df, 0xdf, 0x65, 0xba, 0x8add349e618ba10e);
    assert PROFILE[..7] == PROFILE;
  }

  // A known answer -----------------------------------------------------------------------------------------------

  /** One more byte at the low end. */
  lemma XorJoin(h: nat, g: nat, x: bv8, y: bv8)
    ensures Xor(256 * h + Value(x), 256 * g + Value(y)) == 256 * Xor(h, g) + Value(x ^ y)
  {
    hide Xor;
    PowBy8(0);
    Pow0();
    UpBy8(h);
    UpBy8(g);
    UpBy8(Xor(h, g));
    XorParts(h, g, Value(x), Value(y), 8);
    BytesXor(x, y);
  }

  lemma SmallPowers()
    ensures Pow2(3) == 8 && Pow2(6) == 64 && Pow2(7) == 128
  {
    assert Pow2(3) == 2 * Pow2(2) == 4 * Pow2(1) == 8 * Pow2(0);
    assert Pow2(6) == 2 * Pow2(5) == 4 * Pow2(4) == 8 * Pow2(3);
  }

  lemma Pow2Is30()
    ensures Pow2(30) == 0x40000000
  {
    hide Pow2;
    SmallPowers();
    PowBy8(6);
    PowBy8(14);
    PowBy8(22);
  }

  lemma Pow2Is27()
    ensures Pow2(27) == 0x8000000
  {
    hide Pow2;
    SmallPowers();
    PowBy8(3);
    PowBy8(11);
    PowBy8(19);
  }

  lemma Pow2Is31()
    ensures Pow2(31) == 0x80000000
  {
    hide Pow2;
    SmallPowers();
    PowBy8(7);
    PowBy8(15);
    PowBy8(23);
  }

  lemma FirstFold()
    ensures XorWithShift(0x9f25fad733786326, 30) == 0x9f25fad54fef887a
  {
    hide Xor, Shift;
    ShiftDivides(0x9f25fad733786326, 30);
    Pow2Is30();
    XorNone();
    XorJoin(0x0, 0x0, 0x9f, 0x00);
    XorJoin(0x9f, 0x0, 0x25, 0x00);
    XorJoin(0x9f25, 0x0, 0xfa, 0x00);
    XorJoin(0x9f25fa, 0x0, 0xd7, 0x02);
    XorJoin(0x9f25fad7, 0x2, 0x33, 0x7c);
    XorJoin(0x9f25fad733, 0x27c, 0x78, 0x97);
    XorJoin(0x9f25fad73378, 0x27c97, 0x63, 0xeb);
    XorJoin(0x9f25fad7337863, 0x27c97eb, 0x26, 0x5c);
  }

  lemma SecondFold()
    ensures XorWithShift(0x1e536adcedd6c22a, 27) == 0x1e536adf27bb99b7
  {
    hide Xor, Shift;
    ShiftDivides(0x1e536adcedd6c22a, 27);
    Pow2Is27();
    XorNone();
    XorJoin(0x0, 0x0, 0x1e, 0x00);
    XorJoin(0x1e, 0x0, 0x53, 0x00);
    XorJoin(0x1e53, 0x0, 0x6a, 0x00);
    XorJoin(0x1e536a, 0x0, 0xdc, 0x03);
    XorJoin(0x1e536adc, 0x3, 0xed, 0xca);
    XorJoin(0x1e536adced, 0x3ca, 0xd6, 0x6d);
    XorJoin(0x1e536adcedd6, 0x3ca6d, 0xc2, 0x5b);
    XorJoin(0x1e536adcedd6c2, 0x3ca6d5b, 0x2a, 0x9d);
  }

  lemma ThirdFold()
    ensures XorWithShift(0x9ae3eb7aef7241fd, 31) == 0x9ae3eb7bdab59708
  {
    hide Xor, Shift;
    ShiftDivides(0x9ae3eb7aef7241fd, 31);
    Pow2Is31();
    XorNone();
    XorJoin(0x0, 0x0, 0x9a, 0x00);
    XorJoin(0x9a, 0x0, 0xe3, 0x00);
    XorJoin(0x9ae3, 0x0, 0xeb, 0x00);
    XorJoin(0x9ae3eb, 0x0, 0x7a, 0x01);
    XorJoin(0x9ae3eb7a, 0x1, 0xef, 0x35);
    XorJoin(0x9ae3eb7aef, 0x135, 0x72, 0xc7);
    XorJoin(0x9ae3eb7aef72, 0x135c7, 0x41, 0xd6);
    XorJoin(0x9ae3eb7aef7241, 0x135c7d6, 0xfd, 0xf5);
  }

  /** Run seed 42 seeds the white noise with this number. */
  lemma WhiteNoiseSeed()
    ensures StreamSeed(42, WHITE_NOISE) == 0x9ae3eb7bdab59708
  {
    hide Xor, Fnv, XorWithShift;
    WhiteNoiseHash();
    XorComm(42, 0x9f25fad73378630c);
    XorByte(0x9f25fad73378630c, 42);
    BytesXor(0x0c, 42);
    assert XorWord(42, 0x9f25fad73378630c) == 0x9f25fad733786326;
    FirstFold();
    assert Times(0x9f25fad54fef887a, MIX1) == 0x1e536adcedd6c22a;
    SecondFold();
    assert Times(0x1e536adf27bb99b7, MIX2) == 0x9ae3eb7aef7241fd;
    ThirdFold();
  }

  /** White noise, drift, faults and profile draw from four different streams, whatever the run seed. */
  lemma FourStreams(seed: Word64)
    ensures var a, b := StreamSeed(seed, WHITE_NOISE), StreamSeed(seed, DRIFT);
            var c, d := StreamSeed(seed, FAULTS), StreamSeed(seed, PROFILE);
            a != b && a != c && a != d && b != c && b != d && c != d
  {
    hide StreamSeed, Fnv;
    WhiteNoiseHash();
    DriftHash();
    FaultsHash();
    ProfileHash();
    StreamsCollideLikeHashes(seed, WHITE_NOISE, DRIFT);
    StreamsCollideLikeHashes(seed, WHITE_NOISE, FAULTS);
    StreamsCollideLikeHashes(seed, WHITE_NOISE, PROFILE);
    StreamsCollideLikeHashes(seed, DRIFT, FAULTS);
    StreamsCollideLikeHashes(seed, DRIFT, PROFILE);
    StreamsCollideLikeHashes(seed, FAULTS, PROFILE);
  }
}

/** Clock bookkeeping and the queue of delayed measurements; noise and drift values are arbitrary. */
module DelayedDelivery {
  import opened Wrappers

  datatype Pending = Pending(release: int, stamp: int, message: nat)

  /** A message handed to the publisher, and the time it was handed over at. */
  datatype Delivery = Delivery(pending: Pending, at: int)

  const NANOSECONDS := 1_000_000_000.0

  /** The messages published at time t: those at the front that are due. */
  function DueNow(queue: seq<Pending>, t: int): seq<Pending> {
    if queue != [] && queue[0].release <= t then [queue[0]] + DueNow(queue[1..], t) else []
  }

  function NotYet(queue: seq<Pending>, t: int): seq<Pending> {
    if queue != [] && queue[0].release <= t then NotYet(queue[1..], t) else queue
  }

  function Messages(published: seq<Delivery>): (s: seq<Pending>)
    ensures |s| == |published| && forall i :: 0 <= i < |s| ==> s[i] == published[i].pending
  {
    seq(|published|, i requires 0 <= i < |published| => published[i].pending)
  }

  predicate Sorted(queue: seq<Pending>) {
    forall i, j :: 0 <= i < j < |queue| ==> queue[i].release <= queue[j].release
  }

  predicate NothingDue(queue: seq<Pending>, t: int) {
    forall i :: 0 <= i < |queue| ==> queue[i].release > t
  }

  lemma {:induction false} PublishingSplits(queue: seq<Pending>, t: int)
    ensures DueNow(queue, t) + NotYet(queue, t) == queue
    ensures forall i :: 0 <= i < |DueNow(queue, t)| ==> DueNow(queue, t)[i].release <= t
    ensures NotYet(queue, t) != [] ==> NotYet(queue, t)[0].release > t
  {
    if queue != [] && queue[0].release <= t { PublishingSplits(queue[1..], t); }
  }

  lemma SortedRest(queue: seq<Pending>, t: int)
    requires Sorted(queue)
    ensures NothingDue(NotYet(queue, t), t)
  {
    PublishingSplits(queue, t);
    var front, rest := DueNow(queue, t), NotYet(queue, t);
    forall i | 0 <= i < |rest| ensures rest[i].release > t {
      assert rest[i] == queue[|front| + i] && rest[0] == queue[|front|];
    }
  }

  lemma {:induction false} BlockedBehind(queue: seq<Pending>, t: int, i: nat)
    requires i + 1 < |queue| && queue[i].release > t
    ensures queue[i + 1] in NotYet(queue, t)
  {
    if queue[0].release <= t { BlockedBehind(queue[1..], t, i - 1); }
  }

  lemma SomeDescent(queue: seq<Pending>, i: nat, j: nat) returns (k: nat)
    requires i < j < |queue| && queue[i].release > queue[j].release
    ensures k + 1 < |queue| && queue[k].release > queue[k + 1].release
  {
    k := i;
    while queue[k].release <= queue[k + 1].release
      invariant i <= k < j && queue[k].release > queue[j].release
      decreases j - k
    {
      k := k + 1;
    }
  }

  /**
   Publishing leaves nothing due behind, at whatever time it is called, exactly when release times do not decrease:
   an earlier release time behind a later one is held up.
   */
  lemma NothingDueStaysBehindIffSorted(queue: seq<Pending>)
    ensures (forall t :: NothingDue(NotYet(queue, t), t)) <==> Sorted(queue)
  {
    if Sorted(queue) {
      forall t ensures NothingDue(NotYet(queue, t), t) { SortedRest(queue, t); }
    } else {
      var i, j :| 0 <= i < j < |queue| && queue[i].release > queue[j].release;
      var k := SomeDescent(queue, i, j);
      var t := queue[k + 1].release;
      BlockedBehind(queue, t, k);
      assert !NothingDue(NotYet(queue, t), t);
    }
  }

  /** The largest of a run of time stamps. */
  function Latest(stamps: seq<int>): int
    requires stamps != []
  {
    var last := stamps[|stamps| - 1];
    if |stamps| == 1 then last
    else
      var before := Latest(stamps[..|stamps| - 1]);
      if last > before then last else before
  }

  lemma {:induction false} LatestIsMaximum(stamps: seq<int>)
    requires stamps != []
    ensures Latest(stamps) in stamps && forall i :: 0 <= i < |stamps| ==> stamps[i] <= Latest(stamps)
  {
    if |stamps| > 1 { LatestIsMaximum(stamps[..|stamps| - 1]); }
  }

  lemma LatestAppend(stamps: seq<int>, stamp: int)
    ensures Latest(stamps + [stamp]) == if stamps == [] || stamp > Latest(stamps) then stamp else Latest(stamps)
  {
    assert (stamps + [stamp])[..|stamps|] == stamps;
  }

  class SyntheticVio {
    const latency: nat                         // nanoseconds
    var initialized: bool
    var previousStamp: int
    var elapsedSeconds: real
    var drift: (real, real, real)
    var pendingMessages: seq<Pending>
    ghost var stamps: seq<int>                 // of every truth message that was not ignored
    ghost var accepted: seq<Pending>           // every measurement that was queued
    ghost var published: seq<Delivery>

    /** previous_stamp_ is the running maximum of the stamps, elapsed_seconds_ the time from the first one to it. */
    ghost predicate Clock()
      reads this`initialized, this`previousStamp, this`elapsedSeconds, this`stamps
    {
      && initialized == (stamps != [])
      && (initialized ==> previousStamp == Latest(stamps))
      && elapsedSeconds == (if initialized then (Latest(stamps) - stamps[0]) as real / NANOSECONDS else 0.0)
    }

    /** What was accepted has been published or is pending, in order, and nothing was published early. */
    ghost predicate Queue()
      reads this`pendingMessages, this`accepted, this`published
    {
      && accepted == Messages(published) + pendingMessages
      && (forall i :: 0 <= i < |published| ==> published[i].pending.release <= published[i].at)
    }

    ghost predicate Valid()
      reads this
    {
      && Clock() && Queue()
      && (forall i :: 0 <= i < |accepted| ==>
                        accepted[i].release == accepted[i].stamp + latency && accepted[i].stamp in stamps)
    }

    constructor (latencyMs: nat)
      ensures Valid() && latency == latencyMs * 1_000_000 && stamps == [] && accepted == [] && published == []
    {
      latency := latencyMs * 1_000_000;
      initialized, previousStamp, elapsedSeconds, drift, pendingMessages := false, 0, 0.0, (0.0, 0.0, 0.0), [];
      stamps, accepted, published := [], [], [];
    }

    /** The timer's call, and the end of every truth callback. */
    method PublishDueMessages(t: int)
      requires Queue()
      modifies this`pendingMessages, this`published
      ensures Queue()
      ensures pendingMessages == NotYet(old(pendingMessages), t)
      ensures Messages(published) == Messages(old(published)) + DueNow(old(pendingMessages), t)
      ensures Continues(old(published), t)
      ensures Sorted(accepted) ==> NothingDue(pendingMessages, t)
    {
      hide Messages;
      if Sorted(accepted) {
        RestOfSorted(accepted, Messages(published), pendingMessages);
        SortedRest(pendingMessages, t);
      }
      hide Sorted, NothingDue;
      ghost var start, before := pendingMessages, Messages(published);
      while pendingMessages != [] && pendingMessages[0].release <= t
        invariant Queue() && Continues(old(published), t)
        invariant NotYet(start, t) == NotYet(pendingMessages, t)
        invariant before + DueNow(start, t) == Messages(published) + DueNow(pendingMessages, t)
        decreases |pendingMessages|
      {
        PublishFront(t);
      }
    }

    ghost predicate Continues(before: seq<Delivery>, t: int)
      reads this`published
    {
      |before| <= |published| && published[..|before|] == before &&
      forall i :: |before| <= i < |published| ==> published[i].at == t
    }

    method PublishFront(t: int)
      requires Queue() && pendingMessages != [] && pendingMessages[0].release <= t
      modifies this`pendingMessages, this`published
      ensures Queue() && pendingMessages == old(pendingMessages)[1..]
      ensures published == old(published) + [Delivery(old(pendingMessages)[0], t)]
      ensures Messages(published) == Messages(old(published)) + [old(pendingMessages)[0]]
    {
      ghost var done := published + [Delivery(pendingMessages[0], t)];
      assert Messages(done) == Messages(published) + [pendingMessages[0]];
      assert pendingMessages == [pendingMessages[0]] + pendingMessages[1..];
      published := done;
      pendingMessages := pendingMessages[1..];
    }

    /** A truth message: zero stamps are ignored, time never runs backwards, a dropped message still moves the clock. */
    method TruthCallback(stamp: int, dropped: bool, message: nat)
      requires Valid()
      modifies this
      ensures Valid()
      ensures stamp == 0 ==> stamps == old(stamps) && accepted == old(accepted) && published == old(published) &&
                             pendingMessages == old(pendingMessages)
      ensures stamp != 0 ==> stamps == old(stamps) + [stamp]
      ensures stamp == 0 || old(stamps) == [] || stamp <= Latest(old(stamps)) ==>
                drift == old(drift) && elapsedSeconds == old(elapsedSeconds)
      ensures stamp != 0 && dropped ==> accepted == old(accepted) && published == old(published) &&
                                        pendingMessages == old(pendingMessages)
      ensures stamp != 0 && !dropped ==>
                var p := Pending(stamp + latency, stamp, message);
                && accepted == old(accepted) + [p]
                && pendingMessages == NotYet(old(pendingMessages) + [p], stamp)
                && Messages(published) == Messages(old(published)) + DueNow(old(pendingMessages) + [p], stamp)
                && Continues(old(published), stamp)
                && (Sorted(accepted) ==> NothingDue(pendingMessages, stamp))
    {
      if stamp == 0 {
        return;
      }
      AdvanceClock(stamp);
      if !dropped {
        Enqueue(Pending(stamp + latency, stamp, message));
        PublishDueMessages(stamp);
      }
    }

    method AdvanceClock(stamp: int)
      requires Clock() && stamp != 0
      modifies this`initialized, this`previousStamp, this`elapsedSeconds, this`drift, this`stamps
      ensures Clock() && stamps == old(stamps) + [stamp]
      ensures old(stamps) == [] || stamp <= Latest(old(stamps)) ==>
                drift == old(drift) && elapsedSeconds == old(elapsedSeconds)
    {
      LatestAppend(stamps, stamp);
      if !initialized {
        previousStamp := stamp;
        initialized := true;
      }
      var dt := if stamp > previousStamp then (stamp - previousStamp) as real / NANOSECONDS else 0.0;
      if dt > 0.0 {
        drift := *;
        elapsedSeconds := elapsedSeconds + dt;
        previousStamp := stamp;
      }
      stamps := stamps + [stamp];
    }

    method Enqueue(p: Pending)
      requires Queue()
      modifies this`pendingMessages, this`accepted
      ensures Queue() && accepted == old(accepted) + [p] && pendingMessages == old(pendingMessages) + [p]
    {
      accepted := accepted + [p];
      pendingMessages := pendingMessages + [p];
    }
  }

  /** What drives the node: truth messages and its timer. */
  datatype Call = Truth(stamp: int, dropped: bool, message: nat) | Timer(now: int)

  /** The time a call publishes at, unless it publishes nothing. */
  function TimeOf(c: Call): Option<int> {
    match c
    case Timer(now) => Some(now)
    case Truth(stamp, dropped, _) => if stamp == 0 || dropped then None else Some(stamp)
  }

  /** The delivery happened in one of these calls, at its time, and was due then. */
  ghost predicate InOneOf(d: Delivery, calls: seq<Call>) {
    exists k :: 0 <= k < |calls| && TimeOf(calls[k]) == Some(d.at) && d.pending.release <= d.at
  }

  /** What is pending after the calls. */
  function Waiting(calls: seq<Call>, latency: nat): seq<Pending> {
    if calls == [] then []
    else
      var before, c := Waiting(calls[..|calls| - 1], latency), calls[|calls| - 1];
      match c
      case Timer(now) => NotYet(before, now)
      case Truth(stamp, dropped, message) =>
        if stamp == 0 || dropped then before
        else NotYet(before + [Pending(stamp + latency, stamp, message)], stamp)
  }

  /** Any sequence of calls to a new node: everything is published in a call whose time has reached its release. */
  method AnyCalls(calls: seq<Call>, latencyMs: nat) returns (node: SyntheticVio)
    ensures node.Valid() && node.pendingMessages == Waiting(calls, latencyMs * 1_000_000)
    ensures forall i :: 0 <= i < |node.published| ==> InOneOf(node.published[i], calls)
  {
    hide NotYet, DueNow, Latest, Sorted, NothingDue;
    node := new SyntheticVio(latencyMs);
    ghost var latency := node.latency;
    for j := 0 to |calls|
      invariant node.Valid() && node.latency == latency && node.pendingMessages == Waiting(calls[..j], latency)
      invariant forall i :: 0 <= i < |node.published| ==> InOneOf(node.published[i], calls[..j])
    {
      ghost var before := node.published;
      match calls[j] {
        case Truth(stamp, dropped, message) => node.TruthCallback(stamp, dropped, message);
        case Timer(now) => node.PublishDueMessages(now);
      }
      assert calls[..j + 1][..j] == calls[..j];
      forall i | 0 <= i < |node.published| ensures InOneOf(node.published[i], calls[..j + 1]) {
        if i < |before| {
          assert node.published[i] == before[i] && InOneOf(before[i], calls[..j]);
          OneCallMore(before[i], calls, j);
        } else {
          assert TimeOf(calls[..j + 1][j]) == Some(node.published[i].at);
        }
      }
    }
    assert calls[..|calls|] == calls;
  }

  /** With 150 ms of latency a message stamped at one second goes out at 1.15 s and no earlier. */
  method OneDelayed() returns (early: bool, inTime: bool)
    ensures !early && inTime
  {
    var node := new SyntheticVio(150);
    node.TruthCallback(1_000_000_000, false, 7);
    ghost var p := Pending(1_150_000_000, 1_000_000_000, 7);
    assert [] + [p] == [p];
    node.PublishDueMessages(1_149_999_999);
    early := node.pendingMessages == [];
    node.PublishDueMessages(1_150_000_000);
    inTime := node.pendingMessages == [];
  }

  lemma OneCallMore(d: Delivery, calls: seq<Call>, j: nat)
    requires j < |calls| && InOneOf(d, calls[..j])
    ensures InOneOf(d, calls[..j + 1])
  {
    var k :| 0 <= k < j && TimeOf(calls[..j][k]) == Some(d.at) && d.pending.release <= d.at;
    assert calls[..j + 1][k] == calls[..j][k];
  }

  /** Elapsed time is in seconds, and a stamp from the past adds nothing. */
  method TwoStamps() returns (elapsed: real, elapsed': real)
    ensures elapsed == 2.5 && elapsed' == 0.0
  {
    var node := new SyntheticVio(0);
    node.TruthCallback(1_000_000_000, true, 0);
    node.TruthCallback(3_500_000_000, true, 0);
    elapsed := node.elapsedSeconds;
    node := new SyntheticVio(0);
    node.TruthCallback(3_500_000_000, true, 0);
    node.TruthCallback(1_000_000_000, true, 0);
    elapsed' := node.elapsedSeconds;
  }

  lemma RestOfSorted(all: seq<Pending>, front: seq<Pending>, rest: seq<Pending>)
    requires Sorted(all) && all == front + rest
    ensures Sorted(rest)
  {
    forall i, j | 0 <= i < j < |rest| ensures rest[i].release <= rest[j].release {
      assert rest[i] == all[|front| + i] && rest[j] == all[|front| + j];
    }
  }

  /** Stamps that do not decrease keep release times sorted, whatever was dropped in between. */
  lemma MonotoneStampsSort(accepted: seq<Pending>, latency: nat)
    requires forall i :: 0 <= i < |accepted| ==> accepted[i].release == accepted[i].stamp + latency
    ensures Sorted(accepted) <==> forall i, j :: 0 <= i < j < |accepted| ==> accepted[i].stamp <= accepted[j].stamp
  {
  }
}

/** Angles, with doubles as exact reals. */
module Angles {
  const PI: real := 3.14159265358979323846
  const FULL_TURN: real := 2.0 * PI

  predicate Wrapped(angle: real) {
    -PI < angle <= PI
  }

  /** a and b point the same way. */
  ghost predicate SameDirection(a: real, b: real) {
    exists k: int :: b == Turned(a, k)
  }

  function Turned(a: real, k: int): real {
    a + k as real * FULL_TURN
  }

  /** Both loops end, and together they land on a wrapped angle in the same direction. */
  method WrapAngle(angle: real) returns (r: real)
    ensures Wrapped(r) && SameDirection(angle, r) && r == Wrap(angle)
  {
    r := angle;
    ghost var k := 0;
    while r > PI
      invariant r == Turned(angle, k) && (r > PI || r == angle || r > -PI)
      decreases (r / FULL_TURN).Floor
    {
      LessFloor(r);
      r := r - FULL_TURN;
      k := k - 1;
    }
    while r <= -PI
      invariant r == Turned(angle, k) && r <= PI
      decreases (-r / FULL_TURN).Floor
    {
      LessFloor(-r);
      r := r + FULL_TURN;
      k := k + 1;
    }
    WrapIsUnique(angle, r);
  }

  /** Four radians are four less a full turn. */
  lemma FourRadians()
    ensures Wrap(4.0) == -2.28318530717958647692 && Wrap(-4.0) == 2.28318530717958647692
  {
    var r := -2.28318530717958647692;
    assert r == Turned(4.0, -1) && -r == Turned(-4.0, 1);
    WrapIsUnique(4.0, r);
    WrapIsUnique(-4.0, -r);
  }

  lemma LessFloor(x: real)
    requires x >= PI
    ensures ((x - FULL_TURN) / FULL_TURN).Floor < (x / FULL_TURN).Floor
    ensures (x / FULL_TURN).Floor >= 0
  {
    assert (x - FULL_TURN) / FULL_TURN == x / FULL_TURN - 1.0;
  }

  /** Number of full turns to take off: the least that brings the angle to pi or below. */
  function TurnsAbove(angle: real): int {
    -(((PI - angle) / FULL_TURN).Floor)
  }

  function Wrap(angle: real): (r: real)
    ensures Wrapped(r)
  {
    TurnsBound(angle);
    Turned(angle, -TurnsAbove(angle))
  }

  lemma TurnsBound(angle: real)
    ensures Wrapped(Turned(angle, -TurnsAbove(angle)))
  {
    var q := (PI - angle) / FULL_TURN;
    var n := q.Floor;
    assert n as real <= q < n as real + 1.0;
    assert q * FULL_TURN == PI - angle;
  }

  /** No two wrapped angles point the same way. */
  lemma WrappedIsUnique(a: real, b: real, k: int)
    requires Wrapped(a) && Wrapped(b) && b == Turned(a, k)
    ensures a == b
  {
    assert k >= 1 ==> k as real * FULL_TURN >= FULL_TURN;
    assert k <= -1 ==> k as real * FULL_TURN <= -FULL_TURN;
  }

  lemma TurnTwice(a: real, j: int, k: int)
    ensures Turned(Turned(a, j), k) == Turned(a, j + k)
  {
    assert (j + k) as real == j as real + k as real;
  }

  lemma WrapIsUnique(angle: real, r: real)
    requires Wrapped(r) && SameDirection(angle, r)
    ensures r == Wrap(angle)
  {
    var k: int :| r == Turned(angle, k);
    var t := -TurnsAbove(angle);
    TurnTwice(angle, t, k - t);
    WrappedIsUnique(Wrap(angle), r, k - t);
  }

  lemma SumTurns(a: real, b: real, j: int, k: int)
    ensures Turned(a, j) + Turned(b, k) == Turned(a + b, j + k)
  {
    assert (j + k) as real == j as real + k as real;
  }

  /** Wrapping summands first changes nothing. */
  lemma WrapOfSum(a: real, b: real)
    ensures Wrap(a + b) == Wrap(Wrap(a) + Wrap(b))
  {
    var j, k := -TurnsAbove(a), -TurnsAbove(b);
    var s := Wrap(a) + Wrap(b);
    SumTurns(a, b, j, k);
    var m := -TurnsAbove(s);
    TurnTwice(a + b, j + k, m);
    assert Wrap(s) == Turned(a + b, j + k + m);
    WrapIsUnique(a + b, Wrap(s));
  }

  /** The yaw make_measurement reports without scale error, drift and noise is the true yaw, wrapped. */
  lemma MeasurementKeepsYaw(truth: real, initial: real)
    ensures Wrap(initial + Wrap(truth - initial)) == Wrap(truth)
  {
    var k := -TurnsAbove(truth - initial);
    var s := initial + Wrap(truth - initial);
    assert s == Turned(truth, k);
    var m := -TurnsAbove(s);
    TurnTwice(truth, k, m);
    WrapIsUnique(truth, Wrap(s));
  }

  /** Wrapping twice is wrapping once. */
  lemma WrapIsIdempotent(a: real)
    ensures Wrap(Wrap(a)) == Wrap(a)
  {
    assert Turned(Wrap(a), 0) == Wrap(a);
    WrapIsUnique(Wrap(a), Wrap(a));
  }
}
