/**
 The checksum and the scan lines of the generated icons. The checksum is worked out on a reflected register
 of 32 bits, kept lowest bit first; what it is worth is said with polynomials over the two-element field.
 */
module Checksums {

  newtype byte = b: int | 0 <= b < 256

  // ---- The register ----

  type Word = w: seq<bool> | |w| == 32 witness seq(32, i => false)

  /** The bits of a hexadecimal digit, lowest first. */
  function Digit(d: nat): (s: seq<bool>)
    requires d < 16
    ensures |s| == 4
  {
    [d % 2 == 1, d / 2 % 2 == 1, d / 4 % 2 == 1, d / 8 == 1]
  }

  function Xor(a: Word, b: Word): (r: Word)
    ensures forall i :: 0 <= i < 32 ==> r[i] == (a[i] != b[i])
  {
    seq(32, i requires 0 <= i < 32 => a[i] != b[i])
  }

  function ShiftRight(r: Word): Word { r[1..] + [false] }

  function Ones(): Word { seq(32, i => true) }

  /** 0xedb88320, lowest digit first. */
  function Polynomial(): Word {
    Digit(0x0) + Digit(0x2) + Digit(0x3) + Digit(0x8) + Digit(0x8) + Digit(0xb) + Digit(0xd) + Digit(0xe)
  }

  /** The bits of a byte, lowest first. */
  function ByteBits(b: byte): (s: seq<bool>)
    ensures |s| == 8
  {
    Digit(b as nat % 16) + Digit(b as nat / 16)
  }

  function Widen(b: byte): Word { ByteBits(b) + seq(24, i => false) }

  function Step(r: Word): Word { if r[0] then Xor(ShiftRight(r), Polynomial()) else ShiftRight(r) }

  function Steps(r: Word, n: nat): Word { if n == 0 then r else Step(Steps(r, n - 1)) }

  function Feed(r: Word, b: byte): Word { Steps(Xor(r, Widen(b)), 8) }

  function FeedAll(r: Word, bytes: seq<byte>): Word {
    if bytes == [] then r else Feed(FeedAll(r, bytes[..|bytes| - 1]), bytes[|bytes| - 1])
  }

  function Crc(bytes: seq<byte>): Word { Xor(FeedAll(Ones(), bytes), Ones()) }

  method Crc32(buffer: seq<byte>) returns (result: Word)
    ensures result == Crc(buffer)
  {
    hide Ones, Polynomial, Xor, Widen, ShiftRight;
    var crc := Ones();
    for i := 0 to |buffer|
      invariant crc == FeedAll(Ones(), buffer[..i])
    {
      crc := Xor(crc, Widen(buffer[i]));
      ghost var start := crc;
      for bit := 0 to 8
        invariant crc == Steps(start, bit)
      {
        crc := if crc[0] then Xor(ShiftRight(crc), Polynomial()) else ShiftRight(crc);
      }
      assert buffer[..i + 1][..i] == buffer[..i];
    }
    assert buffer[..|buffer|] == buffer;
    return Xor(crc, Ones());
  }

  // ---- Polynomials: the set of exponents whose coefficient is one ----

  type Poly = set<nat>

  function Plus(a: Poly, b: Poly): Poly { (a - b) + (b - a) }

  function TimesX(a: Poly, n: nat): (r: Poly)
    ensures forall k :: k in r <==> k >= n && k - n in a
  {
    set k <- a :: k + n
  }

  /** x^32 + x^26 + x^23 + x^22 + x^16 + x^12 + x^11 + x^10 + x^8 + x^7 + x^5 + x^4 + x^2 + x + 1 */
  function Generator(): Poly { {32, 26, 23, 22, 16, 12, 11, 10, 8, 7, 5, 4, 2, 1, 0} }

  /** The generator times the polynomial with these coefficients, highest first. */
  function Multiple(q: seq<bool>): Poly {
    if q == [] then {}
    else Plus(TimesX(Multiple(q[..|q| - 1]), 1), if q[|q| - 1] then Generator() else {})
  }

  ghost predicate Below(a: Poly, n: nat) { forall k :: k in a ==> k < n }

  /** Division by the generator leaves this remainder. */
  ghost predicate IsRemainder(dividend: Poly, r: Poly) {
    Below(r, 32) && exists q :: dividend == Plus(Multiple(q), r)
  }

  predicate Coefficient(r: Word, k: nat) { k < 32 && r[31 - k] }

  /** A register reflects its polynomial: the lowest bit is the coefficient of x^31. */
  function PolyOf(r: Word): (p: Poly)
    ensures Below(p, 32)
    ensures forall k: nat :: k in p <==> Coefficient(r, k)
  {
    set k: nat | k < 32 && Coefficient(r, k)
  }

  lemma XorIsPlus(a: Word, b: Word)
    ensures PolyOf(Xor(a, b)) == Plus(PolyOf(a), PolyOf(b))
  {
    forall k: nat ensures k in PolyOf(Xor(a, b)) <==> k in Plus(PolyOf(a), PolyOf(b)) {
      assert k < 32 ==> Coefficient(Xor(a, b), k) == (Coefficient(a, k) != Coefficient(b, k));
    }
  }

  lemma PolynomialBits()
    ensures Polynomial() == [
      false, false, false, false, false, true, false, false,
      true, true, false, false, false, false, false, true,
      false, false, false, true, true, true, false, true,
      true, false, true, true, false, true, true, true]
  {
  }

  /** The reflected constant is the generator without its highest term. */
  lemma PolynomialIsGenerator()
    ensures Generator() == PolyOf(Polynomial()) + {32}
  {
    PolynomialBits();
    hide Polynomial;
    var g := Generator();
    forall k: nat ensures k in g <==> k in PolyOf(Polynomial()) + {32} {
      assert k >= 33 || k <= 7 || 8 <= k <= 15 || 16 <= k <= 23 || 24 <= k <= 32;
    }
  }

  // ---- The register holds a remainder ----

  lemma PlusAssociative(a: Poly, b: Poly, c: Poly)
    ensures Plus(Plus(a, b), c) == Plus(a, Plus(b, c))
  {
    assert forall k: nat :: k in Plus(Plus(a, b), c) <==> k in Plus(a, Plus(b, c));
  }

  lemma TimesXPlus(a: Poly, b: Poly, n: nat)
    ensures TimesX(Plus(a, b), n) == Plus(TimesX(a, n), TimesX(b, n))
  {
    assert forall k: nat :: k in TimesX(Plus(a, b), n) <==> k in Plus(TimesX(a, n), TimesX(b, n));
  }

  lemma TimesXTwice(a: Poly, m: nat, n: nat)
    ensures TimesX(TimesX(a, m), n) == TimesX(a, m + n)
  {
    assert forall k: nat :: k in TimesX(TimesX(a, m), n) <==> k in TimesX(a, m + n);
  }

  lemma ShiftIsTimesX(r: Word)
    ensures TimesX(PolyOf(r), 1) == PolyOf(ShiftRight(r)) + if r[0] then {32} else {}
  {
    forall k: nat ensures k in TimesX(PolyOf(r), 1) <==> k in PolyOf(ShiftRight(r)) + if r[0] then {32} else {} {
      if 1 <= k <= 32 {
        assert k - 1 in PolyOf(r) <==> Coefficient(r, k - 1);
        assert k < 32 ==> ShiftRight(r)[31 - k] == r[32 - k];
      }
    }
  }

  /** One turn of the loop multiplies by x and takes the generator off when the degree reaches 32. */
  lemma StepIsTimesX(r: Word)
    ensures TimesX(PolyOf(r), 1) == Plus(if r[0] then Generator() else {}, PolyOf(Step(r)))
  {
    ShiftIsTimesX(r);
    PolynomialIsGenerator();
    XorIsPlus(ShiftRight(r), Polynomial());
    hide Polynomial, Generator, Xor, ShiftRight;
    var s, p := PolyOf(ShiftRight(r)), PolyOf(Polynomial());
    if r[0] {
      forall k: nat ensures k in TimesX(PolyOf(r), 1) <==> k in Plus(Generator(), Plus(s, p)) {
      }
    }
  }

  /** If the register holds the remainder of v, after n turns it holds that of x^n v. */
  lemma {:induction false} StepsDivide(v: Poly, q: seq<bool>, r: Word, n: nat) returns (q': seq<bool>)
    requires v == Plus(Multiple(q), PolyOf(r))
    ensures TimesX(v, n) == Plus(Multiple(q'), PolyOf(Steps(r, n)))
  {
    hide Generator, PolyOf, Step, Plus;
    if n == 0 {
      assert TimesX(v, 0) == v;
      return q;
    }
    var p := StepsDivide(v, q, r, n - 1);
    var t := Steps(r, n - 1);
    q' := p + [t[0]];
    var g := if t[0] then Generator() else {};
    assert q'[..|q'| - 1] == p;
    TimesXTwice(v, n - 1, 1);
    TimesXPlus(Multiple(p), PolyOf(t), 1);
    StepIsTimesX(t);
    PlusAssociative(TimesX(Multiple(p), 1), g, PolyOf(Step(t)));
  }

  /** A byte's bits in the order they are taken, the first being the highest power. */
  function BytePoly(b: byte): (p: Poly)
    ensures Below(p, 8) && forall k: nat :: k in p <==> k < 8 && ByteBits(b)[7 - k]
  {
    var t := ByteBits(b);
    set k: nat | k < 8 && Taken(t, k)
  }

  predicate Taken(t: seq<bool>, k: nat) { k < |t| && t[|t| - 1 - k] }

  lemma WidenIs(b: byte)
    ensures PolyOf(Widen(b)) == TimesX(BytePoly(b), 24)
  {
    forall k: nat ensures k in PolyOf(Widen(b)) <==> k in TimesX(BytePoly(b), 24) {
      if k < 32 { assert Coefficient(Widen(b), k) == Widen(b)[31 - k]; }
    }
  }

  predicate MessageBit(bytes: seq<byte>, k: nat) {
    k / 8 < |bytes| && ByteBits(bytes[|bytes| - 1 - k / 8])[7 - k % 8]
  }

  /** The message as one polynomial: bytes in order, each lowest bit first, the first bit the highest power. */
  function MessagePoly(bytes: seq<byte>): (p: Poly)
    ensures forall k: nat :: k in p <==> MessageBit(bytes, k)
  {
    set k: nat | k < 8 * |bytes| && MessageBit(bytes, k)
  }

  /** All coefficients below 32: the initial register, and what the result is inverted by. */
  function Full(): Poly { PolyOf(Ones()) }

  /** The message times x^32, with its first 32 bits inverted by the initial register. */
  function Dividend(bytes: seq<byte>): Poly {
    Plus(TimesX(Full(), 8 * |bytes|), TimesX(MessagePoly(bytes), 32))
  }

  lemma MessageGrows(bytes: seq<byte>, b: byte)
    ensures MessagePoly(bytes + [b]) == Plus(TimesX(MessagePoly(bytes), 8), BytePoly(b))
  {
    hide ByteBits;
    forall k: nat ensures k in MessagePoly(bytes + [b]) <==> k in Plus(TimesX(MessagePoly(bytes), 8), BytePoly(b)) {
      if k >= 8 {
        assert (k - 8) / 8 == k / 8 - 1 && (k - 8) % 8 == k % 8;
      }
    }
  }

  lemma DividendGrows(bytes: seq<byte>, b: byte)
    ensures Dividend(bytes + [b]) == TimesX(Plus(Dividend(bytes), TimesX(BytePoly(b), 24)), 8)
  {
    var f, m, p := TimesX(Full(), 8 * |bytes|), MessagePoly(bytes), BytePoly(b);
    MessageGrows(bytes, b);
    hide MessagePoly, BytePoly, Full;
    TimesXPlus(Plus(f, TimesX(m, 32)), TimesX(p, 24), 8);
    TimesXPlus(f, TimesX(m, 32), 8);
    TimesXTwice(Full(), 8 * |bytes|, 8);
    TimesXTwice(m, 32, 8);
    TimesXTwice(p, 24, 8);
    TimesXPlus(TimesX(m, 8), p, 32);
    TimesXTwice(m, 8, 32);
    PlusAssociative(TimesX(f, 8), TimesX(m, 40), TimesX(p, 32));
    hide Plus, TimesX;
  }

  lemma {:induction false} FeedDivides(bytes: seq<byte>) returns (q: seq<bool>)
    ensures Dividend(bytes) == Plus(Multiple(q), PolyOf(FeedAll(Ones(), bytes)))
  {
    hide Generator, PolyOf, Step, Ones, Xor, Widen, MessagePoly, BytePoly;
    if bytes == [] {
      q := [];
      assert MessagePoly([]) == {} by { NoMessage(); }
      assert TimesX(Full(), 0) == Full();
    } else {
      var front, b := bytes[..|bytes| - 1], bytes[|bytes| - 1];
      var p := FeedDivides(front);
      var r := FeedAll(Ones(), front);
      var s := Xor(r, Widen(b));
      assert bytes == front + [b];
      DividendGrows(front, b);
      XorIsPlus(r, Widen(b));
      WidenIs(b);
      PlusAssociative(Multiple(p), PolyOf(r), TimesX(BytePoly(b), 24));
      q := StepsDivide(Plus(Dividend(front), TimesX(BytePoly(b), 24)), p, s, 8);
      hide Plus, TimesX, Multiple, Dividend, Steps;
    }
  }

  lemma NoMessage()
    ensures MessagePoly([]) == {}
  {
  }

  // ---- There is only one remainder ----

  function XorAll(p: seq<bool>, q: seq<bool>): (r: seq<bool>)
    requires |p| == |q|
    ensures |r| == |p| && forall i :: 0 <= i < |p| ==> r[i] == (p[i] != q[i])
  {
    seq(|p|, i requires 0 <= i < |p| => p[i] != q[i])
  }

  lemma {:induction false} MultiplesAdd(p: seq<bool>, q: seq<bool>)
    requires |p| == |q|
    ensures Multiple(XorAll(p, q)) == Plus(Multiple(p), Multiple(q))
  {
    if p != [] {
      var n := |p| - 1;
      hide Generator;
      MultiplesAdd(p[..n], q[..n]);
      assert XorAll(p, q)[..n] == XorAll(p[..n], q[..n]);
      TimesXPlus(Multiple(p[..n]), Multiple(q[..n]), 1);
      var a, b := TimesX(Multiple(p[..n]), 1), TimesX(Multiple(q[..n]), 1);
      var g := Generator();
      assert forall k: nat :: k in Multiple(XorAll(p, q)) <==> k in Plus(Multiple(p), Multiple(q));
    }
  }

  lemma {:induction false} LeadingZero(q: seq<bool>)
    ensures Multiple([false] + q) == Multiple(q)
    decreases |q|
  {
    hide Generator;
    if q == [] {
      assert ([false] + q)[..0] == [];
    } else {
      LeadingZero(q[..|q| - 1]);
      assert ([false] + q)[..|q|] == [false] + q[..|q| - 1];
    }
  }

  function Zeros(n: nat): (z: seq<bool>)
    ensures |z| == n
  {
    if n == 0 then [] else [false] + Zeros(n - 1)
  }

  lemma {:induction false} Pad(q: seq<bool>, n: nat)
    ensures Multiple(Zeros(n) + q) == Multiple(q)
  {
    if n == 0 {
      assert Zeros(0) + q == q;
    } else {
      Pad(q, n - 1);
      LeadingZero(Zeros(n - 1) + q);
      assert Zeros(n) + q == [false] + (Zeros(n - 1) + q);
    }
  }

  /** The highest power of a multiple is that of its factor plus 32. */
  lemma {:induction false} MultipleDegree(q: seq<bool>)
    ensures Below(Multiple(q), |q| + 32)
    ensures q != [] && q[0] ==> |q| + 31 in Multiple(q)
    decreases |q|
  {
    hide Generator;
    GeneratorDegree();
    if q != [] {
      var m := Multiple(q[..|q| - 1]);
      MultipleDegree(q[..|q| - 1]);
      assert Below(TimesX(m, 1), |q| + 32);
      assert q[0] && |q| > 1 ==> |q| + 31 in TimesX(m, 1) && |q| + 31 !in Generator();
    }
  }

  lemma GeneratorDegree()
    ensures Below(Generator(), 33) && 32 in Generator()
  {
  }

  lemma PlusCancel(m: Poly, a: Poly, n: Poly, b: Poly)
    requires Plus(m, a) == Plus(n, b)
    ensures Plus(m, n) == Plus(a, b)
  {
    forall k: nat ensures k in Plus(m, n) <==> k in Plus(a, b) {
      assert k in Plus(m, a) <==> k in Plus(n, b);
    }
  }

  lemma PlusZero(a: Poly, b: Poly)
    requires Plus(a, b) == {}
    ensures a == b
  {
    forall k: nat ensures k in a <==> k in b {
      assert k !in Plus(a, b);
    }
  }

  lemma {:induction false} SmallMultipleIsZero(q: seq<bool>)
    requires Below(Multiple(q), 32)
    ensures Multiple(q) == {}
    decreases |q|
  {
    hide Generator;
    if q != [] {
      MultipleDegree(q);
      assert q == [q[0]] + q[1..];
      LeadingZero(q[1..]);
      SmallMultipleIsZero(q[1..]);
    }
  }

  lemma RemainderUnique(d: Poly, a: Poly, b: Poly)
    requires IsRemainder(d, a) && IsRemainder(d, b)
    ensures a == b
  {
    hide Multiple, Plus;
    var p :| d == Plus(Multiple(p), a);
    var q :| d == Plus(Multiple(q), b);
    var n := if |p| < |q| then |q| else |p|;
    var p', q' := Zeros(n - |p|) + p, Zeros(n - |q|) + q;
    Pad(p, n - |p|);
    Pad(q, n - |q|);
    MultiplesAdd(p', q');
    PlusCancel(Multiple(p), a, Multiple(q), b);
    PlusBelow(a, b);
    SmallMultipleIsZero(XorAll(p', q'));
    PlusZero(a, b);
  }

  lemma PlusBelow(a: Poly, b: Poly)
    requires Below(a, 32) && Below(b, 32)
    ensures Below(Plus(a, b), 32)
  {
  }

  /**
   The checksum of section 3.4 of RFC 2083: the inverted remainder that the generator leaves of the message
   shifted by 32 places and preset with ones, and no other polynomial is that remainder.
   */
  lemma CrcIsRemainder(bytes: seq<byte>, r: Poly)
    ensures IsRemainder(Dividend(bytes), r) <==> r == Plus(PolyOf(Crc(bytes)), Full())
  {
    var q := FeedDivides(bytes);
    var s := PolyOf(FeedAll(Ones(), bytes));
    XorIsPlus(FeedAll(Ones(), bytes), Ones());
    assert Plus(Plus(s, Full()), Full()) == s;
    hide Multiple, FeedAll, Dividend, PolyOf, Full;
    assert IsRemainder(Dividend(bytes), s);
    if IsRemainder(Dividend(bytes), r) { RemainderUnique(Dividend(bytes), r, s); }
  }

  // ---- Errors are seen ----

  lemma StepInjective(a: Word, b: Word)
    requires Step(a) == Step(b)
    ensures a == b
  {
    PolynomialBits();
    hide Polynomial;
    assert Step(a)[31] == a[0] && Step(b)[31] == b[0];
    forall i | 1 <= i < 32 ensures a[i] == b[i] {
      assert Step(a)[i - 1] == (a[i] != (a[0] && Polynomial()[i - 1]));
      assert Step(b)[i - 1] == (b[i] != (b[0] && Polynomial()[i - 1]));
    }
  }

  lemma {:induction false} StepsInjective(a: Word, b: Word, n: nat)
    requires Steps(a, n) == Steps(b, n)
    ensures a == b
  {
    hide Step;
    if n > 0 {
      StepInjective(Steps(a, n - 1), Steps(b, n - 1));
      StepsInjective(a, b, n - 1);
    }
  }

  lemma XorInjective(a: Word, b: Word, c: Word)
    requires Xor(a, c) == Xor(b, c)
    ensures a == b
  {
    forall i | 0 <= i < 32 ensures a[i] == b[i] {
      assert Xor(a, c)[i] == Xor(b, c)[i];
    }
  }

  lemma {:induction false} FeedInjective(a: Word, b: Word, bytes: seq<byte>)
    requires FeedAll(a, bytes) == FeedAll(b, bytes)
    ensures a == b
  {
    hide Step, Xor, Widen;
    if bytes != [] {
      var front, last := bytes[..|bytes| - 1], Widen(bytes[|bytes| - 1]);
      StepsInjective(Xor(FeedAll(a, front), last), Xor(FeedAll(b, front), last), 8);
      XorInjective(FeedAll(a, front), FeedAll(b, front), last);
      FeedInjective(a, b, front);
    }
  }

  lemma {:induction false} FeedAppend(r: Word, a: seq<byte>, b: seq<byte>)
    ensures FeedAll(r, a + b) == FeedAll(FeedAll(r, a), b)
    decreases |b|
  {
    hide Feed;
    if b == [] {
      assert a + b == a;
    } else {
      assert (a + b)[..|a + b| - 1] == a + b[..|b| - 1];
      FeedAppend(r, a, b[..|b| - 1]);
    }
  }

  lemma StepXor(a: Word, b: Word)
    ensures Step(Xor(a, b)) == Xor(Step(a), Step(b))
  {
    hide Polynomial;
    forall i | 0 <= i < 32 ensures Step(Xor(a, b))[i] == Xor(Step(a), Step(b))[i] {
      assert ShiftRight(Xor(a, b))[i] == (ShiftRight(a)[i] != ShiftRight(b)[i]);
    }
  }

  lemma {:induction false} StepsXor(a: Word, b: Word, n: nat)
    ensures Steps(Xor(a, b), n) == Xor(Steps(a, n), Steps(b, n))
  {
    hide Step, Xor;
    if n > 0 {
      StepsXor(a, b, n - 1);
      StepXor(Steps(a, n - 1), Steps(b, n - 1));
    }
  }

  lemma {:induction false} StepsAdd(r: Word, m: nat, n: nat)
    ensures Steps(Steps(r, m), n) == Steps(r, m + n)
  {
    hide Step;
    if n > 0 { StepsAdd(r, m, n - 1); }
  }

  /** A byte's bits at a place of the register. */
  function Place(b: byte, at: nat): Word
    requires at <= 24
  {
    seq(32, i requires 0 <= i < 32 => at <= i < at + 8 && ByteBits(b)[i - at])
  }

  lemma {:induction false} PlaceMoves(b: byte, at: nat)
    requires at <= 24
    ensures Steps(Place(b, at), at) == Widen(b)
  {
    hide ByteBits, Polynomial;
    if at == 0 {
      assert Place(b, 0) == Widen(b);
    } else {
      assert Step(Place(b, at)) == Place(b, at - 1);
      PlaceMoves(b, at - 1);
      hide Step, Place;
      StepsAdd(Place(b, at), 1, at - 1);
      assert Steps(Place(b, at), 1) == Step(Steps(Place(b, at), 0));
    }
  }

  predicate PackedBit(bytes: seq<byte>, i: nat) { i / 8 < |bytes| && ByteBits(bytes[i / 8])[i % 8] }

  /** Up to four bytes, side by side in the register. */
  function Pack(bytes: seq<byte>): (r: Word)
    ensures forall i :: 0 <= i < 32 ==> r[i] == PackedBit(bytes, i)
  {
    seq(32, i requires 0 <= i < 32 => PackedBit(bytes, i))
  }

  lemma PackGrows(r: Word, bytes: seq<byte>, b: byte)
    requires |bytes| < 4
    ensures Xor(Xor(r, Pack(bytes)), Place(b, 8 * |bytes|)) == Xor(r, Pack(bytes + [b]))
  {
    hide ByteBits;
    var at := 8 * |bytes|;
    forall i | 0 <= i < 32 ensures PackedBit(bytes + [b], i) == (PackedBit(bytes, i) != Place(b, at)[i]) {
      if at <= i < at + 8 {
        assert i / 8 == |bytes| && i % 8 == i - at;
      }
    }
  }

  /** Up to four bytes may be put into the register at once. */
  lemma {:induction false} FeedTogether(r: Word, bytes: seq<byte>)
    requires |bytes| <= 4
    ensures FeedAll(r, bytes) == Steps(Xor(r, Pack(bytes)), 8 * |bytes|)
    decreases |bytes|
  {
    hide Step, Xor, Pack, Place, Widen;
    if bytes == [] {
      PackNone(r);
    } else {
      var n := |bytes| - 1;
      var front, b := bytes[..n], bytes[n];
      FeedTogether(r, front);
      var z := Xor(r, Pack(front));
      PlaceMoves(b, 8 * n);
      StepsXor(z, Place(b, 8 * n), 8 * n);
      PackGrows(r, front, b);
      assert front + [b] == bytes;
      StepsAdd(Xor(r, Pack(bytes)), 8 * n, 8);
    }
  }

  lemma PackNone(r: Word)
    ensures Xor(r, Pack([])) == r
  {
    forall i | 0 <= i < 32 ensures !Pack([])[i] {
      assert !PackedBit([], i);
    }
  }

  lemma ByteBitsInjective(a: byte, b: byte)
    requires ByteBits(a) == ByteBits(b)
    ensures a == b
  {
    var x, y := a as nat, b as nat;
    DigitsInjective(x % 16, y % 16, Digit(x / 16), Digit(y / 16));
    DigitInjective(x / 16, y / 16);
    assert x == 16 * (x / 16) + x % 16 && y == 16 * (y / 16) + y % 16;
  }

  lemma DigitsInjective(c: nat, d: nat, s: seq<bool>, t: seq<bool>)
    requires c < 16 && d < 16 && Digit(c) + s == Digit(d) + t
    ensures c == d && s == t
  {
    assert Digit(c) == (Digit(c) + s)[..4] == (Digit(d) + t)[..4] == Digit(d);
    assert s == (Digit(c) + s)[4..] == (Digit(d) + t)[4..] == t;
    DigitInjective(c, d);
  }

  lemma DigitInjective(c: nat, d: nat)
    requires c < 16 && d < 16 && Digit(c) == Digit(d)
    ensures c == d
  {
    assert c % 2 == d % 2 && c / 2 % 2 == d / 2 % 2 && c / 4 % 2 == d / 4 % 2 && c / 8 == d / 8 by {
      assert Digit(c)[0] == Digit(d)[0] && Digit(c)[1] == Digit(d)[1] && Digit(c)[2] == Digit(d)[2] && Digit(c)[3] == Digit(d)[3];
    }
  }

  lemma PackInjective(u: seq<byte>, v: seq<byte>)
    requires |u| == |v| <= 4 && Pack(u) == Pack(v)
    ensures u == v
  {
    forall k | 0 <= k < |u| ensures u[k] == v[k] {
      forall i | 0 <= i < 8 ensures ByteBits(u[k])[i] == ByteBits(v[k])[i] {
        hide ByteBits;
        assert (8 * k + i) / 8 == k && (8 * k + i) % 8 == i;
        assert Pack(u)[8 * k + i] == PackedBit(u, 8 * k + i) && Pack(v)[8 * k + i] == PackedBit(v, 8 * k + i);
      }
      assert ByteBits(u[k]) == ByteBits(v[k]);
      ByteBitsInjective(u[k], v[k]);
    }
  }

  /**
   Buffers of one length that differ only within some four consecutive bytes, a single byte for one, never
   share a checksum.
   */
  lemma BurstsAreSeen(before: seq<byte>, u: seq<byte>, v: seq<byte>, after: seq<byte>)
    requires |u| == |v| <= 4
    ensures Crc(before + u + after) == Crc(before + v + after) <==> u == v
  {
    hide FeedAll, Xor, Pack, Ones, Steps;
    if Crc(before + u + after) == Crc(before + v + after) {
      var r := FeedAll(Ones(), before);
      XorInjective(FeedAll(Ones(), before + u + after), FeedAll(Ones(), before + v + after), Ones());
      FeedAppend(Ones(), before + u, after);
      FeedAppend(Ones(), before + v, after);
      FeedInjective(FeedAll(Ones(), before + u), FeedAll(Ones(), before + v), after);
      FeedAppend(Ones(), before, u);
      FeedAppend(Ones(), before, v);
      FeedTogether(r, u);
      FeedTogether(r, v);
      StepsInjective(Xor(r, Pack(u)), Xor(r, Pack(v)), 8 * |u|);
      XorCommutes(r, Pack(u));
      XorCommutes(r, Pack(v));
      XorInjective(Pack(u), Pack(v), r);
      PackInjective(u, v);
    }
  }

  lemma XorCommutes(a: Word, b: Word)
    ensures Xor(a, b) == Xor(b, a)
  {
    assert forall i :: 0 <= i < 32 ==> Xor(a, b)[i] == Xor(b, a)[i];
  }

  // ---- The scan lines ----

  datatype Pixel = Pixel(r: byte, g: byte, b: byte, a: byte)

  function Channel(p: Pixel, c: nat): byte {
    if c == 0 then p.r else if c == 1 then p.g else if c == 2 then p.b else p.a
  }

  function PixelBytes(p: Pixel): (s: seq<byte>)
    ensures |s| == 4 && forall c :: 0 <= c < 4 ==> s[c] == Channel(p, c)
  {
    [p.r, p.g, p.b, p.a]
  }

  /** A filter byte of zero, then four bytes for each of the first `x` pixels. */
  function ScanLine(pixelAt: (nat, nat) -> Pixel, y: nat, x: nat): (s: seq<byte>)
    ensures |s| == 1 + 4 * x
  {
    if x == 0 then [0] else ScanLine(pixelAt, y, x - 1) + PixelBytes(pixelAt(x - 1, y))
  }

  function Row(size: nat, y: nat): nat { y * (4 * size + 1) }

  lemma RowStep(size: nat, y: nat)
    ensures Row(size, y + 1) == Row(size, y) + 4 * size + 1
  {
  }

  function ScanLines(size: nat, pixelAt: (nat, nat) -> Pixel, y: nat): (s: seq<byte>)
    ensures |s| == Row(size, y)
  {
    if y == 0 then [] else RowStep(size, y - 1); ScanLines(size, pixelAt, y - 1) + ScanLine(pixelAt, y - 1, size)
  }

  lemma {:induction false} PixelInLine(pixelAt: (nat, nat) -> Pixel, y: nat, n: nat, x: nat, c: nat)
    requires x < n && c < 4
    ensures ScanLine(pixelAt, y, n)[0] == 0
    ensures ScanLine(pixelAt, y, n)[1 + 4 * x + c] == Channel(pixelAt(x, y), c)
  {
    if n > 1 {
      PixelInLine(pixelAt, y, n - 1, if x < n - 1 then x else 0, c);
    }
  }

  lemma RowsOrdered(size: nat, y: nat, n: nat)
    requires y < n
    ensures Row(size, y) + 4 * size + 1 <= Row(size, n)
  {
    assert (y + 1) * (4 * size + 1) <= n * (4 * size + 1);
  }

  /** Pixel (x, y) lies at y(4 size + 1) + 1 + 4x, after its row's filter byte at y(4 size + 1). */
  lemma {:induction false} PixelLands(size: nat, pixelAt: (nat, nat) -> Pixel, n: nat, x: nat, y: nat, c: nat)
    requires x < size && y < n && c < 4
    ensures Row(size, y) + 4 * size + 1 <= Row(size, n)
    ensures ScanLines(size, pixelAt, n)[Row(size, y)] == 0
    ensures ScanLines(size, pixelAt, n)[Row(size, y) + 1 + 4 * x + c] == Channel(pixelAt(x, y), c)
  {
    RowStep(size, n - 1);
    if y == n - 1 {
      PixelInLine(pixelAt, y, size, x, c);
    } else {
      PixelLands(size, pixelAt, n - 1, x, y, c);
    }
    RowsOrdered(size, y, n);
    hide Row;
  }

  /** Consecutive places from `from` on. */
  ghost predicate InOrder(written: seq<nat>, from: nat) {
    forall i :: 0 <= i < |written| ==> written[i] == from + i
  }

  method RenderLine(raw: array<byte>, start: nat, size: nat, pixelAt: (nat, nat) -> Pixel, y: nat) returns (offset: nat, ghost written: seq<nat>)
    requires start + 4 * size + 1 <= raw.Length
    modifies raw
    ensures offset == start + 4 * size + 1
    ensures raw[..offset] == old(raw[..start]) + ScanLine(pixelAt, y, size)
    ensures |written| == 4 * size + 1 && InOrder(written, start)
  {
    offset := start;
    raw[offset] := 0;
    written := [offset];
    offset := offset + 1;
    for x := 0 to size
      invariant offset == start + 1 + 4 * x && |written| == 1 + 4 * x
      invariant raw[..offset] == old(raw[..start]) + ScanLine(pixelAt, y, x)
      invariant InOrder(written, start)
    {
      var p := pixelAt(x, y);
      ghost var done := raw[..offset];
      raw[offset] := p.r;
      raw[offset + 1] := p.g;
      raw[offset + 2] := p.b;
      raw[offset + 3] := p.a;
      written := written + [offset, offset + 1, offset + 2, offset + 3];
      offset := offset + 4;
      assert raw[..offset] == done + PixelBytes(p);
    }
  }

  /** The buffer is filled in order, each byte once: `written` lists the places written to. */
  method RenderScanLines(size: nat, pixelAt: (nat, nat) -> Pixel) returns (raw: array<byte>, ghost written: seq<nat>)
    ensures fresh(raw) && raw[..] == ScanLines(size, pixelAt, size)
    ensures |written| == raw.Length == Row(size, size) && InOrder(written, 0)
  {
    hide Row, ScanLine;
    raw := new byte[Row(size, size)];
    written := [];
    var offset := 0;
    RowNone(size);
    for y := 0 to size
      invariant offset == Row(size, y) == |written| <= raw.Length
      invariant raw[..offset] == ScanLines(size, pixelAt, y)
      invariant InOrder(written, 0)
    {
      RowStep(size, y);
      RowsOrdered(size, y, size);
      ghost var line;
      offset, line := RenderLine(raw, offset, size, pixelAt, y);
      written := written + line;
    }
    assert raw[..] == raw[..offset];
  }

  lemma RowNone(size: nat)
    ensures Row(size, 0) == 0
  {
  }
}
