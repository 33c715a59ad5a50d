// The block step of the DECT standard authentication algorithm (ETSI EN 300 175-7):
// bit permutation, pairwise mixing modulo 256 and substitution, done in place on
// blocks of eight octets, and the six-round composition of the three.
module Dsaa {
  import DsaaSBox
  import opened Bits
  import opened Common

  type Block = s: seq<octet> | |s| == 8 witness [0, 0, 0, 0, 0, 0, 0, 0]

  // ----- Bits of octets and blocks -----

  // Bit p of a block is bit p % 8 of its octet p / 8.
  predicate BlockBit(s: Block, p: nat)
    requires p < 64
  {
    Bit(s[p / 8], p % 8)
  }

  function OctetOf(bits: seq<bool>): octet
    requires |bits| == 8
  {
    OfBitsFits(bits);
    assert Pow2(8) == 256;
    OfBits(bits)
  }

  function OrOctet(b: octet, k: nat): octet
    requires k < 8
  {
    OrBitFits(b, k, 8);
    assert Pow2(8) == 256;
    OrBit(b, k)
  }

  function FromBits(bits: seq<bool>): Block
    requires |bits| == 64
  {
    seq(8, j requires 0 <= j < 8 => OctetOf(bits[8 * j..8 * j + 8]))
  }

  lemma FromBitsBit(bits: seq<bool>, p: nat)
    requires |bits| == 64 && p < 64
    ensures BlockBit(FromBits(bits), p) == bits[p]
  {
    var row := bits[8 * (p / 8)..8 * (p / 8) + 8];
    assert row[p % 8] == bits[p];
    OfBitsBit(row, p % 8);
  }

  lemma BlockExtensional(a: Block, b: Block)
    requires forall p: nat | p < 64 :: BlockBit(a, p) == BlockBit(b, p)
    ensures a == b
  {
    forall j | 0 <= j < 8
      ensures a[j] == b[j]
    {
      forall k: nat | k < 8
        ensures Bit(a[j], k) == Bit(b[j], k)
      {
        assert BlockBit(a, 8 * j + k) == BlockBit(b, 8 * j + k);
      }
      assert Pow2(8) == 256;
      Extensional(a[j], b[j], 8);
    }
  }

  // ----- The bit permutation -----

  // Where bit i of the input goes.
  function Target(start: nat, step: nat, i: nat): nat
  {
    (start + step * i) % 64
  }

  // Some input bit below n is set and goes to q.
  predicate SetBelow(start: nat, step: nat, s: Block, n: nat, q: nat)
    requires n <= 64
  {
    exists i: nat | i < n :: Target(start, step, i) == q && BlockBit(s, i)
  }

  function BitPerm(start: nat, step: nat, s: Block): Block
  {
    FromBits(seq(64, q requires 0 <= q < 64 => SetBelow(start, step, s, 64, q)))
  }

  lemma BitPermBit(start: nat, step: nat, s: Block, q: nat)
    requires q < 64
    ensures BlockBit(BitPerm(start, step, s), q) == SetBelow(start, step, s, 64, q)
  {
    FromBitsBit(seq(64, q requires 0 <= q < 64 => SetBelow(start, step, s, 64, q)), q);
  }

  lemma TargetStep(start: nat, step: nat, i: nat)
    ensures Target(start, step, i + 1) == (Target(start, step, i) + step) % 64
  {
    var a := start + step * i;
    assert start + step * (i + 1) == a + step;
  }

  // A set bit is or-ed into the octet that holds position p; nothing else changes.
  lemma OrIntoBlock(s: Block, p: nat, q: nat)
    requires p < 64 && q < 64
    ensures BlockBit(s[p / 8 := OrOctet(s[p / 8], p % 8)], q) == (q == p || BlockBit(s, q))
  {
    OrBitBit(s[p / 8], p % 8, q % 8);
  }

  // The first n bits of copy are in place in s, and no others.
  ghost predicate Placed(start: nat, step: nat, copy: Block, n: nat, s: Block)
    requires n <= 64
  {
    forall q: nat | q < 64 :: BlockBit(s, q) == SetBelow(start, step, copy, n, q)
  }

  lemma PlacedNone(start: nat, step: nat, copy: Block, s: Block)
    requires forall k | 0 <= k < 8 :: s[k] == 0
    ensures Placed(start, step, copy, 0, s)
  {
    forall q: nat | q < 64
      ensures !BlockBit(s, q)
    {
      ZeroBit(q % 8);
    }
  }

  function WithBit(s: Block, p: nat): Block
    requires p < 64
  {
    s[p / 8 := OrOctet(s[p / 8], p % 8)]
  }

  lemma PlacedNext(start: nat, step: nat, copy: Block, i: nat, s: Block)
    requires i < 64 && Placed(start, step, copy, i, s)
    ensures Target(start, step, i) < 64
    ensures var p := Target(start, step, i);
            Placed(start, step, copy, i + 1, if BlockBit(copy, i) then WithBit(s, p) else s)
  {
    hide BlockBit, Target;
    TargetRange(start, step, i);
    var p := Target(start, step, i);
    var t := if BlockBit(copy, i) then WithBit(s, p) else s;
    forall q: nat | q < 64
      ensures BlockBit(t, q) == SetBelow(start, step, copy, i + 1, q)
    {
      OrIntoBlock(s, p, q);
      SetBelowNext(start, step, copy, i, q);
      hide SetBelow, OrOctet;
    }
  }

  lemma TargetRange(start: nat, step: nat, i: nat)
    ensures Target(start, step, i) < 64
  {}

  lemma SetBelowNext(start: nat, step: nat, s: Block, i: nat, q: nat)
    requires i < 64
    ensures SetBelow(start, step, s, i + 1, q) <==>
            SetBelow(start, step, s, i, q) || (Target(start, step, i) == q && BlockBit(s, i))
  {
    hide Target, BlockBit;
  }

  method BitPermInPlace(start: nat, step: nat, key: array<octet>)
    requires start < 64 && step < 256 && key.Length == 8
    modifies key
    ensures key[..] == BitPerm(start, step, old(key[..]))
  {
    hide Placed, SetBelow, Target, OrOctet;
    var copy: Block := key[..];
    var j := 0;
    while j < 8
      invariant 0 <= j <= 8
      invariant forall k | 0 <= k < j :: key[k] == 0
    {
      key[j] := 0;
      j := j + 1;
    }
    PlacedNone(start, step, copy, key[..]);
    var p := start;
    TargetStart(start, step);
    var i := 0;
    while i < 64
      invariant 0 <= i <= 64 && p == Target(start, step, i) && p < 64
      invariant Placed(start, step, copy, i, key[..])
    {
      ghost var was: Block := key[..];
      PlacedNext(start, step, copy, i, was);
      if Bit(copy[i / 8], i % 8) {
        key[p / 8] := OrOctet(key[p / 8], p % 8);
        assert key[..] == WithBit(was, p);
      }
      TargetStep(start, step, i);
      p := (p + step) % 64;
      i := i + 1;
    }
    PlacedAll(start, step, copy, key[..]);
  }

  lemma TargetStart(start: nat, step: nat)
    requires start < 64
    ensures Target(start, step, 0) == start
  {}

  lemma PlacedAll(start: nat, step: nat, copy: Block, s: Block)
    requires Placed(start, step, copy, 64, s)
    ensures s == BitPerm(start, step, copy)
  {
    forall q: nat | q < 64
      ensures BlockBit(s, q) == BlockBit(BitPerm(start, step, copy), q)
    {
      BitPermBit(start, step, copy, q);
      hide BitPerm, BlockBit, SetBelow;
    }
    hide BitPerm, BlockBit, SetBelow;
    BlockExtensional(s, BitPerm(start, step, copy));
  }

  // The inverse of an odd step modulo 64.
  function StepInverse(step: nat): nat
  {
    HalfInverse(step % 64 / 2)
  }

  // The inverse of 2 * h + 1.
  function HalfInverse(h: nat): nat {
    match h
    case 0 => 1 case 1 => 43 case 2 => 13 case 3 => 55 case 4 => 57 case 5 => 35 case 6 => 5 case 7 => 47
    case 8 => 49 case 9 => 27 case 10 => 61 case 11 => 39 case 12 => 41 case 13 => 19 case 14 => 53 case 15 => 31
    case 16 => 33 case 17 => 11 case 18 => 45 case 19 => 23 case 20 => 25 case 21 => 3 case 22 => 37 case 23 => 15
    case 24 => 17 case 25 => 59 case 26 => 29 case 27 => 7 case 28 => 9 case 29 => 51 case 30 => 21 case _ => 63
  }

  // Which input bit arrives at q.
  function Source(start: nat, step: nat, q: nat): nat
    requires start < 64
  {
    (StepInverse(step) * (q + 64 - start)) % 64
  }

  lemma MulMod64(a: int, b: int)
    ensures (a * (b % 64)) % 64 == (a * b) % 64
  {
    var k := b / 64;
    assert a * b == a * (b % 64) + 64 * (a * k) by { assert b == 64 * k + b % 64; }
  }

  lemma StepInverseIsInverse(step: nat)
    requires step % 2 == 1
    ensures (StepInverse(step) * step) % 64 == 1 && (step * StepInverse(step)) % 64 == 1
  {
    var inv := StepInverse(step);
    var h := step % 64 / 2;
    assert step % 64 == 2 * h + 1;
    hide HalfInverse;
    InverseTable(h);
    hide StepInverse;
    MulMod64(inv, step);
    Swapped(inv, step);
  }

  lemma InverseTable(h: nat)
    requires h < 32
    ensures (HalfInverse(h) * (2 * h + 1)) % 64 == 1
  {
    if h < 16 {
      InverseLow(h);
    } else {
      InverseHigh(h);
    }
  }

  lemma InverseLow(h: nat)
    requires h < 16
    ensures (HalfInverse(h) * (2 * h + 1)) % 64 == 1
  {
    match h {
      case 0 => case 1 => case 2 => case 3 => case 4 => case 5 => case 6 => case 7 =>
      case 8 => case 9 => case 10 => case 11 => case 12 => case 13 => case 14 => case 15 =>
    }
  }

  lemma InverseHigh(h: nat)
    requires 16 <= h < 32
    ensures (HalfInverse(h) * (2 * h + 1)) % 64 == 1
  {
    match h {
      case 16 => case 17 => case 18 => case 19 => case 20 => case 21 => case 22 => case 23 =>
      case 24 => case 25 => case 26 => case 27 => case 28 => case 29 => case 30 => case 31 =>
    }
  }

  lemma Swapped(a: int, b: int)
    ensures a * b == b * a
  {}

  // For an odd step, i -> Target(i) is a bijection of the 64 positions with inverse Source.
  lemma TargetBijection(start: nat, step: nat, i: nat)
    requires start < 64 && step % 2 == 1 && i < 64
    ensures Target(start, step, Source(start, step, i)) == i
    ensures Source(start, step, Target(start, step, i)) == i
  {
    var inv := StepInverse(step);
    StepInverseIsInverse(step);
    TargetOfSource(start, step, inv, i);
    SourceOfTarget(start, step, inv, i);
  }

  lemma TargetOfSource(start: nat, step: nat, inv: nat, q: nat)
    requires start < 64 && q < 64 && (inv * step) % 64 == 1
    ensures (start + step * ((inv * (q + 64 - start)) % 64)) % 64 == q
  {
    CancelMod64(inv, step, q + 64 - start);
    BackMod64(start, step * ((inv * (q + 64 - start)) % 64), q);
  }

  lemma SourceOfTarget(start: nat, step: nat, inv: nat, i: nat)
    requires start < 64 && i < 64 && (step * inv) % 64 == 1
    ensures (inv * ((start + step * i) % 64 + 64 - start)) % 64 == i
  {
    CancelMod64(step, inv, i);
    OffsetMod64(start, step * i);
    MulMod64(inv, (start + step * i) % 64 + 64 - start);
  }

  lemma BackMod64(a: int, x: int, q: nat)
    requires q < 64 && x % 64 == (q + 64 - a) % 64
    ensures (a + x) % 64 == q
  {}

  lemma OffsetMod64(a: int, x: int)
    ensures ((a + x) % 64 + 64 - a) % 64 == x % 64
  {}

  // Multiplying by a and then by its inverse b changes nothing modulo 64.
  lemma CancelMod64(a: int, b: int, x: int)
    requires (a * b) % 64 == 1
    ensures (b * ((a * x) % 64)) % 64 == x % 64
  {
    MulMod64(b, a * x);
    Regroup(a, b, x);
    MulMod64(x, a * b);
  }

  lemma Regroup(a: int, b: int, x: int)
    ensures b * (a * x) == x * (a * b)
  {}

  lemma SetBelowAtSource(start: nat, step: nat, s: Block, q: nat)
    requires start < 64 && step % 2 == 1 && q < 64
    ensures SetBelow(start, step, s, 64, q) == BlockBit(s, Source(start, step, q))
  {
    TargetBijection(start, step, q);
    if i: nat :| i < 64 && Target(start, step, i) == q && BlockBit(s, i) {
      TargetBijection(start, step, i);
    }
  }

  function UnBitPerm(start: nat, step: nat, s: Block): Block
  {
    FromBits(seq(64, i requires 0 <= i < 64 => BlockBit(s, Target(start, step, i))))
  }

  lemma UnBitPermBit(start: nat, step: nat, s: Block, i: nat)
    requires i < 64
    ensures BlockBit(UnBitPerm(start, step, s), i) == BlockBit(s, Target(start, step, i))
  {
    FromBitsBit(seq(64, i requires 0 <= i < 64 => BlockBit(s, Target(start, step, i))), i);
  }

  // With an odd step every target position is written exactly once, so no bit is lost.
  lemma BitPermBijection(start: nat, step: nat, s: Block)
    requires start < 64 && step % 2 == 1
    ensures UnBitPerm(start, step, BitPerm(start, step, s)) == s
    ensures BitPerm(start, step, UnBitPerm(start, step, s)) == s
  {
    forall i: nat | i < 64
      ensures BlockBit(UnBitPerm(start, step, BitPerm(start, step, s)), i) == BlockBit(s, i)
      ensures BlockBit(BitPerm(start, step, UnBitPerm(start, step, s)), i) == BlockBit(s, i)
    {
      TargetBijection(start, step, i);
      UnBitPermBit(start, step, BitPerm(start, step, s), i);
      BitPermBit(start, step, s, Target(start, step, i));
      SetBelowAtSource(start, step, s, Target(start, step, i));
      BitPermBit(start, step, UnBitPerm(start, step, s), i);
      SetBelowAtSource(start, step, UnBitPerm(start, step, s), i);
      UnBitPermBit(start, step, s, Source(start, step, i));
    }
    BlockExtensional(UnBitPerm(start, step, BitPerm(start, step, s)), s);
    BlockExtensional(BitPerm(start, step, UnBitPerm(start, step, s)), s);
  }

  // With an even step it is not a permutation: input bits 0 and 32 collide.
  lemma EvenStepLosesBits(start: nat, step: nat)
    requires start < 64 && step % 2 == 0
    ensures LOW != HIGH && BitPerm(start, step, LOW) == BitPerm(start, step, HIGH)
  {
    assert LOW[0] != HIGH[0];
    assert Target(start, step, 32) == Target(start, step, 0) by {
      var h := step / 2;
      assert step * 32 == 64 * h;
    }
    forall q: nat | q < 64
      ensures BlockBit(BitPerm(start, step, LOW), q) == BlockBit(BitPerm(start, step, HIGH), q)
    {
      BitPermBit(start, step, LOW, q);
      BitPermBit(start, step, HIGH, q);
      LowBits();
      SingleBit(start, step, LOW, 0, q);
      SingleBit(start, step, HIGH, 32, q);
    }
    BlockExtensional(BitPerm(start, step, LOW), BitPerm(start, step, HIGH));
  }

  const LOW: Block := [1, 0, 0, 0, 0, 0, 0, 0]
  const HIGH: Block := [0, 0, 0, 0, 1, 0, 0, 0]

  lemma LowBits()
    ensures forall p: nat | p < 64 :: BlockBit(LOW, p) == (p == 0)
    ensures forall p: nat | p < 64 :: BlockBit(HIGH, p) == (p == 32)
  {
    forall p: nat | p < 64
      ensures BlockBit(LOW, p) == (p == 0) && BlockBit(HIGH, p) == (p == 32)
    {
      ZeroBit(p % 8);
      if p % 8 > 0 {
        ZeroBit(p % 8 - 1);
      }
    }
  }

  lemma SingleBit(start: nat, step: nat, s: Block, b: nat, q: nat)
    requires b < 64 && forall p: nat | p < 64 :: BlockBit(s, p) == (p == b)
    ensures SetBelow(start, step, s, 64, q) == (Target(start, step, b) == q)
  {}

  // ----- Mixing -----

  // The partner of octet i, and the factor octet i is multiplied by.
  function MixIndex(alg: nat, i: nat): (j: nat)
    requires alg < 3 && i < 8
    ensures j < 8
  {
    var d := if alg == 0 then 4 else if alg == 1 then 2 else 1;
    if (i / d) % 2 == 0 then i + d else i - d
  }

  function MixFactor(alg: nat, i: nat): nat
    requires alg < 3 && i < 8
  {
    if MixIndex(alg, i) > i then 2 else 3
  }

  // The partner plus f times the octet itself, modulo 256.
  function Blend(f: nat, x: octet, y: octet): octet {
    if f == 2 then (y + 2 * x) % 256 else (y + 3 * x) % 256
  }

  // The pair (x, y) goes to (y + 2x, x + 3y), a matrix of determinant 5; 205 is 1/5 modulo 256.
  function Unblend(f: nat, x: octet, y: octet): octet {
    if f == 2 then (205 * (3 * x - y)) % 256 else (205 * (2 * x - y)) % 256
  }

  function Mix(alg: nat, s: Block): Block
    requires alg < 3
  {
    seq(8, i requires 0 <= i < 8 => Blend(MixFactor(alg, i), s[i], s[MixIndex(alg, i)]))
  }

  function UnMix(alg: nat, s: Block): Block
    requires alg < 3
  {
    seq(8, i requires 0 <= i < 8 => Unblend(MixFactor(alg, i), s[i], s[MixIndex(alg, i)]))
  }

  lemma PairInverse(f: nat, x: octet, y: octet)
    requires f == 2 || f == 3
    ensures Unblend(f, Blend(f, x, y), Blend(5 - f, y, x)) == x
    ensures Blend(f, Unblend(f, x, y), Unblend(5 - f, y, x)) == x
  {
    Reduce(f, x, y);
    Restore(f, x, y);
  }

  lemma Reduce(f: nat, x: octet, y: octet)
    requires f == 2 || f == 3
    ensures Unblend(f, Blend(f, x, y), Blend(5 - f, y, x)) == x
  {
    if f == 2 {
      var i, j := (y + 2 * x) / 256, (x + 3 * y) / 256;
      Remainder256(205 * (3 * (y + 2 * x - 256 * i) - (x + 3 * y - 256 * j)), 4 * x - 615 * i + 205 * j, x);
    } else {
      var i, j := (y + 3 * x) / 256, (x + 2 * y) / 256;
      Remainder256(205 * (2 * (y + 3 * x - 256 * i) - (x + 2 * y - 256 * j)), 4 * x - 410 * i + 205 * j, x);
    }
  }

  lemma Restore(f: nat, x: octet, y: octet)
    requires f == 2 || f == 3
    ensures Blend(f, Unblend(f, x, y), Unblend(5 - f, y, x)) == x
  {
    if f == 2 {
      var i, j := 205 * (3 * x - y) / 256, 205 * (2 * y - x) / 256;
      Remainder256(205 * (2 * y - x) - 256 * j + 2 * (205 * (3 * x - y) - 256 * i), 4 * x - j - 2 * i, x);
    } else {
      var i, j := 205 * (2 * x - y) / 256, 205 * (3 * y - x) / 256;
      Remainder256(205 * (3 * y - x) - 256 * j + 3 * (205 * (2 * x - y) - 256 * i), 4 * x - j - 3 * i, x);
    }
  }

  lemma PartnerTables(alg: nat, i: nat)
    requires alg < 3 && i < 8
    ensures MixIndex(alg, i) < 8 && MixIndex(alg, MixIndex(alg, i)) == i
    ensures MixFactor(alg, i) == 2 || MixFactor(alg, i) == 3
    ensures MixFactor(alg, MixIndex(alg, i)) == 5 - MixFactor(alg, i)
  {}

  lemma MixOctet(alg: nat, s: Block, i: nat)
    requires alg < 3 && i < 8
    ensures UnMix(alg, Mix(alg, s))[i] == s[i]
    ensures Mix(alg, UnMix(alg, s))[i] == s[i]
  {
    PartnerTables(alg, i);
    PairInverse(MixFactor(alg, i), s[i], s[MixIndex(alg, i)]);
    hide Blend, Unblend, MixIndex, MixFactor;
  }

  lemma MixBijection(alg: nat, s: Block)
    requires alg < 3
    ensures UnMix(alg, Mix(alg, s)) == s && Mix(alg, UnMix(alg, s)) == s
  {
    forall i: nat | i < 8
      ensures UnMix(alg, Mix(alg, s))[i] == s[i] && Mix(alg, UnMix(alg, s))[i] == s[i]
    {
      MixOctet(alg, s, i);
    }
  }

  // How far apart the octets of a pair are: the first mixing pairs octets four apart, the last neighbours.
  function Distance(alg: nat): nat {
    match alg case 0 => 4 case 1 => 2 case _ => 1
  }

  // Of two octets x and y that are paired, the first becomes y + 2x and the second x + 3y.
  lemma MixPairs(alg: nat, s: Block, i: nat)
    requires alg < 3 && i < 8 && i / Distance(alg) % 2 == 0
    ensures i + Distance(alg) < 8
    ensures var j := i + Distance(alg); var x: int, y: int := s[i], s[j];
            Mix(alg, s)[i] == (y + 2 * x) % 256 && Mix(alg, s)[j] == (x + 3 * y) % 256
  {
    PairTables(alg, i);
    hide MixFactor, MixIndex, Distance;
  }

  lemma PairTables(alg: nat, i: nat)
    requires alg < 3 && i < 8 && i / Distance(alg) % 2 == 0
    ensures var j := i + Distance(alg);
            && j < 8 && MixIndex(alg, i) == j && MixIndex(alg, j) == i && MixFactor(alg, i) == 2 && MixFactor(alg, j) == 3
  {
    match i { case 0 => case 1 => case 2 => case 3 => case 4 => case 5 => case 6 => }
  }

  predicate PairsMixed(alg: nat, s: Block, r: Block) {
    forall i: nat | i < 8 && i / Distance(alg) % 2 == 0 ::
      && i + Distance(alg) < 8
      && var x: int, y: int := s[i], s[i + Distance(alg)];
         r[i] == (y + 2 * x) % 256 && r[i + Distance(alg)] == (x + 3 * y) % 256
  }

  lemma MixedPairs(alg: nat, s: Block)
    requires alg < 3
    ensures PairsMixed(alg, s, Mix(alg, s))
  {
    forall i: nat | i < 8 && i / Distance(alg) % 2 == 0
      ensures i + Distance(alg) < 8
      ensures var x: int, y: int := s[i], s[i + Distance(alg)];
              Mix(alg, s)[i] == (y + 2 * x) % 256 && Mix(alg, s)[i + Distance(alg)] == (x + 3 * y) % 256
    {
      hide Mix, Distance;
      MixPairs(alg, s, i);
    }
  }

  method MixInPlace(alg: nat, key: array<octet>)
    requires alg < 3 && key.Length == 8
    modifies key
    ensures key[..] == Mix(alg, old(key[..]))
    ensures PairsMixed(alg, old(key[..]), key[..])
  {
    hide Blend, MixIndex, MixFactor, PairsMixed;
    var copy: Block := key[..];
    var i := 0;
    while i < 8
      invariant 0 <= i <= 8
      invariant forall k | 0 <= k < i :: key[k] == Mix(alg, copy)[k]
    {
      PartnerTables(alg, i);
      key[i] := Blend(MixFactor(alg, i), copy[i], copy[MixIndex(alg, i)]);
      i := i + 1;
    }
    MixedPairs(alg, copy);
  }

  // ----- Substitution -----

  function SubOctet(b: octet): octet {
    DsaaSBox.Bijection(b);
    DsaaSBox.Forward(b)
  }

  function UnSubOctet(b: octet): octet {
    DsaaSBox.Bijection(b);
    DsaaSBox.Backward(b)
  }

  function Sub(s: Block, t: Block): Block {
    seq(8, i requires 0 <= i < 8 => SubOctet(XorOctet(s[i], t[i])))
  }

  function UnSub(s: Block, t: Block): Block {
    seq(8, i requires 0 <= i < 8 => XorOctet(UnSubOctet(s[i]), t[i]))
  }

  lemma KeyedOctet(a: octet, k: octet)
    ensures XorOctet(UnSubOctet(SubOctet(XorOctet(a, k))), k) == a
    ensures SubOctet(XorOctet(XorOctet(UnSubOctet(a), k), k)) == a
  {
    DsaaSBox.Bijection(XorOctet(a, k));
    DsaaSBox.Bijection(a);
    XorTwice(a, k);
    XorTwice(UnSubOctet(a), k);
    hide DsaaSBox.Forward, DsaaSBox.Backward, Xor;
  }

  lemma SubBijection(s: Block, t: Block)
    ensures UnSub(Sub(s, t), t) == s && Sub(UnSub(s, t), t) == s
  {
    hide SubOctet, UnSubOctet, XorOctet;
    forall i: nat | i < 8
      ensures UnSub(Sub(s, t), t)[i] == s[i] && Sub(UnSub(s, t), t)[i] == s[i]
    {
      KeyedOctet(s[i], t[i]);
    }
  }

  method SubInPlace(s: array<octet>, t: array<octet>)
    requires s.Length == 8 && t.Length == 8 && s != t
    modifies s
    ensures s[..] == Sub(old(s[..]), t[..])
  {
    hide SubOctet, XorOctet;
    var i := 0;
    while i < 8
      invariant 0 <= i <= 8
      invariant forall k | 0 <= k < i :: s[k] == SubOctet(XorOctet(old(s[k]), t[k]))
      invariant forall k | i <= k < 8 :: s[k] == old(s[k])
    {
      s[i] := SubOctet(XorOctet(s[i], t[i]));
      i := i + 1;
    }
  }

  // ----- Six rounds -----

  // The pair of blocks before round r: t has been permuted r times, s has gone through r rounds.
  datatype Halves = Halves(t: Block, s: Block)

  function Round(start: nat, step: nat, alg: nat, h: Halves): Halves
    requires alg < 3
  {
    var t := BitPerm(start, step, h.t);
    Halves(t, KeyedMix(alg, t, h.s))
  }

  function KeyedMix(alg: nat, t: Block, s: Block): Block
    requires alg < 3
  {
    Mix(alg, Sub(s, t))
  }

  function UnKeyedMix(alg: nat, t: Block, s: Block): Block
    requires alg < 3
  {
    UnSub(UnMix(alg, s), t)
  }

  lemma KeyedMixBijection(alg: nat, t: Block, s: Block)
    requires alg < 3
    ensures UnKeyedMix(alg, t, KeyedMix(alg, t, s)) == s
    ensures KeyedMix(alg, t, UnKeyedMix(alg, t, s)) == s
  {
    MixBijection(alg, Sub(s, t));
    SubBijection(s, t);
    SubBijection(UnMix(alg, s), t);
    MixBijection(alg, s);
  }

  function Rounds(start: nat, step: nat, n: nat, h: Halves): Halves
  {
    if n == 0 then h else Round(start, step, (n - 1) % 3, Rounds(start, step, n - 1, h))
  }

  function Cassable(start: nat, step: nat, t: Block, s: Block): Halves {
    Rounds(start, step, 6, Halves(t, s))
  }

  // The key half after n permutations.
  function Schedule(start: nat, step: nat, n: nat, t: Block): Block {
    if n == 0 then t else BitPerm(start, step, Schedule(start, step, n - 1, t))
  }

  // Undo rounds n, n - 1, ..., 1 on s, given the key half t from before round 1.
  function UnRounds(start: nat, step: nat, n: nat, t: Block, s: Block): Block
  {
    if n == 0 then s
    else UnRounds(start, step, n - 1, t, UnKeyedMix((n - 1) % 3, Schedule(start, step, n, t), s))
  }

  lemma {:induction false} RoundsSchedule(start: nat, step: nat, n: nat, h: Halves)
    ensures Rounds(start, step, n, h).t == Schedule(start, step, n, h.t)
  {
    hide BitPerm, KeyedMix, UnKeyedMix, UnBitPerm;
    if n > 0 {
      RoundsSchedule(start, step, n - 1, h);
    }
  }

  lemma {:induction false} RoundsUndone(start: nat, step: nat, n: nat, t: Block, s: Block)
    ensures UnRounds(start, step, n, t, Rounds(start, step, n, Halves(t, s)).s) == s
  {
    hide BitPerm, KeyedMix, UnKeyedMix, UnBitPerm;
    if n > 0 {
      var h := Rounds(start, step, n - 1, Halves(t, s));
      RoundsSchedule(start, step, n - 1, Halves(t, s));
      var tn := Schedule(start, step, n, t);
      KeyedMixBijection((n - 1) % 3, tn, h.s);
      RoundsUndone(start, step, n - 1, t, s);
    }
  }

  lemma {:induction false} RoundsRedone(start: nat, step: nat, n: nat, t: Block, s: Block)
    ensures Rounds(start, step, n, Halves(t, UnRounds(start, step, n, t, s))).s == s
  {
    hide BitPerm, KeyedMix, UnKeyedMix, UnBitPerm;
    if n > 0 {
      var tn := Schedule(start, step, n, t);
      var before := UnKeyedMix((n - 1) % 3, tn, s);
      RoundsRedone(start, step, n - 1, t, before);
      RoundsSchedule(start, step, n - 1, Halves(t, UnRounds(start, step, n - 1, t, before)));
      KeyedMixBijection((n - 1) % 3, tn, s);
    }
  }

  // For any fixed key half, whatever the step, cassable is a bijection on the other half.
  lemma CassableBijection(start: nat, step: nat, t: Block, s: Block)
    ensures UnRounds(start, step, 6, t, Cassable(start, step, t, s).s) == s
    ensures Cassable(start, step, t, UnRounds(start, step, 6, t, s)).s == s
  {
    hide BitPerm, KeyedMix, UnKeyedMix, UnBitPerm;
    RoundsUndone(start, step, 6, t, s);
    RoundsRedone(start, step, 6, t, s);
  }

  function UnSchedule(start: nat, step: nat, n: nat, t: Block): Block {
    if n == 0 then t else UnSchedule(start, step, n - 1, UnBitPerm(start, step, t))
  }

  lemma {:induction false} ScheduleUndone(start: nat, step: nat, n: nat, t: Block)
    requires start < 64 && step % 2 == 1
    ensures UnSchedule(start, step, n, Schedule(start, step, n, t)) == t
  {
    hide BitPerm, KeyedMix, UnKeyedMix, UnBitPerm;
    if n > 0 {
      BitPermBijection(start, step, Schedule(start, step, n - 1, t));
      ScheduleUndone(start, step, n - 1, t);
    }
  }

  // With an odd step nothing is lost of either half: both inputs come back from the two outputs.
  lemma CassableRecoversBothHalves(start: nat, step: nat, t: Block, s: Block)
    requires start < 64 && step % 2 == 1
    ensures var out := Cassable(start, step, t, s);
            var t0 := UnSchedule(start, step, 6, out.t);
            t0 == t && UnRounds(start, step, 6, t0, out.s) == s
  {
    hide BitPerm, KeyedMix, UnKeyedMix, UnBitPerm;
    RoundsSchedule(start, step, 6, Halves(t, s));
    ScheduleUndone(start, step, 6, t);
    CassableBijection(start, step, t, s);
  }

  method CassableInPlace(start: nat, step: nat, t: array<octet>, s: array<octet>)
    requires start < 64 && step < 256 && t.Length == 8 && s.Length == 8 && s != t
    modifies t, s
    ensures Halves(t[..], s[..]) == Cassable(start, step, old(t[..]), old(s[..]))
  {
    hide BitPerm, KeyedMix, UnKeyedMix, UnBitPerm;
    ghost var h := Halves(t[..], s[..]);
    var i := 0;
    while i < 2
      invariant 0 <= i <= 2
      invariant Halves(t[..], s[..]) == Rounds(start, step, 3 * i, h)
    {
      RoundInPlace(start, step, 0, t, s);
      assert Halves(t[..], s[..]) == Rounds(start, step, 3 * i + 1, h);
      RoundInPlace(start, step, 1, t, s);
      assert Halves(t[..], s[..]) == Rounds(start, step, 3 * i + 2, h);
      RoundInPlace(start, step, 2, t, s);
      i := i + 1;
    }
  }

  method RoundInPlace(start: nat, step: nat, alg: nat, t: array<octet>, s: array<octet>)
    requires start < 64 && step < 256 && alg < 3 && t.Length == 8 && s.Length == 8 && s != t
    modifies t, s
    ensures Halves(t[..], s[..]) == Round(start, step, alg, Halves(old(t[..]), old(s[..])))
  {
    BitPermInPlace(start, step, t);
    SubInPlace(s, t);
    MixInPlace(alg, s);
  }
}
