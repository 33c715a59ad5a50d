// What the mixings of the DSAA block step compute, octet by octet, and how far a changed octet spreads.
module DsaaDiffusion {
  import DsaaSBox
  import opened Bits
  import opened Common
  import opened Dsaa

  function Partner(alg: nat, i: nat): (j: nat)
    requires i < 8
    ensures j < 8 && j != i
  {
    if i / Distance(alg) % 2 == 0 then i + Distance(alg) else i - Distance(alg)
  }

  function FactorAt(alg: nat, i: nat): int {
    if i / Distance(alg) % 2 == 0 then 2 else 3
  }

  lemma Partners(alg: nat, i: nat)
    requires alg < 3 && i < 8 && i / Distance(alg) % 2 == 0
    ensures var j := i + Distance(alg);
            j < 8 && Partner(alg, i) == j && Partner(alg, j) == i && FactorAt(alg, i) == 2 && FactorAt(alg, j) == 3
  {
    match i { case 0 => case 1 => case 2 => case 3 => case 4 => case 5 => case 6 => }
  }

  // ----- Three mixings -----

  // What octet j counts for in octet i after all three: a two or a three for every distance at which they are on
  // the same side, a three on the far side.
  function Coefficient(i: nat, j: nat): nat {
    Part(i / 4 % 2, j / 4 % 2) * Part(i / 2 % 2, j / 2 % 2) * Part(i % 2, j % 2)
  }

  function Part(a: nat, b: nat): nat {
    if a != b then 1 else if a == 0 then 2 else 3
  }

  // The octets without wrapping.
  function MixedInts(alg: nat, x: seq<int>): (y: seq<int>)
    requires |x| == 8
    ensures |y| == 8
  {
    match alg
    case 0 => [x[4] + 2 * x[0], x[5] + 2 * x[1], x[6] + 2 * x[2], x[7] + 2 * x[3], x[0] + 3 * x[4], x[1] + 3 * x[5], x[2] + 3 * x[6], x[3] + 3 * x[7]]
    case 1 => [x[2] + 2 * x[0], x[3] + 2 * x[1], x[0] + 3 * x[2], x[1] + 3 * x[3], x[6] + 2 * x[4], x[7] + 2 * x[5], x[4] + 3 * x[6], x[5] + 3 * x[7]]
    case _ => [x[1] + 2 * x[0], x[0] + 3 * x[1], x[3] + 2 * x[2], x[2] + 3 * x[3], x[5] + 2 * x[4], x[4] + 3 * x[5], x[7] + 2 * x[6], x[6] + 3 * x[7]]
  }

  lemma WrapOnce(a: int, b: int, f: int)
    requires f == 2 || f == 3
    ensures (a % 256 + f * (b % 256)) % 256 == (a + f * b) % 256
  {
    var x := a % 256 + f * (b % 256);
    if f == 2 {
      assert a + 2 * b == x + 256 * (a / 256 + 2 * (b / 256));
      WrapAway(x, a / 256 + 2 * (b / 256));
    } else {
      assert a + 3 * b == x + 256 * (a / 256 + 3 * (b / 256));
      WrapAway(x, a / 256 + 3 * (b / 256));
    }
  }

  lemma WrapAway(x: int, k: int)
    ensures x % 256 == (x + 256 * k) % 256
  {}

  lemma MixedInt(alg: nat, x: seq<int>, i: nat)
    requires alg < 3 && |x| == 8 && i < 8
    ensures MixedInts(alg, x)[i] == x[Partner(alg, i)] + FactorAt(alg, i) * x[i]
  {
    var lower := if i / Distance(alg) % 2 == 0 then i else i - Distance(alg);
    LowerOfPair(alg, i);
    Partners(alg, lower);
    hide Partner, FactorAt;
    match lower { case 0 => case 1 => case 2 => case 3 => case 4 => case 5 => case 6 => }
  }

  lemma MixOne(alg: nat, s: Block, i: nat)
    requires alg < 3 && i < 8
    ensures var x: int, y: int := s[i], s[Partner(alg, i)]; Mix(alg, s)[i] == (y + FactorAt(alg, i) * x) % 256
  {
    LowerOfPair(alg, i);
    var lower := if i / Distance(alg) % 2 == 0 then i else Partner(alg, i);
    MixPairs(alg, s, lower);
    Partners(alg, lower);
    hide Mix, Partner, FactorAt;
  }

  lemma LowerOfPair(alg: nat, i: nat)
    requires alg < 3 && i < 8
    ensures i / Distance(alg) % 2 == 0 || (Partner(alg, i) / Distance(alg) % 2 == 0 && Partner(alg, i) + Distance(alg) == i)
  {
    match i { case 0 => case 1 => case 2 => case 3 => case 4 => case 5 => case 6 => case 7 => }
  }

  lemma PartnersFollow(j: nat)
    requires j < 8
    ensures Partner(0, (j + 4) % 8) == j && (j + 4) % 8 % 4 == j % 4
    ensures var i := Partner(1, (j + 4) % 8); Partner(1, i) == (j + 4) % 8 && i % 4 != j % 4 && i % 2 == j % 2
    ensures Partner(2, 7 - j) == Partner(1, (j + 4) % 8) && (7 - j) % 2 != j % 2
    ensures Partner(0, j) % 4 == j % 4 && Partner(1, j) % 2 == j % 2
  {
    match j { case 0 => case 1 => case 2 => case 3 => case 4 => case 5 => case 6 => case 7 => }
  }

  predicate Wraps(s: Block, x: seq<int>)
    requires |x| == 8
  {
    forall i | 0 <= i < 8 :: s[i] == x[i] % 256
  }

  lemma MixWraps(alg: nat, s: Block, x: seq<int>)
    requires alg < 3 && |x| == 8 && Wraps(s, x)
    ensures Wraps(Mix(alg, s), MixedInts(alg, x))
  {
    forall i: nat | i < 8
      ensures Mix(alg, s)[i] == MixedInts(alg, x)[i] % 256
    {
      MixOne(alg, s, i);
      MixedInt(alg, x, i);
      FactorRange(alg, i);
      WrapOnce(x[Partner(alg, i)], x[i], FactorAt(alg, i));
      hide Mix, Partner, FactorAt, MixedInts;
    }
  }

  lemma FactorRange(alg: nat, i: nat)
    ensures FactorAt(alg, i) == 2 || FactorAt(alg, i) == 3
  {}

  function Ints(s: Block): (x: seq<int>)
    ensures |x| == 8
  {
    [s[0], s[1], s[2], s[3], s[4], s[5], s[6], s[7]]
  }

  function Weighed(i: nat, x: seq<int>): int
    requires |x| == 8
  {
    Coefficient(i, 0) * x[0] + Coefficient(i, 1) * x[1] + Coefficient(i, 2) * x[2] + Coefficient(i, 3) * x[3]
    + Coefficient(i, 4) * x[4] + Coefficient(i, 5) * x[5] + Coefficient(i, 6) * x[6] + Coefficient(i, 7) * x[7]
  }

  // All three mixings: every octet depends on every other.
  lemma ThreeMixings(s: Block, i: nat)
    requires i < 8
    ensures Mix(2, Mix(1, Mix(0, s)))[i] == Weighed(i, Ints(s)) % 256
  {
    hide Mix, MixedInts, Weighed;
    var x := Ints(s);
    assert Wraps(s, x);
    MixWraps(0, s, x);
    MixWraps(1, Mix(0, s), MixedInts(0, x));
    MixWraps(2, Mix(1, Mix(0, s)), MixedInts(1, MixedInts(0, x)));
    ThreeInts(x, i);
  }

  lemma ThreeInts(x: seq<int>, i: nat)
    requires |x| == 8 && i < 8
    ensures MixedInts(2, MixedInts(1, MixedInts(0, x)))[i] == Weighed(i, x)
  {
    CoefficientRow(i);
    hide Coefficient;
    var y := MixedInts(0, x);
    var z := MixedInts(1, y);
    match i { case 0 => case 1 => case 2 => case 3 => case 4 => case 5 => case 6 => case 7 => }
  }

  lemma CoefficientRow(i: nat)
    requires i < 8
    ensures [Coefficient(i, 0), Coefficient(i, 1), Coefficient(i, 2), Coefficient(i, 3),
             Coefficient(i, 4), Coefficient(i, 5), Coefficient(i, 6), Coefficient(i, 7)] ==
            match i
            case 0 => [8, 4, 4, 2, 4, 2, 2, 1]
            case 1 => [4, 12, 2, 6, 2, 6, 1, 3]
            case 2 => [4, 2, 12, 6, 2, 1, 6, 3]
            case 3 => [2, 6, 6, 18, 1, 3, 3, 9]
            case 4 => [4, 2, 2, 1, 12, 6, 6, 3]
            case 5 => [2, 6, 1, 3, 6, 18, 3, 9]
            case 6 => [2, 1, 6, 3, 6, 3, 18, 9]
            case _ => [1, 3, 3, 9, 3, 9, 9, 27]
  {
    match i { case 0 => case 1 => case 2 => case 3 => case 4 => case 5 => case 6 => case 7 => }
  }

  // So without the substitutions between them their order would not matter.
  lemma MixingsCommute(a: nat, b: nat, s: Block)
    requires a < b < 3
    ensures Mix(a, Mix(b, s)) == Mix(b, Mix(a, s))
  {
    hide Mix, MixedInts;
    var x := Ints(s);
    assert Wraps(s, x);
    MixWraps(a, s, x);
    MixWraps(b, s, x);
    MixWraps(b, Mix(a, s), MixedInts(a, x));
    MixWraps(a, Mix(b, s), MixedInts(b, x));
    TwoInts(a, b, x);
  }

  lemma TwoInts(a: nat, b: nat, x: seq<int>)
    requires a < b < 3 && |x| == 8
    ensures MixedInts(a, MixedInts(b, x)) == MixedInts(b, MixedInts(a, x))
  {
    var y, z := MixedInts(a, x), MixedInts(b, x);
    if a == 1 {
    } else if b == 1 {
    } else {
    }
  }

  // ----- Rounds -----

  // The octet of a block that round n mixes: substituted under the key half as permuted so far.
  function Substituted(start: nat, step: nat, n: nat, h: Halves, i: nat): octet
    requires n > 0 && i < 8
  {
    SubOctet(XorOctet(Rounds(start, step, n - 1, h).s[i], Schedule(start, step, n, h.t)[i]))
  }

  // One round: rounds 1 and 4 mix octets four apart, 2 and 5 two apart, 3 and 6 neighbours.
  lemma RoundPairs(start: nat, step: nat, n: nat, h: Halves, i: nat)
    requires n > 0 && i < 8 && i / Distance((n - 1) % 3) % 2 == 0
    ensures var j := i + Distance((n - 1) % 3); var out := Rounds(start, step, n, h).s;
            j < 8 &&
            var x: int, y: int := Substituted(start, step, n, h, i), Substituted(start, step, n, h, j);
            out[i] == (y + 2 * x) % 256 && out[j] == (x + 3 * y) % 256
  {
    RoundIs(start, step, n, h);
    var alg := (n - 1) % 3;
    var s, k := Rounds(start, step, n - 1, h).s, Schedule(start, step, n, h.t);
    LowerFits(alg, i);
    SubbedAt(s, k, i);
    SubbedAt(s, k, i + Distance(alg));
    MixPairs(alg, Sub(s, k), i);
    hide *;
    SubstitutedIs(start, step, n, h, i);
    SubstitutedIs(start, step, n, h, i + Distance(alg));
  }

  lemma LowerFits(alg: nat, i: nat)
    requires alg < 3 && i < 8 && i / Distance(alg) % 2 == 0
    ensures i + Distance(alg) < 8
  {
    Partners(alg, i);
  }

  lemma SubstitutedIs(start: nat, step: nat, n: nat, h: Halves, i: nat)
    requires n > 0 && i < 8
    ensures Substituted(start, step, n, h, i) ==
            SubOctet(XorOctet(Rounds(start, step, n - 1, h).s[i], Schedule(start, step, n, h.t)[i]))
  {
    hide Rounds, Schedule, SubOctet, XorOctet;
  }

  lemma RoundIs(start: nat, step: nat, n: nat, h: Halves)
    requires n > 0
    ensures Rounds(start, step, n, h).s == Mix((n - 1) % 3, Sub(Rounds(start, step, n - 1, h).s, Schedule(start, step, n, h.t)))
  {
    RoundsSchedule(start, step, n, h);
    hide BitPerm, Mix, Sub, Schedule;
  }

  lemma SubbedAt(s: Block, t: Block, i: nat)
    requires i < 8
    ensures Sub(s, t)[i] == SubOctet(XorOctet(s[i], t[i]))
  {}

  lemma SubInjective(a: octet, b: octet, k: octet)
    ensures SubOctet(XorOctet(a, k)) == SubOctet(XorOctet(b, k)) <==> a == b
  {
    KeyedOctet(a, k);
    KeyedOctet(b, k);
    hide SubOctet, UnSubOctet, XorOctet;
  }

  // An octet is the same after a round if it and its partner were, and differs if only the partner did.
  lemma RoundSpreads(alg: nat, t: Block, a: Block, b: Block, i: nat)
    requires alg < 3 && i < 8 && a[i] == b[i]
    ensures KeyedMix(alg, t, a)[i] == KeyedMix(alg, t, b)[i] <==> a[Partner(alg, i)] == b[Partner(alg, i)]
  {
    SubsAgree(a, b, t, i);
    var j := Partner(alg, i);
    MixOne(alg, Sub(a, t), i);
    MixOne(alg, Sub(b, t), i);
    SubsAgree(a, b, t, j);
    hide Sub, Mix, Partner, FactorAt;
    SameSum(Sub(a, t)[j], Sub(b, t)[j], FactorAt(alg, i) * (Sub(a, t)[i] as int));
  }

  lemma SubsAgree(a: Block, b: Block, t: Block, i: nat)
    requires i < 8
    ensures Sub(a, t)[i] == Sub(b, t)[i] <==> a[i] == b[i]
  {
    SubInjective(a[i], b[i], t[i]);
    hide SubOctet, XorOctet;
  }

  lemma SameSum(x: octet, y: octet, z: int)
    ensures ((x as int) + z) % 256 == ((y as int) + z) % 256 <==> x == y
  {}

  predicate DifferAt(a: Block, b: Block, j: nat)
    requires j < 8
  {
    a[j] != b[j] && forall i | 0 <= i < 8 && i != j :: a[i] == b[i]
  }

  // Two blocks that differ in octet j, under the same key half. After one round they differ in the octet four apart
  // and in no other but j; after two in the one that is two from there, and only in octets an even distance from j;
  // after three they differ in octet 7 - j, at the mirrored place.
  lemma ChangeSpreads(start: nat, step: nat, t: Block, a: Block, b: Block, j: nat)
    requires j < 8 && DifferAt(a, b, j)
    ensures var p, q := Rounds(start, step, 1, Halves(t, a)).s, Rounds(start, step, 1, Halves(t, b)).s;
            p[(j + 4) % 8] != q[(j + 4) % 8] && forall i | 0 <= i < 8 && i % 4 != j % 4 :: p[i] == q[i]
    ensures var p, q := Rounds(start, step, 2, Halves(t, a)).s, Rounds(start, step, 2, Halves(t, b)).s;
            var i := Partner(1, (j + 4) % 8);
            p[i] != q[i] && forall i | 0 <= i < 8 && i % 2 != j % 2 :: p[i] == q[i]
    ensures Rounds(start, step, 3, Halves(t, a)).s[7 - j] != Rounds(start, step, 3, Halves(t, b)).s[7 - j]
  {
    var t1, t2, t3 := Schedule(start, step, 1, t), Schedule(start, step, 2, t), Schedule(start, step, 3, t);
    RoundsAre(start, step, t, a);
    RoundsAre(start, step, t, b);
    hide Rounds, Schedule, KeyedMix;
    var a1, b1 := KeyedMix(0, t1, a), KeyedMix(0, t1, b);
    FirstSpread(t1, a, b, j);
    SecondSpread(t2, a1, b1, j);
    var a2, b2 := KeyedMix(1, t2, a1), KeyedMix(1, t2, b1);
    ThirdSpread(t3, a2, b2, j);
  }

  lemma RoundsAre(start: nat, step: nat, t: Block, s: Block)
    ensures var s1 := KeyedMix(0, Schedule(start, step, 1, t), s);
            var s2 := KeyedMix(1, Schedule(start, step, 2, t), s1);
            && Rounds(start, step, 1, Halves(t, s)).s == s1 && Rounds(start, step, 2, Halves(t, s)).s == s2
            && Rounds(start, step, 3, Halves(t, s)).s == KeyedMix(2, Schedule(start, step, 3, t), s2)
  {
    hide BitPerm, KeyedMix;
  }

  lemma FirstSpread(t: Block, a: Block, b: Block, j: nat)
    requires j < 8 && DifferAt(a, b, j)
    ensures var p, q := KeyedMix(0, t, a), KeyedMix(0, t, b);
            p[(j + 4) % 8] != q[(j + 4) % 8] && forall i | 0 <= i < 8 && i % 4 != j % 4 :: p[i] == q[i]
  {
    PartnersFollow(j);
    hide Partner, KeyedMix;
    RoundSpreads(0, t, a, b, (j + 4) % 8);
    forall i: nat | i < 8 && i % 4 != j % 4
      ensures KeyedMix(0, t, a)[i] == KeyedMix(0, t, b)[i]
    {
      PartnersFollow(i);
      RoundSpreads(0, t, a, b, i);
    }
  }

  lemma SecondSpread(t: Block, a: Block, b: Block, j: nat)
    requires j < 8 && a[(j + 4) % 8] != b[(j + 4) % 8] && forall i | 0 <= i < 8 && i % 4 != j % 4 :: a[i] == b[i]
    ensures var p, q := KeyedMix(1, t, a), KeyedMix(1, t, b); var i := Partner(1, (j + 4) % 8);
            p[i] != q[i] && forall i | 0 <= i < 8 && i % 2 != j % 2 :: p[i] == q[i]
  {
    PartnersFollow(j);
    hide Partner, KeyedMix;
    RoundSpreads(1, t, a, b, Partner(1, (j + 4) % 8));
    forall i: nat | i < 8 && i % 2 != j % 2
      ensures KeyedMix(1, t, a)[i] == KeyedMix(1, t, b)[i]
    {
      PartnersFollow(i);
      assert i % 4 != j % 4 && Partner(1, i) % 4 != j % 4 by {
        hide *;
        Parity(i, j);
        Parity(Partner(1, i), j);
      }
      RoundSpreads(1, t, a, b, i);
    }
  }

  lemma Parity(i: nat, j: nat)
    requires i % 2 != j % 2
    ensures i % 4 != j % 4
  {
    LowestBit(i);
    LowestBit(j);
  }

  lemma LowestBit(i: nat)
    ensures i % 4 % 2 == i % 2
  {}

  lemma ThirdSpread(t: Block, a: Block, b: Block, j: nat)
    requires j < 8 && (forall i | 0 <= i < 8 && i % 2 != j % 2 :: a[i] == b[i])
    requires var i := Partner(1, (j + 4) % 8); a[i] != b[i]
    ensures KeyedMix(2, t, a)[7 - j] != KeyedMix(2, t, b)[7 - j]
  {
    PartnersFollow(j);
    hide Partner, KeyedMix;
    RoundSpreads(2, t, a, b, 7 - j);
  }
}
