// G.711 compression: every sample goes to the level whose interval holds it, so compression keeps the order of
// samples, and what the decoder converts is within half a step of four times its signal.
module Companding {
  import opened Bits
  import opened Common
  import opened G711
  import G72x
  import Tandem

  // ----- A-law -----

  // The distance between neighbouring levels around a magnitude.
  function AlawSpacing(m: int): int
    requires 0 <= m <= 127
  {
    if m < 32 then 16 else Stretch(8, m / 16)
  }

  // Where the interval of a level begins.
  function AlawEdge(m: int): int
    requires 0 <= m <= 127
  {
    AlawValue(m) - AlawSpacing(m) / 2
  }

  lemma AlawEdgesMeet(m: int)
    requires 0 <= m < 127
    ensures AlawEdge(m) + AlawSpacing(m) == AlawEdge(m + 1)
  {
    var s, k := m / 16, m % 16;
    if k < 15 {
      assert (m + 1) / 16 == s && (m + 1) % 16 == k + 1;
    } else {
      assert (m + 1) / 16 == s + 1 && (m + 1) % 16 == 0;
    }
    match s { case 0 => case 1 => case 2 => case 3 => case 4 => case 5 => case 6 => case 7 => }
  }

  lemma AlawSpacingPositive(m: int)
    requires 0 <= m <= 127
    ensures AlawSpacing(m) >= 16
  {
    match m / 16 { case 0 => case 1 => case 2 => case 3 => case 4 => case 5 => case 6 => case 7 => }
  }

  lemma {:induction false} AlawEdgesGrow(m: int, n: int)
    requires 0 <= m < n <= 127
    ensures AlawEdge(m) + AlawSpacing(m) <= AlawEdge(n)
    decreases n - m
  {
    AlawEdgesMeet(m);
    if m + 1 < n {
      AlawEdgesGrow(m + 1, n);
      AlawSpacingPositive(m + 1);
    }
    hide AlawEdge, AlawSpacing;
  }

  // The magnitude is the level whose interval holds the value.
  lemma AlawHolds(x: int)
    requires 0 <= x <= 32767
    ensures var m := AlawMagnitude(x); AlawEdge(m) <= x < AlawEdge(m) + AlawSpacing(m)
  {
    var s := Search(x);
    SearchBounds(x);
    AlawHoldsIn(x, s);
    hide Search, Quantum, AlawEdge, AlawSpacing, SegmentBase;
  }

  lemma SearchBounds(x: int)
    requires 0 <= x <= 32767
    ensures var s := Search(x); s <= 7 && SegmentBase(s) <= x < SegmentBase(s + 1)
  {}

  lemma AlawHoldsIn(x: int, s: int)
    requires 0 <= s <= 7 && SegmentBase(s) <= x < SegmentBase(s + 1)
    ensures var m := 16 * s + Quantum(x, if s < 2 then 1 else s) % 16;
            0 <= m <= 127 && AlawEdge(m) <= x < AlawEdge(m) + AlawSpacing(m)
  {
    var k := Quantum(x, if s < 2 then 1 else s) % 16;
    var m := 16 * s + k;
    assert m / 16 == s && m % 16 == k;
    if s < 4 {
      AlawHoldsLow(x, s, k);
    } else {
      AlawHoldsHigh(x, s, k);
    }
    hide Quantum, SegmentBase, AlawStep, Stretch;
  }

  lemma AlawHoldsLow(x: int, s: int, k: int)
    requires 0 <= s < 4 && SegmentBase(s) <= x < SegmentBase(s + 1) && k == Quantum(x, if s < 2 then 1 else s) % 16
    ensures var q := if s < 2 then 16 else Stretch(8, s); AlawStep(k, s) - q / 2 <= x < AlawStep(k, s) - q / 2 + q
  {
    match s { case 0 => case 1 => case 2 => case 3 => }
  }

  lemma AlawHoldsHigh(x: int, s: int, k: int)
    requires 4 <= s <= 7 && SegmentBase(s) <= x < SegmentBase(s + 1) && k == Quantum(x, s) % 16
    ensures var q := Stretch(8, s); AlawStep(k, s) - q / 2 <= x < AlawStep(k, s) - q / 2 + q
  {
    match s { case 4 => case 5 => case 6 => case 7 => }
  }

  lemma AlawMagnitudeOrder(x: int, y: int)
    requires 0 <= x <= y
    ensures AlawMagnitude(x) <= AlawMagnitude(y)
  {
    if y <= 32767 {
      AlawHolds(x);
      AlawHolds(y);
      var m, n := AlawMagnitude(x), AlawMagnitude(y);
      hide AlawMagnitude, AlawEdge, AlawSpacing;
      if n < m {
        AlawEdgesGrow(n, m);
      }
    }
  }

  // A sample compresses to the magnitude of itself, or of what its complement leaves below eight.
  lemma AlawRankOf(x: int)
    ensures AlawRank(LinearToAlaw(x)) == if x >= 0 then AlawMagnitude(x) else -1 - AlawMagnitude(-x - 8)
  {
    var m := if x >= 0 then AlawMagnitude(x) else AlawMagnitude(-x - 8);
    SignThrough(m);
    XorFits(m, 0x55, 7);
    Tandem.Seven();
    hide AlawMagnitude, Xor, Pow2;
    XorTwice(m, 0x55);
    XorTwice(m + 128, 0x55);
  }

  // Compression keeps the order of samples, except for the seven below zero whose sign is lost.
  lemma AlawCompressionOrder(x: int, y: int)
    requires x <= y && !(-8 < x < 0) && !(-8 < y < 0)
    ensures AlawRank(LinearToAlaw(x)) <= AlawRank(LinearToAlaw(y))
  {
    AlawRankOf(x);
    AlawRankOf(y);
    hide AlawRank, LinearToAlaw, AlawMagnitude;
    if x >= 0 {
      AlawMagnitudeOrder(x, y);
    } else if y < 0 {
      AlawMagnitudeOrder(-y - 8, -x - 8);
    }
  }

  // The level of a code, and the distance of its neighbours.
  function AlawLevelOf(c: octet): (m: int)
    ensures 0 <= m <= 127
  {
    if AlawRank(c) >= 0 then AlawRank(c) else -1 - AlawRank(c)
  }

  // What a sample expands to after compression is at most half a step away; a negative sample's interval lies
  // eight lower.
  lemma AlawAccuracy(x: int)
    requires (0 <= x <= 32767) || (-32775 <= x <= -8)
    ensures var c := LinearToAlaw(x); var q := AlawSpacing(AlawLevelOf(c)); var e := x - AlawToLinear(c);
            if x >= 0 then AlawToLinear(c) > 0 && -q / 2 <= e < q / 2 else AlawToLinear(c) < 0 && -q / 2 <= e + 8 <= q / 2
  {
    var y := if x >= 0 then x else -x - 8;
    AlawRankOf(x);
    AlawByRank(LinearToAlaw(x));
    AlawHolds(y);
    var m := AlawMagnitude(y);
    AlawValuePositive(m);
    EvenSpacing(m);
    hide AlawRank, LinearToAlaw, AlawMagnitude, AlawValue, AlawToLinear, AlawSpacing;
  }

  lemma EvenSpacing(m: int)
    requires 0 <= m <= 127
    ensures AlawSpacing(m) % 2 == 0 && AlawSpacing(m) > 0
  {
    match m / 16 { case 0 => case 1 => case 2 => case 3 => case 4 => case 5 => case 6 => case 7 => }
  }

  // The plain A-law output of a decoder is a level nearest to four times its signal, for every signal within the
  // range of the code.
  lemma AlawOutputNearest(sr: int)
    requires -8192 <= sr <= 8191
    ensures var c := Tandem.AlawOutput(sr); G72x.Abs(4 * sr - AlawToLinear(c)) <= AlawSpacing(AlawLevelOf(c)) / 2
  {
    hide AlawRank, LinearToAlaw, AlawMagnitude, AlawValue, AlawToLinear, AlawSpacing, AlawEdge, AlawLevelOf, AlawOfRank, Tandem.AlawOutput;
    var x := OutputSample(sr);
    AlawOutputIs(sr, x);
    var c := LinearToAlaw(x);
    AlawRankOf(x);
    AlawByRank(c);
    var y := if x >= 0 then x else -x - 8;
    AlawHolds(y);
    var m := AlawMagnitude(y);
    AlawEdgesEven(m);
    EvenSpacing(m);
    Between(AlawEdge(m), AlawSpacing(m), y);
    LevelOfRank(c, m);
    EdgeIs(m);
  }

  lemma EdgeIs(m: int)
    requires 0 <= m <= 127
    ensures AlawEdge(m) == AlawValue(m) - AlawSpacing(m) / 2
  {}

  lemma LevelOfRank(c: octet, m: int)
    requires 0 <= m <= 127 && (AlawRank(c) == m || AlawRank(c) == -1 - m)
    ensures AlawLevelOf(c) == m && AlawOfRank(AlawRank(c)) == if AlawRank(c) >= 0 then AlawValue(m) else -AlawValue(m)
  {
    hide AlawRank, AlawValue;
  }

  // The sample that a signal is converted from.
  lemma OutputSample(sr: int) returns (x: int)
    requires -8192 <= sr <= 8191
    ensures x == sr / 2 * 8 && -32768 <= x <= 32764 && x % 8 == 0 && (-x - 8) % 8 == 0 && (4 * sr == x || 4 * sr == x + 4)
  {
    x := sr / 2 * 8;
  }

  lemma AlawOutputIs(sr: int, x: int)
    requires sr > -32768 && x == sr / 2 * 8
    ensures Tandem.AlawOutput(sr) == LinearToAlaw(x)
  {
    hide LinearToAlaw;
  }

  lemma AlawEdgesEven(m: int)
    requires 0 <= m <= 127
    ensures AlawEdge(m) % 16 == 0 && AlawSpacing(m) % 16 == 0
  {
    match m / 16 { case 0 => case 1 => case 2 => case 3 => case 4 => case 5 => case 6 => case 7 => }
  }

  // Multiples of eight keep a distance of eight from the end of an interval.
  lemma Between(edge: int, q: int, y: int)
    requires edge % 16 == 0 && q % 16 == 0 && y % 8 == 0 && edge <= y < edge + q
    ensures y + 8 <= edge + q
  {}

  // The most negative signal comes out as the smallest negative one; beyond the range of the code the output is
  // its extreme level.
  lemma AlawOutputEnds(sr: int)
    ensures sr <= -32768 ==> AlawToLinear(Tandem.AlawOutput(sr)) == -8
    ensures -32768 < sr < -8192 ==> AlawToLinear(Tandem.AlawOutput(sr)) == -32256
    ensures sr > 8191 ==> AlawToLinear(Tandem.AlawOutput(sr)) == 32256
  {
    var x := FarSample(sr);
    hide *;
    var c := LinearToAlaw(x);
    AlawRankOf(x);
    AlawByRank(c);
    AlawEnds();
    var y := if x >= 0 then x else -x - 8;
    if y == 0 || y >= 32768 {
      AlawTop(y);
      LevelOfRank(c, AlawMagnitude(y));
    }
  }

  // The sample that a signal out of range is converted from.
  lemma FarSample(sr: int) returns (x: int)
    ensures Tandem.AlawOutput(sr) == LinearToAlaw(x)
    ensures (sr <= -32768 ==> x == -8) && (-32768 < sr < -8192 ==> x <= -32776) && (sr > 8191 ==> x >= 32768)
  {
    hide LinearToAlaw;
    x := (if sr <= -32768 then -1 else sr) / 2 * 8;
  }

  lemma AlawTop(y: int)
    requires y >= 0
    ensures (y >= 32768 ==> AlawMagnitude(y) == 127) && (y == 0 ==> AlawMagnitude(y) == 0)
  {}

  lemma AlawEnds()
    ensures AlawValue(0) == 8 && AlawValue(127) == 32256
  {}

  // ----- u-law -----

  function UlawSpacing(m: int): int
    requires 0 <= m <= 127
  {
    Stretch(8, m / 16)
  }

  function UlawEdge(m: int): int
    requires 0 <= m <= 127
  {
    UlawValue(m) - UlawSpacing(m) / 2
  }

  lemma UlawEdgesMeet(m: int)
    requires 0 <= m < 127
    ensures UlawEdge(m) + UlawSpacing(m) == UlawEdge(m + 1) && UlawSpacing(m + 1) >= 8
  {
    var s, k := m / 16, m % 16;
    if k < 15 {
      assert (m + 1) / 16 == s && (m + 1) % 16 == k + 1;
    } else {
      assert (m + 1) / 16 == s + 1 && (m + 1) % 16 == 0;
    }
    match s { case 0 => case 1 => case 2 => case 3 => case 4 => case 5 => case 6 => case 7 => }
  }

  lemma {:induction false} UlawEdgesGrow(m: int, n: int)
    requires 0 <= m < n <= 127
    ensures UlawEdge(m) + UlawSpacing(m) <= UlawEdge(n)
    decreases n - m
  {
    UlawEdgesMeet(m);
    if m + 1 < n {
      UlawEdgesGrow(m + 1, n);
    }
    hide UlawEdge, UlawSpacing;
  }

  lemma UlawHolds(x: int)
    requires 0 <= x <= 32635
    ensures var m := UlawMagnitude(x + 0x84); UlawEdge(m) <= x < UlawEdge(m) + UlawSpacing(m)
  {
    var s := Search(x + 0x84);
    SearchBounds(x + 0x84);
    UlawHoldsIn(x + 0x84, s);
    hide Search, Quantum, UlawEdge, UlawSpacing, SegmentBase;
  }

  lemma UlawHoldsIn(b: int, s: int)
    requires 0 <= s <= 7 && SegmentBase(s) <= b < SegmentBase(s + 1) && b >= 128
    ensures var m := 16 * s + Quantum(b, s) % 16;
            0 <= m <= 127 && UlawEdge(m) <= b - 0x84 < UlawEdge(m) + UlawSpacing(m)
  {
    var k := Quantum(b, s) % 16;
    var m := 16 * s + k;
    assert m / 16 == s && m % 16 == k;
    if s < 4 {
      UlawHoldsLow(b, s, k);
    } else {
      UlawHoldsHigh(b, s, k);
    }
    hide Quantum, SegmentBase, UlawStep, Stretch;
  }

  lemma UlawHoldsLow(b: int, s: int, k: int)
    requires 0 <= s < 4 && SegmentBase(s) <= b < SegmentBase(s + 1) && b >= 128 && k == Quantum(b, s) % 16
    ensures var q := Stretch(8, s); UlawStep(k, s) - q / 2 <= b - 0x84 < UlawStep(k, s) - q / 2 + q
  {
    match s { case 0 => case 1 => case 2 => case 3 => }
  }

  lemma UlawHoldsHigh(b: int, s: int, k: int)
    requires 4 <= s <= 7 && SegmentBase(s) <= b < SegmentBase(s + 1) && k == Quantum(b, s) % 16
    ensures var q := Stretch(8, s); UlawStep(k, s) - q / 2 <= b - 0x84 < UlawStep(k, s) - q / 2 + q
  {
    match s { case 4 => case 5 => case 6 => case 7 => }
  }

  lemma UlawMagnitudeOrder(x: int, y: int)
    requires 0 <= x <= y
    ensures UlawMagnitude(x + 0x84) <= UlawMagnitude(y + 0x84)
  {
    if y <= 32635 {
      UlawHolds(x);
      UlawHolds(y);
      var m, n := UlawMagnitude(x + 0x84), UlawMagnitude(y + 0x84);
      hide UlawMagnitude, UlawEdge, UlawSpacing;
      if n < m {
        UlawEdgesGrow(n, m);
      }
    }
  }

  lemma UlawRankOf(x: int)
    ensures UlawRank(LinearToUlaw(x)) == if x >= 0 then UlawMagnitude(x + 0x84) else -UlawMagnitude(-x + 0x84)
  {
    hide UlawMagnitude;
  }

  // Compression keeps the order of all samples.
  lemma UlawCompressionOrder(x: int, y: int)
    requires x <= y
    ensures UlawRank(LinearToUlaw(x)) <= UlawRank(LinearToUlaw(y))
  {
    UlawRankOf(x);
    UlawRankOf(y);
    hide UlawRank, LinearToUlaw, UlawMagnitude;
    if x >= 0 {
      UlawMagnitudeOrder(x, y);
    } else if y < 0 {
      UlawMagnitudeOrder(-y, -x);
    }
  }

  // What a sample expands to after compression is at most half a step away.
  lemma UlawAccuracy(x: int)
    requires -32635 <= x <= 32635
    ensures var c := LinearToUlaw(x); G72x.Abs(x - UlawToLinear(c)) <= UlawSpacing(G72x.Abs(UlawRank(c))) / 2
  {
    var y := G72x.Abs(x);
    UlawRankOf(x);
    UlawByRank(LinearToUlaw(x));
    UlawHolds(y);
    var m := UlawMagnitude(y + 0x84);
    UlawSpacingEven(m);
    UlawZero();
    hide UlawRank, LinearToUlaw, UlawMagnitude, UlawValue, UlawToLinear, UlawSpacing;
  }

  lemma UlawZero()
    ensures UlawValue(0) == 0
  {}

  lemma UlawSpacingEven(m: int)
    requires 0 <= m <= 127
    ensures UlawSpacing(m) % 2 == 0
  {
    match m / 16 { case 0 => case 1 => case 2 => case 3 => case 4 => case 5 => case 6 => case 7 => }
  }

  // So is the plain u-law output of a decoder from four times its signal, within the range of the code.
  lemma UlawOutputNearest(sr: int)
    requires -8158 <= sr <= 8158
    ensures var c := Tandem.UlawOutput(sr); G72x.Abs(4 * sr - UlawToLinear(c)) <= UlawSpacing(G72x.Abs(UlawRank(c))) / 2
  {
    hide LinearToUlaw, UlawToLinear, UlawSpacing, UlawRank;
    UlawAccuracy(4 * sr);
  }

  // The most negative signal comes out as silence; beyond the range of the code the output is its extreme level.
  lemma UlawOutputEnds(sr: int)
    ensures sr <= -32768 ==> UlawToLinear(Tandem.UlawOutput(sr)) == 0
    ensures -32768 < sr < -8158 ==> UlawToLinear(Tandem.UlawOutput(sr)) == -32124
    ensures sr > 8158 ==> UlawToLinear(Tandem.UlawOutput(sr)) == 32124
  {
    var x := (if sr <= -32768 then 0 else sr) * 4;
    UlawRankOf(x);
    UlawByRank(LinearToUlaw(x));
    if sr > -32768 && (sr > 8158 || sr < -8158) {
      UlawTop(G72x.Abs(x));
    }
    hide UlawRank, LinearToUlaw, UlawToLinear;
  }

  lemma UlawTop(x: int)
    requires x > 32632
    ensures UlawMagnitude(x + 0x84) == 127
  {}
}
