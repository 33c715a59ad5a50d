// The logarithmic PCM codes of ITU-T G.711: A-law and mu-law companding.
module G711 {
  import opened Bits
  import opened Common

  const SEG_END: seq<int> := [0xFF, 0x1FF, 0x3FF, 0x7FF, 0xFFF, 0x1FFF, 0x3FFF, 0x7FFF]

  // The first segment whose end is not below val, or the table size.
  function Search(val: int): (i: nat)
    ensures i <= 8
  {
    if val <= 0xFF then 0 else if val <= 0x1FF then 1 else if val <= 0x3FF then 2 else if val <= 0x7FF then 3
    else if val <= 0xFFF then 4 else if val <= 0x1FFF then 5 else if val <= 0x3FFF then 6 else if val <= 0x7FFF then 7 else 8
  }

  method SearchTable(val: int) returns (i: nat)
    ensures i == Search(val)
  {
    i := 0;
    while i < 8
      invariant i <= 8 && forall j | 0 <= j < i :: SEG_END[j] < val
    {
      if val <= SEG_END[i] {
        break;
      }
      i := i + 1;
    }
    assert i > 0 ==> SEG_END[i - 1] < val;
  }

  // val >> (seg + 3), for the eight segments
  function Quantum(val: int, seg: nat): int {
    match seg
    case 0 => val / 8 case 1 => val / 16 case 2 => val / 32 case 3 => val / 64
    case 4 => val / 128 case 5 => val / 256 case 6 => val / 512 case _ => val / 1024
  }

  // t << seg, for the eight segments
  function Stretch(t: int, seg: nat): int {
    match seg
    case 0 => t case 1 => 2 * t case 2 => 4 * t case 3 => 8 * t
    case 4 => 16 * t case 5 => 32 * t case 6 => 64 * t case _ => 128 * t
  }

  // ----- A-law -----

  // Segment and quantisation bits of a magnitude, seven bits.
  function AlawMagnitude(mag: int): (m: int)
    ensures 0 <= m <= 127
  {
    var seg := Search(mag);
    if seg >= 8 then 0x7F
    else seg * 16 + Quantum(mag, if seg < 2 then 1 else seg) % 16
  }

  function LinearToAlaw(pcm: int): octet {
    if pcm >= 0 then XorOctet(AlawMagnitude(pcm), 0xD5) else XorOctet(AlawMagnitude(-pcm - 8), 0x55)
  }

  // The linear value of a seven-bit magnitude.
  function AlawValue(m: int): int {
    AlawStep(m % 16, m / 16)
  }

  // Quantisation step k of a segment.
  function AlawStep(k: int, seg: int): int {
    var t := 16 * k;
    if seg <= 0 then t + 8 else if seg == 1 then t + 0x108 else Stretch(t + 0x108, seg - 1)
  }

  function AlawToLinear(c: octet): int {
    var x := XorOctet(c, 0x55);
    if x >= 128 then AlawValue(x - 128) else -AlawValue(x)
  }

  // Position of an A-law code in the order of linear values.
  function AlawRank(c: octet): (r: int)
    ensures -128 <= r <= 127
  {
    var x := XorOctet(c, 0x55);
    if x >= 128 then x - 128 else -1 - x
  }

  lemma AlawValueMonotone(m: int, n: int)
    requires 0 <= m < n <= 127
    ensures 8 <= AlawValue(m) < AlawValue(n) <= 32256
  {
    AlawValueSegment(m);
    AlawValueSegment(n);
    var s, t := m / 16, n / 16;
    if s == t {
      SameSegment(m, n, s);
    } else {
      hide AlawValue;
    }
  }

  // The values of a segment: from its base up to just below the base of the next.
  function SegmentBase(s: int): int {
    match s
    case 0 => 0 case 1 => 256 case 2 => 512 case 3 => 1024 case 4 => 2048 case 5 => 4096 case 6 => 8192 case 7 => 16384
    case _ => 32768
  }

  lemma AlawValueSegment(m: int)
    requires 0 <= m <= 127
    ensures SegmentBase(m / 16) + 8 <= AlawValue(m) < SegmentBase(m / 16 + 1) && AlawValue(m) <= 32256
  {
    match m / 16 {
      case 0 => case 1 => case 2 => case 3 => case 4 => case 5 => case 6 => case 7 =>
    }
  }

  lemma SameSegment(m: int, n: int, s: int)
    requires 0 <= m < n <= 127 && s == m / 16 == n / 16
    ensures AlawValue(m) < AlawValue(n)
  {
    match s {
      case 0 => case 1 => case 2 => case 3 => case 4 => case 5 => case 6 => case 7 =>
    }
  }

  // The linear value by rank.
  function AlawOfRank(r: int): int {
    if r >= 0 then AlawValue(r) else -AlawValue(-1 - r)
  }

  lemma AlawByRank(c: octet)
    ensures AlawToLinear(c) == AlawOfRank(AlawRank(c))
  {
    hide XorOctet, AlawValue;
  }

  lemma AlawRankOrder(r: int, q: int)
    requires -128 <= r < q <= 127
    ensures -32256 <= AlawOfRank(r) < AlawOfRank(q) <= 32256
  {
    hide AlawValue;
    AlawValuePositive(if r >= 0 then r else -1 - r);
    AlawValuePositive(if q >= 0 then q else -1 - q);
    if r >= 0 {
      AlawValueMonotone(r, q);
    } else if q < 0 {
      AlawValueMonotone(-1 - q, -1 - r);
    }
  }

  // A code of higher rank has a higher linear value.
  lemma AlawOrder(c: octet, d: octet)
    requires AlawRank(c) < AlawRank(d)
    ensures -32256 <= AlawToLinear(c) < AlawToLinear(d) <= 32256
  {
    hide AlawToLinear, AlawOfRank, AlawRank;
    AlawByRank(c);
    AlawByRank(d);
    AlawRankOrder(AlawRank(c), AlawRank(d));
  }

  lemma AlawValuePositive(m: int)
    requires 0 <= m <= 127
    ensures 8 <= AlawValue(m) <= 32256
  {
    AlawValueSegment(m);
    hide AlawValue;
  }

  lemma AlawMagnitudeOfValue(m: int, s: int)
    requires 0 <= m <= 127 && s == m / 16
    ensures AlawMagnitude(AlawValue(m)) == m && AlawMagnitude(AlawValue(m) - 8) == m
  {
    hide AlawMagnitude, AlawValue;
    AlawMagnitudeNear(m, s, 0);
    AlawMagnitudeNear(m, s, 8);
  }

  lemma AlawMagnitudeNear(m: int, s: int, below: int)
    requires 0 <= m <= 127 && s == m / 16 && (below == 0 || below == 8)
    ensures AlawMagnitude(AlawValue(m) - below) == m
  {
    AlawValueSegment(m);
    SearchSegment(AlawValue(m) - below, s);
    AlawQuantum(m % 16, s, below);
    hide AlawStep, Search, Quantum, SegmentBase;
    assert m == 16 * s + m % 16;
  }

  lemma SearchSegment(x: int, s: int)
    requires 0 <= s <= 7 && SegmentBase(s) <= x < SegmentBase(s + 1)
    ensures Search(x) == s
  {
    match s {
      case 0 => case 1 => case 2 => case 3 => case 4 => case 5 => case 6 => case 7 =>
    }
  }

  lemma AlawQuantum(k: int, s: int, below: int)
    requires 0 <= k <= 15 && 0 <= s <= 7 && (below == 0 || below == 8)
    ensures Quantum(AlawStep(k, s) - below, if s < 2 then 1 else s) % 16 == k
  {
    if s < 4 {
      AlawQuantumLow(k, s, below);
    } else {
      AlawQuantumHigh(k, s, below);
    }
  }

  lemma AlawQuantumLow(k: int, s: int, below: int)
    requires 0 <= k <= 15 && 0 <= s < 4 && (below == 0 || below == 8)
    ensures Quantum(AlawStep(k, s) - below, if s < 2 then 1 else s) % 16 == k
  {
    match s {
      case 0 => case 1 => case 2 => case 3 =>
    }
  }

  lemma AlawQuantumHigh(k: int, s: int, below: int)
    requires 0 <= k <= 15 && 4 <= s <= 7 && (below == 0 || below == 8)
    ensures Quantum(AlawStep(k, s) - below, s) % 16 == k
  {
    match s {
      case 4 => case 5 => case 6 => case 7 =>
    }
  }

  // Compressing an expanded A-law code gives the code back, for all 256 codes.
  lemma AlawInverse(c: octet)
    ensures LinearToAlaw(AlawToLinear(c)) == c
  {
    var x := XorOctet(c, 0x55);
    XorTwice(c, 0x55);
    var m := if x >= 128 then x - 128 else x;
    AlawMagnitudeOfValue(m, m / 16);
    AlawValuePositive(m);
    hide AlawMagnitude, AlawValue, Xor;
    if x >= 128 {
      SignThrough(m);
    }
  }

  lemma SignThrough(m: int)
    requires 0 <= m <= 127
    ensures XorOctet(m, 0xD5) == XorOctet(m + 128, 0x55)
  {
    assert Pow2(7) == 128;
    XorTop(m, 0x55, 7);
    hide Xor;
  }

  // Negative inputs above -8 lose their sign when the magnitude is formed: they come out as -248.
  lemma AlawSmallNegative(pcm: int)
    requires -8 < pcm < 0
    ensures AlawToLinear(LinearToAlaw(pcm)) == -248
  {
    assert AlawMagnitude(-pcm - 8) == 15;
    XorTwice(15, 0x55);
    hide Xor, AlawMagnitude;
  }

  // ----- mu-law -----

  function UlawMagnitude(biased: int): (m: int)
    ensures 0 <= m <= 127
  {
    var seg := Search(biased);
    if seg >= 8 then 0x7F else seg * 16 + Quantum(biased, seg) % 16
  }

  // The complement of magnitude m with the sign bit of mask: m ^ mask.
  function LinearToUlaw(pcm: int): octet {
    if pcm < 0 then 0x7F - UlawMagnitude(0x84 - pcm) else 0xFF - UlawMagnitude(pcm + 0x84)
  }

  function UlawValue(m: int): int {
    UlawStep(m % 16, m / 16)
  }

  // Quantisation step k of a segment.
  function UlawStep(k: int, seg: int): int {
    Stretch(8 * k + 0x84, if seg < 0 then 0 else seg) - 0x84
  }

  function UlawToLinear(c: octet): int {
    var x := 255 - c;
    if x >= 128 then -UlawValue(x - 128) else UlawValue(x)
  }

  // Position in the order of linear values; both zeros have rank 0.
  function UlawRank(c: octet): (r: int)
    ensures -127 <= r <= 127
  {
    if c >= 128 then 255 - c else c - 127
  }

  lemma UlawValueMonotone(m: int, n: int)
    requires 0 <= m < n <= 127
    ensures 0 <= UlawValue(m) < UlawValue(n) <= 32124
  {
    UlawValueSegment(m);
    UlawValueSegment(n);
    var s, t := m / 16, n / 16;
    if s == t {
      SameUlawSegment(m, n, s);
    } else {
      hide UlawValue;
    }
  }

  lemma UlawValueSegment(m: int)
    requires 0 <= m <= 127
    ensures SegmentEnd(m / 16) <= UlawValue(m) + 4 && UlawValue(m) + 4 < SegmentEnd(m / 16 + 1) && 0 <= UlawValue(m) <= 32124
  {
    match m / 16 {
      case 0 => case 1 => case 2 => case 3 => case 4 => case 5 => case 6 => case 7 =>
    }
  }

  function SegmentEnd(s: int): int {
    match s
    case 0 => 4 case 1 => 128 case 2 => 384 case 3 => 896 case 4 => 1920 case 5 => 3968 case 6 => 8064 case 7 => 16256
    case _ => 32640
  }

  lemma SameUlawSegment(m: int, n: int, s: int)
    requires 0 <= m < n <= 127 && s == m / 16 == n / 16
    ensures UlawValue(m) < UlawValue(n)
  {
    match s {
      case 0 => case 1 => case 2 => case 3 => case 4 => case 5 => case 6 => case 7 =>
    }
  }

  function UlawOfRank(r: int): int {
    if r >= 0 then UlawValue(r) else -UlawValue(-r)
  }

  lemma UlawByRank(c: octet)
    ensures UlawToLinear(c) == UlawOfRank(UlawRank(c))
  {
    assert UlawValue(0) == 0;
    hide UlawValue;
  }

  lemma UlawValueRange(m: int)
    requires 0 <= m <= 127
    ensures 0 <= UlawValue(m) <= 32124 && (m > 0 ==> UlawValue(m) > 0)
  {
    UlawValueSegment(m);
    if m > 0 {
      UlawValueMonotone(0, m);
    }
    hide UlawValue, SegmentEnd;
  }

  lemma UlawRankOrder(r: int, q: int)
    requires -127 <= r < q <= 127
    ensures -32124 <= UlawOfRank(r) < UlawOfRank(q) <= 32124
  {
    hide UlawValue;
    UlawValueRange(if r >= 0 then r else -r);
    UlawValueRange(if q >= 0 then q else -q);
    if r >= 0 {
      UlawValueMonotone(r, q);
    } else if q < 0 {
      UlawValueMonotone(-q, -r);
    }
  }

  lemma UlawOrder(c: octet, d: octet)
    requires UlawRank(c) < UlawRank(d)
    ensures -32124 <= UlawToLinear(c) < UlawToLinear(d) <= 32124
  {
    hide UlawToLinear, UlawOfRank, UlawRank;
    UlawByRank(c);
    UlawByRank(d);
    UlawRankOrder(UlawRank(c), UlawRank(d));
  }

  lemma UlawMagnitudeOfValue(m: int, s: int)
    requires 0 <= m <= 127 && s == m / 16
    ensures UlawMagnitude(UlawValue(m) + 0x84) == m
  {
    assert m == 16 * s + m % 16;
    UlawQuantum(m % 16, s);
    hide UlawStep, Search, Quantum;
  }

  lemma UlawQuantum(k: int, s: int)
    requires 0 <= k <= 15 && 0 <= s <= 7
    ensures var x := UlawStep(k, s) + 0x84; Search(x) == s && Quantum(x, s) % 16 == k
  {
    match s {
      case 0 => case 1 => case 2 => case 3 => case 4 => case 5 => case 6 => case 7 =>
    }
  }

  // Compressing an expanded mu-law code gives the code back, except for the negative zero.
  lemma UlawInverse(c: octet)
    ensures LinearToUlaw(UlawToLinear(c)) == c <==> c != 0x7F
  {
    var x := 255 - c;
    var m := if x >= 128 then x - 128 else x;
    UlawMagnitudeOfValue(m, m / 16);
    UlawMagnitudeOfValue(0, 0);
    hide UlawValue, UlawMagnitude;
    UlawValueRange(m);
    UlawValueRange(0);
  }
}
