// The logarithmic quantiser: its code range, its monotonicity, and when it undoes
// the inverse quantiser in spite of the truncating antilog.
module Quantiser {
  import opened G72x
  import opened Shifts

  predicate Sorted(table: seq<int>) {
    forall i, j | 0 <= i < j < |table| :: table[i] < table[j]
  }

  lemma QuanMonotone(u: int, v: int, table: seq<int>)
    requires u <= v
    ensures Quan(u, table) <= Quan(v, table)
  {}

  // In a sorted table the position is determined by its two neighbours.
  lemma QuanPosition(v: int, table: seq<int>, k: nat)
    requires Sorted(table) && k <= |table| && (k < |table| ==> v < table[k])
    ensures Quan(v, table) == k <==> (k > 0 ==> table[k - 1] <= v)
  {
    var i := Quan(v, table);
    assert i <= k;
    if i < k {
      assert v < table[i] && (i == k - 1 || table[i] < table[k - 1]);
    }
  }

  // ----- The logarithm -----

  lemma Powers()
    ensures Lsl(1, 7) == 128 && Lsl(1, 8) == 256 && P(7) == 128
  {}

  lemma LogForm(m: int)
    requires 1 <= m <= 32767
    ensures var e := Exponent(m / 2);
            e <= 14 && P(e) <= m < P(e + 1) && 128 <= Asr(m * 128, e) < 256 && Log(m) == e * 128 + Asr(m * 128, e) - 128
  {
    var e := Exponent(m / 2);
    assert e <= 14 && P(e) <= m < P(e + 1);
    hide Exponent;
    LslOne(e);
    LslOne(e + 1);
    LslTimes(m, 7);
    Normalise(m, e, 7);
    Powers();
    hide Asr, Lsl, P;
  }

  lemma ExponentMonotone(g: int, h: int)
    requires g <= h
    ensures Exponent(g) <= Exponent(h)
  {}

  lemma LogMonotone(a: int, b: int)
    requires 0 <= a <= b <= 32767
    ensures 0 <= Log(a) <= Log(b) < 1920
  {
    hide Log, Asr, P, Exponent;
    LogZero();
    if b > 0 {
      LogForm(b);
    }
    if a > 0 {
      LogForm(a);
      ExponentMonotone(a / 2, b / 2);
      AsrMonotone(a * 128, b * 128, Exponent(a / 2));
    }
  }

  // ----- Codes -----

  lemma CodeRange(d: int, y: int, table: seq<int>)
    ensures 1 <= Quantize(d, y, table) <= 2 * |table| + 1
    ensures d < 0 ==> Quantize(d, y, table) >= |table| + 1
  {}

  // A code as a signed level: i ^ (size + 1), size + 1 being a power of two.
  function Biased(i: int, size: nat): int {
    if i > size then i - (size + 1) else i + (size + 1)
  }

  // The quantiser is monotone in the order of levels, for any table and any step size.
  lemma QuantizeMonotone(d1: int, d2: int, y: int, table: seq<int>)
    requires -32767 <= d1 <= d2 <= 32767 && 0 <= y <= 65536
    ensures Biased(Quantize(d1, y, table), |table|) <= Biased(Quantize(d2, y, table), |table|)
  {
    var m1, m2 := Abs(d1), Abs(d2);
    if d2 < 0 {
      LogMonotone(m2, m1);
      hide Log;
      QuanMonotone(Log(m2) - y / 4, Log(m1) - y / 4, table);
    } else if d1 >= 0 {
      LogMonotone(m1, m2);
      hide Log;
      QuanMonotone(Log(m1) - y / 4, Log(m2) - y / 4, table);
    } else {
      hide Log;
    }
  }

  // The one exception: -32768 has no sixteen-bit magnitude and is coded like -1.
  lemma MostNegative(y: int, table: seq<int>)
    ensures Quantize(-32768, y, table) == Quantize(-1, y, table)
  {
    LogMostNegative();
    LogOne();
    hide Log, Quan;
  }

  lemma LogMostNegative()
    ensures Log(-32768) == 0
  {}

  lemma LogZero()
    ensures Log(0) == 0
  {}

  lemma LogOne()
    ensures Log(1) == 0
  {}

  // ----- The quantiser and its inverse -----

  function Signed(dq: int): int {
    if dq >= 0 then dq else -(dq % 0x8000)
  }

  function Antilog(dql: int): int
    requires 0 <= dql < 1920
  {
    Asr((128 + dql % 128) * 128, 14 - dql / 128)
  }

  // What the antilog loses: the low bits of the mantissa in the seven lower octaves.
  function Lost(dql: int): int
    requires 0 <= dql < 1920
  {
    var e := dql / 128;
    if e < 7 then Dropped(128 + dql % 128, 7 - e) else 0
  }

  lemma LowOctave(t: int, e: nat)
    requires 128 <= t < 256 && e < 7
    ensures var m := Asr(t * 128, 14 - e); P(e) <= m < P(e + 1) && Asr(m * 128, e) == t - Dropped(t, 7 - e)
  {
    var m := Asr(t * 128, 14 - e);
    LslOne(e);
    LslOne(e + 1);
    LslTimes(t, 7);
    LslTimes(m, 7);
    Powers();
    hide Lsl, Asr, P;
    AsrLsl(t, 7, 14 - e);
    LslAdd(1, e, 7 - e);
    LslAdd(1, e + 1, 7 - e);
    AsrBetween(t, 7 - e, Lsl(1, e), Lsl(1, e + 1));
    AsrLsl(m, 7, e);
  }

  lemma HighOctave(t: int, e: nat)
    requires 128 <= t < 256 && 7 <= e <= 14
    ensures var m := Asr(t * 128, 14 - e); P(e) <= m < P(e + 1) && Asr(m * 128, e) == t
  {
    var m := Asr(t * 128, 14 - e);
    LslOne(e);
    LslOne(e + 1);
    LslTimes(t, 7);
    LslTimes(m, 7);
    Powers();
    assert Lsl(t, 0) == t;
    hide Lsl, Asr, P;
    AsrLsl(t, 7, 14 - e);
    LslAdd(1, 7, e - 7);
    LslAdd(1, 8, e - 7);
    LslMonotone(128, t, e - 7);
    LslMonotone(t, 256, e - 7);
    LslAdd(t, e - 7, 7);
    AsrLsl(t, e, e);
  }

  lemma ExponentUnique(m: int, e: nat)
    requires e <= 14 && P(e) <= m < P(e + 1)
    ensures m <= 32767 && Exponent(m / 2) == e
  {
    match e {
      case 0 => case 1 => case 2 => case 3 => case 4 => case 5 => case 6 => case 7 =>
      case 8 => case 9 => case 10 => case 11 => case 12 => case 13 => case 14 =>
    }
  }

  lemma LostRange(dql: int)
    requires 0 <= dql < 1920
    ensures 0 <= Lost(dql) < 128 && (dql / 128 < 7 ==> Lost(dql) < P(7 - dql / 128))
  {
    var e := dql / 128;
    if e < 7 {
      DroppedRange(128 + dql % 128, 7 - e);
      LslOne(7 - e);
      hide Dropped, Lsl;
    }
  }

  // The logarithm of the antilog is short by exactly what was truncated.
  lemma LogOfAntilog(dql: int)
    requires 0 <= dql < 1920
    ensures 1 <= Antilog(dql) <= 32767 && Log(Antilog(dql)) == dql - Lost(dql)
  {
    var e := dql / 128;
    var t := 128 + dql % 128;
    if e < 7 {
      LowOctave(t, e);
    } else {
      HighOctave(t, e);
    }
    var m := Antilog(dql);
    assert P(e) <= m < P(e + 1) && Asr(m * 128, e) == t - Lost(dql);
    hide Antilog, Lost;
    ExponentUnique(m, e);
    LogForm(m);
    hide Log, Exponent, Asr;
  }

  // For a positive level k: the quantiser returns it exactly when the truncation
  // does not carry the logarithm below the lower edge of the level.
  lemma QuantizeReconstructExact(sign: bool, dqln: int, y: int, table: seq<int>, k: nat)
    requires 544 <= y <= 5120 && 0 <= dqln + y / 4 < 1920 && dqln <= 2048
    requires Sorted(table) && 1 <= k <= |table| && (k < |table| ==> dqln < table[k])
    ensures var i := if sign then 2 * |table| + 1 - k else k;
            Quantize(Signed(Reconstruct(sign, dqln, y)), y, table) == i
            <==> table[k - 1] <= dqln - Lost(dqln + y / 4)
  {
    hide Quantize, Log, Quan, Antilog, Lost;
    var dql := dqln + y / 4;
    LogOfAntilog(dql);
    LostRange(dql);
    LogNatural(Antilog(dql));
    ReconstructIsAntilog(sign, dqln, y);
    hide Reconstruct, Signed;
    QuantizeMagnitude(sign, Antilog(dql), y, table, k);
    QuanPosition(dqln - Lost(dql), table, k);
  }

  lemma LogNatural(m: int)
    requires 1 <= m <= 32767
    ensures 0 <= Log(m)
  {
    LogForm(m);
  }

  lemma SignedMagnitude(m: int)
    requires 0 <= m <= 32767
    ensures Signed(m) == m && Signed(m - 0x8000) == -m
  {}

  lemma ReconstructIsAntilog(sign: bool, dqln: int, y: int)
    requires 544 <= y <= 5120 && 0 <= dqln + y / 4 < 1920
    requires 1 <= Antilog(dqln + y / 4) <= 32767
    ensures Signed(Reconstruct(sign, dqln, y)) == if sign then -Antilog(dqln + y / 4) else Antilog(dqln + y / 4)
  {
    var dql := dqln + y / 4;
    var m := Antilog(dql);
    assert Narrow(dql) == dql && (dql / 128) % 16 == dql / 128 <= 14;
    SignedMagnitude(m);
    hide Signed, Asr;
  }

  lemma QuantizeMagnitude(sign: bool, m: int, y: int, table: seq<int>, k: nat)
    requires 1 <= m <= 32767 && 544 <= y <= 5120 && 1 <= k <= |table| && 0 <= Log(m) < 1920
    ensures Quantize(if sign then -m else m, y, table) == (if sign then 2 * |table| + 1 - k else k)
            <==> Quan(Log(m) - y / 4, table) == k
  {
    hide Log, Quan;
  }

  // The zero code comes back too: its antilog is empty and the logarithm of zero is below the table.
  lemma QuantizeReconstructZero(sign: bool, y: int, table: seq<int>)
    requires 544 <= y <= 5120 && |table| > 0 && -136 < table[0]
    ensures Quantize(Signed(Reconstruct(sign, -2048, y)), y, table) == 2 * |table| + 1
  {
    ReconstructsNothing(sign, y);
    hide Signed, Reconstruct;
    QuantizeNothing(y, table);
  }

  lemma ReconstructsNothing(sign: bool, y: int)
    requires 544 <= y <= 5120
    ensures Signed(Reconstruct(sign, -2048, y)) == 0
  {}

  lemma QuantizeNothing(y: int, table: seq<int>)
    requires 544 <= y <= 5120 && |table| > 0 && -136 < table[0]
    ensures Quantize(0, y, table) == 2 * |table| + 1
  {
    hide Log, Quan;
    LogZero();
    QuanBelow(-(y / 4), table);
  }

  lemma QuanBelow(v: int, table: seq<int>)
    requires |table| > 0 && v < table[0]
    ensures Quan(v, table) == 0
  {}

  // A reconstructed difference is a magnitude with the sign bit of its code, in two's complement a magnitude less
  // 0x8000; the magnitude is zero exactly below the least logarithm.
  lemma SignAndMagnitude(dqln: int, y: int)
    requires -2048 <= dqln <= 566 && 544 <= y <= 5120
    ensures var mag := Reconstruct(false, dqln, y);
            && 0 <= mag <= 32640 && (mag == 0 <==> dqln + y / 4 < 0)
            && Narrow(Reconstruct(true, dqln, y)) == mag - 0x8000
  {
    var dql := dqln + y / 4;
    if dql >= 0 {
      AntilogRange(dql);
      hide Asr;
    }
  }

  lemma AntilogRange(dql: int)
    requires 0 <= dql < 15 * 128
    ensures 1 <= Asr((128 + dql % 128) * 128, 14 - dql / 128) <= 32640
  {
    var t, n := (128 + dql % 128) * 128, 14 - dql / 128;
    AsrShrinks(t, n);
    AsrMonotone(16384, t, n);
    Halved(n);
    hide Asr;
  }

  lemma Halved(n: nat)
    requires n <= 14
    ensures Asr(16384, n) >= 1
  {
    LslOne(14 - n);
    LslAdd(1, 14 - n, n);
    LslOne(14);
    AsrLsl(Lsl(1, 14 - n), n, n);
    hide Asr, Lsl;
  }
}
