// The arithmetic shared by the G.721 and G.723 coders: software floating point, step size,
// logarithmic quantiser and its inverse, and the adaptation of the coder state.
// A C short is an int narrowed to sixteen bits; x >> n is the floor of x / 2^n.
module G72x {

  type short = x: int | -32768 <= x <= 32767
  type bit = x: int | 0 <= x <= 1

  function Neg(x: int): int {
    -x
  }

  function Narrow(x: int): short {
    if -32768 <= x <= 32767 then x else (x + 32768) % 65536 - 32768
  }

  // 1 << n
  function P(n: nat): (p: int)
    ensures p > 0
  {
    match n
    case 0 => 1 case 1 => 2 case 2 => 4 case 3 => 8 case 4 => 16 case 5 => 32 case 6 => 64 case 7 => 128
    case 8 => 256 case 9 => 512 case 10 => 1024 case 11 => 2048 case 12 => 4096 case 13 => 8192
    case 14 => 16384 case 15 => 32768 case 16 => 65536 case 17 => 131072 case 18 => 262144
    case _ => 524288
  }

  // x << n
  function Lsl(x: int, n: nat): int
    decreases n
  {
    if n == 0 then x else 2 * Lsl(x, n - 1)
  }

  // x >> n, rounding down
  function Asr(x: int, n: nat): int
    decreases n
  {
    if n == 0 then x else Asr(x / 2, n - 1)
  }

  const POWER2: seq<int> := [1, 2, 4, 8, 0x10, 0x20, 0x40, 0x80, 0x100, 0x200, 0x400, 0x800, 0x1000, 0x2000, 0x4000]

  // The position of val in a table: the first entry above it.
  function Quan(val: int, table: seq<int>): (i: nat)
    ensures i <= |table|
    ensures forall j | 0 <= j < i :: table[j] <= val
    ensures i < |table| ==> val < table[i]
  {
    if table == [] || val < table[0] then 0 else
      var i := Quan(val, table[1..]) + 1;
      assert forall j | 0 <= j < i :: table[j] <= val by {
        assert forall j | 1 <= j < i :: table[j] == table[1..][j - 1];
      }
      i
  }

  method QuanSearch(val: int, table: seq<int>) returns (i: nat)
    ensures i == Quan(val, table)
  {
    i := 0;
    while i < |table|
      invariant i <= |table| && forall j | 0 <= j < i :: table[j] <= val
    {
      if val < table[i] {
        break;
      }
      i := i + 1;
    }
  }

  // The position of a magnitude among the powers of two: its number of bits, at most 15.
  function Exponent(mag: int): (e: nat)
    ensures e <= 15
  {
    if mag < 128 then
      if mag < 8 then if mag < 2 then if mag < 1 then 0 else 1 else if mag < 4 then 2 else 3
      else if mag < 32 then if mag < 16 then 4 else 5 else if mag < 64 then 6 else 7
    else
      if mag < 2048 then if mag < 512 then if mag < 256 then 8 else 9 else if mag < 1024 then 10 else 11
      else if mag < 8192 then if mag < 4096 then 12 else 13 else if mag < 16384 then 14 else 15
  }

  lemma ExponentBounds(mag: int)
    requires mag <= 32767
    ensures var e := Exponent(mag); (e == 0 <==> mag < 1) && (e > 0 ==> P(e - 1) <= mag < P(e))
  {}

  // It is what the table search finds.
  lemma ExponentIsQuan(mag: int)
    ensures Exponent(mag) == Quan(mag, POWER2)
  {
    PowerTable();
    var i := Quan(mag, POWER2);
    hide Quan, P, Exponent, POWER2;
    assert i > 0 ==> POWER2[i - 1] <= mag;
    assert i < 15 ==> mag < POWER2[i];
    ExponentAt(mag, i);
  }

  lemma PowerTable()
    ensures |POWER2| == 15 && forall j | 0 <= j < 15 :: POWER2[j] == P(j)
  {}

  lemma ExponentAt(mag: int, i: nat)
    requires i <= 15 && (i > 0 ==> P(i - 1) <= mag) && (i < 15 ==> mag < P(i))
    ensures Exponent(mag) == i
  {
    match i {
      case 0 => case 1 => case 2 => case 3 => case 4 => case 5 => case 6 => case 7 =>
      case 8 => case 9 => case 10 => case 11 => case 12 => case 13 => case 14 => case _ =>
    }
  }

  // The six-bit mantissa of a magnitude below 2^15 whose exponent is exp + 6.
  function Mantissa(mag: int, exp: int): short
    requires -6 <= exp <= 9
  {
    Narrow(if mag == 0 then 32 else if exp >= 0 then Asr(mag, exp) else Lsl(mag, -exp))
  }

  // mant scaled by 2^exp, kept to fifteen bits.
  function Scale(mant: int, exp: int): short {
    Narrow(if exp >= 0 then Lsl(mant, exp) % 0x8000 else Asr(mant, -exp))
  }

  // The magnitude of a coefficient, kept to thirteen bits when it is not positive.
  function Magnitude(an: int): int {
    if an > 0 then an else Neg(an) % 0x2000
  }

  // an times the number that srn holds as 4-bit exponent and 6-bit mantissa.
  function FMult(an: int, srn: int): int {
    var anmag := Narrow(Magnitude(an));
    var anexp := Exponent(anmag) - 6;
    var wanexp := anexp + (srn / 64) % 16 - 13;
    var wanmant := Narrow((Mantissa(anmag, anexp) * (srn % 64) + 0x30) / 16);
    var retval := Scale(wanmant, wanexp);
    if (an < 0) != (srn < 0) then Neg(retval) else retval
  }

  // ----- The coder state -----

  datatype State = State(
    yl: int, yu: short, dms: short, dml: short, ap: short,
    a: seq<short>, b: seq<short>, pk: seq<bit>, dq: seq<short>, sr: seq<short>, td: bit)
  {
    predicate Shaped() {
      |a| == 2 && |b| == 6 && |pk| == 2 && |dq| == 6 && |sr| == 2
    }
  }

  const INIT: State := State(34816, 544, 0, 0, 0, [0, 0], [0, 0, 0, 0, 0, 0], [0, 0], [32, 32, 32, 32, 32, 32], [32, 32], 0)

  // The six-zero part of the estimate, summed over the first n zeros.
  function PredictorZero(s: State, n: nat): int
    requires s.Shaped() && n <= 6
  {
    if n == 0 then 0 else PredictorZero(s, n - 1) + FMult(s.b[n - 1] / 4, s.dq[n - 1])
  }

  // The two-pole part of the estimate.
  function PredictorPole(s: State): int
    requires s.Shaped()
  {
    FMult(s.a[1] / 4, s.sr[1]) + FMult(s.a[0] / 4, s.sr[0])
  }

  function StepSize(s: State): int {
    if s.ap >= 256 then s.yu else
      var y := s.yl / 64;
      var dif := s.yu - y;
      var al := s.ap / 4;
      if dif > 0 then y + dif * al / 64
      else if dif < 0 then y + (dif * al + 0x3F) / 64
      else y
  }

  // ----- Quantiser -----

  function Abs(x: int): nat {
    if x < 0 then -x else x
  }

  // 128 times the base-2 logarithm of a 16-bit magnitude, mantissa linearly interpolated.
  function Log(dqm: short): int {
    LogAt(dqm, Exponent(dqm / 2))
  }

  function LogAt(dqm: short, exp: nat): int {
    exp * 128 + Asr(dqm * 128, exp) % 128
  }

  function Quantize(d: int, y: int, table: seq<int>): int {
    var dln := Narrow(Log(Narrow(Abs(d))) - y / 4);
    var i := Quan(dln, table);
    if d < 0 then 2 * |table| + 1 - i
    else if i == 0 then 2 * |table| + 1
    else i
  }

  function Reconstruct(sign: bool, dqln: int, y: int): int {
    var dql := Narrow(dqln + y / 4);
    if dql < 0 then (if sign then -0x8000 else 0) else
      var dex := (dql / 128) % 16;
      var dqt := 128 + dql % 128;
      // dex is at most 14 on every step size the coder uses (ReconstructShift)
      var dq := Narrow(if dex <= 14 then Asr(dqt * 128, 14 - dex) else 0);
      if sign then dq - 0x8000 else dq
  }

  // ----- Adaptation -----

  // The tone threshold: three quarters of (32 + fraction) << exponent of the slow scale factor.
  function Threshold(yl: int): short {
    var ylint := yl / 32768;
    var ylfrac := (yl / 1024) % 32;
    var thr1 := Narrow(Lsl(32 + ylfrac, if ylint < 0 then 0 else ylint));
    var thr2 := if ylint > 9 then 31 * 1024 else thr1;
    Narrow((thr2 + thr2 / 2) / 2)
  }

  function Transition(s: State, dq: short): bool {
    s.td != 0 && dq % 0x8000 > Threshold(s.yl)
  }

  function Limit(x: int, lo: int, hi: int): int {
    if x < lo then lo else if x > hi then hi else x
  }

  function FastScale(y: int, wi: int): short {
    Limit(Narrow(y + (wi - y) / 32), 544, 5120)
  }

  function SlowScale(yl: int, yu: int): int {
    yl + yu + (-yl) / 64
  }

  function SignBit(x: int): bit {
    if x < 0 then 1 else 0
  }

  // Second pole: leak, move with the correlation of signs, clamp to +-0.75.
  function PoleTwo(a0: short, a1: short, pk0: bit, pk1: bit, dqsez: int): short {
    var sign := SignBit(dqsez);
    var a2p := Narrow(a1 - a1 / 128);
    if dqsez == 0 then a2p else
      var fa1 := Narrow(if sign != pk0 then a0 else Neg(a0));
      var moved := Narrow(if fa1 < -8191 then a2p - 0x100 else if fa1 > 8191 then a2p + 0xFF else a2p + fa1 / 32);
      if sign != pk1 then
        if moved <= -12160 then -12288 else if moved >= 12416 then 12288 else Narrow(moved - 0x80)
      else
        if moved <= -12416 then -12288 else if moved >= 12160 then 12288 else Narrow(moved + 0x80)
  }

  // First pole: leak, move, clamp to 15/16 minus the second pole.
  function PoleOne(a0: short, pk0: bit, dqsez: int, a2p: short): short {
    var leaked := Narrow(a0 - a0 / 256);
    var moved := if dqsez == 0 then leaked
                 else if SignBit(dqsez) == pk0 then Narrow(leaked + 192) else Narrow(leaked - 192);
    var a1ul := Narrow(15360 - a2p);
    if moved < Neg(a1ul) then Narrow(Neg(a1ul)) else if moved > a1ul then a1ul else moved
  }

  // One zero: leak (slower at 40 kbit/s), move with the agreement of signs. The result is only narrowed.
  function Zero(codeSize: nat, b: short, old_dq: short, dq: short): short {
    var leaked := Narrow(b - (if codeSize == 5 then b / 512 else b / 256));
    if dq % 0x8000 == 0 then leaked
    else if (dq < 0) == (old_dq < 0) then Narrow(leaked + 128) else Narrow(leaked - 128)
  }

  function Zeros(codeSize: nat, s: State, dq: short): (b: seq<short>)
    requires s.Shaped()
  {
    seq(6, i requires 0 <= i < 6 => Zero(codeSize, s.b[i], s.dq[i], dq))
  }

  // A magnitude as 4-bit exponent and 6-bit mantissa.
  function Float(mag: int): int {
    var exp := Exponent(mag);
    exp * 64 + Asr(mag * 64, exp)
  }

  function FloatDifference(dq: short): short {
    var mag := dq % 0x8000;
    if mag == 0 then (if dq >= 0 then 0x20 else Narrow(0xFC20))
    else if dq >= 0 then Narrow(Float(mag)) else Narrow(Float(mag) - 0x400)
  }

  function FloatSignal(sr: short): short {
    if sr == 0 then 0x20
    else if sr > 0 then Narrow(Float(sr))
    else if sr > -32768 then Narrow(Float(Neg(sr)) - 0x400)
    else Narrow(0xFC20)
  }

  function ShortEnergy(dms: short, fi: int): short {
    Narrow(dms + (fi - dms) / 32)
  }

  function LongEnergy(dml: short, fi: int): short {
    Narrow(dml + (fi * 4 - dml) / 128)
  }

  function Speed(ap: short, tr: bool, y: int, td: bit, dms: short, dml: short): short {
    if tr then 256
    else if y < 1536 || td == 1 || Abs(dms * 4 - dml) >= dml / 8 then Narrow(ap + (0x200 - ap) / 16)
    else Narrow(ap + Neg(ap) / 16)
  }

  function Update(codeSize: nat, y: int, wi: int, fi: int, dq: short, sr: short, dqsez: short, s: State): (n: State)
    requires s.Shaped()
    ensures n.Shaped()
  {
    var tr := Transition(s, dq);
    var yu := FastScale(y, wi);
    var a2p := if tr then 0 else PoleTwo(s.a[0], s.a[1], s.pk[0], s.pk[1], dqsez);
    var td := if !tr && a2p < -11776 then 1 else 0;
    var dms := ShortEnergy(s.dms, fi);
    var dml := LongEnergy(s.dml, fi);
    State(
      SlowScale(s.yl, yu), yu, dms, dml, Speed(s.ap, tr, y, td, dms, dml),
      if tr then [0, 0] else [PoleOne(s.a[0], s.pk[0], dqsez, a2p), a2p],
      if tr then [0, 0, 0, 0, 0, 0] else Zeros(codeSize, s, dq),
      [SignBit(dqsez), s.pk[0]],
      [FloatDifference(dq)] + s.dq[..5],
      [FloatSignal(sr), s.sr[0]],
      td)
  }
}
