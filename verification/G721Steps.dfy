// One step of the G.721 encoder in numbers: the intermediate values that show, without recursion, that encoding
// a sample takes one state to another.
module G721Steps {
  import opened G72x
  import opened Shifts
  import opened Quantiser
  import opened G72xCoder

  // ----- Shifts without recursion -----

  // x >> n
  function Down(x: int, n: nat): int {
    match n
    case 0 => x case 1 => x / 2 case 2 => x / 4 case 3 => x / 8 case 4 => x / 16 case 5 => x / 32 case 6 => x / 64
    case 7 => x / 128 case 8 => x / 256 case 9 => x / 512 case 10 => x / 1024 case 11 => x / 2048 case 12 => x / 4096
    case 13 => x / 8192 case 14 => x / 16384 case 15 => x / 32768 case 16 => x / 65536 case 17 => x / 131072
    case 18 => x / 262144 case _ => x / 524288
  }

  // x << n
  function Up(x: int, n: nat): int {
    match n
    case 0 => x case 1 => 2 * x case 2 => 4 * x case 3 => 8 * x case 4 => 16 * x case 5 => 32 * x case 6 => 64 * x
    case 7 => 128 * x case 8 => 256 * x case _ => 512 * x
  }

  lemma DownHalf(x: int, n: nat)
    requires 0 < n <= 19
    ensures Down(x / 2, n - 1) == Down(x, n)
  {
    match n {
      case 1 => case 2 => case 3 => case 4 => case 5 => case 6 => case 7 => case 8 => case 9 => case 10 =>
      case 11 => case 12 => case 13 => case 14 => case 15 => case 16 => case 17 => case 18 => case 19 =>
    }
  }

  lemma {:induction false} DownIs(x: int, n: nat)
    requires n <= 19
    ensures Asr(x, n) == Down(x, n)
    decreases n
  {
    if n > 0 {
      DownIs(x / 2, n - 1);
      DownHalf(x, n);
    }
  }

  lemma {:induction false} UpIs(x: int, n: nat)
    requires n <= 9
    ensures Lsl(x, n) == Up(x, n)
  {
    if n > 0 {
      UpIs(x, n - 1);
    }
  }

  // ----- Products -----

  // The magnitude has exponent e.
  predicate Sized(mag: int, e: int) {
    0 <= e <= 15 && 0 <= mag < P(e) && (e > 0 ==> P(e - 1) <= mag)
  }

  lemma SizedExponent(mag: int, e: int)
    requires Sized(mag, e)
    ensures Exponent(mag) == e
  {
    match e {
      case 0 => case 1 => case 2 => case 3 => case 4 => case 5 => case 6 => case 7 =>
      case 8 => case 9 => case 10 => case 11 => case 12 => case 13 => case 14 => case 15 =>
    }
  }

  // How a product comes about: exponent and mantissa of the coefficient, product of the mantissas, magnitude.
  datatype Factor = F(e: int, m: int, w: int, r: int)

  predicate Multiplied(an: int, srn: int, f: Factor) {
    var mag := Magnitude(an);
    var exp := f.e + srn / 64 % 16 - 19;
    && -8192 <= an <= 8191 && f.e <= 13 && Sized(mag, f.e)
    && f.m == (if mag == 0 then 32 else if f.e >= 6 then Down(mag, f.e - 6) else Up(mag, 6 - f.e))
    && f.w == (f.m * (srn % 64) + 0x30) / 16
    && f.r == (if exp >= 0 then Up(f.w, exp) % 0x8000 else Down(f.w, -exp))
  }

  function Signed(an: int, srn: int, f: Factor): int {
    if (an < 0) != (srn < 0) then -f.r else f.r
  }

  lemma Times(an: int, srn: int, f: Factor)
    requires Multiplied(an, srn, f)
    ensures FMult(an, srn) == Signed(an, srn, f)
  {
    var mag := Magnitude(an);
    SizedExponent(mag, f.e);
    assert Narrow(mag) == mag;
    MantissaIs(mag, f.e, f.m);
    G72xInvariant.ProductRange(f.m, srn % 64);
    ScaleIs(f.w, f.e + srn / 64 % 16 - 19);
    hide Exponent, Mantissa, Scale, P, Down, Up;
    assert Narrow(f.w) == f.w;
  }

  lemma MantissaIs(mag: int, e: int, m: int)
    requires Sized(mag, e) && e <= 13
    requires m == if mag == 0 then 32 else if e >= 6 then Down(mag, e - 6) else Up(mag, 6 - e)
    ensures Mantissa(mag, e - 6) == m && 32 <= m <= 63
  {
    if mag > 0 {
      G72xInvariant.MantissaAt(mag, e);
      if e >= 6 {
        DownIs(mag, e - 6);
        AsrShrinks(mag, e - 6);
      } else {
        UpIs(mag, 6 - e);
      }
      SmallMagnitude(mag, e);
      hide P, Down, Up, Asr, Lsl;
    }
  }

  lemma SmallMagnitude(mag: int, e: int)
    requires Sized(mag, e) && e <= 13
    ensures mag < 8192 && (e < 6 ==> 0 <= Up(mag, 6 - e) < 2048)
  {}

  lemma ScaleIs(w: int, exp: int)
    requires 0 <= w <= 400 && -19 <= exp <= 9
    ensures Scale(w, exp) == if exp >= 0 then Up(w, exp) % 0x8000 else Down(w, -exp)
  {
    if exp >= 0 {
      UpIs(w, exp);
    } else {
      DownIs(w, -exp);
      AsrShrinks(w, -exp);
    }
    hide Lsl, Asr, Up, Down;
  }

  // ----- Quantiser -----

  function StepValue(yl: int, yu: int, ap: int): int {
    if ap >= 256 then yu
    else if yu > yl / 64 then yl / 64 + (yu - yl / 64) * (ap / 4) / 64
    else if yu < yl / 64 then yl / 64 + ((yu - yl / 64) * (ap / 4) + 0x3F) / 64
    else yl / 64
  }

  lemma LevelBy(d: int, y: int, m: int, e: int, t: int, k: nat)
    requires 0 <= y <= 65536 && m == Abs(d) && 0 < m <= 32767 && Sized(m / 2, e)
    requires t == e * 128 + Down(m * 128, e) % 128 - y / 4
    requires k == if t < -124 then 0 else if t < 80 then 1 else if t < 178 then 2 else if t < 246 then 3
                  else if t < 300 then 4 else if t < 349 then 5 else if t < 400 then 6 else 7
    ensures Quantize(d, y, Qtab(G721)) == if d < 0 || k == 0 then 15 - k else k
  {
    SizedExponent(m / 2, e);
    DownIs(m * 128, e);
    hide Asr, P, Exponent, Down;
    QuanSeven(t);
    hide Quan;
  }

  lemma QuanSeven(v: int)
    ensures Quan(v, Qtab(G721)) ==
            if v < -124 then 0 else if v < 80 then 1 else if v < 178 then 2 else if v < 246 then 3
            else if v < 300 then 4 else if v < 349 then 5 else if v < 400 then 6 else 7
  {
    var t := Qtab(G721);
    var i := Quan(v, t);
    hide Quan;
    assert t == [-124, 80, 178, 246, 300, 349, 400];
    assert t[0] == -124 && t[1] == 80 && t[2] == 178 && t[3] == 246 && t[4] == 300 && t[5] == 349 && t[6] == 400;
  }

  lemma DifferenceBy(neg: bool, k: nat, y: int, l: int, v: int)
    requires 1 <= k <= 7 && 544 <= y <= 5120 && l == Dqln(G721, k) + y / 4 && 0 <= l < 1920
    requires v == Down((128 + l % 128) * 128, 14 - l / 128)
    ensures 0 <= v <= 32640 && Narrow(Reconstruct(neg, Dqln(G721, k), y)) == v - (if neg then 0x8000 else 0)
  {
    DownIs((128 + l % 128) * 128, 14 - l / 128);
    AsrShrinks((128 + l % 128) * 128, 14 - l / 128);
    hide Dqln, Reconstruct, Narrow, Asr, Down;
    ReconstructShifts(neg, Dqln(G721, k), y, v);
  }

  lemma ReconstructShifts(neg: bool, dqln: int, y: int, v: int)
    requires 0 <= dqln + y / 4 < 1920
    requires var dql := dqln + y / 4; v == Asr((128 + dql % 128) * 128, 14 - dql / 128) && 0 <= v <= 32640
    ensures Narrow(Reconstruct(neg, dqln, y)) == v - (if neg then 0x8000 else 0)
  {
    hide Asr;
  }

  // The float of a magnitude.
  lemma FloatBy(mag: int, e: int, f: int)
    requires 0 < mag <= 32767 && Sized(mag, e) && f == e * 64 + Down(mag * 64, e)
    ensures Float(mag) == f && 0 <= f <= 1023
  {
    SizedExponent(mag, e);
    DownIs(mag * 64, e);
    SixBits(mag, e);
    hide Asr, Exponent, Down;
  }

  lemma SixBits(mag: int, e: int)
    requires 0 < mag && Sized(mag, e)
    ensures 0 <= Down(mag * 64, e) <= 63
  {
    match e {
      case 1 => case 2 => case 3 => case 4 => case 5 => case 6 => case 7 => case 8 =>
      case 9 => case 10 => case 11 => case 12 => case 13 => case 14 => case 15 =>
    }
  }

  // ----- One step of the encoder -----

  // A voice state of the coder, field by field.
  datatype Voice = Voice(
    yl: int, yu: short, dms: short, dml: short, ap: short, a0: short, a1: short,
    b0: short, b1: short, b2: short, b3: short, b4: short, b5: short, p0: bit, p1: bit,
    d0: short, d1: short, d2: short, d3: short, d4: short, d5: short, r0: short, r1: short)
  {
    function Full(): (s: State)
      ensures s.Shaped()
    {
      State(yl, yu, dms, dml, ap, [a0, a1], [b0, b1, b2, b3, b4, b5], [p0, p1], [d0, d1, d2, d3, d4, d5], [r0, r1], 0)
    }
  }

  lemma ZeroIs(v: Voice, f0: int, f1: int, f2: int, f3: int, f4: int, f5: int)
    requires FMult(v.b0 / 4, v.d0) == f0 && FMult(v.b1 / 4, v.d1) == f1 && FMult(v.b2 / 4, v.d2) == f2
    requires FMult(v.b3 / 4, v.d3) == f3 && FMult(v.b4 / 4, v.d4) == f4 && FMult(v.b5 / 4, v.d5) == f5
    ensures PredictorZero(v.Full(), 6) == f0 + f1 + f2 + f3 + f4 + f5
  {
    hide FMult;
    var s := v.Full();
    assert PredictorZero(s, 0) == 0;
    assert PredictorZero(s, 1) == f0;
    assert PredictorZero(s, 2) == PredictorZero(s, 1) + f1;
    assert PredictorZero(s, 3) == PredictorZero(s, 2) + f2;
    assert PredictorZero(s, 4) == PredictorZero(s, 3) + f3;
    assert PredictorZero(s, 5) == PredictorZero(s, 4) + f4;
    assert PredictorZero(s, 6) == PredictorZero(s, 5) + f5;
  }

  lemma PoleIs(v: Voice, f0: int, f1: int)
    requires FMult(v.a0 / 4, v.r0) == f0 && FMult(v.a1 / 4, v.r1) == f1
    ensures PredictorPole(v.Full()) == f1 + f0
  {
    hide FMult;
  }

  lemma EstimateIs(s: State, z: int, p: int)
    requires s.Shaped() && PredictorZero(s, 6) == z && PredictorPole(s) == p && -32768 <= z <= 32767
    ensures ZeroEstimate(s) == z
    ensures Fits(s) <==> -32768 <= z + p <= 32767
    ensures Fits(s) ==> WideEstimate(s) == (z + p) / 2
  {
    hide PredictorZero, PredictorPole;
  }

  // The code of level k and sign.
  function CodeOf(neg: bool, k: nat): nat
    requires 1 <= k <= 7
  {
    if neg then 15 - k else k
  }

  lemma AppliedIs(s: State, x: int, neg: bool, k: nat, y: int, dq: short, sr: short, dqsez: short)
    requires s.Shaped() && StepSize(s) == y && 544 <= y <= 5120 && 1 <= k <= 7
    requires var se := WideEstimate(s);
             && Quantize(x - se, y, Qtab(G721)) == CodeOf(neg, k) && -32768 <= x - se <= 32767
             && Narrow(Reconstruct(neg, Dqln(G721, k), y)) == dq
             && sr == (if dq < 0 then se - dq % 0x4000 else se + dq) && dqsez == sr + ZeroEstimate(s) / 2 - se
    ensures Encode(G721, s, x).next == Update(4, y, Wi(G721, k), Fi(G721, k), dq, sr, dqsez, s)
  {
    hide Update, Quantize, Reconstruct, StepSize, WideEstimate, ZeroEstimate, Dqln, Wi, Fi, Qtab;
  }

  lemma FloatsAre(dq: short, sr: short)
    requires dq % 0x8000 != 0 && sr > -32768 && sr != 0
    requires 0 <= Float(dq % 0x8000) <= 1023 && 0 <= Float(Abs(sr)) <= 1023
    ensures FloatDifference(dq) == Float(dq % 0x8000) - (if dq < 0 then 0x400 else 0)
    ensures FloatSignal(sr) == Float(Abs(sr)) - (if sr < 0 then 0x400 else 0)
  {
    hide Float;
  }

  // What the adaptation of a voice state with a voice outcome amounts to, field by field.
  lemma AdaptationOf(s: State, y: int, wi: int, fi: int, dq: short, sr: short, dqsez: short)
    requires s.Shaped() && s.td == 0 && PoleTwo(s.a[0], s.a[1], s.pk[0], s.pk[1], dqsez) >= -11776
    ensures var n := Update(4, y, wi, fi, dq, sr, dqsez, s);
            var a2p := PoleTwo(s.a[0], s.a[1], s.pk[0], s.pk[1], dqsez);
            && n.yu == FastScale(y, wi) && n.yl == SlowScale(s.yl, n.yu)
            && n.dms == ShortEnergy(s.dms, fi) && n.dml == LongEnergy(s.dml, fi)
            && n.ap == Speed(s.ap, false, y, 0, n.dms, n.dml) && n.td == 0
            && n.a == [PoleOne(s.a[0], s.pk[0], dqsez, a2p), a2p] && n.pk == [SignBit(dqsez), s.pk[0]]
            && n.b == [Zero(4, s.b[0], s.dq[0], dq), Zero(4, s.b[1], s.dq[1], dq), Zero(4, s.b[2], s.dq[2], dq),
                       Zero(4, s.b[3], s.dq[3], dq), Zero(4, s.b[4], s.dq[4], dq), Zero(4, s.b[5], s.dq[5], dq)]
            && n.dq == [FloatDifference(dq), s.dq[0], s.dq[1], s.dq[2], s.dq[3], s.dq[4]]
            && n.sr == [FloatSignal(sr), s.sr[0]]
  {
    hide PoleTwo, PoleOne, Zero, FloatDifference, FloatSignal, FastScale, SlowScale, ShortEnergy, LongEnergy, Speed;
  }

  // Encoding x takes one state to the other.
  predicate Leads(v: Voice, x: int, n: Voice) {
    Fits(v.Full()) && Encode(G721, v.Full(), x).next == n.Full()
  }

  // Sign and level of the code, step size, sums of zeros and of poles, estimate, difference, signal, and the
  // signal without the poles' part.
  datatype Outcome = O(neg: bool, k: nat, y: int, z: int, p: int, se: int, dq: short, sr: short, dqsez: short)

  // The new state is the old one adapted.
  predicate Adapted(v: Voice, n: Voice, o: Outcome) {
    && 1 <= o.k <= 7 && n.yu == FastScale(o.y, Wi(G721, o.k)) && n.yl == SlowScale(v.yl, n.yu)
    && n.dms == ShortEnergy(v.dms, Fi(G721, o.k)) && n.dml == LongEnergy(v.dml, Fi(G721, o.k))
    && n.ap == Speed(v.ap, false, o.y, 0, n.dms, n.dml)
    && n.a1 == PoleTwo(v.a0, v.a1, v.p0, v.p1, o.dqsez) && n.a1 >= -11776 && n.a0 == PoleOne(v.a0, v.p0, o.dqsez, n.a1)
    && n.b0 == Zero(4, v.b0, v.d0, o.dq) && n.b1 == Zero(4, v.b1, v.d1, o.dq) && n.b2 == Zero(4, v.b2, v.d2, o.dq)
    && n.b3 == Zero(4, v.b3, v.d3, o.dq) && n.b4 == Zero(4, v.b4, v.d4, o.dq) && n.b5 == Zero(4, v.b5, v.d5, o.dq)
    && n.p0 == SignBit(o.dqsez) && n.p1 == v.p0 && n.r1 == v.r0
    && n.d1 == v.d0 && n.d2 == v.d1 && n.d3 == v.d2 && n.d4 == v.d3 && n.d5 == v.d4
  }

  // The sums of the two predictors.
  predicate Predicted(v: Voice, o: Outcome) {
    PredictorZero(v.Full(), 6) == o.z && PredictorPole(v.Full()) == o.p
  }

  lemma StepIs(v: Voice, n: Voice, x: int, o: Outcome)
    requires Predicted(v, o)
    requires -32768 <= o.z <= 32767 && -32768 <= o.z + o.p <= 32767 && o.se == (o.z + o.p) / 2 && -32768 <= x - o.se <= 32767
    requires o.y == StepValue(v.yl, v.yu, v.ap) && 544 <= o.y <= 5120
    requires 1 <= o.k <= 7 && Quantize(x - o.se, o.y, Qtab(G721)) == CodeOf(o.neg, o.k)
    requires Narrow(Reconstruct(o.neg, Dqln(G721, o.k), o.y)) == o.dq && o.dq % 0x8000 != 0
    requires o.sr == (if o.dq < 0 then o.se - o.dq % 0x4000 else o.se + o.dq) && o.sr > -32768 && o.sr != 0
    requires o.dqsez == o.sr + o.z / 2 - o.se
    requires 0 <= Float(o.dq % 0x8000) <= 1023 && n.d0 == Float(o.dq % 0x8000) - (if o.dq < 0 then 0x400 else 0)
    requires 0 <= Float(Abs(o.sr)) <= 1023 && n.r0 == Float(Abs(o.sr)) - (if o.sr < 0 then 0x400 else 0)
    requires Adapted(v, n, o)
    ensures Leads(v, x, n)
  {
    hide Encode, Fits, Update, PredictorZero, PredictorPole, StepSize, ZeroEstimate, WideEstimate, Zero, Quantize, Reconstruct;
    hide Float, FloatDifference, FloatSignal, Wi, Fi, Dqln, Qtab;
    hide FastScale, SlowScale, ShortEnergy, LongEnergy, Speed, PoleTwo, PoleOne, SignBit;
    var s := v.Full();
    EstimateIs(s, o.z, o.p);
    assert StepSize(s) == o.y by {
      StepValueIs(s);
    }
    AppliedIs(s, x, o.neg, o.k, o.y, o.dq, o.sr, o.dqsez);
    FloatsAre(o.dq, o.sr);
    AdaptationOf(s, o.y, Wi(G721, o.k), Fi(G721, o.k), o.dq, o.sr, o.dqsez);
  }

  lemma StepValueIs(s: State)
    ensures StepSize(s) == StepValue(s.yl, s.yu, s.ap)
  {}

  lemma PredictedBy(v: Voice, o: Outcome, f0: Factor, f1: Factor, f2: Factor, f3: Factor, f4: Factor, f5: Factor, f6: Factor, f7: Factor)
    requires Multiplied(v.b0 / 4, v.d0, f0) && Multiplied(v.b1 / 4, v.d1, f1) && Multiplied(v.b2 / 4, v.d2, f2)
    requires Multiplied(v.b3 / 4, v.d3, f3) && Multiplied(v.b4 / 4, v.d4, f4) && Multiplied(v.b5 / 4, v.d5, f5)
    requires Multiplied(v.a0 / 4, v.r0, f6) && Multiplied(v.a1 / 4, v.r1, f7)
    requires o.z == Signed(v.b0 / 4, v.d0, f0) + Signed(v.b1 / 4, v.d1, f1) + Signed(v.b2 / 4, v.d2, f2)
                    + Signed(v.b3 / 4, v.d3, f3) + Signed(v.b4 / 4, v.d4, f4) + Signed(v.b5 / 4, v.d5, f5)
    requires o.p == Signed(v.a1 / 4, v.r1, f7) + Signed(v.a0 / 4, v.r0, f6)
    ensures Predicted(v, o)
  {
    hide FMult, Multiplied, Signed, PredictorZero, PredictorPole;
    Times(v.b0 / 4, v.d0, f0);
    Times(v.b1 / 4, v.d1, f1);
    Times(v.b2 / 4, v.d2, f2);
    Times(v.b3 / 4, v.d3, f3);
    Times(v.b4 / 4, v.d4, f4);
    Times(v.b5 / 4, v.d5, f5);
    Times(v.a0 / 4, v.r0, f6);
    Times(v.a1 / 4, v.r1, f7);
    ZeroIs(v, Signed(v.b0 / 4, v.d0, f0), Signed(v.b1 / 4, v.d1, f1), Signed(v.b2 / 4, v.d2, f2),
           Signed(v.b3 / 4, v.d3, f3), Signed(v.b4 / 4, v.d4, f4), Signed(v.b5 / 4, v.d5, f5));
    PoleIs(v, Signed(v.a0 / 4, v.r0, f6), Signed(v.a1 / 4, v.r1, f7));
  }
}
