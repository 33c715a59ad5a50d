// What every step of an ADPCM coder keeps, and what follows from it for the arithmetic.
module G72xInvariant {
  import opened G72x
  import opened Shifts

  // Four exponent bits, six mantissa bits with the leading one set, and a sign.
  predicate FloatOk(x: short) {
    -1024 <= x < 1024 && x % 64 >= 32
  }

  predicate Inv(s: State) {
    && s.Shaped()
    && 34816 <= s.yl <= 327680
    && 544 <= s.yu <= 5120
    && 0 <= s.dms <= 3584
    && 0 <= s.dml <= 14336
    && 0 <= s.ap <= 512
    && -12288 <= s.a[1] <= 12288
    && Abs(s.a[0]) <= 15360 - s.a[1]
    && (forall i | 0 <= i < 6 :: FloatOk(s.dq[i]))
    && (forall i | 0 <= i < 2 :: FloatOk(s.sr[i]))
  }

  lemma InitInv()
    ensures Inv(INIT)
  {}

  lemma Interpolate(d: int, al: int)
    requires 0 <= al <= 64 && 0 <= d
    ensures 0 <= d * al / 64 <= d
  {
    assert 0 <= d * al <= d * 64;
  }

  // The step size is a weighted mean of the slow and the fast scale factor.
  lemma StepSizeBetween(s: State)
    requires Inv(s)
    ensures 544 <= StepSize(s) <= 5120
    ensures s.yl / 64 <= s.yu ==> s.yl / 64 <= StepSize(s) <= s.yu
    ensures s.yu <= s.yl / 64 ==> s.yu <= StepSize(s) <= s.yl / 64
  {
    if s.ap < 256 {
      var y := s.yl / 64;
      var al := s.ap / 4;
      var dif := s.yu - y;
      if dif >= 0 {
        Interpolate(dif, al);
      } else {
        Interpolate(-dif, al);
        var m := (-dif) * al;
        assert dif * al == -m;
        assert (0x3F - m) / 64 == -(m / 64);
      }
    }
  }

  // The antilog never shifts by a negative amount, for any of the three code tables.
  lemma ReconstructShift(dqln: int, y: int)
    requires -2048 <= dqln <= 566 && 544 <= y <= 5120
    ensures var dql := Narrow(dqln + y / 4); dql == dqln + y / 4 && (dql >= 0 ==> dql / 128 <= 14)
  {}

  // The sixteen-bit overflow of thr1 happens only at the top of the range of yl, where thr1 is not used:
  // the threshold is always three quarters of the exact value, capped at 31 << 10.
  lemma ThresholdExact(yl: int)
    requires 34816 <= yl <= 327680
    ensures var exact := Lsl(32 + (yl / 1024) % 32, yl / 32768);
            (Narrow(exact) != exact <==> yl == 327680) &&
            var capped := if yl == 327680 then 31 * 1024 else exact;
            Threshold(yl) == (capped + capped / 2) / 2
  {
    var e := yl / 32768;
    var m := 32 + (yl / 1024) % 32;
    LslTimes(m, e);
    hide Lsl;
    match e {
      case 1 => case 2 => case 3 => case 4 => case 5 => case 6 => case 7 => case 8 => case 9 => case _ =>
    }
  }

  lemma ScaleBounds(yl: int, y: int, wi: int)
    requires 34816 <= yl <= 327680
    ensures var yu := FastScale(y, wi); 544 <= yu <= 5120 && 34816 <= SlowScale(yl, yu) <= 327680
  {}

  lemma PoleTwoBounds(a0: short, a1: short, pk0: bit, pk1: bit, dqsez: int)
    requires -12288 <= a1 <= 12288
    ensures -12288 <= PoleTwo(a0, a1, pk0, pk1, dqsez) <= 12288
  {}

  lemma PoleOneBounds(a0: short, pk0: bit, dqsez: int, a2p: short)
    requires -12288 <= a2p <= 12288
    ensures Abs(PoleOne(a0, pk0, dqsez, a2p)) <= 15360 - a2p
  {}

  // A magnitude becomes an exponent of 1 to 15 and a mantissa of 32 to 63.
  lemma FloatBounds(mag: int)
    requires 1 <= mag <= 32767
    ensures var e := Exponent(mag); 1 <= e <= 15 && Float(mag) / 64 == e && 32 <= Float(mag) % 64
    ensures 96 <= Float(mag) < 1024
  {
    ExponentBounds(mag);
    var e := Exponent(mag);
    MantissaBounds(mag, e);
  }

  lemma MantissaBounds(mag: int, e: nat)
    requires 1 <= e <= 15 && P(e - 1) <= mag < P(e)
    ensures 32 <= Asr(mag * 64, e) < 64
  {
    LslOne(e - 1);
    LslOne(e);
    LslAdd(1, e - 1, 6);
    LslAdd(1, e, 6);
    LslAdd(1, 5, e);
    LslAdd(1, 6, e);
    LslTimes(mag, 6);
    assert P(6) == 64 && Lsl(1, 5) == 32 && Lsl(1, 6) == 64;
    hide Lsl, Asr, P;
    LslMonotone(Lsl(1, e - 1), mag, 6);
    LslMonotone(mag, Lsl(1, e), 6);
    AsrBetween(mag * 64, e, 32, 64);
  }

  lemma SignedFloatOk(mag: int)
    requires 1 <= mag <= 32767
    ensures FloatOk(Narrow(Float(mag))) && FloatOk(Narrow(Float(mag) - 0x400))
  {
    FloatBounds(mag);
    var f := Float(mag);
    hide Float;
    assert (f - 0x400) % 64 == f % 64;
  }

  lemma FloatDifferenceOk(dq: short)
    ensures FloatOk(FloatDifference(dq))
  {
    if dq % 0x8000 != 0 {
      SignedFloatOk(dq % 0x8000);
      hide Float, FloatOk, Narrow;
    }
  }

  lemma FloatSignalOk(sr: short)
    ensures FloatOk(FloatSignal(sr))
  {
    if 0 < sr {
      SignedFloatOk(sr);
      hide Float, FloatOk, Narrow;
    } else if -32768 < sr < 0 {
      SignedFloatOk(Neg(sr));
      hide Float, FloatOk, Narrow;
    }
  }

  lemma EnergyBounds(dms: short, dml: short, fi: int)
    requires 0 <= dms <= 3584 && 0 <= dml <= 14336 && 0 <= fi <= 3584
    ensures 0 <= ShortEnergy(dms, fi) <= 3584 && 0 <= LongEnergy(dml, fi) <= 14336
  {}

  lemma SpeedBounds(ap: short, tr: bool, y: int, td: bit, dms: short, dml: short)
    requires 0 <= ap <= 512
    ensures 0 <= Speed(ap, tr, y, td, dms, dml) <= 512
  {}

  // One adaptation step, for any code size, step size, table entries and signals.
  lemma UpdateInv(codeSize: nat, y: int, wi: int, fi: int, dq: short, sr: short, dqsez: short, s: State)
    requires Inv(s) && 0 <= fi <= 3584
    ensures Inv(Update(codeSize, y, wi, fi, dq, sr, dqsez, s))
  {
    ScaleBounds(s.yl, y, wi);
    PoleTwoBounds(s.a[0], s.a[1], s.pk[0], s.pk[1], dqsez);
    PoleOneBounds(s.a[0], s.pk[0], dqsez, PoleTwo(s.a[0], s.a[1], s.pk[0], s.pk[1], dqsez));
    EnergyBounds(s.dms, s.dml, fi);
    FloatDifferenceOk(dq);
    FloatSignalOk(sr);
    var n := Update(codeSize, y, wi, fi, dq, sr, dqsez, s);
    SpeedBounds(s.ap, Transition(s, dq), y, n.td, n.dms, n.dml);
    hide FastScale, SlowScale, PoleTwo, PoleOne, ShortEnergy, LongEnergy, FloatDifference, FloatSignal, Speed, Zeros, Transition;
  }

  // The zeros are only narrowed, never clamped: one wraps exactly when it moves up from the positive end or
  // down from the negative end.
  lemma ZeroWrapsExactly(codeSize: nat, b: short, old_dq: short, dq: short)
    ensures var leaked := b - (if codeSize == 5 then b / 512 else b / 256);
            var exact := if dq % 0x8000 == 0 then leaked
                         else if (dq < 0) == (old_dq < 0) then leaked + 128 else leaked - 128;
            Zero(codeSize, b, old_dq, dq) == exact <==> -32768 <= exact <= 32767
  {}

  // ----- Products of the predictor -----

  lemma MantissaOf(mag: int)
    requires 0 <= mag <= 8191
    ensures var e := Exponent(mag) - 6; -6 <= e <= 7 && 32 <= Mantissa(mag, e) <= 63
  {
    ExponentBounds(mag);
    var e := Exponent(mag);
    hide Exponent;
    if mag > 0 {
      assert P(13) == 8192;
      MantissaAt(mag, e);
    }
  }

  lemma MantissaAt(mag: int, e: nat)
    requires 1 <= e <= 13 && P(e - 1) <= mag < P(e)
    ensures 32 <= Mantissa(mag, e - 6) <= 63
  {
    LslOne(e - 1);
    LslOne(e);
    assert Lsl(1, 5) == 32 && Lsl(1, 6) == 64;
    hide P, Lsl, Asr;
    if e >= 6 {
      LslAdd(1, 5, e - 6);
      LslAdd(1, 6, e - 6);
      AsrBetween(mag, e - 6, 32, 64);
    } else {
      LslAdd(1, e - 1, 6 - e);
      LslAdd(1, e, 6 - e);
      LslMonotone(Lsl(1, e - 1), mag, 6 - e);
      LslMonotone(mag, Lsl(1, e), 6 - e);
    }
  }

  lemma ScaleRange(mant: int, exp: int)
    requires 0 <= mant <= 32767
    ensures 0 <= Scale(mant, exp) <= 32767
  {
    if exp < 0 {
      AsrShrinks(mant, -exp);
    }
    hide Asr, Lsl;
  }

  lemma ProductRange(m: int, k: int)
    requires 32 <= m <= 63 && 0 <= k <= 63
    ensures 0 <= m * k <= 3969
  {
    assert 0 <= m * k <= m * 63;
  }

  lemma MagnitudeRange(an: int)
    requires -8192 <= an <= 8191
    ensures 0 <= Magnitude(an) <= 8191
  {}

  // The product has the sign of its factors, or is zero, and fits fifteen bits.
  lemma FMultSign(an: int, srn: short)
    requires -8192 <= an <= 8191
    ensures -32767 <= FMult(an, srn) <= 32767
    ensures (an < 0) == (srn < 0) ==> FMult(an, srn) >= 0
    ensures (an < 0) != (srn < 0) ==> FMult(an, srn) <= 0
  {
    hide Lsl, Asr, P;
    MagnitudeRange(an);
    var anmag := Magnitude(an);
    hide Magnitude;
    assert Narrow(anmag) == anmag;
    var anexp := Exponent(anmag) - 6;
    MantissaOf(anmag);
    hide Exponent, Mantissa;
    ProductRange(Mantissa(anmag, anexp), srn % 64);
    var product := Mantissa(anmag, anexp) * (srn % 64);
    var mant := (product + 0x30) / 16;
    assert Narrow(mant) == mant;
    ScaleRange(mant, anexp + (srn / 64) % 16 - 13);
    hide Scale, Narrow;
  }

  lemma {:induction false} PredictorZeroBounds(s: State, n: nat)
    requires Inv(s) && n <= 6
    ensures -32767 * n <= PredictorZero(s, n) <= 32767 * n
  {
    if n > 0 {
      PredictorZeroBounds(s, n - 1);
      FMultSign(s.b[n - 1] / 4, s.dq[n - 1]);
      hide FMult;
    }
  }

  // The estimates fit a C int with a wide margin.
  lemma PredictorBounds(s: State)
    requires Inv(s)
    ensures -196602 <= PredictorZero(s, 6) <= 196602 && -65534 <= PredictorPole(s) <= 65534
  {
    PredictorZeroBounds(s, 6);
    FMultSign(s.a[1] / 4, s.sr[1]);
    FMultSign(s.a[0] / 4, s.sr[0]);
    hide FMult, PredictorZero;
  }
}
