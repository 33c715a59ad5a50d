// The coder state as the sources keep it: an object whose fields and arrays every sample updates
// in place. Each method is proved against the function of the same step.
module G72xMachine {
  import opened G72x
  import opened G72xCoder
  import opened G711
  import Companding
  import opened Tandem
  import opened Quantiser
  import opened Common

  datatype Coding = Ulaw | Alaw | Linear | Unknown

  class G72xState {
    var yl: int
    var yu: short
    var dms: short
    var dml: short
    var ap: short
    const a: array<short>
    const b: array<short>
    const pk: array<bit>
    const dq: array<short>
    const sr: array<short>
    var td: bit

    ghost predicate Valid()
      reads this
    {
      && a.Length == 2 && b.Length == 6 && pk.Length == 2 && dq.Length == 6 && sr.Length == 2
      && a != b && a != dq && a != sr && b != dq && b != sr && dq != sr
    }

    ghost function View(): (s: State)
      reads this, a, b, pk, dq, sr
      requires Valid()
      ensures s.Shaped()
    {
      State(yl, yu, dms, dml, ap, a[..], b[..], pk[..], dq[..], sr[..], td)
    }

    constructor ()
      ensures Valid() && View() == INIT && fresh(a) && fresh(b) && fresh(pk) && fresh(dq) && fresh(sr)
    {
      yl, yu, dms, dml, ap, td := 34816, 544, 0, 0, 0, 0;
      a, b, pk, dq, sr := new short[2], new short[6], new bit[2], new short[6], new short[2];
      new;
      var cnta := 0;
      while cnta < 2
        invariant 0 <= cnta <= 2 && yl == 34816 && yu == 544 && dms == 0 && dml == 0 && ap == 0 && td == 0
        invariant forall i | 0 <= i < cnta :: a[i] == 0 && pk[i] == 0 && sr[i] == 32
      {
        a[cnta], pk[cnta], sr[cnta] := 0, 0, 32;
        cnta := cnta + 1;
      }
      cnta := 0;
      while cnta < 6
        invariant 0 <= cnta <= 6 && yl == 34816 && yu == 544 && dms == 0 && dml == 0 && ap == 0 && td == 0
        invariant forall i | 0 <= i < 2 :: a[i] == 0 && pk[i] == 0 && sr[i] == 32
        invariant forall i | 0 <= i < cnta :: b[i] == 0 && dq[i] == 32
      {
        b[cnta], dq[cnta] := 0, 32;
        cnta := cnta + 1;
      }
      assert a[..] == [0, 0] && pk[..] == [0, 0] && sr[..] == [32, 32];
      assert b[..] == [0, 0, 0, 0, 0, 0] && dq[..] == [32, 32, 32, 32, 32, 32];
    }

    method PredictZero() returns (sezi: int)
      requires Valid()
      ensures sezi == PredictorZero(View(), 6)
    {
      hide FMult;
      ghost var s := View();
      assert PredictorZero(s, 0) == 0 && PredictorZero(s, 1) == FMult(s.b[0] / 4, s.dq[0]);
      sezi := FMult(b[0] / 4, dq[0]);
      var i := 1;
      while i < 6
        invariant 1 <= i <= 6 && sezi == PredictorZero(s, i)
      {
        sezi := sezi + FMult(b[i] / 4, dq[i]);
        i := i + 1;
      }
    }

    method PredictPole() returns (r: int)
      requires Valid()
      ensures r == PredictorPole(View())
    {
      hide FMult;
      r := FMult(a[1] / 4, sr[1]) + FMult(a[0] / 4, sr[0]);
    }

    method CurrentStep() returns (y: int)
      requires Valid()
      ensures y == StepSize(View())
    {
      if ap >= 256 {
        return yu;
      }
      y := yl / 64;
      var dif := yu - y;
      var al := ap / 4;
      if dif > 0 {
        y := y + dif * al / 64;
      } else if dif < 0 {
        y := y + (dif * al + 0x3F) / 64;
      }
    }

    // The predictor coefficients: cleared for a data signal, adapted otherwise.
    method AdaptPredictor(codeSize: nat, d: short, dqsez: short, tr: bool) returns (a2p: short)
      requires Valid()
      modifies a, b
      ensures var s := old(View());
              && a2p == (if tr then 0 else PoleTwo(s.a[0], s.a[1], s.pk[0], s.pk[1], dqsez))
              && a[..] == (if tr then [0, 0] else [PoleOne(s.a[0], s.pk[0], dqsez, a2p), a2p])
              && b[..] == (if tr then [0, 0, 0, 0, 0, 0] else Zeros(codeSize, s, d))
    {
      hide PoleTwo, PoleOne, Zero;
      ghost var s := View();
      a2p := 0;
      if tr {
        a[0], a[1] := 0, 0;
        b[0], b[1], b[2], b[3], b[4], b[5] := 0, 0, 0, 0, 0, 0;
      } else {
        a2p := PoleTwo(a[0], a[1], pk[0], pk[1], dqsez);
        a[1] := a2p;
        a[0] := PoleOne(a[0], pk[0], dqsez, a2p);
        var cnt := 0;
        while cnt < 6
          invariant 0 <= cnt <= 6 && a[..] == [PoleOne(s.a[0], s.pk[0], dqsez, a2p), a2p]
          invariant forall i | 0 <= i < cnt :: b[i] == Zero(codeSize, s.b[i], s.dq[i], d)
          invariant forall i | cnt <= i < 6 :: b[i] == s.b[i]
        {
          b[cnt] := Zero(codeSize, b[cnt], dq[cnt], d);
          cnt := cnt + 1;
        }
        assert b[..] == Zeros(codeSize, s, d);
      }
    }

    // The delay lines of differences, signals and signs.
    method Delay(d: short, signal: short, pk0: bit)
      requires Valid()
      modifies dq, sr, pk
      ensures dq[..] == [FloatDifference(d)] + old(dq[..5])
      ensures sr[..] == [FloatSignal(signal), old(sr[0])] && pk[..] == [pk0, old(pk[0])]
    {
      hide FloatDifference, FloatSignal;
      var cnt := 5;
      while cnt > 0
        invariant 0 <= cnt <= 5
        invariant forall i | 0 <= i <= cnt :: dq[i] == old(dq[i])
        invariant forall i | cnt < i < 6 :: dq[i] == old(dq[i - 1])
        invariant sr[..] == old(sr[..]) && pk[..] == old(pk[..])
        decreases cnt
      {
        dq[cnt] := dq[cnt - 1];
        cnt := cnt - 1;
      }
      dq[0] := FloatDifference(d);
      sr[1] := sr[0];
      sr[0] := FloatSignal(signal);
      pk[1] := pk[0];
      pk[0] := pk0;
    }

    method UpdateInPlace(codeSize: nat, y: int, wi: int, fi: int, d: short, signal: short, dqsez: short)
      requires Valid()
      modifies this, a, b, pk, dq, sr
      ensures Valid() && View() == Update(codeSize, y, wi, fi, d, signal, dqsez, old(View()))
    {
      hide Transition, FastScale, SlowScale, PoleTwo, PoleOne, Zeros, FloatDifference, FloatSignal;
      hide ShortEnergy, LongEnergy, Speed;
      ghost var s := View();
      var pk0 := SignBit(dqsez);
      var tr := td != 0 && d % 0x8000 > Threshold(yl);
      assert tr == Transition(s, d) by {
        TransitionUnfolds(s, d);
      }
      hide Threshold;
      yu := FastScale(y, wi);
      yl := SlowScale(yl, yu);
      ZerosOfLines(codeSize, s, View(), d);
      var a2p := AdaptPredictor(codeSize, d, dqsez, tr);
      Delay(d, signal, pk0);
      assert dq[..] == [FloatDifference(d)] + s.dq[..5];
      if tr {
        td := 0;
      } else if a2p < -11776 {
        td := 1;
      } else {
        td := 0;
      }
      dms := ShortEnergy(dms, fi);
      dml := LongEnergy(dml, fi);
      ap := Speed(ap, tr, y, td, dms, dml);
      ghost var n := Update(codeSize, y, wi, fi, d, signal, dqsez, s);
      assert View() == n;
    }

    // The signal estimate, as the G.721 encoder (wide) or everything else forms it.
    method Estimate(wide: bool) returns (se: short)
      requires Valid()
      ensures se == if wide then WideEstimate(View()) else NarrowedEstimate(View())
    {
      hide PredictorZero, PredictorPole, Narrow;
      var zero := PredictZero();
      var sezi := Narrow(zero);
      var pole := PredictPole();
      if wide {
        se := Narrow((sezi + pole) / 2);
      } else {
        se := Narrow(sezi + pole) / 2;
      }
    }

    // Both coders after the code is known: reconstruct, form the signal, adapt.
    method ApplyInPlace(v: Variant, se: short, i: nat) returns (signal: short)
      requires Valid() && i < 2 * (Size(v) + 1)
      modifies this, a, b, pk, dq, sr
      ensures Valid() && Step(signal, View()) == Apply(v, old(View()), se, i)
    {
      hide Update, StepSize, PredictorZero, Dqln, Wi, Fi, Reconstruct, Narrow;
      ghost var s := View();
      var sezi := PredictZero();
      var sez := Narrow(sezi) / 2;
      var y := CurrentStep();
      var d := Narrow(Reconstruct(i > Size(v), Dqln(v, Level(v, i)), Narrow(y)));
      signal := Signal(v, se, d);
      var dqsez := Narrow(signal + sez - se);
      UpdateInPlace(CodeSize(v), Narrow(y), Wi(v, Level(v, i)), Fi(v, Level(v, i)), d, signal, dqsez);
    }

    method SelectCode(v: Variant, sample: int, se: short) returns (code: int)
      requires Valid() && se == EncoderEstimate(v, View())
      ensures code == EncodeCode(v, View(), sample)
    {
      hide Quantize, StepSize, EncoderEstimate, Narrow, Qtab;
      var d := Narrow(sample - se);
      var y := CurrentStep();
      code := Quantize(d, Narrow(y), Qtab(v));
    }

    method EncodeSample(v: Variant, sl: int, coding: Coding) returns (code: int)
      requires Valid()
      modifies this, a, b, pk, dq, sr
      ensures Valid()
      ensures coding.Unknown? ==> code == -1 && View() == old(View())
      ensures !coding.Unknown? ==>
                code == EncodeCode(v, old(View()), Linearised(sl, coding)) &&
                View() == Encode(v, old(View()), Linearised(sl, coding)).next
    {
      if coding.Unknown? {
        return -1;
      }
      hide EncodeCode, EncoderEstimate, Linearised, Apply, Size;
      ghost var s := View();
      var sample := Linearised(sl, coding);
      var se := Estimate(v.G721?);
      EncoderEstimateIs(v, s);
      code := SelectCode(v, sample, se);
      var signal := ApplyInPlace(v, se, code);
    }

    method DecodeCode(v: Variant, code: int, coding: Coding) returns (out: int)
      requires Valid()
      modifies this, a, b, pk, dq, sr
      ensures Valid() && View() == Decode(v, old(View()), code).next
      ensures out == DecodedOutput(v, old(View()), code, coding)
    {
      hide Apply, StepSize, WideEstimate, NarrowedEstimate, Narrow, AdjustAlaw, AdjustUlaw, Qtab, Size;
      ghost var s := View();
      var i := code % (2 * (Size(v) + 1));
      var se := Estimate(false);
      var y := CurrentStep();
      var signal := ApplyInPlace(v, se, i);
      match coding
      case Alaw => out := AdjustAlaw(signal, se, Narrow(y), i, Qtab(v));
      case Ulaw => out := AdjustUlaw(signal, se, Narrow(y), i, Qtab(v));
      case Linear => out := (signal as int) * 4;
      case Unknown => out := -1;
    }
  }

  lemma EncoderEstimateIs(v: Variant, s: State)
    requires s.Shaped()
    ensures EncoderEstimate(v, s) == if v.G721? then WideEstimate(s) else NarrowedEstimate(s)
  {}

  lemma ZerosOfLines(codeSize: nat, s: State, t: State, d: short)
    requires s.Shaped() && t.Shaped() && s.b == t.b && s.dq == t.dq
    ensures Zeros(codeSize, s, d) == Zeros(codeSize, t, d)
  {}

  lemma TransitionUnfolds(s: State, d: short)
    ensures Transition(s, d) == (s.td != 0 && d % 0x8000 > Threshold(s.yl))
  {}

  // The 14-bit sample behind an input in one of the three codings; the two laws take an octet.
  function Linearised(sl: int, coding: Coding): int {
    match coding
    case Alaw => AlawToLinear(sl % 256) / 4
    case Ulaw => UlawToLinear(sl % 256) / 4
    case _ => sl / 4
  }

  function DecodedOutput(v: Variant, s: State, code: int, coding: Coding): int
    requires s.Shaped()
  {
    var i := code % (2 * (Size(v) + 1));
    var r := Decode(v, s, code);
    match coding
    case Alaw => AdjustAlaw(r.sr, NarrowedEstimate(s), Narrow(StepSize(s)), i, Qtab(v))
    case Ulaw => AdjustUlaw(r.sr, NarrowedEstimate(s), Narrow(StepSize(s)), i, Qtab(v))
    case Linear => (r.sr as int) * 4
    case Unknown => -1
  }

  // The coders work at a quarter of the linear scale: a linear output, encoded again, is the decoder's signal, and
  // the samples of both laws are cut to fourteen bits by a quarter. There is no output in an unknown coding.
  lemma CodingsScale(v: Variant, s: State, code: int, c: octet, x: int)
    requires s.Shaped()
    ensures Linearised(DecodedOutput(v, s, code, Linear), Linear) == Decode(v, s, code).sr
    ensures 4 * Linearised(x, Linear) <= x < 4 * Linearised(x, Linear) + 4
    ensures 4 * Linearised(c, Alaw) <= AlawToLinear(c) < 4 * Linearised(c, Alaw) + 4
    ensures 4 * Linearised(c, Ulaw) <= UlawToLinear(c) < 4 * Linearised(c, Ulaw) + 4
    ensures DecodedOutput(v, s, code, Unknown) == -1
  {
    hide Decode, AdjustAlaw, AdjustUlaw, AlawToLinear, UlawToLinear, Qtab;
  }

  // What a following encoder takes from the plain output of a decoder is its signal to within an eighth of a step of
  // the law, in both laws and within the range of the code.
  lemma TandemInput(sr: int)
    requires -8158 <= sr <= 8158
    ensures var a, u := AlawOutput(sr), UlawOutput(sr);
            && 8 * Abs(sr - Linearised(a, Alaw)) <= Companding.AlawSpacing(Companding.AlawLevelOf(a)) + 6
            && 8 * Abs(sr - Linearised(u, Ulaw)) <= Companding.UlawSpacing(Abs(UlawRank(u))) + 6
  {
    hide AlawOutput, UlawOutput, AlawToLinear, UlawToLinear, UlawRank, Companding.AlawSpacing, Companding.UlawSpacing, Companding.AlawLevelOf;
    Companding.AlawOutputNearest(sr);
    Companding.UlawOutputNearest(sr);
  }

  // On every run, decoding any code gives a PCM code at most one level away from the plain conversion of
  // the signal, and equal to it if that already requantises to the code.
  lemma DecodedAdjusted(ops: seq<Op>, v: Variant, code: int)
    ensures var s := Run(ops); var sr := Decode(v, s, code).sr; var i := code % (2 * (Size(v) + 1));
            var a, u := DecodedOutput(v, s, code, Alaw), DecodedOutput(v, s, code, Ulaw);
            var se, y, q := NarrowedEstimate(s), Narrow(StepSize(s)), Qtab(v);
            && Abs(AlawRank(a) - AlawRank(AlawOutput(sr))) <= 1
            && Abs(UlawRank(u) - UlawRank(UlawOutput(sr))) <= 1
            && (AlawLevel(AlawOutput(sr), se, y, q) == Biased(i, Size(v)) ==> a == AlawOutput(sr))
            && (UlawLevel(UlawOutput(sr), se, y, q) == Biased(i, Size(v)) ==> u == UlawOutput(sr))
  {
    hide *;
    var s := Run(ops);
    var sr, se, y := Decode(v, s, code).sr, NarrowedEstimate(s), Narrow(StepSize(s));
    var i := MaskedRange(v, code);
    DecoderRanges(ops, v);
    AtMostOneLevel(sr, se, y, i, Qtab(v));
    DecodedIs(v, s, code);
  }

  // And it requantises to the code exactly if some PCM code within one level of the plain one does; if it
  // passes the code, no PCM code at all does.
  lemma DecodedExact(ops: seq<Op>, v: Variant, code: int)
    ensures var s := Run(ops); var sr := Decode(v, s, code).sr; var i := code % (2 * (Size(v) + 1));
            var a, u := DecodedOutput(v, s, code, Alaw), DecodedOutput(v, s, code, Ulaw);
            var se, y, q, target := NarrowedEstimate(s), Narrow(StepSize(s)), Qtab(v), Biased(i, Size(v));
            && (AlawLevel(a, se, y, q) == target <==>
                  exists c: octet :: Abs(AlawRank(c) - AlawRank(AlawOutput(sr))) <= 1 && AlawLevel(c, se, y, q) == target)
            && (UlawLevel(u, se, y, q) == target <==>
                  exists c: octet :: Abs(UlawRank(c) - UlawRank(UlawOutput(sr))) <= 1 && UlawLevel(c, se, y, q) == target)
            && (AlawLevel(AlawOutput(sr), se, y, q) < target < AlawLevel(a, se, y, q)
                || AlawLevel(AlawOutput(sr), se, y, q) > target > AlawLevel(a, se, y, q) ==>
                  forall c: octet :: AlawLevel(c, se, y, q) != target)
            && (UlawLevel(UlawOutput(sr), se, y, q) < target < UlawLevel(u, se, y, q)
                || UlawLevel(UlawOutput(sr), se, y, q) > target > UlawLevel(u, se, y, q) ==>
                  forall c: octet :: UlawLevel(c, se, y, q) != target)
  {
    hide *;
    var s := Run(ops);
    var sr, se, y := Decode(v, s, code).sr, NarrowedEstimate(s), Narrow(StepSize(s));
    var i := MaskedRange(v, code);
    DecoderRanges(ops, v);
    AlawExact(sr, se, y, i, Qtab(v));
    UlawExact(sr, se, y, i, Qtab(v));
    DecodedIs(v, s, code);
  }

  lemma MaskedRange(v: Variant, code: int) returns (i: nat)
    ensures i == code % (2 * (Size(v) + 1)) && i <= 2 * Size(v) + 1
  {
    i := code % (2 * (Size(v) + 1));
  }

  lemma DecoderRanges(ops: seq<Op>, v: Variant)
    ensures var s := Run(ops);
            -16384 <= NarrowedEstimate(s) <= 16383 && 544 <= Narrow(StepSize(s)) <= 5120 && |Qtab(v)| == Size(v)
  {
    hide Run, StepSize, PredictorZero, PredictorPole, Dqln;
    ReachableArithmetic(ops, v, 0);
  }

  lemma DecodedIs(v: Variant, s: State, code: int)
    requires s.Shaped()
    ensures var i := code % (2 * (Size(v) + 1)); var sr := Decode(v, s, code).sr;
            var se, y := NarrowedEstimate(s), Narrow(StepSize(s));
            && DecodedOutput(v, s, code, Alaw) == AdjustAlaw(sr, se, y, i, Qtab(v))
            && DecodedOutput(v, s, code, Ulaw) == AdjustUlaw(sr, se, y, i, Qtab(v))
  {
    hide AdjustAlaw, AdjustUlaw, Decode, NarrowedEstimate, StepSize, Qtab, Size;
  }

  // In both laws: one level at most, and none when the plain code requantises to the input code.
  lemma AtMostOneLevel(sr: int, se: int, y: int, i: int, qtab: seq<int>)
    requires -16384 <= se <= 16383 && 0 <= y <= 65536 && 0 <= i <= 2 * |qtab| + 1
    ensures var a, u := AdjustAlaw(sr, se, y, i, qtab), AdjustUlaw(sr, se, y, i, qtab);
            && Abs(AlawRank(a) - AlawRank(AlawOutput(sr))) <= 1
            && Abs(UlawRank(u) - UlawRank(UlawOutput(sr))) <= 1
            && (AlawLevel(AlawOutput(sr), se, y, qtab) == Biased(i, |qtab|) ==> a == AlawOutput(sr))
            && (UlawLevel(UlawOutput(sr), se, y, qtab) == Biased(i, |qtab|) ==> u == UlawOutput(sr))
  {
    hide AlawOutput, UlawOutput, AdjustAlaw, AdjustUlaw, AlawLevel, UlawLevel, Biased, AlawRank, UlawRank;
    AlawAdjustment(sr, se, y, i, qtab);
    UlawAdjustment(sr, se, y, i, qtab);
    RankRange(AlawOutput(sr), UlawOutput(sr));
  }

  lemma RankRange(c: octet, d: octet)
    ensures -128 <= AlawRank(c) <= 127 && -127 <= UlawRank(d) <= 127
  {}
}
