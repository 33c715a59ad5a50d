// The three ADPCM coders: G.721 at 32 kbit/s, G.723 at 24 and 40 kbit/s.
// Encoding and decoding as functions of the coder state, and what they keep in step.
module G72xCoder {
  import opened G72x
  import opened G72xInvariant
  import opened Quantiser
  import opened Shifts

  datatype Variant = G721 | G723x24 | G723x40

  // The number of positive levels; a code is below 2 * (Size + 1) and its top bit is the sign.
  function Size(v: Variant): nat {
    match v case G721 => 7 case G723x24 => 3 case G723x40 => 15
  }

  function CodeSize(v: Variant): nat {
    match v case G721 => 4 case G723x24 => 3 case G723x40 => 5
  }

  function Qtab(v: Variant): (t: seq<int>)
    ensures |t| == Size(v)
  {
    match v
    case G721 => [-124, 80, 178, 246, 300, 349, 400]
    case G723x24 => [8, 218, 331]
    case G723x40 => [-122, -16, 68, 139, 198, 250, 298, 339, 378, 413, 445, 475, 502, 528, 553]
  }

  // The tables indexed by code are symmetric: code i and its complement share an entry.
  function Level(v: Variant, i: nat): (k: nat)
    requires i < 2 * (Size(v) + 1)
    ensures k <= Size(v)
  {
    if i <= Size(v) then i else 2 * Size(v) + 1 - i
  }

  // Logarithm of the reconstructed magnitude of each level.
  function Dqln(v: Variant, k: nat): int {
    match v
    case G721 =>
      (match k case 0 => -2048 case 1 => 4 case 2 => 135 case 3 => 213 case 4 => 273 case 5 => 323 case 6 => 373 case _ => 425)
    case G723x24 => (match k case 0 => -2048 case 1 => 135 case 2 => 273 case _ => 373)
    case G723x40 =>
      (match k
       case 0 => -2048 case 1 => -66 case 2 => 28 case 3 => 104 case 4 => 169 case 5 => 224 case 6 => 274 case 7 => 318
       case 8 => 358 case 9 => 395 case 10 => 429 case 11 => 459 case 12 => 488 case 13 => 514 case 14 => 539 case _ => 566)
  }

  // Scale factor multiplier of each level (G.721 keeps it divided by 32).
  function Wi(v: Variant, k: nat): int {
    match v
    case G721 =>
      32 * (match k case 0 => -12 case 1 => 18 case 2 => 41 case 3 => 64 case 4 => 112 case 5 => 198 case 6 => 355 case _ => 1122)
    case G723x24 => (match k case 0 => -128 case 1 => 960 case 2 => 4384 case _ => 18624)
    case G723x40 =>
      (match k
       case 0 => 448 case 1 => 448 case 2 => 768 case 3 => 1248 case 4 => 1280 case 5 => 1312 case 6 => 1856 case 7 => 3200
       case 8 => 4512 case 9 => 5728 case 10 => 7008 case 11 => 8960 case 12 => 11456 case 13 => 14080 case 14 => 16928
       case _ => 22272)
  }

  // Contribution of each level to the energy averages.
  function Fi(v: Variant, k: nat): int {
    match v
    case G721 => if k <= 2 then 0 else if k <= 5 then 0x200 else if k == 6 then 0x600 else 0xE00
    case G723x24 => (match k case 0 => 0 case 1 => 0x200 case 2 => 0x400 case _ => 0xE00)
    case G723x40 =>
      if k <= 4 then 0 else if k <= 9 then 0x200
      else (match k case 10 => 0x400 case 11 => 0x600 case 12 => 0x800 case 13 => 0xA00 case _ => 0xC00)
  }

  // ----- One step -----

  function ZeroEstimate(s: State): short
    requires s.Shaped()
  {
    Narrow(PredictorZero(s, 6))
  }

  // The estimate as the decoders and the G.723 encoders form it: narrow the sum, then halve.
  function NarrowedEstimate(s: State): short
    requires s.Shaped()
  {
    Narrow(ZeroEstimate(s) + PredictorPole(s)) / 2
  }

  // The estimate as the G.721 encoder forms it: halve the sum, then narrow.
  function WideEstimate(s: State): short
    requires s.Shaped()
  {
    Narrow((ZeroEstimate(s) + PredictorPole(s)) / 2)
  }

  function EncoderEstimate(v: Variant, s: State): short
    requires s.Shaped()
  {
    if v.G721? then WideEstimate(s) else NarrowedEstimate(s)
  }

  datatype Step = Step(sr: short, next: State)

  function Reconstructed(v: Variant, s: State, i: nat): short
    requires i < 2 * (Size(v) + 1)
  {
    Narrow(Reconstruct(i > Size(v), Dqln(v, Level(v, i)), Narrow(StepSize(s))))
  }

  function Signal(v: Variant, se: short, dq: short): short {
    Narrow(if dq < 0 then se - dq % (if v.G723x40? then 0x8000 else 0x4000) else se + dq)
  }

  // What encoder and decoder do alike once the code i and the estimate se are known.
  function Apply(v: Variant, s: State, se: short, i: nat): (r: Step)
    requires s.Shaped() && i < 2 * (Size(v) + 1)
    ensures r.next.Shaped()
  {
    var dq := Reconstructed(v, s, i);
    var sr := Signal(v, se, dq);
    var dqsez := Narrow(sr + ZeroEstimate(s) / 2 - se);
    var k := Level(v, i);
    Step(sr, Update(CodeSize(v), Narrow(StepSize(s)), Wi(v, k), Fi(v, k), dq, sr, dqsez, s))
  }

  function EncodeCode(v: Variant, s: State, sl: int): (i: nat)
    requires s.Shaped()
    ensures 1 <= i < 2 * (Size(v) + 1)
  {
    var d := Narrow(sl - EncoderEstimate(v, s));
    CodeRange(d, Narrow(StepSize(s)), Qtab(v));
    Quantize(d, Narrow(StepSize(s)), Qtab(v))
  }

  function Encode(v: Variant, s: State, sl: int): (r: Step)
    requires s.Shaped()
    ensures r.next.Shaped()
  {
    Apply(v, s, EncoderEstimate(v, s), EncodeCode(v, s, sl))
  }

  function Decode(v: Variant, s: State, code: int): (r: Step)
    requires s.Shaped()
    ensures r.next.Shaped()
  {
    Apply(v, s, NarrowedEstimate(s), code % (2 * (Size(v) + 1)))
  }

  // ----- Every reachable state -----

  datatype Op = Enc(v: Variant, sl: int) | Dec(v: Variant, code: int)

  function EstimateOf(s: State, op: Op): short
    requires s.Shaped()
  {
    match op case Enc(v, _) => EncoderEstimate(v, s) case Dec(_, _) => NarrowedEstimate(s)
  }

  function CodeOf(s: State, op: Op): (i: nat)
    requires s.Shaped()
    ensures i < 2 * (Size(op.v) + 1)
  {
    match op case Enc(v, sl) => EncodeCode(v, s, sl) case Dec(v, code) => code % (2 * (Size(v) + 1))
  }

  // The state after one step, and after several.
  function Next(s: State, op: Op): (n: State)
    requires s.Shaped()
    ensures n.Shaped()
  {
    match op case Enc(v, sl) => Encode(v, s, sl).next case Dec(v, code) => Decode(v, s, code).next
  }

  function After(s: State, ops: seq<Op>): (n: State)
    requires s.Shaped()
    ensures n.Shaped()
    decreases |ops|
  {
    if ops == [] then s else After(Next(s, ops[0]), ops[1..])
  }

  function Run(ops: seq<Op>): (s: State)
    ensures s.Shaped()
  {
    if ops == [] then INIT else Next(Run(ops[..|ops| - 1]), ops[|ops| - 1])
  }

  // A run that goes on from the end of another.
  lemma {:induction false} RunAfter(ops: seq<Op>, more: seq<Op>)
    ensures Run(ops + more) == After(Run(ops), more)
    decreases |more|
  {
    hide Next;
    if more == [] {
      assert ops + more == ops;
    } else {
      var one := ops + [more[0]];
      assert one[..|one| - 1] == ops && ops + more == one + more[1..];
      RunAfter(one, more[1..]);
    }
  }

  lemma TableRanges(v: Variant, k: nat)
    ensures -2048 <= Dqln(v, k) <= 566 && 0 <= Fi(v, k) <= 3584
  {}

  lemma ApplyInv(v: Variant, s: State, se: short, i: nat)
    requires Inv(s) && i < 2 * (Size(v) + 1)
    ensures Inv(Apply(v, s, se, i).next)
  {
    hide Inv, Update, Wi, Fi, Dqln, StepSize, Reconstructed, Signal, Narrow;
    assert s.Shaped() by { InvShaped(s); }
    var k := Level(v, i);
    TableRanges(v, k);
    var dq := Reconstructed(v, s, i);
    var sr := Signal(v, se, dq);
    UpdateInv(CodeSize(v), Narrow(StepSize(s)), Wi(v, k), Fi(v, k), dq, sr, Narrow(sr + ZeroEstimate(s) / 2 - se), s);
  }

  lemma InvShaped(s: State)
    requires Inv(s)
    ensures s.Shaped()
  {}

  lemma NextInv(s: State, op: Op)
    requires Inv(s)
    ensures s.Shaped() && Inv(Next(s, op))
  {
    InvShaped(s);
    hide Inv, Apply, EncodeCode, EncoderEstimate, NarrowedEstimate;
    ApplyInv(op.v, s, EstimateOf(s, op), CodeOf(s, op));
  }

  // The invariant holds after every sequence of encoder and decoder steps of any mix of variants.
  lemma {:induction false} ReachableInv(ops: seq<Op>)
    ensures Inv(Run(ops))
  {
    hide Inv, Next;
    if ops == [] {
      InitInv();
    } else {
      ReachableInv(ops[..|ops| - 1]);
      NextInv(Run(ops[..|ops| - 1]), ops[|ops| - 1]);
    }
  }

  // What the invariant buys on every run: the step size is between the slow and the fast scale
  // factor, no code ever shifts by a negative amount, and the predictor is inside its stability region.
  lemma ReachableArithmetic(ops: seq<Op>, v: Variant, k: nat)
    ensures var s := Run(ops); var y := StepSize(s);
            && 544 <= y <= 5120 && (s.yl / 64 <= y <= s.yu || s.yu <= y <= s.yl / 64)
            && Dqln(v, k) + y / 4 < 15 * 128
            && -12288 <= s.a[1] <= 12288 && Abs(s.a[0]) <= 15360 - s.a[1]
            && Abs(PredictorZero(s, 6)) <= 6 * 32767 && Abs(PredictorPole(s)) <= 2 * 32767
  {
    ReachableInv(ops);
    var s := Run(ops);
    StepSizeBetween(s);
    PredictorBounds(s);
    TableRanges(v, k);
    hide Run, StepSize, PredictorZero, PredictorPole, Dqln, FloatOk;
  }

  // ----- Lockstep -----

  // The sum of the two estimates fits a C short.
  predicate Fits(s: State)
    requires s.Shaped()
  {
    -32768 <= ZeroEstimate(s) + PredictorPole(s) <= 32767
  }

  lemma EstimatesAgree(x: int)
    requires -98304 <= x <= 98303
    ensures Narrow(x / 2) == Narrow(x) / 2 <==> -32768 <= x <= 32767
  {}

  // Two estimates half the range apart give different signals for every difference.
  lemma SignalsDiffer(v: Variant, e: short, f: short, dq: short)
    requires (e - f) % 65536 == 32768
    ensures Signal(v, e, dq) != Signal(v, f, dq)
  {}

  lemma EstimatesApart(x: int)
    requires -98304 <= x <= 98303 && !(-32768 <= x <= 32767)
    ensures (Narrow(x / 2) - Narrow(x) / 2) % 65536 == 32768
  {}

  // The two ways of forming the estimate agree exactly when the sum fits.
  lemma EstimatesEqual(s: State)
    requires Inv(s)
    ensures s.Shaped() && (WideEstimate(s) == NarrowedEstimate(s) <==> Fits(s))
    ensures !Fits(s) ==> (WideEstimate(s) - NarrowedEstimate(s)) % 65536 == 32768
  {
    InvShaped(s);
    PredictorBounds(s);
    hide Inv, PredictorZero, PredictorPole, Narrow;
    var x := ZeroEstimate(s) + PredictorPole(s);
    hide ZeroEstimate;
    EstimatesAgree(x);
    if !Fits(s) {
      EstimatesApart(x);
    }
  }

  lemma ApplyDiffers(v: Variant, s: State, e: short, f: short, i: nat)
    requires s.Shaped() && i < 2 * (Size(v) + 1) && (e - f) % 65536 == 32768
    ensures Apply(v, s, e, i).sr != Apply(v, s, f, i).sr
  {
    SignalsDiffer(v, e, f, Reconstructed(v, s, i));
    hide Signal, Reconstructed, Update, Narrow, StepSize, Wi, Fi, Level, Size;
  }

  lemma OwnCode(v: Variant, s: State, sl: int)
    requires s.Shaped()
    ensures var i := EncodeCode(v, s, sl);
            Decode(v, s, i) == Apply(v, s, NarrowedEstimate(s), i) && Encode(v, s, sl) == Apply(v, s, EncoderEstimate(v, s), i)
  {
    hide Apply, EncodeCode, NarrowedEstimate, EncoderEstimate;
  }

  // One step from a common state. For G.723 the decoder always reaches the encoder's state and signal;
  // for G.721 exactly when the sum of the estimates fits sixteen bits.
  lemma StepLockstep(v: Variant, s: State, sl: int)
    requires Inv(s)
    ensures s.Shaped() && (Decode(v, s, EncodeCode(v, s, sl)) == Encode(v, s, sl) <==> (v.G721? ==> Fits(s)))
  {
    hide Inv, Apply, EncodeCode, WideEstimate, NarrowedEstimate, Fits, Encode, Decode, Size;
    EstimatesEqual(s);
    OwnCode(v, s, sl);
    if v.G721? && !Fits(s) {
      ApplyDiffers(v, s, WideEstimate(s), NarrowedEstimate(s), EncodeCode(v, s, sl));
    }
  }

  // The steps of an encoder run and of a decoder run.
  function EncodeRun(v: Variant, s: State, samples: seq<int>): seq<Step>
    requires s.Shaped()
    decreases |samples|
  {
    if samples == [] then [] else
      var r := Encode(v, s, samples[0]);
      [r] + EncodeRun(v, r.next, samples[1..])
  }

  function EncodedCodes(v: Variant, s: State, samples: seq<int>): seq<int>
    requires s.Shaped()
    decreases |samples|
  {
    if samples == [] then [] else
      [EncodeCode(v, s, samples[0])] + EncodedCodes(v, Encode(v, s, samples[0]).next, samples[1..])
  }

  function DecodeRun(v: Variant, s: State, codes: seq<int>): seq<Step>
    requires s.Shaped()
    decreases |codes|
  {
    if codes == [] then [] else
      var r := Decode(v, s, codes[0]);
      [r] + DecodeRun(v, r.next, codes[1..])
  }

  // The estimates fit at every step of the encoder's run.
  predicate AlwaysFits(v: Variant, s: State, samples: seq<int>)
    requires s.Shaped()
    decreases |samples|
  {
    samples == [] || (Fits(s) && AlwaysFits(v, Encode(v, s, samples[0]).next, samples[1..]))
  }

  // Lockstep over whole runs: a decoder fed the encoder's codes goes through the same states and
  // signals, unconditionally for G.723 and for G.721 exactly when the estimates always fit.
  lemma {:induction false} Lockstep(v: Variant, s: State, samples: seq<int>)
    requires Inv(s)
    ensures DecodeRun(v, s, EncodedCodes(v, s, samples)) == EncodeRun(v, s, samples)
            <==> (v.G721? ==> AlwaysFits(v, s, samples))
    decreases |samples|
  {
    hide Inv, Encode, Decode, EncodeCode, Fits;
    if samples != [] {
      assert s.Shaped() by { InvShaped(s); }
      var r := Encode(v, s, samples[0]);
      assert Inv(r.next) by {
        hide Inv, Apply, EncoderEstimate;
        EncodeInv(v, s, samples[0]);
      }
      StepLockstep(v, s, samples[0]);
      var codes := EncodedCodes(v, s, samples);
      assert codes[0] == EncodeCode(v, s, samples[0]) && codes[1..] == EncodedCodes(v, r.next, samples[1..]);
      var ds, es := DecodeRun(v, s, codes), EncodeRun(v, s, samples);
      assert ds[0] == Decode(v, s, codes[0]) && es[0] == r && es[1..] == EncodeRun(v, r.next, samples[1..]);
      assert ds[1..] == DecodeRun(v, ds[0].next, codes[1..]);
      Lockstep(v, r.next, samples[1..]);
      if ds[0] == r {
        assert ds == es <==> ds[1..] == es[1..];
      }
    }
  }

  lemma EncodeInv(v: Variant, s: State, sl: int)
    requires Inv(s)
    ensures s.Shaped() && Inv(Encode(v, s, sl).next)
  {
    InvShaped(s);
    hide Inv, Apply, EncoderEstimate, EncodeCode;
    ApplyInv(v, s, EncoderEstimate(v, s), EncodeCode(v, s, sl));
  }

  // From the initial state, the two G.723 coders never fall out of step.
  lemma Lockstep723(v: Variant, samples: seq<int>)
    requires !v.G721?
    ensures DecodeRun(v, INIT, EncodedCodes(v, INIT, samples)) == EncodeRun(v, INIT, samples)
  {
    InitInv();
    hide DecodeRun, EncodedCodes, EncodeRun, Inv;
    Lockstep(v, INIT, samples);
  }
}
