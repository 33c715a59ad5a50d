// What the adaptation does to the state of a coder, field by field and over runs: filters that close a gap by a
// fixed part, the gradient steps of the predictor, and the speed control that weighs the two scale factors.
module G72xAdaptation {
  import opened G72x
  import opened G72xInvariant
  import opened G72xCoder
  import opened Quantiser
  import opened Shifts

  // Going from x to n, the gap to g shrinks by an m-th of it, rounded.
  predicate Closes(x: int, n: int, g: int, m: int) {
    (m - 1) * (g - x) <= m * (g - n) < (m - 1) * (g - x) + m
  }

  // l is x less an m-th of it, rounded up.
  predicate Leaks(x: int, l: int, m: int) {
    (m - 1) * x <= m * l < (m - 1) * x + m
  }

  function Clamp(x: int, bound: int): int {
    if x < -bound then -bound else if x > bound then bound else x
  }

  // Plus one if the number and the sign bit agree, minus one otherwise.
  function Agreement(x: int, sign: bit): int {
    if (x < 0) == (sign == 1) then 1 else -1
  }

  // ----- Scale factors and energies -----

  // The two energies close in on the contribution of the code, the slow scale factor on the fast one, and the
  // fast one on the multiplier of the code, within its limits.
  lemma FiltersClose(codeSize: nat, y: int, wi: int, fi: int, dq: short, sr: short, dqsez: short, s: State)
    requires Inv(s) && 544 <= y <= 5120 && -4096 <= wi <= 65536 && 0 <= fi <= 3584
    ensures var n := Update(codeSize, y, wi, fi, dq, sr, dqsez, s);
            && Closes(s.dms, n.dms, fi, 32) && Closes(s.dml, n.dml, 4 * fi, 128) && Closes(s.yl, n.yl, 64 * n.yu, 64)
            && (exists u :: Closes(y, u, wi, 32) && n.yu == if u < 544 then 544 else if u > 5120 then 5120 else u)
  {
    EnergyCloses(s.dms, s.dml, fi);
    ScaleCloses(s.yl, y, wi);
    hide ShortEnergy, LongEnergy, SlowScale, FastScale, Speed, PoleOne, PoleTwo, Zeros, FloatDifference, FloatSignal, Transition, Inv;
  }

  lemma EnergyCloses(dms: short, dml: short, fi: int)
    requires 0 <= dms <= 3584 && 0 <= dml <= 14336 && 0 <= fi <= 3584
    ensures Closes(dms, ShortEnergy(dms, fi), fi, 32) && Closes(dml, LongEnergy(dml, fi), 4 * fi, 128)
  {}

  lemma ScaleCloses(yl: int, y: int, wi: int)
    requires 34816 <= yl <= 327680 && 544 <= y <= 5120 && -4096 <= wi <= 65536
    ensures Closes(yl, SlowScale(yl, FastScale(y, wi)), 64 * FastScale(y, wi), 64)
    ensures exists u :: Closes(y, u, wi, 32) && FastScale(y, wi) == if u < 544 then 544 else if u > 5120 then 5120 else u
  {
    var u := y + (wi - y) / 32;
    assert Closes(y, u, wi, 32);
  }

  // The tables of each coder: reconstructed levels and decision levels take turns, and a higher level has a scale
  // factor multiplier and an energy that are not smaller. The multipliers are multiples of 32, that of the lowest
  // level below every step size, that of the highest above; the energies are multiples of 512.
  lemma TablesOrdered(v: Variant, k: nat)
    requires k < Size(v)
    ensures Dqln(v, k) < Qtab(v)[k] <= Dqln(v, k + 1) && Wi(v, k) <= Wi(v, k + 1) && Fi(v, k) <= Fi(v, k + 1)
    ensures Wi(v, k) % 32 == Wi(v, Size(v)) % 32 == 0 && Fi(v, k) % 0x200 == Fi(v, Size(v)) % 0x200 == 0
    ensures Wi(v, 0) < 544 && Wi(v, Size(v)) > 5120 && Fi(v, 0) == 0 && Fi(v, Size(v)) >= 0xC00
  {
    match v {
      case G721 => match k { case 0 => case 1 => case 2 => case 3 => case 4 => case 5 => case 6 => }
      case G723x24 => match k { case 0 => case 1 => case 2 => }
      case G723x40 => FortyOrdered(k);
    }
  }

  lemma FortyOrdered(k: nat)
    requires k < 15
    ensures var v := G723x40;
            && Dqln(v, k) < Qtab(v)[k] <= Dqln(v, k + 1) && Wi(v, k) <= Wi(v, k + 1) && Fi(v, k) <= Fi(v, k + 1)
            && Wi(v, k) % 32 == Wi(v, 15) % 32 == 0 && Fi(v, k) % 0x200 == Fi(v, 15) % 0x200 == 0
            && Wi(v, 0) < 544 && Wi(v, 15) > 5120 && Fi(v, 0) == 0 && Fi(v, 15) >= 0xC00
  {
    match k {
      case 0 => case 1 => case 2 => case 3 => case 4 => case 5 => case 6 => case 7 =>
      case 8 => case 9 => case 10 => case 11 => case 12 => case 13 => case 14 =>
    }
  }

  lemma {:induction false} MultipliersGrow(v: Variant, j: nat, k: nat)
    requires j <= k <= Size(v)
    ensures Wi(v, j) <= Wi(v, k)
    decreases k
  {
    if j < k {
      TablesOrdered(v, k - 1);
      hide Wi, Fi, Dqln, Qtab, Size;
      MultipliersGrow(v, j, k - 1);
    }
  }

  // From the same step size a louder level never leads to a smaller fast scale factor; the lowest level never
  // raises it above the step size, and the highest never leaves it below.
  lemma LouderIsFaster(v: Variant, j: nat, k: nat, y: int, sz: nat, fi: int, dq: short, sr: short, dqsez: short, s: State)
    requires j <= k <= Size(v) && 544 <= y <= 5120 && s.Shaped()
    ensures Update(sz, y, Wi(v, j), fi, dq, sr, dqsez, s).yu <= Update(sz, y, Wi(v, k), fi, dq, sr, dqsez, s).yu
    ensures Update(sz, y, Wi(v, 0), fi, dq, sr, dqsez, s).yu <= y <= Update(sz, y, Wi(v, Size(v)), fi, dq, sr, dqsez, s).yu
  {
    MultipliersGrow(v, j, k);
    MultiplierRange(v, j);
    MultiplierRange(v, k);
    MultiplierRange(v, 0);
    MultiplierRange(v, Size(v));
    TablesOrdered(v, 0);
    hide Wi, Fi, Dqln, Qtab, Size;
    hide ShortEnergy, LongEnergy, SlowScale, Speed, PoleOne, PoleTwo, Zeros, FloatDifference, FloatSignal, Transition;
  }

  lemma MultiplierRange(v: Variant, k: nat)
    requires k <= Size(v)
    ensures -4096 <= Wi(v, k) <= 36000
  {}

  // ----- Checks on the tables -----

  // The first n entries of each table, weighed with their places.
  datatype Weights = Weights(decision: int, level: int, multiplier: int, energy: int)

  function Weighed(v: Variant, n: nat): Weights
    requires n <= Size(v) + 1
  {
    if n == 0 then Weights(0, 0, 0, 0) else
      var w := Weighed(v, n - 1);
      Weights(w.decision + (if n <= Size(v) then n * Qtab(v)[n - 1] else 0), w.level + n * Dqln(v, n - 1),
              w.multiplier + n * Wi(v, n - 1), w.energy + n * Fi(v, n - 1))
  }

  lemma Add(v: Variant, k: nat)
    requires k <= Size(v)
    ensures var w := Weighed(v, k);
            Weighed(v, k + 1) ==
            Weights(w.decision + (if k < Size(v) then (k + 1) * Qtab(v)[k] else 0), w.level + (k + 1) * Dqln(v, k),
                    w.multiplier + (k + 1) * Wi(v, k), w.energy + (k + 1) * Fi(v, k))
  {
    hide Qtab, Dqln, Wi, Fi, Size;
  }

  lemma NoneWeighed(v: Variant)
    ensures Weighed(v, 0) == Weights(0, 0, 0, 0)
  {}

  lemma G721Weighs()
    ensures Weighed(G721, 8) == Weights(7948, 8531, 435584, 47104)
  {
    NoneWeighed(G721);
    hide Weighed;
    Add(G721, 0); Add(G721, 1); Add(G721, 2); Add(G721, 3); Add(G721, 4); Add(G721, 5); Add(G721, 6); Add(G721, 7);
  }

  lemma G723x24Weighs()
    ensures Weighed(G723x24, 4) == Weights(1437, 533, 89440, 18432)
  {
    NoneWeighed(G723x24);
    hide Weighed;
    Add(G723x24, 0); Add(G723x24, 1); Add(G723x24, 2); Add(G723x24, 3);
  }

  lemma G723x40Weighs()
    ensures Weighed(G723x40, 16) == Weights(48234, 53051, 1300320, 207872)
  {
    NoneWeighed(G723x40);
    hide Weighed;
    Add(G723x40, 0); Add(G723x40, 1); Add(G723x40, 2); Add(G723x40, 3); Add(G723x40, 4); Add(G723x40, 5);
    Add(G723x40, 6); Add(G723x40, 7); Add(G723x40, 8); Add(G723x40, 9); Add(G723x40, 10); Add(G723x40, 11);
    Add(G723x40, 12); Add(G723x40, 13); Add(G723x40, 14); Add(G723x40, 15);
  }

  // The tables of the three coders: no entry can be changed alone, and no two of a table exchanged.
  lemma TablesWeigh(v: Variant)
    ensures Weighed(v, Size(v) + 1) ==
            match v
            case G721 => Weights(7948, 8531, 435584, 47104)
            case G723x24 => Weights(1437, 533, 89440, 18432)
            case G723x40 => Weights(48234, 53051, 1300320, 207872)
  {
    G721Weighs();
    G723x24Weighs();
    G723x40Weighs();
    hide Weighed;
  }

  // ----- Tones -----

  // A large difference while a tone is suspected clears the predictor and sets a medium speed; otherwise a tone
  // is suspected from now on exactly if the second pole is far out.
  lemma ToneCleared(codeSize: nat, y: int, wi: int, fi: int, dq: short, sr: short, dqsez: short, s: State)
    requires Inv(s)
    ensures var n := Update(codeSize, y, wi, fi, dq, sr, dqsez, s);
            var large := if s.yl == 327680 then 31 * 1024 else Lsl(32 + s.yl / 1024 % 32, s.yl / 32768);
            if s.td == 1 && dq % 0x8000 > (large + large / 2) / 2 then
              n.a == [0, 0] && n.b == [0, 0, 0, 0, 0, 0] && n.td == 0 && n.ap == 256
            else !Transition(s, dq) && (n.td == 1 <==> n.a[1] < -11776)
  {
    ThresholdExact(s.yl);
    hide ShortEnergy, LongEnergy, SlowScale, FastScale, PoleOne, PoleTwo, Zeros, FloatDifference, FloatSignal, Threshold, Lsl;
  }

  // ----- The predictor -----

  // Without a tone the poles follow the gradient of section 2.7 of ITU-T G.726 for the signs of the signal without
  // its poles' part, now and at the two samples before: a leak, a step up or down, and the limits of stability.
  lemma PolesFollow(codeSize: nat, y: int, wi: int, fi: int, dq: short, sr: short, dqsez: short, s: State)
    requires Inv(s) && !Transition(s, dq)
    ensures var n := Update(codeSize, y, wi, fi, dq, sr, dqsez, s);
            Gradient(s, dqsez, n.a) && n.pk == [if dqsez < 0 then 1 else 0, s.pk[0]]
  {
    GradientIs(s, dqsez);
    hide ShortEnergy, LongEnergy, SlowScale, FastScale, Speed, PoleOne, PoleTwo, Zeros, FloatDifference, FloatSignal, Transition;
    hide Gradient, Inv;
  }

  predicate Gradient(s: State, dqsez: int, a: seq<short>)
    requires s.Shaped() && |a| == 2
  {
    var up0, up1 := Agreement(dqsez, s.pk[0]), Agreement(dqsez, s.pk[1]);
    var l1, l0 := s.a[1] - s.a[1] / 128, s.a[0] - s.a[0] / 256;
    if dqsez == 0 then a[1] == l1 && a[0] == Clamp(l0, 15360 - l1) else
      && a[1] == Clamp(l1 + 128 * up1 + Limit(-up0 * s.a[0] / 32, -256, 255), 12288)
      && a[0] == Clamp(l0 + 192 * up0, 15360 - a[1])
  }

  lemma GradientIs(s: State, dqsez: int)
    requires Inv(s)
    ensures var a2p := PoleTwo(s.a[0], s.a[1], s.pk[0], s.pk[1], dqsez);
            s.Shaped() && Gradient(s, dqsez, [PoleOne(s.a[0], s.pk[0], dqsez, a2p), a2p])
  {
    PoleTwoFollows(s.a[0], s.a[1], s.pk[0], s.pk[1], dqsez);
    var a2p := PoleTwo(s.a[0], s.a[1], s.pk[0], s.pk[1], dqsez);
    PoleTwoBounds(s.a[0], s.a[1], s.pk[0], s.pk[1], dqsez);
    PoleOneFollows(s.a[0], s.pk[0], dqsez, a2p);
    hide PoleOne, PoleTwo, FloatOk, Clamp, Limit, Agreement;
  }

  lemma PoleTwoFollows(a0: short, a1: short, pk0: bit, pk1: bit, dqsez: int)
    requires -12288 <= a1 <= 12288 && Abs(a0) <= 15360 - a1
    ensures PoleTwo(a0, a1, pk0, pk1, dqsez) ==
            if dqsez == 0 then a1 - a1 / 128
            else Clamp(a1 - a1 / 128 + 128 * Agreement(dqsez, pk1) + Limit(-Agreement(dqsez, pk0) * a0 / 32, -256, 255), 12288)
  {}

  lemma PoleOneFollows(a0: short, pk0: bit, dqsez: int, a2p: short)
    requires -12288 <= a2p <= 12288 && -27648 <= a0 <= 27648
    ensures PoleOne(a0, pk0, dqsez, a2p) ==
            Clamp(a0 - a0 / 256 + (if dqsez == 0 then 0 else 192 * Agreement(dqsez, pk0)), 15360 - a2p)
  {}

  // Each zero leaks and steps up or down with the agreement of the signs of the difference and the delayed one;
  // at 40 kbit/s it leaks half as fast.
  lemma ZerosFollow(codeSize: nat, y: int, wi: int, fi: int, dq: short, sr: short, dqsez: short, s: State, i: nat)
    requires Inv(s) && !Transition(s, dq) && i < 6
    ensures var n := Update(codeSize, y, wi, fi, dq, sr, dqsez, s);
            var m := if codeSize == 5 then 512 else 256;
            exists l :: Leaks(s.b[i], l, m) &&
              n.b[i] == Narrow(if dq % 0x8000 == 0 then l else l + 128 * Agreement(dq, if s.dq[i] < 0 then 1 else 0))
  {
    var l := s.b[i] - (if codeSize == 5 then s.b[i] / 512 else s.b[i] / 256);
    assert Leaks(s.b[i], l, if codeSize == 5 then 512 else 256);
    hide ShortEnergy, LongEnergy, SlowScale, FastScale, Speed, PoleOne, PoleTwo, FloatDifference, FloatSignal, Transition;
    hide Leaks, FloatOk;
  }

  // ----- The delay lines -----

  // x is the sign and the six leading bits of a magnitude: with its exponent e, mag * 64 lies between m * 2^e and
  // (m + 1) * 2^e for the mantissa m.
  predicate FloatOf(x: int, negative: bool, mag: int) {
    && FloatInRange(x) && (x < 0 <==> negative)
    && (mag == 0 ==> x % 1024 == 32)
    && (mag > 0 ==> Lsl(x % 64, x / 64 % 16) <= mag * 64 < Lsl(x % 64 + 1, x / 64 % 16))
  }

  predicate FloatInRange(x: int) {
    -1024 <= x < 1024 && x % 64 >= 32
  }

  // The newest difference and signal enter in front as floats, and the others move by one. A difference is a sign
  // bit and a magnitude; the most negative signal enters as a negative zero.
  lemma LinesMove(codeSize: nat, y: int, wi: int, fi: int, dq: short, sr: short, dqsez: short, s: State)
    requires Inv(s)
    ensures var n := Update(codeSize, y, wi, fi, dq, sr, dqsez, s);
            && FloatOf(n.dq[0], dq < 0, dq % 0x8000) && (forall i | 0 < i < 6 :: n.dq[i] == s.dq[i - 1])
            && FloatOf(n.sr[0], sr < 0, Abs(sr) % 0x8000) && n.sr[1] == s.sr[0]
  {
    hide ShortEnergy, LongEnergy, SlowScale, FastScale, Speed, PoleOne, PoleTwo, Zeros, Transition, FloatOk;
    if dq % 0x8000 > 0 {
      FloatTruncates(dq % 0x8000);
    }
    if Abs(sr) % 0x8000 > 0 {
      FloatTruncates(Abs(sr) % 0x8000);
    }
    FloatsEnter(dq, sr);
    hide Float, FloatDifference, FloatSignal, FloatOf;
  }

  lemma FloatTruncates(mag: int)
    requires 0 < mag < 0x8000
    ensures var f := Float(mag); FloatOf(f, false, mag) && FloatOf(f - 0x400, true, mag) && 0 <= f < 1024
  {
    FloatBounds(mag);
    var f, e := Float(mag), Exponent(mag);
    assert f == e * 64 + Asr(mag * 64, e);
    hide Exponent, Float;
    assert f % 64 == Asr(mag * 64, e);
    DroppedRange(mag * 64, e);
    NextUp(f % 64, e);
    hide Asr, Lsl;
    SignApart(f);
  }

  // The sign of a float is apart from its exponent and mantissa.
  lemma SignApart(f: int)
    requires 0 <= f < 1024
    ensures (f - 0x400) % 64 == f % 64 && (f - 0x400) / 64 % 16 == f / 64 % 16 && f / 64 % 16 == f / 64
  {}

  lemma {:induction false} NextUp(m: int, e: nat)
    ensures Lsl(m + 1, e) == Lsl(m, e) + Lsl(1, e)
    decreases e
  {
    if e > 0 {
      NextUp(m, e - 1);
    }
  }

  lemma FloatsEnter(dq: short, sr: short)
    requires var f := Float(dq % 0x8000); dq % 0x8000 > 0 ==> FloatOf(f, false, dq % 0x8000) && FloatOf(f - 0x400, true, dq % 0x8000) && 0 <= f < 1024
    requires var f, m := Float(Abs(sr) % 0x8000), Abs(sr) % 0x8000; m > 0 ==> FloatOf(f, false, m) && FloatOf(f - 0x400, true, m) && 0 <= f < 1024
    ensures FloatOf(FloatDifference(dq), dq < 0, dq % 0x8000) && FloatOf(FloatSignal(sr), sr < 0, Abs(sr) % 0x8000)
  {
    hide Float, Lsl;
  }

  // ----- Speed control -----

  // The step neither breaks off for a tone, nor has a small step size, a suspected tone or energies that differ.
  predicate Calm(y: int, dq: short, s: State, n: State) {
    !Transition(s, dq) && y >= 1536 && n.td == 0 && 8 * Abs(4 * n.dms - n.dml) < n.dml - n.dml % 8
  }

  // The speed falls by a sixteenth of itself in a calm step and climbs by a sixteenth of what is left to 512 in
  // any other, rounded up and down; a tone that breaks off sets it to 256.
  lemma SpeedControl(codeSize: nat, y: int, wi: int, fi: int, dq: short, sr: short, dqsez: short, s: State)
    requires Inv(s) && 0 <= fi <= 3584
    ensures var n := Update(codeSize, y, wi, fi, dq, sr, dqsez, s);
            if Transition(s, dq) then n.ap == 256
            else if Calm(y, dq, s, n) then 0 <= n.ap && s.ap <= 16 * (s.ap - n.ap) < s.ap + 16
            else s.ap <= n.ap <= 512 && 512 - s.ap - 16 < 16 * (n.ap - s.ap) <= 512 - s.ap
  {
    EnergyBounds(s.dms, s.dml, fi);
    var n := Update(codeSize, y, wi, fi, dq, sr, dqsez, s);
    assert 0 <= n.dms <= 3584 && 0 <= n.dml <= 14336 by {
      hide SlowScale, FastScale, PoleOne, PoleTwo, Zeros, FloatDifference, FloatSignal, Transition, ShortEnergy, LongEnergy, Speed;
    }
    hide SlowScale, FastScale, PoleOne, PoleTwo, Zeros, FloatDifference, FloatSignal, Transition, ShortEnergy, LongEnergy, FloatOk;
  }

  // When the energies have settled on what the codes contribute, a step with a step size that is not small and no
  // tone is calm, unless the codes contribute nothing.
  lemma SettledIsCalm(codeSize: nat, y: int, wi: int, fi: int, dq: short, sr: short, dqsez: short, s: State)
    requires Inv(s) && s.dms == fi && s.dml == 4 * fi && y >= 1536 && !Transition(s, dq)
    ensures var n := Update(codeSize, y, wi, fi, dq, sr, dqsez, s); n.td == 0 ==> (Calm(y, dq, s, n) <==> fi >= 2)
  {
    assert ShortEnergy(s.dms, fi) == fi && LongEnergy(s.dml, fi) == 4 * fi;
    hide SlowScale, FastScale, PoleOne, PoleTwo, Zeros, FloatDifference, FloatSignal, Transition, ShortEnergy, LongEnergy, Speed, FloatOk;
  }

  // The difference that a step of a coder reconstructs.
  function Difference(s: State, op: Op): short
    requires s.Shaped()
  {
    Reconstructed(op.v, s, CodeOf(s, op))
  }

  predicate CalmStep(s: State, op: Op)
    requires s.Shaped()
  {
    Calm(StepSize(s), Difference(s, op), s, Next(s, op))
  }

  predicate Breaks(s: State, op: Op)
    requires s.Shaped()
  {
    Transition(s, Difference(s, op))
  }

  lemma NextSpeed(s: State, op: Op)
    requires Inv(s)
    ensures s.Shaped() && Inv(Next(s, op))
    ensures var n := Next(s, op);
            if Breaks(s, op) then n.ap == 256
            else if CalmStep(s, op) then 0 <= n.ap && s.ap <= 16 * (s.ap - n.ap) < s.ap + 16
            else s.ap <= n.ap <= 512 && 512 - s.ap - 16 < 16 * (n.ap - s.ap) <= 512 - s.ap
  {
    hide *;
    NextInv(s, op);
    var wi, fi, sr, dqsez := NextIs(s, op);
    SpeedControl(CodeSize(op.v), StepSize(s), wi, fi, Difference(s, op), sr, dqsez, s);
    CalmIs(s, op);
  }

  lemma CalmIs(s: State, op: Op)
    requires s.Shaped()
    ensures CalmStep(s, op) <==> Calm(StepSize(s), Difference(s, op), s, Next(s, op))
    ensures Breaks(s, op) <==> Transition(s, Difference(s, op))
  {
    hide Calm, Next, Transition, StepSize, Difference;
  }

  // A step of a coder adapts its state.
  lemma NextIs(s: State, op: Op) returns (wi: int, fi: int, sr: short, dqsez: short)
    requires Inv(s)
    ensures s.Shaped() && 544 <= StepSize(s) <= 5120 && 0 <= fi <= 3584
    ensures Next(s, op) == Update(CodeSize(op.v), StepSize(s), wi, fi, Difference(s, op), sr, dqsez, s)
  {
    hide *;
    InvShaped(s);
    StepSizeBetween(s);
    var v, i, se := op.v, CodeOf(s, op), EstimateOf(s, op);
    NextApplies(s, op);
    var k := Level(v, i);
    TableRanges(v, k);
    sr := Signal(v, se, Difference(s, op));
    wi, fi, dqsez := Wi(v, k), Fi(v, k), Narrow(sr + ZeroEstimate(s) / 2 - se);
    ApplyIs(v, s, se, i, StepSize(s));
    DifferenceIs(s, op);
  }

  lemma DifferenceIs(s: State, op: Op)
    requires s.Shaped()
    ensures Difference(s, op) == Reconstructed(op.v, s, CodeOf(s, op))
  {
    hide Reconstructed, CodeOf;
  }

  lemma NextApplies(s: State, op: Op)
    requires s.Shaped()
    ensures Next(s, op) == Apply(op.v, s, EstimateOf(s, op), CodeOf(s, op)).next
  {
    hide Apply, EncodeCode, EncoderEstimate, NarrowedEstimate, Size;
  }

  lemma ApplyIs(v: Variant, s: State, se: short, i: nat, y: int)
    requires s.Shaped() && i < 2 * (Size(v) + 1) && y == StepSize(s) && 0 <= y <= 5120
    ensures var dq := Reconstructed(v, s, i); var sr := Signal(v, se, dq); var k := Level(v, i);
            Apply(v, s, se, i).next ==
            Update(CodeSize(v), y, Wi(v, k), Fi(v, k), dq, sr, Narrow(sr + ZeroEstimate(s) / 2 - se), s)
  {
    assert Narrow(y) == y;
    hide Update, Wi, Fi, StepSize, Signal, ZeroEstimate, Reconstructed, Level, Size, Narrow;
  }

  // The signal is the estimate plus or minus the magnitude of the difference: on the step sizes in use the masks of
  // the coders, fourteen bits and at 40 kbit/s fifteen, cut nothing off.
  lemma SignalExact(v: Variant, s: State, se: short, i: nat)
    requires Inv(s) && i < 2 * (Size(v) + 1)
    ensures var mag := Reconstruct(false, Dqln(v, Level(v, i)), StepSize(s));
            Signal(v, se, Reconstructed(v, s, i)) == Narrow(if i > Size(v) then se - mag else se + mag)
  {
    StepSizeBetween(s);
    var y, d := StepSize(s), Dqln(v, Level(v, i));
    TableRanges(v, Level(v, i));
    hide Inv, StepSize, Level;
    if !v.G723x40? {
      DifferenceFits(v, d, y, Level(v, i));
    }
    SignAndMagnitude(d, y);
    hide Dqln, Reconstruct;
    ReconstructedIs(v, s, i, y);
    hide Reconstructed, Signal, Size, Narrow;
    SignalOf(v, se, Reconstruct(false, d, y), i > Size(v));
  }

  lemma ReconstructedIs(v: Variant, s: State, i: nat, y: int)
    requires i < 2 * (Size(v) + 1) && y == StepSize(s) && 0 <= y <= 5120
    requires var d := Dqln(v, Level(v, i)); Narrow(Reconstruct(true, d, y)) == Reconstruct(false, d, y) - 0x8000
    requires 0 <= Reconstruct(false, Dqln(v, Level(v, i)), y) < 0x8000
    ensures var mag := Reconstruct(false, Dqln(v, Level(v, i)), y);
            Reconstructed(v, s, i) as int == if i > Size(v) then mag - 0x8000 else mag
  {
    assert Narrow(y) == y;
    hide Reconstruct, Dqln, Level, Size, StepSize;
  }

  lemma SignalOf(v: Variant, se: short, mag: int, negative: bool)
    requires 0 <= mag < 0x8000 && (!v.G723x40? ==> mag < 0x4000)
    ensures Signal(v, se, if negative then mag - 0x8000 else mag) == Narrow(if negative then se - mag else se + mag)
  {
    var dq := if negative then mag - 0x8000 else mag;
    assert negative ==> dq % 0x8000 == mag && (mag < 0x4000 ==> dq % 0x4000 == mag);
    hide Narrow;
  }

  lemma DifferenceFits(v: Variant, d: int, y: int, k: nat)
    requires k <= Size(v) && d == Dqln(v, k) && 544 <= y <= 5120 && !v.G723x40?
    ensures Reconstruct(false, d, y) < 0x4000
  {
    var dql := d + y / 4;
    LevelsLow(v, k);
    hide Dqln, Size;
    assert dql < 14 * 128;
    hide Asr;
    if dql >= 0 {
      var e, t := dql / 128, (128 + dql % 128) * 128;
      assert e % 16 == e && e < 14 && 0 <= t <= 32640;
      AsrLittle(t, 14 - e);
    }
  }

  lemma LevelsLow(v: Variant, k: nat)
    requires k <= Size(v)
    ensures !v.G723x40? ==> Dqln(v, k) < 512
  {}

  lemma AsrLittle(t: int, n: nat)
    requires 0 <= t <= 32640 && 1 <= n <= 14
    ensures 0 <= Asr(t, n) <= 16320
  {
    AsrShrinks(t / 2, n - 1);
  }

  // In a step of a coder the zeros leak half as fast at 40 kbit/s as at the other rates.
  lemma ZerosOfCoder(s: State, op: Op, i: nat)
    requires Inv(s) && s.Shaped() && !Breaks(s, op) && i < 6
    ensures var m := if op.v.G723x40? then 512 else 256; var dq := Difference(s, op);
            exists l :: Leaks(s.b[i], l, m) &&
              Next(s, op).b[i] == Narrow(if dq % 0x8000 == 0 then l else l + 128 * Agreement(dq, if s.dq[i] < 0 then 1 else 0))
  {
    var wi, fi, sr, dqsez := NextIs(s, op);
    CalmIs(s, op);
    hide Inv, Next, Update, StepSize, Difference, Leaks, Agreement, Narrow, Transition, Breaks;
    ZerosFollow(CodeSize(op.v), StepSize(s), wi, fi, Difference(s, op), sr, dqsez, s, i);
  }

  predicate AllCalm(s: State, ops: seq<Op>)
    requires s.Shaped()
    decreases |ops|
  {
    ops == [] || (CalmStep(s, ops[0]) && AllCalm(Next(s, ops[0]), ops[1..]))
  }

  predicate NoneCalm(s: State, ops: seq<Op>)
    requires s.Shaped()
    decreases |ops|
  {
    ops == [] || (!CalmStep(s, ops[0]) && !Breaks(s, ops[0]) && NoneCalm(Next(s, ops[0]), ops[1..]))
  }

  // n times less a sixteenth, rounded up.
  function Decay(x: nat, n: nat): nat
    decreases n
  {
    if n == 0 then x else Decay(x - (x + 15) / 16, n - 1)
  }

  lemma {:induction false} DecayMonotone(x: nat, z: nat, n: nat)
    requires x <= z
    ensures Decay(x, n) <= Decay(z, n) <= z
    decreases n
  {
    if n > 0 {
      DecayMonotone(x - (x + 15) / 16, z - (z + 15) / 16, n - 1);
    }
  }

  lemma {:induction false} CalmDecays(s: State, ops: seq<Op>, top: nat)
    requires Inv(s) && s.Shaped() && AllCalm(s, ops) && s.ap <= top
    ensures After(s, ops).Shaped() && Inv(After(s, ops)) && After(s, ops).ap <= Decay(top, |ops|)
    decreases |ops|
  {
    hide Inv, CalmStep, Breaks, Next;
    if ops != [] {
      NextSpeed(s, ops[0]);
      assert !Breaks(s, ops[0]) by {
        hide *;
        CalmKeeps(s, ops[0]);
      }
      var n := Next(s, ops[0]);
      CalmDecays(n, ops[1..], top - (top + 15) / 16);
    }
  }

  lemma CalmKeeps(s: State, op: Op)
    requires s.Shaped() && CalmStep(s, op)
    ensures !Breaks(s, op)
  {
    hide Next, Transition, StepSize, Difference;
  }

  lemma {:induction false} RestlessDecays(s: State, ops: seq<Op>, gap: nat)
    requires Inv(s) && s.Shaped() && NoneCalm(s, ops) && 512 - s.ap <= gap
    ensures After(s, ops).Shaped() && Inv(After(s, ops)) && 512 - After(s, ops).ap <= Climb(gap, |ops|)
    decreases |ops|
  {
    hide Inv, CalmStep, Breaks, Next;
    if ops != [] {
      NextSpeed(s, ops[0]);
      var n := Next(s, ops[0]);
      RestlessDecays(n, ops[1..], gap - gap / 16);
    }
  }

  // n times less a sixteenth, rounded down.
  function Climb(x: nat, n: nat): nat
    decreases n
  {
    if n == 0 then x else Climb(x - x / 16, n - 1)
  }

  lemma {:induction false} ClimbMonotone(x: nat, z: nat, n: nat)
    requires x <= z
    ensures Climb(x, n) <= Climb(z, n) <= z
    decreases n
  {
    if n > 0 {
      ClimbMonotone(x - x / 16, z - z / 16, n - 1);
    }
  }

  lemma SlowStep(s: State)
    requires Inv(s)
    ensures s.ap == 0 ==> StepSize(s) == s.yl / 64
  {
    var dif := s.yu - s.yl / 64;
    assert dif * 0 == 0;
  }

  lemma D(x: nat, n: nat)
    ensures Decay(x, n + 1) == Decay(x - (x + 15) / 16, n)
  {}

  lemma C(x: nat, n: nat)
    ensures Climb(x, n + 1) == Climb(x - x / 16, n)
  {}

  lemma DecaysToHalf(n: nat)
    ensures Decay(512, n + 11) == Decay(248, n)
  {
    hide Decay;
    D(512, n + 10); D(480, n + 9); D(450, n + 8); D(421, n + 7); D(394, n + 6); D(369, n + 5); D(345, n + 4);
    D(323, n + 3); D(302, n + 2); D(283, n + 1); D(265, n);
  }

  lemma DecaysToEighth(n: nat)
    ensures Decay(248, n + 19) == Decay(68, n)
  {
    hide Decay;
    D(248, n + 18); D(232, n + 17); D(217, n + 16); D(203, n + 15); D(190, n + 14); D(178, n + 13); D(166, n + 12);
    D(155, n + 11); D(145, n + 10); D(135, n + 9); D(126, n + 8); D(118, n + 7); D(110, n + 6); D(103, n + 5);
    D(96, n + 4); D(90, n + 3); D(84, n + 2); D(78, n + 1); D(73, n);
  }

  lemma DecaysToNothing(n: nat)
    ensures Decay(68, n + 34) == Decay(0, n)
  {
    hide Decay;
    DecaysToSixteen(n + 16);
    D(16, n + 15); D(15, n + 14); D(14, n + 13); D(13, n + 12); D(12, n + 11); D(11, n + 10); D(10, n + 9);
    D(9, n + 8); D(8, n + 7); D(7, n + 6); D(6, n + 5); D(5, n + 4); D(4, n + 3); D(3, n + 2); D(2, n + 1);
    D(1, n);
  }

  lemma DecaysToSixteen(n: nat)
    ensures Decay(68, n + 18) == Decay(16, n)
  {
    hide Decay;
    D(68, n + 17); D(63, n + 16); D(59, n + 15); D(55, n + 14); D(51, n + 13); D(47, n + 12); D(44, n + 11);
    D(41, n + 10); D(38, n + 9); D(35, n + 8); D(32, n + 7); D(30, n + 6); D(28, n + 5); D(26, n + 4);
    D(24, n + 3); D(22, n + 2); D(20, n + 1); D(18, n);
  }

  lemma ClimbsTo(n: nat)
    ensures Climb(512, n + 11) == Climb(255, n)
  {
    hide Climb;
    C(512, n + 10); C(480, n + 9); C(450, n + 8); C(422, n + 7); C(396, n + 6); C(372, n + 5); C(349, n + 4);
    C(328, n + 3); C(308, n + 2); C(289, n + 1); C(271, n);
  }

  // From any state, eleven calm steps bring the speed below 256, from where on the step size is a mean of the two
  // scale factors again; after sixty-four it is the slow scale factor alone.
  lemma CalmRunsSlowDown(s: State, ops: seq<Op>)
    requires Inv(s) && s.Shaped() && AllCalm(s, ops)
    ensures After(s, ops).Shaped() && Inv(After(s, ops))
    ensures |ops| >= 11 ==> After(s, ops).ap < 256
    ensures |ops| >= 64 ==> After(s, ops).ap == 0 && StepSize(After(s, ops)) == After(s, ops).yl / 64
  {
    CalmDecays(s, ops, 512);
    SlowStep(After(s, ops));
    DecaysFar(|ops|);
    hide *;
  }

  lemma DecaysFar(n: nat)
    ensures n >= 11 ==> Decay(512, n) < 256
    ensures n >= 64 ==> Decay(512, n) == 0
  {
    hide Decay;
    if n >= 11 {
      DecaysToHalf(n - 11);
      DecayMonotone(248, 248, n - 11);
    }
    if n >= 64 {
      DecaysToEighth(n - 30);
      DecaysToNothing(n - 64);
      DecayMonotone(0, 0, n - 64);
    }
  }

  // From any state, eleven restless steps bring the speed to 256 and more, where the step size is the fast scale
  // factor.
  lemma RestlessRunsSpeedUp(s: State, ops: seq<Op>)
    requires Inv(s) && s.Shaped() && NoneCalm(s, ops) && |ops| >= 11
    ensures After(s, ops).Shaped() && Inv(After(s, ops))
    ensures After(s, ops).ap >= 256 && StepSize(After(s, ops)) == After(s, ops).yu
  {
    RestlessDecays(s, ops, 512);
    hide After, NoneCalm, Climb;
    ClimbsTo(|ops| - 11);
    ClimbMonotone(255, 255, |ops| - 11);
  }

  // So on every run of the coders.
  lemma SpeedOnRuns(ops: seq<Op>, more: seq<Op>)
    ensures var s := Run(ops + more);
            && (AllCalm(Run(ops), more) && |more| >= 11 ==> s.ap < 256)
            && (AllCalm(Run(ops), more) && |more| >= 64 ==> StepSize(s) == s.yl / 64)
            && (NoneCalm(Run(ops), more) && |more| >= 11 ==> StepSize(s) == s.yu)
  {
    ReachableInv(ops);
    RunAfter(ops, more);
    hide Run, After, Inv, StepSize;
    if AllCalm(Run(ops), more) {
      CalmRunsSlowDown(Run(ops), more);
    }
    if NoneCalm(Run(ops), more) && |more| >= 11 {
      RestlessRunsSpeedUp(Run(ops), more);
    }
  }
}
