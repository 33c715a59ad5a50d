// For which codes and step sizes the quantiser returns the code that the inverse quantiser
// was given: always for G.721 and 24 kbit/s, and outside a few gaps for 40 kbit/s.
module CodeRoundTrip {
  import opened G72x
  import opened Shifts
  import opened Quantiser
  import opened G72xCoder

  // Requantising the signed magnitude that code i reconstructs at step size y gives i again.
  predicate Returns(v: Variant, i: nat, y: int)
    requires i < 2 * (Size(v) + 1)
  {
    Quantize(Signed(Reconstruct(i > Size(v), Dqln(v, Level(v, i)), y)), y, Qtab(v)) == i
  }

  lemma QtabSorted(v: Variant)
    ensures Sorted(Qtab(v)) && -136 < Qtab(v)[0]
  {}

  // The lower edge of each positive level lies below its reconstruction value, the upper edge above.
  lemma LevelEdges(v: Variant, k: nat)
    requires 1 <= k <= Size(v)
    ensures -66 <= Dqln(v, k) <= 566
    ensures Qtab(v)[k - 1] <= Dqln(v, k) && (k < Size(v) ==> Dqln(v, k) < Qtab(v)[k])
  {}

  // A nonzero level comes back exactly when the truncated part of the antilog is no larger than
  // the distance of its reconstruction value from the lower edge of the level.
  lemma ReturnsExactly(v: Variant, i: nat, y: int)
    requires 1 <= i <= 2 * Size(v) && 544 <= y <= 5120
    ensures 1 <= Level(v, i) <= Size(v) && 0 <= Dqln(v, Level(v, i)) + y / 4 < 1920
    ensures var k := Level(v, i);
            Returns(v, i, y) <==> Lost(Dqln(v, k) + y / 4) <= Dqln(v, k) - Qtab(v)[k - 1]
  {
    hide Dqln, Quantize, Reconstruct, Signed, Lost, Sorted, Qtab;
    var k := Level(v, i);
    QtabSorted(v);
    LevelEdges(v, k);
    QuantizeReconstructExact(i > Size(v), Dqln(v, k), y, Qtab(v), k);
  }

  lemma TopCodeReturns(v: Variant, y: int)
    requires 544 <= y <= 5120
    ensures Returns(v, 2 * Size(v) + 1, y)
  {
    QtabSorted(v);
    assert Dqln(v, 0) == -2048;
    hide Quantize, Reconstruct, Signed, Sorted, Dqln, Qtab;
    QuantizeReconstructZero(true, y, Qtab(v));
  }

  // What is lost is below 128, 64, 32, ... in the octaves 0, 1, 2, ...
  lemma LostBound(dql: int)
    requires 0 <= dql < 1920
    ensures Lost(dql) < 128 && (dql >= 128 ==> Lost(dql) < 64) && (dql >= 256 ==> Lost(dql) < 32)
    ensures (dql >= 384 ==> Lost(dql) < 16) && (dql >= 512 ==> Lost(dql) < 8)
  {
    LostRange(dql);
    hide Lost;
    var e := dql / 128;
    if e >= 7 {
      LostHigh(dql);
    } else {
      assert e >= 1 ==> P(7 - e) <= 64;
      assert e >= 2 ==> P(7 - e) <= 32;
      assert e >= 3 ==> P(7 - e) <= 16;
      assert e >= 4 ==> P(7 - e) <= 8;
    }
  }

  lemma LostHigh(dql: int)
    requires 896 <= dql < 1920
    ensures Lost(dql) == 0
  {}

  // Every code the G.721 and 24 kbit/s encoders emit is its own requantisation, at every step size.
  lemma AlwaysReturns(v: Variant, i: nat, y: int)
    requires !v.G723x40? && 1 <= i < 2 * (Size(v) + 1) && 544 <= y <= 5120
    ensures Returns(v, i, y)
  {
    if i == 2 * Size(v) + 1 {
      TopCodeReturns(v, y);
    } else {
      ReturnsExactly(v, i, y);
      var k := Level(v, i);
      LevelRoom(v, k);
      hide Returns, Lost, Dqln, Qtab, Size, Level;
      LostBound(Dqln(v, k) + y / 4);
    }
  }

  // The levels that lie close to the edge of their interval are high enough to lose little.
  lemma LevelRoom(v: Variant, k: nat)
    requires !v.G723x40? && 1 <= k <= Size(v)
    ensures var d := Dqln(v, k); var room := d - Qtab(v)[k - 1];
            && d >= 0
            && (room >= 127 || (d >= 120 && room >= 31) || (d >= 248 && room >= 15) || (d >= 376 && room >= 7))
  {}

  // ----- 40 kbit/s -----

  lemma LostOctave(dql: int, e: nat)
    requires 0 <= dql < 512 && e == dql / 128
    ensures Lost(dql) == 128 + dql % 128 - Lsl(Asr(128 + dql % 128, 7 - e), 7 - e)
  {}

  lemma LostLow(dql: int)
    requires 0 <= dql < 512
    ensures Lost(dql) == if dql < 128 then dql else if dql < 256 then dql % 64 else if dql < 384 then dql % 32 else dql % 16
  {
    hide Lsl, Asr, Lost;
    var e := dql / 128;
    var t := 128 + dql % 128;
    LostOctave(dql, e);
    LslTimes(Asr(t, 7 - e), 7 - e);
    Halvings(t);
    if dql < 128 {
      assert P(7) == 128;
    } else if dql < 256 {
      assert P(6) == 64;
    } else if dql < 384 {
      assert P(5) == 32;
    } else {
      assert P(4) == 16;
    }
  }

  lemma Halvings(t: int)
    requires 128 <= t < 256
    ensures Asr(t, 7) == 1 && Asr(t, 6) == t / 64 && Asr(t, 5) == t / 32 && Asr(t, 4) == t / 16
  {
    assert Asr(t, 4) == Asr(t / 16, 0);
    assert Asr(t, 5) == Asr(t / 32, 0);
    assert Asr(t, 6) == Asr(t / 64, 0);
    assert Asr(t, 7) == Asr(t / 128, 0);
  }

  // The step sizes (divided by four) at which a level of the 40 kbit/s coder is requantised differently.
  predicate Gap(k: nat, q: int) {
    match k
    case 1 => 136 <= q <= 193 || 251 <= q <= 257 || 315 <= q <= 321
    case 2 => 145 <= q <= 163 || 209 <= q <= 227
    case 3 => 136 <= q <= 151
    case 4 => q == 150 || q == 182 || q == 214
    case 5 => 155 <= q <= 159
    case _ => false
  }

  lemma ReturnsOutsideGaps(i: nat, y: int)
    requires 1 <= i < 32 && 544 <= y <= 5120
    ensures Returns(G723x40, i, y) <==> !Gap(Level(G723x40, i), y / 4)
  {
    if i == 31 {
      TopCodeReturns(G723x40, y);
    } else {
      ReturnsExactly(G723x40, i, y);
      hide Returns, Lost;
      var k := Level(G723x40, i);
      var dql := Dqln(G723x40, k) + y / 4;
      LostBound(dql);
      if dql < 512 {
        LostLow(dql);
      }
      GapsAre(k, y / 4, Lost(dql));
    }
  }

  lemma GapsAre(k: nat, q: int, lost: int)
    requires 1 <= k <= 15 && 136 <= q <= 1280
    requires var dql := Dqln(G723x40, k) + q;
             (dql < 512 ==> lost == if dql < 128 then dql else if dql < 256 then dql % 64 else if dql < 384 then dql % 32 else dql % 16)
             && (dql >= 512 ==> lost < 8)
    ensures lost <= Dqln(G723x40, k) - Qtab(G723x40)[k - 1] <==> !Gap(k, q)
  {}

  // From a step size of 1288 on, every code of the 40 kbit/s coder comes back as well.
  lemma LargeStepsReturn(i: nat, y: int)
    requires 1 <= i < 32 && 1288 <= y <= 5120
    ensures Returns(G723x40, i, y)
  {
    hide Returns;
    ReturnsOutsideGaps(i, y);
  }
}
