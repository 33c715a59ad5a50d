// The tandem adjustment at the end of decoding: the output PCM code is moved by at most one
// level so that a following encoder, seeing the same state, requantises it closer to the input code.
module Tandem {
  import opened G72x
  import opened G711
  import opened Quantiser
  import opened Bits
  import opened Common

  // sp one level down (up) in A-law, saturating at the ends.
  function AlawDown(sp: octet): octet {
    if sp >= 0x80 then
      if sp == 0xD5 then 0x55 else
        assert XorOctet(sp, 0x55) >= 1 by { FirstPositive(sp); }
        XorOctet(XorOctet(sp, 0x55) - 1, 0x55)
    else
      if sp == 0x2A then 0x2A else
        assert XorOctet(sp, 0x55) < 255 by { LastPlain(sp); }
        XorOctet(XorOctet(sp, 0x55) + 1, 0x55)
  }

  function AlawUp(sp: octet): octet {
    if sp >= 0x80 then
      if sp == 0xAA then 0xAA else
        assert XorOctet(sp, 0x55) < 255 by { LastPlain(sp); }
        XorOctet(XorOctet(sp, 0x55) + 1, 0x55)
    else
      if sp == 0x55 then 0xD5 else
        assert XorOctet(sp, 0x55) >= 1 by { FirstPositive(sp); }
        XorOctet(XorOctet(sp, 0x55) - 1, 0x55)
  }

  // The extreme codes of the two signs.
  lemma PlainMinusZero()
    ensures XorOctet(0x00, 0x55) == 0x55
  {}

  lemma PlainMinusMax()
    ensures XorOctet(0x7F, 0x55) == 0x2A
  {}

  lemma PlainPlusZero()
    ensures XorOctet(0x80, 0x55) == 0xD5
  {
    PlainMinusZero();
    Seven();
    hide Xor, Pow2;
    XorTop(0, 0x55, 7);
  }

  lemma PlainPlusMax()
    ensures XorOctet(0xFF, 0x55) == 0xAA
  {
    PlainMinusMax();
    Seven();
    hide Xor, Pow2;
    XorTop(0x7F, 0x55, 7);
  }

  lemma Seven()
    ensures Pow2(7) == 128
  {}

  lemma FirstPositive(sp: octet)
    requires sp != 0x55
    ensures XorOctet(sp, 0x55) >= 1
  {
    hide XorOctet;
    PlainMinusZero();
    XorOctetTwice(sp, 0x55);
  }

  lemma LastPlain(sp: octet)
    requires sp != 0xAA
    ensures XorOctet(sp, 0x55) < 255
  {
    hide XorOctet;
    PlainPlusMax();
    XorOctetTwice(sp, 0x55);
  }

  lemma PlainSign(sp: octet)
    ensures sp >= 128 <==> XorOctet(sp, 0x55) >= 128
  {
    assert Pow2(7) == 128;
    var low := if sp >= 128 then sp - 128 else sp;
    XorFits(low, 0x55, 7);
    XorTop(low, 0x55, 7);
    hide Xor;
  }

  lemma AlawMoves(sp: octet)
    ensures AlawRank(AlawDown(sp)) == if AlawRank(sp) > -128 then AlawRank(sp) - 1 else -128
    ensures AlawRank(AlawUp(sp)) == if AlawRank(sp) < 127 then AlawRank(sp) + 1 else 127
  {
    hide XorOctet;
    var x := XorOctet(sp, 0x55);
    PlainSign(sp);
    PlainMinusZero();
    PlainMinusMax();
    PlainPlusZero();
    PlainPlusMax();
    XorOctetTwice(sp, 0x55);
    if x >= 1 {
      XorOctetTwice(x - 1, 0x55);
    }
    if x < 255 {
      XorOctetTwice(x + 1, 0x55);
    }
    XorOctetTwice(0x00, 0x55);
    XorOctetTwice(0x7F, 0x55);
    XorOctetTwice(0x80, 0x55);
    XorOctetTwice(0xFF, 0x55);
  }

  function UlawDown(sp: octet): octet {
    if sp >= 0x80 then (if sp == 0xFF then 0x7E else sp + 1) else (if sp == 0 then 0 else sp - 1)
  }

  function UlawUp(sp: octet): octet {
    if sp >= 0x80 then (if sp == 0x80 then 0x80 else sp - 1) else (if sp == 0x7F then 0xFE else sp + 1)
  }

  lemma UlawMoves(sp: octet)
    ensures UlawRank(UlawDown(sp)) == if UlawRank(sp) > -127 then UlawRank(sp) - 1 else -127
    ensures UlawRank(UlawUp(sp)) == if UlawRank(sp) < 127 then UlawRank(sp) + 1 else 127
  {}

  // The difference signal that an encoder with estimate se sees for an output code.
  function AlawDifference(sp: octet, se: int): short {
    Narrow(AlawToLinear(sp) / 4 - se)
  }

  function UlawDifference(sp: octet, se: int): short {
    Narrow(UlawToLinear(sp) / 4 - se)
  }

  function AlawOutput(sr: int): octet {
    LinearToAlaw((if sr <= -32768 then -1 else sr) / 2 * 8)
  }

  function UlawOutput(sr: int): octet {
    LinearToUlaw((if sr <= -32768 then 0 else sr) * 4)
  }

  // sign is the sign bit of the code, one more than the number of positive levels.
  function AdjustAlaw(sr: int, se: int, y: int, i: int, qtab: seq<int>): octet {
    var sp := AlawOutput(sr);
    var id := Quantize(AlawDifference(sp, se), y, qtab);
    if id == i then sp
    else if Biased(id, |qtab|) > Biased(i, |qtab|) then AlawDown(sp) else AlawUp(sp)
  }

  function AdjustUlaw(sr: int, se: int, y: int, i: int, qtab: seq<int>): octet {
    var sp := UlawOutput(sr);
    var id := Quantize(UlawDifference(sp, se), y, qtab);
    if id == i then sp
    else if Biased(id, |qtab|) > Biased(i, |qtab|) then UlawDown(sp) else UlawUp(sp)
  }

  // A lower output code cannot be requantised to a higher level.
  lemma AlawRequantised(c: octet, d: octet, se: int, y: int, qtab: seq<int>)
    requires AlawRank(c) <= AlawRank(d) && -16384 <= se <= 16383 && 0 <= y <= 65536
    ensures Biased(Quantize(AlawDifference(c, se), y, qtab), |qtab|) <= Biased(Quantize(AlawDifference(d, se), y, qtab), |qtab|)
  {
    hide Quantize, AlawRank, AlawToLinear;
    AlawSpread(c, d);
    assert AlawDifference(c, se) == AlawToLinear(c) / 4 - se && AlawDifference(d, se) == AlawToLinear(d) / 4 - se;
    hide AlawDifference;
    QuantizeMonotone(AlawDifference(c, se), AlawDifference(d, se), y, qtab);
  }

  lemma AlawSpread(c: octet, d: octet)
    requires AlawRank(c) <= AlawRank(d)
    ensures -32256 <= AlawToLinear(c) <= AlawToLinear(d) <= 32256
  {
    if AlawRank(c) < AlawRank(d) {
      hide AlawRank, AlawToLinear;
      AlawOrder(c, d);
    } else {
      AlawByRank(c);
      AlawByRank(d);
      hide AlawToLinear, AlawValue;
      var r := AlawRank(c);
      AlawValuePositive(if r >= 0 then r else -1 - r);
    }
  }

  lemma UlawSpread(c: octet, d: octet)
    requires UlawRank(c) <= UlawRank(d)
    ensures -32124 <= UlawToLinear(c) <= UlawToLinear(d) <= 32124
  {
    hide UlawToLinear;
    if UlawRank(c) < UlawRank(d) {
      UlawOrder(c, d);
    } else {
      UlawByRank(c);
      UlawByRank(d);
      hide UlawValue;
      var r := UlawRank(c);
      UlawValueRange(if r >= 0 then r else -r);
    }
  }

  lemma UlawRequantised(c: octet, d: octet, se: int, y: int, qtab: seq<int>)
    requires UlawRank(c) <= UlawRank(d) && -16384 <= se <= 16383 && 0 <= y <= 65536
    ensures Biased(Quantize(UlawDifference(c, se), y, qtab), |qtab|) <= Biased(Quantize(UlawDifference(d, se), y, qtab), |qtab|)
  {
    hide Quantize, UlawRank, UlawToLinear;
    UlawSpread(c, d);
    assert UlawDifference(c, se) == UlawToLinear(c) / 4 - se && UlawDifference(d, se) == UlawToLinear(d) / 4 - se;
    hide UlawDifference;
    QuantizeMonotone(UlawDifference(c, se), UlawDifference(d, se), y, qtab);
  }

  // The level at which an output code is requantised.
  function AlawLevel(sp: octet, se: int, y: int, qtab: seq<int>): int {
    Biased(Quantize(AlawDifference(sp, se), y, qtab), |qtab|)
  }

  function UlawLevel(sp: octet, se: int, y: int, qtab: seq<int>): int {
    Biased(Quantize(UlawDifference(sp, se), y, qtab), |qtab|)
  }

  // The adjustment is one level in the direction of the input code, or none; it saturates at the ends of
  // the code, and it never takes the requantised level further away on the side where it already was.
  lemma AlawAdjustment(sr: int, se: int, y: int, i: int, qtab: seq<int>)
    requires -16384 <= se <= 16383 && 0 <= y <= 65536 && 0 <= i <= 2 * |qtab| + 1
    ensures var sp := AlawOutput(sr);
            var out := AdjustAlaw(sr, se, y, i, qtab);
            var target, before, after := Biased(i, |qtab|), AlawLevel(sp, se, y, qtab), AlawLevel(out, se, y, qtab);
            var r := AlawRank(sp);
            && (before == target ==> out == sp)
            && (before > target ==> AlawRank(out) == (if r > -128 then r - 1 else -128) && after <= before)
            && (before < target ==> AlawRank(out) == (if r < 127 then r + 1 else 127) && after >= before)
  {
    var sp := AlawOutput(sr);
    var id := Quantize(AlawDifference(sp, se), y, qtab);
    CodeRange(AlawDifference(sp, se), y, qtab);
    hide Quantize, AlawDifference, AlawOutput, AlawRank, AlawUp, AlawDown;
    assert Biased(id, |qtab|) == Biased(i, |qtab|) <==> id == i;
    hide Biased;
    AlawMoves(sp);
    AlawRequantised(AlawDown(sp), sp, se, y, qtab);
    AlawRequantised(sp, AlawUp(sp), se, y, qtab);
  }

  lemma UlawAdjustment(sr: int, se: int, y: int, i: int, qtab: seq<int>)
    requires -16384 <= se <= 16383 && 0 <= y <= 65536 && 0 <= i <= 2 * |qtab| + 1
    ensures var sp := UlawOutput(sr);
            var out := AdjustUlaw(sr, se, y, i, qtab);
            var target, before, after := Biased(i, |qtab|), UlawLevel(sp, se, y, qtab), UlawLevel(out, se, y, qtab);
            var r := UlawRank(sp);
            && (before == target ==> out == sp)
            && (before > target ==> UlawRank(out) == (if r > -127 then r - 1 else -127) && after <= before)
            && (before < target ==> UlawRank(out) == (if r < 127 then r + 1 else 127) && after >= before)
  {
    var sp := UlawOutput(sr);
    var id := Quantize(UlawDifference(sp, se), y, qtab);
    CodeRange(UlawDifference(sp, se), y, qtab);
    hide Quantize, UlawDifference, UlawOutput, UlawRank, UlawUp, UlawDown;
    assert Biased(id, |qtab|) == Biased(i, |qtab|) <==> id == i;
    hide Biased;
    UlawMoves(sp);
    UlawRequantised(UlawDown(sp), sp, se, y, qtab);
    UlawRequantised(sp, UlawUp(sp), se, y, qtab);
  }

  lemma AlawLevelOrder(c: octet, d: octet, se: int, y: int, qtab: seq<int>)
    requires -16384 <= se <= 16383 && 0 <= y <= 65536
    ensures AlawRank(c) <= AlawRank(d) ==> AlawLevel(c, se, y, qtab) <= AlawLevel(d, se, y, qtab)
  {
    hide AlawRank, Quantize, AlawDifference, Biased;
    if AlawRank(c) <= AlawRank(d) {
      AlawRequantised(c, d, se, y, qtab);
    }
  }

  lemma UlawLevelOrder(c: octet, d: octet, se: int, y: int, qtab: seq<int>)
    requires -16384 <= se <= 16383 && 0 <= y <= 65536
    ensures UlawRank(c) <= UlawRank(d) ==> UlawLevel(c, se, y, qtab) <= UlawLevel(d, se, y, qtab)
  {
    hide UlawRank, Quantize, UlawDifference, Biased;
    if UlawRank(c) <= UlawRank(d) {
      UlawRequantised(c, d, se, y, qtab);
    }
  }

  // The adjusted code requantises to the input code exactly if some code within one level of the plain one
  // does, and it passes the input code only if no PCM code at all requantises to that.
  lemma AlawExact(sr: int, se: int, y: int, i: int, qtab: seq<int>)
    requires -16384 <= se <= 16383 && 0 <= y <= 65536 && 0 <= i <= 2 * |qtab| + 1
    ensures var sp := AlawOutput(sr);
            var target, before := Biased(i, |qtab|), AlawLevel(sp, se, y, qtab);
            var after := AlawLevel(AdjustAlaw(sr, se, y, i, qtab), se, y, qtab);
            && (after == target <==>
                  exists c: octet :: Abs(AlawRank(c) - AlawRank(sp)) <= 1 && AlawLevel(c, se, y, qtab) == target)
            && (before > target > after || before < target < after ==>
                  forall c: octet :: AlawLevel(c, se, y, qtab) != target)
  {
    hide Biased, AlawRank, AlawLevel, AdjustAlaw, AlawOutput;
    var sp, out := AlawOutput(sr), AdjustAlaw(sr, se, y, i, qtab);
    AlawAdjustment(sr, se, y, i, qtab);
    AlawRankRange(sp);
    forall c: octet
      ensures AlawRank(c) <= AlawRank(out) ==> AlawLevel(c, se, y, qtab) <= AlawLevel(out, se, y, qtab)
      ensures AlawRank(c) >= AlawRank(out) ==> AlawLevel(c, se, y, qtab) >= AlawLevel(out, se, y, qtab)
      ensures AlawRank(c) <= AlawRank(sp) ==> AlawLevel(c, se, y, qtab) <= AlawLevel(sp, se, y, qtab)
      ensures AlawRank(c) >= AlawRank(sp) ==> AlawLevel(c, se, y, qtab) >= AlawLevel(sp, se, y, qtab)
    {
      AlawRankRange(c);
      AlawLevelOrder(c, out, se, y, qtab);
      AlawLevelOrder(out, c, se, y, qtab);
      AlawLevelOrder(c, sp, se, y, qtab);
      AlawLevelOrder(sp, c, se, y, qtab);
    }
    assert Abs(AlawRank(out) - AlawRank(sp)) <= 1;
  }

  lemma AlawRankRange(c: octet)
    ensures -128 <= AlawRank(c) <= 127
  {}

  lemma UlawExact(sr: int, se: int, y: int, i: int, qtab: seq<int>)
    requires -16384 <= se <= 16383 && 0 <= y <= 65536 && 0 <= i <= 2 * |qtab| + 1
    ensures var sp := UlawOutput(sr);
            var target, before := Biased(i, |qtab|), UlawLevel(sp, se, y, qtab);
            var after := UlawLevel(AdjustUlaw(sr, se, y, i, qtab), se, y, qtab);
            && (after == target <==>
                  exists c: octet :: Abs(UlawRank(c) - UlawRank(sp)) <= 1 && UlawLevel(c, se, y, qtab) == target)
            && (before > target > after || before < target < after ==>
                  forall c: octet :: UlawLevel(c, se, y, qtab) != target)
  {
    hide Biased, UlawRank, UlawLevel, AdjustUlaw, UlawOutput;
    var sp, out := UlawOutput(sr), AdjustUlaw(sr, se, y, i, qtab);
    UlawAdjustment(sr, se, y, i, qtab);
    UlawRankRange(sp);
    forall c: octet
      ensures UlawRank(c) <= UlawRank(out) ==> UlawLevel(c, se, y, qtab) <= UlawLevel(out, se, y, qtab)
      ensures UlawRank(c) >= UlawRank(out) ==> UlawLevel(c, se, y, qtab) >= UlawLevel(out, se, y, qtab)
      ensures UlawRank(c) <= UlawRank(sp) ==> UlawLevel(c, se, y, qtab) <= UlawLevel(sp, se, y, qtab)
      ensures UlawRank(c) >= UlawRank(sp) ==> UlawLevel(c, se, y, qtab) >= UlawLevel(sp, se, y, qtab)
    {
      UlawRankRange(c);
      UlawLevelOrder(c, out, se, y, qtab);
      UlawLevelOrder(out, c, se, y, qtab);
      UlawLevelOrder(c, sp, se, y, qtab);
      UlawLevelOrder(sp, c, se, y, qtab);
    }
    assert Abs(UlawRank(out) - UlawRank(sp)) <= 1;
  }

  lemma UlawRankRange(c: octet)
    ensures -127 <= UlawRank(c) <= 127
  {}
}
