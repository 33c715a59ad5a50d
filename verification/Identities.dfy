// Access rights identities (ETSI EN 300 175-6, clause 5) and portable user identities of type N
// (clause 6), as 64-bit numbers and inside the identity elements of S-format messages.
module Identities {
  import opened Common
  import opened Bits

  // Each class with its own leading code.
  datatype Ari =
    | ClassA(emc: nat, fpn: nat)
    | ClassB(eic: nat, fpn: nat, fps: nat)
    | ClassC(poc: nat, fpn: nat, fps: nat)
    | ClassD(gop: nat, fpn: nat)
    | ClassE(fil: nat, fpn: nat)

  // Every field fits the width its class gives it.
  predicate Fits(ari: Ari) {
    match ari
    case ClassA(emc, fpn) => emc < Pow2(16) && fpn < Pow2(17)
    case ClassB(eic, fpn, fps) => eic < Pow2(16) && fpn < Pow2(8) && fps < Pow2(4)
    case ClassC(poc, fpn, fps) => poc < Pow2(16) && fpn < Pow2(8) && fps < Pow2(4)
    case ClassD(gop, fpn) => gop < Pow2(20) && fpn < Pow2(8)
    case ClassE(fil, fpn) => fil < Pow2(16) && fpn < Pow2(12)
  }

  // a |= (uint64_t)x << s
  function Field(a: nat, x: nat, s: nat): nat {
    Or(a, Low(Shl(x, s), 64))
  }

  // The w bits of a from bit s on.
  function Extract(a: nat, s: nat, w: nat): nat {
    Low(Shr(a, s), w)
  }

  function BuildAri(ari: Ari): nat {
    match ari
    case ClassA(emc, fpn) => Field(Field(Field(0, 0, 61), emc, 45), fpn, 28)
    case ClassB(eic, fpn, fps) => Field(Field(Field(Field(0, 1, 61), eic, 45), fpn, 37), fps, 33)
    case ClassC(poc, fpn, fps) => Field(Field(Field(Field(0, 2, 61), poc, 45), fpn, 37), fps, 33)
    case ClassD(gop, fpn) => Field(Field(Field(0, 3, 61), gop, 41), fpn, 33)
    case ClassE(fil, fpn) => Field(Field(Field(0, 4, 61), fil, 45), fpn, 33)
  }

  function ParseAri(a: nat): Option<Ari> {
    var arc := Extract(a, 61, 3);
    if arc == 0 then Some(ClassA(Extract(a, 45, 16), Extract(a, 28, 17)))
    else if arc == 1 then Some(ClassB(Extract(a, 45, 16), Extract(a, 37, 8), Extract(a, 33, 4)))
    else if arc == 2 then Some(ClassC(Extract(a, 45, 16), Extract(a, 37, 8), Extract(a, 33, 4)))
    else if arc == 3 then Some(ClassD(Extract(a, 41, 20), Extract(a, 33, 8)))
    else if arc == 4 then Some(ClassE(Extract(a, 45, 16), Extract(a, 33, 12)))
    else None
  }

  // The equipment identity behind type N: manufacturer code and serial number.
  datatype Ipei = Ipei(emc: nat, psn: nat)

  // ----- Fields side by side -----

  // Or-ing a field below what is already there puts it beside.
  lemma FieldBeside(h: nat, n: nat, x: nat, w: nat, s: nat, t: nat)
    requires h < Pow2(n) && x < Pow2(w) && t == w + s && n + t == 64
    ensures Field(Shl(h, t), x, s) == Shl(Shl(h, w) + x, s)
    ensures Shl(h, w) + x < Pow2(n + w) && Shl(Shl(h, w) + x, s) < Pow2(64)
  {
    hide Shl, Or, Low, Pow2;
    ShiftedFits(x, w, h, n);
    assert w + n == n + w;
    ShlFits(Shl(h, w) + x, n + w, s);
    ShlSum(Shl(h, w), x, s);
    ShlAdd(h, w, s);
    LowWhole(Shl(x, s), 64);
    ShlFits(x, w, s);
    OrCommutes(Shl(h, t), Shl(x, s));
    OrShifted(Shl(x, s), h, t);
  }

  // The first field stands alone.
  lemma FieldFirst(a: nat, na: nat, v: nat)
    requires a < Pow2(na) && na + v == 64
    ensures Field(0, a, v) == Shl(a, v)
  {
    hide Shl, Or, Low, Pow2;
    ShlFits(a, na, v);
    LowWhole(Shl(a, v), 64);
    OrZero(Shl(a, v));
  }

  // Reading a field back, whatever lies below it.
  lemma FieldRead(h: nat, x: nat, w: nat, s: nat, r: nat)
    requires x < Pow2(w) && r < Pow2(s)
    ensures var a := Shl(Shl(h, w) + x, s) + r; Extract(a, s, w) == x && Shr(a, s + w) == h
  {
    hide Shl, Shr, Low, Pow2;
    ShiftSplits(Shl(h, w) + x, r, s);
    ShiftSplits(h, x, w);
    ShrAdd(Shl(Shl(h, w) + x, s) + r, s, w);
  }

  // Three fields of a number that together fill it down to bit s.
  lemma ThreeFields(a: nat, na: nat, x: nat, nx: nat, y: nat, ny: nat, s: nat, t: nat, u: nat)
    requires a < Pow2(na) && x < Pow2(nx) && y < Pow2(ny) && t == ny + s && u == nx + t && na + u == 64
    ensures var n := Field(Field(Field(0, a, u), x, t), y, s);
            n < Pow2(64) && Extract(n, u, na) == a && Extract(n, t, nx) == x && Extract(n, s, ny) == y
  {
    hide Shl, Shr, Low, Pow2, Field, Extract;
    var h := Shl(a, nx) + x;
    FieldFirst(a, na, u);
    FieldBeside(a, na, x, nx, t, u);
    FieldBeside(h, na + nx, y, ny, s, t);
    FieldRead(h, y, ny, s, 0) by { PowPositive(s); }
    ReadAbove(Shl(Shl(h, ny) + y, s), t, h, a, x, nx, na);
  }

  lemma PowPositive(k: nat)
    ensures 0 < Pow2(k)
  {}

  // Two fields that are all of n from bit t on.
  lemma ReadAbove(n: nat, t: nat, h: nat, a: nat, x: nat, nx: nat, na: nat)
    requires Shr(n, t) == h == Shl(a, nx) + x && x < Pow2(nx) && a < Pow2(na)
    ensures Extract(n, t, nx) == x && Shr(n, t + nx) == a && Extract(n, t + nx, na) == a
  {
    hide Shl, Shr, Low, Pow2;
    ShiftSplits(a, x, nx);
    ShrAdd(n, t, nx);
    LowWhole(a, na);
  }

  // Classes B and C share their layout.
  lemma FourFields(a: nat, x: nat, y: nat, z: nat)
    requires a < Pow2(3) && x < Pow2(16) && y < Pow2(8) && z < Pow2(4)
    ensures var n := Field(Field(Field(Field(0, a, 61), x, 45), y, 37), z, 33);
            && n < Pow2(64)
            && Extract(n, 61, 3) == a && Extract(n, 45, 16) == x && Extract(n, 37, 8) == y && Extract(n, 33, 4) == z
  {
    hide Shl, Shr, Low, Pow2, Field, Extract;
    var h := Shl(a, 16) + x;
    var g := Shl(h, 8) + y;
    var n := Shl(Shl(g, 4) + z, 33);
    FieldFirst(a, 3, 61);
    FieldBeside(a, 3, x, 16, 45, 61);
    FieldBeside(h, 19, y, 8, 37, 45);
    FieldBeside(g, 27, z, 4, 33, 37);
    FieldRead(g, z, 4, 33, 0) by { PowPositive(33); }
    ReadAbove(n, 37, g, h, y, 8, 19);
    ReadAbove(n, 45, h, a, x, 16, 3);
  }

  lemma Codes()
    ensures 0 < Pow2(3) && 1 < Pow2(3) && 2 < Pow2(3) && 3 < Pow2(3) && 4 < Pow2(3)
  {}

  // Parsing undoes building exactly on the identities whose fields fit their widths.
  lemma AriRoundTrip(ari: Ari)
    ensures ParseAri(BuildAri(ari)) == Some(ari) <==> Fits(ari)
    ensures Fits(ari) ==> BuildAri(ari) < Pow2(64)
  {
    hide Shl, Shr, Low, Pow2, Field, Extract;
    Codes();
    if Fits(ari) {
      match ari
      case ClassA(emc, fpn) => ThreeFields(0, 3, emc, 16, fpn, 17, 28, 45, 61);
      case ClassB(eic, fpn, fps) => FourFields(1, eic, fpn, fps);
      case ClassC(poc, fpn, fps) => FourFields(2, poc, fpn, fps);
      case ClassD(gop, fpn) => ThreeFields(3, 3, gop, 20, fpn, 8, 33, 41, 61);
      case ClassE(fil, fpn) => ThreeFields(4, 3, fil, 16, fpn, 12, 33, 45, 61);
    } else {
      ParsedFits(BuildAri(ari));
    }
  }

  // Or-ing a field below what is already there adds it.
  lemma FieldAdds(h: nat, n: nat, x: nat, w: nat, s: nat, t: nat)
    requires h < Pow2(n) && x < Pow2(w) && t == w + s && n + t == 64
    ensures Field(Shl(h, t), x, s) == Shl(h, t) + Shl(x, s)
    ensures Field(Shl(h, t), x, s) == Shl(Shl(h, w) + x, s) && Shl(h, w) + x < Pow2(n + w)
  {
    hide Shl, Low, Pow2, Field;
    FieldBeside(h, n, x, w, s, t);
    ShlSum(Shl(h, w), x, s);
    ShlAdd(h, w, s);
  }

  lemma AddA(emc: nat, fpn: nat)
    requires emc < Pow2(16) && fpn < Pow2(17)
    ensures Field(Field(Field(0, 0, 61), emc, 45), fpn, 28) == Shl(0, 61) + Shl(emc, 45) + Shl(fpn, 28)
  {
    Codes();
    hide Shl, Low, Pow2, Field;
    FieldFirst(0, 3, 61);
    FieldAdds(0, 3, emc, 16, 45, 61);
    FieldAdds(Shl(0, 16) + emc, 19, fpn, 17, 28, 45);
  }

  lemma AddD(gop: nat, fpn: nat)
    requires gop < Pow2(20) && fpn < Pow2(8)
    ensures Field(Field(Field(0, 3, 61), gop, 41), fpn, 33) == Shl(3, 61) + Shl(gop, 41) + Shl(fpn, 33)
  {
    Codes();
    hide Shl, Low, Pow2, Field;
    FieldFirst(3, 3, 61);
    FieldAdds(3, 3, gop, 20, 41, 61);
    FieldAdds(Shl(3, 20) + gop, 23, fpn, 8, 33, 41);
  }

  lemma AddE(fil: nat, fpn: nat)
    requires fil < Pow2(16) && fpn < Pow2(12)
    ensures Field(Field(Field(0, 4, 61), fil, 45), fpn, 33) == Shl(4, 61) + Shl(fil, 45) + Shl(fpn, 33)
  {
    Codes();
    hide Shl, Low, Pow2, Field;
    FieldFirst(4, 3, 61);
    FieldAdds(4, 3, fil, 16, 45, 61);
    FieldAdds(Shl(4, 16) + fil, 19, fpn, 12, 33, 45);
  }

  lemma FourAdd(a: nat, x: nat, y: nat, z: nat)
    requires a < Pow2(3) && x < Pow2(16) && y < Pow2(8) && z < Pow2(4)
    ensures Field(Field(Field(Field(0, a, 61), x, 45), y, 37), z, 33) == Shl(a, 61) + Shl(x, 45) + Shl(y, 37) + Shl(z, 33)
  {
    hide Shl, Low, Pow2, Field;
    FieldFirst(a, 3, 61);
    FieldAdds(a, 3, x, 16, 45, 61);
    FieldAdds(Shl(a, 16) + x, 19, y, 8, 37, 45);
    FieldAdds(Shl(Shl(a, 16) + x, 8) + y, 27, z, 4, 33, 37);
  }

  lemma {:induction false} ShlTimes(x: nat, k: nat)
    ensures Shl(x, k) == x * Pow2(k)
  {
    if k > 0 {
      ShlTimes(x, k - 1);
    }
  }

  // The number an identity is built to: its class in the three highest bits, and its fields side by side below.
  lemma AriLayout(ari: Ari)
    requires Fits(ari)
    ensures BuildAri(ari) ==
            match ari
            case ClassA(emc, fpn) => emc * Pow2(45) + fpn * Pow2(28)
            case ClassB(eic, fpn, fps) => 1 * Pow2(61) + eic * Pow2(45) + fpn * Pow2(37) + fps * Pow2(33)
            case ClassC(poc, fpn, fps) => 2 * Pow2(61) + poc * Pow2(45) + fpn * Pow2(37) + fps * Pow2(33)
            case ClassD(gop, fpn) => 3 * Pow2(61) + gop * Pow2(41) + fpn * Pow2(33)
            case ClassE(fil, fpn) => 4 * Pow2(61) + fil * Pow2(45) + fpn * Pow2(33)
  {
    Codes();
    hide Shl, Shr, Low, Pow2, Field, Extract;
    match ari
    case ClassA(emc, fpn) =>
      AddA(emc, fpn);
      ShlTimes(0, 61); ShlTimes(emc, 45); ShlTimes(fpn, 28);
    case ClassB(eic, fpn, fps) =>
      FourAdd(1, eic, fpn, fps);
      ShlTimes(1, 61); ShlTimes(eic, 45); ShlTimes(fpn, 37); ShlTimes(fps, 33);
    case ClassC(poc, fpn, fps) =>
      FourAdd(2, poc, fpn, fps);
      ShlTimes(2, 61); ShlTimes(poc, 45); ShlTimes(fpn, 37); ShlTimes(fps, 33);
    case ClassD(gop, fpn) =>
      AddD(gop, fpn);
      ShlTimes(3, 61); ShlTimes(gop, 41); ShlTimes(fpn, 33);
    case ClassE(fil, fpn) =>
      AddE(fil, fpn);
      ShlTimes(4, 61); ShlTimes(fil, 45); ShlTimes(fpn, 33);
  }

  // A number is refused exactly if its three highest bits name none of the five classes.
  lemma AriRefused(a: nat)
    requires a < Pow2(64)
    ensures ParseAri(a).None? <==> Shr(a, 61) >= 5
  {
    hide Shr, Low, Pow2;
    SplitFits(a, 64, 61);
    LowWhole(Shr(a, 61), 3);
  }

  lemma ParsedFits(a: nat)
    ensures ParseAri(a).Some? ==> Fits(ParseAri(a).value)
  {
    hide Shr, Low, Pow2;
    LowFits(Shr(a, 45), 16);
    LowFits(Shr(a, 28), 17);
    LowFits(Shr(a, 37), 8);
    LowFits(Shr(a, 33), 4);
    LowFits(Shr(a, 41), 20);
    LowFits(Shr(a, 33), 8);
    LowFits(Shr(a, 33), 12);
  }
}
