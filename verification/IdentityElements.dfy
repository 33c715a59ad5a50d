// Fixed and portable identity elements: the octets that carry an identity in an S-format message, and
// what their parsers make of an element whose eight octets are read although only five were written.
module IdentityElements {
  import opened Common
  import opened Bits
  import opened Identities
  import opened SFormat
  import opened SFormatRoundTrip

  const PORTABLE_IDENTITY: octet := 0x05
  const FIXED_IDENTITY: octet := 0x06
  const GROUP_END: octet := 0x80
  const IPUI_N_LEN: octet := 40

  // ----- Fixed identities -----

  datatype FixedIdentity = FixedIdentity(kind: nat, ari: Ari)

  predicate FixedKind(kind: nat) {
    kind == 0 || kind == 1 || kind == 2 || kind == 0x20
  }

  // The five highest octets of x shifted by k.
  function FiveOctets(x: nat, k: nat): (s: seq<octet>)
    ensures |s| == 5
  {
    [OctetAt(x, k + 32), OctetAt(x, k + 24), OctetAt(x, k + 16), OctetAt(x, k + 8), OctetAt(x, k)]
  }

  // An identity element as its builder leaves it: room for the header, kind, length, identity.
  function Framed(kind: octet, len: octet, five: seq<octet>): RawBytes {
    [0, 0, kind, len] + five
  }

  function BuildFixed(id: FixedIdentity): RawBytes {
    Framed(ToOctet(Or(GROUP_END, id.kind)), GROUP_END + 36 + 1, FiveOctets(BuildAri(id.ari) / 2, 24))
  }

  // mem is the buffer from the element on; it reaches past an element of len octets.
  function ParseFixed(mem: seq<octet>, len: octet): Option<FixedIdentity>
    requires |mem| >= 12
  {
    if len < 2 || mem[2] < GROUP_END || mem[3] < GROUP_END then None else
      match ParseAri(Low(2 * FromOctets(mem[4..12]), 64))
      case None => None
      case Some(ari) => if FixedKind(mem[2] % 128) then Some(FixedIdentity(mem[2] % 128, ari)) else None
  }

  // ----- Portable identities of type N -----

  function BuildIpei(ipei: Ipei): nat {
    Or(Low(Shl(ipei.emc, 20), 64), ipei.psn)
  }

  // The type of the identity is in the upper half of its first octet, and zero.
  function BuildIpui(ipei: Ipei): (s: seq<octet>)
    ensures |s| == 5
  {
    FiveOctets(BuildIpei(ipei), 0)
  }

  // The buffer is written octet by octet.
  method WriteIpui(ptr: array<octet>, ipei: Ipei) returns (len: nat)
    requires ptr.Length >= 5
    modifies ptr
    ensures ptr[..5] == BuildIpui(ipei) && ptr[5..] == old(ptr[5..]) && len == IPUI_N_LEN
  {
    hide BuildIpei, Or;
    var tmp := BuildIpei(ipei);
    var i := 0;
    while i < 5
      invariant 0 <= i <= 5 && ptr[5..] == old(ptr[5..])
      invariant forall j | 0 <= j < i :: ptr[j] == 0
    {
      ptr[i] := 0;
      i := i + 1;
    }
    i := 0;
    while i < 5
      invariant 0 <= i <= 5 && ptr[5..] == old(ptr[5..])
      invariant forall j | 0 <= j < i :: ptr[j] == OctetAt(tmp, 32 - 8 * j)
      invariant forall j | i <= j < 5 :: ptr[j] == 0
    {
      OrZero(OctetAt(tmp, 32 - 8 * i));
      ptr[i] := ToOctet(Or(ptr[i], OctetAt(tmp, 32 - 8 * i)));
      i := i + 1;
    }
    hide OctetAt;
    assert ptr[..5] == [ptr[0], ptr[1], ptr[2], ptr[3], ptr[4]];
    return 36 + 4;
  }

  // Only type N of the announced length is read.
  function ParseIpui(mem: seq<octet>, len: nat): Option<Ipei>
    requires |mem| >= 8
  {
    if len < 4 || mem[0] / 16 != 0 || len != IPUI_N_LEN then None else
      var i := Shr(FromOctets(mem[..8]), 24);
      Some(Ipei(Extract(i, 20, 16), Low(i, 20)))
  }

  // An element whose identity is not of type N is kept without one.
  datatype PortableIdentity = PortableIdentity(kind: nat, ipei: Option<Ipei>)

  function BuildPortable(kind: nat, ipei: Ipei): RawBytes
    requires kind == 0 || kind == 0x10
  {
    Framed(ToOctet(Or(GROUP_END, kind)), ToOctet(Or(GROUP_END, IPUI_N_LEN)), BuildIpui(ipei))
  }

  function ParsePortable(mem: seq<octet>, len: octet): Option<PortableIdentity>
    requires |mem| >= 12
  {
    if len == 2 then Some(PortableIdentity(0, None))
    else if len < 2 || mem[2] < GROUP_END || mem[3] < GROUP_END then None else
      var kind := mem[2] % 128;
      if kind == 0 || kind == 0x10 then Some(PortableIdentity(kind, ParseIpui(mem[4..], mem[3] % 128)))
      else if kind == 0x20 then Some(PortableIdentity(kind, None))
      else None
  }

  // ----- Round trips -----

  lemma KindOctet(kind: nat)
    requires kind < 128
    ensures Or(GROUP_END, kind) == 128 + kind
  {
    hide Or;
    var p := Pow2(7);
    assert p == 128;
    SevenBits();
    OrShifted(kind, 1, 7);
    OrCommutes(kind, Shl(1, 7));
  }

  lemma SevenBits()
    ensures Shl(1, 7) == 128
  {}

  // Five octets spell the forty bits from bit k on.
  lemma FiveSpell(x: nat, k: nat)
    ensures FromOctets(FiveOctets(x, k)) == Low(Shr(x, k), 40)
  {
    OctetsSpell(x, k, 5);
    assert Octets(x, k, 5) == FiveOctets(x, k) by {
      hide OctetAt;
      assert Octets(x, k, 5) == Octets(x, k + 8, 4) + [OctetAt(x, k)];
      assert Octets(x, k + 8, 4) == Octets(x, k + 16, 3) + [OctetAt(x, k + 8)];
      assert Octets(x, k + 16, 3) == Octets(x, k + 24, 2) + [OctetAt(x, k + 16)];
      assert Octets(x, k + 24, 2) == Octets(x, k + 32, 1) + [OctetAt(x, k + 24)];
      assert Octets(x, k + 32, 1) == [OctetAt(x, k + 32)];
    }
  }

  // Eight octets of which five were written: these are read back above whatever follows.
  lemma EightRead(five: seq<octet>, beyond: seq<octet>)
    requires |five| == 5 && |beyond| >= 3
    ensures var x := FromOctets((five + beyond)[..8]);
            Shr(x, 24) == FromOctets(five) && x == Shl(FromOctets(five), 24) + FromOctets(beyond[..3]) &&
            FromOctets(beyond[..3]) < Pow2(24)
  {
    hide Shl, Shr, Low, Pow2;
    assert (five + beyond)[..8] == five + beyond[..3];
    FromOctetsJoin(five, beyond[..3]);
    ShiftSplits(FromOctets(five), FromOctets(beyond[..3]), 24);
  }

  // The parser of access rights identities does not look below bit 25.
  lemma ParseHigh(a: nat, b: nat)
    requires Shr(a, 25) == Shr(b, 25)
    ensures ParseAri(a) == ParseAri(b)
  {
    hide Shr, Low;
    ShrAdd(a, 25, 3);
    ShrAdd(b, 25, 3);
    ShrAdd(a, 25, 8);
    ShrAdd(b, 25, 8);
    ShrAdd(a, 25, 12);
    ShrAdd(b, 25, 12);
    ShrAdd(a, 25, 16);
    ShrAdd(b, 25, 16);
    ShrAdd(a, 25, 20);
    ShrAdd(b, 25, 20);
    ShrAdd(a, 25, 36);
    ShrAdd(b, 25, 36);
  }

  // The one-bit shift of the element and the octets beyond it leave the upper bits alone.
  lemma ShiftedBack(n: nat, five: seq<octet>, beyond: seq<octet>)
    requires n < Pow2(64) && five == FiveOctets(n / 2, 24) && |beyond| >= 3
    ensures Shr(Low(2 * FromOctets((five + beyond)[..8]), 64), 25) == Shr(n, 25)
  {
    hide Shl, Shr, Low, Pow2, FromOctets, FiveOctets;
    var x := FromOctets((five + beyond)[..8]);
    UpperHalf(n);
    FiveSpell(n / 2, 24);
    EightRead(five, beyond);
    DoubledFits(x, Shr(n / 2, 24), FromOctets(beyond[..3]));
    ShrOneMore(2 * x, 24);
    ShrOneMore(n, 24);
  }

  lemma ShrOneMore(x: nat, k: nat)
    ensures Shr(x, k + 1) == Shr(x / 2, k)
  {}

  lemma PowDoubles(k: nat)
    ensures Pow2(k + 1) == 2 * Pow2(k)
  {}

  lemma UpperHalf(n: nat)
    requires n < Pow2(64)
    ensures Shr(n / 2, 24) < Pow2(39) && Low(Shr(n / 2, 24), 40) == Shr(n / 2, 24)
  {
    hide Shr, Low, Pow2;
    PowDoubles(63);
    PowDoubles(39);
    SplitFits(n / 2, 63, 24);
    LowWhole(Shr(n / 2, 24), 40);
  }

  lemma DoubledFits(x: nat, u: nat, f: nat)
    requires u < Pow2(39) && f < Pow2(24) && x == Shl(u, 24) + f
    ensures Low(2 * x, 64) == 2 * x
  {
    hide Shl, Low, Pow2;
    ShiftedFits(f, 24, u, 39);
    PowDoubles(63);
    LowWhole(2 * x, 64);
  }

  lemma FramedLayout(id: octet, kind: octet, len: octet, five: seq<octet>, beyond: seq<octet>)
    requires id < 0x80 && |five| == 5 && |beyond| >= 3
    ensures var e := Finished(id, Framed(kind, len, five)); var mem := e + beyond;
            && |e| == 9 && mem[2] == kind && mem[3] == len && mem[4..12] == (five + beyond)[..8] && mem[4..] == five + beyond
  {
    var raw := Framed(kind, len, five);
    var e := Finished(id, raw);
    hide Or;
    assert raw[2..] == [kind, len] + five;
    assert e == [id, 7] + raw[2..];
    hide Finished, Framed;
    assert (e + beyond)[4..] == five + beyond;
    assert (e + beyond)[4..12] == (e + beyond)[4..][..8];
  }

  lemma Kinds(kind: nat)
    ensures FixedKind(kind) <==> kind == 0 || kind == 1 || kind == 2 || kind == 0x20
  {}

  // A fixed identity comes back from its element, whatever octets follow it, exactly if its fields fit
  // and the parser knows its kind.
  lemma FixedRoundTrip(id: FixedIdentity, beyond: seq<octet>)
    requires id.kind < 128 && |beyond| >= 3
    ensures ParseFixed(Finished(FIXED_IDENTITY, BuildFixed(id)) + beyond, 9) == Some(id) <==>
            Fits(id.ari) && (id.kind == 0 || id.kind == 1 || id.kind == 2 || id.kind == 0x20)
  {
    Kinds(id.kind);
    hide Or, Low, Shr, FromOctets, Pow2, BuildAri, Finished, Fits, FiveOctets, Framed, ParseAri, FixedKind;
    var n := BuildAri(id.ari);
    var five := FiveOctets(n / 2, 24);
    var read := Low(2 * FromOctets((five + beyond)[..8]), 64);
    KindOctet(id.kind);
    FramedLayout(FIXED_IDENTITY, 128 + id.kind, 165, five, beyond);
    AriRoundTrip(id.ari);
    if Fits(id.ari) {
      ShiftedBack(n, five, beyond);
      ParseHigh(read, n);
    } else {
      ParsedFits(read);
    }
  }

  lemma IpeiNumber(ipei: Ipei)
    requires ipei.emc < Pow2(16) && ipei.psn < Pow2(20)
    ensures var t := BuildIpei(ipei);
            && t < Pow2(40) && Shr(t, 32) < Pow2(4)
            && Extract(t, 20, 16) == ipei.emc && Low(t, 20) == ipei.psn
  {
    hide Shl, Shr, Low, Or, Pow2;
    var t := Shl(ipei.emc, 20) + ipei.psn;
    ShiftedFits(ipei.psn, 20, ipei.emc, 16);
    ShlFits(ipei.emc, 16, 20);
    Wider(36, 40);
    Wider(36, 64);
    LowWhole(Shl(ipei.emc, 20), 64);
    OrCommutes(Shl(ipei.emc, 20), ipei.psn);
    OrShifted(ipei.psn, ipei.emc, 20);
    ShiftSplits(ipei.emc, ipei.psn, 20);
    LowWhole(ipei.emc, 16);
    SplitFits(t, 36, 32);
  }

  lemma {:induction false} Wider(j: nat, k: nat)
    requires j <= k
    ensures Pow2(j) <= Pow2(k)
    decreases k
  {
    if j < k {
      PowDoubles(k - 1);
      Wider(j, k - 1);
    }
  }

  lemma Sixteen()
    ensures Pow2(4) == 16
  {}

  lemma NoShift(x: nat)
    ensures Shr(x, 0) == x
  {}

  // A type N identity comes back from its five octets, whatever three follow, exactly if its serial
  // number fits twenty bits.
  lemma IpuiRoundTrip(ipei: Ipei, beyond: seq<octet>)
    requires ipei.emc < Pow2(16) && |beyond| >= 3
    ensures ParseIpui(BuildIpui(ipei) + beyond, IPUI_N_LEN) == Some(ipei) <==> ipei.psn < Pow2(20)
  {
    hide Shl, Shr, Low, Or, Pow2, FromOctets, BuildIpei, Extract;
    var t := BuildIpei(ipei);
    var mem := BuildIpui(ipei) + beyond;
    if ipei.psn < Pow2(20) {
      IpeiNumber(ipei);
      FiveSpell(t, 0);
      NoShift(t);
      LowWhole(t, 40);
      EightRead(BuildIpui(ipei), beyond);
      Sixteen();
      assert mem[0] == OctetAt(t, 32);
      hide FiveOctets;
    } else {
      LowFits(Shr(FromOctets(mem[..8]), 24), 20);
    }
  }

  lemma PortableRoundTrip(kind: nat, ipei: Ipei, beyond: seq<octet>)
    requires (kind == 0 || kind == 0x10) && ipei.emc < Pow2(16) && |beyond| >= 3
    ensures var r := ParsePortable(Finished(PORTABLE_IDENTITY, BuildPortable(kind, ipei)) + beyond, 9);
            r == Some(PortableIdentity(kind, Some(ipei))) <==> ipei.psn < Pow2(20)
  {
    hide Or, Pow2, Finished, Framed, BuildIpui, ParseIpui;
    KindOctet(kind);
    KindOctet(IPUI_N_LEN);
    FramedLayout(PORTABLE_IDENTITY, 128 + kind, 168, BuildIpui(ipei), beyond);
    IpuiRoundTrip(ipei, beyond);
  }

  // ----- What the parsers take -----

  // A fixed identity is taken exactly if the octets of its kind and its length end their groups, its kind is one of
  // the four there are and its number names a class; the kind is kept, and the length is not looked at.
  lemma FixedAccepted(mem: seq<octet>, len: octet)
    requires |mem| >= 12
    ensures var a := Low(2 * FromOctets(mem[4..12]), 64); var r := ParseFixed(mem, len);
            && (r.Some? <==> len >= 2 && mem[2] in {0x80, 0x81, 0x82, 0xA0} && mem[3] >= 0x80 && Shr(a, 61) < 5)
            && (r.Some? ==> r.value.kind == mem[2] as int - 0x80 && ParseAri(a) == Some(r.value.ari))
  {
    var a := Low(2 * FromOctets(mem[4..12]), 64);
    LowFits(2 * FromOctets(mem[4..12]), 64);
    AriRefused(a);
    assert mem[2] >= 0x80 ==> mem[2] % 128 == mem[2] - 0x80;
    hide Low, Shr, FromOctets, ParseAri, Pow2;
  }

  // An empty portable identity is taken as one without a number. Any other is taken exactly if its two octets end their
  // groups and its kind is one of the three there are; of the kinds that hold a number it is kept without one unless
  // that is of type N and forty bits long.
  lemma PortableAccepted(mem: seq<octet>, len: octet)
    requires |mem| >= 12
    ensures var r := ParsePortable(mem, len);
            && (len == 2 ==> r == Some(PortableIdentity(0, None)))
            && (r.Some? <==> len == 2 || (len > 2 && mem[2] in {0x80, 0x90, 0xA0} && mem[3] >= 0x80))
            && (r.Some? && len != 2 ==> r.value.kind == mem[2] as int - 0x80)
            && (r.Some? && len != 2 ==> (r.value.ipei.Some? <==> mem[2] != 0xA0 && mem[3] == 0xA8 && mem[4] < 0x10))
  {
    hide Low, Shr, FromOctets, Extract;
    assert mem[2] >= 0x80 ==> mem[2] % 128 == mem[2] - 0x80;
    assert mem[3] >= 0x80 ==> mem[3] % 128 == mem[3] - 0x80;
    assert mem[4..][0] == mem[4];
  }

  // The finished elements: the type and seven octets, of which the kind and the length in bits both end their groups.
  lemma ElementOctets(fixed: FixedIdentity, kind: nat, ipei: Ipei)
    requires fixed.kind < 128 && (kind == 0 || kind == 0x10)
    ensures Finished(FIXED_IDENTITY, BuildFixed(fixed)) ==
            [0x06, 7, 0x80 + fixed.kind, 0x80 + 37] + FiveOctets(BuildAri(fixed.ari) / 2, 24)
    ensures Finished(PORTABLE_IDENTITY, BuildPortable(kind, ipei)) == [0x05, 7, 0x80 + kind, 0x80 + 40] + BuildIpui(ipei)
  {
    hide Or, BuildAri, FiveOctets, BuildIpui, Pow2;
    KindOctet(fixed.kind);
    KindOctet(kind);
    KindOctet(IPUI_N_LEN);
    FramedOctets(FIXED_IDENTITY, 0x80 + fixed.kind, 0x80 + 37, FiveOctets(BuildAri(fixed.ari) / 2, 24));
    FramedOctets(PORTABLE_IDENTITY, 0x80 + kind, 0x80 + 40, BuildIpui(ipei));
  }

  lemma FramedOctets(id: octet, kind: octet, len: octet, five: seq<octet>)
    requires id < 0x80 && |five| == 5
    ensures Finished(id, Framed(kind, len, five)) == [id, 7, kind, len] + five
  {
    hide Or;
    assert Framed(kind, len, five)[2..] == [kind, len] + five;
  }

  // The octets of a type N identity: twelve bits and four of the manufacturer's code, then the serial number.
  lemma IpuiOctets(ipei: Ipei)
    requires ipei.emc < 0x10000 && ipei.psn < 0x100000
    ensures var emc, psn := ipei.emc, ipei.psn;
            BuildIpui(ipei) == [emc / 0x1000, emc / 0x10 % 256, emc % 0x10 * 0x10 + psn / 0x10000, psn / 0x100 % 256, psn % 256]
  {
    var t := BuildIpei(ipei);
    IpeiSum(ipei);
    Shifts40(t);
    hide BuildIpei, Shl, Shr, Low, Or, Pow2;
    var emc, psn := ipei.emc, ipei.psn;
    Split40(emc, psn, t);
  }

  lemma IpeiSum(ipei: Ipei)
    requires ipei.emc < 0x10000 && ipei.psn < 0x100000
    ensures BuildIpei(ipei) == ipei.emc * 0x100000 + ipei.psn
  {
    var emc, psn := ipei.emc, ipei.psn;
    Powers();
    hide Shl, Shr, Low, Or, Pow2;
    ShlFits(emc, 16, 20);
    Wider(36, 64);
    LowWhole(Shl(emc, 20), 64);
    OrCommutes(Shl(emc, 20), psn);
    OrShifted(psn, emc, 20);
    ShlTimes(emc, 20);
  }

  lemma Powers()
    ensures Pow2(16) == 0x10000 && Pow2(20) == 0x100000 && Pow2(8) == 256
  {}

  // The octets of a number of forty bits.
  lemma Shifts40(t: nat)
    ensures FiveOctets(t, 0) == [t / 0x100000000 % 256, t / 0x1000000 % 256, t / 0x10000 % 256, t / 0x100 % 256, t % 256]
  {
    hide Shr;
    EightDown(t);
    EightDown(t / 0x100);
    EightDown(t / 0x10000);
    EightDown(t / 0x1000000);
    ShrAdd(t, 8, 8);
    ShrAdd(t, 16, 8);
    ShrAdd(t, 24, 8);
    Quotients(t);
  }

  lemma Quotients(t: nat)
    ensures t / 0x100 / 256 == t / 0x10000 && t / 0x10000 / 256 == t / 0x1000000 && t / 0x1000000 / 256 == t / 0x100000000
  {}

  lemma Halves(t: nat)
    ensures t / 2 / 2 == t / 4 && t / 4 / 2 == t / 8 && t / 8 / 2 == t / 16 && t / 16 / 2 == t / 32
    ensures t / 32 / 2 == t / 64 && t / 64 / 2 == t / 128 && t / 128 / 2 == t / 256
  {}

  lemma EightDown(t: nat)
    ensures Shr(t, 8) == t / 256 && Shr(t, 0) == t
  {
    hide Shr;
    NoShift(t);
    Halves(t);
    ShrOneMore(t, 7); ShrOneMore(t / 2, 6); ShrOneMore(t / 4, 5); ShrOneMore(t / 8, 4);
    ShrOneMore(t / 16, 3); ShrOneMore(t / 32, 2); ShrOneMore(t / 64, 1); ShrOneMore(t / 128, 0);
    NoShift(t / 256);
  }

  lemma Split40(emc: nat, psn: nat, t: nat)
    requires emc < 0x10000 && psn < 0x100000 && t == emc * 0x100000 + psn
    ensures t / 0x100000000 % 256 == emc / 0x1000 && t / 0x1000000 % 256 == emc / 0x10 % 256
    ensures t / 0x10000 % 256 == emc % 0x10 * 0x10 + psn / 0x10000 && t / 0x100 % 256 == psn / 0x100 % 256 && t % 256 == psn % 256
  {
    var a, e := emc / 0x10, psn % 0x10000;
    var m := emc % 0x10 * 0x10 + psn / 0x10000;
    Joined40(emc, psn, a, m, e);
    Split16(a * 0x100 + m, e, t);
    Split16Again(a, m);
    SplitEnds(emc, psn);
  }

  lemma Joined40(emc: nat, psn: nat, a: nat, m: nat, e: nat)
    requires psn < 0x100000 && a == emc / 0x10 && m == emc % 0x10 * 0x10 + psn / 0x10000 && e == psn % 0x10000
    ensures m < 0x100 && emc * 0x100000 + psn == (a * 0x100 + m) * 0x10000 + e
  {
    var b, d := emc % 0x10, psn / 0x10000;
    assert emc == 0x10 * a + b && psn == 0x10000 * d + e;
  }

  lemma SplitEnds(emc: nat, psn: nat)
    requires emc < 0x10000
    ensures emc / 0x10 / 0x100 == emc / 0x1000 && emc / 0x1000 % 256 == emc / 0x1000
    ensures psn % 0x10000 / 0x100 == psn / 0x100 % 256 && psn % 0x10000 % 256 == psn % 256
  {}

  lemma Split16(high: nat, low: nat, t: nat)
    requires low < 0x10000 && t == high * 0x10000 + low
    ensures t / 0x10000 == high && t / 0x100 % 256 == low / 0x100 && t % 256 == low % 256
    ensures t / 0x1000000 == high / 0x100 && t / 0x100000000 == high / 0x10000
  {
    assert t / 0x10000 == high;
    assert t / 0x100 == high * 256 + low / 0x100;
    Quotients(t);
  }

  lemma Split16Again(a: nat, m: nat)
    requires m < 0x100
    ensures (a * 0x100 + m) % 0x100 == m && (a * 0x100 + m) / 0x100 == a && (a * 0x100 + m) / 0x10000 == a / 0x100
  {}

  // ----- Identities in messages -----

  datatype Identity = Fixed(fixed: FixedIdentity) | Portable(kind: nat, ipei: Ipei)

  // The element handlers for both identities; beyond is what the parsers find past an element.
  function IdentityCodec(beyond: seq<octet>): Codec<Identity>
    requires |beyond| >= 12
  {
    Codec(BuildIdentity, (id: octet, bytes: seq<octet>) => ParseIdentity(id, bytes, beyond), v => false)
  }

  function BuildIdentity(id: octet, v: Identity): Built {
    match v
    case Fixed(fixed) => if id == FIXED_IDENTITY then Raw(BuildFixed(fixed)) else NoBuilder
    case Portable(kind, ipei) =>
      if id == PORTABLE_IDENTITY && (kind == 0 || kind == 0x10) then Raw(BuildPortable(kind, ipei)) else Failed
  }

  function ParseIdentity(id: octet, bytes: seq<octet>, beyond: seq<octet>): Option<Identity> {
    if |bytes| + |beyond| < 12 || |bytes| > 255 then None
    else if id == FIXED_IDENTITY then
      match ParseFixed(bytes + beyond, |bytes|)
      case Some(fixed) => Some(Fixed(fixed))
      case None => None
    else if id == PORTABLE_IDENTITY then
      match ParsePortable(bytes + beyond, |bytes|)
      case Some(PortableIdentity(kind, Some(ipei))) => Some(Portable(kind, ipei))
      case _ => None
    else None
  }

  predicate IdentityFits(v: Identity) {
    match v
    case Fixed(fixed) => Fits(fixed.ari) && FixedKind(fixed.kind)
    case Portable(kind, ipei) => (kind == 0 || kind == 0x10) && ipei.emc < Pow2(16) && ipei.psn < Pow2(20)
  }

  // The identity elements are faithful, so every message of them has the round trip of the engine.
  lemma IdentitiesFaithful(v: Identity, beyond: seq<octet>)
    requires |beyond| >= 12 && IdentityFits(v)
    ensures Faithful(IdentityCodec(beyond), if v.Fixed? then FIXED_IDENTITY else PORTABLE_IDENTITY, v)
  {
    hide BuildIdentity, ParseIdentity, Finished, RawFits;
    IdentityBuilt(v);
    IdentityParsed(v, beyond);
  }

  lemma IdentityBuilt(v: Identity)
    requires IdentityFits(v)
    ensures var id := if v.Fixed? then FIXED_IDENTITY else PORTABLE_IDENTITY; var built := BuildIdentity(id, v);
            && built == Raw(if v.Fixed? then BuildFixed(v.fixed) else BuildPortable(v.kind, v.ipei))
            && RawFits(id, built.bytes) && |Finished(id, built.bytes)| == 9
  {
    hide Or, Fits, BuildAri, FiveOctets, Pow2, BuildIpui, Finished, Framed;
    match v
    case Fixed(fixed) =>
      FramedSize(FIXED_IDENTITY, ToOctet(Or(GROUP_END, fixed.kind)), 165, FiveOctets(BuildAri(fixed.ari) / 2, 24));
    case Portable(kind, ipei) =>
      FramedSize(PORTABLE_IDENTITY, ToOctet(Or(GROUP_END, kind)), ToOctet(Or(GROUP_END, IPUI_N_LEN)), BuildIpui(ipei));
  }

  lemma IdentityParsed(v: Identity, beyond: seq<octet>)
    requires |beyond| >= 12 && IdentityFits(v)
    ensures var id := if v.Fixed? then FIXED_IDENTITY else PORTABLE_IDENTITY; var built := BuildIdentity(id, v);
            built.Raw? && RawFits(id, built.bytes) && ParseIdentity(id, Finished(id, built.bytes), beyond) == Some(v)
  {
    IdentityBuilt(v);
    hide Finished, Fits, Pow2, RawFits, BuildIdentity;
    match v
    case Fixed(fixed) =>
      hide BuildFixed, ParseFixed;
      FixedRoundTrip(fixed, beyond);
    case Portable(kind, ipei) =>
      hide BuildPortable, ParsePortable;
      PortableRoundTrip(kind, ipei, beyond);
  }

  lemma FramedSize(id: octet, kind: octet, len: octet, five: seq<octet>)
    requires id < 0x80 && |five| == 5
    ensures |Framed(kind, len, five)| == 9 && |Finished(id, Framed(kind, len, five))| == 9
  {}

  // The answer to a page, {LCE-PAGE-RESPONSE}, as the portable part sends it.
  const PAGE_RESPONSE: seq<Desc> := [
    Desc(PORTABLE_IDENTITY, NONE, MANDATORY, false),
    Desc(FIXED_IDENTITY, NONE, OPTIONAL, false),
    Desc(0x09, NONE, OPTIONAL, false),
    Desc(0x19, NONE, OPTIONAL, false),
    Desc(0x7B, NONE, OPTIONAL, false)]

  function PageResponse(who: Identity, park: Option<Identity>): map<nat, Cell<Identity>> {
    map[0 := Value(who), 8 := if park.Some? then Value(park.value) else Null, 16 := Null, 24 := Null, 32 := Null]
  }

  lemma PageOffsets()
    ensures Offset(PAGE_RESPONSE, 0) == 0 && Offset(PAGE_RESPONSE, 1) == 8 && Offset(PAGE_RESPONSE, 2) == 16
    ensures Offset(PAGE_RESPONSE, 3) == 24 && Offset(PAGE_RESPONSE, 4) == 32
  {}

  lemma PageShape(who: Identity, park: Option<Identity>)
    ensures WellFormed(PAGE_RESPONSE) && Distinct(PAGE_RESPONSE) && Starts(PAGE_RESPONSE, 0)
    ensures Shaped(PAGE_RESPONSE, PageResponse(who, park)) && NoLists(PAGE_RESPONSE, PageResponse(who, park))
  {
    PageOffsets();
    hide Offset;
    var m := PageResponse(who, park);
    forall i | 0 <= i < |PAGE_RESPONSE|
      ensures LineOk(PAGE_RESPONSE, i) && CellFits(PAGE_RESPONSE, m, i)
    {}
    assert Offsets(PAGE_RESPONSE, |PAGE_RESPONSE|) == {0, 8, 16, 24, 32} by {
      assert Offset(PAGE_RESPONSE, 0) in Offsets(PAGE_RESPONSE, |PAGE_RESPONSE|);
      assert Offset(PAGE_RESPONSE, 1) in Offsets(PAGE_RESPONSE, |PAGE_RESPONSE|);
      assert Offset(PAGE_RESPONSE, 2) in Offsets(PAGE_RESPONSE, |PAGE_RESPONSE|);
      assert Offset(PAGE_RESPONSE, 3) in Offsets(PAGE_RESPONSE, |PAGE_RESPONSE|);
      assert Offset(PAGE_RESPONSE, 4) in Offsets(PAGE_RESPONSE, |PAGE_RESPONSE|);
    }
  }

  // One identity in a message: faithful, and nine octets long.
  lemma IdentityLine(v: Identity, d: Desc, beyond: seq<octet>)
    requires |beyond| >= 12 && IdentityFits(v) && Tx(PP, d) != NONE
    requires d.kind == if v.Fixed? then FIXED_IDENTITY else PORTABLE_IDENTITY
    ensures var codec := IdentityCodec(beyond); var e := BuildElement(codec, PP, d, v);
            e.Bytes? && |e.bytes| == 9 && SentType(codec, d.kind, v) == d.kind && Faithful(codec, d.kind, v)
  {
    hide BuildIdentity, ParseIdentity, Finished, IdentityFits, Faithful, IdentityCodec, SentType, RawFits, BuildFixed, BuildPortable;
    IdentityBuilt(v);
    IdentitiesFaithful(v, beyond);
    CodecBuilds(v, d.kind, beyond);
  }

  lemma CodecBuilds(v: Identity, kind: octet, beyond: seq<octet>)
    requires |beyond| >= 12 && kind in {FIXED_IDENTITY, PORTABLE_IDENTITY}
    ensures IdentityCodec(beyond).build(kind, v) == BuildIdentity(kind, v)
    ensures SentType(IdentityCodec(beyond), kind, v) == kind
  {
    hide BuildIdentity, ParseIdentity;
  }

  lemma PageLine(who: Identity, park: Option<Identity>, beyond: seq<octet>, i: nat)
    requires |beyond| >= 12 && who.Portable? && IdentityFits(who) && i < |PAGE_RESPONSE|
    requires park.Some? ==> park.value.Fixed? && IdentityFits(park.value)
    ensures var codec := IdentityCodec(beyond); var m := PageResponse(who, park); var line := BuildLine(codec, PP, PAGE_RESPONSE, m, i);
            && line.Bytes? && |line.bytes| <= 9
            && FaithfulLine(codec, PAGE_RESPONSE, m, i) && !Unmet(codec, FP, PAGE_RESPONSE, m, i)
  {
    PageOffsets();
    hide Offset, IdentityCodec, IdentityFits, BuildElement, Faithful;
    if i == 0 {
      IdentityLine(who, PAGE_RESPONSE[0], beyond);
    } else if i == 1 && park.Some? {
      IdentityLine(park.value, PAGE_RESPONSE[1], beyond);
    }
  }

  // Lines of at most nine octets.
  lemma {:induction false} BuildBounded<V>(codec: Codec<V>, mode: Mode, descs: seq<Desc>, m: map<nat, Cell<V>>, i: nat)
    requires WellFormed(descs) && Starts(descs, i)
    requires forall j | i <= j < |descs| && (IsList(descs[j]) ==> j + 1 < |descs|) ::
               var line := BuildLine(codec, mode, descs, m, j); line.Bytes? && |line.bytes| <= 9
    ensures var b := Build(codec, mode, descs, m, i); b.Bytes? && |b.bytes| <= 9 * (|descs| - i)
    decreases |descs| - i
  {
    if i < |descs| {
      NextStarts(descs, i);
      hide BuildLine, WellFormed;
      BuildBounded(codec, mode, descs, m, if IsList(descs[i]) then i + 2 else i + 1);
    }
  }

  // Whoever answers a page, and with whatever access rights, is read by the fixed part as it was sent.
  lemma PageResponseArrives(who: Identity, park: Option<Identity>, beyond: seq<octet>)
    requires |beyond| >= 12 && who.Portable? && IdentityFits(who)
    requires park.Some? ==> park.value.Fixed? && IdentityFits(park.value)
    ensures WellFormed(PAGE_RESPONSE) && Starts(PAGE_RESPONSE, 0)
    ensures var codec := IdentityCodec(beyond); var m := PageResponse(who, park);
            var b := Build(codec, PP, PAGE_RESPONSE, m, 0);
            && b.Bytes? && |b.bytes| <= 255
            && var r := ParseMessage(codec, FP, PAGE_RESPONSE, b.bytes); r.Parsed? && r.fields == m
  {
    var codec, m := IdentityCodec(beyond), PageResponse(who, park);
    PageShape(who, park);
    forall i | 0 <= i < |PAGE_RESPONSE|
      ensures var line := BuildLine(codec, PP, PAGE_RESPONSE, m, i); line.Bytes? && |line.bytes| <= 9
      ensures FaithfulLine(codec, PAGE_RESPONSE, m, i) && !Unmet(codec, FP, PAGE_RESPONSE, m, i)
    {
      PageLine(who, park, beyond, i);
    }
    hide Build, BuildLine, FaithfulLine, Unmet, IdentityCodec, WellFormed, Distinct, Shaped, NoLists, IdentityFits, ParseMessage;
    hide Starts, PageResponse;
    BuildBounded(codec, PP, PAGE_RESPONSE, m, 0);
    RoundTripExactly(codec, PP, PAGE_RESPONSE, m);
  }
}
