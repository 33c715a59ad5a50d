// CLMS-FIXED messages of ETSI EN 300 175-5, clause 12.3.1: an address section, then numbered data
// sections of four octets, all of five octets, broadcast as one page.
module Clms {
  import opened Common

  const SECTION_ADDR := 0x8
  const STANDARD_ONE_SECTION := 0x1
  const STANDARD_MULTI_SECTION := 0x2
  const PD_IE_CODING := 0x1
  const TPUI_CBI_HIGH := 0xCF
  const TPUI_CBI_LOW := 0xFF
  const DATA_SIZE := 4
  const SECTION_SIZE := 5

  function Min(a: nat, b: nat): nat {
    if a < b then a else b
  }

  function Zeros(n: nat): (s: seq<octet>)
    ensures |s| == n
  {
    seq(n, _ => 0)
  }

  // ----- Sending -----

  function DataSection(num: nat, data: seq<octet>): (s: seq<octet>)
    requires |data| <= DATA_SIZE
    ensures |s| == SECTION_SIZE
  {
    [num % 256] + data + Zeros(DATA_SIZE - |data|)
  }

  function DataSections(num: nat, data: seq<octet>): seq<octet>
    decreases |data|
  {
    if data == [] then [] else
      var n := Min(|data|, DATA_SIZE);
      DataSection(num, data[..n]) + DataSections(num + 1, data[n..])
  }

  function AddressSection(code: octet, li: octet): seq<octet>
    requires code < 8
  {
    [SECTION_ADDR + code, TPUI_CBI_HIGH, TPUI_CBI_LOW, PD_IE_CODING, li]
  }

  // A single octet travels in the length indicator.
  function Send(data: seq<octet>): seq<octet>
    requires data != []
  {
    if |data| > 1 then AddressSection(STANDARD_MULTI_SECTION, |data| * 8 % 256) + DataSections(0, data)
    else AddressSection(STANDARD_ONE_SECTION, data[0])
  }

  method SendFixed(data: seq<octet>) returns (mb: seq<octet>)
    requires data != []
    ensures mb == Send(data)
  {
    if |data| > 1 {
      mb := AddressSection(STANDARD_MULTI_SECTION, |data| * 8 % 256);
    } else {
      return AddressSection(STANDARD_ONE_SECTION, data[0]);
    }
    hide DataSections, DataSection;
    assert data[0..] == data;
    var section: nat, pos: nat := 0, 0;
    while pos < |data|
      invariant pos <= |data|
      invariant mb + DataSections(section, data[pos..]) == Send(data)
    {
      var n := Min(|data| - pos, DATA_SIZE);
      NextSection(section, data, pos);
      var ds := [section % 256] + data[pos..pos + n];
      if n < DATA_SIZE {
        ds := ds + Zeros(DATA_SIZE - n);
      }
      SectionIs(section, data[pos..pos + n], ds);
      Associate(mb, ds, DataSections(section + 1, data[pos + n..]));
      mb := mb + ds;
      pos := pos + n;
      section := section + 1;
    }
    assert DataSections(section, data[pos..]) == [] by {
      assert data[pos..] == [];
      NoSections(section);
    }
  }

  lemma SectionIs(num: nat, data: seq<octet>, ds: seq<octet>)
    requires |data| <= DATA_SIZE
    requires ds == [num % 256] + data + (if |data| < DATA_SIZE then Zeros(DATA_SIZE - |data|) else [])
    ensures ds == DataSection(num, data)
  {}

  lemma Associate(a: seq<octet>, b: seq<octet>, c: seq<octet>)
    ensures (a + b) + c == a + (b + c)
  {}

  lemma NoSections(num: nat)
    ensures DataSections(num, []) == []
  {}

  lemma NextSection(num: nat, data: seq<octet>, pos: nat)
    requires pos < |data|
    ensures var n := Min(|data| - pos, DATA_SIZE);
            DataSections(num, data[pos..]) ==
            DataSection(num, data[pos..pos + n]) + DataSections(num + 1, data[pos + n..])
  {
    var n := Min(|data| - pos, DATA_SIZE);
    assert data[pos..][..n] == data[pos..pos + n] && data[pos..][n..] == data[pos + n..];
  }

  // How many sections the octets of a payload fill.
  function SectionCount(n: nat): nat {
    (n + 3) / 4
  }

  // Octet p of the payload, padded with zeros.
  function Padded(data: seq<octet>, p: nat): octet {
    if p < |data| then data[p] else 0
  }

  // Where the p-th octet of the payload lies in the data sections: behind the numbers of the sections so far.
  function Place(p: nat): nat {
    p + p / 4 + 1
  }

  // Each data section begins with its number, the payload follows in fours, and zeros fill up the last section.
  lemma {:induction false} DataLayout(num: nat, data: seq<octet>, p: nat)
    requires p < 4 * SectionCount(|data|) && num + p / 4 < 256
    ensures var s := DataSections(num, data);
            && |s| == 5 * SectionCount(|data|) && Place(p) < |s|
            && s[5 * (p / 4)] as int == num + p / 4 && s[Place(p)] == Padded(data, p)
    decreases |data|
  {
    var n := Min(|data|, DATA_SIZE);
    var rest, first, tail := data[n..], DataSection(num, data[..n]), DataSections(num + 1, data[n..]);
    assert DataSections(num, data) == first + tail;
    DataSize(num, data);
    DataSize(num + 1, rest);
    hide DataSections;
    if p < 4 {
      FirstLayout(num, data, p);
    } else {
      assert Padded(data, p) == Padded(rest, p - 4);
      hide DataSection, Padded;
      NextPlace(p, |data|);
      hide Place, SectionCount;
      DataLayout(num + 1, rest, p - 4);
    }
  }

  lemma NextPlace(p: nat, size: nat)
    requires 4 <= p < 4 * SectionCount(size)
    ensures 5 * (p / 4) == 5 + 5 * ((p - 4) / 4) && Place(p) == 5 + Place(p - 4)
    ensures size > 4 && SectionCount(size) == 1 + SectionCount(size - 4)
  {
    NextIndex(p);
  }

  lemma FirstLayout(num: nat, data: seq<octet>, p: nat)
    requires data != [] && p < 4 && num < 256
    ensures var first := DataSection(num, data[..Min(|data|, DATA_SIZE)]); first[0] as int == num && first[Place(p)] == Padded(data, p)
  {
    assert Place(p) == p + 1;
  }

  lemma {:induction false} DataSize(num: nat, data: seq<octet>)
    ensures |DataSections(num, data)| == 5 * SectionCount(|data|)
    decreases |data|
  {
    if data != [] {
      DataSize(num + 1, data[Min(|data|, DATA_SIZE)..]);
    }
  }

  // The octets that are broadcast, for every octet of the padded payload.
  lemma SentLayout(data: seq<octet>, p: nat)
    requires 0 < |data| <= 96 && p < 4 * SectionCount(|data|)
    ensures |data| == 1 ==> Send(data) == [0x09, 0xCF, 0xFF, 0x01, data[0]]
    ensures |data| > 1 ==>
              var mb := Send(data);
              && |mb| == 5 + 5 * SectionCount(|data|) && mb[..5] == [0x0A, 0xCF, 0xFF, 0x01, |data| * 8 % 256]
              && mb[5 + 5 * (p / 4)] as int == p / 4 && mb[5 + Place(p)] == Padded(data, p)
  {
    if |data| > 1 {
      DataLayout(0, data, p);
      hide DataSections;
      var s := DataSections(0, data);
      var mb := Send(data);
      assert mb == AddressSection(STANDARD_MULTI_SECTION, |data| * 8 % 256) + s;
      assert mb[5 + 5 * (p / 4)] == s[5 * (p / 4)] && mb[5 + Place(p)] == s[Place(p)];
    }
  }

  // ----- Receiving -----

  // Aborted is the failed assertion on a buffer that is not made of whole sections.
  datatype Reception = Delivered(data: seq<octet>) | Nothing | Aborted

  predicate OneSection(code: nat) {
    code == 1 || code == 3 || code == 5
  }

  predicate MultiSection(code: nat) {
    code == 2 || code == 4 || code == 6
  }

  predicate DataHeader(hdr: octet, sections: nat) {
    hdr / 8 % 2 == 0 && hdr % 8 < 5 && hdr % 8 == sections
  }

  // The data sections, of which the next must be number sections; len octets are still to come.
  function ReceiveSections(rest: seq<octet>, sections: nat, len: nat, data: seq<octet>): Reception
    requires |rest| % SECTION_SIZE == 0
    decreases |rest|
  {
    if rest == [] then (if len > 0 then Nothing else Delivered(data))
    else if !DataHeader(rest[0], sections) then Nothing
    else
      var n := Min(len, DATA_SIZE);
      ReceiveSections(rest[SECTION_SIZE..], sections + 1, len - n, data + rest[1..1 + n])
  }

  function Receive(mb: seq<octet>): Reception
    requires mb != []
  {
    if |mb| % SECTION_SIZE != 0 then Aborted
    else if mb[0] / 8 % 2 != 1 then Nothing
    else if mb[3] != PD_IE_CODING && mb[3] != 6 then Nothing
    else if OneSection(mb[0] % 8) then Delivered([mb[4]])
    else if !MultiSection(mb[0] % 8) || mb[4] == 0 || mb[4] % 8 != 0 then Nothing
    else ReceiveSections(mb[SECTION_SIZE..], 0, mb[4] / 8, [])
  }

  method ReceiveFixed(mb: seq<octet>) returns (r: Reception)
    requires mb != []
    ensures r == Receive(mb)
  {
    if |mb| % SECTION_SIZE != 0 {
      return Aborted;
    }
    if mb[0] / 8 % 2 != 1 {
      return Nothing;
    }
    if mb[3] != PD_IE_CODING && mb[3] != 6 {
      return Nothing;
    }
    var code := mb[0] % 8;
    if OneSection(code) {
      return Delivered([mb[4]]);
    }
    if !MultiSection(code) || mb[4] == 0 || mb[4] % 8 != 0 {
      return Nothing;
    }
    ghost var due := Receive(mb);
    hide Receive, ReceiveSections, OneSection, MultiSection;
    var len := mb[4] / 8;
    var sections: nat, pos: nat, data := 0, SECTION_SIZE, [];
    while pos < |mb|
      invariant pos <= |mb| && |mb[pos..]| % SECTION_SIZE == 0 && len >= 0
      invariant ReceiveSections(mb[pos..], sections, len, data) == due
    {
      SectionAt(mb, pos, sections, len, data);
      var section := mb[pos] % 8;
      if mb[pos] / 8 % 2 != 0 {
        return Nothing;
      }
      if section >= 5 {
        return Nothing;
      }
      if section != sections {
        return Nothing;
      }
      sections := sections + 1;
      var n := Min(len, DATA_SIZE);
      data := data + mb[pos + 1..pos + 1 + n];
      len := len - n;
      pos := pos + SECTION_SIZE;
    }
    SectionTaken(mb[pos..], sections, len, data);
    if len > 0 {
      return Nothing;
    }
    return Delivered(data);
  }

  lemma SectionTaken(rest: seq<octet>, sections: nat, len: nat, data: seq<octet>)
    requires |rest| % SECTION_SIZE == 0
    ensures ReceiveSections(rest, sections, len, data) ==
            if rest == [] then (if len > 0 then Nothing else Delivered(data))
            else if !DataHeader(rest[0], sections) then Nothing
            else ReceiveSections(rest[SECTION_SIZE..], sections + 1, len - Min(len, DATA_SIZE), data + rest[1..1 + Min(len, DATA_SIZE)])
  {}

  lemma SectionAt(mb: seq<octet>, pos: nat, sections: nat, len: nat, data: seq<octet>)
    requires pos < |mb| && |mb[pos..]| % SECTION_SIZE == 0
    ensures pos + SECTION_SIZE <= |mb| && |mb[pos + SECTION_SIZE..]| % SECTION_SIZE == 0
    ensures var n := Min(len, DATA_SIZE);
            ReceiveSections(mb[pos..], sections, len, data) ==
            if !DataHeader(mb[pos], sections) then Nothing
            else ReceiveSections(mb[pos + SECTION_SIZE..], sections + 1, len - n, data + mb[pos + 1..pos + 1 + n])
  {
    hide ReceiveSections, DataHeader;
    var rest, n := mb[pos..], Min(len, DATA_SIZE);
    SectionTaken(rest, sections, len, data);
    assert rest[1..1 + n] == mb[pos + 1..pos + 1 + n] && rest[SECTION_SIZE..] == mb[pos + SECTION_SIZE..];
  }

  // ----- What is delivered -----

  // The header octet of data section n, of which the upper half is of no account.
  predicate NumberIs(hdr: octet, n: nat) {
    n < 5 && hdr % 16 == n
  }

  lemma HeaderBits(hdr: octet, n: nat)
    ensures DataHeader(hdr, n) <==> NumberIs(hdr, n)
  {
    var q := hdr / 16;
    assert hdr == 16 * q + hdr % 16;
  }

  // The sections are data sections numbered from s on, all below five.
  predicate Numbered(rest: seq<octet>, s: nat) {
    forall k | 0 <= k < |rest| / SECTION_SIZE :: NumberIs(rest[SECTION_SIZE * k], s + k)
  }

  // The first len octets the data sections carry.
  function Payload(rest: seq<octet>, len: nat): seq<octet>
    requires len <= DATA_SIZE * (|rest| / SECTION_SIZE)
  {
    seq(len, j requires 0 <= j < len => rest[SECTION_SIZE * (j / DATA_SIZE) + 1 + j % DATA_SIZE])
  }

  lemma NumberedStep(rest: seq<octet>, s: nat)
    requires |rest| >= SECTION_SIZE
    ensures Numbered(rest, s) <==> NumberIs(rest[0], s) && Numbered(rest[SECTION_SIZE..], s + 1)
  {
    hide NumberIs;
    var tail := rest[SECTION_SIZE..];
    assert forall k | 0 <= k < |tail| / SECTION_SIZE :: tail[SECTION_SIZE * k] == rest[SECTION_SIZE * (k + 1)];
    if NumberIs(rest[0], s) && Numbered(tail, s + 1) {
      forall k | 0 <= k < |rest| / SECTION_SIZE
        ensures NumberIs(rest[SECTION_SIZE * k], s + k)
      {
        if k > 0 {
          assert NumberIs(tail[SECTION_SIZE * (k - 1)], s + 1 + (k - 1));
        }
      }
    }
    if Numbered(rest, s) {
      assert NumberIs(rest[SECTION_SIZE * 0], s + 0);
      forall k | 0 <= k < |tail| / SECTION_SIZE
        ensures NumberIs(tail[SECTION_SIZE * k], s + 1 + k)
      {
        assert NumberIs(rest[SECTION_SIZE * (k + 1)], s + (k + 1));
      }
    }
  }

  lemma PayloadStep(rest: seq<octet>, len: nat)
    requires |rest| >= SECTION_SIZE && len <= DATA_SIZE * (|rest| / SECTION_SIZE)
    ensures var n := Min(len, DATA_SIZE);
            && len - n <= DATA_SIZE * (|rest[SECTION_SIZE..]| / SECTION_SIZE)
            && Payload(rest, len) == rest[1..1 + n] + Payload(rest[SECTION_SIZE..], len - n)
  {
    var n := Min(len, DATA_SIZE);
    var tail := rest[SECTION_SIZE..];
    var a, b := Payload(rest, len), rest[1..1 + n] + Payload(tail, len - n);
    forall j | 0 <= j < len
      ensures a[j] == b[j]
    {
      if j >= DATA_SIZE {
        NextIndex(j);
        assert b[j] == Payload(tail, len - n)[j - DATA_SIZE];
      } else {
        assert j / DATA_SIZE == 0 && j % DATA_SIZE == j;
      }
    }
  }

  lemma NextIndex(j: nat)
    requires j >= 4
    ensures (j - 4) / 4 == j / 4 - 1 && (j - 4) % 4 == j % 4
  {
    assert j == 4 * (j / 4) + j % 4;
  }

  lemma OneLess(size: nat, len: nat)
    requires size >= SECTION_SIZE
    ensures len <= DATA_SIZE * (size / SECTION_SIZE) <==>
            len - Min(len, DATA_SIZE) <= DATA_SIZE * ((size - SECTION_SIZE) / SECTION_SIZE)
  {
    assert size / SECTION_SIZE == 1 + (size - SECTION_SIZE) / SECTION_SIZE;
  }

  // Data sections are delivered exactly if they are numbered in sequence and cover the length indicated.
  lemma {:induction false} SectionsDelivered(rest: seq<octet>, sections: nat, len: nat, data: seq<octet>)
    requires |rest| % SECTION_SIZE == 0
    ensures ReceiveSections(rest, sections, len, data) ==
            if Numbered(rest, sections) && len <= DATA_SIZE * (|rest| / SECTION_SIZE)
            then Delivered(data + Payload(rest, len)) else Nothing
    decreases |rest|
  {
    SectionTaken(rest, sections, len, data);
    hide ReceiveSections;
    if rest != [] {
      hide DataHeader, Numbered, NumberIs, Payload;
      var n := Min(len, DATA_SIZE);
      var tail := rest[SECTION_SIZE..];
      HeaderBits(rest[0], sections);
      NumberedStep(rest, sections);
      SectionsDelivered(tail, sections + 1, len - n, data + rest[1..1 + n]);
      OneLess(|rest|, len);
      if len <= DATA_SIZE * (|rest| / SECTION_SIZE) {
        PayloadStep(rest, len);
        Associate(data, rest[1..1 + n], Payload(tail, len - n));
      }
    }
  }

  // A buffer of sections is delivered exactly in these two forms, and with exactly these octets.
  lemma ReceiveExactly(mb: seq<octet>)
    requires mb != [] && |mb| % SECTION_SIZE == 0
    ensures var rest := mb[SECTION_SIZE..]; var len := mb[4] / 8;
            Receive(mb) ==
            if mb[0] / 8 % 2 == 0 || mb[3] !in {1, 6} then Nothing
            else if mb[0] % 8 in {1, 3, 5} then Delivered([mb[4]])
            else if mb[0] % 8 in {2, 4, 6} && len > 0 && mb[4] == 8 * len && Numbered(rest, 0) &&
                    len <= DATA_SIZE * (|rest| / SECTION_SIZE)
                 then Delivered(Payload(rest, len)) else Nothing
  {
    SectionsDelivered(mb[SECTION_SIZE..], 0, mb[4] / 8, []);
    hide Numbered, Payload, ReceiveSections;
  }

  // ----- Round trip -----

  lemma {:induction false} SectionsArrive(num: nat, data: seq<octet>, got: seq<octet>)
    requires 4 * num + |data| <= 20
    ensures var s := DataSections(num, data);
            |s| % SECTION_SIZE == 0 && ReceiveSections(s, num, |data|, got) == Delivered(got + data)
    decreases |data|
  {
    if data != [] {
      var n := Min(|data|, DATA_SIZE);
      SectionsArrive(num + 1, data[n..], got + data[..n]);
      DataSectionsWhole(num, data);
      ReceiveOne(num, data, got);
      assert got + data[..n] + data[n..] == got + data;
      hide DataSections, ReceiveSections;
    }
  }

  lemma ReceiveOne(num: nat, data: seq<octet>, got: seq<octet>)
    requires num < 5 && data != [] && |DataSections(num, data)| % SECTION_SIZE == 0
    ensures var n := Min(|data|, DATA_SIZE);
            && |DataSections(num + 1, data[n..])| % SECTION_SIZE == 0
            && ReceiveSections(DataSections(num, data), num, |data|, got) ==
               ReceiveSections(DataSections(num + 1, data[n..]), num + 1, |data[n..]|, got + data[..n])
  {
    var n := Min(|data|, DATA_SIZE);
    var s := DataSections(num, data);
    assert s == DataSection(num, data[..n]) + DataSections(num + 1, data[n..]);
    hide DataSections;
    assert s[SECTION_SIZE..] == DataSections(num + 1, data[n..]) && s[1..1 + n] == data[..n] && s[0] == num;
  }

  // More sections than there are numbers are never accepted.
  lemma {:induction false} SectionsRefused(num: nat, data: seq<octet>, len: nat, got: seq<octet>)
    requires 4 * num + |data| > 20 && data != []
    ensures var s := DataSections(num, data);
            |s| % SECTION_SIZE == 0 && ReceiveSections(s, num, len, got) == Nothing
    decreases |data|
  {
    var n := Min(|data|, DATA_SIZE);
    var s := DataSections(num, data);
    var tail := DataSections(num + 1, data[n..]);
    assert s[SECTION_SIZE..] == tail;
    DataSectionsWhole(num + 1, data[n..]);
    hide DataSections;
    if DataHeader(s[0], num) {
      var m := Min(len, DATA_SIZE);
      SectionsRefused(num + 1, data[n..], len - m, got + s[1..1 + m]);
    }
  }

  lemma {:induction false} DataSectionsWhole(num: nat, data: seq<octet>)
    ensures |DataSections(num, data)| % SECTION_SIZE == 0
    decreases |data|
  {
    if data != [] {
      DataSectionsWhole(num + 1, data[Min(|data|, DATA_SIZE)..]);
    }
  }

  lemma MultiReceived(data: seq<octet>, li: octet)
    requires li % 8 == 0 && |DataSections(0, data)| % SECTION_SIZE == 0
    ensures Receive(AddressSection(STANDARD_MULTI_SECTION, li) + DataSections(0, data)) ==
            if li == 0 then Nothing else ReceiveSections(DataSections(0, data), 0, li / 8, [])
  {
    hide DataSections, ReceiveSections;
    var address := AddressSection(STANDARD_MULTI_SECTION, li);
    var mb := address + DataSections(0, data);
    assert mb[SECTION_SIZE..] == DataSections(0, data);
    assert mb[0] == address[0] && mb[3] == address[3] && mb[4] == address[4];
  }

  lemma LengthIndicator(n: nat)
    ensures n * 8 % 256 % 8 == 0 && (n < 32 ==> n * 8 % 256 == n * 8)
  {
    var q := n * 8 / 256;
    assert n * 8 % 256 == 8 * (n - 32 * q);
  }

  // Every payload of up to twenty octets arrives as it was sent, and a longer one not at all.
  lemma RoundTrip(data: seq<octet>)
    requires 0 < |data| <= 96
    ensures Receive(Send(data)) == if |data| <= 20 then Delivered(data) else Nothing
  {
    hide DataSections, ReceiveSections;
    if |data| > 1 {
      var li := |data| * 8 % 256;
      LengthIndicator(|data|);
      DataSectionsWhole(0, data);
      hide Receive;
      MultiReceived(data, li);
      if |data| <= 20 {
        SectionsArrive(0, data, []);
      } else {
        SectionsRefused(0, data, li / 8, []);
      }
    }
  }
}
