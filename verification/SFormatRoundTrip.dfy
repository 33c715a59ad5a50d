// What the message engine promises: the peer reads back exactly what was built, under an exact condition.
module SFormatRoundTrip {
  import opened Common
  import opened SFormat
  import Bits

  // ----- One element -----

  // Contents that fit their type: a variable element is not empty, a fixed one keeps to its value bits.
  predicate RawFits(id: octet, raw: RawBytes) {
    if id < 0x80 then 3 <= |raw| <= 255 else
      && raw[0] < 16 && id != REPEAT_INDICATOR
      && (if id / 16 * 16 in {EXT_PREFIX, DOUBLE_OCTET} then raw[0] == 0 else id % 16 == 0)
  }

  lemma OrValue(val: nat, id: octet)
    requires val < 16 && id >= 0x80 && (val == 0 || id % 16 == 0)
    ensures Bits.Or(val, id) == val + id
  {
    if val == 0 {
      Bits.OrZero(id);
    } else {
      var x := id / 16;
      assert Bits.Pow2(4) == 16;
      assert Bits.Shl(x, 1) == 2 * x && Bits.Shl(x, 2) == 4 * x && Bits.Shl(x, 3) == 8 * x && Bits.Shl(x, 4) == 16 * x;
      Bits.OrShifted(val, id / 16, 4);
    }
  }

  lemma Nibbles(val: nat, id: octet)
    requires val < 16 && id >= 0x80 && (val == 0 || id % 16 == 0)
    ensures 0x80 <= val + id < 256 && (val + id) / 16 * 16 == id / 16 * 16 && (val + id) % 16 == val + id % 16
    ensures id / 16 * 16 == DOUBLE_OCTET <==> id / 16 % 8 == DOUBLE_OCTET / 16 % 8
  {
    var q := id / 16;
    assert id == 16 * q + id % 16;
    assert val + id == 16 * q + (val + id % 16);
    assert 8 <= q < 16;
  }

  // A finished element is found again at the head of any buffer, with its type and length.
  lemma HeaderOfFinished(id: octet, raw: RawBytes, rest: seq<octet>)
    requires RawFits(id, raw) && |Finished(id, raw)| + |rest| <= 255
    ensures Finished(id, raw) != []
    ensures ParseHeader(Finished(id, raw) + rest) == Some(Header(id, |Finished(id, raw)|))
  {
    if id >= 0x80 {
      HeaderOfFixed(id, raw, rest);
    } else {
      hide Bits.Or;
      var b := Finished(id, raw);
      assert (b + rest)[0] == id && (b + rest)[1] == |raw| - 2;
    }
  }

  lemma HeaderOfFixed(id: octet, raw: RawBytes, rest: seq<octet>)
    requires RawFits(id, raw) && id >= 0x80 && |Finished(id, raw)| + |rest| <= 255
    ensures Finished(id, raw) != []
    ensures ParseHeader(Finished(id, raw) + rest) == Some(Header(id, |Finished(id, raw)|))
  {
    OrValue(raw[0], id);
    Nibbles(raw[0], id);
    FixedOctets(id, raw);
    hide Bits.Or, Finished;
    var b := Finished(id, raw);
    assert (b + rest)[0] == raw[0] + id;
  }

  lemma FixedOctets(id: octet, raw: RawBytes)
    requires id >= 0x80 && Bits.Or(raw[0], id) < 256
    ensures Finished(id, raw) == [Bits.Or(raw[0], id)] + (if id / 16 % 8 == DOUBLE_OCTET / 16 % 8 then [raw[1]] else [])
  {
    hide Bits.Or;
  }

  // A codec whose element of this type reads back what it builds from the value.
  predicate Faithful<V>(codec: Codec<V>, id: octet, v: V) {
    var built := codec.build(id, v);
    && built.Raw? && RawFits(id, built.bytes)
    && codec.parse(id, Finished(id, built.bytes)) == Some(v)
  }

  // ----- Messages -----

  // Single and multi-character displays and keypads count as one type.
  function Canon(id: octet): octet {
    if id == MULTI_DISPLAY then SINGLE_DISPLAY else if id == MULTI_KEYPAD then SINGLE_KEYPAD else id
  }

  predicate Distinct(descs: seq<Desc>) {
    forall i, j | 0 <= i < j < |descs| :: Plain(descs[j]) ==> Canon(descs[i].kind) != Canon(descs[j].kind)
  }

  predicate FaithfulMessage<V>(codec: Codec<V>, descs: seq<Desc>, m: map<nat, Cell<V>>) {
    forall i | 0 <= i < |descs| :: FaithfulLine(codec, descs, m, i)
  }

  predicate FaithfulLine<V>(codec: Codec<V>, descs: seq<Desc>, m: map<nat, Cell<V>>, i: nat)
    requires i < |descs|
  {
    var cell := At(m, Offset(descs, i));
    Plain(descs[i]) && cell.Value? ==> Faithful(codec, SentType(codec, descs[i].kind, cell.v), cell.v)
  }

  predicate NoLists<V>(descs: seq<Desc>, m: map<nat, Cell<V>>) {
    forall i | 0 <= i < |descs| :: IsList(descs[i]) ==> NoItems(At(m, Offset(descs, i)))
  }

  predicate NoItems<V>(c: Cell<V>) {
    c.List? ==> c.items == []
  }

  // The receiver insists on a line that it cannot get: a repeated element, or a display or keypad
  // of one character where several were sent.
  predicate Unmet<V>(codec: Codec<V>, mode: Mode, descs: seq<Desc>, m: map<nat, Cell<V>>, i: nat)
    requires i < |descs|
  {
    var cell := At(m, Offset(descs, i));
    Rx(mode, descs[i]) == MANDATORY &&
    (!Plain(descs[i]) || (cell.Value? && SentType(codec, descs[i].kind, cell.v) != descs[i].kind))
  }

  predicate AllMet<V>(codec: Codec<V>, mode: Mode, descs: seq<Desc>, m: map<nat, Cell<V>>, i: nat) {
    forall j | i <= j < |descs| :: !Unmet(codec, mode, descs, m, j)
  }

  lemma Policies(mode: Mode, d: Desc)
    ensures Tx(mode, d) == Rx(Other(mode), d)
  {}

  // What a built message starts with comes from a plain line.
  lemma {:induction false} BuiltHead<V>(codec: Codec<V>, mode: Mode, descs: seq<Desc>, m: map<nat, Cell<V>>, i: nat)
    requires WellFormed(descs) && Starts(descs, i) && FaithfulMessage(codec, descs, m) && NoLists(descs, m)
    requires Build(codec, mode, descs, m, i).Bytes? && 0 < |Build(codec, mode, descs, m, i).bytes| <= 255
    ensures var h := ParseHeader(Build(codec, mode, descs, m, i).bytes);
            h.Some? && exists j :: i <= j < |descs| && Plain(descs[j]) && Canon(h.value.id) == Canon(descs[j].kind)
    decreases |descs| - i
  {
    hide Finished, ParseHeader, Faithful;
    NextStarts(descs, i);
    var next := if IsList(descs[i]) then i + 2 else i + 1;
    var line := BuildLine(codec, mode, descs, m, i);
    var rest := Build(codec, mode, descs, m, next);
    var b := Build(codec, mode, descs, m, i).bytes;
    assert b == line.bytes + rest.bytes;
    var cell := At(m, Offset(descs, i));
    assert IsList(descs[i]) ==> NoItems(cell);
    if Plain(descs[i]) && cell.Value? {
      assert FaithfulLine(codec, descs, m, i);
      LineSent(codec, mode, descs[i], cell.v, rest.bytes);
    } else {
      assert line == Bytes([]) && b == rest.bytes;
      BuiltHead(codec, mode, descs, m, next);
    }
  }

  // A faithful value is sent as one element, found again by its type.
  lemma LineSent<V>(codec: Codec<V>, mode: Mode, d: Desc, v: V, rest: seq<octet>)
    requires Faithful(codec, SentType(codec, d.kind, v), v) && Tx(mode, d) != NONE
    requires var e := BuildElement(codec, mode, d, v); e.Bytes? ==> |e.bytes| + |rest| <= 255
    ensures var e := BuildElement(codec, mode, d, v); var id := SentType(codec, d.kind, v);
            && e.Bytes? && e.bytes != [] && ParseHeader(e.bytes + rest) == Some(Header(id, |e.bytes|))
            && codec.parse(id, e.bytes) == Some(v) && id != REPEAT_INDICATOR && (id < 0x80 ==> |e.bytes| != 2)
            && Canon(id) == Canon(d.kind)
  {
    var id := SentType(codec, d.kind, v);
    var raw := codec.build(id, v).bytes;
    HeaderOfFinished(id, raw, rest);
  }

  // A line that is not sent is passed over, unless it is mandatory.
  lemma Unsent<V>(codec: Codec<V>, mode: Mode, descs: seq<Desc>, i: nat, pos: nat, b: seq<octet>, fields: map<nat, Cell<V>>)
    requires i < |descs| && |b| <= 255
    requires b != [] ==> ParseHeader(b).Some? && Canon(ParseHeader(b).value.id) != Canon(descs[i].kind)
    ensures Parse(codec, mode, descs, i, pos, b, fields) ==
            if Rx(mode, descs[i]) == MANDATORY then ParseError(IE_MISSING)
            else Parse(codec, mode, descs, i + 1, pos, b, Init(descs, i + 1, fields))
  {
    hide ParseHeader, Init, Offset;
    if b == [] {
      assert Complete(mode, descs, i) <==> Rx(mode, descs[i]) != MANDATORY && Complete(mode, descs, i + 1);
    }
  }

  // The message structure the receiver ends up with, from the i-th line on.
  function Received<V>(descs: seq<Desc>, m: map<nat, Cell<V>>, i: nat, fields: map<nat, Cell<V>>): map<nat, Cell<V>>
    requires i <= |descs|
    decreases |descs| - i
  {
    if i == |descs| then fields else
      var off := Offset(descs, i);
      Received(descs, m, i + 1, Init(descs, i + 1, if Plain(descs[i]) && At(m, off).Value? then fields[off := m[off]] else fields))
  }

  lemma HeadElsewhere(descs: seq<Desc>, i: nat, id: octet)
    requires Distinct(descs) && i < |descs|
    requires exists j :: i < j < |descs| && Plain(descs[j]) && Canon(id) == Canon(descs[j].kind)
    ensures Canon(id) != Canon(descs[i].kind)
  {}

  // A sent element is taken by its own line.
  lemma TakeSent<V>(codec: Codec<V>, mode: Mode, descs: seq<Desc>, m: map<nat, Cell<V>>, i: nat, pos: nat,
                    rest: seq<octet>, fields: map<nat, Cell<V>>)
    requires i < |descs| && Plain(descs[i]) && At(m, Offset(descs, i)).Value? && FaithfulLine(codec, descs, m, i)
    requires var e := BuildElement(codec, mode, descs[i], At(m, Offset(descs, i)).v); e.Bytes? && |e.bytes| + |rest| <= 255
    ensures var off := Offset(descs, i); var e := BuildElement(codec, mode, descs[i], m[off].v).bytes;
            var r := Parse(codec, Other(mode), descs, i, pos, e + rest, fields);
            if Unmet(codec, Other(mode), descs, m, i) then r == ParseError(IE_MISSING) else
              r == Prepend(Match(i, pos, Header(SentType(codec, descs[i].kind, m[off].v), |e|)),
                           Parse(codec, Other(mode), descs, i + 1, pos + |e|, rest, Init(descs, i + 1, fields[off := m[off]])))
  {
    hide ParseHeader, Init, Offset, Faithful, Finished;
    var d, v := descs[i], m[Offset(descs, i)].v;
    var e := BuildElement(codec, mode, d, v).bytes;
    Policies(mode, d);
    LineSent(codec, mode, d, v, rest);
    hide BuildElement;
    assert (e + rest)[..|e|] == e && (e + rest)[|e|..] == rest;
  }

  lemma FirstUnmet<V>(codec: Codec<V>, mode: Mode, descs: seq<Desc>, m: map<nat, Cell<V>>, i: nat)
    requires i < |descs|
    ensures AllMet(codec, mode, descs, m, i) <==> !Unmet(codec, mode, descs, m, i) && AllMet(codec, mode, descs, m, i + 1)
  {}

  // From the i-th line on the parser reads what was built, or reports a missing element.
  predicate ReadsBack<V>(codec: Codec<V>, mode: Mode, descs: seq<Desc>, m: map<nat, Cell<V>>, i: nat,
                         pos: nat, fields: map<nat, Cell<V>>)
    requires WellFormed(descs) && Starts(descs, i)
  {
    var b := Build(codec, mode, descs, m, i);
    b.Bytes? && |b.bytes| <= 255 ==>
      var r := Parse(codec, Other(mode), descs, i, pos, b.bytes, fields);
      if AllMet(codec, Other(mode), descs, m, i) then r.Parsed? && r.fields == Received(descs, m, i, fields)
      else r == ParseError(IE_MISSING)
  }

  lemma SentReadsBack<V>(codec: Codec<V>, mode: Mode, descs: seq<Desc>, m: map<nat, Cell<V>>, i: nat, pos: nat,
                         fields: map<nat, Cell<V>>)
    requires WellFormed(descs) && i < |descs| && Starts(descs, i) && Starts(descs, i + 1) && Plain(descs[i])
    requires var off := Offset(descs, i);
             && At(m, off).Value? && FaithfulLine(codec, descs, m, i)
             && (Build(codec, mode, descs, m, i).Bytes? ==>
                   BuildElement(codec, mode, descs[i], m[off].v).Bytes? &&
                   ReadsBack(codec, mode, descs, m, i + 1, pos + |BuildElement(codec, mode, descs[i], m[off].v).bytes|,
                             Init(descs, i + 1, fields[off := m[off]])))
    ensures ReadsBack(codec, mode, descs, m, i, pos, fields)
  {
    hide Parse, BuildElement, Init, Offset, Faithful, FaithfulLine, AllMet, Unmet, Received, WellFormed, Starts;
    FirstUnmet(codec, Other(mode), descs, m, i);
    ReceivedStep(descs, m, i, fields);
    var rest := Build(codec, mode, descs, m, i + 1);
    var b := Build(codec, mode, descs, m, i);
    if b.Bytes? && |b.bytes| <= 255 {
      TakeSent(codec, mode, descs, m, i, pos, rest.bytes, fields);
    }
  }

  lemma AbsentReadsBack<V>(codec: Codec<V>, mode: Mode, descs: seq<Desc>, m: map<nat, Cell<V>>, i: nat, pos: nat,
                           fields: map<nat, Cell<V>>)
    requires WellFormed(descs) && i < |descs| && Starts(descs, i) && Starts(descs, i + 1) && Plain(descs[i])
    requires Distinct(descs) && FaithfulMessage(codec, descs, m) && NoLists(descs, m)
    requires !At(m, Offset(descs, i)).Value? && ReadsBack(codec, mode, descs, m, i + 1, pos, Init(descs, i + 1, fields))
    ensures ReadsBack(codec, mode, descs, m, i, pos, fields)
  {
    var b := Build(codec, mode, descs, m, i);
    if b.Bytes? && |b.bytes| <= 255 {
      BuildSplit(codec, mode, descs, m, i);
      Policies(mode, descs[i]);
      FirstUnmet(codec, Other(mode), descs, m, i);
      ReceivedStep(descs, m, i, fields);
      hide Parse, Build, WellFormed, FaithfulMessage, NoLists, Distinct, AllMet, Init, Offset, Received;
      ParseUnsent(codec, mode, descs, m, i, i + 1, pos, fields);
    }
  }

  lemma ListReadsBack<V>(codec: Codec<V>, mode: Mode, descs: seq<Desc>, m: map<nat, Cell<V>>, i: nat, pos: nat,
                         fields: map<nat, Cell<V>>)
    requires WellFormed(descs) && i + 1 < |descs| && Starts(descs, i) && Starts(descs, i + 2)
    requires IsList(descs[i]) && descs[i + 1].repeat
    requires Distinct(descs) && FaithfulMessage(codec, descs, m) && NoLists(descs, m)
    requires ReadsBack(codec, mode, descs, m, i + 2, pos, Init(descs, i + 2, Init(descs, i + 1, fields)))
    ensures ReadsBack(codec, mode, descs, m, i, pos, fields)
  {
    var b := Build(codec, mode, descs, m, i);
    if b.Bytes? && |b.bytes| <= 255 {
      BuildSplit(codec, mode, descs, m, i);
      FirstUnmet(codec, Other(mode), descs, m, i);
      FirstUnmet(codec, Other(mode), descs, m, i + 1);
      var f := Init(descs, i + 1, fields);
      ReceivedStep(descs, m, i, fields);
      ReceivedStep(descs, m, i + 1, f);
      hide Parse, Build, WellFormed, FaithfulMessage, NoLists, Distinct, AllMet, Init, Offset, Received;
      ParseUnsent(codec, mode, descs, m, i, i + 2, pos, fields);
      ParseUnsent(codec, mode, descs, m, i + 1, i + 2, pos, f);
    }
  }

  // The parser, at the same line as the builder, reads what was built.
  lemma {:induction false} ParseBuilt<V>(codec: Codec<V>, mode: Mode, descs: seq<Desc>, m: map<nat, Cell<V>>, i: nat,
                                         pos: nat, fields: map<nat, Cell<V>>)
    requires WellFormed(descs) && Starts(descs, i) && Distinct(descs)
    requires FaithfulMessage(codec, descs, m) && NoLists(descs, m)
    ensures ReadsBack(codec, mode, descs, m, i, pos, fields)
    decreases |descs| - i
  {
    if i < |descs| {
      NextStarts(descs, i);
      assert FaithfulLine(codec, descs, m, i);
      hide Parse, Build, BuildElement, WellFormed, FaithfulMessage, NoLists, Distinct, Init, Offset, Faithful, ReadsBack;
      var cell := At(m, Offset(descs, i));
      var f := Init(descs, i + 1, fields);
      if IsList(descs[i]) {
        ParseBuilt(codec, mode, descs, m, i + 2, pos, Init(descs, i + 2, f));
        ListReadsBack(codec, mode, descs, m, i, pos, fields);
      } else if cell.Value? {
        var e := BuildElement(codec, mode, descs[i], cell.v);
        if e.Bytes? {
          ParseBuilt(codec, mode, descs, m, i + 1, pos + |e.bytes|, Init(descs, i + 1, fields[Offset(descs, i) := cell]));
        }
        BuildNeedsElement(codec, mode, descs, m, i);
        SentReadsBack(codec, mode, descs, m, i, pos, fields);
      } else {
        ParseBuilt(codec, mode, descs, m, i + 1, pos, f);
        AbsentReadsBack(codec, mode, descs, m, i, pos, fields);
      }
    }
  }

  lemma BuildNeedsElement<V>(codec: Codec<V>, mode: Mode, descs: seq<Desc>, m: map<nat, Cell<V>>, i: nat)
    requires WellFormed(descs) && i < |descs| && Starts(descs, i) && Plain(descs[i]) && At(m, Offset(descs, i)).Value?
    ensures Build(codec, mode, descs, m, i).Bytes? ==> BuildElement(codec, mode, descs[i], m[Offset(descs, i)].v).Bytes?
  {}

  lemma BuildSplit<V>(codec: Codec<V>, mode: Mode, descs: seq<Desc>, m: map<nat, Cell<V>>, i: nat)
    requires WellFormed(descs) && i < |descs| && Starts(descs, i) && NoLists(descs, m)
    requires Build(codec, mode, descs, m, i).Bytes?
    ensures Starts(descs, if IsList(descs[i]) then i + 2 else i + 1)
    ensures var cell := At(m, Offset(descs, i)); var d := descs[i]; var b := Build(codec, mode, descs, m, i);
            && (IsList(d) ==> b == Build(codec, mode, descs, m, i + 2) && descs[i + 1].repeat)
            && (!IsList(d) && !cell.Value? ==> b == Build(codec, mode, descs, m, i + 1) && Tx(mode, d) != MANDATORY)
            && (!IsList(d) && cell.Value? ==>
                  && BuildElement(codec, mode, d, cell.v).Bytes? && Build(codec, mode, descs, m, i + 1).Bytes?
                  && b.bytes == BuildElement(codec, mode, d, cell.v).bytes + Build(codec, mode, descs, m, i + 1).bytes)
  {
    NextStarts(descs, i);
    hide BuildElement, BuildList;
    assert IsList(descs[i]) ==> NoItems(At(m, Offset(descs, i)));
  }

  lemma ReceivedStep<V>(descs: seq<Desc>, m: map<nat, Cell<V>>, i: nat, fields: map<nat, Cell<V>>)
    requires i < |descs|
    ensures var off := Offset(descs, i);
            Received(descs, m, i, fields) ==
            Received(descs, m, i + 1,
                     Init(descs, i + 1, if Plain(descs[i]) && At(m, off).Value? then fields[off := m[off]] else fields))
  {}

  // A line before the next one that may be sent is passed over.
  lemma ParseUnsent<V>(codec: Codec<V>, mode: Mode, descs: seq<Desc>, m: map<nat, Cell<V>>, i: nat, next: nat, pos: nat,
                       fields: map<nat, Cell<V>>)
    requires WellFormed(descs) && i < next && Starts(descs, next) && Distinct(descs)
    requires FaithfulMessage(codec, descs, m) && NoLists(descs, m)
    requires Build(codec, mode, descs, m, next).Bytes? && |Build(codec, mode, descs, m, next).bytes| <= 255
    ensures var b := Build(codec, mode, descs, m, next).bytes;
            Parse(codec, Other(mode), descs, i, pos, b, fields) ==
            if Rx(Other(mode), descs[i]) == MANDATORY then ParseError(IE_MISSING)
            else Parse(codec, Other(mode), descs, i + 1, pos, b, Init(descs, i + 1, fields))
  {
    hide Parse, Build, Faithful, FaithfulMessage, NoLists, WellFormed;
    var b := Build(codec, mode, descs, m, next).bytes;
    if b != [] {
      BuiltHead(codec, mode, descs, m, next);
      HeadElsewhere(descs, i, ParseHeader(b).value.id);
    }
    Unsent(codec, Other(mode), descs, i, pos, b, fields);
  }

  // ----- Message structures -----

  // The bytes of an unrepeated line: a list head or a pointer.
  function SlotSize(d: Desc): nat {
    if d.kind == REPEAT_INDICATOR then 32 else 8
  }

  // The slots of a message structure follow one another and do not overlap; a repeated line has none of its own.
  lemma {:induction false} OffsetGrows(descs: seq<Desc>, i: nat, j: nat)
    requires i <= j <= |descs|
    ensures Offset(descs, i) <= Offset(descs, j)
    ensures i < j && !descs[i].repeat ==> Offset(descs, i) + SlotSize(descs[i]) <= Offset(descs, j)
    ensures j == i + 1 ==>
              Offset(descs, j) == Offset(descs, i) + (if descs[i].repeat && !IsList(descs[i]) then 0 else SlotSize(descs[i]))
    decreases j
  {
    if i < j {
      OffsetGrows(descs, i, j - 1);
    }
  }

  // The offsets of the unrepeated lines below n.
  function Offsets(descs: seq<Desc>, n: nat): set<nat>
    requires n <= |descs|
  {
    set i | 0 <= i < n && !descs[i].repeat :: Offset(descs, i)
  }

  // A message structure: a list for every indicator, a pointer for every other unrepeated line. An empty
  // list is as its initialisation leaves it.
  predicate Shaped<V>(descs: seq<Desc>, m: map<nat, Cell<V>>) {
    m.Keys == Offsets(descs, |descs|) && forall i | 0 <= i < |descs| && !descs[i].repeat :: CellFits(descs, m, i)
  }

  predicate CellFits<V>(descs: seq<Desc>, m: map<nat, Cell<V>>, i: nat)
    requires i < |descs|
  {
    var cell := At(m, Offset(descs, i));
    && Offset(descs, i) in m
    && (cell.List? <==> IsList(descs[i]))
    && (cell.List? && cell.items == [] ==> cell.order == 0)
  }

  // fields holds the lines below i as m does, and line i as initialised.
  ghost predicate UpTo<V>(descs: seq<Desc>, m: map<nat, Cell<V>>, i: nat, fields: map<nat, Cell<V>>)
    requires i <= |descs|
  {
    if i == |descs| then Settled(descs, m, i, fields) else
      && fields.Keys == Offsets(descs, i + 1)
      && LinesAs(descs, m, i, fields)
      && (!descs[i].repeat ==> At(fields, Offset(descs, i)) == if IsList(descs[i]) then List(0, []) else Null)
  }

  // fields holds exactly the lines below n, as m does.
  ghost predicate Settled<V>(descs: seq<Desc>, m: map<nat, Cell<V>>, n: nat, fields: map<nat, Cell<V>>)
    requires n <= |descs|
  {
    fields.Keys == Offsets(descs, n) && LinesAs(descs, m, n, fields)
  }

  ghost predicate LinesAs<V>(descs: seq<Desc>, m: map<nat, Cell<V>>, n: nat, fields: map<nat, Cell<V>>)
    requires n <= |descs|
  {
    forall j | 0 <= j < n && !descs[j].repeat :: At(fields, Offset(descs, j)) == At(m, Offset(descs, j))
  }

  // Setting the cell of line n leaves the lines below it alone.
  lemma LinesKept<V>(descs: seq<Desc>, m: map<nat, Cell<V>>, n: nat, fields: map<nat, Cell<V>>, cell: Cell<V>)
    requires n <= |descs| && LinesAs(descs, m, n, fields)
    ensures LinesAs(descs, m, n, fields[Offset(descs, n) := cell])
  {
    forall j | 0 <= j < n && !descs[j].repeat
      ensures Offset(descs, j) < Offset(descs, n)
    {
      OffsetGrows(descs, j, n);
    }
    hide Offset;
  }

  lemma OffsetsNext(descs: seq<Desc>, n: nat)
    requires n < |descs|
    ensures Offsets(descs, n + 1) == Offsets(descs, n) + (if descs[n].repeat then {} else {Offset(descs, n)})
  {}

  lemma InitSets<V>(descs: seq<Desc>, i: nat, fields: map<nat, Cell<V>>)
    requires i < |descs|
    ensures var f := Init(descs, i, fields); var off := Offset(descs, i);
            if descs[i].repeat && !IsList(descs[i]) then f == fields
            else f == fields[off := if IsList(descs[i]) then List(0, []) else Null]
  {}

  lemma InitOpens<V>(descs: seq<Desc>, m: map<nat, Cell<V>>, n: nat, fields: map<nat, Cell<V>>)
    requires WellFormed(descs) && n <= |descs| && Settled(descs, m, n, fields)
    ensures UpTo(descs, m, n, Init(descs, n, fields))
  {
    if n < |descs| {
      assert LineOk(descs, n);
      OffsetsNext(descs, n);
      hide WellFormed, Offset, Offsets, LinesAs;
      InitSets(descs, n, fields);
      LinesKept(descs, m, n, fields, if IsList(descs[n]) then List(0, []) else Null);
      hide Init;
    }
  }

  // The cell of line i as the receiver leaves it, and what it is in a message without lists.
  lemma CellKept<V>(descs: seq<Desc>, m: map<nat, Cell<V>>, i: nat, fields: map<nat, Cell<V>>)
    requires Shaped(descs, m) && NoLists(descs, m) && i < |descs| && !descs[i].repeat && UpTo(descs, m, i, fields)
    ensures var off := Offset(descs, i);
            && off in fields && off in m
            && m[off] == if Plain(descs[i]) && At(m, off).Value? then m[off] else fields[off]
  {
    assert CellFits(descs, m, i);
    OffsetsNext(descs, i);
    hide Shaped, Offset, Offsets;
    assert IsList(descs[i]) ==> NoItems(At(m, Offset(descs, i)));
  }

  lemma UpToNext<V>(descs: seq<Desc>, m: map<nat, Cell<V>>, i: nat, fields: map<nat, Cell<V>>)
    requires WellFormed(descs) && Shaped(descs, m) && NoLists(descs, m) && i < |descs| && UpTo(descs, m, i, fields)
    ensures var off := Offset(descs, i);
            UpTo(descs, m, i + 1, Init(descs, i + 1, if Plain(descs[i]) && At(m, off).Value? then fields[off := m[off]] else fields))
  {
    hide UpTo, Init, WellFormed;
    var off := Offset(descs, i);
    StoreSettles(descs, m, i, fields);
    InitOpens(descs, m, i + 1, if Plain(descs[i]) && At(m, off).Value? then fields[off := m[off]] else fields);
  }

  lemma StoreSettles<V>(descs: seq<Desc>, m: map<nat, Cell<V>>, i: nat, fields: map<nat, Cell<V>>)
    requires Shaped(descs, m) && NoLists(descs, m) && i < |descs| && UpTo(descs, m, i, fields)
    ensures var off := Offset(descs, i);
            Settled(descs, m, i + 1, if Plain(descs[i]) && At(m, off).Value? then fields[off := m[off]] else fields)
  {
    var off := Offset(descs, i);
    var f := if Plain(descs[i]) && At(m, off).Value? then fields[off := m[off]] else fields;
    OffsetsNext(descs, i);
    if !descs[i].repeat {
      CellKept(descs, m, i, fields);
    }
    hide Shaped, NoLists, Offsets, Offset;
    if Plain(descs[i]) && At(m, off).Value? {
      LinesKept(descs, m, i, fields, m[off]);
    }
  }

  lemma {:induction false} ReceivedAll<V>(descs: seq<Desc>, m: map<nat, Cell<V>>, i: nat, fields: map<nat, Cell<V>>)
    requires WellFormed(descs) && Shaped(descs, m) && NoLists(descs, m) && i <= |descs| && UpTo(descs, m, i, fields)
    ensures Received(descs, m, i, fields) == m
    decreases |descs| - i
  {
    if i < |descs| {
      UpToNext(descs, m, i, fields);
      hide UpTo, Init, Shaped, NoLists, WellFormed, Offset;
      var off := Offset(descs, i);
      ReceivedAll(descs, m, i + 1,
                  Init(descs, i + 1, if Plain(descs[i]) && At(m, off).Value? then fields[off := m[off]] else fields));
    } else {
      forall o | o in m
        ensures fields[o] == m[o]
      {
        var j :| 0 <= j < |descs| && !descs[j].repeat && o == Offset(descs, j);
        assert At(fields, Offset(descs, j)) == At(m, Offset(descs, j));
      }
    }
  }

  // The parser never puts an element on a list.
  predicate ListsEmpty<V>(fields: map<nat, Cell<V>>) {
    forall o | o in fields :: NoItems(fields[o])
  }

  lemma {:induction false} ParsedListsEmpty<V>(codec: Codec<V>, mode: Mode, descs: seq<Desc>, i: nat, pos: nat,
                                               bytes: seq<octet>, fields: map<nat, Cell<V>>)
    requires i <= |descs| && |bytes| <= 255 && ListsEmpty(fields)
    ensures var r := Parse(codec, mode, descs, i, pos, bytes, fields); r.Parsed? ==> ListsEmpty(r.fields)
    decreases |descs| - i
  {
    hide Offset, ListsEmpty, Judge, ParseHeader, Init, Store, Complete;
    InitRestEmpty(descs, i, fields);
    if bytes != [] && ParseHeader(bytes).Some? && i < |descs| {
      var h := ParseHeader(bytes).value;
      if Judge(mode, descs[i], h.id) == Skip {
        InitEmpty(descs, i + 1, fields);
        ParsedListsEmpty(codec, mode, descs, i + 1, pos, bytes, Init(descs, i + 1, fields));
      } else if Judge(mode, descs[i], h.id) == Take && Store(codec, mode, descs, i, h, bytes, fields).Some? {
        StoreEmpty(codec, mode, descs, i, h, bytes, fields);
        var f := Store(codec, mode, descs, i, h, bytes, fields).value;
        InitEmpty(descs, i + 1, f);
        ParsedListsEmpty(codec, mode, descs, i + 1, pos + h.len, bytes[h.len..], Init(descs, i + 1, f));
      }
    }
  }

  lemma InitEmpty<V>(descs: seq<Desc>, i: nat, fields: map<nat, Cell<V>>)
    requires i <= |descs| && ListsEmpty(fields)
    ensures ListsEmpty(Init(descs, i, fields))
  {}

  lemma {:induction false} InitRestEmpty<V>(descs: seq<Desc>, i: nat, fields: map<nat, Cell<V>>)
    requires i <= |descs| && ListsEmpty(fields)
    ensures ListsEmpty(InitRest(descs, i, fields))
    decreases |descs| - i
  {
    if i < |descs| {
      InitEmpty(descs, i + 1, fields);
      InitRestEmpty(descs, i + 1, Init(descs, i + 1, fields));
    }
  }

  lemma StoreEmpty<V>(codec: Codec<V>, mode: Mode, descs: seq<Desc>, i: nat, h: Header, bytes: seq<octet>,
                      fields: map<nat, Cell<V>>)
    requires i < |descs| && h.len <= |bytes| && ListsEmpty(fields)
    ensures var r := Store(codec, mode, descs, i, h, bytes, fields); r.Some? ==> ListsEmpty(r.value)
  {
    hide Offset;
  }

  // ----- The round trip -----

  // Of everything that faithful codecs build, the peer reads back exactly the messages without repeated
  // elements on which it does not insist on a line it cannot get.
  lemma RoundTripExactly<V>(codec: Codec<V>, mode: Mode, descs: seq<Desc>, m: map<nat, Cell<V>>)
    requires WellFormed(descs) && Distinct(descs) && Shaped(descs, m) && FaithfulMessage(codec, descs, m)
    requires Starts(descs, 0)
    requires Build(codec, mode, descs, m, 0).Bytes? && |Build(codec, mode, descs, m, 0).bytes| <= 255
    ensures var r := ParseMessage(codec, Other(mode), descs, Build(codec, mode, descs, m, 0).bytes);
            r.Parsed? && r.fields == m <==> NoLists(descs, m) && AllMet(codec, Other(mode), descs, m, 0)
  {
    var b := Build(codec, mode, descs, m, 0).bytes;
    var start := Init(descs, 0, map[]);
    if NoLists(descs, m) {
      ParseBuilt(codec, mode, descs, m, 0, 0, start);
      assert Settled(descs, m, 0, map[]);
      InitOpens(descs, m, 0, map[]);
      hide UpTo, Init, Shaped, NoLists, WellFormed, Parse, Received;
      ReceivedAll(descs, m, 0, start);
    } else {
      var r := ParseMessage(codec, Other(mode), descs, b);
      ParsedListsEmpty(codec, Other(mode), descs, 0, 0, b, start);
      hide Parse, Build, Offset, WellFormed;
      var i :| 0 <= i < |descs| && IsList(descs[i]) && !NoItems(At(m, Offset(descs, i)));
    }
  }
}
