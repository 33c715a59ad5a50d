// What the parser guarantees on any buffer, and that the freeing loop releases what it stored.
module SFormatSafety {
  import opened Common
  import opened SFormat
  import opened SFormatRoundTrip

  // Matches lie one behind the other between pos and end, on ever later lines that accept them.
  predicate InOrder(mode: Mode, descs: seq<Desc>, i: nat, pos: nat, end: nat, ms: seq<Match>) {
    && (ms != [] ==> ms[0].pos == pos)
    && (forall k | 0 <= k < |ms| :: i <= ms[k].desc < |descs| && 1 <= ms[k].header.len && ms[k].pos + ms[k].header.len <= end)
    && (forall k | 0 <= k < |ms| :: ms[k].desc < |descs| && Judge(mode, descs[ms[k].desc], ms[k].header.id) == Take)
    && (forall k, l | 0 <= k < l < |ms| :: ms[k].desc < ms[l].desc)
    && (forall k | 0 < k < |ms| :: ms[k].pos == ms[k - 1].pos + ms[k - 1].header.len)
  }

  predicate Matched(d: Desc, j: nat, ms: seq<Match>) {
    exists k :: 0 <= k < |ms| && ms[k].desc == j && ms[k].header.id == d.kind
  }

  predicate MandatoryMatched(mode: Mode, descs: seq<Desc>, i: nat, ms: seq<Match>) {
    forall j | i <= j < |descs| && Rx(mode, descs[j]) == MANDATORY :: Matched(descs[j], j, ms)
  }

  lemma InOrderPrepend(mode: Mode, descs: seq<Desc>, i: nat, m: Match, end: nat, ms: seq<Match>)
    requires m.desc == i < |descs| && Judge(mode, descs[i], m.header.id) == Take
    requires 1 <= m.header.len && m.pos + m.header.len <= end
    requires InOrder(mode, descs, i + 1, m.pos + m.header.len, end, ms)
    ensures InOrder(mode, descs, i, m.pos, end, [m] + ms)
  {
    hide Judge;
    var r := [m] + ms;
    assert forall k | 0 < k < |r| :: r[k] == ms[k - 1];
  }

  lemma MatchedPrepend(mode: Mode, descs: seq<Desc>, i: nat, m: Match, ms: seq<Match>)
    requires m.desc == i < |descs| && Judge(mode, descs[i], m.header.id) == Take
    requires MandatoryMatched(mode, descs, i + 1, ms)
    ensures MandatoryMatched(mode, descs, i, [m] + ms)
  {
    var r := [m] + ms;
    forall j | i <= j < |descs| && Rx(mode, descs[j]) == MANDATORY
      ensures Matched(descs[j], j, r)
    {
      if j == i {
        assert r[0].header.id == descs[j].kind;
      } else {
        assert Matched(descs[j], j, ms);
        var k :| 0 <= k < |ms| && ms[k].desc == j && ms[k].header.id == descs[j].kind;
        assert r[k + 1] == ms[k];
      }
    }
  }

  // On any buffer the parser stays inside it, matches elements one behind the other to ever later
  // lines, and accepts the message only if each mandatory line got an element of its own type.
  lemma {:induction false} ParseSafe<V>(codec: Codec<V>, mode: Mode, descs: seq<Desc>, i: nat, pos: nat,
                                        bytes: seq<octet>, fields: map<nat, Cell<V>>)
    requires i <= |descs| && |bytes| <= 255
    ensures var r := Parse(codec, mode, descs, i, pos, bytes, fields);
            r.Parsed? ==> InOrder(mode, descs, i, pos, pos + |bytes|, r.matches) && MandatoryMatched(mode, descs, i, r.matches)
    decreases |descs| - i
  {
    hide Offset, Init, Store, InitRest, InOrder, MandatoryMatched;
    Nothing(mode, descs, i, pos, pos + |bytes|);
    if bytes != [] && ParseHeader(bytes).Some? && i < |descs| {
      var h := ParseHeader(bytes).value;
      hide ParseHeader;
      match Judge(mode, descs[i], h.id)
      case Refuse =>
      case Skip =>
        var f := Init(descs, i + 1, fields);
        ParseSafe(codec, mode, descs, i + 1, pos, bytes, f);
        var r := Parse(codec, mode, descs, i + 1, pos, bytes, f);
        if r.Parsed? {
          Skipped(mode, descs, i, pos, pos + |bytes|, h.id, r.matches);
        }
      case Take =>
        if Store(codec, mode, descs, i, h, bytes, fields).Some? {
          var f := Init(descs, i + 1, Store(codec, mode, descs, i, h, bytes, fields).value);
          ParseSafe(codec, mode, descs, i + 1, pos + h.len, bytes[h.len..], f);
          var r := Parse(codec, mode, descs, i + 1, pos + h.len, bytes[h.len..], f);
          if r.Parsed? {
            InOrderPrepend(mode, descs, i, Match(i, pos, h), pos + |bytes|, r.matches);
            MatchedPrepend(mode, descs, i, Match(i, pos, h), r.matches);
          }
        }
    }
  }

  lemma Nothing(mode: Mode, descs: seq<Desc>, i: nat, pos: nat, end: nat)
    requires i <= |descs|
    ensures InOrder(mode, descs, i, pos, end, [])
    ensures Complete(mode, descs, i) ==> MandatoryMatched(mode, descs, i, [])
  {}

  lemma Skipped(mode: Mode, descs: seq<Desc>, i: nat, pos: nat, end: nat, id: octet, ms: seq<Match>)
    requires i < |descs| && Judge(mode, descs[i], id) == Skip
    requires InOrder(mode, descs, i + 1, pos, end, ms) && MandatoryMatched(mode, descs, i + 1, ms)
    ensures InOrder(mode, descs, i, pos, end, ms) && MandatoryMatched(mode, descs, i, ms)
  {}

  // Every element went to the first line, after that of the element before it, that has its type; the lines that
  // were passed over are not mandatory.
  predicate FirstFit(mode: Mode, descs: seq<Desc>, i: nat, ms: seq<Match>)
    decreases |ms|
  {
    ms == [] ||
    ((forall j | i <= j < ms[0].desc && j < |descs| :: descs[j].kind != ms[0].header.id && Rx(mode, descs[j]) != MANDATORY)
     && FirstFit(mode, descs, ms[0].desc + 1, ms[1..]))
  }

  lemma {:induction false} ParseFirstFit<V>(codec: Codec<V>, mode: Mode, descs: seq<Desc>, i: nat, pos: nat,
                                            bytes: seq<octet>, fields: map<nat, Cell<V>>)
    requires i <= |descs| && |bytes| <= 255
    ensures var r := Parse(codec, mode, descs, i, pos, bytes, fields);
            r.Parsed? ==>
              && FirstFit(mode, descs, i, r.matches)
              && (r.matches != [] ==> i <= r.matches[0].desc && ParseHeader(bytes) == Some(r.matches[0].header))
    decreases |descs| - i
  {
    hide Offset, Init, Store, InitRest, ParseHeader;
    if bytes != [] && ParseHeader(bytes).Some? && i < |descs| {
      var h := ParseHeader(bytes).value;
      match Judge(mode, descs[i], h.id)
      case Refuse =>
      case Skip => ParseFirstFit(codec, mode, descs, i + 1, pos, bytes, Init(descs, i + 1, fields));
      case Take =>
        if Store(codec, mode, descs, i, h, bytes, fields).Some? {
          var f := Init(descs, i + 1, Store(codec, mode, descs, i, h, bytes, fields).value);
          ParseFirstFit(codec, mode, descs, i + 1, pos + h.len, bytes[h.len..], f);
          var ms := Parse(codec, mode, descs, i, pos, bytes, fields);
          if ms.Parsed? {
            assert ms.matches[1..] == Parse(codec, mode, descs, i + 1, pos + h.len, bytes[h.len..], f).matches;
          }
        }
    }
  }

  // A buffer that ends within an element is refused, wherever the parser stands.
  lemma TruncatedRefused<V>(codec: Codec<V>, mode: Mode, descs: seq<Desc>, i: nat, pos: nat, bytes: seq<octet>,
                            fields: map<nat, Cell<V>>)
    requires i <= |descs| && 0 < |bytes| <= 255 && ParseHeader(bytes).None?
    ensures Parse(codec, mode, descs, i, pos, bytes, fields) == ParseError(IE_MISSING)
  {
    hide ParseHeader;
  }

  // An element of its line's type with contents that its handler does not take: the message is in error if the line
  // is mandatory, and otherwise the element is left out.
  lemma CorruptElement<V>(codec: Codec<V>, mode: Mode, descs: seq<Desc>, i: nat, pos: nat, bytes: seq<octet>,
                          fields: map<nat, Cell<V>>, h: Header)
    requires i < |descs| && 0 < |bytes| <= 255 && ParseHeader(bytes) == Some(h) && h.id == descs[i].kind
    requires Rx(mode, descs[i]) != NONE && h.id != REPEAT_INDICATOR && !(h.id < 0x80 && h.len == 2)
    requires codec.parse(h.id, bytes[..h.len]) == None
    ensures Parse(codec, mode, descs, i, pos, bytes, fields) ==
            if Rx(mode, descs[i]) == MANDATORY then ParseError(IE_ERROR)
            else Prepend(Match(i, pos, h), Parse(codec, mode, descs, i + 1, pos + h.len, bytes[h.len..], Init(descs, i + 1, fields)))
  {
    hide ParseHeader, Init, Offset;
  }

  // An element of a type that is not allowed in this direction is refused at its line.
  lemma ForbiddenRefused<V>(codec: Codec<V>, mode: Mode, descs: seq<Desc>, i: nat, pos: nat, bytes: seq<octet>,
                            fields: map<nat, Cell<V>>)
    requires i < |descs| && 0 < |bytes| <= 255 && ParseHeader(bytes).Some?
    requires Rx(mode, descs[i]) == NONE && ParseHeader(bytes).value.id == descs[i].kind
    ensures Parse(codec, mode, descs, i, pos, bytes, fields) == ParseError(IE_MISSING)
  {
    hide ParseHeader;
  }

  // ----- The message structure -----

  // The lines below n have their slots, and nothing else has; lists are never taken for pointers.
  ghost predicate Closed<V>(descs: seq<Desc>, n: nat, fields: map<nat, Cell<V>>)
    requires n <= |descs|
  {
    fields.Keys == Offsets(descs, n) && ListsKept(descs, n, fields)
  }

  ghost predicate ListsKept<V>(descs: seq<Desc>, n: nat, fields: map<nat, Cell<V>>)
    requires n <= |descs|
  {
    forall j | 0 <= j < n && IsList(descs[j]) && !descs[j].repeat :: !At(fields, Offset(descs, j)).Value?
  }

  // Line i has been initialised as well.
  ghost predicate Opened<V>(descs: seq<Desc>, i: nat, fields: map<nat, Cell<V>>)
    requires i <= |descs|
  {
    Closed(descs, if i < |descs| then i + 1 else i, fields)
  }

  predicate EndsPlain(descs: seq<Desc>) {
    descs == [] || !descs[|descs| - 1].repeat
  }

  lemma OpenClosed<V>(descs: seq<Desc>, n: nat, fields: map<nat, Cell<V>>)
    requires WellFormed(descs) && n <= |descs| && Closed(descs, n, fields)
    ensures Opened(descs, n, Init(descs, n, fields))
  {
    if n < |descs| {
      assert LineOk(descs, n);
      OffsetsNext(descs, n);
      forall j | 0 <= j < n && !descs[j].repeat
        ensures Offset(descs, j) < Offset(descs, n)
      {
        OffsetGrows(descs, j, n);
      }
      hide WellFormed, Offset, Offsets;
      InitSets(descs, n, fields);
      hide Init;
    }
  }

  lemma SetOpened<V>(descs: seq<Desc>, i: nat, fields: map<nat, Cell<V>>, cell: Cell<V>)
    requires i < |descs| && !descs[i].repeat && Opened(descs, i, fields) && (IsList(descs[i]) ==> !cell.Value?)
    ensures Closed(descs, i + 1, fields[Offset(descs, i) := cell])
  {
    OffsetsNext(descs, i);
    hide Offset, Offsets, ListsKept;
    ListsSet(descs, i, fields, cell);
  }

  lemma ListsSet<V>(descs: seq<Desc>, i: nat, fields: map<nat, Cell<V>>, cell: Cell<V>)
    requires i < |descs| && !descs[i].repeat && ListsKept(descs, i + 1, fields) && (IsList(descs[i]) ==> !cell.Value?)
    ensures ListsKept(descs, i + 1, fields[Offset(descs, i) := cell])
  {
    forall j | 0 <= j < i && !descs[j].repeat
      ensures Offset(descs, j) < Offset(descs, i)
    {
      OffsetGrows(descs, j, i);
    }
    hide Offset;
  }

  // A repeated element is stored where the next line's slot is, which is initialised afterwards.
  lemma RepeatedLost<V>(descs: seq<Desc>, i: nat, fields: map<nat, Cell<V>>, cell: Cell<V>)
    requires WellFormed(descs) && i + 1 < |descs| && descs[i].repeat
    ensures Init(descs, i + 1, fields[Offset(descs, i) := cell]) == Init(descs, i + 1, fields)
  {
    assert LineOk(descs, i) && LineOk(descs, i + 1);
    InitSets(descs, i + 1, fields);
    InitSets(descs, i + 1, fields[Offset(descs, i) := cell]);
    hide Init;
  }

  lemma OpenNext<V>(descs: seq<Desc>, i: nat, fields: map<nat, Cell<V>>, cell: Cell<V>)
    requires WellFormed(descs) && EndsPlain(descs) && i < |descs| && Opened(descs, i, fields)
    requires IsList(descs[i]) ==> !cell.Value?
    ensures Opened(descs, i + 1, Init(descs, i + 1, fields))
    ensures Opened(descs, i + 1, Init(descs, i + 1, fields[Offset(descs, i) := cell]))
  {
    assert Closed(descs, i + 1, fields);
    OpenClosed(descs, i + 1, fields);
    if descs[i].repeat {
      hide WellFormed, Opened, Init, Offset;
      RepeatedLost(descs, i, fields, cell);
    } else {
      SetOpened(descs, i, fields, cell);
      hide Opened, Closed, Init, Offset;
      OpenClosed(descs, i + 1, fields[Offset(descs, i) := cell]);
    }
  }

  lemma {:induction false} InitRestOpens<V>(descs: seq<Desc>, i: nat, fields: map<nat, Cell<V>>)
    requires WellFormed(descs) && EndsPlain(descs) && i <= |descs| && Opened(descs, i, fields)
    ensures Opened(descs, |descs|, InitRest(descs, i, fields))
    decreases |descs| - i
  {
    hide WellFormed, EndsPlain, Opened, Init;
    if i < |descs| {
      OpenNext(descs, i, fields, Null);
      InitRestOpens(descs, i + 1, Init(descs, i + 1, fields));
    }
  }

  lemma StoredCell<V>(codec: Codec<V>, mode: Mode, descs: seq<Desc>, i: nat, h: Header, bytes: seq<octet>,
                      fields: map<nat, Cell<V>>)
    requires i < |descs| && h.len <= |bytes| && Judge(mode, descs[i], h.id) == Take
    ensures var s := Store(codec, mode, descs, i, h, bytes, fields); var off := Offset(descs, i);
            s.Some? ==> s.value == fields ||
                        (off in s.value && s.value == fields[off := s.value[off]] && (IsList(descs[i]) ==> !s.value[off].Value?))
  {
    hide Offset;
  }

  // An accepted message has every slot of its structure set, and nothing is written outside it.
  lemma {:induction false} ParseFillsStructure<V>(codec: Codec<V>, mode: Mode, descs: seq<Desc>, i: nat, pos: nat,
                                                  bytes: seq<octet>, fields: map<nat, Cell<V>>)
    requires WellFormed(descs) && EndsPlain(descs) && i <= |descs| && |bytes| <= 255 && Opened(descs, i, fields)
    ensures var r := Parse(codec, mode, descs, i, pos, bytes, fields);
            r.Parsed? ==> Opened(descs, |descs|, r.fields)
    decreases |descs| - i
  {
    hide Offset, Init, Opened, Complete, WellFormed, EndsPlain, ParseHeader, Judge;
    InitRestOpens(descs, i, fields);
    if bytes != [] && ParseHeader(bytes).Some? && i < |descs| {
      var h := ParseHeader(bytes).value;
      match Judge(mode, descs[i], h.id)
      case Refuse =>
      case Skip =>
        OpenNext(descs, i, fields, Null);
        ParseFillsStructure(codec, mode, descs, i + 1, pos, bytes, Init(descs, i + 1, fields));
      case Take =>
        var s := Store(codec, mode, descs, i, h, bytes, fields);
        if s.Some? {
          StoredCell(codec, mode, descs, i, h, bytes, fields);
          OpenNext(descs, i, fields, if s.value == fields then Null else s.value[Offset(descs, i)]);
          ParseFillsStructure(codec, mode, descs, i + 1, pos + h.len, bytes[h.len..], Init(descs, i + 1, s.value));
        }
    }
  }

  // ----- Empty elements -----

  // A variable element without contents, which the parser treats as absent.
  predicate Empty(h: Header) {
    h.id < 0x80 && h.len == 2
  }

  lemma StoreBelow<V>(codec: Codec<V>, mode: Mode, descs: seq<Desc>, i: nat, h: Header, bytes: seq<octet>,
                      fields: map<nat, Cell<V>>, off: nat)
    requires i < |descs| && h.len <= |bytes| && off < Offset(descs, i)
    ensures var s := Store(codec, mode, descs, i, h, bytes, fields); s.Some? ==> At(s.value, off) == At(fields, off)
  {
    hide Offset;
  }

  lemma InitBelow<V>(descs: seq<Desc>, i: nat, fields: map<nat, Cell<V>>, off: nat)
    requires i <= |descs| && off < Offset(descs, i)
    ensures At(Init(descs, i, fields), off) == At(fields, off)
  {
    hide Offset;
  }

  lemma {:induction false} InitRestBelow<V>(descs: seq<Desc>, i: nat, fields: map<nat, Cell<V>>, off: nat)
    requires i <= |descs| && off < Offset(descs, i)
    ensures At(InitRest(descs, i, fields), off) == At(fields, off)
    decreases |descs| - i
  {
    if i < |descs| {
      assert Offset(descs, i) <= Offset(descs, i + 1);
      hide Offset, Init;
      InitBelow(descs, i + 1, fields, off);
      InitRestBelow(descs, i + 1, Init(descs, i + 1, fields), off);
    }
  }

  // What is below the slot of a line stays as it is when the rest is parsed.
  lemma {:induction false} ParseBelow<V>(codec: Codec<V>, mode: Mode, descs: seq<Desc>, i: nat, pos: nat,
                                         bytes: seq<octet>, fields: map<nat, Cell<V>>, off: nat)
    requires i <= |descs| && |bytes| <= 255 && off < Offset(descs, i)
    ensures var r := Parse(codec, mode, descs, i, pos, bytes, fields); r.Parsed? ==> At(r.fields, off) == At(fields, off)
    decreases |descs| - i
  {
    InitRestBelow(descs, i, fields, off);
    if bytes != [] && ParseHeader(bytes).Some? && i < |descs| {
      var h := ParseHeader(bytes).value;
      assert Offset(descs, i) <= Offset(descs, i + 1);
      hide Offset, Init, Complete, ParseHeader, Judge, Store, At;
      match Judge(mode, descs[i], h.id)
      case Refuse =>
      case Skip =>
        InitBelow(descs, i + 1, fields, off);
        ParseBelow(codec, mode, descs, i + 1, pos, bytes, Init(descs, i + 1, fields), off);
      case Take =>
        var s := Store(codec, mode, descs, i, h, bytes, fields);
        if s.Some? {
          StoreBelow(codec, mode, descs, i, h, bytes, fields, off);
          InitBelow(descs, i + 1, s.value, off);
          ParseBelow(codec, mode, descs, i + 1, pos + h.len, bytes[h.len..], Init(descs, i + 1, s.value), off);
        }
    }
  }

  // The slot of a plain mandatory line that took an element is NULL exactly if that was empty.
  predicate SlotsTell<V>(mode: Mode, descs: seq<Desc>, ms: seq<Match>, fields: map<nat, Cell<V>>) {
    forall m | m in ms && m.desc < |descs| && Plain(descs[m.desc]) && Rx(mode, descs[m.desc]) == MANDATORY ::
      At(fields, Offset(descs, m.desc)) == Null <==> Empty(m.header)
  }

  lemma TakenSlot<V>(codec: Codec<V>, mode: Mode, descs: seq<Desc>, i: nat, h: Header, bytes: seq<octet>, fields: map<nat, Cell<V>>)
    requires i < |descs| && h.len <= |bytes| && Plain(descs[i]) && Rx(mode, descs[i]) == MANDATORY && descs[i].kind == h.id
    requires At(fields, Offset(descs, i)) == Null
    ensures var s := Store(codec, mode, descs, i, h, bytes, fields);
            s.Some? ==> (At(s.value, Offset(descs, i)) == Null <==> Empty(h))
  {
    hide Offset;
  }

  lemma InitNull<V>(descs: seq<Desc>, i: nat, fields: map<nat, Cell<V>>)
    requires i <= |descs|
    ensures i < |descs| && Plain(descs[i]) ==> At(Init(descs, i, fields), Offset(descs, i)) == Null
  {
    hide Offset;
  }

  lemma {:induction false} ParseTells<V>(codec: Codec<V>, mode: Mode, descs: seq<Desc>, i: nat, pos: nat,
                                         bytes: seq<octet>, fields: map<nat, Cell<V>>)
    requires i <= |descs| && |bytes| <= 255
    requires i < |descs| && Plain(descs[i]) ==> At(fields, Offset(descs, i)) == Null
    ensures var r := Parse(codec, mode, descs, i, pos, bytes, fields); r.Parsed? ==> SlotsTell(mode, descs, r.matches, r.fields)
    decreases |descs| - i
  {
    if bytes != [] && ParseHeader(bytes).Some? && i < |descs| {
      var h := ParseHeader(bytes).value;
      hide Offset, Init, Complete, ParseHeader, Store, At, InitRest, SlotsTell;
      match Judge(mode, descs[i], h.id)
      case Refuse =>
      case Skip =>
        InitNull(descs, i + 1, fields);
        ParseTells(codec, mode, descs, i + 1, pos, bytes, Init(descs, i + 1, fields));
      case Take =>
        var s := Store(codec, mode, descs, i, h, bytes, fields);
        if s.Some? {
          var f := Init(descs, i + 1, s.value);
          InitNull(descs, i + 1, s.value);
          ParseTells(codec, mode, descs, i + 1, pos + h.len, bytes[h.len..], f);
          if Parse(codec, mode, descs, i + 1, pos + h.len, bytes[h.len..], f).Parsed? {
            TakenTells(codec, mode, descs, i, pos, h, bytes, fields);
          }
        }
    } else {
      hide InitRest, Init;
    }
  }

  lemma TakenTells<V>(codec: Codec<V>, mode: Mode, descs: seq<Desc>, i: nat, pos: nat, h: Header,
                      bytes: seq<octet>, fields: map<nat, Cell<V>>)
    requires i < |descs| && |bytes| <= 255 && h.len <= |bytes| && Judge(mode, descs[i], h.id) == Take
    requires Plain(descs[i]) ==> At(fields, Offset(descs, i)) == Null
    requires Store(codec, mode, descs, i, h, bytes, fields).Some?
    requires var f := Init(descs, i + 1, Store(codec, mode, descs, i, h, bytes, fields).value);
             var r := Parse(codec, mode, descs, i + 1, pos + h.len, bytes[h.len..], f);
             r.Parsed? && SlotsTell(mode, descs, r.matches, r.fields)
    ensures var f := Init(descs, i + 1, Store(codec, mode, descs, i, h, bytes, fields).value);
            var r := Parse(codec, mode, descs, i + 1, pos + h.len, bytes[h.len..], f);
            SlotsTell(mode, descs, [Match(i, pos, h)] + r.matches, r.fields)
  {
    var v := Store(codec, mode, descs, i, h, bytes, fields).value;
    var f := Init(descs, i + 1, v);
    var off := Offset(descs, i);
    hide Parse, Store, Init, At;
    if Plain(descs[i]) && Rx(mode, descs[i]) == MANDATORY {
      TakenSlot(codec, mode, descs, i, h, bytes, fields);
      assert off < Offset(descs, i + 1);
      hide Offset;
      InitBelow(descs, i + 1, v, off);
      ParseBelow(codec, mode, descs, i + 1, pos + h.len, bytes[h.len..], f, off);
    }
  }

  // Every plain mandatory line of an accepted message got an element, and its slot is NULL exactly if that
  // element was an empty one.
  lemma MandatorySlots<V>(codec: Codec<V>, mode: Mode, descs: seq<Desc>, bytes: seq<octet>)
    requires |bytes| <= 255
    ensures var r := ParseMessage(codec, mode, descs, bytes);
            r.Parsed? ==>
              forall j | 0 <= j < |descs| && Plain(descs[j]) && Rx(mode, descs[j]) == MANDATORY ::
                exists m :: m in r.matches && m.desc == j && (At(r.fields, Offset(descs, j)) == Null <==> Empty(m.header))
  {
    var start: map<nat, Cell<V>> := Init(descs, 0, map[]);
    InitNull<V>(descs, 0, map[]);
    ParseSafe(codec, mode, descs, 0, 0, bytes, start);
    ParseTells(codec, mode, descs, 0, 0, bytes, start);
    var r := ParseMessage(codec, mode, descs, bytes);
    hide Parse, Init, Offset, At, InOrder;
    if r.Parsed? {
      forall j | 0 <= j < |descs| && Plain(descs[j]) && Rx(mode, descs[j]) == MANDATORY
        ensures exists m :: m in r.matches && m.desc == j && (At(r.fields, Offset(descs, j)) == Null <==> Empty(m.header))
      {
        assert Matched(descs[j], j, r.matches);
        var k :| 0 <= k < |r.matches| && r.matches[k].desc == j && r.matches[k].header.id == descs[j].kind;
        assert r.matches[k] in r.matches;
      }
    }
  }

  // ----- Freeing -----

  // Freeing an accepted message releases every stored element exactly once, in the order of the structure.
  lemma {:induction false} FreedOnce<V>(descs: seq<Desc>, m: map<nat, Cell<V>>, i: nat)
    requires i <= |descs|
    ensures var f := Freed(descs, m, i);
            && (forall k, l | 0 <= k < l < |f| :: f[k] < f[l])
            && (forall k | 0 <= k < |f| :: Offset(descs, i) <= f[k])
            && (forall o | o in f :: At(m, o).Value?)
            && (forall j | i <= j < |descs| && Plain(descs[j]) && At(m, Offset(descs, j)).Value? :: Offset(descs, j) in f)
    decreases |descs| - i
  {
    if i < |descs| {
      FreedOnce(descs, m, i + 1);
      OffsetGrows(descs, i, i + 1);
      hide Offset;
    }
  }

  lemma ParsedAllFreed<V>(codec: Codec<V>, mode: Mode, descs: seq<Desc>, bytes: seq<octet>)
    requires WellFormed(descs) && EndsPlain(descs) && |bytes| <= 255
    ensures var r := ParseMessage(codec, mode, descs, bytes);
            r.Parsed? ==>
              && r.fields.Keys == Offsets(descs, |descs|)
              && (forall o :: o in Freed(descs, r.fields, 0) <==> At(r.fields, o).Value?)
              && (forall k, l | 0 <= k < l < |Freed(descs, r.fields, 0)| ::
                    Freed(descs, r.fields, 0)[k] < Freed(descs, r.fields, 0)[l])
  {
    var start: map<nat, Cell<V>> := Init(descs, 0, map[]);
    StartOpens<V>(descs);
    ParseFillsStructure(codec, mode, descs, 0, 0, bytes, start);
    var r := ParseMessage(codec, mode, descs, bytes);
    if r.Parsed? {
      hide Parse, Init;
      FreedOnce(descs, r.fields, 0);
      forall o | At(r.fields, o).Value?
        ensures o in Freed(descs, r.fields, 0)
      {
        var j :| 0 <= j < |descs| && !descs[j].repeat && o == Offset(descs, j);
        hide Offset, Freed;
      }
    }
  }

  lemma StartOpens<V>(descs: seq<Desc>)
    requires WellFormed(descs)
    ensures Opened<V>(descs, 0, Init(descs, 0, map[]))
  {
    assert Offsets(descs, 0) == {};
    OpenClosed<V>(descs, 0, map[]);
  }
}
