// The octets of elements: how an element starts and where it ends, what lists and repeat indicators look like, and
// the texts of displays and keypads, which go out as one character or as many.
module SFormatElements {
  import opened Common
  import opened SFormat
  import opened SFormatRoundTrip
  import Bits

  // ----- The head of an element -----

  // How many octets the element at the head of a buffer needs, as far as its first two octets say.
  function Needed(bytes: seq<octet>): nat
    requires bytes != []
  {
    if 0xE0 <= bytes[0] <= 0xEF then 2
    else if bytes[0] >= 0x80 then 1
    else if |bytes| < 2 then 2
    else (bytes[1] as nat) + 2
  }

  // An element is found exactly if the buffer holds all of it, and its length is what it needs. A fixed element
  // counts by its upper half, and by the whole octet if that is one of the two prefixes.
  lemma FoundExactly(bytes: seq<octet>)
    requires 0 < |bytes| <= 255
    ensures var h := ParseHeader(bytes); var first := bytes[0];
            && (h.Some? <==> Needed(bytes) <= |bytes|)
            && (h.Some? ==> h.value.len == Needed(bytes))
            && (h.Some? ==> h.value.id == if first < 0x80 || 0xA0 <= first <= 0xAF || 0xE0 <= first <= 0xEF then first else first - first % 16)
  {
    var q := bytes[0] / 16;
    assert bytes[0] == 16 * q + bytes[0] % 16;
  }

  // What is found is also what finishing its contents gives: the builder and the parser agree on every element
  // that is not empty.
  lemma FoundIsFinished(bytes: seq<octet>)
    requires 0 < |bytes| <= 255 && ParseHeader(bytes).Some?
    ensures var h := ParseHeader(bytes).value;
            h.id < 0x80 && h.len > 2 ==> Finished(h.id, [0, 0] + bytes[2..h.len]) == bytes[..h.len]
    ensures var h := ParseHeader(bytes).value;
            h.id >= 0x80 ==> Finished(h.id, [bytes[0] - h.id, if h.len == 2 then bytes[1] else 0]) == bytes[..h.len]
  {
    FoundExactly(bytes);
    var h := ParseHeader(bytes).value;
    if h.id >= 0x80 {
      var first := bytes[0];
      hide ParseHeader, Finished;
      assert first - h.id < 16 && (first - h.id == 0 || h.id % 16 == 0);
      OrValue(first - h.id, h.id);
      Nibbles(first - h.id, h.id);
      FixedOctets(h.id, [first - h.id, if h.len == 2 then bytes[1] else 0]);
    } else {
      hide ParseHeader;
      var raw: RawBytes := [0, 0] + bytes[2..h.len];
      assert raw[2..] == bytes[2..h.len];
    }
  }

  // ----- The octets of one element -----

  // The octets of contents under a type: none if variable contents are empty, otherwise the type, the number of
  // octets that follow, and those; a fixed element has its type or-ed to its value.
  predicate OctetsOf(id: octet, raw: RawBytes, bytes: seq<octet>) {
    if id < 0x80 then
      if |raw| == 2 then bytes == [] else
        && |bytes| == |raw| && bytes[0] == id && bytes[2..] == raw[2..]
        && (|raw| <= 257 ==> bytes[1] as int == |bytes| - 2)
    else
      && bytes != [] && bytes[0] == ToOctet(Bits.Or(raw[0], id)) && bytes[1..] == if 0xE0 <= id <= 0xEF then [raw[1]] else []
  }

  lemma OctetsFinished(id: octet, raw: RawBytes)
    ensures OctetsOf(id, raw, Finished(id, raw))
  {
    hide Bits.Or;
    var q := id / 16;
    assert id == 16 * q + id % 16;
  }

  // A display or keypad line that is sent starts with 0x28 or 0x2C exactly if its value needs several characters,
  // and with 0xE8 or 0xE9 otherwise; every other line keeps its type. A line that is not allowed is an error.
  lemma ElementSent<V>(codec: Codec<V>, mode: Mode, d: Desc, v: V)
    ensures var id := if d.kind == 0xE8 && codec.long(v) then 0x28 else if d.kind == 0xE9 && codec.long(v) then 0x2C else d.kind;
            var e := BuildElement(codec, mode, d, v);
            if Tx(mode, d) == NONE then e == BuildError(INVALID_IE) else match codec.build(id, v)
            case NoBuilder => e == Bytes([])
            case Failed => e == BuildError(IE_MISSING)
            case Raw(raw) => e.Bytes? && OctetsOf(id, raw, e.bytes)
  {
    var id := if d.kind == 0xE8 && codec.long(v) then 0x28 else if d.kind == 0xE9 && codec.long(v) then 0x2C else d.kind;
    hide Finished, OctetsOf;
    if codec.build(id, v).Raw? {
      OctetsFinished(id, codec.build(id, v).bytes);
    }
  }

  // ----- Lists -----

  function Flatten(parts: seq<seq<octet>>): seq<octet> {
    if parts == [] then [] else parts[0] + Flatten(parts[1..])
  }

  // The octets of every item, in the order of the list.
  function Items<V>(codec: Codec<V>, mode: Mode, d: Desc, items: seq<V>): (parts: seq<seq<octet>>)
    ensures |parts| == |items|
    ensures forall k | 0 <= k < |items| ::
              parts[k] == (match BuildElement(codec, mode, d, items[k]) case Bytes(b) => b case BuildError(_) => [])
  {
    if items == [] then [] else
      [match BuildElement(codec, mode, d, items[0]) case Bytes(b) => b case BuildError(_) => []]
      + Items(codec, mode, d, items[1..])
  }

  predicate AllBuilt<V>(codec: Codec<V>, mode: Mode, d: Desc, items: seq<V>) {
    forall k | 0 <= k < |items| :: BuildElement(codec, mode, d, items[k]).Bytes?
  }

  // The k-th item is the first that cannot be built.
  predicate FirstFailing<V>(codec: Codec<V>, mode: Mode, d: Desc, items: seq<V>, k: nat) {
    k < |items| && AllBuilt(codec, mode, d, items[..k]) && BuildElement(codec, mode, d, items[k]).BuildError?
  }

  lemma {:induction false} ItemsBuilt<V>(codec: Codec<V>, mode: Mode, d: Desc, items: seq<V>)
    ensures var r := BuildItems(codec, mode, d, items);
            if AllBuilt(codec, mode, d, items) then r == Bytes(Flatten(Items(codec, mode, d, items)))
            else exists k: nat :: FirstFailing(codec, mode, d, items, k) && r == BuildElement(codec, mode, d, items[k])
  {
    hide BuildElement;
    if items != [] {
      var rest := items[1..];
      ItemsBuilt(codec, mode, d, rest);
      var e := BuildElement(codec, mode, d, items[0]);
      if e.BuildError? {
        assert FirstFailing(codec, mode, d, items, 0);
      } else {
        assert Items(codec, mode, d, items)[1..] == Items(codec, mode, d, rest);
        assert AllBuilt(codec, mode, d, items) <==> AllBuilt(codec, mode, d, rest);
        hide Items, Flatten;
        if !AllBuilt(codec, mode, d, rest) {
          hide AllBuilt;
          var k: nat :| FirstFailing(codec, mode, d, rest, k) && BuildItems(codec, mode, d, rest) == BuildElement(codec, mode, d, rest[k]);
          FailsLater(codec, mode, d, items, k);
        }
      }
    }
  }

  lemma FailsLater<V>(codec: Codec<V>, mode: Mode, d: Desc, items: seq<V>, k: nat)
    requires items != [] && BuildElement(codec, mode, d, items[0]).Bytes? && FirstFailing(codec, mode, d, items[1..], k)
    ensures FirstFailing(codec, mode, d, items, k + 1) && items[k + 1] == items[1..][k]
  {
    hide BuildElement;
    assert items[..k + 1] == [items[0]] + items[1..][..k];
  }

  // What a list of repeated elements adds to a message: if there are several, an indicator that holds the order of
  // the list; then the items as they stand in the list. The first error of an item is the outcome.
  lemma ListSent<V>(codec: Codec<V>, mode: Mode, d: Desc, item: Desc, order: nat, items: seq<V>)
    requires order < 16
    ensures var r := BuildList(codec, mode, d, item, order, items);
            if Tx(mode, d) == NONE && |items| > 1 then r == BuildError(INVALID_IE)
            else if AllBuilt(codec, mode, item, items) then
              r == Bytes((if |items| > 1 then [0xD0 + order] else []) + Flatten(Items(codec, mode, item, items)))
            else exists k: nat :: FirstFailing(codec, mode, item, items, k) && r == BuildElement(codec, mode, item, items[k])
  {
    ItemsBuilt(codec, mode, item, items);
    hide BuildItems, Items, BuildElement, Flatten, AllBuilt;
    if Tx(mode, d) != NONE {
      IndicatorOctet(mode, d, order);
    }
    assert [] + Flatten(Items(codec, mode, item, items)) == Flatten(Items(codec, mode, item, items));
  }

  // A message may consist of one list alone, and is what the list adds to it.
  lemma ListAlone<V>(codec: Codec<V>, mode: Mode, d: Desc, item: Desc, order: nat, items: seq<V>)
    requires IsList(d) && !d.repeat && !IsList(item) && item.repeat && items != []
    ensures WellFormed([d, item]) && Starts([d, item], 0)
    ensures Build(codec, mode, [d, item], map[0 := List(order, items)], 0) == BuildList(codec, mode, d, item, order, items)
  {
    var descs := [d, item];
    assert LineOk(descs, 0) && LineOk(descs, 1);
    assert Offset(descs, 0) == 0;
    hide BuildList;
    var line := BuildLine(codec, mode, descs, map[0 := List(order, items)], 0);
    assert Build(codec, mode, descs, map[0 := List(order, items)], 2) == Bytes([]);
    if line.Bytes? {
      assert line.bytes + [] == line.bytes;
    }
  }

  lemma IndicatorOctet(mode: Mode, d: Desc, order: nat)
    requires Tx(mode, d) != NONE && order < 16
    ensures BuildIndicator(mode, d, order) == Bytes([0xD0 + order])
  {
    hide Bits.Or, Finished;
    assert ToOctet(order) == order;
    OrValue(order, REPEAT_INDICATOR);
    FixedOctets(REPEAT_INDICATOR, [order, 0]);
  }

  // The parser finds the order of an indicator again if it is one of the two there are.
  lemma IndicatorFound<V>(codec: Codec<V>, mode: Mode, descs: seq<Desc>, i: nat, order: nat, rest: seq<octet>,
                          fields: map<nat, Cell<V>>)
    requires i < |descs| && order < 16 && |rest| < 255
    ensures var b := [0xD0 + order] + rest; var h := Header(REPEAT_INDICATOR, 1);
            && ParseHeader(b) == Some(h)
            && Store(codec, mode, descs, i, h, b, fields) ==
               if order == 1 || order == 2 then Some(fields[Offset(descs, i) := List(order, [])])
               else if Rx(mode, descs[i]) == MANDATORY then None else Some(fields)
  {
    hide Offset;
  }

  // ----- Mandatory lines -----

  // A line without a value that the peer insists on.
  predicate Missing<V>(mode: Mode, descs: seq<Desc>, m: map<nat, Cell<V>>, j: nat)
    requires j < |descs|
  {
    Plain(descs[j]) && !At(m, Offset(descs, j)).Value? && Tx(mode, descs[j]) == MANDATORY
  }

  // What stands in the message can be built and sent.
  predicate Buildable<V>(codec: Codec<V>, mode: Mode, descs: seq<Desc>, m: map<nat, Cell<V>>, j: nat)
    requires j < |descs| && (IsList(descs[j]) ==> j + 1 < |descs|)
  {
    Missing(mode, descs, m, j) || BuildLine(codec, mode, descs, m, j).Bytes?
  }

  // A message whose elements can be built is refused exactly if a mandatory line has no value, with that as the
  // reason.
  lemma {:induction false} MissingExactly<V>(codec: Codec<V>, mode: Mode, descs: seq<Desc>, m: map<nat, Cell<V>>, i: nat)
    requires WellFormed(descs) && Starts(descs, i)
    requires forall j | i <= j < |descs| && !descs[j].repeat && (IsList(descs[j]) ==> j + 1 < |descs|) :: Buildable(codec, mode, descs, m, j)
    ensures var r := Build(codec, mode, descs, m, i);
            if exists j :: i <= j < |descs| && Missing(mode, descs, m, j) then r == BuildError(IE_MISSING) else r.Bytes?
    decreases |descs| - i
  {
    if i < |descs| {
      NextStarts(descs, i);
      assert !descs[i].repeat && Buildable(codec, mode, descs, m, i);
      hide BuildElement, BuildList, Offset, WellFormed;
      var next := if IsList(descs[i]) then i + 2 else i + 1;
      MissingExactly(codec, mode, descs, m, next);
      assert Missing(mode, descs, m, i) ==> BuildLine(codec, mode, descs, m, i) == BuildError(IE_MISSING);
      assert IsList(descs[i]) ==> !Missing(mode, descs, m, i) && !Missing(mode, descs, m, i + 1);
    }
  }

  // ----- Displays and keypads -----

  // The element handlers of displays and keypads; a builder for one character takes what is there (stale) if the
  // text has none.
  function TextCodec(stale: octet): Codec<seq<octet>> {
    Codec((id: octet, text: seq<octet>) => BuildText(id, text, stale), ParseText, (text: seq<octet>) => |text| > 1)
  }

  function BuildText(id: octet, text: seq<octet>, stale: octet): Built {
    if id == SINGLE_DISPLAY || id == SINGLE_KEYPAD then Raw([0, if text == [] then stale else text[0]])
    else if id == MULTI_DISPLAY || id == MULTI_KEYPAD then Raw([0, 0] + text)
    else NoBuilder
  }

  function ParseText(id: octet, bytes: seq<octet>): Option<seq<octet>> {
    if id == SINGLE_DISPLAY || id == SINGLE_KEYPAD then (if |bytes| < 2 then None else Some([bytes[1]]))
    else if id == MULTI_DISPLAY || id == MULTI_KEYPAD then (if 2 <= |bytes| <= 258 then Some(bytes[2..]) else None)
    else None
  }

  // What goes out for a text: a character behind 0xE8 or 0xE9, or all of them behind 0x28 or 0x2C and their number.
  lemma TextSent(mode: Mode, d: Desc, text: seq<octet>, stale: octet)
    requires Tx(mode, d) != NONE && (d.kind == SINGLE_DISPLAY || d.kind == SINGLE_KEYPAD) && 1 <= |text| <= 253
    ensures BuildElement(TextCodec(stale), mode, d, text) ==
            Bytes(if |text| == 1 then [d.kind, text[0]] else [if d.kind == 0xE8 then 0x28 else 0x2C, |text|] + text)
  {
    var id := SentType(TextCodec(stale), d.kind, text);
    var raw := TextCodec(stale).build(id, text).bytes;
    if |text| == 1 {
      OrValue(0, d.kind);
      FixedOctets(id, raw);
      hide Bits.Or, Finished;
    } else {
      hide Bits.Or;
      assert raw == [0, 0] + text && raw[2..] == text;
      assert Finished(id, raw) == [id, |text|] + text;
      hide Finished;
    }
  }

  // A text is read back whole exactly if it has 1 to 253 characters.
  lemma TextReturns(kind: octet, text: seq<octet>, stale: octet)
    requires kind == SINGLE_DISPLAY || kind == SINGLE_KEYPAD
    ensures Faithful(TextCodec(stale), SentType(TextCodec(stale), kind, text), text) <==> 1 <= |text| <= 253
  {
    var id := SentType(TextCodec(stale), kind, text);
    var raw := TextCodec(stale).build(id, text).bytes;
    if |text| <= 1 {
      OrValue(0, kind);
      FixedOctets(id, raw);
      hide Bits.Or, Finished;
      var c := if text == [] then stale else text[0];
      assert Finished(id, raw) == [kind, c];
      assert TextCodec(stale).parse(id, [kind, c]) == Some([c]);
      assert text == [c] <==> text != [];
    } else {
      assert raw[2..] == text;
      if |text| <= 253 {
        assert Finished(id, raw)[2..] == text;
      }
    }
  }

  // The lines that hold a text are displays and keypads, and their texts have 1 to 253 characters.
  predicate TextsFit(descs: seq<Desc>, m: map<nat, Cell<seq<octet>>>) {
    forall i | 0 <= i < |descs| :: TextFits(descs, m, i)
  }

  predicate TextFits(descs: seq<Desc>, m: map<nat, Cell<seq<octet>>>, i: nat)
    requires i < |descs|
  {
    var cell := At(m, Offset(descs, i));
    Plain(descs[i]) && cell.Value? ==>
      (descs[i].kind == SINGLE_DISPLAY || descs[i].kind == SINGLE_KEYPAD) && 1 <= |cell.v| <= 253
  }

  // So the texts of a message arrive as they were sent, unless the peer insists on a single character.
  lemma TextsArrive(mode: Mode, descs: seq<Desc>, m: map<nat, Cell<seq<octet>>>, stale: octet)
    requires WellFormed(descs) && Distinct(descs) && Shaped(descs, m) && Starts(descs, 0) && NoLists(descs, m)
    requires TextsFit(descs, m) && AllMet(TextCodec(stale), Other(mode), descs, m, 0)
    requires var b := Build(TextCodec(stale), mode, descs, m, 0); b.Bytes? && |b.bytes| <= 255
    ensures var r := ParseMessage(TextCodec(stale), Other(mode), descs, Build(TextCodec(stale), mode, descs, m, 0).bytes);
            r.Parsed? && r.fields == m
  {
    hide Build, ParseMessage, AllMet, NoLists, WellFormed, Distinct, Shaped, Offset;
    forall i | 0 <= i < |descs|
      ensures FaithfulLine(TextCodec(stale), descs, m, i)
    {
      assert TextFits(descs, m, i);
      var cell := At(m, Offset(descs, i));
      if Plain(descs[i]) && cell.Value? {
        TextReturns(descs[i].kind, cell.v, stale);
      }
    }
    RoundTripExactly(TextCodec(stale), mode, descs, m);
  }
}
