// S-format messages of ETSI EN 300 175-5, clause 7: a descriptor lists the information elements a
// message may hold; one loop writes them, another reads them, a third frees them.
// Element contents are left to a codec that stands for the table of element handlers.
module SFormat {
  import opened Common
  import Bits

  datatype Status = NONE | OPTIONAL | MANDATORY

  // One line of a message descriptor: element type and its status in each direction.
  datatype Desc = Desc(kind: octet, fpPp: Status, ppFp: Status, repeat: bool)

  const EXT_PREFIX: octet := 0xA0
  const REPEAT_INDICATOR: octet := 0xD0
  const DOUBLE_OCTET: octet := 0xE0
  const SINGLE_DISPLAY: octet := 0xE8
  const SINGLE_KEYPAD: octet := 0xE9
  const MULTI_DISPLAY: octet := 0x28
  const MULTI_KEYPAD: octet := 0x2C

  // Bytes of an element pointer and of an element list in a message structure.
  const SLOT := 8
  const LIST_SLOT := 32

  function Rx(mode: Mode, d: Desc): Status {
    if mode == FP then d.ppFp else d.fpPp
  }

  function Tx(mode: Mode, d: Desc): Status {
    if mode == FP then d.fpPp else d.ppFp
  }

  // ----- Message structures -----

  // What a message structure holds at an offset.
  datatype Cell<V> = Null | Value(v: V) | List(order: nat, items: seq<V>)

  predicate IsList(d: Desc) {
    d.kind == REPEAT_INDICATOR
  }

  predicate Plain(d: Desc) {
    !IsList(d) && !d.repeat
  }

  // dect_next_ie: repeated elements live in the list of their indicator.
  function Next(d: Desc, off: nat): nat {
    if IsList(d) then off + LIST_SLOT else if !d.repeat then off + SLOT else off
  }

  function Offset(descs: seq<Desc>, i: nat): nat
    requires i <= |descs|
  {
    if i == 0 then 0 else Next(descs[i - 1], Offset(descs, i - 1))
  }

  // Every indicator, and nothing else, is followed by a repeated element.
  predicate WellFormed(descs: seq<Desc>) {
    forall i | 0 <= i < |descs| :: LineOk(descs, i)
  }

  predicate LineOk(descs: seq<Desc>, i: nat)
    requires i < |descs|
  {
    if IsList(descs[i]) then !descs[i].repeat && i + 1 < |descs| && descs[i + 1].repeat && !IsList(descs[i + 1])
    else descs[i].repeat ==> i > 0 && IsList(descs[i - 1])
  }

  // The i-th line starts an element: it is not the repeated part of one.
  predicate Starts(descs: seq<Desc>, i: nat) {
    i <= |descs| && (i < |descs| ==> !descs[i].repeat)
  }

  lemma NextStarts(descs: seq<Desc>, i: nat)
    requires WellFormed(descs) && i < |descs| && Starts(descs, i)
    ensures IsList(descs[i]) ==> i + 1 < |descs| && descs[i + 1].repeat && !IsList(descs[i + 1]) && Starts(descs, i + 2)
    ensures !IsList(descs[i]) ==> Starts(descs, i + 1)
  {
    assert LineOk(descs, i);
    if i + 1 < |descs| {
      assert LineOk(descs, i + 1);
    }
    if i + 2 < |descs| {
      assert LineOk(descs, i + 2);
    }
  }

  // dect_msg_ie_init of the i-th element.
  function Init<V>(descs: seq<Desc>, i: nat, fields: map<nat, Cell<V>>): map<nat, Cell<V>>
    requires i <= |descs|
  {
    if i == |descs| then fields
    else if IsList(descs[i]) then fields[Offset(descs, i) := List(0, [])]
    else if !descs[i].repeat then fields[Offset(descs, i) := Null]
    else fields
  }

  function At<V>(m: map<nat, Cell<V>>, off: nat): Cell<V> {
    if off in m then m[off] else Null
  }

  // ----- Element headers -----

  // id and len of an element that starts a buffer.
  datatype Header = Header(id: octet, len: octet)

  function ParseHeader(bytes: seq<octet>): (h: Option<Header>)
    requires |bytes| <= 255
    ensures h.Some? ==> 1 <= h.value.len <= |bytes|
  {
    if |bytes| < 1 then None
    else if bytes[0] >= 0x80 then
      var id := bytes[0] / 16 * 16;
      var val := bytes[0] % 16;
      if id != DOUBLE_OCTET then Some(Header(if id == EXT_PREFIX then id + val else id, 1))
      else if |bytes| < 2 then None
      else Some(Header(id + val, 2))
    else if |bytes| < 2 || |bytes| < (bytes[1] as int) + 2 then None
    else Some(Header(bytes[0], (bytes[1] as int) + 2))
  }

  // What an element builder leaves behind: contents behind room for the two octets of a header (which the engine
  // asserts), nothing, or an error. A fixed element has its value in the room.
  type RawBytes = s: seq<octet> | |s| >= 2 witness [0, 0]

  datatype Built = NoBuilder | Failed | Raw(bytes: RawBytes)

  // The element handlers; long says whether a display or keypad value needs the multi-character type.
  datatype Codec<!V(==)> = Codec(build: (octet, V) -> Built, parse: (octet, seq<octet>) -> Option<V>, long: V -> bool)

  function ToOctet(x: nat): octet {
    x % 256
  }

  // dect_build_sfmt_ie_header: the octets that are appended. Empty variable elements vanish.
  function Finished(id: octet, raw: RawBytes): (bytes: seq<octet>)
  {
    if id >= 0x80 then
      var first := ToOctet(Bits.Or(raw[0], id));
      if id / 16 % 8 != DOUBLE_OCTET / 16 % 8 then [first] else [first, raw[1]]
    else if |raw| == 2 then []
    else [id, ToOctet(|raw| - 2)] + raw[2..]
  }

  // ----- Building -----

  datatype Code = IE_MISSING | IE_ERROR | INVALID_IE

  datatype BuildResult = Bytes(bytes: seq<octet>) | BuildError(code: Code)

  // The type actually sent for a value.
  function SentType<V>(codec: Codec<V>, kind: octet, v: V): octet {
    if kind == SINGLE_DISPLAY && codec.long(v) then MULTI_DISPLAY
    else if kind == SINGLE_KEYPAD && codec.long(v) then MULTI_KEYPAD
    else kind
  }

  function BuildElement<V>(codec: Codec<V>, mode: Mode, d: Desc, v: V): BuildResult {
    if Tx(mode, d) == NONE then BuildError(INVALID_IE) else
      var id := SentType(codec, d.kind, v);
      match codec.build(id, v)
      case NoBuilder => Bytes([])
      case Failed => BuildError(IE_MISSING)
      case Raw(raw) => Bytes(Finished(id, raw))
  }

  function Then(a: BuildResult, b: BuildResult): BuildResult {
    if a.BuildError? then a else if b.BuildError? then b else Bytes(a.bytes + b.bytes)
  }

  function BuildItems<V>(codec: Codec<V>, mode: Mode, d: Desc, items: seq<V>): BuildResult {
    if items == [] then Bytes([])
    else Then(BuildElement(codec, mode, d, items[0]), BuildItems(codec, mode, d, items[1..]))
  }

  function BuildIndicator(mode: Mode, d: Desc, order: nat): BuildResult {
    if Tx(mode, d) == NONE then BuildError(INVALID_IE) else Bytes(Finished(REPEAT_INDICATOR, [ToOctet(order), 0]))
  }

  function BuildList<V>(codec: Codec<V>, mode: Mode, d: Desc, item: Desc, order: nat, items: seq<V>): BuildResult {
    Then(if |items| > 1 then BuildIndicator(mode, d, order) else Bytes([]), BuildItems(codec, mode, item, items))
  }

  // dect_build_sfmt_msg from the i-th line on.
  function Build<V>(codec: Codec<V>, mode: Mode, descs: seq<Desc>, m: map<nat, Cell<V>>, i: nat): BuildResult
    requires WellFormed(descs) && Starts(descs, i)
    decreases |descs| - i
  {
    if i == |descs| then Bytes([]) else
      NextStarts(descs, i);
      Then(BuildLine(codec, mode, descs, m, i),
           Build(codec, mode, descs, m, if IsList(descs[i]) then i + 2 else i + 1))
  }

  // What one line contributes; an indicator stands for its repeated elements.
  function BuildLine<V>(codec: Codec<V>, mode: Mode, descs: seq<Desc>, m: map<nat, Cell<V>>, i: nat): BuildResult
    requires i < |descs| && (IsList(descs[i]) ==> i + 1 < |descs|)
  {
    var d, cell := descs[i], At(m, Offset(descs, i));
    if IsList(d) then
      if cell.List? && cell.items != [] then BuildList(codec, mode, d, descs[i + 1], cell.order, cell.items) else Bytes([])
    else if cell.Value? then BuildElement(codec, mode, d, cell.v)
    else if Tx(mode, d) == MANDATORY then BuildError(IE_MISSING)
    else Bytes([])
  }

  // ----- Parsing -----

  // An element of the buffer matched to a line of the descriptor.
  datatype Match = Match(desc: nat, pos: nat, header: Header)

  datatype ParseResult<V> = Parsed(fields: map<nat, Cell<V>>, matches: seq<Match>) | ParseError(code: Code)

  datatype Verdict = Take | Skip | Refuse

  // Whether a line of the descriptor accepts an element.
  function Judge(mode: Mode, d: Desc, id: octet): Verdict {
    match Rx(mode, d)
    case MANDATORY => if d.kind == id then Take else Refuse
    case NONE => if d.kind == id then Refuse else Skip
    case OPTIONAL =>
      if d.kind == id || (d.kind == SINGLE_DISPLAY && id == MULTI_DISPLAY) || (d.kind == SINGLE_KEYPAD && id == MULTI_KEYPAD)
      then Take else Skip
  }

  // Empty variable elements count as absent, corrupt optional ones too.
  function Store<V>(codec: Codec<V>, mode: Mode, descs: seq<Desc>, i: nat, h: Header, bytes: seq<octet>,
                    fields: map<nat, Cell<V>>): (r: Option<map<nat, Cell<V>>>)
    requires i < |descs| && h.len <= |bytes|
  {
    var off := Offset(descs, i);
    if h.id < 0x80 && h.len == 2 then Some(fields)
    else if h.id == REPEAT_INDICATOR then
      if h.len >= 1 && bytes[0] % 16 in {1, 2} then Some(fields[off := List(bytes[0] % 16, [])])
      else if Rx(mode, descs[i]) == MANDATORY then None else Some(fields)
    else
      match codec.parse(h.id, bytes[..h.len])
      case Some(v) => Some(fields[off := Value(v)])
      case None => if Rx(mode, descs[i]) == MANDATORY then None else Some(fields)
  }

  // No mandatory element may be missing at the end.
  predicate Complete(mode: Mode, descs: seq<Desc>, i: nat)
    requires i <= |descs|
  {
    forall j | i <= j < |descs| :: Rx(mode, descs[j]) != MANDATORY
  }

  function InitRest<V>(descs: seq<Desc>, i: nat, fields: map<nat, Cell<V>>): map<nat, Cell<V>>
    requires i <= |descs|
    decreases |descs| - i
  {
    if i == |descs| then fields else InitRest(descs, i + 1, Init(descs, i + 1, fields))
  }

  function Finish<V>(mode: Mode, descs: seq<Desc>, i: nat, fields: map<nat, Cell<V>>): ParseResult<V>
    requires i <= |descs|
  {
    if Complete(mode, descs, i) then Parsed(InitRest(descs, i, fields), []) else ParseError(IE_MISSING)
  }

  function Prepend<V>(m: Match, r: ParseResult<V>): ParseResult<V> {
    match r
    case Parsed(fields, matches) => Parsed(fields, [m] + matches)
    case ParseError(_) => r
  }

  // dect_parse_sfmt_msg at the i-th line, with the octets from pos on still to be read.
  function Parse<V>(codec: Codec<V>, mode: Mode, descs: seq<Desc>, i: nat, pos: nat, bytes: seq<octet>,
                    fields: map<nat, Cell<V>>): ParseResult<V>
    requires i <= |descs| && |bytes| <= 255
    decreases |descs| - i
  {
    if bytes == [] then Finish(mode, descs, i, fields) else
      match ParseHeader(bytes)
      case None => ParseError(IE_MISSING)
      case Some(h) =>
        if i == |descs| then Finish(mode, descs, i, fields) else
          match Judge(mode, descs[i], h.id)
          case Refuse => ParseError(IE_MISSING)
          case Skip => Parse(codec, mode, descs, i + 1, pos, bytes, Init(descs, i + 1, fields))
          case Take =>
            match Store(codec, mode, descs, i, h, bytes, fields)
            case None => ParseError(IE_ERROR)
            case Some(f) =>
              Prepend(Match(i, pos, h),
                      Parse(codec, mode, descs, i + 1, pos + h.len, bytes[h.len..], Init(descs, i + 1, f)))
  }

  function ParseMessage<V>(codec: Codec<V>, mode: Mode, descs: seq<Desc>, bytes: seq<octet>): ParseResult<V>
    requires |bytes| <= 255
  {
    Parse(codec, mode, descs, 0, 0, bytes, Init(descs, 0, map[]))
  }

  // ----- Freeing -----

  // The offsets whose elements dect_msg_free releases, from the i-th line on.
  function Freed<V>(descs: seq<Desc>, m: map<nat, Cell<V>>, i: nat): seq<nat>
    requires i <= |descs|
    decreases |descs| - i
  {
    if i == |descs| then [] else
      var off := Offset(descs, i);
      (if Plain(descs[i]) && At(m, off).Value? then [off] else []) + Freed(descs, m, i + 1)
  }
}
