// The three loops of the message engine with their cursors, each proved against its function. All of
// them stand at the same offset of the message structure when they reach a line of the descriptor.
module SFormatMachine {
  import opened Common
  import opened SFormat
  import opened SFormatRoundTrip

  function PrependAll<V>(ms: seq<Match>, r: ParseResult<V>): ParseResult<V> {
    match r
    case Parsed(fields, matches) => Parsed(fields, ms + matches)
    case ParseError(_) => r
  }

  method ParseLoop<V>(codec: Codec<V>, mode: Mode, descs: seq<Desc>, bytes: seq<octet>) returns (r: ParseResult<V>)
    requires |bytes| <= 255
    ensures r == ParseMessage(codec, mode, descs, bytes)
  {
    hide Judge, ParseHeader, Store, Init;
    var i, dst, pos := 0, 0, 0;
    var fields := Init(descs, 0, map[]);
    var matches := [];
    ghost var all := ParseMessage(codec, mode, descs, bytes);
    while pos < |bytes|
      invariant i <= |descs| && dst == Offset(descs, i) && pos <= |bytes|
      invariant PrependAll(matches, Parse(codec, mode, descs, i, pos, bytes[pos..], fields)) == all
      decreases |bytes| - pos
    {
      var header := ParseHeader(bytes[pos..]);
      if header.None? {
        return ParseError(IE_MISSING);
      }
      var h := header.value;
      while i < |descs| && Judge(mode, descs[i], h.id) == Skip
        invariant i <= |descs| && dst == Offset(descs, i)
        invariant PrependAll(matches, Parse(codec, mode, descs, i, pos, bytes[pos..], fields)) == all
        decreases |descs| - i
      {
        dst := Next(descs[i], dst);
        i := i + 1;
        fields := Init(descs, i, fields);
      }
      if i == |descs| {
        break;
      }
      if Judge(mode, descs[i], h.id) == Refuse {
        return ParseError(IE_MISSING);
      }
      var stored := Store(codec, mode, descs, i, h, bytes[pos..], fields);
      if stored.None? {
        return ParseError(IE_ERROR);
      }
      fields := stored.value;
      assert bytes[pos..][h.len..] == bytes[pos + h.len..];
      ghost var before := matches;
      matches := matches + [Match(i, pos, h)];
      pos := pos + h.len;
      dst := Next(descs[i], dst);
      i := i + 1;
      fields := Init(descs, i, fields);
      PrependMore(before, Match(i - 1, pos - h.len, h), Parse(codec, mode, descs, i, pos, bytes[pos..], fields));
    }
    AtEnd(codec, mode, descs, i, pos, bytes[pos..], fields);
    hide Parse;
    while i < |descs|
      invariant i <= |descs| && dst == Offset(descs, i)
      invariant PrependAll(matches, Finish(mode, descs, i, fields)) == all
      decreases |descs| - i
    {
      FinishStep(mode, descs, i, fields);
      if Rx(mode, descs[i]) == MANDATORY {
        return ParseError(IE_MISSING);
      }
      dst := Next(descs[i], dst);
      i := i + 1;
      fields := Init(descs, i, fields);
    }
    return Parsed(fields, matches);
  }

  lemma PrependMore<V>(ms: seq<Match>, m: Match, r: ParseResult<V>)
    ensures PrependAll(ms, Prepend(m, r)) == PrependAll(ms + [m], r)
  {
    if r.Parsed? {
      assert ms + ([m] + r.matches) == ms + [m] + r.matches;
    }
  }

  lemma AtEnd<V>(codec: Codec<V>, mode: Mode, descs: seq<Desc>, i: nat, pos: nat, bytes: seq<octet>, fields: map<nat, Cell<V>>)
    requires i <= |descs| && |bytes| <= 255 && (bytes == [] || (i == |descs| && ParseHeader(bytes).Some?))
    ensures Parse(codec, mode, descs, i, pos, bytes, fields) == Finish(mode, descs, i, fields)
  {
    hide ParseHeader;
  }

  lemma FinishStep<V>(mode: Mode, descs: seq<Desc>, i: nat, fields: map<nat, Cell<V>>)
    requires i < |descs|
    ensures Finish(mode, descs, i, fields) ==
            if Rx(mode, descs[i]) == MANDATORY then ParseError(IE_MISSING)
            else Finish(mode, descs, i + 1, Init(descs, i + 1, fields))
  {
    assert Complete(mode, descs, i) <==> Rx(mode, descs[i]) != MANDATORY && Complete(mode, descs, i + 1);
    hide Init;
  }

  // Append the elements of a list, one by one.
  method BuildListLoop<V>(codec: Codec<V>, mode: Mode, d: Desc, items: seq<V>, out: seq<octet>) returns (r: BuildResult)
    ensures r == Then(Bytes(out), BuildItems(codec, mode, d, items))
  {
    hide BuildElement;
    var mb := out;
    var k := 0;
    while k < |items|
      invariant k <= |items|
      invariant Then(Bytes(mb), BuildItems(codec, mode, d, items[k..])) == Then(Bytes(out), BuildItems(codec, mode, d, items))
    {
      var e := BuildElement(codec, mode, d, items[k]);
      if e.BuildError? {
        return e;
      }
      assert items[k..][1..] == items[k + 1..];
      ThenMore(mb, e.bytes, BuildItems(codec, mode, d, items[k + 1..]));
      mb := mb + e.bytes;
      k := k + 1;
    }
    return Bytes(mb);
  }

  lemma ThenMore(a: seq<octet>, b: seq<octet>, rest: BuildResult)
    ensures Then(Bytes(a), Then(Bytes(b), rest)) == Then(Bytes(a + b), rest)
  {
    if rest.Bytes? {
      assert a + (b + rest.bytes) == a + b + rest.bytes;
    }
  }

  method BuildLoop<V>(codec: Codec<V>, mode: Mode, descs: seq<Desc>, m: map<nat, Cell<V>>) returns (r: BuildResult)
    requires WellFormed(descs) && Starts(descs, 0)
    ensures r == Build(codec, mode, descs, m, 0)
  {
    hide BuildElement, BuildIndicator, BuildItems;
    var i, src := 0, 0;
    var mb: seq<octet> := [];
    ghost var all := Build(codec, mode, descs, m, 0);
    while i < |descs|
      invariant i <= |descs| && Starts(descs, i) && src == Offset(descs, i)
      invariant Then(Bytes(mb), Build(codec, mode, descs, m, i)) == all
      decreases |descs| - i
    {
      NextStarts(descs, i);
      BuildStep(codec, mode, descs, m, i, mb);
      var d, cell := descs[i], At(m, src);
      var next := Next(d, src);
      var line := Bytes([]);
      if IsList(d) {
        i := i + 1;
        if cell.List? && cell.items != [] {
          // a repeat indicator is only sent for more than one element
          var lead := if |cell.items| > 1 then BuildIndicator(mode, d, cell.order) else Bytes([]);
          if lead.BuildError? {
            return lead;
          }
          line := BuildListLoop(codec, mode, descs[i], cell.items, lead.bytes);
        }
      } else if cell.Value? {
        line := BuildElement(codec, mode, d, cell.v);
      } else if Tx(mode, d) == MANDATORY {
        return BuildError(IE_MISSING);
      }
      if line.BuildError? {
        return line;
      }
      mb := mb + line.bytes;
      src := next;
      i := i + 1;
    }
    return Bytes(mb);
  }

  lemma BuildStep<V>(codec: Codec<V>, mode: Mode, descs: seq<Desc>, m: map<nat, Cell<V>>, i: nat, mb: seq<octet>)
    requires WellFormed(descs) && i < |descs| && Starts(descs, i) && (IsList(descs[i]) ==> Starts(descs, i + 2))
    requires !IsList(descs[i]) ==> Starts(descs, i + 1)
    ensures var line := BuildLine(codec, mode, descs, m, i);
            var rest := Build(codec, mode, descs, m, if IsList(descs[i]) then i + 2 else i + 1);
            Then(Bytes(mb), Build(codec, mode, descs, m, i)) ==
            if line.BuildError? then line else Then(Bytes(mb + line.bytes), rest)
  {
    var line := BuildLine(codec, mode, descs, m, i);
    var rest := Build(codec, mode, descs, m, if IsList(descs[i]) then i + 2 else i + 1);
    hide BuildLine;
    if line.Bytes? {
      ThenMore(mb, line.bytes, rest);
    }
  }

  // The elements released, by their offsets.
  method FreeLoop<V>(descs: seq<Desc>, m: map<nat, Cell<V>>) returns (freed: seq<nat>)
    requires WellFormed(descs) && Starts(descs, 0)
    ensures freed == Freed(descs, m, 0)
  {
    var i, ie := 0, 0;
    freed := [];
    while i < |descs|
      invariant i <= |descs| && Starts(descs, i) && ie == Offset(descs, i)
      invariant freed + Freed(descs, m, i) == Freed(descs, m, 0)
      decreases |descs| - i
    {
      NextStarts(descs, i);
      var next := Next(descs[i], ie);
      if IsList(descs[i]) {
        i := i + 1;
      } else if At(m, ie).Value? {
        freed := freed + [ie];
      }
      ie := next;
      i := i + 1;
    }
  }
}
