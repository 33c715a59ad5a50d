// The two ADPCM file filters: the encoder packs codes of 3, 4 or 5 bits into octets
// and pads with zero codes, the decoder reads them back.
module CodePacking {
  import opened Bits

  predicate ValidWidth(w: nat) {
    w == 3 || w == 4 || w == 5
  }

  predicate Codes(codes: seq<nat>, w: nat) {
    forall i | 0 <= i < |codes| :: codes[i] < Pow2(w)
  }

  // The bits of a sequence of w-bit numbers, each lowest bit first.
  function Stream(codes: seq<nat>, w: nat): (bits: seq<bool>)
    ensures |bits| == w * |codes|
  {
    if codes == [] then [] else ToBits(codes[0], w) + Stream(codes[1..], w)
  }

  function Zeros(n: nat): (z: seq<nat>)
    ensures |z| == n && forall i | 0 <= i < n :: z[i] == 0
  {
    seq(n, _ => 0)
  }

  lemma {:induction false} StreamAppend(a: seq<nat>, c: nat, w: nat)
    ensures Stream(a + [c], w) == Stream(a, w) + ToBits(c, w)
  {
    if a == [] {
      assert a + [c] == [c];
      assert Stream([c], w) == ToBits(c, w) + Stream([], w);
    } else {
      assert (a + [c])[1..] == a[1..] + [c];
      StreamAppend(a[1..], c, w);
    }
  }

  lemma StreamHead(a: seq<nat>, i: nat, w: nat)
    requires i < |a|
    ensures Stream(a[i..], w) == ToBits(a[i], w) + Stream(a[i + 1..], w)
  {
    assert a[i..][1..] == a[i + 1..];
  }

  // Codes that fit their width are determined by their bit stream.
  lemma {:induction false} StreamInjective(a: seq<nat>, b: seq<nat>, w: nat)
    requires Codes(a, w) && Codes(b, w) && |a| == |b| && Stream(a, w) == Stream(b, w)
    ensures a == b
  {
    if a != [] {
      assert Stream(a, w)[..w] == ToBits(a[0], w) && Stream(b, w)[..w] == ToBits(b[0], w);
      assert Stream(a, w)[w..] == Stream(a[1..], w) && Stream(b, w)[w..] == Stream(b[1..], w);
      OfBitsToBits(a[0], w);
      OfBitsToBits(b[0], w);
      StreamInjective(a[1..], b[1..], w);
    }
  }

  // How many zero codes flush a buffer that holds outBits bits.
  function FlushCount(outBits: nat, w: nat): nat
    requires outBits < 8
  {
    if w == 4 then outBits / 4 else ((8 - outBits) * w) % 8
  }

  lemma FlushStep(outBits: nat, w: nat)
    requires 0 < outBits < 8 && ValidWidth(w) && (w == 4 ==> outBits % 4 == 0)
    ensures FlushCount(outBits, w) == FlushCount((outBits + w) % 8, w) + 1
    ensures FlushCount(outBits, w) < 8
  {
    if w == 3 {
    } else if w == 4 {
    } else {
    }
  }

  class Packer {
    var outBuffer: nat
    var outBits: nat
    var out: seq<nat>

    ghost predicate Valid()
      reads this
    {
      outBits < 8 && outBuffer < Pow2(outBits) && Codes(out, 8)
    }

    // Everything packed so far: the octets written, then the bits still in the buffer.
    ghost function Packed(): seq<bool>
      reads this
    {
      Stream(out, 8) + ToBits(outBuffer, outBits)
    }

    constructor ()
      ensures Valid() && Packed() == [] && out == [] && outBits == 0
    {
      outBuffer, outBits, out := 0, 0, [];
    }

    method PackOutput(code: nat, bits: nat) returns (resid: bool)
      requires Valid() && ValidWidth(bits) && code < Pow2(bits)
      modifies this
      ensures Valid() && Packed() == old(Packed()) + ToBits(code, bits)
      ensures outBits == (old(outBits) + bits) % 8 && resid == (outBits > 0)
    {
      hide ToBits, Stream, Or, Shl, Shr, Low, Pow2;
      OrShifted(outBuffer, code, outBits);
      ToBitsJoin(outBuffer, outBits, code, bits);
      ShiftedFits(outBuffer, outBits, code, bits);
      outBuffer := Or(outBuffer, Shl(code, outBits));
      outBits := outBits + bits;
      assert Packed() == old(Packed()) + ToBits(code, bits);
      if outBits >= 8 {
        ToBitsSplit(outBuffer, outBits, 8);
        SplitFits(outBuffer, outBits, 8);
        var outByte := Low(outBuffer, 8);
        StreamAppend(out, outByte, 8);
        outBits := outBits - 8;
        outBuffer := Shr(outBuffer, 8);
        out := out + [outByte];
        assert Packed() == old(Packed()) + ToBits(code, bits);
      }
      resid := outBits > 0;
    }
  }

  // Zero codes are packed until nothing is left in the buffer: fewer than eight, because
  // the fill level steps by the width modulo 8.
  method Flush(p: Packer, w: nat, ghost codes: seq<nat>) returns (ghost padding: nat)
    requires p.Valid() && ValidWidth(w) && (w == 4 ==> p.outBits % 4 == 0)
    requires p.Packed() == Stream(codes, w)
    modifies p
    ensures p.Valid() && p.outBits == 0 && p.Packed() == Stream(codes + Zeros(padding), w)
    ensures padding == FlushCount(old(p.outBits), w) && padding < 8
  {
    hide ToBits, Stream;
    padding := 0;
    assert codes + Zeros(0) == codes;
    assert FlushCount(p.outBits, w) < 8;
    var resid := p.outBits > 0;
    while resid
      invariant p.Valid() && (w == 4 ==> p.outBits % 4 == 0) && resid == (p.outBits > 0)
      invariant padding + FlushCount(p.outBits, w) == FlushCount(old(p.outBits), w)
      invariant p.Packed() == Stream(codes + Zeros(padding), w)
      decreases FlushCount(p.outBits, w)
    {
      FlushStep(p.outBits, w);
      StreamAppend(codes + Zeros(padding), 0, w);
      assert codes + Zeros(padding + 1) == codes + Zeros(padding) + [0];
      resid := p.PackOutput(0, w);
      padding := padding + 1;
    }
  }

  // The encoder packs every code and flushes.
  method Encode(codes: seq<nat>, w: nat) returns (out: seq<nat>, ghost padding: nat)
    requires ValidWidth(w) && Codes(codes, w) && |codes| > 0
    ensures padding < 8 && Codes(out, 8)
    ensures Stream(out, 8) == Stream(codes + Zeros(padding), w)
  {
    hide ToBits, Pow2;
    var p := new Packer();
    var i := 0;
    while i < |codes|
      invariant 0 <= i <= |codes| && p.Valid() && fresh(p)
      invariant p.Packed() == Stream(codes[..i], w)
      invariant w == 4 ==> p.outBits % 4 == 0
    {
      StreamAppend(codes[..i], codes[i], w);
      assert codes[..i + 1] == codes[..i] + [codes[i]];
      var resid := p.PackOutput(codes[i], w);
      i := i + 1;
    }
    assert codes[..i] == codes;
    padding := Flush(p, w, codes);
    out := p.out;
    assert p.Packed() == Stream(out, 8);
  }

  class Unpacker {
    var inBuffer: nat
    var inBits: nat
    const input: seq<nat>
    var pos: nat

    ghost predicate Valid()
      reads this
    {
      inBits < 8 && inBuffer < Pow2(inBits) && pos <= |input| && Codes(input, 8)
    }

    // Everything not yet decoded: the bits in the buffer, then the octets not yet read.
    ghost function Pending(): seq<bool>
      reads this
      requires pos <= |input|
    {
      ToBits(inBuffer, inBits) + Stream(input[pos..], 8)
    }

    constructor (octets: seq<nat>)
      requires Codes(octets, 8)
      ensures Valid() && Pending() == Stream(octets, 8) && input == octets
    {
      inBuffer, inBits, pos, input := 0, 0, 0, octets;
      new;
      assert octets[0..] == octets;
    }

    // -1 at the end of the input, otherwise whether bits are left over in the buffer.
    method UnpackInput(bits: nat) returns (ret: int, code: nat)
      requires Valid() && ValidWidth(bits)
      modifies this
      ensures Valid() && (ret < 0 <==> |old(Pending())| < bits)
      ensures ret < 0 ==> code == 0 && Pending() == old(Pending()) && ret == -1
      ensures ret >= 0 ==> code < Pow2(bits) && old(Pending()) == ToBits(code, bits) + Pending()
      ensures ret >= 0 ==> ret == if inBits > 0 then 1 else 0
    {
      hide ToBits, Stream, Or, Shl, Shr, Low, Pow2;
      if inBits < bits {
        if pos == |input| {
          code := 0;
          return -1, code;
        }
        var inByte := input[pos];
        StreamHead(input, pos, 8);
        OrShifted(inBuffer, inByte, inBits);
        ToBitsJoin(inBuffer, inBits, inByte, 8);
        ShiftedFits(inBuffer, inBits, inByte, 8);
        inBuffer := Or(inBuffer, Shl(inByte, inBits));
        pos := pos + 1;
        inBits := inBits + 8;
        assert Pending() == old(Pending());
      }
      ToBitsSplit(inBuffer, inBits, bits);
      SplitFits(inBuffer, inBits, bits);
      code := Low(inBuffer, bits);
      inBuffer := Shr(inBuffer, bits);
      inBits := inBits - bits;
      assert old(Pending()) == ToBits(code, bits) + Pending();
      ret := if inBits > 0 then 1 else 0;
    }
  }

  // The decoder: codes until the input runs out.
  method Decode(octets: seq<nat>, w: nat) returns (codes: seq<nat>)
    requires ValidWidth(w) && Codes(octets, 8)
    ensures Codes(codes, w) && |codes| == 8 * |octets| / w
    ensures Stream(codes, w) == Stream(octets, 8)[..w * |codes|]
  {
    hide ToBits, Stream, Pow2;
    var u := new Unpacker(octets);
    codes := [];
    var ret: int, code: nat := u.UnpackInput(w);
    ghost var all := Stream(octets, 8);
    while ret >= 0
      invariant u.Valid() && fresh(u) && u.input == octets && Codes(codes, w)
      invariant ret >= 0 ==> code < Pow2(w) && Stream(codes, w) + ToBits(code, w) + u.Pending() == all
      invariant ret < 0 ==> Stream(codes, w) + u.Pending() == all && |u.Pending()| < w
      decreases if ret >= 0 then |u.Pending()| + w else 0
    {
      StreamAppend(codes, code, w);
      codes := codes + [code];
      ret, code := u.UnpackInput(w);
    }
    WholeCodes(codes, w, u.Pending(), octets);
  }

  // Codes that leave less than one code over are all the whole codes of the octets.
  lemma WholeCodes(codes: seq<nat>, w: nat, rest: seq<bool>, octets: seq<nat>)
    requires ValidWidth(w) && Stream(codes, w) + rest == Stream(octets, 8) && |rest| < w
    ensures |codes| == 8 * |octets| / w && Stream(codes, w) == Stream(octets, 8)[..w * |codes|]
  {
    hide Stream;
    assert |Stream(codes, w) + rest| == 8 * |octets|;
    if w == 3 {
      assert 3 * |codes| + |rest| == 8 * |octets|;
    } else if w == 4 {
      assert 4 * |codes| + |rest| == 8 * |octets|;
    } else {
      assert 5 * |codes| + |rest| == 8 * |octets|;
    }
  }

  lemma WholeNumber(n: nat, w: nat, bits: nat)
    requires ValidWidth(w) && w * n == bits
    ensures bits / w == n
  {
    if w == 3 {
    } else if w == 4 {
    } else {
    }
  }

  // Packing then unpacking yields the same codes followed by fewer than eight zero codes.
  method EncodeThenDecode(codes: seq<nat>, w: nat) returns (back: seq<nat>)
    requires w in {3, 4, 5} && Codes(codes, w) && |codes| > 0
    ensures |codes| <= |back| < |codes| + 8
    ensures back == codes + Zeros(|back| - |codes|)
  {
    var octets, padding := Encode(codes, w);
    back := Decode(octets, w);
    ghost var padded := codes + Zeros(padding);
    assert w * |padded| == 8 * |octets|;
    WholeNumber(|padded|, w, 8 * |octets|);
    StreamInjective(back, padded, w);
  }
}
