// Bits of natural numbers: the shift, mask, or and exclusive-or of the C sources,
// on numbers that fit a given width.
module Bits {
  import opened Common

  function Pow2(n: nat): (p: nat)
    ensures p > 0
  {
    if n == 0 then 1 else 2 * Pow2(n - 1)
  }

  // (b >> k) & 1
  predicate Bit(b: nat, k: nat) {
    if k == 0 then b % 2 == 1 else Bit(b / 2, k - 1)
  }

  // b | (1 << k)
  function OrBit(b: nat, k: nat): nat {
    if k == 0 then b - b % 2 + 1 else 2 * OrBit(b / 2, k - 1) + b % 2
  }

  // a ^ b
  function Xor(a: nat, b: nat): nat {
    if a == 0 && b == 0 then 0 else 2 * Xor(a / 2, b / 2) + (if a % 2 == b % 2 then 0 else 1)
  }

  // The number with the given bits, lowest first.
  function OfBits(bits: seq<bool>): nat {
    if bits == [] then 0 else (if bits[0] then 1 else 0) + 2 * OfBits(bits[1..])
  }

  lemma {:induction false} OrBitBit(b: nat, k: nat, j: nat)
    ensures Bit(OrBit(b, k), j) == (j == k || Bit(b, j))
  {
    if k > 0 && j > 0 {
      OrBitBit(b / 2, k - 1, j - 1);
    }
  }

  lemma {:induction false} OrBitFits(b: nat, k: nat, width: nat)
    requires k < width && b < Pow2(width)
    ensures OrBit(b, k) < Pow2(width)
  {
    if k > 0 {
      OrBitFits(b / 2, k - 1, width - 1);
    }
  }

  lemma {:induction false} XorFits(a: nat, b: nat, width: nat)
    requires a < Pow2(width) && b < Pow2(width)
    ensures Xor(a, b) < Pow2(width)
  {
    if width > 0 && !(a == 0 && b == 0) {
      XorFits(a / 2, b / 2, width - 1);
    }
  }

  function XorOctet(a: octet, b: octet): octet {
    XorFits(a, b, 8);
    assert Pow2(8) == 256;
    Xor(a, b)
  }

  lemma XorDigits(a: nat, b: nat)
    ensures Xor(a, b) / 2 == Xor(a / 2, b / 2)
    ensures Xor(a, b) % 2 == if a % 2 == b % 2 then 0 else 1
  {}

  lemma {:induction false} XorTwice(a: nat, b: nat)
    ensures Xor(Xor(a, b), b) == a
  {
    XorDigits(a, b);
    if a != 0 || b != 0 {
      XorTwice(a / 2, b / 2);
      XorDigits(Xor(a, b), b);
      hide Xor;
    }
  }

  lemma XorOctetTwice(a: octet, b: octet)
    ensures XorOctet(XorOctet(a, b), b) == a
  {
    hide Xor;
    XorTwice(a, b);
  }

  lemma {:induction false} ZeroBit(k: nat)
    ensures !Bit(0, k)
  {
    if k > 0 {
      ZeroBit(k - 1);
    }
  }

  // z % m is the remainder r whenever z = q * m + r with 0 <= r < m.
  lemma Remainder256(z: int, q: int, r: int)
    requires z == 256 * q + r && 0 <= r < 256
    ensures z % 256 == r
  {}

  lemma {:induction false} OfBitsBit(bits: seq<bool>, k: nat)
    requires k < |bits|
    ensures Bit(OfBits(bits), k) == bits[k]
  {
    if k > 0 {
      OfBitsBit(bits[1..], k - 1);
    }
  }

  lemma {:induction false} OfBitsFits(bits: seq<bool>)
    ensures OfBits(bits) < Pow2(|bits|)
  {
    if bits != [] {
      OfBitsFits(bits[1..]);
    }
  }

  // A number that fits a width is determined by that many bits.
  lemma {:induction false} Extensional(a: nat, b: nat, width: nat)
    requires a < Pow2(width) && b < Pow2(width)
    requires forall k: nat | k < width :: Bit(a, k) == Bit(b, k)
    ensures a == b
  {
    if width > 0 {
      assert Bit(a, 0) == Bit(b, 0);
      forall k: nat | k < width - 1
        ensures Bit(a / 2, k) == Bit(b / 2, k)
      {
        assert Bit(a, k + 1) == Bit(b, k + 1);
      }
      Extensional(a / 2, b / 2, width - 1);
    }
  }

  // a | b
  function Or(a: nat, b: nat): nat {
    if a == 0 && b == 0 then 0 else 2 * Or(a / 2, b / 2) + (if a % 2 == 1 || b % 2 == 1 then 1 else 0)
  }

  // x << k, x >> k and x & ((1 << k) - 1)
  function Shl(x: nat, k: nat): nat {
    if k == 0 then x else 2 * Shl(x, k - 1)
  }

  function Shr(x: nat, k: nat): nat {
    if k == 0 then x else Shr(x / 2, k - 1)
  }

  function Low(x: nat, k: nat): nat {
    if k == 0 then 0 else x % 2 + 2 * Low(x / 2, k - 1)
  }

  // a | (b << n) adds when a fits below bit n.
  lemma {:induction false} OrShifted(a: nat, b: nat, n: nat)
    requires a < Pow2(n)
    ensures Or(a, Shl(b, n)) == a + Shl(b, n)
  {
    if n == 0 {
      OrZero(b);
    } else {
      OrShifted(a / 2, b, n - 1);
    }
  }

  lemma {:induction false} ShiftedFits(a: nat, n: nat, b: nat, m: nat)
    requires a < Pow2(n) && b < Pow2(m)
    ensures a + Shl(b, n) < Pow2(n + m)
  {
    if n > 0 {
      ShiftedFits(a / 2, n - 1, b, m);
    }
  }

  lemma {:induction false} OrZero(b: nat)
    ensures Or(0, b) == b
  {
    if b > 0 {
      OrZero(b / 2);
    }
  }

  // The low n bits of x, lowest first.
  function ToBits(x: nat, n: nat): (bits: seq<bool>)
    ensures |bits| == n
  {
    if n == 0 then [] else [x % 2 == 1] + ToBits(x / 2, n - 1)
  }

  lemma {:induction false} OfBitsToBits(x: nat, n: nat)
    requires x < Pow2(n)
    ensures OfBits(ToBits(x, n)) == x
  {
    if n > 0 {
      OfBitsToBits(x / 2, n - 1);
    }
  }

  lemma {:induction false} ToBitsJoin(x: nat, n: nat, y: nat, m: nat)
    requires x < Pow2(n)
    ensures ToBits(x + Shl(y, n), n + m) == ToBits(x, n) + ToBits(y, m)
  {
    if n > 0 {
      var c := Shl(y, n - 1);
      assert (x + 2 * c) / 2 == x / 2 + c && (x + 2 * c) % 2 == x % 2;
      ToBitsJoin(x / 2, n - 1, y, m);
    }
  }

  // Masking keeps the low k bits; shifting right by k keeps the rest.
  lemma {:induction false} ToBitsSplit(x: nat, n: nat, k: nat)
    requires k <= n
    ensures ToBits(x, n) == ToBits(Low(x, k), k) + ToBits(Shr(x, k), n - k)
  {
    if k == 0 {
      assert ToBits(Low(x, 0), 0) == [] && Shr(x, 0) == x;
    } else {
      ToBitsSplit(x / 2, n - 1, k - 1);
      LowFirst(x, k);
      hide Low, ToBits;
    }
  }

  lemma LowFirst(x: nat, k: nat)
    requires k > 0
    ensures ToBits(Low(x, k), k) == [x % 2 == 1] + ToBits(Low(x / 2, k - 1), k - 1)
    ensures forall n: nat | n > 0 :: ToBits(x, n) == [x % 2 == 1] + ToBits(x / 2, n - 1)
  {}

  lemma {:induction false} SplitFits(x: nat, n: nat, k: nat)
    requires k <= n && x < Pow2(n)
    ensures Low(x, k) < Pow2(k) && Shr(x, k) < Pow2(n - k)
  {
    if k > 0 {
      SplitFits(x / 2, n - 1, k - 1);
    }
  }

  lemma XorCompose(x: nat, i: nat, y: nat, j: nat)
    requires i < 2 && j < 2
    ensures Xor(2 * x + i, 2 * y + j) == 2 * Xor(x, y) + (if i == j then 0 else 1)
  {
    XorDigits(2 * x + i, 2 * y + j);
    hide Xor;
    assert (2 * x + i) / 2 == x && (2 * y + j) / 2 == y;
  }

  lemma XorTopStep(x: nat, i: nat, y: nat, j: nat, h: nat)
    requires i < 2 && j < 2 && Xor(x + h, y) == Xor(x, y) + h == Xor(x, y + h)
    ensures var a, b := 2 * x + i, 2 * y + j; Xor(a + 2 * h, b) == Xor(a, b) + 2 * h == Xor(a, b + 2 * h)
  {
    hide Xor;
    XorCompose(x, i, y, j);
    XorCompose(x + h, i, y, j);
    XorCompose(x, i, y + h, j);
    assert 2 * (x + h) + i == 2 * x + i + 2 * h && 2 * (y + h) + j == 2 * y + j + 2 * h;
  }

  // The bit above both numbers passes through an exclusive-or from either side.
  lemma {:induction false} XorTop(a: nat, b: nat, n: nat)
    requires a < Pow2(n) && b < Pow2(n)
    ensures Xor(a + Pow2(n), b) == Xor(a, b) + Pow2(n) == Xor(a, b + Pow2(n))
  {
    hide Xor;
    if n == 0 {
      XorOne();
      assert a == 0 && b == 0 && Pow2(n) == 1;
    } else {
      var x, i, y, j, h := a / 2, a % 2, b / 2, b % 2, Pow2(n - 1);
      assert a == 2 * x + i && b == 2 * y + j && Pow2(n) == 2 * h && x < h && y < h;
      XorTop(x, y, n - 1);
      hide Pow2;
      XorTopStep(x, i, y, j, h);
    }
  }

  lemma XorOne()
    ensures Xor(1, 0) == 1 == Xor(0, 1) && Xor(0, 0) == 0
  {}

  lemma {:induction false} OrCommutes(a: nat, b: nat)
    ensures Or(a, b) == Or(b, a)
  {
    if a != 0 || b != 0 {
      OrCommutes(a / 2, b / 2);
    }
  }

  lemma {:induction false} ShlAdd(x: nat, j: nat, k: nat)
    ensures Shl(x, j + k) == Shl(Shl(x, j), k)
  {
    if k > 0 {
      ShlAdd(x, j, k - 1);
    }
  }

  lemma {:induction false} ShlSum(x: nat, y: nat, k: nat)
    ensures Shl(x + y, k) == Shl(x, k) + Shl(y, k)
  {
    if k > 0 {
      ShlSum(x, y, k - 1);
    }
  }

  lemma {:induction false} ShrAdd(x: nat, j: nat, k: nat)
    ensures Shr(x, j + k) == Shr(Shr(x, j), k)
  {
    if j > 0 {
      ShrAdd(x / 2, j - 1, k);
    }
  }

  lemma {:induction false} ShlFits(x: nat, n: nat, k: nat)
    requires x < Pow2(n)
    ensures Shl(x, k) < Pow2(n + k)
  {
    if k > 0 {
      ShlFits(x, n, k - 1);
    }
  }

  // (q << k) + r splits again when r fits k bits.
  lemma {:induction false} ShiftSplits(q: nat, r: nat, k: nat)
    requires r < Pow2(k)
    ensures Shr(Shl(q, k) + r, k) == q && Low(Shl(q, k) + r, k) == r
  {
    if k > 0 {
      ShiftSplits(q, r / 2, k - 1);
      assert (Shl(q, k) + r) / 2 == Shl(q, k - 1) + r / 2 && (Shl(q, k) + r) % 2 == r % 2;
    }
  }

  lemma {:induction false} LowFits(x: nat, k: nat)
    ensures Low(x, k) < Pow2(k)
  {
    if k > 0 {
      LowFits(x / 2, k - 1);
    }
  }

  lemma {:induction false} LowWhole(x: nat, k: nat)
    requires x < Pow2(k)
    ensures Low(x, k) == x
  {
    if k > 0 {
      LowWhole(x / 2, k - 1);
    }
  }

  lemma {:induction false} Pow2Add(j: nat, k: nat)
    ensures Pow2(j + k) == Shl(Pow2(j), k)
  {
    if k > 0 {
      Pow2Add(j, k - 1);
    }
  }

  // Bits from j on up to j + k, and the j below them.
  lemma {:induction false} LowAdd(x: nat, j: nat, k: nat)
    ensures Low(x, j + k) == Low(x, j) + Shl(Low(Shr(x, j), k), j)
  {
    if j > 0 {
      LowAdd(x / 2, j - 1, k);
      hide Low;
      LowStep(x, j + k);
      LowStep(x, j);
    }
  }

  lemma LowStep(x: nat, k: nat)
    requires k > 0
    ensures Low(x, k) == x % 2 + 2 * Low(x / 2, k - 1)
  {}

  // ----- Octets -----

  // (uint8_t)(x >> k)
  function OctetAt(x: nat, k: nat): (o: nat)
    ensures o < 256
  {
    Shr(x, k) % 256
  }

  // n octets of x from bit k on, highest first.
  function Octets(x: nat, k: nat, n: nat): (s: seq<nat>)
    ensures |s| == n
    decreases n
  {
    if n == 0 then [] else Octets(x, k + 8, n - 1) + [OctetAt(x, k)]
  }

  // The number that octets spell, highest first.
  function FromOctets(s: seq<nat>): nat {
    if s == [] then 0 else 256 * FromOctets(s[..|s| - 1]) + s[|s| - 1]
  }

  lemma OneBit(x: nat)
    ensures Shl(x, 1) == 2 * x && Shr(x, 1) == x / 2 && Low(x, 1) == x % 2
  {
    assert Shl(x, 0) == x && Shr(x / 2, 0) == x / 2 && Low(x / 2, 0) == 0;
  }

  lemma TwoBits(x: nat)
    ensures Shl(x, 2) == 4 * x && Shr(x, 2) == x / 4 && Low(x, 2) == x % 4
  {
    hide Shl, Shr, Low;
    OneBit(x);
    OneBit(2 * x);
    OneBit(x / 2);
    OneBit(x / 2 % 2);
    ShlAdd(x, 1, 1);
    ShrAdd(x, 1, 1);
    LowAdd(x, 1, 1);
  }

  lemma FourBits(x: nat)
    ensures Shl(x, 4) == 16 * x && Shr(x, 4) == x / 16 && Low(x, 4) == x % 16
  {
    hide Shl, Shr, Low;
    TwoBits(x);
    TwoBits(4 * x);
    TwoBits(x / 4);
    TwoBits(x / 4 % 4);
    ShlAdd(x, 2, 2);
    ShrAdd(x, 2, 2);
    LowAdd(x, 2, 2);
  }

  lemma EightBits(x: nat)
    ensures Shl(x, 8) == 256 * x && Shr(x, 8) == x / 256 && Low(x, 8) == x % 256
  {
    hide Shl, Shr, Low;
    FourBits(x);
    FourBits(16 * x);
    FourBits(x / 16);
    FourBits(x / 16 % 16);
    ShlAdd(x, 4, 4);
    ShrAdd(x, 4, 4);
    LowAdd(x, 4, 4);
  }

  lemma {:induction false} OctetsSpell(x: nat, k: nat, n: nat)
    ensures FromOctets(Octets(x, k, n)) == Low(Shr(x, k), 8 * n)
    decreases n
  {
    if n > 0 {
      OctetsSpell(x, k + 8, n - 1);
      ShrAdd(x, k, 8);
      EightBits(Shr(x, k));
      EightBits(Low(Shr(x, k + 8), 8 * (n - 1)));
      LowAdd(Shr(x, k), 8, 8 * (n - 1));
      hide Low, Shr, Shl;
      var s := Octets(x, k, n);
      assert s[..n - 1] == Octets(x, k + 8, n - 1);
    }
  }

  lemma {:induction false} FromOctetsJoin(a: seq<nat>, b: seq<nat>)
    requires forall i | 0 <= i < |b| :: b[i] < 256
    ensures FromOctets(a + b) == Shl(FromOctets(a), 8 * |b|) + FromOctets(b)
    ensures FromOctets(b) < Pow2(8 * |b|)
  {
    hide Shl, Pow2;
    if b == [] {
      assert a + b == a;
      Nothing(FromOctets(a));
    } else {
      var n := |b| - 1;
      FromOctetsJoin(a, b[..n]);
      assert (a + b)[..|a| + n] == a + b[..n];
      ShlAdd(FromOctets(a), 8 * n, 8);
      EightBits(Shl(FromOctets(a), 8 * n));
      Pow2Add(8 * n, 8);
      EightBits(Pow2(8 * n));
    }
  }

  lemma Nothing(x: nat)
    ensures Shl(x, 0) == x && Pow2(0) == 1
  {}
}
