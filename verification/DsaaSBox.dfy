// The substitution box of the DECT standard authentication algorithm and its inverse,
// as functions on octet values. Each is split into sixteen rows of sixteen entries.
module DsaaSBox {

  function ForwardRow0(c: int): int { match c case 0 => 0xb0 case 1 => 0x68 case 2 => 0x6f case 3 => 0xf6 case 4 => 0x7d case 5 => 0xe8 case 6 => 0x16 case 7 => 0x85 case 8 => 0x39 case 9 => 0x7c case 10 => 0x7f case 11 => 0xde case 12 => 0x43 case 13 => 0xf0 case 14 => 0x59 case _ => 0xa9 }
  function ForwardRow1(c: int): int { match c case 0 => 0xfb case 1 => 0x80 case 2 => 0x32 case 3 => 0xae case 4 => 0x5f case 5 => 0x25 case 6 => 0x8c case 7 => 0xf5 case 8 => 0x94 case 9 => 0x6b case 10 => 0xd8 case 11 => 0xea case 12 => 0x88 case 13 => 0x98 case 14 => 0xc2 case _ => 0x29 }
  function ForwardRow2(c: int): int { match c case 0 => 0xcf case 1 => 0x3a case 2 => 0x50 case 3 => 0x96 case 4 => 0x1c case 5 => 0x08 case 6 => 0x95 case 7 => 0xf4 case 8 => 0x82 case 9 => 0x37 case 10 => 0x0a case 11 => 0x56 case 12 => 0x2c case 13 => 0xff case 14 => 0x4f case _ => 0xc4 }
  function ForwardRow3(c: int): int { match c case 0 => 0x60 case 1 => 0xa5 case 2 => 0x83 case 3 => 0x21 case 4 => 0x30 case 5 => 0xf8 case 6 => 0xf3 case 7 => 0x28 case 8 => 0xfa case 9 => 0x93 case 10 => 0x49 case 11 => 0x34 case 12 => 0x42 case 13 => 0x78 case 14 => 0xbf case _ => 0xfc }
  function ForwardRow4(c: int): int { match c case 0 => 0x61 case 1 => 0xc6 case 2 => 0xf1 case 3 => 0xa7 case 4 => 0x1a case 5 => 0x53 case 6 => 0x03 case 7 => 0x4d case 8 => 0x86 case 9 => 0xd3 case 10 => 0x04 case 11 => 0x87 case 12 => 0x7e case 13 => 0x8f case 14 => 0xa0 case _ => 0xb7 }
  function ForwardRow5(c: int): int { match c case 0 => 0x31 case 1 => 0xb3 case 2 => 0xe7 case 3 => 0x0e case 4 => 0x2f case 5 => 0xcc case 6 => 0x69 case 7 => 0xc3 case 8 => 0xc0 case 9 => 0xd9 case 10 => 0xc8 case 11 => 0x13 case 12 => 0xdc case 13 => 0x8b case 14 => 0x01 case _ => 0x52 }
  function ForwardRow6(c: int): int { match c case 0 => 0xc1 case 1 => 0x48 case 2 => 0xef case 3 => 0xaf case 4 => 0x73 case 5 => 0xdd case 6 => 0x5c case 7 => 0x2e case 8 => 0x19 case 9 => 0x91 case 10 => 0xdf case 11 => 0x22 case 12 => 0xd5 case 13 => 0x3d case 14 => 0x0d case _ => 0xa3 }
  function ForwardRow7(c: int): int { match c case 0 => 0x58 case 1 => 0x81 case 2 => 0x3e case 3 => 0xfd case 4 => 0x62 case 5 => 0x44 case 6 => 0x24 case 7 => 0x2d case 8 => 0xb6 case 9 => 0x8d case 10 => 0x5a case 11 => 0x05 case 12 => 0x17 case 13 => 0xbe case 14 => 0x27 case _ => 0x54 }
  function ForwardRow8(c: int): int { match c case 0 => 0x5d case 1 => 0x9d case 2 => 0xd6 case 3 => 0xad case 4 => 0x6c case 5 => 0xed case 6 => 0x64 case 7 => 0xce case 8 => 0xf2 case 9 => 0x72 case 10 => 0x3f case 11 => 0xd4 case 12 => 0x46 case 13 => 0xa4 case 14 => 0x10 case _ => 0xa2 }
  function ForwardRow9(c: int): int { match c case 0 => 0x3b case 1 => 0x89 case 2 => 0x97 case 3 => 0x4c case 4 => 0x6e case 5 => 0x74 case 6 => 0x99 case 7 => 0xe4 case 8 => 0xe3 case 9 => 0xbb case 10 => 0xee case 11 => 0x70 case 12 => 0x00 case 13 => 0xbd case 14 => 0x65 case _ => 0x20 }
  function ForwardRowA(c: int): int { match c case 0 => 0x0f case 1 => 0x7a case 2 => 0xe9 case 3 => 0x9e case 4 => 0x9b case 5 => 0xc7 case 6 => 0xb5 case 7 => 0x63 case 8 => 0xe6 case 9 => 0xaa case 10 => 0xe1 case 11 => 0x8a case 12 => 0xc5 case 13 => 0x07 case 14 => 0x06 case _ => 0x1e }
  function ForwardRowB(c: int): int { match c case 0 => 0x5e case 1 => 0x1d case 2 => 0x35 case 3 => 0x38 case 4 => 0x77 case 5 => 0x14 case 6 => 0x11 case 7 => 0xe2 case 8 => 0xb9 case 9 => 0x84 case 10 => 0x18 case 11 => 0x9f case 12 => 0x2a case 13 => 0xcb case 14 => 0xda case _ => 0xf7 }
  function ForwardRowC(c: int): int { match c case 0 => 0xa6 case 1 => 0xb2 case 2 => 0x66 case 3 => 0x7b case 4 => 0xb1 case 5 => 0x9c case 6 => 0x6d case 7 => 0x6a case 8 => 0xf9 case 9 => 0xfe case 10 => 0xca case 11 => 0xc9 case 12 => 0xa8 case 13 => 0x41 case 14 => 0xbc case _ => 0x79 }
  function ForwardRowD(c: int): int { match c case 0 => 0xdb case 1 => 0xb8 case 2 => 0x67 case 3 => 0xba case 4 => 0xac case 5 => 0x36 case 6 => 0xab case 7 => 0x92 case 8 => 0x4b case 9 => 0xd7 case 10 => 0xe5 case 11 => 0x9a case 12 => 0x76 case 13 => 0xcd case 14 => 0x15 case _ => 0x1f }
  function ForwardRowE(c: int): int { match c case 0 => 0x4e case 1 => 0x4a case 2 => 0x57 case 3 => 0x71 case 4 => 0x1b case 5 => 0x55 case 6 => 0x09 case 7 => 0x51 case 8 => 0x33 case 9 => 0x0c case 10 => 0xb4 case 11 => 0x8e case 12 => 0x2b case 13 => 0xe0 case 14 => 0xd0 case _ => 0x5b }
  function ForwardRowF(c: int): int { match c case 0 => 0x47 case 1 => 0x75 case 2 => 0x45 case 3 => 0x40 case 4 => 0x02 case 5 => 0xd1 case 6 => 0x3c case 7 => 0xec case 8 => 0x23 case 9 => 0xeb case 10 => 0x0b case 11 => 0xd2 case 12 => 0xa1 case 13 => 0x90 case 14 => 0x26 case _ => 0x12 }

  function Forward(x: int): int {
    match x / 16
    case 0 => ForwardRow0(x % 16)
    case 1 => ForwardRow1(x % 16)
    case 2 => ForwardRow2(x % 16)
    case 3 => ForwardRow3(x % 16)
    case 4 => ForwardRow4(x % 16)
    case 5 => ForwardRow5(x % 16)
    case 6 => ForwardRow6(x % 16)
    case 7 => ForwardRow7(x % 16)
    case 8 => ForwardRow8(x % 16)
    case 9 => ForwardRow9(x % 16)
    case 10 => ForwardRowA(x % 16)
    case 11 => ForwardRowB(x % 16)
    case 12 => ForwardRowC(x % 16)
    case 13 => ForwardRowD(x % 16)
    case 14 => ForwardRowE(x % 16)
    case _ => ForwardRowF(x % 16)
  }

  function BackwardRow0(c: int): int { match c case 0 => 0x9c case 1 => 0x5e case 2 => 0xf4 case 3 => 0x46 case 4 => 0x4a case 5 => 0x7b case 6 => 0xae case 7 => 0xad case 8 => 0x25 case 9 => 0xe6 case 10 => 0x2a case 11 => 0xfa case 12 => 0xe9 case 13 => 0x6e case 14 => 0x53 case _ => 0xa0 }
  function BackwardRow1(c: int): int { match c case 0 => 0x8e case 1 => 0xb6 case 2 => 0xff case 3 => 0x5b case 4 => 0xb5 case 5 => 0xde case 6 => 0x06 case 7 => 0x7c case 8 => 0xba case 9 => 0x68 case 10 => 0x44 case 11 => 0xe4 case 12 => 0x24 case 13 => 0xb1 case 14 => 0xaf case _ => 0xdf }
  function BackwardRow2(c: int): int { match c case 0 => 0x9f case 1 => 0x33 case 2 => 0x6b case 3 => 0xf8 case 4 => 0x76 case 5 => 0x15 case 6 => 0xfe case 7 => 0x7e case 8 => 0x37 case 9 => 0x1f case 10 => 0xbc case 11 => 0xec case 12 => 0x2c case 13 => 0x77 case 14 => 0x67 case _ => 0x54 }
  function BackwardRow3(c: int): int { match c case 0 => 0x34 case 1 => 0x50 case 2 => 0x12 case 3 => 0xe8 case 4 => 0x3b case 5 => 0xb2 case 6 => 0xd5 case 7 => 0x29 case 8 => 0xb3 case 9 => 0x08 case 10 => 0x21 case 11 => 0x90 case 12 => 0xf6 case 13 => 0x6d case 14 => 0x72 case _ => 0x8a }
  function BackwardRow4(c: int): int { match c case 0 => 0xf3 case 1 => 0xcd case 2 => 0x3c case 3 => 0x0c case 4 => 0x75 case 5 => 0xf2 case 6 => 0x8c case 7 => 0xf0 case 8 => 0x61 case 9 => 0x3a case 10 => 0xe1 case 11 => 0xd8 case 12 => 0x93 case 13 => 0x47 case 14 => 0xe0 case _ => 0x2e }
  function BackwardRow5(c: int): int { match c case 0 => 0x22 case 1 => 0xe7 case 2 => 0x5f case 3 => 0x45 case 4 => 0x7f case 5 => 0xe5 case 6 => 0x2b case 7 => 0xe2 case 8 => 0x70 case 9 => 0x0e case 10 => 0x7a case 11 => 0xef case 12 => 0x66 case 13 => 0x80 case 14 => 0xb0 case _ => 0x14 }
  function BackwardRow6(c: int): int { match c case 0 => 0x30 case 1 => 0x40 case 2 => 0x74 case 3 => 0xa7 case 4 => 0x86 case 5 => 0x9e case 6 => 0xc2 case 7 => 0xd2 case 8 => 0x01 case 9 => 0x56 case 10 => 0xc7 case 11 => 0x19 case 12 => 0x84 case 13 => 0xc6 case 14 => 0x94 case _ => 0x02 }
  function BackwardRow7(c: int): int { match c case 0 => 0x9b case 1 => 0xe3 case 2 => 0x89 case 3 => 0x64 case 4 => 0x95 case 5 => 0xf1 case 6 => 0xdc case 7 => 0xb4 case 8 => 0x3d case 9 => 0xcf case 10 => 0xa1 case 11 => 0xc3 case 12 => 0x09 case 13 => 0x04 case 14 => 0x4c case _ => 0x0a }
  function BackwardRow8(c: int): int { match c case 0 => 0x11 case 1 => 0x71 case 2 => 0x28 case 3 => 0x32 case 4 => 0xb9 case 5 => 0x07 case 6 => 0x48 case 7 => 0x4b case 8 => 0x1c case 9 => 0x91 case 10 => 0xab case 11 => 0x5d case 12 => 0x16 case 13 => 0x79 case 14 => 0xeb case _ => 0x4d }
  function BackwardRow9(c: int): int { match c case 0 => 0xfd case 1 => 0x69 case 2 => 0xd7 case 3 => 0x39 case 4 => 0x18 case 5 => 0x26 case 6 => 0x23 case 7 => 0x92 case 8 => 0x1d case 9 => 0x96 case 10 => 0xdb case 11 => 0xa4 case 12 => 0xc5 case 13 => 0x81 case 14 => 0xa3 case _ => 0xbb }
  function BackwardRowA(c: int): int { match c case 0 => 0x4e case 1 => 0xfc case 2 => 0x8f case 3 => 0x6f case 4 => 0x8d case 5 => 0x31 case 6 => 0xc0 case 7 => 0x43 case 8 => 0xcc case 9 => 0x0f case 10 => 0xa9 case 11 => 0xd6 case 12 => 0xd4 case 13 => 0x83 case 14 => 0x13 case _ => 0x63 }
  function BackwardRowB(c: int): int { match c case 0 => 0x00 case 1 => 0xc4 case 2 => 0xc1 case 3 => 0x51 case 4 => 0xea case 5 => 0xa6 case 6 => 0x78 case 7 => 0x4f case 8 => 0xd1 case 9 => 0xb8 case 10 => 0xd3 case 11 => 0x99 case 12 => 0xce case 13 => 0x9d case 14 => 0x7d case _ => 0x3e }
  function BackwardRowC(c: int): int { match c case 0 => 0x58 case 1 => 0x60 case 2 => 0x1e case 3 => 0x57 case 4 => 0x2f case 5 => 0xac case 6 => 0x41 case 7 => 0xa5 case 8 => 0x5a case 9 => 0xcb case 10 => 0xca case 11 => 0xbd case 12 => 0x55 case 13 => 0xdd case 14 => 0x87 case _ => 0x20 }
  function BackwardRowD(c: int): int { match c case 0 => 0xee case 1 => 0xf5 case 2 => 0xfb case 3 => 0x49 case 4 => 0x8b case 5 => 0x6c case 6 => 0x82 case 7 => 0xd9 case 8 => 0x1a case 9 => 0x59 case 10 => 0xbe case 11 => 0xd0 case 12 => 0x5c case 13 => 0x65 case 14 => 0x0b case _ => 0x6a }
  function BackwardRowE(c: int): int { match c case 0 => 0xed case 1 => 0xaa case 2 => 0xb7 case 3 => 0x98 case 4 => 0x97 case 5 => 0xda case 6 => 0xa8 case 7 => 0x52 case 8 => 0x05 case 9 => 0xa2 case 10 => 0x1b case 11 => 0xf9 case 12 => 0xf7 case 13 => 0x85 case 14 => 0x9a case _ => 0x62 }
  function BackwardRowF(c: int): int { match c case 0 => 0x0d case 1 => 0x42 case 2 => 0x88 case 3 => 0x36 case 4 => 0x27 case 5 => 0x17 case 6 => 0x03 case 7 => 0xbf case 8 => 0x35 case 9 => 0xc8 case 10 => 0x38 case 11 => 0x10 case 12 => 0x3f case 13 => 0x73 case 14 => 0xc9 case _ => 0x2d }

  function Backward(x: int): int {
    match x / 16
    case 0 => BackwardRow0(x % 16)
    case 1 => BackwardRow1(x % 16)
    case 2 => BackwardRow2(x % 16)
    case 3 => BackwardRow3(x % 16)
    case 4 => BackwardRow4(x % 16)
    case 5 => BackwardRow5(x % 16)
    case 6 => BackwardRow6(x % 16)
    case 7 => BackwardRow7(x % 16)
    case 8 => BackwardRow8(x % 16)
    case 9 => BackwardRow9(x % 16)
    case 10 => BackwardRowA(x % 16)
    case 11 => BackwardRowB(x % 16)
    case 12 => BackwardRowC(x % 16)
    case 13 => BackwardRowD(x % 16)
    case 14 => BackwardRowE(x % 16)
    case _ => BackwardRowF(x % 16)
  }

  // One row of the box at a time: undoing the substitution gives the octet back,
  // and so does substituting an undone octet.

  lemma Rows0(x: int)
    requires 0x00 <= x < 0x20
    ensures 0 <= Forward(x) < 256 && Backward(Forward(x)) == x
    ensures 0 <= Backward(x) < 256 && Forward(Backward(x)) == x
  {}

  lemma Rows2(x: int)
    requires 0x20 <= x < 0x40
    ensures 0 <= Forward(x) < 256 && Backward(Forward(x)) == x
    ensures 0 <= Backward(x) < 256 && Forward(Backward(x)) == x
  {}

  lemma Rows4(x: int)
    requires 0x40 <= x < 0x60
    ensures 0 <= Forward(x) < 256 && Backward(Forward(x)) == x
    ensures 0 <= Backward(x) < 256 && Forward(Backward(x)) == x
  {}

  lemma Rows6(x: int)
    requires 0x60 <= x < 0x80
    ensures 0 <= Forward(x) < 256 && Backward(Forward(x)) == x
    ensures 0 <= Backward(x) < 256 && Forward(Backward(x)) == x
  {}

  lemma Rows8(x: int)
    requires 0x80 <= x < 0xa0
    ensures 0 <= Forward(x) < 256 && Backward(Forward(x)) == x
    ensures 0 <= Backward(x) < 256 && Forward(Backward(x)) == x
  {}

  lemma RowsA(x: int)
    requires 0xa0 <= x < 0xc0
    ensures 0 <= Forward(x) < 256 && Backward(Forward(x)) == x
    ensures 0 <= Backward(x) < 256 && Forward(Backward(x)) == x
  {}

  lemma RowsC(x: int)
    requires 0xc0 <= x < 0xe0
    ensures 0 <= Forward(x) < 256 && Backward(Forward(x)) == x
    ensures 0 <= Backward(x) < 256 && Forward(Backward(x)) == x
  {}

  lemma RowsE(x: int)
    requires 0xe0 <= x < 0x100
    ensures 0 <= Forward(x) < 256 && Backward(Forward(x)) == x
    ensures 0 <= Backward(x) < 256 && Forward(Backward(x)) == x
  {}

  // The substitution is a bijection on octets, and Backward is its two-sided inverse.
  lemma Bijection(x: int)
    requires 0 <= x < 256
    ensures 0 <= Forward(x) < 256 && Backward(Forward(x)) == x
    ensures 0 <= Backward(x) < 256 && Forward(Backward(x)) == x
  {
    match x / 32
    case 0 => Rows0(x);
    case 1 => Rows2(x);
    case 2 => Rows4(x);
    case 3 => Rows6(x);
    case 4 => Rows8(x);
    case 5 => RowsA(x);
    case 6 => RowsC(x);
    case _ => RowsE(x);
  }

  // ----- The weight of the table -----

  // The first n entries of a table, each weighed with its place.
  function Weight(table: int -> int, n: nat): int {
    if n == 0 then 0 else Weight(table, n - 1) + (n - 1) * table(n - 1)
  }

  // Exchanging two different entries changes the weight.
  lemma ExchangeShows(f: int -> int, g: int -> int, i: nat, j: nat, n: nat)
    requires i < j < n && g(i) == f(j) && g(j) == f(i) && forall k | 0 <= k < n && k != i && k != j :: g(k) == f(k)
    ensures Weight(g, n) == Weight(f, n) <==> f(i) == f(j)
  {
    WeightChanges(f, g, i, j, n);
    hide Weight;
    Unequal(i, j, f(i), f(j));
  }

  lemma Unequal(i: int, j: int, x: int, y: int)
    requires i < j
    ensures i * (y - x) + j * (x - y) == 0 <==> x == y
  {
    assert i * (y - x) + j * (x - y) == (j - i) * (x - y);
  }

  lemma {:induction false} WeightChanges(f: int -> int, g: int -> int, i: nat, j: nat, n: nat)
    requires i < j && g(i) == f(j) && g(j) == f(i) && forall k | 0 <= k < n && k != i && k != j :: g(k) == f(k)
    ensures Weight(g, n) - Weight(f, n) ==
            (if i < n then i * (f(j) - f(i)) else 0) + (if j < n then j * (f(i) - f(j)) else 0)
  {
    if n > 0 {
      WeightChanges(f, g, i, j, n - 1);
    }
  }

  lemma Add(n: nat)
    ensures Weight(Forward, n + 1) == Weight(Forward, n) + n * Forward(n)
  {}

  lemma Eight(x: nat)
    ensures Weight(Forward, x + 8) ==
            Weight(Forward, x) + x * Forward(x) + (x + 1) * Forward(x + 1) + (x + 2) * Forward(x + 2) + (x + 3) * Forward(x + 3)
            + (x + 4) * Forward(x + 4) + (x + 5) * Forward(x + 5) + (x + 6) * Forward(x + 6) + (x + 7) * Forward(x + 7)
  {
    hide Weight, Forward;
    Add(x); Add(x + 1); Add(x + 2); Add(x + 3); Add(x + 4); Add(x + 5); Add(x + 6); Add(x + 7);
  }

  lemma Row0Is()
    ensures forall x | 0 <= x < 16 :: Forward(x) == ForwardRow0(x - 0)
  {}

  lemma Row0Weighs()
    ensures Weight(Forward, 16) == Weight(Forward, 0) + 16776
  {
    Row0Is();
    hide Weight, Forward;
    Eight(0);
    Eight(8);
  }

  lemma Row1Is()
    ensures forall x | 16 <= x < 32 :: Forward(x) == ForwardRow1(x - 16)
  {}

  lemma Row1Weighs()
    ensures Weight(Forward, 32) == Weight(Forward, 16) + 55258
  {
    Row1Is();
    hide Weight, Forward;
    Eight(16);
    Eight(24);
  }

  lemma Row2Is()
    ensures forall x | 32 <= x < 48 :: Forward(x) == ForwardRow2(x - 32)
  {}

  lemma Row2Weighs()
    ensures Weight(Forward, 48) == Weight(Forward, 32) + 70820
  {
    Row2Is();
    hide Weight, Forward;
    Eight(32);
    Eight(40);
  }

  lemma Row3Is()
    ensures forall x | 48 <= x < 64 :: Forward(x) == ForwardRow3(x - 48)
  {}

  lemma Row3Weighs()
    ensures Weight(Forward, 64) == Weight(Forward, 48) + 120567
  {
    Row3Is();
    hide Weight, Forward;
    Eight(48);
    Eight(56);
  }

  lemma Row4Is()
    ensures forall x | 64 <= x < 80 :: Forward(x) == ForwardRow4(x - 64)
  {}

  lemma Row4Weighs()
    ensures Weight(Forward, 80) == Weight(Forward, 64) + 142341
  {
    Row4Is();
    hide Weight, Forward;
    Eight(64);
    Eight(72);
  }

  lemma Row5Is()
    ensures forall x | 80 <= x < 96 :: Forward(x) == ForwardRow5(x - 80)
  {}

  lemma Row5Weighs()
    ensures Weight(Forward, 96) == Weight(Forward, 80) + 182795
  {
    Row5Is();
    hide Weight, Forward;
    Eight(80);
    Eight(88);
  }

  lemma Row6Is()
    ensures forall x | 96 <= x < 112 :: Forward(x) == ForwardRow6(x - 96)
  {}

  lemma Row6Weighs()
    ensures Weight(Forward, 112) == Weight(Forward, 96) + 208479
  {
    Row6Is();
    hide Weight, Forward;
    Eight(96);
    Eight(104);
  }

  lemma Row7Is()
    ensures forall x | 112 <= x < 128 :: Forward(x) == ForwardRow7(x - 112)
  {}

  lemma Row7Weighs()
    ensures Weight(Forward, 128) == Weight(Forward, 112) + 182203
  {
    Row7Is();
    hide Weight, Forward;
    Eight(112);
    Eight(120);
  }

  lemma Row8Is()
    ensures forall x | 128 <= x < 144 :: Forward(x) == ForwardRow8(x - 128)
  {}

  lemma Row8Weighs()
    ensures Weight(Forward, 144) == Weight(Forward, 128) + 314681
  {
    Row8Is();
    hide Weight, Forward;
    Eight(128);
    Eight(136);
  }

  lemma Row9Is()
    ensures forall x | 144 <= x < 160 :: Forward(x) == ForwardRow9(x - 144)
  {}

  lemma Row9Weighs()
    ensures Weight(Forward, 160) == Weight(Forward, 144) + 320367
  {
    Row9Is();
    hide Weight, Forward;
    Eight(144);
    Eight(152);
  }

  lemma RowAIs()
    ensures forall x | 160 <= x < 176 :: Forward(x) == ForwardRowA(x - 160)
  {}

  lemma RowAWeighs()
    ensures Weight(Forward, 176) == Weight(Forward, 160) + 360983
  {
    RowAIs();
    hide Weight, Forward;
    Eight(160);
    Eight(168);
  }

  lemma RowBIs()
    ensures forall x | 176 <= x < 192 :: Forward(x) == ForwardRowB(x - 176)
  {}

  lemma RowBWeighs()
    ensures Weight(Forward, 192) == Weight(Forward, 176) + 338144
  {
    RowBIs();
    hide Weight, Forward;
    Eight(176);
    Eight(184);
  }

  lemma RowCIs()
    ensures forall x | 192 <= x < 208 :: Forward(x) == ForwardRowC(x - 192)
  {}

  lemma RowCWeighs()
    ensures Weight(Forward, 208) == Weight(Forward, 192) + 511932
  {
    RowCIs();
    hide Weight, Forward;
    Eight(192);
    Eight(200);
  }

  lemma RowDIs()
    ensures forall x | 208 <= x < 224 :: Forward(x) == ForwardRowD(x - 208)
  {}

  lemma RowDWeighs()
    ensures Weight(Forward, 224) == Weight(Forward, 208) + 490177
  {
    RowDIs();
    hide Weight, Forward;
    Eight(208);
    Eight(216);
  }

  lemma RowEIs()
    ensures forall x | 224 <= x < 240 :: Forward(x) == ForwardRowE(x - 224)
  {}

  lemma RowEWeighs()
    ensures Weight(Forward, 240) == Weight(Forward, 224) + 350444
  {
    RowEIs();
    hide Weight, Forward;
    Eight(224);
    Eight(232);
  }

  lemma RowFIs()
    ensures forall x | 240 <= x < 256 :: Forward(x) == ForwardRowF(x - 240)
  {}

  lemma RowFWeighs()
    ensures Weight(Forward, 256) == Weight(Forward, 240) + 416133
  {
    RowFIs();
    hide Weight, Forward;
    Eight(240);
    Eight(248);
  }

  // The weight of the substitution table: no exchange of two of its entries leaves it.
  lemma TableWeight()
    ensures Weight(Forward, 256) == 4082100
  {
    hide Forward;
    Nothing();
    hide Weight;
    Row0Weighs(); Row1Weighs(); Row2Weighs(); Row3Weighs(); Row4Weighs(); Row5Weighs(); Row6Weighs(); Row7Weighs();
    Row8Weighs(); Row9Weighs(); RowAWeighs(); RowBWeighs(); RowCWeighs(); RowDWeighs(); RowEWeighs(); RowFWeighs();
  }

  lemma Nothing()
    ensures Weight(Forward, 0) == 0
  {}
}
