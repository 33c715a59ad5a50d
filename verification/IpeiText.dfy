// The printed form of an IPEI (ETSI EN 300 175-6, annex C): five digits of manufacturer code, seven of
// serial number, and a check digit over both, the weighted sum modulo eleven with '*' for ten.
module IpeiText {
  import opened Common
  import opened Identities

  // ----- Digits -----

  predicate IsDigit(c: char) {
    '0' <= c <= '9'
  }

  predicate Digits(s: string) {
    forall i | 0 <= i < |s| :: IsDigit(s[i])
  }

  function DigitChar(d: nat): (c: char)
    requires d < 10
    ensures IsDigit(c)
  {
    '0' + d as char
  }

  function DigitValue(c: char): int {
    c as int - '0' as int
  }

  // The n lowest decimal digits.
  function Decimal(x: nat, n: nat): (s: string)
    ensures |s| == n && Digits(s)
    decreases n
  {
    if n == 0 then "" else Decimal(x / 10, n - 1) + [DigitChar(x % 10)]
  }

  function Power10(n: nat): nat {
    if n == 0 then 1 else 10 * Power10(n - 1)
  }

  // The number of decimal digits of x, at least one.
  function Width(x: nat): nat {
    if x < 10 then 1 else 1 + Width(x / 10)
  }

  // %0nu: at least n digits, all that x needs.
  function Printed(x: nat, n: nat): string {
    Decimal(x, if Width(x) > n then Width(x) else n)
  }

  // The number a string of digits spells.
  function Value(s: string): int {
    if s == "" then 0 else 10 * Value(s[..|s| - 1]) + DigitValue(s[|s| - 1])
  }

  lemma {:induction false} DecimalValue(x: nat, n: nat)
    requires x < Power10(n)
    ensures Value(Decimal(x, n)) == x
    decreases n
  {
    if n > 0 {
      DecimalValue(x / 10, n - 1);
      assert Decimal(x, n)[..n - 1] == Decimal(x / 10, n - 1);
    }
  }

  lemma {:induction false} WidthFits(x: nat, n: nat)
    requires n > 0
    ensures x < Power10(n) <==> Width(x) <= n
    decreases n
  {
    if x < 10 {
      PowerGrows(n);
    } else if n > 1 {
      WidthFits(x / 10, n - 1);
    } else {
      assert Power10(1) == 10;
    }
  }

  lemma {:induction false} PowerGrows(n: nat)
    requires n > 0
    ensures Power10(n) >= 10
  {
    if n > 1 {
      PowerGrows(n - 1);
    } else {
      assert Power10(0) == 1;
    }
  }

  // ----- Check digit -----

  // The weighted sum of the first n characters, in 32 unsigned bits.
  function Sum(s: string, n: nat): nat
    requires n <= |s|
  {
    if n == 0 then 0 else (Sum(s, n - 1) + n * DigitValue(s[n - 1])) % 0x1_0000_0000
  }

  function CheckDigit(s: string, n: nat): char
    requires n <= |s|
  {
    var c := Sum(s, n) % 11;
    if c < 10 then DigitChar(c) else '*'
  }

  function Format(ipei: Ipei): string {
    var body := Printed(ipei.emc, 5) + Printed(ipei.psn, 7);
    body + [CheckDigit(body, |body|)]
  }

  method FormatString(ipei: Ipei) returns (buf: string)
    ensures buf == Format(ipei)
  {
    buf := Printed(ipei.emc, 5) + Printed(ipei.psn, 7);
    var len := |buf|;
    var c, i := 0, 0;
    while i < len
      invariant 0 <= i <= len && c == Sum(buf, i)
    {
      c := (c + (i + 1) * DigitValue(buf[i])) % 0x1_0000_0000;
      i := i + 1;
    }
    c := c % 11;
    if c < 10 {
      buf := buf + [DigitChar(c)];
    } else {
      buf := buf + ['*'];
    }
  }

  // ----- Parsing -----

  predicate IsSpace(c: char) {
    c == ' ' || c == '\t' || c == '\n' || c == '\r' || c == 11 as char || c == 12 as char
  }

  // Leading digits of s, at most n.
  function Run(s: string, n: nat): (k: nat)
    ensures k <= |s| && k <= n && Digits(s[..k])
    ensures k < |s| && k < n ==> !IsDigit(s[k])
  {
    if s == "" || n == 0 || !IsDigit(s[0]) then 0 else
      var k := 1 + Run(s[1..], n - 1);
      assert s[..k] == [s[0]] + s[1..][..k - 1];
      k
  }

  function SkipSpace(s: string): (r: string)
    ensures |r| <= |s|
    ensures s != "" && !IsSpace(s[0]) ==> r == s
  {
    if s != "" && IsSpace(s[0]) then SkipSpace(s[1..]) else s
  }

  // One unsigned conversion of at most n characters into the given number of values: white space,
  // an optional sign, digits. What it leaves follows.
  datatype Scanned = NoMatch | Match(value: nat, rest: string)

  function Scan(s: string, n: nat, size: nat): Scanned
    requires n > 0 && size > 0
  {
    var t := SkipSpace(s);
    if t != "" && (t[0] == '+' || t[0] == '-') then
      var k := Run(t[1..], n - 1);
      if k == 0 then NoMatch
      else Match((if t[0] == '-' then -Value(t[1..][..k]) else Value(t[1..][..k])) % size, t[1..][k..])
    else
      var k := Run(t, n);
      if k == 0 then NoMatch else Match(Value(t[..k]) % size, t[k..])
  }

  // The check digit is right.
  predicate Checked(s: string) {
    |s| == 13 && s[12] == CheckDigit(s, 12)
  }

  function Parse(s: string): Option<Ipei> {
    if !Checked(s) then None else
      match Scan(s, 5, 0x1_0000)
      case NoMatch => None
      case Match(emc, rest) =>
        match Scan(rest, 7, 0x1_0000_0000)
        case NoMatch => None
        case Match(psn, _) => Some(Ipei(emc, psn))
  }

  method ParseString(s: string) returns (r: Option<Ipei>)
    ensures r == Parse(s)
  {
    if |s| != 13 {
      return None;
    }
    var c, i := 0, 0;
    while i < 12
      invariant 0 <= i <= 12 && c == Sum(s, i)
    {
      c := (c + (i + 1) * DigitValue(s[i])) % 0x1_0000_0000;
      i := i + 1;
    }
    c := c % 11;
    if c < 10 {
      if s[12] != DigitChar(c) {
        return None;
      }
    } else if s[12] != '*' {
      return None;
    }
    var emc := Scan(s, 5, 0x1_0000);
    if emc.NoMatch? {
      return None;
    }
    var psn := Scan(emc.rest, 7, 0x1_0000_0000);
    if psn.NoMatch? {
      return None;
    }
    return Some(Ipei(emc.value, psn.value));
  }

  // ----- Round trip -----

  lemma {:induction false} RunWhole(s: string, n: nat)
    requires n <= |s| && Digits(s[..n])
    ensures Run(s, n) == n
  {
    if n > 0 {
      assert s[0] == s[..n][0] && IsDigit(s[..n][0]);
      assert s[1..][..n - 1] == s[..n][1..];
      RunWhole(s[1..], n - 1);
    }
  }

  lemma {:induction false} SumPrefix(s: string, t: string, n: nat)
    requires n <= |s| && n <= |t| && s[..n] == t[..n]
    ensures Sum(s, n) == Sum(t, n)
    decreases n
  {
    if n > 0 {
      assert s[n - 1] == s[..n][n - 1] == t[..n][n - 1] == t[n - 1];
      assert s[..n - 1] == s[..n][..n - 1] && t[..n - 1] == t[..n][..n - 1];
      SumPrefix(s, t, n - 1);
    }
  }

  // A conversion of n digits reads exactly them.
  lemma ScanDigits(s: string, n: nat, size: nat)
    requires 0 < n <= |s| && size > 0 && Digits(s[..n])
    ensures Scan(s, n, size) == Match(Value(s[..n]) % size, s[n..])
  {
    assert s[0] == s[..n][0] && IsDigit(s[..n][0]);
    RunWhole(s, n);
  }

  lemma TenMillion()
    ensures Power10(5) == 100000 && Power10(7) == 10000000
  {}

  lemma Widths(ipei: Ipei)
    requires ipei.emc < 0x1_0000
    ensures Width(ipei.emc) <= 5 && (Width(ipei.psn) <= 7 <==> ipei.psn < 10000000)
    ensures ipei.emc < Power10(5) && (ipei.psn < Power10(7) <==> ipei.psn < 10000000)
  {
    TenMillion();
    WidthFits(ipei.emc, 5);
    WidthFits(ipei.psn, 7);
  }

  lemma FormatShape(ipei: Ipei)
    requires Width(ipei.emc) <= 5 && Width(ipei.psn) <= 7
    ensures var s := Format(ipei);
            Checked(s) && s[..5] == Decimal(ipei.emc, 5) && s[5..][..7] == Decimal(ipei.psn, 7)
  {
    hide Power10, Width, Decimal, Sum;
    var s := Format(ipei);
    var a, b := Decimal(ipei.emc, 5), Decimal(ipei.psn, 7);
    assert s[..12] == a + b;
    SumPrefix(s, a + b, 12);
  }

  // Reading back what was printed gives the same identity exactly if its serial number has at most
  // seven digits; a longer one makes a text that is refused.
  lemma TextRoundTrip(ipei: Ipei)
    requires ipei.emc < 0x1_0000 && ipei.psn < 0x1_0000_0000
    ensures Parse(Format(ipei)) == Some(ipei) <==> ipei.psn < 10000000
    ensures ipei.psn >= 10000000 ==> Parse(Format(ipei)) == None
  {
    Widths(ipei);
    hide Power10, Width, Parse, Format;
    if ipei.psn < 10000000 {
      ShortParsed(ipei);
    } else {
      LongRefused(ipei);
    }
  }

  lemma LongRefused(ipei: Ipei)
    requires Width(ipei.psn) > 7
    ensures Parse(Format(ipei)) == None
  {
    hide Width, Decimal, CheckDigit, Scan;
    var s := Format(ipei);
    assert |s| > 13;
  }

  lemma ShortParsed(ipei: Ipei)
    requires Width(ipei.emc) <= 5 && Width(ipei.psn) <= 7
    requires ipei.emc < 0x1_0000 && ipei.psn < 0x1_0000_0000 && ipei.emc < Power10(5) && ipei.psn < Power10(7)
    ensures Parse(Format(ipei)) == Some(ipei)
  {
    hide Power10, Width, Decimal, Scan, CheckDigit, Value, Format, Checked, Digits;
    var s := Format(ipei);
    FormatShape(ipei);
    Refused(s);
    ScanDigits(s, 5, 0x1_0000);
    ScanDigits(s[5..], 7, 0x1_0000_0000);
    DecimalValue(ipei.emc, 5);
    DecimalValue(ipei.psn, 7);
  }

  // ----- Error detection -----

  // The weighted sum without the wrap that digits never reach.
  function Weighted(s: string, n: nat): int
    requires n <= |s|
  {
    if n == 0 then 0 else Weighted(s, n - 1) + n * DigitValue(s[n - 1])
  }

  lemma {:induction false} SumIsWeighted(s: string, n: nat)
    requires n <= |s| && n <= 12 && Digits(s[..n])
    ensures 0 <= Weighted(s, n) <= 108 * n && Sum(s, n) == Weighted(s, n)
    decreases n
  {
    if n > 0 {
      assert s[n - 1] == s[..n][n - 1] && IsDigit(s[..n][n - 1]);
      assert s[..n - 1] == s[..n][..n - 1];
      SumIsWeighted(s, n - 1);
      var d := DigitValue(s[n - 1]);
      assert 0 <= n * d <= 108 by {
        Product(n, d);
      }
    }
  }

  lemma Product(n: nat, d: int)
    requires n <= 12 && 0 <= d <= 9
    ensures 0 <= n * d <= 108
  {}

  // Replacing one character shifts the sum by its weight times the difference.
  lemma {:induction false} WeightedChange(s: string, i: nat, c: char, n: nat)
    requires i < |s| && n <= |s|
    ensures Weighted(s[i := c], n) ==
            Weighted(s, n) + (if i < n then (i + 1) * (DigitValue(c) - DigitValue(s[i])) else 0)
    decreases n
  {
    if n > 0 {
      WeightedChange(s, i, c, n - 1);
      hide Weighted;
      WeightedStep(s, n);
      WeightedStep(s[i := c], n);
      if i == n - 1 {
        Distribute(n, DigitValue(c), DigitValue(s[i]));
      }
    }
  }

  lemma WeightedStep(s: string, n: nat)
    requires 0 < n <= |s|
    ensures Weighted(s, n) == Weighted(s, n - 1) + n * DigitValue(s[n - 1])
  {}

  lemma Distribute(n: int, a: int, b: int)
    ensures n * (a - b) == n * a - n * b
  {}

  // Two texts of digits with the same check character pass together exactly if their sums agree modulo eleven.
  lemma SameCheck(s: string, t: string)
    requires |s| == 13 && |t| == 13 && s[12] == t[12] && Digits(s[..12]) && Digits(t[..12]) && Checked(s)
    ensures Checked(t) <==> (Weighted(t, 12) - Weighted(s, 12)) % 11 == 0
  {
    SumIsWeighted(s, 12);
    SumIsWeighted(t, 12);
    hide Weighted, Sum;
    var a, b := Sum(s, 12), Sum(t, 12);
    Congruent(a, b);
    assert DigitChar(1) != '*';
    assert CheckDigit(s, 12) == CheckDigit(t, 12) <==> a % 11 == b % 11;
  }

  lemma Congruent(a: int, b: int)
    ensures (b - a) % 11 == 0 <==> a % 11 == b % 11
  {}

  lemma MultipleOfEleven(w: nat, d: int)
    requires 1 <= w <= 12 && -9 <= d <= 9 && d != 0
    ensures w * d % 11 == 0 <==> w == 11
  {
    match w
    case 1 => case 2 => case 3 => case 4 => case 5 => case 6 =>
    case 7 => case 8 => case 9 => case 10 => case 11 => case _ =>
  }

  lemma DigitsApart(c: char, d: char)
    requires IsDigit(c) && IsDigit(d) && c != d
    ensures var x := DigitValue(c) - DigitValue(d); -9 <= x <= 9 && x != 0
  {}

  lemma DigitsSet(s: string, i: nat, c: char)
    requires |s| == 13 && i < 12 && Digits(s[..12]) && IsDigit(c)
    ensures Digits(s[i := c][..12]) && IsDigit(s[i])
  {
    assert IsDigit(s[..12][i]);
    var t := s[i := c][..12];
    forall k | 0 <= k < |t|
      ensures IsDigit(t[k])
    {
      assert IsDigit(s[..12][k]);
    }
  }

  lemma Refused(s: string)
    ensures !Checked(s) ==> Parse(s) == None
    ensures Checked(s) ==> |s| == 13
  {}

  // Changing one digit of a valid text is detected exactly if it is not the eleventh.
  lemma ChangeDetected(s: string, i: nat, c: char)
    requires Checked(s) && Digits(s[..12]) && i < 12 && IsDigit(c) && c != s[i]
    ensures Checked(s[i := c]) <==> i == 10
    ensures i != 10 ==> Parse(s[i := c]) == None
  {
    hide Weighted, Checked, Digits, DigitValue, Parse, IsDigit;
    Refused(s);
    DigitsSet(s, i, c);
    var t := s[i := c];
    SameCheck(s, t);
    WeightedChange(s, i, c, 12);
    DigitsApart(c, s[i]);
    MultipleOfEleven(i + 1, DigitValue(c) - DigitValue(s[i]));
    Refused(t);
  }

  lemma SwapShift(w: int, a: int, b: int)
    requires -9 <= a - b <= 9 && a != b
    ensures (w * (b - a) + (w + 1) * (a - b)) % 11 != 0
  {
    Distribute(w, b, a);
    Distribute(w, a, b);
    assert (w + 1) * (a - b) == w * (a - b) + (a - b);
    assert w * (b - a) + (w + 1) * (a - b) == a - b;
  }

  // Exchanging two different neighbouring digits is always detected.
  lemma SwapDetected(s: string, i: nat)
    requires Checked(s) && Digits(s[..12]) && i < 11 && s[i] != s[i + 1]
    ensures Parse(s[i := s[i + 1]][i + 1 := s[i]]) == None
  {
    hide Weighted, Checked, Digits, DigitValue, Parse, IsDigit;
    Refused(s);
    DigitsAt(s, i);
    DigitsAt(s, i + 1);
    var u := s[i := s[i + 1]];
    DigitsSet(s, i, s[i + 1]);
    DigitsSet(u, i + 1, s[i]);
    var t := u[i + 1 := s[i]];
    SameCheck(s, t);
    WeightedChange(s, i, s[i + 1], 12);
    WeightedChange(u, i + 1, s[i], 12);
    var a, b := DigitValue(s[i]), DigitValue(s[i + 1]);
    DigitsApart(s[i], s[i + 1]);
    SwapShift(i + 1, a, b);
    Refused(t);
  }

  lemma DigitsAt(s: string, i: nat)
    requires |s| == 13 && i < 12 && Digits(s[..12])
    ensures IsDigit(s[i])
  {
    assert IsDigit(s[..12][i]);
  }
}
