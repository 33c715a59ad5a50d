// Laws of the arithmetic shifts, proved by halving.
module Shifts {
  import opened G72x

  lemma PStep(n: nat)
    requires n < 18
    ensures P(n + 1) == 2 * P(n)
  {}

  lemma {:induction false} LslOne(n: nat)
    requires n <= 18
    ensures Lsl(1, n) == P(n)
  {
    if n > 0 {
      LslOne(n - 1);
      PStep(n - 1);
    }
  }

  lemma {:induction false} LslAdd(x: int, i: nat, j: nat)
    ensures Lsl(Lsl(x, i), j) == Lsl(x, i + j)
  {
    if j > 0 {
      LslAdd(x, i, j - 1);
    }
  }

  lemma {:induction false} LslTimes(x: int, n: nat)
    requires n <= 18
    ensures Lsl(x, n) == x * P(n)
  {
    if n > 0 {
      LslTimes(x, n - 1);
      PStep(n - 1);
      assert x * (2 * P(n - 1)) == 2 * (x * P(n - 1));
    }
  }

  lemma {:induction false} LslMonotone(x: int, y: int, n: nat)
    requires x <= y
    ensures Lsl(x, n) <= Lsl(y, n) && (x < y ==> Lsl(x, n) < Lsl(y, n))
    decreases n
  {
    if n > 0 {
      LslMonotone(x, y, n - 1);
    }
  }

  lemma {:induction false} AsrMonotone(x: int, y: int, n: nat)
    requires x <= y
    ensures Asr(x, n) <= Asr(y, n)
    decreases n
  {
    if n > 0 {
      AsrMonotone(x / 2, y / 2, n - 1);
    }
  }

  lemma {:induction false} LslGrows(x: int, n: nat)
    requires x >= 0
    ensures Lsl(x, n) >= x
  {
    if n > 0 {
      LslGrows(x, n - 1);
    }
  }

  // A quotient lies between bounds when the dividend lies between their multiples.
  lemma {:induction false} AsrBetween(x: int, n: nat, lo: int, hi: int)
    requires Lsl(lo, n) <= x < Lsl(hi, n)
    ensures lo <= Asr(x, n) < hi
    decreases n
  {
    if n > 0 {
      AsrBetween(x / 2, n - 1, lo, hi);
    }
  }

  lemma {:induction false} AsrShrinks(x: int, n: nat)
    requires 0 <= x
    ensures 0 <= Asr(x, n) <= x
    decreases n
  {
    if n > 0 {
      AsrShrinks(x / 2, n - 1);
    }
  }

  // Shifting left by i and right by j leaves a shift by the difference.
  lemma {:induction false} AsrLsl(x: int, i: nat, j: nat)
    ensures Asr(Lsl(x, i), j) == if i >= j then Lsl(x, i - j) else Asr(x, j - i)
  {
    if i > 0 && j > 0 {
      AsrLsl(x, i - 1, j - 1);
    }
  }

  // A number whose leading bit is bit e, brought to leading bit k.
  lemma Normalise(m: int, e: nat, k: nat)
    requires Lsl(1, e) <= m < Lsl(1, e + 1)
    ensures Lsl(1, k) <= Asr(Lsl(m, k), e) < Lsl(1, k + 1)
  {
    hide Lsl, Asr;
    LslAdd(1, k, e);
    LslAdd(1, k + 1, e);
    LslAdd(1, e, k);
    LslAdd(1, e + 1, k);
    LslMonotone(Lsl(1, e), m, k);
    LslMonotone(m, Lsl(1, e + 1), k);
    AsrBetween(Lsl(m, k), e, Lsl(1, k), Lsl(1, k + 1));
  }

  // What a right shift by n drops.
  function Dropped(x: int, n: nat): int {
    x - Lsl(Asr(x, n), n)
  }

  lemma {:induction false} DroppedRange(x: int, n: nat)
    ensures 0 <= Dropped(x, n) < Lsl(1, n)
    decreases n
  {
    if n > 0 {
      DroppedRange(x / 2, n - 1);
      assert Dropped(x, n) == x - 2 * Lsl(Asr(x / 2, n - 1), n - 1);
    }
  }
}
