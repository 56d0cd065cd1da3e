/** Integer division rounded down and up, what each rounding promises, and integer intervals. */
module Rounding {
  const U64: nat := 0xFFFF_FFFF_FFFF_FFFF
  const U128: nat := 0xFFFF_FFFF_FFFF_FFFF_FFFF_FFFF_FFFF_FFFF

  function CeilDiv(n: nat, d: nat): nat
    requires d > 0
  {
    if n % d == 0 then n / d else n / d + 1
  }

  lemma FloorBounds(n: nat, d: nat)
    requires d > 0
    ensures (n / d) * d <= n < (n / d) * d + d
  {
    assert n == (n / d) * d + n % d;
  }

  lemma CeilBounds(n: nat, d: nat)
    requires d > 0
    ensures n <= CeilDiv(n, d) * d < n + d
  {
    FloorBounds(n, d);
    assert (n / d + 1) * d == (n / d) * d + d;
  }

  lemma MulLe(a: int, b: int, c: nat)
    requires a <= b
    ensures a * c <= b * c
  {
    assert b * c == a * c + (b - a) * c;
  }

  /** Multiplying by something positive loses no order. */
  lemma CancelLe(a: int, b: int, c: nat)
    requires c > 0 && a * c <= b * c
    ensures a <= b
  {
    if a > b {
      MulLt(b, a, c);
    }
  }

  lemma MulLt(a: int, b: int, c: nat)
    requires a < b && c > 0
    ensures a * c < b * c
  {
    assert b * c == a * c + (b - a) * c;
    assert (b - a) * c >= c by {
      MulLe(1, b - a, c);
    }
  }

  lemma FloorLe(n: nat, d: nat, k: nat)
    requires d > 0 && n <= k * d
    ensures n / d <= k
  {
    FloorBounds(n, d);
    CancelLe(n / d, k, d);
  }

  lemma FloorGe(n: nat, d: nat, k: nat)
    requires d > 0 && k * d <= n
    ensures k <= n / d
  {
    FloorBounds(n, d);
    assert (n / d + 1) * d == (n / d) * d + d;
    if n / d < k {
      MulLe(n / d + 1, k, d);
    }
  }

  lemma FloorMonotone(m: nat, n: nat, d: nat)
    requires d > 0 && m <= n
    ensures m / d <= n / d
  {
    FloorBounds(m, d);
    FloorGe(n, d, m / d);
  }

  lemma CeilLe(n: nat, d: nat, k: nat)
    requires d > 0 && n <= k * d
    ensures CeilDiv(n, d) <= k
  {
    CeilBounds(n, d);
    assert (k + 1) * d == k * d + d;
    if CeilDiv(n, d) > k {
      MulLe(k + 1, CeilDiv(n, d), d);
    }
  }

  /** `q` is `n` over `d` rounded down, said by its bounds. */
  predicate RoundsDown(n: int, d: nat, q: nat) {
    q * d <= n < q * d + d
  }

  /** `q` is `n` over `d` rounded up, said by its bounds. */
  predicate RoundsUp(n: int, d: nat, q: nat) {
    n <= q * d < n + d
  }

  lemma DownIsFloor(n: nat, d: nat)
    requires d > 0
    ensures RoundsDown(n, d, n / d)
  {
    FloorBounds(n, d);
  }

  /** The bounds leave one number. */
  lemma DownOnce(n: nat, d: nat, a: nat, b: nat)
    requires d > 0 && RoundsDown(n, d, a) && RoundsDown(n, d, b)
    ensures a == b
  {
    assert (a + 1) * d == a * d + d && (b + 1) * d == b * d + d;
    if a < b {
      MulLe(a + 1, b, d);
    } else if b < a {
      MulLe(b + 1, a, d);
    }
  }

  /** The integers from `a` up to, not including, `b`. */
  function Interval(a: nat, b: nat): (s: set<int>)
    requires a <= b
    ensures |s| == b - a && forall w :: w in s <==> a <= w < b
    decreases b
  {
    if a == b then {} else Interval(a, b - 1) + {b - 1}
  }
}
