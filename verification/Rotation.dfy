/** The rotation counter behind the relay servers, as arithmetic: a shared 64-bit word, taken modulo the
    length of the caller's list. */
module Rotation {

  const WRAP := 0x1_0000_0000_0000_0000

  /** `fetch_add(1)` on the word. */
  function Next(counter: nat): nat {
    if counter + 1 < WRAP then counter + 1 else 0
  }

  /** How often position `p` comes up in the next `m` calls on a list of length `n`. */
  function Hits(counter: nat, n: nat, m: nat, p: nat): nat
    requires n > 0
    decreases m
  {
    if m == 0 then 0 else (if counter % n == p then 1 else 0) + Hits(Next(counter), n, m - 1, p)
  }

  lemma MulGap(a: int, b: int, n: nat)
    requires a < b
    ensures a * n + n <= b * n
  {
    var k: nat := b - a - 1;
    assert k * n >= 0;
    assert b == a + 1 + k;
    assert b * n == a * n + n + k * n;
  }

  lemma ModIs(x: nat, n: nat, q: int, r: nat)
    requires n > 0 && r < n && x == q * n + r
    ensures x % n == r && x / n == q
  {
    var q' := x / n;
    assert x == q' * n + x % n;
    if q' < q {
      MulGap(q', q, n);
    } else if q < q' {
      MulGap(q, q', n);
    }
  }

  lemma NextMod(c: nat, n: nat)
    requires n > 0
    ensures (c + 1) % n == if c % n + 1 < n then c % n + 1 else 0
  {
    var (q, r) := (c / n, c % n);
    if r + 1 < n {
      ModIs(c + 1, n, q, r + 1);
    } else {
      assert (q + 1) * n == q * n + n;
      ModIs(c + 1, n, q + 1, 0);
    }
  }

  /** Calls still to go before position `p` comes up, when position `r` is next. */
  function Wait(r: nat, n: nat, p: nat): nat
    requires p < n && r < n
  {
    if r <= p then p - r else p + n - r
  }

  lemma {:induction false} HitsInOneRound(c: nat, n: nat, m: nat, p: nat)
    requires p < n && m <= n && c + m <= WRAP
    ensures Hits(c, n, m, p) == if Wait(c % n, n, p) < m then 1 else 0
    decreases m
  {
    if m <= 1 {
    } else {
      NextMod(c, n);
      HitsInOneRound(c + 1, n, m - 1, p);
    }
  }

  /** The counter after `a` calls. */
  function After(c: nat, a: nat): nat
    requires c + a < 2 * WRAP
  {
    if c + a < WRAP then c + a else c + a - WRAP
  }

  lemma {:induction false} HitsSplit(c: nat, n: nat, a: nat, b: nat, p: nat)
    requires n > 0 && c < WRAP && a <= WRAP
    ensures Hits(c, n, a + b, p) == Hits(c, n, a, p) + Hits(After(c, a), n, b, p)
    decreases a
  {
    if a == 0 {
    } else {
      HitsSplit(Next(c), n, a - 1, b, p);
    }
  }

  function Ceil(m: nat, n: nat): nat
    requires n > 0
  {
    if m % n == 0 then m / n else m / n + 1
  }

  lemma OneRoundLess(m: nat, n: nat)
    requires n > 0 && m >= n
    ensures m / n == (m - n) / n + 1 && Ceil(m, n) == Ceil(m - n, n) + 1
  {
    var (q, r) := ((m - n) / n, (m - n) % n);
    assert (q + 1) * n == q * n + n;
    ModIs(m, n, q + 1, r);
  }

  /** Every position of a fixed list comes up floor(m/n) or ceil(m/n) times in any m
      consecutive calls that do not wrap the counter. */
  lemma {:induction false} RotationIsFair(c: nat, n: nat, m: nat, p: nat)
    requires n >= 2 && p < n && c + m <= WRAP
    ensures m / n <= Hits(c, n, m, p) <= Ceil(m, n)
    decreases m
  {
    if m < n {
      ModIs(m, n, 0, m);
      HitsInOneRound(c, n, m, p);
    } else {
      HitsInOneRound(c, n, n, p);
      HitsSplit(c, n, n, m - n, p);
      OneRoundLess(m, n);
      if m > n {
        RotationIsFair(c + n, n, m - n, p);
      } else {
        ModIs(0, n, 0, 0);
      }
    }
  }

  /** Over the wrap the two sides are fair separately. */
  lemma FairAcrossTheWrap(c: nat, n: nat, before: nat, after: nat, p: nat)
    requires n >= 2 && p < n && c < WRAP && c + before == WRAP && after <= WRAP
    ensures before / n + after / n <= Hits(c, n, before + after, p) <= Ceil(before, n) + Ceil(after, n)
  {
    HitsSplit(c, n, before, after, p);
    RotationIsFair(c, n, before, p);
    RotationIsFair(0, n, after, p);
  }

  // ---------- Every position comes up ----------

  /** Calls until position `p` comes up, over the wrap if need be. */
  function UntilTurn(c: nat, n: nat, p: nat): nat
    requires p < n && c < WRAP
  {
    var w := Wait(c % n, n, p);
    if c + w < WRAP then w else WRAP - c + p
  }

  lemma TurnComes(c: nat, n: nat, p: nat)
    requires p < n < WRAP && c < WRAP
    ensures var m := UntilTurn(c, n, p); m <= 2 * WRAP - c && c + m < 2 * WRAP && After(c, m) % n == p
  {
    var (q, r) := (c / n, c % n);
    if c + Wait(r, n, p) >= WRAP {
      ModIs(p, n, 0, p);
    } else if r <= p {
      ModIs(c + (p - r), n, q, p);
    } else {
      assert (q + 1) * n == q * n + n;
      ModIs(c + (p + n - r), n, q + 1, p);
    }
  }
}
