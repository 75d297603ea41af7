/**
  What the calendar searches promise, stated without their loops.

  A schedule is a set of slots, a numbering of periods (days, weeks or months) and an interval.  A
  search started at `from` must return the least later slot in a period whose number is congruent
  to that of `from` modulo the interval, or zero when there is none.
*/
module Grids {
  import opened Times

  datatype Grid = Grid(slot: Time -> bool, period: Time -> int, interval: int)
  {
    ghost predicate Valid() {
      interval > 0 && forall a, b :: a <= b ==> period(a) <= period(b)
    }
  }

  ghost predicate Candidate(g: Grid, from: Time, t: Time)
    requires g.interval > 0
  {
    t > from && g.slot(t) && g.period(t) % g.interval == g.period(from) % g.interval
  }

  ghost predicate IsNext(g: Grid, from: Time, r: Time)
    requires g.interval > 0
  {
    if r == ZERO then forall t :: !Candidate(g, from, t)
    else Candidate(g, from, r) && forall t :: Candidate(g, from, t) ==> r <= t
  }

  /** The instants a job passes through when every search starts at the previous answer. */
  ghost predicate Iterates(g: Grid, xs: seq<Time>)
    requires g.interval > 0
  {
    && |xs| > 0
    && forall i :: 0 < i < |xs| ==> Follows(g, xs, i)
  }

  ghost predicate Follows(g: Grid, xs: seq<Time>, i: int)
    requires g.interval > 0 && 0 < i < |xs|
  {
    xs[i] != ZERO && IsNext(g, xs[i - 1], xs[i])
  }

  /** Iterating goes strictly up, never leaves the class, and meets every slot of it on the way. */
  lemma {:induction false} IterationEnumerates(g: Grid, xs: seq<Time>)
    requires g.interval > 0 && Iterates(g, xs)
    ensures Ascending(xs)
    ensures forall t :: t in xs[1..] <==> Candidate(g, xs[0], t) && t <= xs[|xs| - 1]
  {
    if |xs| == 1 {
      assert xs[1..] == [];
    } else {
      var n := |xs| - 1;
      var ys := xs[..n];
      forall i | 0 < i < n ensures Follows(g, ys, i) {
        assert Follows(g, xs, i);
      }
      IterationEnumerates(g, ys);
      assert Follows(g, xs, n);
      var last := ys[n - 1];
      assert n > 1 ==> last in ys[1..];
      assert g.period(last) % g.interval == g.period(xs[0]) % g.interval && xs[0] <= last < xs[n];
      assert xs[1..] == ys[1..] + [xs[n]];
      assert Ascending(xs) by {
        AppendAscending(ys, xs[n]);
        assert xs == ys + [xs[n]];
      }
      forall t ensures t in xs[1..] <==> Candidate(g, xs[0], t) && t <= xs[n] {
        if t > last && Candidate(g, xs[0], t) {
          assert Candidate(g, last, t);
        }
      }
    }
  }

  /** No slot is out of reach: iterating far enough passes any candidate of the starting point. */
  lemma EveryCandidateIsReached(g: Grid, xs: seq<Time>, t: Time)
    requires g.interval > 0 && Iterates(g, xs) && Candidate(g, xs[0], t)
    requires |xs| > t - xs[0]
    ensures t in xs
  {
    IterationEnumerates(g, xs);
    AscendingGrows(xs);
    assert t in xs[1..];
  }

  lemma {:induction false} AscendingGrows(xs: seq<Time>)
    requires Ascending(xs) && |xs| > 0
    ensures xs[|xs| - 1] >= xs[0] + |xs| - 1
  {
    if |xs| > 1 {
      var n := |xs| - 1;
      AscendingGrows(xs[..n]);
      assert xs[n - 1] < xs[n];
    }
  }

  /** The search says zero only when iteration has already met every slot of the class. */
  lemma ExhaustedMeansComplete(g: Grid, xs: seq<Time>)
    requires g.interval > 0 && Iterates(g, xs) && IsNext(g, xs[|xs| - 1], ZERO)
    ensures forall t :: Candidate(g, xs[0], t) ==> t in xs
  {
    IterationEnumerates(g, xs);
    var last := xs[|xs| - 1];
    assert |xs| > 1 ==> last in xs[1..];
    forall t | Candidate(g, xs[0], t) ensures t in xs {
      assert !Candidate(g, last, t);
      assert t in xs[1..];
    }
  }

  // ---- Searching period by period ----

  /** The least slot after `from` inside period `p`, or zero when that period has none. */
  ghost predicate LeastIn(g: Grid, p: int, from: Time, r: Time) {
    if r == ZERO then forall t :: g.slot(t) && g.period(t) == p ==> t <= from
    else
      && r > from && g.slot(r) && g.period(r) == p
      && forall t :: g.slot(t) && g.period(t) == p && t > from ==> r <= t
  }

  /** Every candidate lies in period `p` or later. */
  ghost predicate NoneBefore(g: Grid, from: Time, p: int)
    requires g.interval > 0
  {
    forall t :: Candidate(g, from, t) ==> g.period(t) >= p
  }

  /** The search has got to period `p`, which is in the class of `from`. */
  ghost predicate Reached(g: Grid, from: Time, p: int)
    requires g.interval > 0
  {
    NoneBefore(g, from, p) && p % g.interval == g.period(from) % g.interval
  }

  lemma StartHere(g: Grid, from: Time)
    requires g.Valid()
    ensures Reached(g, from, g.period(from))
  {
  }

  /** A slot found in the period ends the search; otherwise the next period of the class is an interval on. */
  lemma ConcludePeriod(g: Grid, from: Time, p: int, r: Time)
    requires g.Valid() && Reached(g, from, p) && LeastIn(g, p, from, r)
    ensures if r == ZERO then Reached(g, from, p + g.interval) else IsNext(g, from, r)
  {
    if r == ZERO {
      forall t | Candidate(g, from, t) ensures g.period(t) >= p + g.interval {
        NextInClass(g.period(t), p, g.interval);
      }
      AddMultiple(p, 1, g.interval);
    } else {
      assert Candidate(g, from, r);
      forall t | Candidate(g, from, t) ensures r <= t {
        assert g.period(t) == p || g.period(t) > g.period(r);
      }
    }
  }

  // ---- Residues ----

  lemma NextInClass(a: int, b: int, n: int)
    requires n > 0 && a % n == b % n && a > b
    ensures a >= b + n
  {
    SameResidue(a, b, n);
    var k :| a - b == k * n;
    if k <= 0 {
      MulMonotone(k, 0, n);
    } else {
      MulMonotone(1, k, n);
    }
  }

  lemma SameResidue(a: int, b: int, n: int)
    requires n > 0
    ensures a % n == b % n <==> exists k :: a - b == k * n
  {
    if a % n == b % n {
      var k := a / n - b / n;
      assert a == (a / n) * n + a % n && b == (b / n) * n + b % n;
      assert a - b == k * n by { Distribute(a / n, b / n, n); }
    }
    if exists k :: a - b == k * n {
      var k :| a - b == k * n;
      AddMultiple(b, k, n);
    }
  }

  lemma Distribute(a: int, b: int, n: int)
    ensures (a - b) * n == a * n - b * n
    ensures (a + b) * n == a * n + b * n
  {
  }

  lemma AddMultiple(b: int, k: int, n: int)
    requires n > 0
    ensures (b + k * n) % n == b % n
  {
    var q, r := b / n, b % n;
    Distribute(q, k, n);
    assert b + k * n == (q + k) * n + r;
    DivModUnique(b + k * n, q + k, r, n);
  }

  lemma DivModUnique(a: int, q: int, r: int, n: int)
    requires n > 0 && a == q * n + r && 0 <= r < n
    ensures a / n == q && a % n == r
  {
    QuotientUnique(q, r, a / n, a % n, n);
  }

  lemma QuotientUnique(q: int, r: int, q': int, r': int, n: int)
    requires q * n + r == q' * n + r' && 0 <= r < n && 0 <= r' < n
    ensures q == q'
  {
    if q < q' { MulMonotone(q + 1, q', n); }
    if q > q' { MulMonotone(q' + 1, q, n); }
  }

  lemma MulMonotone(a: int, b: int, n: int)
    requires a <= b && n >= 0
    ensures a * n <= b * n
  {
  }
}
