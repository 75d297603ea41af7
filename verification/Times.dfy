/** Instants and the helpers of util.go on ordered lists of them. */
module Times {

  /** Nanoseconds since Go's zero time, which is therefore 0 and lies before every real instant. */
  type Time = int

  const ZERO: Time := 0

  datatype Option<T> = None | Some(value: T)

  ghost predicate Sorted(s: seq<int>) {
    forall i, j :: 0 <= i < j < |s| ==> s[i] <= s[j]
  }

  ghost predicate Ascending(s: seq<int>) {
    forall i, j :: 0 <= i < j < |s| ==> s[i] < s[j]
  }

  /** Linear search for the first position holding at least `t`. */
  function LowerBound(s: seq<int>, t: int): (k: nat)
    ensures k <= |s|
    ensures k < |s| ==> s[k] >= t
    ensures forall i :: 0 <= i < k ==> s[i] < t
  {
    if s == [] || t <= s[0] then 0 else 1 + LowerBound(s[1..], t)
  }

  /** slices.BinarySearchFunc finds what linear search finds. */
  method BinarySearch(s: seq<int>, t: int) returns (index: nat, found: bool)
    requires Sorted(s)
    ensures index == LowerBound(s, t)
    ensures found <==> t in s
    ensures found <==> index < |s| && s[index] == t
  {
    var i, j := 0, |s|;
    while i < j
      invariant 0 <= i <= j <= |s|
      invariant forall k :: 0 <= k < i ==> s[k] < t
      invariant forall k :: j <= k < |s| ==> s[k] >= t
    {
      var h := (i + j) / 2;
      if s[h] < t {
        i := h + 1;
      } else {
        j := h;
      }
    }
    index, found := i, i < |s| && s[i] == t;
  }

  function Inserted(s: seq<int>, k: nat, t: int): seq<int>
    requires k <= |s|
  {
    s[..k] + [t] + s[k..]
  }

  method InsertNextScheduled(times: seq<Time>, t: Time) returns (r: seq<Time>)
    requires Sorted(times)
    ensures r == Inserted(times, LowerBound(times, t), t)
  {
    var index, _ := BinarySearch(times, t);
    r := Inserted(times, index, t);
  }

  lemma InsertedElements(s: seq<int>, k: nat, t: int)
    requires k <= |s|
    ensures multiset(Inserted(s, k, t)) == multiset(s) + multiset{t}
    ensures forall x :: x in Inserted(s, k, t) <==> x == t || x in s
  {
    assert s == s[..k] + s[k..];
    assert t in Inserted(s, k, t) by { assert Inserted(s, k, t)[k] == t; }
  }

  lemma InsertedSorted(s: seq<int>, t: int)
    requires Sorted(s)
    ensures Sorted(Inserted(s, LowerBound(s, t), t))
  {
    var k := LowerBound(s, t);
    assert forall i :: k <= i < |s| ==> s[i] >= t;
  }

  lemma InsertedAscending(s: seq<int>, t: int)
    requires Ascending(s) && t !in s
    ensures Ascending(Inserted(s, LowerBound(s, t), t))
  {
    var k := LowerBound(s, t);
    var r := Inserted(s, k, t);
    forall i, j | 0 <= i < j < |r| ensures r[i] < r[j] {
      AscendingFrom(s, k, t);
      if i < k < j { assert s[i] < t < s[j - 1]; }
    }
  }

  lemma AscendingFrom(s: seq<int>, k: nat, t: int)
    requires Ascending(s) && t !in s && k <= |s| && (k < |s| ==> s[k] >= t)
    ensures forall i :: k <= i < |s| ==> s[i] > t
  {
  }

  /** An instant beyond every listed one is simply appended. */
  lemma InsertedLast(s: seq<int>, t: int)
    requires forall i :: 0 <= i < |s| ==> s[i] < t
    ensures Inserted(s, LowerBound(s, t), t) == s + [t]
  {
    assert LowerBound(s, t) == |s|;
  }

  method NextScheduledContains(times: seq<Time>, t: Time) returns (found: bool)
    requires Sorted(times)
    ensures found <==> t in times
  {
    var _, f := BinarySearch(times, t);
    found := f;
  }

  /** The latest entry at or before the start, or the earliest entry when there is none. */
  method ScheduledTimeForRun(times: seq<Time>, actualStart: Time) returns (t: Time)
    requires Sorted(times) && times != []
    ensures t in times
    ensures actualStart < times[0] ==> t == times[0]
    ensures times[0] <= actualStart ==> t <= actualStart
    ensures times[0] <= actualStart ==> forall i :: 0 <= i < |times| && times[i] <= actualStart ==> times[i] <= t
  {
    var index, found := BinarySearch(times, actualStart);
    if found {
      return times[index];
    }
    if index > 0 {
      return times[index - 1];
    }
    return times[0];
  }

  /** The entries still to come, in their order: what pruneStaleScheduled keeps. */
  function Upcoming(times: seq<Time>, now: Time): (r: seq<Time>)
    ensures forall t :: t in r <==> t in times && t > now
  {
    if times == [] then []
    else if times[0] > now then [times[0]] + Upcoming(times[1..], now)
    else Upcoming(times[1..], now)
  }

  lemma {:induction false} UpcomingStep(times: seq<Time>, t: Time, now: Time)
    ensures Upcoming(times + [t], now) == Upcoming(times, now) + if t > now then [t] else []
  {
    if times == [] {
      assert times + [t] == [t];
    } else {
      assert (times + [t])[1..] == times[1..] + [t];
      UpcomingStep(times[1..], t, now);
    }
  }

  /** Pruning an ascending list only cuts off a stale prefix. */
  lemma {:induction false} UpcomingIsSuffix(times: seq<Time>, now: Time)
    requires Ascending(times)
    ensures exists k :: 0 <= k <= |times| && Upcoming(times, now) == times[k..]
    ensures Ascending(Upcoming(times, now))
  {
    if times == [] {
      assert Upcoming(times, now) == times[0..];
    } else if times[0] > now {
      UpcomingAll(times, now);
      assert Upcoming(times, now) == times[0..];
    } else {
      UpcomingIsSuffix(times[1..], now);
      var k :| 0 <= k <= |times[1..]| && Upcoming(times[1..], now) == times[1..][k..];
      assert times[1..][k..] == times[k + 1..];
    }
  }

  lemma {:induction false} UpcomingAll(times: seq<Time>, now: Time)
    requires forall i :: 0 <= i < |times| ==> times[i] > now
    ensures Upcoming(times, now) == times
  {
    if times != [] {
      UpcomingAll(times[1..], now);
    }
  }

  method PruneStaleScheduled(times: seq<Time>, now: Time) returns (kept: seq<Time>)
    ensures kept == Upcoming(times, now)
  {
    kept := [];
    for i := 0 to |times|
      invariant kept == Upcoming(times[..i], now)
    {
      UpcomingStep(times[..i], times[i], now);
      assert times[..i + 1] == times[..i] + [times[i]];
      if times[i] > now {
        kept := kept + [times[i]];
      }
    }
    assert times[..|times|] == times;
  }

  // ---- Sorting and removing duplicates ----

  /** slices.Sort, as insertion sort. */
  function SortInts(s: seq<int>): (r: seq<int>)
    ensures Sorted(r)
    ensures multiset(r) == multiset(s)
    ensures forall x :: x in r <==> x in s
  {
    if s == [] then []
    else
      var rest := SortInts(s[1..]);
      assert s == [s[0]] + s[1..];
      InsertedElements(rest, LowerBound(rest, s[0]), s[0]);
      InsertedSorted(rest, s[0]);
      Inserted(rest, LowerBound(rest, s[0]), s[0])
  }

  lemma AppendAscending(s: seq<int>, t: int)
    requires Ascending(s) && (s != [] ==> s[|s| - 1] < t)
    ensures Ascending(s + [t])
  {
    assert forall j :: 0 <= j < |s| ==> s[j] == s[|s| - 1] || s[j] < s[|s| - 1];
  }

  /** Dropping equal neighbours from an ordered list leaves each value once. */
  method RemoveDuplicatesSorted(times: seq<int>) returns (r: seq<int>)
    requires Sorted(times)
    ensures Ascending(r)
    ensures forall t :: t in r <==> t in times
  {
    r := [];
    for i := 0 to |times|
      invariant Ascending(r)
      invariant forall t :: t in r <==> t in times[..i]
      invariant i == 0 ==> r == []
      invariant i > 0 ==> r != [] && r[|r| - 1] == times[i - 1]
    {
      assert times[..i + 1] == times[..i] + [times[i]];
      if i == 0 || times[i] != times[i - 1] {
        AppendAscending(r, times[i]);
        r := r + [times[i]];
      }
    }
    assert times[..|times|] == times;
  }

  /** removeSliceDuplicatesInt: sort the slice, compact it in place, and return how much of it counts. */
  method RemoveSliceDuplicatesInt(a: array<int>) returns (n: nat)
    modifies a
    ensures n <= a.Length && Ascending(a[..n])
    ensures forall x :: x in a[..n] <==> x in old(a[..])
  {
    hide SortInts;
    var sorted := SortInts(a[..]);
    SamePermutationLength(sorted, a[..]);
    for i := 0 to a.Length
      invariant a[..i] == sorted[..i]
    {
      a[i] := sorted[i];
    }
    assert a[..] == sorted;
    hide Sorted, Ascending;
    n := Compact(a);
  }

  /** slices.Compact on an ordered slice. */
  method Compact(a: array<int>) returns (n: nat)
    requires Sorted(a[..])
    modifies a
    ensures n <= a.Length && Ascending(a[..n])
    ensures forall x :: x in a[..n] <==> x in old(a[..])
  {
    n := 0;
    ghost var was := a[..];
    for i := 0 to a.Length
      invariant n <= i && a[i..] == was[i..]
      invariant Ascending(a[..n])
      invariant forall x :: x in a[..n] <==> x in was[..i]
      invariant i == 0 ==> n == 0
      invariant i > 0 ==> n > 0 && a[n - 1] == was[i - 1]
    {
      assert a[i] == a[i..][0] == was[i];
      assert was[..i + 1] == was[..i] + [was[i]];
      if n == 0 || a[i] != a[n - 1] {
        ghost var kept := a[..n];
        AppendAscending(kept, a[i]);
        a[n] := a[i];
        n := n + 1;
        assert a[..n] == kept + [was[i]];
      }
      assert a[i + 1..] == was[i + 1..];
    }
    assert was[..a.Length] == was;
  }

  lemma SamePermutationLength(a: seq<int>, b: seq<int>)
    requires multiset(a) == multiset(b)
    ensures |a| == |b|
  {
    assert |multiset(a)| == |a| && |multiset(b)| == |b|;
  }
}
