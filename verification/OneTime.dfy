/** oneTimeJob: a finite list of instants, visited in order whatever order they were given in. */
module OneTimeJobs {
  import opened Times
  import opened Grids

  datatype SetupResult = Ready(job: OneTimeJob, startTime: Option<Time>) | StartDateTimePast

  datatype OneTimeJob = OneTimeJob(sortedTimes: seq<Time>)
  {
    /** oneTimeJob.next. */
    method Next(lastRun: Time) returns (r: Time)
      requires Ascending(sortedTimes) && lastRun >= ZERO
      ensures IsNext(InputGrid(sortedTimes), lastRun, r)
    {
      var index, found := BinarySearch(sortedTimes, lastRun);
      if found {
        index := index + 1;
      }
      FirstAfter(sortedTimes, index, lastRun);
      hide IsNext, InputGrid;
      if index >= |sortedTimes| {
        return ZERO;
      }
      r := sortedTimes[index];
    }
  }

  /** The entry before which all are past is the next one. */
  lemma FirstAfter(times: seq<Time>, index: nat, lastRun: Time)
    requires Ascending(times) && lastRun >= ZERO && index <= |times|
    requires forall i :: 0 <= i < |times| ==> (times[i] > lastRun <==> i >= index)
    ensures IsNext(InputGrid(times), lastRun, if index < |times| then times[index] else ZERO)
  {
    if index < |times| {
      assert Candidate(InputGrid(times), lastRun, times[index]);
    }
  }

  /** Every listed instant is a slot, all in one period. */
  ghost function InputGrid(times: seq<Time>): Grid {
    Grid(t => t in times, t => 0, 1)
  }

  /** Cutting an ascending list behind `now` leaves what is after `now`. */
  lemma AfterNow(times: seq<Time>, index: nat, now: Time)
    requires Ascending(times) && index <= |times|
    requires forall i :: 0 <= i < |times| ==> (times[i] > now <==> i >= index)
    ensures Ascending(times[index..])
    ensures forall t :: t in times[index..] <==> t in times && t > now
  {
    forall t | t in times && t > now ensures t in times[index..] {
      var i :| 0 <= i < |times| && times[i] == t;
      assert times[index..][i - index] == t;
    }
  }

  /** oneTimeJobDefinition.setup: sort, drop duplicates, keep what is still to come. */
  method Setup(startAt: seq<Time>, startImmediately: bool, now: Time) returns (r: SetupResult)
    ensures r.StartDateTimePast? <==> !startImmediately && forall t :: t in startAt ==> t <= now
    ensures r.Ready? ==>
              && Ascending(r.job.sortedTimes)
              && (forall t :: t in r.job.sortedTimes <==> t in startAt && t > now)
              && r.startTime == if r.job.sortedTimes == [] then None else Some(r.job.sortedTimes[0])
  {
    var sortedTimes := SortInts(startAt);
    sortedTimes := RemoveDuplicatesSorted(sortedTimes);
    var index, found := BinarySearch(sortedTimes, now);
    if found {
      index := index + 1;
    }
    AfterNow(sortedTimes, index, now);
    sortedTimes := sortedTimes[index..];
    hide Sorted, Ascending;
    if !startImmediately && |sortedTimes| == 0 {
      return StartDateTimePast;
    }
    if |sortedTimes| > 0 {
      assert sortedTimes[0] in sortedTimes;
      return Ready(OneTimeJob(sortedTimes), Some(sortedTimes[0]));
    }
    return Ready(OneTimeJob(sortedTimes), None);
  }

  /**
    Started from setup's `now`, the searches visit the remaining inputs once each, in order: a run
    that ends in exhaustion is `now` followed by exactly the sorted list.
  */
  lemma VisitsEveryInputOnce(sortedTimes: seq<Time>, now: Time, visited: seq<Time>)
    requires Ascending(sortedTimes) && now >= ZERO && forall t :: t in sortedTimes ==> t > now
    requires Iterates(InputGrid(sortedTimes), visited) && visited[0] == now
    requires IsNext(InputGrid(sortedTimes), visited[|visited| - 1], ZERO)
    ensures visited == [now] + sortedTimes
  {
    var g := InputGrid(sortedTimes);
    IterationEnumerates(g, visited);
    ExhaustedMeansComplete(g, visited);
    var rest := visited[1..];
    assert Ascending(rest);
    assert forall t :: t in sortedTimes ==> Candidate(g, now, t);
    forall t ensures t in rest <==> t in sortedTimes {
      if t in sortedTimes {
        assert t in visited && t != visited[0];
      }
    }
    SameMembersSameList(rest, sortedTimes);
    assert visited == [now] + rest;
  }

  lemma Member(s: seq<Time>) returns (t: Time)
    requires s != []
    ensures t in s
  {
    t := s[0];
  }

  /** Two ascending lists with the same members agree element by element. */
  lemma {:induction false} SameMembersSameList(a: seq<Time>, b: seq<Time>)
    requires Ascending(a) && Ascending(b)
    requires forall t :: t in a <==> t in b
    ensures a == b
  {
    if a != [] && b != [] {
      assert a[0] in b && b[0] in a;
      assert a[0] == b[0];
      assert forall t :: t in a[1..] <==> t in a && t != a[0];
      assert forall t :: t in b[1..] <==> t in b && t != b[0];
      SameMembersSameList(a[1..], b[1..]);
    } else {
      if a != [] { var _ := Member(a); }
      if b != [] { var _ := Member(b); }
    }
  }
}
