/**
 The ghost list as the cache keeps it: a queue of the hashes in the order they
 were added, and a map from each ghost's hash to the number of the add that made
 it one. The numbers do not wrap here.
 */
module Ghosts {
  import opened GhostLog

  /** The map holds exactly the latest untaken adds from number first on. */
  ghost predicate Tracks(numbers: map<nat, nat>, log: Log, first: nat) {
    && (forall h :: h in numbers ==> LatestAdd(log, h, numbers[h]) && numbers[h] >= first)
    && (forall h, n: nat :: LatestAdd(log, h, n) && n >= first ==> h in numbers && numbers[h] == n)
  }

  /** Forgetting add number first takes exactly its hash out of the map, and
      only if no later add or take has superseded it. */
  lemma TracksStep(numbers: map<nat, nat>, log: Log, first: nat)
    requires Tracks(numbers, log, first) && first < |Adds(log)|
    ensures var oldest := Adds(log)[first];
            Tracks(if oldest in numbers && numbers[oldest] == first then numbers - {oldest} else numbers,
                   log, first + 1)
  {
    forall h, n: nat | LatestAdd(log, h, n) ensures n < |Adds(log)| && Adds(log)[n] == h {
      LatestAddIsLast(log, h, n);
    }
  }

  lemma TracksAdd(numbers: map<nat, nat>, log: Log, h: nat, limit: nat, first: nat)
    requires Tracks(numbers, log, first) && first <= |Adds(log)|
    ensures Tracks(numbers[h := |Adds(log)|], Then(log, Added(h, limit)), first)
  {
    var after := Then(log, Added(h, limit));
    forall g, n: nat
      ensures LatestAdd(after, g, n) <==> if g == h then n == |Adds(log)| else LatestAdd(log, g, n)
    {
    }
  }

  lemma TracksTake(numbers: map<nat, nat>, log: Log, h: nat, first: nat)
    requires Tracks(numbers, log, first)
    ensures Tracks(numbers - {h}, Then(log, Taken(h)), first)
  {
  }

  lemma {:induction false} DistinctAtMostLength(s: seq<nat>, elements: set<nat>)
    requires forall h :: h in elements ==> h in s
    ensures |elements| <= |s|
  {
    if s == [] {
      assert elements == {};
    } else {
      var last := s[|s| - 1];
      DistinctAtMostLength(s[..|s| - 1], elements - {last});
    }
  }

  class GhostList {
    var numbers: map<nat, nat>
    var queue: seq<nat>
    var first: nat

    ghost var log: Log

    ghost predicate Valid()
      reads this
    {
      && first == Forgotten(log)
      && queue == Adds(log)[first..]
      && Tracks(numbers, log, first)
    }

    constructor ()
      ensures Valid() && log == Empty
    {
      numbers, queue, first, log := map[], [], 0, Empty;
    }

    /** Makes h a ghost, forgetting the oldest beyond limit. */
    method Add(h: nat, limit: nat)
      requires Valid()
      modifies this
      ensures Valid() && log == Then(old(log), Added(h, limit))
      ensures |queue| <= Max(limit, 1)
    {
      TracksAdd(numbers, log, h, limit, first);
      numbers := numbers[h := first + |queue|];
      queue := queue + [h];
      log := Then(log, Added(h, limit));
      while |queue| > Max(limit, 1)
        invariant log == Then(old(log), Added(h, limit))
        invariant first <= Forgotten(log)
        invariant Forgotten(log) == first || Forgotten(log) == |Adds(log)| - Max(limit, 1)
        invariant queue == Adds(log)[first..]
        invariant Tracks(numbers, log, first)
      {
        var oldest := queue[0];
        TracksStep(numbers, log, first);
        // An absent hash reads as number 0, and deleting it then does nothing.
        if (if oldest in numbers then numbers[oldest] else 0) == first {
          numbers := numbers - {oldest};
        }
        queue := queue[1..];
        first := first + 1;
      }
    }

    /** Reports whether h is a ghost, and forgets it. */
    method Take(h: nat) returns (was: bool)
      requires Valid()
      modifies this
      ensures Valid() && log == Then(old(log), Taken(h))
      ensures was == IsGhost(old(log), h)
    {
      TracksTake(numbers, log, h, first);
      log := Then(log, Taken(h));
      was := h in numbers;
      if was {
        numbers := numbers - {h};
      }
    }

    method Clear()
      modifies this
      ensures Valid() && log == Empty
    {
      numbers, queue, first, log := map[], [], 0, Empty;
    }
  }

  /** Each number finds its hash where it last stands in the queue. */
  lemma {:induction false} NumberIndexesQueue(numbers: map<nat, nat>, log: Log, h: nat)
    requires Tracks(numbers, log, Forgotten(log)) && h in numbers
    ensures var queue, i := Adds(log)[Forgotten(log)..], numbers[h] - Forgotten(log);
            0 <= i < |queue| && queue[i] == h && h !in queue[i + 1..]
  {
    LatestAddIsLast(log, h, numbers[h]);
    var adds, first, n := Adds(log), Forgotten(log), numbers[h];
    var rest := adds[first..][n - first + 1..];
    assert forall i :: 0 <= i < |rest| ==> rest[i] == adds[n + 1 + i];
  }

  /** The map holds exactly the ghosts, no more of them than the queue has hashes. */
  lemma NumbersAreTheGhosts(numbers: map<nat, nat>, log: Log)
    requires Tracks(numbers, log, Forgotten(log))
    ensures forall h :: h in numbers <==> IsGhost(log, h)
    ensures |numbers| <= |Adds(log)[Forgotten(log)..]|
  {
    var queue := Adds(log)[Forgotten(log)..];
    forall h | h in numbers.Keys ensures h in queue {
      NumberIndexesQueue(numbers, log, h);
    }
    DistinctAtMostLength(queue, numbers.Keys);
    assert |numbers| == |numbers.Keys|;
  }
}
