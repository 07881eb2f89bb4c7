/**
 The reference reading of the S3FIFO ghost list: a plain log of what was added
 and taken. A hash is a ghost when its latest add is recent enough and has not
 been taken since. The queue and map that the cache keeps instead are proved
 against this log in Ghosts.
 */
module GhostLog {

  datatype Event = Added(hash: nat, limit: nat) | Taken(hash: nat)

  datatype Log = Empty | Then(before: Log, event: Event)

  function Max(a: int, b: int): int {
    if a < b then b else a
  }

  /** The hashes ever added, oldest first; an add's number is its place here. */
  function Adds(log: Log): seq<nat> {
    match log
    case Empty => []
    case Then(before, Added(h, _)) => Adds(before) + [h]
    case Then(before, Taken(_)) => Adds(before)
  }

  /** How many of the adds have fallen out of the window: an add with limit n
      keeps the latest n adds, itself included, and never fewer than one. */
  function Forgotten(log: Log): (n: nat)
    ensures n <= |Adds(log)|
  {
    match log
    case Empty => 0
    case Then(before, Added(_, limit)) => Max(Forgotten(before), |Adds(log)| - Max(limit, 1))
    case Then(before, Taken(_)) => Forgotten(before)
  }

  /** The last event to mention h is an add, with number n. */
  predicate LatestAdd(log: Log, h: nat, n: nat) {
    match log
    case Empty => false
    case Then(before, event) =>
      if event.hash == h then event.Added? && n == |Adds(before)| else LatestAdd(before, h, n)
  }

  ghost predicate IsGhost(log: Log, h: nat) {
    exists n: nat :: LatestAdd(log, h, n) && n >= Forgotten(log)
  }

  /** A latest add's number finds its hash in the adds, at its last place there. */
  lemma {:induction false} LatestAddIsLast(log: Log, h: nat, n: nat)
    requires LatestAdd(log, h, n)
    ensures n < |Adds(log)| && Adds(log)[n] == h
    ensures forall m :: n < m < |Adds(log)| ==> Adds(log)[m] != h
  {
    if log.event.hash != h {
      LatestAddIsLast(log.before, h, n);
    }
  }

  /** Adding h makes h a ghost and makes nothing else one. */
  lemma AddMakesGhost(log: Log, h: nat, limit: nat, g: nat)
    ensures IsGhost(Then(log, Added(h, limit)), h)
    ensures g != h && IsGhost(Then(log, Added(h, limit)), g) ==> IsGhost(log, g)
  {
    var after := Then(log, Added(h, limit));
    assert LatestAdd(after, h, |Adds(log)|);
    assert forall n: nat :: g != h && LatestAdd(after, g, n) ==> LatestAdd(log, g, n);
  }

  /** g's latest add is one of the last few. */
  ghost predicate AddedWithin(log: Log, g: nat, few: int) {
    exists n: nat :: LatestAdd(log, g, n) && |Adds(log)| - few <= n
  }

  lemma {:induction false} LatestAddIsOne(log: Log, g: nat, m: nat, n: nat)
    requires LatestAdd(log, g, m) && LatestAdd(log, g, n)
    ensures m == n
  {
    if log.event.hash != g {
      LatestAddIsOne(log.before, g, m, n);
    }
  }

  /** Of the other ghosts an add leaves those added last, one fewer than its limit. */
  lemma AddForgetsOldest(log: Log, h: nat, limit: nat, g: nat)
    requires g != h
    ensures IsGhost(Then(log, Added(h, limit)), g) <==> IsGhost(log, g) && AddedWithin(log, g, Max(limit, 1) - 1)
  {
    var after := Then(log, Added(h, limit));
    if IsGhost(after, g) {
      var n: nat :| LatestAdd(after, g, n) && n >= Forgotten(after);
      assert LatestAdd(log, g, n);
    }
    if IsGhost(log, g) && AddedWithin(log, g, Max(limit, 1) - 1) {
      var m: nat :| LatestAdd(log, g, m) && m >= Forgotten(log);
      var n: nat :| LatestAdd(log, g, n) && |Adds(log)| - (Max(limit, 1) - 1) <= n;
      LatestAddIsOne(log, g, m, n);
      assert LatestAdd(after, g, n);
    }
  }

  /** Taking h leaves every other ghost alone, and h none. */
  lemma TakeForgets(log: Log, h: nat, g: nat)
    ensures IsGhost(Then(log, Taken(h)), g) <==> g != h && IsGhost(log, g)
  {
    assert forall n: nat :: LatestAdd(Then(log, Taken(h)), g, n) <==> g != h && LatestAdd(log, g, n);
  }
}
