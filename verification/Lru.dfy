/**
 LRU: the main queue is the order of most recent use over the whole run, a write
 evicts the least recently used entries and no more of them than it must, and a
 larger cache holds, entry for entry and in the same order, all that a smaller one
 holds.
 */
module Lru {
  import opened Maybe
  import opened ShardModel
  import opened Eviction
  import opened Runs

  // Victims

  /** A stored write leaves the new entry first and then the longest prefix of the
      old order, without the entry it replaces, that fits the budget with it; the
      victims are the rest, the least recently used first. */
  lemma WriteEvictsShortestSuffix<K, V>(cfg: Config<K>, s: State<K, V>, item: Item<K, V>)
    requires cfg.policy == LRU && Good(cfg, s) && Fits(cfg, item)
    ensures var r, others := Set(cfg, s, item, true), Drop(s.main, item.key);
            r.Stored? && r.state.small == [] && r.state.log == s.log && r.state.main != [] &&
            var kept := |r.state.main| - 1;
            && kept <= |others| && r.state.main == [item.(freq := 0)] + others[..kept]
            && !Over(cfg, r.state)
            && (forall m :: kept < m <= |others| ==> Over(cfg, State([item.(freq := 0)] + others[..m], [], s.log)))
            && |r.victims| == |others| - kept
            && (forall i :: 0 <= i < |r.victims| ==> r.victims[i] == others[|others| - 1 - i])
  {
    RemoveShaped(cfg, s, item.key);
    InsertReady(cfg, s, item);
    var s', others := Insert(cfg, s, item), Drop(s.main, item.key);
    assert s'.main == [item.(freq := 0)] + others;
    EvictLruTakesShortestSuffix(cfg, s', item.key);
    var out := EvictLru(cfg, s', item.key);
    assert forall m :: 0 <= m <= |others| ==> s'.main[..m + 1] == [item.(freq := 0)] + others[..m];
    forall m | |out.state.main| - 1 < m <= |others|
      ensures Over(cfg, State([item.(freq := 0)] + others[..m], [], s.log))
    {
      assert Over(cfg, s'.(main := s'.main[..m + 1]));
    }
  }

  // Recency

  /** The key an operation used: one read before it expired, or stored. */
  ghost function Used<K, V>(cfg: Config<K>, s: State<K, V>, op: Op<K, V>): Option<K> {
    match op
    case Read(key, now, _) => if Resident(s, key) && !Find(s, key).Expired(now) then Some(key) else None
    case Write(item, valid) => if Fits(cfg, item) && valid then Some(item.key) else None
    case _ => None
  }

  /** When each key was last used, the operations of the run being numbered from t. */
  ghost function LastUses<K, V>(
      cfg: Config<K>, s: State<K, V>, ops: seq<Op<K, V>>, uses: map<K, nat>, t: nat): map<K, nat>
    requires Good(cfg, s)
    decreases |ops|
  {
    if ops == [] then uses
    else
      ApplyGood(cfg, s, ops[0]);
      var used := Used(cfg, s, ops[0]);
      LastUses(cfg, Apply(cfg, s, ops[0]), ops[1..], if used.Some? then uses[used.value := t] else uses, t + 1)
  }

  /** Newest use first, and all of them before t. */
  ghost predicate ByRecency<K, V>(q: Queue<K, V>, uses: map<K, nat>, t: nat) {
    && (forall i :: 0 <= i < |q| ==> q[i].key in uses && uses[q[i].key] < t)
    && (forall i, j :: 0 <= i < j < |q| ==> q[i].key in uses && q[j].key in uses && uses[q[i].key] > uses[q[j].key])
  }

  lemma UseMovesToFront<K, V>(q: Queue<K, V>, uses: map<K, nat>, t: nat, item: Item<K, V>)
    requires ByRecency(q, uses, t) && Distinct(q)
    ensures ByRecency([item] + Drop(q, item.key), uses[item.key := t], t + 1)
  {
    var rest := Drop(q, item.key);
    DropHolds(q, item.key);
    DropByRecency(q, uses, t, item.key);
    assert forall i :: 0 <= i < |rest| ==> rest[i].key != item.key;
  }

  lemma DropByRecency<K, V>(q: Queue<K, V>, uses: map<K, nat>, t: nat, key: K)
    requires ByRecency(q, uses, t)
    ensures ByRecency(Drop(q, key), uses, t)
  {
  }

  lemma ConsByRecency<K, V>(item: Item<K, V>, q: Queue<K, V>, uses: map<K, nat>, t: nat)
    requires ByRecency(q, uses, t) && item.key in uses && uses[item.key] < t
    requires forall j :: 0 <= j < |q| ==> q[j].key in uses && uses[q[j].key] < uses[item.key]
    ensures ByRecency([item] + q, uses, t)
  {
  }

  lemma {:induction false} UnexpiredByRecency<K, V>(q: Queue<K, V>, uses: map<K, nat>, t: nat, now: int)
    requires ByRecency(q, uses, t)
    ensures ByRecency(Unexpired(q, now), uses, t)
  {
    if q == [] {
    } else {
      assert ByRecency(q[1..], uses, t);
      var rest := Unexpired(q[1..], now);
      UnexpiredByRecency(q[1..], uses, t, now);
      if !q[0].Expired(now) {
        UnexpiredKeeps(q[1..], now);
        forall j | 0 <= j < |rest| ensures rest[j].key in uses && uses[rest[j].key] < uses[q[0].key] {
          var i :| 0 <= i < |q[1..]| && q[1..][i] == rest[j];
          assert q[i + 1] == rest[j];
        }
        ConsByRecency(q[0], rest, uses, t);
      }
    }
  }

  lemma WriteByRecency<K, V>(cfg: Config<K>, s: State<K, V>, item: Item<K, V>, uses: map<K, nat>, t: nat)
    requires cfg.policy == LRU && Good(cfg, s) && Fits(cfg, item) && ByRecency(s.main, uses, t)
    ensures ByRecency(Set(cfg, s, item, true).state.main, uses[item.key := t], t + 1)
  {
    WriteEvictsShortestSuffix(cfg, s, item);
    UseMovesToFront(s.main, uses, t, item.(freq := 0));
    var q, others := Set(cfg, s, item, true).state.main, Drop(s.main, item.key);
    assert forall i :: 0 <= i < |q| ==> q[i] == ([item.(freq := 0)] + others)[i];
  }

  lemma ReadByRecency<K, V>(
      cfg: Config<K>, s: State<K, V>, key: K, now: int, who: Refresher, uses: map<K, nat>, t: nat)
    requires cfg.policy == LRU && Good(cfg, s) && ByRecency(s.main, uses, t)
    ensures var used := Used(cfg, s, Read(key, now, who));
            ByRecency(Get(cfg, s, key, now, who).state.main,
                      if used.Some? then uses[used.value := t] else uses, t + 1)
  {
    if Resident(s, key) {
      var item := Find(s, key);
      if item.Expired(now) {
        DropByRecency(s.main, uses, t, key);
      } else {
        UseMovesToFront(s.main, uses, t, if item.negative then item else Claimed(item, who, now));
      }
    }
  }

  lemma ApplyByRecency<K, V>(cfg: Config<K>, s: State<K, V>, op: Op<K, V>, uses: map<K, nat>, t: nat)
    requires cfg.policy == LRU && Good(cfg, s) && ByRecency(s.main, uses, t)
    ensures var used := Used(cfg, s, op);
            ByRecency(Apply(cfg, s, op).main, if used.Some? then uses[used.value := t] else uses, t + 1)
  {
    match op
    case Read(key, now, who) => ReadByRecency(cfg, s, key, now, who, uses, t);
    case Write(item, valid) =>
      if Fits(cfg, item) && valid {
        WriteByRecency(cfg, s, item, uses, t);
      }
    case Delete(key) => DropByRecency(s.main, uses, t, key);
    case SweepAt(now) => UnexpiredByRecency(s.main, uses, t, now);
    case Clear =>
  }

  /** After any run the queue is in order of last use, the latest first. */
  lemma {:induction false} QueueIsRecencyOrder<K, V>(
      cfg: Config<K>, s: State<K, V>, ops: seq<Op<K, V>>, uses: map<K, nat>, t: nat)
    requires cfg.policy == LRU && Good(cfg, s) && ByRecency(s.main, uses, t)
    ensures ByRecency(Run(cfg, s, ops).main, LastUses(cfg, s, ops, uses, t), t + |ops|)
    decreases |ops|
  {
    if ops == [] {
    } else {
      ApplyGood(cfg, s, ops[0]);
      ApplyByRecency(cfg, s, ops[0], uses, t);
      var used := Used(cfg, s, ops[0]);
      QueueIsRecencyOrder(cfg, Apply(cfg, s, ops[0]), ops[1..],
                          if used.Some? then uses[used.value := t] else uses, t + 1);
    }
  }

  // Inclusion

  /** p is q with some entries left out. */
  ghost predicate Sub<K, V>(p: Queue<K, V>, q: Queue<K, V>) {
    p == [] || (q != [] && ((p[0] == q[0] && Sub(p[1..], q[1..])) || Sub(p, q[1..])))
  }

  lemma {:induction false} SubIn<K, V>(p: Queue<K, V>, q: Queue<K, V>, i: nat) returns (j: nat)
    requires Sub(p, q) && i < |p|
    ensures i <= j < |q| && q[j] == p[i]
  {
    if p[0] == q[0] && Sub(p[1..], q[1..]) {
      if i == 0 {
        j := 0;
      } else {
        j := SubIn(p[1..], q[1..], i - 1);
        j := j + 1;
      }
    } else {
      j := SubIn(p, q[1..], i);
      j := j + 1;
    }
  }

  /** The same key is the same entry in both. */
  lemma SubFind<K, V>(p: Queue<K, V>, q: Queue<K, V>, key: K)
    requires Sub(p, q) && Distinct(q) && Holds(p, key)
    ensures Holds(q, key) && q[IndexOf(q, key)] == p[IndexOf(p, key)]
  {
    var j := SubIn(p, q, IndexOf(p, key));
    HeldAt(q, j, key);
  }

  lemma {:induction false} SubLength<K, V>(p: Queue<K, V>, q: Queue<K, V>)
    requires Sub(p, q)
    ensures |p| <= |q|
  {
    if p != [] {
      if p[0] == q[0] && Sub(p[1..], q[1..]) {
        SubLength(p[1..], q[1..]);
      } else {
        SubLength(p, q[1..]);
      }
    }
  }

  lemma SubCons<K, V>(item: Item<K, V>, p: Queue<K, V>, q: Queue<K, V>)
    requires Sub(p, q)
    ensures Sub([item] + p, [item] + q)
  {
    assert ([item] + p)[1..] == p && ([item] + q)[1..] == q;
  }

  lemma {:induction false} SubDrop<K, V>(p: Queue<K, V>, q: Queue<K, V>, key: K)
    requires Sub(p, q) && Distinct(q)
    ensures Sub(Drop(p, key), Drop(q, key))
  {
    if p != [] {
      var q', taken := q[1..], p[0] == q[0] && Sub(p[1..], q[1..]);
      DropCons(q[0], q', key);
      assert q == [q[0]] + q';
      if taken {
        SubDrop(p[1..], q', key);
        DropCons(p[0], p[1..], key);
        assert p == [p[0]] + p[1..];
        if p[0].key != key {
          SubCons(p[0], Drop(p[1..], key), Drop(q', key));
        }
      } else {
        SubDrop(p, q', key);
        if q[0].key == key {
          assert !Holds(q', key);
        } else {
          SubSkip(q[0], Drop(p, key), Drop(q', key));
        }
      }
    }
  }

  lemma SubSkip<K, V>(item: Item<K, V>, p: Queue<K, V>, q: Queue<K, V>)
    requires Sub(p, q)
    ensures Sub(p, [item] + q)
  {
    assert ([item] + q)[1..] == q;
  }

  lemma DropCons<K, V>(item: Item<K, V>, q: Queue<K, V>, key: K)
    ensures Drop([item] + q, key) == if item.key == key then q else [item] + Drop(q, key)
  {
    assert ([item] + q)[1..] == q;
  }

  lemma {:induction false} SubUnexpired<K, V>(p: Queue<K, V>, q: Queue<K, V>, now: int)
    requires Sub(p, q)
    ensures Sub(Unexpired(p, now), Unexpired(q, now))
    ensures |Unexpired(q, now)| - |Unexpired(p, now)| <= |q| - |p|
  {
    if p == [] {
      UnexpiredKeeps(q, now);
    } else if p[0] == q[0] && Sub(p[1..], q[1..]) {
      SubUnexpired(p[1..], q[1..], now);
      if !p[0].Expired(now) {
        SubCons(p[0], Unexpired(p[1..], now), Unexpired(q[1..], now));
      }
    } else {
      SubUnexpired(p, q[1..], now);
      if !q[0].Expired(now) {
        SubSkip(q[0], Unexpired(p, now), Unexpired(q[1..], now));
      }
    }
  }

  /** Dropping the last of both keeps the order of inclusion. */
  lemma {:induction false} SubFront<K, V>(p: Queue<K, V>, q: Queue<K, V>)
    requires Sub(p, q) && p != []
    ensures Sub(Front(p), Front(q))
  {
    if |p| > 1 {
      if p[0] == q[0] && Sub(p[1..], q[1..]) {
        SubFront(p[1..], q[1..]);
        SubCons(p[0], Front(p[1..]), Front(q[1..]));
        assert Front(p) == [p[0]] + Front(p[1..]);
      } else {
        SubFront(p, q[1..]);
        SubSkip(q[0], Front(p), Front(q[1..]));
      }
      SubLength(p, q);
      assert Front(q) == [q[0]] + Front(q[1..]);
    }
  }

  lemma {:induction false} FrontSub<K, V>(p: Queue<K, V>, q: Queue<K, V>)
    requires Sub(p, q) && p != []
    ensures Sub(Front(p), q)
  {
    if |p| > 1 {
      if p[0] == q[0] && Sub(p[1..], q[1..]) {
        FrontSub(p[1..], q[1..]);
        assert Front(p)[1..] == Front(p[1..]);
      } else {
        FrontSub(p, q[1..]);
      }
    }
  }

  /** LRU shards with entry budgets only, the first the smaller. */
  ghost predicate Pair<K>(a: Config<K>, b: Config<K>) {
    && a.policy == LRU && b.policy == LRU && a.maxBytes == 0 && b.maxBytes == 0
    && (b.maxEntries == 0 || 0 < a.maxEntries <= b.maxEntries)
  }

  /** The smaller holds a part of the larger, which never holds more beyond it
      than the budgets differ by. */
  ghost predicate Included<K, V>(a: Config<K>, b: Config<K>, p: Queue<K, V>, q: Queue<K, V>) {
    Sub(p, q) && (b.maxEntries > 0 ==> |q| - |p| <= b.maxEntries - a.maxEntries)
  }

  /** With at most one entry too many, the loop drops the last or none. */
  lemma EvictOne<K, V>(cfg: Config<K>, s: State<K, V>, keep: K)
    requires cfg.policy == LRU && cfg.maxBytes == 0 && s.small == [] && Distinct(s.main)
    requires s.main != [] && s.main[0].key == keep
    requires cfg.maxEntries > 0 ==> |s.main| <= cfg.maxEntries + 1
    ensures EvictLru(cfg, s, keep).state.main
         == if cfg.maxEntries > 0 && |s.main| == cfg.maxEntries + 1 then Front(s.main) else s.main
  {
    if Over(cfg, s) {
      assert Last(s.main).key != keep;
      assert !Over(cfg, s.(main := Front(s.main)));
    }
  }

  lemma ReadyForOne<K, V>(cfg: Config<K>, s: State<K, V>, item: Item<K, V>)
    requires cfg.policy == LRU && cfg.maxBytes == 0 && Good(cfg, s)
    ensures var s' := Insert(cfg, s, item);
            && s'.small == [] && Distinct(s'.main) && s'.main != [] && s'.main[0].key == item.key
            && (cfg.maxEntries > 0 ==> |s'.main| <= cfg.maxEntries + 1)
  {
    RemoveShaped(cfg, s, item.key);
    InsertShaped(cfg, s, item);
  }

  lemma InsertIncluded<K, V>(a: Config<K>, b: Config<K>, p: State<K, V>, q: State<K, V>, item: Item<K, V>)
    requires Pair(a, b) && Good(a, p) && Good(b, q) && Included(a, b, p.main, q.main)
    ensures Included(a, b, Insert(a, p, item).main, Insert(b, q, item).main)
  {
    hide Sub, IndexOf;
    var key := item.key;
    RemoveShaped(a, p, key);
    RemoveShaped(b, q, key);
    SubDrop(p.main, q.main, key);
    SubCons(item.(freq := 0), Drop(p.main, key), Drop(q.main, key));
    if Holds(p.main, key) {
      SubFind(p.main, q.main, key);
    }
  }

  lemma WriteIncluded<K, V>(a: Config<K>, b: Config<K>, p: State<K, V>, q: State<K, V>, item: Item<K, V>)
    requires Pair(a, b) && Good(a, p) && Good(b, q) && Included(a, b, p.main, q.main)
    ensures Included(a, b, Set(a, p, item, true).state.main, Set(b, q, item, true).state.main)
  {
    hide Insert, EvictLru, Sub;
    var key, p', q' := item.key, Insert(a, p, item), Insert(b, q, item);
    InsertIncluded(a, b, p, q, item);
    ReadyForOne(a, p, item);
    ReadyForOne(b, q, item);
    EvictOne(a, p', key);
    EvictOne(b, q', key);
    SubFront(p'.main, q'.main);
    FrontSub(p'.main, q'.main);
  }

  lemma ReadIncluded<K, V>(
      a: Config<K>, b: Config<K>, p: State<K, V>, q: State<K, V>, key: K, now: int, who: Refresher)
    requires Pair(a, b) && Good(a, p) && Good(b, q) && Included(a, b, p.main, q.main)
    ensures var r, r' := Get(a, p, key, now, who), Get(b, q, key, now, who);
            && Included(a, b, r.state.main, r'.state.main)
            && (r.answer != Miss ==> r'.answer == r.answer && r'.refresh == r.refresh)
  {
    SubDrop(p.main, q.main, key);
    if Holds(p.main, key) {
      SubFind(p.main, q.main, key);
      var item := Find(p, key);
      SubCons(if item.negative then item else Claimed(item, who, now), Drop(p.main, key), Drop(q.main, key));
    } else if Holds(q.main, key) {
      var item := Find(q, key);
      SubSkip(if item.negative then item else Claimed(item, who, now), p.main, Drop(q.main, key));
    }
  }

  lemma ApplyIncluded<K, V>(a: Config<K>, b: Config<K>, p: State<K, V>, q: State<K, V>, op: Op<K, V>)
    requires Pair(a, b) && Good(a, p) && Good(b, q) && Included(a, b, p.main, q.main)
    ensures Included(a, b, Apply(a, p, op).main, Apply(b, q, op).main)
  {
    match op
    case Read(key, now, who) => ReadIncluded(a, b, p, q, key, now, who);
    case Write(item, valid) =>
      if valid {
        WriteIncluded(a, b, p, q, item);
      }
    case Delete(key) =>
      SubDrop(p.main, q.main, key);
      RemoveShaped(a, p, key);
      RemoveShaped(b, q, key);
      if Holds(p.main, key) {
        SubFind(p.main, q.main, key);
      }
    case SweepAt(now) => SubUnexpired(p.main, q.main, now);
    case Clear =>
  }

  lemma {:induction false} RunIncluded<K, V>(
      a: Config<K>, b: Config<K>, p: State<K, V>, q: State<K, V>, ops: seq<Op<K, V>>)
    requires Pair(a, b) && Good(a, p) && Good(b, q) && Included(a, b, p.main, q.main)
    ensures Included(a, b, Run(a, p, ops).main, Run(b, q, ops).main)
    decreases |ops|
  {
    if ops == [] {
    } else {
      ApplyGood(a, p, ops[0]);
      ApplyGood(b, q, ops[0]);
      ApplyIncluded(a, b, p, q, ops[0]);
      RunIncluded(a, b, Apply(a, p, ops[0]), Apply(b, q, ops[0]), ops[1..]);
    }
  }

  /** LRU has no anomaly: after the same run, a larger cache's queue holds the
      smaller one's in order, and answers every read the smaller one answers, with
      the same answer. */
  lemma LargerHoldsSmaller<K, V>(
      a: Config<K>, b: Config<K>, ops: seq<Op<K, V>>, key: K, now: int, who: Refresher)
    requires Pair(a, b)
    ensures var p, q := Run<K, V>(a, Start(), ops), Run<K, V>(b, Start(), ops);
            && Sub(p.main, q.main)
            && var r, r' := Get(a, p, key, now, who), Get(b, q, key, now, who);
               r.answer != Miss ==> r'.answer == r.answer && r'.refresh == r.refresh
  {
    var start: State<K, V> := Start();
    RunIncluded(a, b, start, start, ops);
    RunGood(a, start, ops);
    RunGood(b, start, ops);
    ReadIncluded(a, b, Run(a, start, ops), Run(b, start, ops), key, now, who);
  }
}
