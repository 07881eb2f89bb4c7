/**
 S3FIFO's point: a flood of keys written once does not push out the entries of
 the main queue. Under an entry budget alone, however long the flood and whatever
 the queues and the read counts held when it began, it costs the main queue one
 entry less than the small queue's share of the budget, or one entry if the share
 is one.
 */
module ScanResistance {
  import opened GhostLog
  import opened ShardModel
  import opened Eviction

  /** A key the shard neither holds nor remembers letting out. */
  ghost predicate NewTo<K, V>(cfg: Config<K>, s: State<K, V>, key: K) {
    !Resident(s, key) && !IsGhost(s.log, cfg.hash(key))
  }

  /** A write, with the loop's account of what it took from the main queue. */
  ghost function Store<K, V>(cfg: Config<K>, s: State<K, V>, item: Item<K, V>): Evicted<K, V>
    requires Shaped(cfg, s) && cfg.policy == S3FIFO
  {
    InsertShaped(cfg, s, item);
    EvictS3Fifo(cfg, Insert(cfg, s, item), item.key)
  }

  /** Store is what a write that is not refused does. */
  lemma StoreIsSet<K, V>(cfg: Config<K>, s: State<K, V>, item: Item<K, V>)
    requires Shaped(cfg, s) && cfg.policy == S3FIFO && Fits(cfg, item)
    ensures var out, written := Store(cfg, s, item), Set(cfg, s, item, true);
            written.Stored? && written.state == out.state && written.victims == out.victims
  {
    InsertShaped(cfg, s, item);
  }

  /** A run of writes, none read in between, and how many entries of the main
      queue they evicted altogether. */
  ghost function Flood<K, V>(cfg: Config<K>, s: State<K, V>, items: seq<Item<K, V>>): (r: (State<K, V>, nat))
    requires Shaped(cfg, s) && cfg.policy == S3FIFO
    decreases |items|
  {
    if items == [] then (s, 0)
    else
      StoreShaped(cfg, s, items[0]);
      var out := Store(cfg, s, items[0]);
      var rest := Flood(cfg, out.state, items[1..]);
      (rest.0, out.fromMain + rest.1)
  }

  lemma {:induction false} EvictShaped<K, V>(cfg: Config<K>, s: State<K, V>, keep: K)
    requires Wf(s)
    ensures Wf(EvictS3Fifo(cfg, s, keep).state)
    decreases Effort(s, keep)
  {
    if Over(cfg, s) && !TakeTurn(cfg, s, keep).Stuck? {
      TurnShrinksEffort(cfg, s, keep);
      EvictShaped(cfg, TakeTurn(cfg, s, keep).state, keep);
    }
  }

  lemma StoreShaped<K, V>(cfg: Config<K>, s: State<K, V>, item: Item<K, V>)
    requires Shaped(cfg, s) && cfg.policy == S3FIFO
    ensures Shaped(cfg, Store(cfg, s, item).state)
  {
    InsertShaped(cfg, s, item);
    EvictShaped(cfg, Insert(cfg, s, item), item.key);
  }

  /** The most that a flood can cost the main queue. */
  function Cost<K>(cfg: Config<K>): nat {
    Max(Max(cfg.maxEntries / SMALL_SHARE, 1) - 1, 1)
  }

  ghost predicate UnreadPrefix<K, V>(q: Queue<K, V>, n: int) {
    n <= |q| && forall i :: 0 <= i < n ==> q[i].freq == 0
  }

  /** One turn, of a shard one entry over the budget with the m newest entries of
      the small queue unread. */
  lemma TurnTakesFromMainOnlyInsideShare<K, V>(cfg: Config<K>, s: State<K, V>, keep: K, m: nat)
    requires Wf(s) && cfg.maxBytes == 0 && 0 < cfg.maxEntries && Count(s) <= cfg.maxEntries + 1
    requires 1 <= m && UnreadPrefix(s.small, m) && s.small[0].key == keep && Over(cfg, s)
    requires !TakeTurn(cfg, s, keep).Stuck?
    ensures var turn := TakeTurn(cfg, s, keep);
            if turn.Moved? then
              && Count(turn.state) == Count(s) && UnreadPrefix(turn.state.small, m) && turn.state.small[0].key == keep
            else
              && Count(turn.state) < Count(s) && !Over(cfg, turn.state)
              && UnreadPrefix(turn.state.small, if turn.fromMain then m else m - 1)
              && (turn.fromMain ==> |turn.state.small| <= Cost(cfg))
  {
    var turn := TakeTurn(cfg, s, keep);
    if turn.Gone? && turn.fromMain {
      assert Last(s.small).key == keep ==> |s.small| == 1;
    }
  }

  /** One loop, entered one entry over the budget with the m newest entries of
      the small queue unread: it takes at most one entry from the main queue, and
      then only with the small queue inside its share and all m still there. */
  lemma {:induction false} LoopTakesFromMainOnlyInsideShare<K, V>(cfg: Config<K>, s: State<K, V>, keep: K, m: nat)
    requires Wf(s) && cfg.maxBytes == 0 && 0 < cfg.maxEntries && Count(s) <= cfg.maxEntries + 1
    requires 1 <= m && UnreadPrefix(s.small, m) && s.small[0].key == keep
    ensures var out := EvictS3Fifo(cfg, s, keep);
            && out.fromMain <= 1
            && UnreadPrefix(out.state.small, m - 1 + out.fromMain)
            && (out.fromMain == 1 ==> |out.state.small| <= Cost(cfg))
            && Count(out.state) <= Count(s)
    decreases Effort(s, keep)
  {
    hide TakeTurn, Over, Cost, Effort, Wf;
    var turn := TakeTurn(cfg, s, keep);
    if Over(cfg, s) && !turn.Stuck? {
      TurnShrinksEffort(cfg, s, keep);
      TurnTakesFromMainOnlyInsideShare(cfg, s, keep, m);
      if turn.Moved? {
        LoopTakesFromMainOnlyInsideShare(cfg, turn.state, keep, m);
      }
    }
  }

  lemma StoreTakesFromMainOnlyInsideShare<K, V>(cfg: Config<K>, s: State<K, V>, item: Item<K, V>, n: nat)
    requires Shaped(cfg, s) && cfg.policy == S3FIFO
    requires cfg.maxBytes == 0 && 0 < cfg.maxEntries && Count(s) <= cfg.maxEntries
    requires NewTo(cfg, s, item.key) && UnreadPrefix(s.small, n)
    ensures var out := Store(cfg, s, item);
            && out.fromMain <= 1
            && UnreadPrefix(out.state.small, n + out.fromMain)
            && (out.fromMain == 1 ==> |out.state.small| <= Cost(cfg))
            && !Over(cfg, out.state)
  {
    InsertShaped(cfg, s, item);
    var s' := Insert(cfg, s, item);
    assert s'.small == [item.(freq := 0)] + s.small;
    LoopTakesFromMainOnlyInsideShare(cfg, s', item.key, n + 1);
    assert Holds(s'.small, item.key);
    assert Find(s', item.key) == item.(freq := 0);
    EvictS3FifoCorrect(cfg, s', item.key);
  }

  /** Every key of the flood is new when its turn comes. */
  ghost predicate AllNew<K, V>(cfg: Config<K>, s: State<K, V>, items: seq<Item<K, V>>)
    requires Shaped(cfg, s) && cfg.policy == S3FIFO
    decreases |items|
  {
    items != [] ==>
      && NewTo(cfg, s, items[0].key)
      && (StoreShaped(cfg, s, items[0]); AllNew(cfg, Store(cfg, s, items[0]).state, items[1..]))
  }

  /** Scan resistance, for keys that are new when their turn comes. The entries
      of the small queue known to be unread count against the cost already. */
  lemma {:induction false} FloodSparesMain<K, V>(cfg: Config<K>, s: State<K, V>, items: seq<Item<K, V>>, n: nat)
    requires Shaped(cfg, s) && cfg.policy == S3FIFO
    requires cfg.maxBytes == 0 && 0 < cfg.maxEntries && Count(s) <= cfg.maxEntries
    requires AllNew(cfg, s, items) && UnreadPrefix(s.small, n)
    ensures Flood(cfg, s, items).1 <= Max(Cost(cfg) - n, 0)
    decreases |items|
  {
    if items == [] {
    } else {
      StoreShaped(cfg, s, items[0]);
      StoreTakesFromMainOnlyInsideShare(cfg, s, items[0], n);
      var out := Store(cfg, s, items[0]);
      FloodSparesMain(cfg, out.state, items[1..], n + out.fromMain);
    }
  }

  // The same, told from the start of the flood

  ghost predicate Injective<K(!new)>(hash: K -> nat) {
    forall a, b :: hash(a) == hash(b) ==> a == b
  }

  lemma TurnKeepsNew<K(!new), V>(cfg: Config<K>, s: State<K, V>, keep: K, key: K)
    requires Wf(s) && !TakeTurn(cfg, s, keep).Stuck?
    requires Injective(cfg.hash) && NewTo(cfg, s, key)
    ensures NewTo(cfg, TakeTurn(cfg, s, keep).state, key)
  {
    var next := TakeTurn(cfg, s, keep).state;
    if SmallGives(cfg, s, keep) {
      var t := Last(s.small);
      assert t.key != key;
      if t.freq == 0 {
        AddMakesGhost(s.log, cfg.hash(t.key), Count(s) - 1, cfg.hash(key));
      }
    }
  }

  lemma {:induction false} LoopKeepsNew<K(!new), V>(cfg: Config<K>, s: State<K, V>, keep: K, key: K)
    requires Wf(s) && Injective(cfg.hash) && NewTo(cfg, s, key)
    ensures NewTo(cfg, EvictS3Fifo(cfg, s, keep).state, key)
    decreases Effort(s, keep)
  {
    if Over(cfg, s) && !TakeTurn(cfg, s, keep).Stuck? {
      TurnShrinksEffort(cfg, s, keep);
      TurnKeepsNew(cfg, s, keep, key);
      LoopKeepsNew(cfg, TakeTurn(cfg, s, keep).state, keep, key);
    }
  }

  lemma StoreKeepsNew<K(!new), V>(cfg: Config<K>, s: State<K, V>, item: Item<K, V>, key: K)
    requires Shaped(cfg, s) && cfg.policy == S3FIFO && Injective(cfg.hash)
    requires NewTo(cfg, s, key) && key != item.key
    ensures NewTo(cfg, Store(cfg, s, item).state, key)
  {
    hide NewTo, Insert, EvictS3Fifo;
    InsertShaped(cfg, s, item);
    InsertKeepsNew(cfg, s, item, key);
    LoopKeepsNew(cfg, Insert(cfg, s, item), item.key, key);
  }

  lemma InsertKeepsNew<K(!new), V>(cfg: Config<K>, s: State<K, V>, item: Item<K, V>, key: K)
    requires Shaped(cfg, s) && cfg.policy == S3FIFO && Injective(cfg.hash)
    requires NewTo(cfg, s, key) && key != item.key
    ensures NewTo(cfg, Insert(cfg, s, item), key)
  {
    hide IsGhost, Resident;
    TakeForgets(s.log, cfg.hash(item.key), cfg.hash(key));
    if Resident(Insert(cfg, s, item), key) {
      InsertBringsNothing(cfg, s, item, key);
    }
  }

  lemma {:induction false} DistinctNewKeysStayNew<K(!new), V>(cfg: Config<K>, s: State<K, V>, items: seq<Item<K, V>>)
    requires Shaped(cfg, s) && cfg.policy == S3FIFO && Injective(cfg.hash)
    requires Distinct(items) && forall i :: 0 <= i < |items| ==> NewTo(cfg, s, items[i].key)
    ensures AllNew(cfg, s, items)
    decreases |items|
  {
    if items == [] {
    } else {
      StoreShaped(cfg, s, items[0]);
      var next, rest := Store(cfg, s, items[0]).state, items[1..];
      forall i | 0 <= i < |rest| ensures NewTo(cfg, next, rest[i].key) {
        assert rest[i] == items[i + 1];
        StoreKeepsNew(cfg, s, items[0], rest[i].key);
      }
      DistinctNewKeysStayNew(cfg, next, rest);
    }
  }

  // What the flood costs, in keys

  ghost function Keys<K, V>(q: Queue<K, V>): set<K> {
    set i | 0 <= i < |q| :: q[i].key
  }

  /** What leaves the main queue leaves through the main queue's own branch. */
  lemma {:induction false} LoopLosesFromMain<K, V>(cfg: Config<K>, s: State<K, V>, keep: K) returns (lost: set<K>)
    requires Wf(s)
    ensures var out := EvictS3Fifo(cfg, s, keep);
            Keys(s.main) <= Keys(out.state.main) + lost && |lost| <= out.fromMain
    decreases Effort(s, keep)
  {
    lost := {};
    if Over(cfg, s) && !TakeTurn(cfg, s, keep).Stuck? {
      TurnShrinksEffort(cfg, s, keep);
      var turn := TakeTurn(cfg, s, keep);
      var rest := LoopLosesFromMain(cfg, turn.state, keep);
      TurnLosesFromMain(cfg, s, keep);
      lost := rest;
      if turn.Gone? && turn.fromMain {
        lost := rest + {turn.victim.key};
      }
    }
  }

  lemma TurnLosesFromMain<K, V>(cfg: Config<K>, s: State<K, V>, keep: K)
    requires Wf(s) && !TakeTurn(cfg, s, keep).Stuck?
    ensures var turn := TakeTurn(cfg, s, keep);
            Keys(s.main) <= Keys(turn.state.main) + if turn.Gone? && turn.fromMain then {turn.victim.key} else {}
  {
    var turn := TakeTurn(cfg, s, keep);
    var next := turn.state.main;
    forall j | 0 <= j < |s.main|
      ensures s.main[j].key in Keys(next) + if turn.Gone? && turn.fromMain then {turn.victim.key} else {}
    {
      if SmallGives(cfg, s, keep) {
        assert s.main[j] == next[if turn.Moved? then j + 1 else j];
      } else {
        var i := OldestButKeep(s.main, keep);
        var at := if j < i then j else j - 1;
        if j == i {
          if turn.Moved? {
            assert next[0].key == s.main[j].key;
          }
        } else {
          assert s.main[j] == Without(s.main, i)[at];
          assert s.main[j] == next[if turn.Moved? then at + 1 else at];
        }
      }
    }
  }

  /** Of the keys in the main queue when a flood of new keys begins, no more are gone
      when it ends than the flood's evictions from the main queue, however long it is. */
  lemma {:induction false} FloodLosesFromMain<K, V>(cfg: Config<K>, s: State<K, V>, items: seq<Item<K, V>>)
    returns (lost: set<K>)
    requires Shaped(cfg, s) && cfg.policy == S3FIFO && AllNew(cfg, s, items)
    ensures Keys(s.main) <= Keys(Flood(cfg, s, items).0.main) + lost
    ensures |lost| <= Flood(cfg, s, items).1
    decreases |items|
  {
    lost := {};
    if items != [] {
      InsertShaped(cfg, s, items[0]);
      StoreShaped(cfg, s, items[0]);
      var s' := Insert(cfg, s, items[0]);
      assert s'.main == s.main;
      var now := LoopLosesFromMain(cfg, s', items[0].key);
      var later := FloodLosesFromMain(cfg, Store(cfg, s, items[0]).state, items[1..]);
      lost := now + later;
    }
  }

  /** Scan resistance as the policy promises it. */
  lemma ScanResistant<K(!new), V>(cfg: Config<K>, s: State<K, V>, items: seq<Item<K, V>>) returns (lost: set<K>)
    requires Shaped(cfg, s) && cfg.policy == S3FIFO && Injective(cfg.hash)
    requires cfg.maxBytes == 0 && 0 < cfg.maxEntries && !Over(cfg, s)
    requires Distinct(items) && forall i :: 0 <= i < |items| ==> NewTo(cfg, s, items[i].key)
    ensures Keys(s.main) <= Keys(Flood(cfg, s, items).0.main) + lost
    ensures |lost| <= Flood(cfg, s, items).1 <= Max(cfg.maxEntries / 10 - 1, 1)
  {
    DistinctNewKeysStayNew(cfg, s, items);
    FloodSparesMain(cfg, s, items, 0);
    lost := FloodLosesFromMain(cfg, s, items);
  }
}
