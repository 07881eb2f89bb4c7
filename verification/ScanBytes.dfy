/**
 Scan resistance under a budget of bytes: a flood of keys written once, however long,
 takes from the main queue fewer bytes than the small queue's tenth of the budget, or
 the largest of the flood's entries, and the largest entry held before it together.
 */
module ScanBytes {
  import opened GhostLog
  import opened ShardModel
  import opened Eviction
  import opened ScanResistance
  import opened Shares

  predicate CostAtMost<K, V>(q: Queue<K, V>, most: nat) {
    forall i :: 0 <= i < |q| ==> q[i].cost <= most
  }

  /** What a flood can take from the main queue, in bytes, if its entries cost at most
      flood each and those held before it at most held. */
  function ByteCost(maxBytes: nat, flood: nat, held: nat): nat {
    var small := Max(Max(maxBytes / 10, 1) - 1, flood);
    Max(small + held - 1, 0)
  }

  /** Where a flood has got to: its m entries still in the small queue are unread and
      the newest there, and what it has taken from the main queue, a bytes, is no more
      than those and the room there is. */
  ghost predicate Flooded<K, V>(cfg: Config<K>, s: State<K, V>, m: nat, a: nat, held: nat) {
    && UnreadPrefix(s.small, m) && CostAtMost(s.main, held) && CostAtMost(s.small[m..], held)
    && a + TotalBytes(s) <= cfg.maxBytes + Bytes(s.small[..m])
  }

  lemma PrefixBytes<K, V>(q: Queue<K, V>, m: nat)
    requires m <= |q|
    ensures Bytes(q[..m]) <= Bytes(q)
  {
    assert q == q[..m] + q[m..];
    BytesConcat(q[..m], q[m..]);
  }

  /** The small queue's turn: the newest m of the rest, or what is left of them. */
  lemma SmallTurnFloods<K, V>(cfg: Config<K>, s: State<K, V>, keep: K, m: nat, a: nat, held: nat)
    requires Flooded(cfg, s, m, a, held) && 1 <= m && s.small[0].key == keep && SmallGives(cfg, s, keep)
    ensures var next, n := TakeTurn(cfg, s, keep).state, if m < |s.small| then m else m - 1;
            Flooded(cfg, next, n, a, held) && 1 <= n && next.small != [] && next.small[0] == s.small[0]
  {
    var front, last := Front(s.small), |s.small| - 1;
    FrontIsWithout(s.small);
    BytesWithout(s.small, last);
    BytesCons(s.small[last].(freq := 0), s.main);
    if m < |s.small| {
      assert front[..m] == s.small[..m];
      assert forall i :: 0 <= i < |front[m..]| ==> front[m..][i] == s.small[m..][i];
      assert s.small[m..][last - m] == s.small[last];
    } else {
      assert s.small[..m] == s.small && front[..m - 1] == front;
    }
  }

  /** The main queue's turn, which comes only while the small queue holds less than its
      share or nothing but keep. */
  lemma MainTurnFloods<K, V>(cfg: Config<K>, s: State<K, V>, keep: K, m: nat, a: nat, flood: nat, held: nat)
    requires Wf(s) && cfg.maxBytes > 0 && cfg.maxEntries == 0 && Over(cfg, s)
    requires Flooded(cfg, s, m, a, held) && 1 <= m && s.small[0].key == keep && s.small[0].cost <= flood
    requires !SmallGives(cfg, s, keep) && !TakeTurn(cfg, s, keep).Stuck?
    ensures var turn := TakeTurn(cfg, s, keep);
            var a' := if turn.Gone? then a + turn.victim.cost else a;
            && Flooded(cfg, turn.state, m, a', held) && turn.state.small == s.small
            && (turn.Gone? ==> turn.fromMain && a' <= ByteCost(cfg.maxBytes, flood, held))
  {
    var turn, i := TakeTurn(cfg, s, keep), OldestButKeep(s.main, keep);
    BytesWithout(s.main, i);
    if turn.Moved? {
      BytesCons(turn.state.main[0], Without(s.main, i));
    }
    PrefixBytes(s.small, m);
    SmallInsideShare(cfg, s, keep, flood);
  }

  lemma SmallInsideShare<K, V>(cfg: Config<K>, s: State<K, V>, keep: K, flood: nat)
    requires Wf(s) && cfg.maxBytes > 0 && cfg.maxEntries == 0
    requires s.small != [] && s.small[0].key == keep && s.small[0].cost <= flood
    requires !SmallGives(cfg, s, keep) && OldestButKeep(s.main, keep) >= 0
    ensures Bytes(s.small) <= Max(Max(cfg.maxBytes / 10, 1) - 1, flood)
  {
    if Last(s.small).key == keep {
      assert |s.small| == 1;
      assert s.small == [s.small[0]];
      BytesOne(s.small[0]);
    }
  }

  lemma {:induction false} LoopSparesMainBytes<K, V>(cfg: Config<K>, s: State<K, V>, keep: K, m: nat, a: nat,
                                                    flood: nat, held: nat)
    returns (n: nat)
    requires Wf(s) && cfg.maxBytes > 0 && cfg.maxEntries == 0
    requires Flooded(cfg, s, m, a, held) && 1 <= m && s.small[0].key == keep && s.small[0].cost <= flood
    requires a <= ByteCost(cfg.maxBytes, flood, held)
    ensures var out, lost := EvictS3Fifo(cfg, s, keep).state, Bytes(MainVictims(cfg, s, keep));
            Wf(out) && Flooded(cfg, out, n, a + lost, held) && a + lost <= ByteCost(cfg.maxBytes, flood, held)
    decreases Effort(s, keep)
  {
    hide Wf, Effort, Over, TakeTurn, Flooded, SmallGives, ByteCost, Bytes;
    FloodedLength(cfg, s, m, a, held);
    var turn := TakeTurn(cfg, s, keep);
    n := m;
    NoBytes<K, V>();
    if Over(cfg, s) && !turn.Stuck? {
      TurnShrinksEffort(cfg, s, keep);
      MainVictimsStep(cfg, s, keep);
      if SmallGives(cfg, s, keep) {
        SmallTurnFloods(cfg, s, keep, m, a, held);
        SmallTurnIsSmall(cfg, s, keep);
        n := LoopSparesMainBytes(cfg, turn.state, keep, if m < |s.small| then m else m - 1, a, flood, held);
      } else {
        MainTurnFloods(cfg, s, keep, m, a, flood, held);
        var rest := MainVictims(cfg, turn.state, keep);
        if turn.Gone? {
          BytesCons(turn.victim, rest);
        }
        n := LoopSparesMainBytes(cfg, turn.state, keep, m, if turn.Gone? then a + turn.victim.cost else a, flood, held);
      }
    }
  }

  lemma FloodedLength<K, V>(cfg: Config<K>, s: State<K, V>, m: nat, a: nat, held: nat)
    requires Flooded(cfg, s, m, a, held)
    ensures m <= |s.small|
  {
  }

  lemma NoBytes<K, V>()
    ensures Bytes<K, V>([]) == 0
  {
  }

  lemma SmallTurnIsSmall<K, V>(cfg: Config<K>, s: State<K, V>, keep: K)
    requires SmallGives(cfg, s, keep)
    ensures var turn := TakeTurn(cfg, s, keep); !turn.Stuck? && (turn.Gone? ==> !turn.fromMain)
  {
  }

  // The flood

  /** What a run of writes takes from the main queue, in order. */
  ghost function FloodVictims<K, V>(cfg: Config<K>, s: State<K, V>, items: seq<Item<K, V>>): Queue<K, V>
    requires Shaped(cfg, s) && cfg.policy == S3FIFO
    decreases |items|
  {
    if items == [] then []
    else
      InsertShaped(cfg, s, items[0]);
      StoreShaped(cfg, s, items[0]);
      MainVictims(cfg, Insert(cfg, s, items[0]), items[0].key)
      + FloodVictims(cfg, Store(cfg, s, items[0]).state, items[1..])
  }

  lemma InsertFloods<K, V>(cfg: Config<K>, s: State<K, V>, item: Item<K, V>, m: nat, a: nat, held: nat)
    requires Shaped(cfg, s) && cfg.policy == S3FIFO && NewTo(cfg, s, item.key) && Flooded(cfg, s, m, a, held)
    ensures var s' := Insert(cfg, s, item);
            Flooded(cfg, s', m + 1, a, held) && s'.small != [] && s'.small[0] == item.(freq := 0)
  {
    hide IsGhost, Bytes;
    var s', entry := Insert(cfg, s, item), item.(freq := 0);
    assert s' == State(s.main, [entry] + s.small, s'.log);
    BytesCons(entry, s.small);
    BytesCons(entry, s.small[..m]);
    assert s'.small[..m + 1] == [entry] + s.small[..m] && s'.small[m + 1..] == s.small[m..];
  }

  lemma {:induction false} FloodSparesMainBytes<K, V>(cfg: Config<K>, s: State<K, V>, items: seq<Item<K, V>>, m: nat,
                                                     a: nat, flood: nat, held: nat)
    requires Shaped(cfg, s) && cfg.policy == S3FIFO && cfg.maxBytes > 0 && cfg.maxEntries == 0
    requires AllNew(cfg, s, items) && CostAtMost(items, flood) && Flooded(cfg, s, m, a, held)
    requires a <= ByteCost(cfg.maxBytes, flood, held)
    ensures a + Bytes(FloodVictims(cfg, s, items)) <= ByteCost(cfg.maxBytes, flood, held)
    decreases |items|
  {
    hide Flooded, ByteCost, Bytes, NewTo, Insert, EvictS3Fifo;
    NoBytes<K, V>();
    if items != [] {
      var item := items[0];
      InsertShaped(cfg, s, item);
      StoreShaped(cfg, s, item);
      InsertFloods(cfg, s, item, m, a, held);
      var s' := Insert(cfg, s, item);
      var n := LoopSparesMainBytes(cfg, s', item.key, m + 1, a, flood, held);
      var lost := MainVictims(cfg, s', item.key);
      FloodSparesMainBytes(cfg, Store(cfg, s, item).state, items[1..], n, a + Bytes(lost), flood, held);
      BytesConcat(lost, FloodVictims(cfg, Store(cfg, s, item).state, items[1..]));
    }
  }

  // The keys it costs

  lemma KeysConcat<K, V>(p: Queue<K, V>, q: Queue<K, V>)
    ensures Keys(p + q) == Keys(p) + Keys(q)
  {
    forall k | k in Keys(p) + Keys(q) ensures k in Keys(p + q) {
      if k in Keys(p) {
        var i :| 0 <= i < |p| && p[i].key == k;
        assert (p + q)[i].key == k;
      } else {
        var i :| 0 <= i < |q| && q[i].key == k;
        assert (p + q)[|p| + i].key == k;
      }
    }
  }

  lemma {:induction false} LoopLosesVictims<K, V>(cfg: Config<K>, s: State<K, V>, keep: K)
    requires Wf(s)
    ensures Keys(s.main) <= Keys(EvictS3Fifo(cfg, s, keep).state.main) + Keys(MainVictims(cfg, s, keep))
    decreases Effort(s, keep)
  {
    hide Wf, Effort, Over, TakeTurn, Keys;
    var turn := TakeTurn(cfg, s, keep);
    if Over(cfg, s) && !turn.Stuck? {
      TurnShrinksEffort(cfg, s, keep);
      MainVictimsStep(cfg, s, keep);
      LoopLosesVictims(cfg, turn.state, keep);
      TurnLosesFromMain(cfg, s, keep);
      if turn.Gone? && turn.fromMain {
        KeysConcat([turn.victim], MainVictims(cfg, turn.state, keep));
        KeysOne(turn.victim);
      }
    }
  }

  lemma KeysOne<K, V>(item: Item<K, V>)
    ensures Keys([item]) == {item.key}
  {
    assert [item][0].key in Keys([item]);
  }

  lemma {:induction false} FloodLosesVictims<K, V>(cfg: Config<K>, s: State<K, V>, items: seq<Item<K, V>>)
    requires Shaped(cfg, s) && cfg.policy == S3FIFO && AllNew(cfg, s, items)
    ensures Keys(s.main) <= Keys(Flood(cfg, s, items).0.main) + Keys(FloodVictims(cfg, s, items))
    decreases |items|
  {
    hide Keys, EvictS3Fifo, IsGhost;
    if items != [] {
      InsertShaped(cfg, s, items[0]);
      StoreShaped(cfg, s, items[0]);
      var s', next := Insert(cfg, s, items[0]), Store(cfg, s, items[0]).state;
      assert s'.main == s.main;
      LoopLosesVictims(cfg, s', items[0].key);
      FloodLosesVictims(cfg, next, items[1..]);
      KeysConcat(MainVictims(cfg, s', items[0].key), FloodVictims(cfg, next, items[1..]));
    }
  }

  /** Scan resistance in bytes. Of the keys of the main queue all but those of the
      victims are still there, and the victims together cost less than the larger of the
      small queue's tenth and the largest of the flood's entries, and the largest entry
      held before it. */
  lemma ScanResistantInBytes<K(!new), V>(cfg: Config<K>, s: State<K, V>, items: seq<Item<K, V>>, flood: nat, held: nat)
    requires Shaped(cfg, s) && cfg.policy == S3FIFO && Injective(cfg.hash)
    requires cfg.maxBytes > 0 && cfg.maxEntries == 0 && TotalBytes(s) <= cfg.maxBytes
    requires Distinct(items) && forall i :: 0 <= i < |items| ==> NewTo(cfg, s, items[i].key)
    requires CostAtMost(items, flood) && CostAtMost(s.main, held) && CostAtMost(s.small, held)
    ensures var lost := FloodVictims(cfg, s, items);
            && Keys(s.main) <= Keys(Flood(cfg, s, items).0.main) + Keys(lost)
            && Bytes(lost) <= ByteCost(cfg.maxBytes, flood, held)
  {
    hide Keys, NewTo, FloodVictims, Flood, ByteCost;
    DistinctNewKeysStayNew(cfg, s, items);
    FloodLosesVictims(cfg, s, items);
    assert s.small[0..] == s.small && Flooded(cfg, s, 0, 0, held);
    FloodSparesMainBytes(cfg, s, items, 0, 0, flood, held);
  }
}
