/**
 What eviction promises under every policy: it stops, inside the budget, having
 spared the entry just stored, and what it took out and what it left are together
 what was there. For S3FIFO, whose loop also moves entries about, the number of
 turns is bounded by the queues' lengths.
 */
module Eviction {
  import opened ShardModel

  // Entries counted without their reads

  /** How many entries of q are such that f. */
  ghost function Tally<K, V>(q: Queue<K, V>, f: Item<K, V> -> bool): nat {
    if q == [] then 0
    else (if f(q[0]) then 1 else 0) + Tally(q[1..], f)
  }

  ghost function Holding<K, V>(s: State<K, V>, f: Item<K, V> -> bool): nat {
    Tally(s.main, f) + Tally(s.small, f)
  }

  /** f does not look at the read count, which eviction changes. */
  ghost predicate Blind<K(!new), V(!new)>(f: Item<K, V> -> bool) {
    forall item: Item<K, V>, n: nat :: f(item.(freq := n)) == f(item)
  }

  lemma {:induction false} TallyConcat<K, V>(p: Queue<K, V>, q: Queue<K, V>, f: Item<K, V> -> bool)
    ensures Tally(p + q, f) == Tally(p, f) + Tally(q, f)
  {
    if p == [] {
      assert p + q == q;
    } else {
      assert (p + q)[1..] == p[1..] + q;
      TallyConcat(p[1..], q, f);
    }
  }

  lemma TallyAround<K, V>(front: Queue<K, V>, q: Queue<K, V>, rest: Queue<K, V>, f: Item<K, V> -> bool)
    ensures Tally(front + (q + rest), f) == Tally(front + rest, f) + Tally(q, f)
  {
    hide Tally;
    TallyConcat(front, q + rest, f);
    TallyConcat(q, rest, f);
    TallyConcat(front, rest, f);
  }

  lemma TallyWithout<K, V>(q: Queue<K, V>, i: nat, f: Item<K, V> -> bool)
    requires i < |q|
    ensures Tally(q, f) == Tally(Without(q, i), f) + Tally([q[i]], f)
  {
    hide Tally, Without;
    TakenOut(q, i);
    TallyAround(q[..i], [q[i]], q[i + 1..], f);
  }

  lemma FrontIsWithout<T>(q: seq<T>)
    requires q != []
    ensures Front(q) == Without(q, |q| - 1)
  {
  }

  // S3FIFO

  /** What the eviction loop relies on about the entry it was called for: it is
      resident, the newest of the small queue if it is there, and fits alone. */
  ghost predicate Spared<K, V>(cfg: Config<K>, s: State<K, V>, keep: K) {
    && Wf(s) && Resident(s, keep)
    && (Holds(s.small, keep) ==> s.small[0].key == keep)
    && Fits(cfg, Find(s, keep))
  }

  lemma BytesOne<K, V>(item: Item<K, V>)
    ensures Bytes([item]) == item.cost
  {
  }

  /** There is nothing but keep left to give only once the shard is inside its
      budget, so the loop's break is never reached. */
  lemma StuckOnlyInside<K, V>(cfg: Config<K>, s: State<K, V>, keep: K)
    requires Spared(cfg, s, keep) && TakeTurn(cfg, s, keep).Stuck?
    ensures !Over(cfg, s)
  {
    if s.main != [] {
      assert s.main == [s.main[0]] && s.main[0].key == keep;
      assert s.small == [];
      BytesOne(s.main[0]);
    } else {
      assert Last(s.small).key == keep && s.small == [s.small[0]];
      BytesOne(s.small[0]);
    }
  }

  lemma HeldAt<K, V>(q: Queue<K, V>, i: nat, key: K)
    requires Distinct(q) && i < |q| && q[i].key == key
    ensures Holds(q, key) && IndexOf(q, key) == i
  {
  }

  lemma DistinctWithout<K, V>(q: Queue<K, V>, i: nat)
    requires Distinct(q) && i < |q|
    ensures Distinct(Without(q, i))
  {
  }

  /** Taking another entry out leaves keep as it was. */
  lemma WithoutOther<K, V>(q: Queue<K, V>, i: nat, keep: K)
    requires Distinct(q) && i < |q| && q[i].key != keep
    ensures Holds(Without(q, i), keep) <==> Holds(q, keep)
    ensures Holds(q, keep) ==> Without(q, i)[IndexOf(Without(q, i), keep)] == q[IndexOf(q, keep)]
  {
    hide Distinct, Holds, IndexOf;
    var r, j := Without(q, i), IndexOf(q, keep);
    if Holds(q, keep) {
      AtIndex(q, keep);
      DistinctWithout(q, i);
      HeldAt(r, if j < i then j else j - 1, keep);
    } else if Holds(r, keep) {
      WithoutBringsNothing(q, i, keep);
    }
  }

  lemma ConsOther<K, V>(item: Item<K, V>, q: Queue<K, V>, keep: K)
    requires item.key != keep
    ensures Holds([item] + q, keep) <==> Holds(q, keep)
    ensures Holds(q, keep) ==> ([item] + q)[IndexOf([item] + q, keep)] == q[IndexOf(q, keep)]
  {
    assert ([item] + q)[1..] == q;
  }

  /** A turn spares keep, and only what it reports gone is gone. */
  lemma {:induction false} TurnSpares<K, V>(cfg: Config<K>, s: State<K, V>, keep: K)
    requires Spared(cfg, s, keep) && !TakeTurn(cfg, s, keep).Stuck?
    ensures var next := TakeTurn(cfg, s, keep).state;
            && Spared(cfg, next, keep) && Find(next, keep) == Find(s, keep)
            && (Holds(next.small, keep) <==> Holds(s.small, keep))
  {
    var next := TakeTurn(cfg, s, keep).state;
    TurnShrinksEffort(cfg, s, keep);
    if SmallGives(cfg, s, keep) {
      FrontIsWithout(s.small);
      WithoutOther(s.small, |s.small| - 1, keep);
      if Last(s.small).freq > 0 {
        ConsOther(Last(s.small).(freq := 0), s.main, keep);
      }
    } else {
      var i := OldestButKeep(s.main, keep);
      assert s.main[i].key != keep;
      WithoutOther(s.main, i, keep);
      if s.main[i].freq > 0 {
        ConsOther(s.main[i].(freq := s.main[i].freq - 1), Without(s.main, i), keep);
      }
    }
  }

  lemma TurnConserves<K(!new), V(!new)>(cfg: Config<K>, s: State<K, V>, keep: K, f: Item<K, V> -> bool)
    requires Wf(s) && !TakeTurn(cfg, s, keep).Stuck? && Blind(f)
    ensures var turn := TakeTurn(cfg, s, keep);
            Holding(s, f) == Holding(turn.state, f) + if turn.Gone? then Tally([turn.victim], f) else 0
  {
    if SmallGives(cfg, s, keep) {
      FrontIsWithout(s.small);
      TallyWithout(s.small, |s.small| - 1, f);
      TallyConcat([Last(s.small).(freq := 0)], s.main, f);
    } else {
      var i := OldestButKeep(s.main, keep);
      TallyWithout(s.main, i, f);
      if s.main[i].freq > 0 {
        TallyConcat([s.main[i].(freq := s.main[i].freq - 1)], Without(s.main, i), f);
      }
    }
  }

  /** Total correctness of the S3FIFO loop: it ends inside the budget, spares
      keep where it is, and takes no more turns than two for each other entry of
      the small queue and one for each read, and one more, of each other entry of
      the main queue. */
  lemma {:induction false} EvictS3FifoCorrect<K, V>(cfg: Config<K>, s: State<K, V>, keep: K)
    requires Spared(cfg, s, keep)
    ensures var out := EvictS3Fifo(cfg, s, keep);
            && Spared(cfg, out.state, keep) && Find(out.state, keep) == Find(s, keep)
            && (Holds(out.state.small, keep) <==> Holds(s.small, keep))
            && !Over(cfg, out.state)
            && out.fromMain <= |out.victims| <= out.turns <= Effort(s, keep)
    decreases Effort(s, keep)
  {
    if Over(cfg, s) {
      var turn := TakeTurn(cfg, s, keep);
      if turn.Stuck? {
        StuckOnlyInside(cfg, s, keep);
      }
      TurnShrinksEffort(cfg, s, keep);
      TurnSpares(cfg, s, keep);
      EvictS3FifoCorrect(cfg, turn.state, keep);
    }
  }

  /** The S3FIFO loop loses nothing but its victims. */
  lemma {:induction false} EvictS3FifoConserves<K(!new), V(!new)>(
      cfg: Config<K>, s: State<K, V>, keep: K, f: Item<K, V> -> bool)
    requires Wf(s) && Blind(f)
    ensures var out := EvictS3Fifo(cfg, s, keep);
            Holding(s, f) == Holding(out.state, f) + Tally(out.victims, f)
    decreases Effort(s, keep)
  {
    var turn := TakeTurn(cfg, s, keep);
    if Over(cfg, s) && !turn.Stuck? {
      TurnShrinksEffort(cfg, s, keep);
      TurnConserves(cfg, s, keep, f);
      EvictS3FifoConserves(cfg, turn.state, keep, f);
      if turn.Gone? {
        TallyConcat([turn.victim], EvictS3Fifo(cfg, turn.state, keep).victims, f);
      }
    }
  }

  ghost predicate FreqCapped<K, V>(q: Queue<K, V>) {
    forall i :: 0 <= i < |q| ==> q[i].freq <= MAX_FREQ
  }

  lemma {:induction false} RoundsAtMost<K, V>(q: Queue<K, V>, keep: K)
    requires FreqCapped(q)
    ensures Rounds(q, keep) <= (MAX_FREQ + 1) * |q|
  {
    if q == [] {
    } else {
      RoundsAtMost(q[1..], keep);
    }
  }

  /** One eviction is linear in the entries held. */
  lemma {:induction false} EvictionIsLinear<K, V>(cfg: Config<K>, s: State<K, V>, keep: K)
    requires Spared(cfg, s, keep) && FreqCapped(s.main)
    ensures EvictS3Fifo(cfg, s, keep).turns <= 2 * |s.small| + 4 * |s.main|
  {
    EvictS3FifoCorrect(cfg, s, keep);
    RoundsAtMost(s.main, keep);
  }

  // LRU

  /** The victims of an LRU eviction are the shortest suffix of the recency
      order, oldest first, whose removal fits the budget; the survivors keep
      their order. */
  lemma {:induction false} EvictLruTakesShortestSuffix<K, V>(cfg: Config<K>, s: State<K, V>, keep: K)
    requires Distinct(s.main) && s.small == []
    requires s.main != [] && s.main[0].key == keep && Fits(cfg, s.main[0])
    ensures var out := EvictLru(cfg, s, keep);
            var k := |out.state.main|;
            && 1 <= k <= |s.main|
            && out.state == s.(main := s.main[..k])
            && !Over(cfg, out.state)
            && (forall m :: k < m <= |s.main| ==> Over(cfg, s.(main := s.main[..m])))
            && |out.victims| == |s.main| - k
            && (forall i :: 0 <= i < |out.victims| ==> out.victims[i] == s.main[|s.main| - 1 - i])
    decreases |s.main|
  {
    assert s.main[..|s.main|] == s.main;
    if |s.main| == 1 {
      BytesOne(s.main[0]);
      assert s.main == [s.main[0]];
    } else if Over(cfg, s) {
      var shorter := s.(main := Front(s.main));
      EvictLruTakesShortestSuffix(cfg, shorter, keep);
      assert forall m :: 0 <= m < |s.main| ==> shorter.main[..m] == s.main[..m];
    }
  }

  lemma {:induction false} EvictLruConserves<K, V>(cfg: Config<K>, s: State<K, V>, keep: K, f: Item<K, V> -> bool)
    ensures var out := EvictLru(cfg, s, keep);
            Holding(s, f) == Holding(out.state, f) + Tally(out.victims, f)
    decreases |s.main|
  {
    if Over(cfg, s) && s.main != [] && Last(s.main).key != keep {
      var shorter := s.(main := Front(s.main));
      EvictLruConserves(cfg, shorter, keep, f);
      FrontIsWithout(s.main);
      TallyWithout(s.main, |s.main| - 1, f);
      TallyConcat([Last(s.main)], EvictLru(cfg, shorter, keep).victims, f);
    }
  }

  // Every policy

  /** Where the entry just stored stands when eviction starts. */
  ghost predicate JustStored<K, V>(cfg: Config<K>, s: State<K, V>, keep: K) {
    && Shaped(cfg, s) && Spared(cfg, s, keep)
    && (cfg.policy != S3FIFO ==> s.main != [] && s.main[0].key == keep)
  }

  /** Eviction ends inside the budget and spares the entry it was called for. */
  lemma EvictCorrect<K, V>(cfg: Config<K>, s: State<K, V>, keep: K)
    requires JustStored(cfg, s, keep)
    ensures var out := Evict(cfg, s, keep);
            && Shaped(cfg, out.state) && !Over(cfg, out.state)
            && Resident(out.state, keep) && Find(out.state, keep) == Find(s, keep)
  {
    if Over(cfg, s) {
      match cfg.policy
      case S3FIFO => EvictS3FifoCorrect(cfg, s, keep);
      case ClearOnFull => BytesOne(s.main[0]);
      case LRU => EvictLruTakesShortestSuffix(cfg, s, keep);
    }
  }

  /** Eviction loses nothing but its victims: whatever is counted, reads apart,
      is still there or among them. */
  lemma EvictConserves<K(!new), V(!new)>(cfg: Config<K>, s: State<K, V>, keep: K, f: Item<K, V> -> bool)
    requires JustStored(cfg, s, keep) && Blind(f)
    ensures var out := Evict(cfg, s, keep);
            Holding(s, f) == Holding(out.state, f) + Tally(out.victims, f)
  {
    if Over(cfg, s) {
      match cfg.policy
      case S3FIFO => EvictS3FifoConserves(cfg, s, keep, f);
      case ClearOnFull => TallyWithout(s.main, 0, f);
      case LRU => EvictLruConserves(cfg, s, keep, f);
    }
  }
}
