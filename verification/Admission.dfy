/**
 Which queue an S3FIFO write joins. With hashes that do not collide no resident
 key is ever a ghost, so a replacement stays in the queue of the entry it
 replaces; a key that comes back as a ghost goes to the main queue, and any other
 to the small one.
 */
module Admission {
  import opened GhostLog
  import opened ShardModel
  import opened Eviction
  import opened Runs
  import opened ScanResistance

  ghost predicate Unmixed<K, V>(cfg: Config<K>, s: State<K, V>, key: K) {
    Resident(s, key) ==> !IsGhost(s.log, cfg.hash(key))
  }

  lemma TurnUnmixed<K(!new), V>(cfg: Config<K>, s: State<K, V>, keep: K, key: K)
    requires Wf(s) && !TakeTurn(cfg, s, keep).Stuck? && Injective(cfg.hash) && Unmixed(cfg, s, key)
    ensures Unmixed(cfg, TakeTurn(cfg, s, keep).state, key)
  {
    var next := TakeTurn(cfg, s, keep).state;
    if Resident(next, key) {
      TurnResident(cfg, s, keep, key);
      if SmallGives(cfg, s, keep) && Last(s.small).freq == 0 {
        var t := Last(s.small);
        assert t.key != key;
        AddMakesGhost(s.log, cfg.hash(t.key), Count(s) - 1, cfg.hash(key));
      }
    }
  }

  /** Eviction brings nothing in. */
  lemma TurnResident<K, V>(cfg: Config<K>, s: State<K, V>, keep: K, key: K)
    requires Wf(s) && !TakeTurn(cfg, s, keep).Stuck? && Resident(TakeTurn(cfg, s, keep).state, key)
    ensures Resident(s, key)
  {
    hide Holds, IndexOf, Without, Wf, SmallFull;
    if SmallGives(cfg, s, keep) {
      var last := |s.small| - 1;
      FrontIsWithout(s.small);
      ConsHolds(s.small[last].(freq := 0), s.main, key);
      if Holds(Without(s.small, last), key) {
        WithoutBringsNothing(s.small, last, key);
      } else if s.small[last].key == key {
        HeldSomewhere(s.small, last, key);
      }
    } else {
      var i := OldestButKeep(s.main, keep);
      var rest := Without(s.main, i);
      if s.main[i].freq > 0 {
        ConsHolds(s.main[i].(freq := s.main[i].freq - 1), rest, key);
      }
      if Holds(rest, key) {
        WithoutBringsNothing(s.main, i, key);
      } else if s.main[i].key == key {
        HeldSomewhere(s.main, i, key);
      }
    }
  }

  lemma {:induction false} EvictUnmixed<K(!new), V>(cfg: Config<K>, s: State<K, V>, keep: K, key: K)
    requires Wf(s) && Injective(cfg.hash) && Unmixed(cfg, s, key)
    ensures Unmixed(cfg, EvictS3Fifo(cfg, s, keep).state, key)
    decreases Effort(s, keep)
  {
    if Over(cfg, s) && !TakeTurn(cfg, s, keep).Stuck? {
      TurnShrinksEffort(cfg, s, keep);
      TurnUnmixed(cfg, s, keep, key);
      EvictUnmixed(cfg, TakeTurn(cfg, s, keep).state, keep, key);
    }
  }

  lemma InsertUnmixed<K(!new), V>(cfg: Config<K>, s: State<K, V>, item: Item<K, V>, key: K)
    requires cfg.policy == S3FIFO && Injective(cfg.hash) && Shaped(cfg, s) && Unmixed(cfg, s, key)
    ensures Unmixed(cfg, Insert(cfg, s, item), key)
  {
    hide IsGhost;
    TakeForgets(s.log, cfg.hash(item.key), cfg.hash(key));
    if key != item.key && Resident(Insert(cfg, s, item), key) {
      InsertBringsNothing(cfg, s, item, key);
    }
  }

  lemma WriteUnmixed<K(!new), V>(cfg: Config<K>, s: State<K, V>, item: Item<K, V>, key: K)
    requires cfg.policy == S3FIFO && Injective(cfg.hash) && Shaped(cfg, s) && Unmixed(cfg, s, key) && Fits(cfg, item)
    ensures Unmixed(cfg, Set(cfg, s, item, true).state, key)
  {
    hide Insert, EvictS3Fifo, Unmixed;
    InsertShaped(cfg, s, item);
    InsertUnmixed(cfg, s, item, key);
    EvictUnmixed(cfg, Insert(cfg, s, item), item.key, key);
  }

  lemma SweepBringsNothing<K, V>(s: State<K, V>, now: int, key: K)
    ensures Resident(Sweep(s, now), key) ==> Resident(s, key)
  {
    UnexpiredKeeps(s.main, now);
    UnexpiredKeeps(s.small, now);
  }

  lemma ReadBringsNothing<K, V>(cfg: Config<K>, s: State<K, V>, k: K, now: int, who: Refresher, key: K)
    requires cfg.policy == S3FIFO && Shaped(cfg, s)
    ensures var next := Get(cfg, s, k, now, who).state;
            next.log == s.log && (Resident(next, key) ==> Resident(s, key))
  {
    RemoveBringsNothing(cfg, s, k, key);
  }

  lemma ApplyUnmixed<K(!new), V>(cfg: Config<K>, s: State<K, V>, op: Op<K, V>, key: K)
    requires cfg.policy == S3FIFO && Injective(cfg.hash) && Good(cfg, s) && Unmixed(cfg, s, key)
    ensures Unmixed(cfg, Apply(cfg, s, op), key)
  {
    match op
    case Read(k, now, who) => ReadBringsNothing(cfg, s, k, now, who, key);
    case Write(item, valid) =>
      if Fits(cfg, item) && valid {
        WriteUnmixed(cfg, s, item, key);
      }
    case Delete(k) => RemoveBringsNothing(cfg, s, k, key);
    case SweepAt(now) => SweepBringsNothing(s, now, key);
    case Clear =>
  }

  /** In every run with hashes that do not collide no resident key is a ghost. */
  lemma {:induction false} RunUnmixed<K(!new), V>(cfg: Config<K>, s: State<K, V>, ops: seq<Op<K, V>>, key: K)
    requires cfg.policy == S3FIFO && Injective(cfg.hash) && Good(cfg, s) && Unmixed(cfg, s, key)
    ensures Unmixed(cfg, Run(cfg, s, ops), key)
    decreases |ops|
  {
    if ops == [] {
    } else {
      ApplyGood(cfg, s, ops[0]);
      ApplyUnmixed(cfg, s, ops[0], key);
      RunUnmixed(cfg, Apply(cfg, s, ops[0]), ops[1..], key);
    }
  }

  /** Where a stored write ends up, and with how many reads, whatever the eviction
      it causes moves about. */
  lemma WriteAdmits<K, V>(cfg: Config<K>, s: State<K, V>, item: Item<K, V>)
    requires cfg.policy == S3FIFO && Good(cfg, s) && Fits(cfg, item)
    ensures var r := Set(cfg, s, item, true);
            && r.Stored? && Resident(r.state, item.key)
            && (Holds(r.state.small, item.key) <==>
                !Holds(s.main, item.key) && !IsGhost(s.log, cfg.hash(item.key)))
            && Find(r.state, item.key).freq == if Holds(s.main, item.key) then Find(s, item.key).freq else 0
  {
    InsertReady(cfg, s, item);
    RemoveShaped(cfg, s, item.key);
    var s' := Insert(cfg, s, item);
    EvictS3FifoCorrect(cfg, s', item.key);
    ConsHeld(s'.main, item.key);
    ConsHeld(s'.small, item.key);
  }

  /** A write's entry comes in as the newest of its queue, ahead of the others as they
      were; under S3FIFO into the small queue, unless it replaces an entry of the main
      queue or its key is a ghost. */
  lemma NewestComesFirst<K, V>(cfg: Config<K>, s: State<K, V>, item: Item<K, V>)
    requires Shaped(cfg, s)
    ensures var s', main, small := Insert(cfg, s, item), Drop(s.main, item.key), Drop(s.small, item.key);
            if cfg.policy == S3FIFO && !Holds(s.main, item.key) && !IsGhost(s.log, cfg.hash(item.key)) then
              s'.main == main && s'.small == [item.(freq := 0)] + small
            else
              s'.small == small && |s'.main| == 1 + |main| && s'.main[1..] == main
              && var count := if cfg.policy == S3FIFO && Holds(s.main, item.key) then Find(s, item.key).freq else 0;
                 s'.main[0] == item.(freq := count)
  {
    hide IsGhost, Drop;
    RemoveShaped(cfg, s, item.key);
  }

  lemma ConsHeld<K, V>(q: Queue<K, V>, key: K)
    ensures q != [] && q[0].key == key ==> IndexOf(q, key) == 0
  {
  }

  /** A replacement stays in the queue of the entry it replaces. */
  lemma ReplacementKeepsItsQueue<K(!new), V>(cfg: Config<K>, ops: seq<Op<K, V>>, item: Item<K, V>)
    requires cfg.policy == S3FIFO && Injective(cfg.hash) && Fits(cfg, item)
    requires Resident(Run(cfg, Start(), ops), item.key)
    ensures var s := Run(cfg, Start(), ops);
            && Good(cfg, s)
            && (Holds(Set(cfg, s, item, true).state.small, item.key) <==> Holds(s.small, item.key))
  {
    RunGood(cfg, Start(), ops);
    RunUnmixed(cfg, Start(), ops, item.key);
    var s := Run(cfg, Start(), ops);
    WriteAdmits(cfg, s, item);
  }
}
