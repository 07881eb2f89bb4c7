/**
 The budgets in numbers: what is refused, when a write evicts, and what sweeps and
 ghosts come to.
 */
module Budgets {
  import opened GhostLog
  import opened Maybe
  import opened ShardModel
  import opened Eviction
  import opened Runs
  import opened TtlAgreement

  /** The shard holds no more bytes and entries than it may; zero is no limit. */
  predicate Within<K>(cfg: Config<K>, bytes: int, entries: nat) {
    && (cfg.maxBytes == 0 || bytes <= cfg.maxBytes)
    && (cfg.maxEntries == 0 || entries <= cfg.maxEntries)
  }

  /** What the shard would hold with the entry in place of its key's old one. */
  function BytesWith<K(==), V>(s: State<K, V>, item: Item<K, V>): int {
    Bytes(s.main) + Bytes(s.small) + item.cost - if Resident(s, item.key) then Find(s, item.key).cost else 0
  }

  function EntriesWith<K(==), V>(s: State<K, V>, item: Item<K, V>): nat {
    |s.main| + |s.small| + if Resident(s, item.key) then 0 else 1
  }

  lemma RemoveCounts<K, V>(cfg: Config<K>, s: State<K, V>, key: K)
    requires Shaped(cfg, s)
    ensures var out := Remove(s, key);
            if Resident(s, key)
            then TotalBytes(out) + Find(s, key).cost == TotalBytes(s) && Count(out) + 1 == Count(s)
            else out == s
  {
    if Holds(s.main, key) {
      BytesWithout(s.main, IndexOf(s.main, key));
    } else if Holds(s.small, key) {
      BytesWithout(s.small, IndexOf(s.small, key));
    }
  }

  lemma InsertCounts<K, V>(cfg: Config<K>, s: State<K, V>, item: Item<K, V>)
    requires Shaped(cfg, s)
    ensures var s' := Insert(cfg, s, item); TotalBytes(s') == BytesWith(s, item) && Count(s') == EntriesWith(s, item)
  {
    hide Remove, IsGhost, Resident, Find, Bytes;
    RemoveCounts(cfg, s, item.key);
    var s', rest := Insert(cfg, s, item), Remove(s, item.key);
    if s'.small == rest.small {
      BytesCons(s'.main[0], rest.main);
    } else {
      BytesCons(s'.small[0], rest.small);
    }
  }

  lemma TurnGives<K, V>(cfg: Config<K>, s: State<K, V>, keep: K)
    requires Wf(s)
    ensures var turn := TakeTurn(cfg, s, keep);
            turn.Moved? ==> TotalBytes(turn.state) == TotalBytes(s) && Count(turn.state) == Count(s)
  {
    if SmallGives(cfg, s, keep) {
      FrontIsWithout(s.small);
      BytesWithout(s.small, |s.small| - 1);
      BytesCons(Last(s.small).(freq := 0), s.main);
    } else {
      var i := OldestButKeep(s.main, keep);
      if 0 <= i {
        BytesWithout(s.main, i);
        BytesCons(s.main[i].(freq := if s.main[i].freq > 0 then s.main[i].freq - 1 else 0), Without(s.main, i));
      }
    }
  }

  lemma {:induction false} LoopWithoutVictims<K, V>(cfg: Config<K>, s: State<K, V>, keep: K)
    requires Wf(s) && EvictS3Fifo(cfg, s, keep).victims == []
    ensures var out := EvictS3Fifo(cfg, s, keep).state; TotalBytes(out) == TotalBytes(s) && Count(out) == Count(s)
    decreases Effort(s, keep)
  {
    hide TotalBytes, Count, Wf, Effort, TakeTurn;
    var turn := TakeTurn(cfg, s, keep);
    if Over(cfg, s) && !turn.Stuck? {
      TurnShrinksEffort(cfg, s, keep);
      TurnGives(cfg, s, keep);
      LoopWithoutVictims(cfg, turn.state, keep);
    }
  }

  lemma OnlyKeepFits<K, V>(cfg: Config<K>, s: State<K, V>, keep: K)
    requires JustStored(cfg, s, keep) && cfg.policy != S3FIFO && Over(cfg, s)
    ensures |s.main| > 1
  {
    if |s.main| == 1 {
      assert s.main == [s.main[0]];
      BytesOne(s.main[0]);
    }
  }

  lemma EvictsWhenOver<K, V>(cfg: Config<K>, s: State<K, V>, keep: K)
    requires JustStored(cfg, s, keep)
    ensures Evict(cfg, s, keep).victims == [] <==> !Over(cfg, s)
  {
    if Over(cfg, s) {
      EvictCorrect(cfg, s, keep);
      match cfg.policy
      case S3FIFO =>
        if EvictS3Fifo(cfg, s, keep).victims == [] {
          LoopWithoutVictims(cfg, s, keep);
        }
      case ClearOnFull => OnlyKeepFits(cfg, s, keep);
      case LRU => EvictLruTakesShortestSuffix(cfg, s, keep);
    }
  }

  lemma OverInNumbers<K, V>(cfg: Config<K>, s: State<K, V>)
    ensures Over(cfg, s) <==> !Within(cfg, TotalBytes(s), Count(s))
  {
  }

  /** A write is refused exactly if its entry alone is more than the bytes allowed, and
      dropped exactly if it is not but its load was invalidated. */
  lemma RefusedExactlyWhenTooLarge<K, V>(cfg: Config<K>, s: State<K, V>, item: Item<K, V>, valid: bool)
    requires Shaped(cfg, s)
    ensures var r := Set(cfg, s, item, valid);
            && (r.TooLarge? <==> cfg.maxBytes > 0 && item.cost > cfg.maxBytes)
            && (r.Superseded? <==> (cfg.maxBytes == 0 || item.cost <= cfg.maxBytes) && !valid)
  {
  }

  /** A stored write evicts exactly if the shard would hold more than it may with the
      entry in place of the old one; ClearOnFull then leaves nothing but the entry. */
  lemma EvictsExactlyWhenFull<K, V>(cfg: Config<K>, s: State<K, V>, item: Item<K, V>)
    requires Good(cfg, s) && (cfg.maxBytes == 0 || item.cost <= cfg.maxBytes)
    ensures var r, fits := Set(cfg, s, item, true), Within(cfg, BytesWith(s, item), EntriesWith(s, item));
            && r.Stored? && (r.victims == [] <==> fits)
            && r.replaced == (if Resident(s, item.key) then Some(Find(s, item.key)) else None)
            && (fits ==> Bytes(r.state.main) + Bytes(r.state.small) == BytesWith(s, item)
                         && |r.state.main| + |r.state.small| == EntriesWith(s, item))
            && (!fits && cfg.policy == ClearOnFull ==>
                  r.state.main == [item.(freq := 0)] && r.state.small == [])
  {
    hide Over, Insert;
    var s' := Insert(cfg, s, item);
    InsertReady(cfg, s, item);
    InsertCounts(cfg, s, item);
    OverInNumbers(cfg, s');
    EvictsWhenOver(cfg, s', item.key);
    if cfg.policy == ClearOnFull {
      InsertedFirst(cfg, s, item);
    }
  }

  lemma InsertedFirst<K, V>(cfg: Config<K>, s: State<K, V>, item: Item<K, V>)
    requires Shaped(cfg, s) && cfg.policy != S3FIFO
    ensures var s' := Insert(cfg, s, item); s'.small == [] && s'.main != [] && s'.main[0] == item.(freq := 0)
  {
    RemoveShaped(cfg, s, item.key);
  }

  // Sweeps

  lemma {:induction false} UnexpiredFinds<K, V>(q: Queue<K, V>, now: int, key: K)
    requires Distinct(q)
    ensures var r := Unexpired(q, now);
            && (Holds(r, key) <==> Holds(q, key) && !q[IndexOf(q, key)].Expired(now))
            && (Holds(r, key) ==> r[IndexOf(r, key)] == q[IndexOf(q, key)])
  {
    UnexpiredKeeps(q, now);
    var r := Unexpired(q, now);
    if Holds(r, key) {
      var i := IndexOf(r, key);
      var j :| 0 <= j < |q| && q[j] == r[i];
      HeldAt(q, j, key);
    }
    if Holds(q, key) && !q[IndexOf(q, key)].Expired(now) {
      UnexpiredHolds(q, now, key);
    }
  }

  /** A sweep takes out what has expired by its clock and leaves the rest as it was. */
  lemma SweepTakesExactlyExpired<K, V>(s: State<K, V>, now: int, key: K)
    requires Wf(s)
    ensures var s' := Sweep(s, now);
            && (Resident(s', key) <==>
                  Resident(s, key) && !(Find(s, key).expiresAt != 0 && Find(s, key).expiresAt <= now))
            && (Resident(s', key) ==> Find(s', key) == Find(s, key)
                                      && (Holds(s'.small, key) <==> Holds(s.small, key)))
  {
    UnexpiredFinds(s.main, now, key);
    UnexpiredFinds(s.small, now, key);
  }

  // Ghosts

  /** What the small queue lets out becomes a ghost, and of the ghosts there were
      exactly those added last stay, as many adds back as the shard still holds
      entries, and one at least. */
  lemma LetOutRemembersAsMany<K, V>(cfg: Config<K>, s: State<K, V>, g: nat)
    requires s.small != []
    ensures var next := LetOut(cfg, s);
            IsGhost(next.log, g) <==>
              || g == cfg.hash(Last(s.small).key)
              || (IsGhost(s.log, g) && AddedWithin(s.log, g, Max(|next.main| + |next.small|, 1) - 1))
  {
    var next, h := LetOut(cfg, s), cfg.hash(Last(s.small).key);
    assert |next.main| + |next.small| == Count(s) - 1;
    AddMakesGhost(s.log, h, Count(s) - 1, g);
    if g != h {
      AddForgetsOldest(s.log, h, Count(s) - 1, g);
    }
  }
}
