/**
 A read that races with nobody: taken one atomic step at a time it does to the shard,
 and answers, what the read of the shard's own model does.
 */
module LoneReads {
  import opened ShardModel
  import opened Races

  lemma {:induction false} StepThenRun<K(!new)>(cfg: Config<K>, r: Race<K>, step: Step<K>, rest: seq<Step<K>>)
    requires Ok(cfg, r) && Enabled(cfg, r, step)
    requires Ok(cfg, Next(cfg, r, step)) && Legal(cfg, Next(cfg, r, step), rest)
    ensures Legal(cfg, r, [step] + rest) && Exec(cfg, r, [step] + rest) == Exec(cfg, Next(cfg, r, step), rest)
  {
    hide Ok, Enabled, Next;
    assert ([step] + rest)[1..] == rest;
  }

  lemma UpdateTwice<K, V>(s: State<K, V>, a: Item<K, V>, b: Item<K, V>)
    requires Wf(s) && Resident(s, a.key) && a.key == b.key
    ensures Resident(Update(s, a), b.key) && Update(Update(s, a), b) == Update(s, b)
  {
    FindUpdate(s, a, b.key);
    if Holds(s.main, a.key) {
      IndexUpdate(s.main, IndexOf(s.main, a.key), a, b.key);
    } else {
      IndexUpdate(s.small, IndexOf(s.small, a.key), a, b.key);
    }
  }

  lemma UpdateSame<K, V>(s: State<K, V>, key: K)
    requires Resident(s, key)
    ensures Update(s, Find(s, key)) == s
  {
  }

  lemma ReaderIsAt<K(!new)>(cfg: Config<K>, r: Race<K>, i: nat)
    requires Ok(cfg, r) && InPhase(r, i)
    ensures Wf(r.shard) && Resident(r.shard, r.readers[i].key)
  {
    assert ReaderOk(r, r.readers[i]);
  }

  lemma UnlockLeaves<K(!new)>(r: Race<K>, i: nat)
    ensures Leave(r, i) == r.(readers := Leave(r, i).readers)
  {
  }

  lemma LeaveAfter<K(!new)>(r: Race<K>, r': Race<K>, i: nat, q: Reader<K>)
    requires r'.readers == r.readers[i := q]
    ensures Leave(r', i).readers == Leave(r, i).readers
  {
  }

  /** What is left of a read that has counted itself, or counts nothing: it looks
      whether the refresh is due, claims it and lets the lock go. */
  lemma ClaimsAlone<K(!new)>(cfg: Config<K>, r: Race<K>, i: nat) returns (steps: seq<Step<K>>)
    requires Ok(cfg, r) && InPhase(r, i) && r.readers[i].phase == if cfg.policy == S3FIFO then Counted else Found
    ensures Legal(cfg, r, steps) && Resident(r.shard, r.readers[i].key)
    ensures var q, item := r.readers[i], Find(r.shard, r.readers[i].key);
            var due := q.who != RefreshNone && item.Claims(q.who, q.now);
            Exec(cfg, r, steps) ==
              Leave(r, i).(shard := Update(r.shard, Claimed(item, q.who, q.now)),
                           claims := if due then r.claims + [Claim(item.value, q.who)] else r.claims)
  {
    hide Ok, Update, Find, Resident, Leave;
    ReaderIsAt(cfg, r, i);
    var q, item := r.readers[i], Find(r.shard, r.readers[i].key);
    UpdateSame(r.shard, q.key);
    StepKeeps(cfg, r, LoadDue(i));
    var r1 := Next(cfg, r, LoadDue(i));
    if r1.readers[i].phase.DueSeen? {
      StepKeeps(cfg, r1, Swap(i));
      var r2 := Next(cfg, r1, Swap(i));
      StepKeeps(cfg, r2, Unlock(i));
      assert r2.readers == r.readers[i := r2.readers[i]];
      LeaveAfter(r, r2, i, r2.readers[i]);
      UnlockLeaves(r2, i);
      UnlockLeaves(r, i);
      assert r2.shard == Update(r.shard, Claimed(item, q.who, q.now));
      StepThenRun(cfg, r2, Unlock(i), []);
      StepThenRun(cfg, r1, Swap(i), [Unlock(i)]);
      StepThenRun(cfg, r, LoadDue(i), [Swap(i)] + [Unlock(i)]);
      steps := [LoadDue(i)] + ([Swap(i)] + [Unlock(i)]);
    } else {
      StepKeeps(cfg, r1, Unlock(i));
      LeaveAfter(r, r1, i, r1.readers[i]);
      UnlockLeaves(r1, i);
      UnlockLeaves(r, i);
      StepThenRun(cfg, r1, Unlock(i), []);
      StepThenRun(cfg, r, LoadDue(i), [Unlock(i)]);
      steps := [LoadDue(i)] + [Unlock(i)];
    }
  }

  /** A live read from where it has found the entry. */
  lemma CountsAlone<K(!new)>(cfg: Config<K>, r: Race<K>, i: nat) returns (steps: seq<Step<K>>)
    requires Ok(cfg, r) && cfg.policy != LRU && InPhase(r, i) && r.readers[i].phase == Found
    ensures Legal(cfg, r, steps) && Resident(r.shard, r.readers[i].key)
    ensures var q, item := r.readers[i], Find(r.shard, r.readers[i].key);
            var counted := if cfg.policy == S3FIFO then Bumped(item) else item;
            var due := q.who != RefreshNone && item.Claims(q.who, q.now);
            Exec(cfg, r, steps) ==
              Leave(r, i).(shard := Update(r.shard, Claimed(counted, q.who, q.now)),
                           claims := if due then r.claims + [Claim(item.value, q.who)] else r.claims)
  {
    hide Ok, Update, Find, Resident, Leave;
    ReaderIsAt(cfg, r, i);
    UnlockLeaves(r, i);
    if cfg.policy == S3FIFO {
      var q, item := r.readers[i], Find(r.shard, r.readers[i].key);
      StepKeeps(cfg, r, LoadFreq(i));
      var r1 := Next(cfg, r, LoadFreq(i));
      StepKeeps(cfg, r1, StoreFreq(i));
      var r2 := Next(cfg, r1, StoreFreq(i));
      UpdateSame(r.shard, q.key);
      assert r2.shard == Update(r.shard, Bumped(item));
      FindUpdate(r.shard, Bumped(item), q.key);
      UpdateTwice(r.shard, Bumped(item), Claimed(Bumped(item), q.who, q.now));
      var rest := ClaimsAlone(cfg, r2, i);
      LeaveAfter(r, r2, i, r2.readers[i]);
      UnlockLeaves(r2, i);
      StepThenRun(cfg, r1, StoreFreq(i), rest);
      StepThenRun(cfg, r, LoadFreq(i), [StoreFreq(i)] + rest);
      steps := [LoadFreq(i)] + ([StoreFreq(i)] + rest);
    } else {
      steps := ClaimsAlone(cfg, r, i);
    }
  }

  /** With nobody else about, the steps of a read under the read lock, and of its second
      lock if it finds the entry expired, are the read of the model. */
  lemma LoneRead<K(!new)>(cfg: Config<K>, r: Race<K>, i: nat, key: K, now: int, who: Refresher)
    returns (steps: seq<Step<K>>)
    requires Ok(cfg, r) && cfg.policy != LRU && Unread(r) && i !in r.readers && Resident(r.shard, key)
    ensures Legal(cfg, r, steps)
    ensures var out, item := Get(cfg, r.shard, key, now, who), Find(r.shard, key);
            Exec(cfg, r, steps) ==
              r.(shard := out.state,
                 expired := if out.expired then r.expired + [item] else r.expired,
                 claims := if out.refresh then r.claims + [Claim(item.value, who)] else r.claims)
  {
    var start := StartRead(i, key, now, who);
    StepKeeps(cfg, r, start);
    var r1, item := Next(cfg, r, start), Find(r.shard, key);
    if item.Expired(now) {
      StepKeeps(cfg, r1, Relock(i));
      assert Leave(r1, i).readers == r.readers;
      StepThenRun(cfg, r1, Relock(i), []);
      StepThenRun(cfg, r, start, [Relock(i)]);
      steps := [start] + [Relock(i)];
    } else {
      var rest := CountsAlone(cfg, r1, i);
      assert Leave(r1, i).readers == r.readers;
      StepThenRun(cfg, r, start, rest);
      steps := [start] + rest;
    }
  }
}
