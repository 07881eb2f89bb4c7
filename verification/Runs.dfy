/**
 Runs of a shard: any sequence of reads, writes, deletes, sweeps and clears, and
 what holds after every one of them under every policy and budget.
 */
module Runs {
  import opened GhostLog
  import opened ShardModel
  import opened Eviction

  datatype Op<K, V> =
    | Read(key: K, now: int, who: Refresher)
    | Write(item: Item<K, V>, valid: bool)
    | Delete(key: K)
    | SweepAt(now: int)
    | Clear

  ghost function Apply<K, V>(cfg: Config<K>, s: State<K, V>, op: Op<K, V>): State<K, V>
    requires Shaped(cfg, s)
  {
    match op
    case Read(key, now, who) => Get(cfg, s, key, now, who).state
    case Write(item, valid) =>
      var r := Set(cfg, s, item, valid);
      if r.Stored? then r.state else s
    case Delete(key) => Remove(s, key)
    case SweepAt(now) => Sweep(s, now)
    case Clear => Start()
  }

  /** A new shard. */
  function Start<K, V>(): State<K, V> {
    State([], [], Empty)
  }

  /** What every operation keeps: no key twice, no small queue but S3FIFO's, read
      counts capped, nothing that could not fit alone, and the shard in budget. */
  ghost predicate Good<K, V>(cfg: Config<K>, s: State<K, V>) {
    Shaped(cfg, s) && Capped(cfg, s) && !Over(cfg, s)
  }

  ghost predicate AllFit<K, V>(cfg: Config<K>, q: Queue<K, V>) {
    forall i :: 0 <= i < |q| ==> Fits(cfg, q[i])
  }

  // Less is never over

  lemma BytesDrop<K, V>(q: Queue<K, V>, key: K)
    ensures Bytes(Drop(q, key)) <= Bytes(q) && |Drop(q, key)| <= |q|
  {
    if Holds(q, key) {
      BytesWithout(q, IndexOf(q, key));
    }
  }

  lemma {:induction false} UnexpiredKeeps<K, V>(q: Queue<K, V>, now: int)
    ensures Bytes(Unexpired(q, now)) <= Bytes(q) && |Unexpired(q, now)| <= |q|
    ensures forall j :: 0 <= j < |Unexpired(q, now)| ==>
                          Unexpired(q, now)[j] in q && !Unexpired(q, now)[j].Expired(now)
    ensures Distinct(q) ==> Distinct(Unexpired(q, now))
  {
    if q == [] {
    } else {
      UnexpiredKeeps(q[1..], now);
      assert q == [q[0]] + q[1..];
      if Distinct(q) && !q[0].Expired(now) {
        var rest := Unexpired(q[1..], now);
        forall j | 0 <= j < |rest| ensures rest[j].key != q[0].key {
          assert rest[j] in q[1..];
        }
      }
    }
  }

  /** An expired item taken out first leaves the sweep the same. */
  lemma {:induction false} UnexpiredWithout<K, V>(q: Queue<K, V>, i: nat, now: int)
    requires i < |q| && q[i].Expired(now)
    ensures Unexpired(Without(q, i), now) == Unexpired(q, now)
  {
    if i == 0 {
      assert Without(q, 0) == q[1..];
    } else {
      UnexpiredWithout(q[1..], i - 1, now);
      assert Without(q, i)[1..] == Without(q[1..], i - 1);
    }
  }

  lemma {:induction false} UnexpiredAll<K, V>(q: Queue<K, V>, now: int)
    requires forall i :: 0 <= i < |q| ==> !q[i].Expired(now)
    ensures Unexpired(q, now) == q
  {
    if q == [] {
    } else {
      UnexpiredAll(q[1..], now);
    }
  }

  lemma SweepAfterRemove<K, V>(s: State<K, V>, key: K, now: int)
    requires Resident(s, key) && Find(s, key).Expired(now)
    ensures Sweep(Remove(s, key), now) == Sweep(s, now)
  {
    if Holds(s.main, key) {
      UnexpiredWithout(s.main, IndexOf(s.main, key), now);
    } else {
      UnexpiredWithout(s.small, IndexOf(s.small, key), now);
    }
  }

  lemma {:induction false} BytesUpdate<K, V>(q: Queue<K, V>, i: nat, item: Item<K, V>)
    requires i < |q| && item.cost == q[i].cost
    ensures Bytes(q[i := item]) == Bytes(q)
  {
    if i == 0 {
      assert q[i := item][1..] == q[1..];
    } else {
      BytesUpdate(q[1..], i - 1, item);
      assert q[i := item][1..] == q[1..][i - 1 := item];
    }
  }

  // Each operation

  lemma RemoveGood<K, V>(cfg: Config<K>, s: State<K, V>, key: K)
    requires Good(cfg, s)
    ensures Good(cfg, Remove(s, key))
  {
    RemoveShaped(cfg, s, key);
    BytesDrop(s.main, key);
    BytesDrop(s.small, key);
  }

  lemma SweepGood<K, V>(cfg: Config<K>, s: State<K, V>, now: int)
    requires Good(cfg, s)
    ensures Good(cfg, Sweep(s, now))
  {
    UnexpiredKeeps(s.main, now);
    UnexpiredKeeps(s.small, now);
    var main, small := Unexpired(s.main, now), Unexpired(s.small, now);
    assert forall i :: 0 <= i < |main| ==> main[i] in s.main;
    assert forall i :: 0 <= i < |small| ==> small[i] in s.small;
  }

  lemma UpdateGood<K, V>(cfg: Config<K>, s: State<K, V>, item: Item<K, V>)
    requires Good(cfg, s) && Resident(s, item.key)
    requires item.cost == Find(s, item.key).cost && item.freq <= MAX_FREQ
    ensures Good(cfg, Update(s, item))
  {
    if Holds(s.main, item.key) {
      BytesUpdate(s.main, IndexOf(s.main, item.key), item);
    } else {
      BytesUpdate(s.small, IndexOf(s.small, item.key), item);
    }
  }

  lemma MoveToFrontGood<K, V>(cfg: Config<K>, s: State<K, V>, item: Item<K, V>)
    requires Good(cfg, s) && Holds(s.main, item.key) && item.freq <= MAX_FREQ
    requires item.cost == s.main[IndexOf(s.main, item.key)].cost
    ensures Good(cfg, s.(main := [item] + Drop(s.main, item.key)))
  {
    var i := IndexOf(s.main, item.key);
    BytesWithout(s.main, i);
    RemoveShaped(cfg, s, item.key);
    BytesConcat([item], Drop(s.main, item.key));
    BytesOne(item);
  }

  lemma ReadGood<K, V>(cfg: Config<K>, s: State<K, V>, key: K, now: int, who: Refresher)
    requires Good(cfg, s)
    ensures Good(cfg, Get(cfg, s, key, now, who).state)
  {
    if Resident(s, key) {
      var item := Find(s, key);
      if item.Expired(now) {
        RemoveGood(cfg, s, key);
      } else {
        if cfg.policy == LRU {
          MoveToFrontGood(cfg, s, if item.negative then item else Claimed(item, who, now));
        } else {
          UpdateGood(cfg, s, Claimed(if cfg.policy == S3FIFO then Bumped(item) else item, who, now));
        }
      }
    }
  }

  ghost predicate Capped<K, V>(cfg: Config<K>, s: State<K, V>) {
    FreqCapped(s.main) && FreqCapped(s.small) && AllFit(cfg, s.main) && AllFit(cfg, s.small)
  }

  lemma TurnCaps<K, V>(cfg: Config<K>, s: State<K, V>, keep: K)
    requires Capped(cfg, s) && !TakeTurn(cfg, s, keep).Stuck?
    ensures Capped(cfg, TakeTurn(cfg, s, keep).state)
  {
  }

  /** Eviction keeps caps and sizes: what it leaves was there, reads apart. */
  lemma {:induction false} EvictS3FifoCaps<K, V>(cfg: Config<K>, s: State<K, V>, keep: K)
    requires Wf(s) && Capped(cfg, s)
    ensures Capped(cfg, EvictS3Fifo(cfg, s, keep).state)
    decreases Effort(s, keep)
  {
    if Over(cfg, s) && !TakeTurn(cfg, s, keep).Stuck? {
      TurnShrinksEffort(cfg, s, keep);
      TurnCaps(cfg, s, keep);
      EvictS3FifoCaps(cfg, TakeTurn(cfg, s, keep).state, keep);
    }
  }

  /** Where a write stands before eviction. */
  lemma InsertReady<K, V>(cfg: Config<K>, s: State<K, V>, item: Item<K, V>)
    requires Good(cfg, s) && Fits(cfg, item)
    ensures var s' := Insert(cfg, s, item);
            && JustStored(cfg, s', item.key)
            && Capped(cfg, s')
            && Find(s', item.key) == item.(freq := Find(s', item.key).freq)
  {
    InsertShaped(cfg, s, item);
    RemoveGood(cfg, s, item.key);
    RemoveShaped(cfg, s, item.key);
    var s' := Insert(cfg, s, item);
    if s'.small != Remove(s, item.key).small {
      assert s'.small[0].key == item.key;
    } else {
      assert s'.main[0].key == item.key;
    }
  }

  lemma WriteGood<K, V>(cfg: Config<K>, s: State<K, V>, item: Item<K, V>)
    requires Good(cfg, s) && Fits(cfg, item)
    ensures var r := Set(cfg, s, item, true);
            && r.Stored? && Good(cfg, r.state)
            && Resident(r.state, item.key)
            && Find(r.state, item.key) == item.(freq := Find(r.state, item.key).freq)
  {
    InsertReady(cfg, s, item);
    var s' := Insert(cfg, s, item);
    EvictCorrect(cfg, s', item.key);
    if Over(cfg, s') {
      match cfg.policy
      case S3FIFO => EvictS3FifoCaps(cfg, s', item.key);
      case ClearOnFull =>
      case LRU => EvictLruTakesShortestSuffix(cfg, s', item.key);
    }
  }

  lemma ApplyGood<K, V>(cfg: Config<K>, s: State<K, V>, op: Op<K, V>)
    requires Good(cfg, s)
    ensures Good(cfg, Apply(cfg, s, op))
  {
    match op
    case Read(key, now, who) => ReadGood(cfg, s, key, now, who);
    case Write(item, valid) =>
      if Fits(cfg, item) && valid {
        WriteGood(cfg, s, item);
      }
    case Delete(key) => RemoveGood(cfg, s, key);
    case SweepAt(now) => SweepGood(cfg, s, now);
    case Clear =>
  }

  // Runs

  ghost function Run<K, V>(cfg: Config<K>, s: State<K, V>, ops: seq<Op<K, V>>): State<K, V>
    requires Good(cfg, s)
    decreases |ops|
  {
    if ops == [] then s
    else
      ApplyGood(cfg, s, ops[0]);
      Run(cfg, Apply(cfg, s, ops[0]), ops[1..])
  }

  lemma {:induction false} RunGood<K, V>(cfg: Config<K>, s: State<K, V>, ops: seq<Op<K, V>>)
    requires Good(cfg, s)
    ensures Good(cfg, Run(cfg, s, ops))
    decreases |ops|
  {
    if ops == [] {
    } else {
      ApplyGood(cfg, s, ops[0]);
      RunGood(cfg, Apply(cfg, s, ops[0]), ops[1..]);
    }
  }

  lemma RunNone<K, V>(cfg: Config<K>, s: State<K, V>)
    requires Good(cfg, s)
    ensures Run<K, V>(cfg, s, []) == s
  {
  }

  lemma {:induction false} RunSnoc<K, V>(cfg: Config<K>, s: State<K, V>, ops: seq<Op<K, V>>, op: Op<K, V>)
    requires Good(cfg, s)
    ensures Good(cfg, Run(cfg, s, ops)) && Run(cfg, s, ops + [op]) == Apply(cfg, Run(cfg, s, ops), op)
    decreases |ops|
  {
    RunGood(cfg, s, ops);
    if ops == [] {
      assert ops + [op] == [op] && [op][1..] == [];
      ApplyGood(cfg, s, op);
    } else {
      assert (ops + [op])[1..] == ops[1..] + [op];
      ApplyGood(cfg, s, ops[0]);
      RunSnoc(cfg, Apply(cfg, s, ops[0]), ops[1..], op);
    }
  }
}
