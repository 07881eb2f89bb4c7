/**
 Reads that race with each other and with writers over one shard's read and write
 locks. Under ClearOnFull and S3FIFO a read holds only the read lock, so its loads
 and stores of an entry's read count, and its load and swap of the time the entry is
 due a refresh, interleave with other reads'. A read that finds its entry expired
 drops the read lock and comes back with the write lock, and by then anything may
 have happened. An entry's value is its serial number, which tells entries of the
 same key apart as their addresses do.
 */
module Races {
  import opened GhostLog
  import opened ShardModel
  import opened Eviction
  import Runs

  datatype Phase =
    | Found              // looked up under the read lock
    | FreqSeen(f: nat)   // loaded the read count
    | Counted            // stored it, if it was below the cap
    | DueSeen(at: int)   // loaded a time due that has come
    | Settled            // has decided about the refresh

  datatype Reader<K> =
    | Reading(key: K, serial: nat, now: int, who: Refresher, phase: Phase)  // holds the read lock
    | Stale(key: K, serial: nat, now: int)                                  // is to come back for the write lock

  datatype Claim = Claim(serial: nat, who: Refresher)

  datatype Race<K> = Race(
    shard: State<K, nat>,
    readers: map<nat, Reader<K>>,
    stored: Queue<K, nat>,     // every entry stored, oldest first
    replaced: Queue<K, nat>,   // where they went
    victims: Queue<K, nat>,
    expired: Queue<K, nat>,    // dropped by a lookup
    swept: Queue<K, nat>,
    deleted: Queue<K, nat>,
    cleared: Queue<K, nat>,
    claims: seq<Claim>)        // refreshes started

  datatype Step<K> =
    | StartRead(r: nat, key: K, now: int, who: Refresher)
    | LoadFreq(r: nat)
    | StoreFreq(r: nat)
    | LoadDue(r: nat)
    | Swap(r: nat)
    | Unlock(r: nat)
    | Relock(r: nat)
    | ReadLocked(key: K, now: int, who: Refresher)   // a whole read of an LRU shard
    | Write(item: Item<K, nat>)
    | Delete(key: K)
    | SweepAt(now: int)
    | Clear

  /** The write lock can be had. */
  ghost predicate Unread<K>(r: Race<K>) {
    forall i :: i in r.readers ==> r.readers[i].Stale?
  }

  predicate InPhase<K>(r: Race<K>, i: nat) {
    i in r.readers && r.readers[i].Reading?
  }

  ghost predicate Enabled<K(!new)>(cfg: Config<K>, r: Race<K>, step: Step<K>) {
    match step
    case StartRead(i, key, _, _) => cfg.policy != LRU && i !in r.readers && Resident(r.shard, key)
    case LoadFreq(i) => InPhase(r, i) && r.readers[i].phase == Found && cfg.policy == S3FIFO
    case StoreFreq(i) => InPhase(r, i) && r.readers[i].phase.FreqSeen?
    case LoadDue(i) => InPhase(r, i) && r.readers[i].phase == if cfg.policy == S3FIFO then Counted else Found
    case Swap(i) => InPhase(r, i) && r.readers[i].phase.DueSeen?
    case Unlock(i) => InPhase(r, i) && r.readers[i].phase == Settled
    case Relock(i) => i in r.readers && r.readers[i].Stale? && Unread(r)
    case ReadLocked(_, _, _) => cfg.policy == LRU && Unread(r)
    case Write(item) => Unread(r) && item.value == |r.stored|
    case Delete(_) => Unread(r)
    case SweepAt(_) => Unread(r)
    case Clear => Unread(r)
  }

  function SetPhase<K>(r: Race<K>, i: nat, phase: Phase): Race<K>
    requires InPhase(r, i)
  {
    r.(readers := r.readers[i := r.readers[i].(phase := phase)])
  }

  /** The entry a reader under the read lock is at. */
  function At<K(==)>(r: Race<K>, i: nat): Item<K, nat>
    requires InPhase(r, i) && Resident(r.shard, r.readers[i].key)
  {
    Find(r.shard, r.readers[i].key)
  }

  function Leave<K>(r: Race<K>, i: nat): Race<K> {
    r.(readers := map j | j in r.readers && j != i :: r.readers[j])
  }

  ghost function AfterStart<K>(r: Race<K>, i: nat, key: K, now: int, who: Refresher): Race<K>
    requires Resident(r.shard, key)
  {
    var e := Find(r.shard, key);
    r.(readers := r.readers[i := if e.Expired(now) then Stale(key, e.value, now)
                                 else Reading(key, e.value, now, who, Found)])
  }

  ghost function AfterStoreFreq<K>(r: Race<K>, i: nat): Race<K>
    requires InPhase(r, i) && r.readers[i].phase.FreqSeen? && Resident(r.shard, r.readers[i].key)
  {
    var f := r.readers[i].phase.f;
    SetPhase(r, i, Counted).(shard := if f < MAX_FREQ then Update(r.shard, At(r, i).(freq := f + 1)) else r.shard)
  }

  ghost function AfterLoadDue<K>(r: Race<K>, i: nat): Race<K>
    requires InPhase(r, i) && Resident(r.shard, r.readers[i].key)
  {
    var q, e := r.readers[i], At(r, i);
    SetPhase(r, i, if q.who != RefreshNone && e.Claims(q.who, q.now) then DueSeen(e.refreshAt) else Settled)
  }

  /** The swap succeeds only if nobody has taken the refresh since it was seen due. */
  ghost function AfterSwap<K>(r: Race<K>, i: nat): Race<K>
    requires InPhase(r, i) && r.readers[i].phase.DueSeen? && Resident(r.shard, r.readers[i].key)
  {
    var q, e := r.readers[i], At(r, i);
    if e.refreshAt == q.phase.at then
      SetPhase(r, i, Settled).(shard := Update(r.shard, e.(refreshAt := 0)),
                               claims := r.claims + [Claim(e.value, q.who)])
    else SetPhase(r, i, Settled)
  }

  /** The entry goes only if it is still the one that was seen expired. */
  ghost function AfterRelock<K>(r: Race<K>, i: nat): Race<K>
    requires i in r.readers && r.readers[i].Stale?
  {
    var q := r.readers[i];
    if Resident(r.shard, q.key) && Find(r.shard, q.key).value == q.serial then
      Leave(r, i).(shard := Remove(r.shard, q.key), expired := r.expired + [Find(r.shard, q.key)])
    else Leave(r, i)
  }

  ghost function AfterReadLocked<K>(cfg: Config<K>, r: Race<K>, key: K, now: int, who: Refresher): Race<K> {
    var out := Get(cfg, r.shard, key, now, who);
    r.(shard := out.state,
       expired := if out.expired && Resident(r.shard, key) then r.expired + [Find(r.shard, key)] else r.expired,
       claims := if out.refresh && Resident(r.shard, key)
                 then r.claims + [Claim(Find(r.shard, key).value, who)] else r.claims)
  }

  ghost function AfterWrite<K>(cfg: Config<K>, r: Race<K>, item: Item<K, nat>): Race<K>
    requires Shaped(cfg, r.shard)
  {
    var out := Set(cfg, r.shard, item, true);
    if out.Stored? then
      r.(shard := out.state, stored := r.stored + [item], victims := r.victims + out.victims,
         replaced := if out.replaced.Some? then r.replaced + [out.replaced.value] else r.replaced)
    else r
  }

  ghost function Next<K(!new)>(cfg: Config<K>, r: Race<K>, step: Step<K>): Race<K>
    requires Ok(cfg, r) && Enabled(cfg, r, step)
  {
    match step
    case StartRead(i, key, now, who) => AfterStart(r, i, key, now, who)
    case LoadFreq(i) => SetPhase(r, i, FreqSeen(At(r, i).freq))
    case StoreFreq(i) => AfterStoreFreq(r, i)
    case LoadDue(i) => AfterLoadDue(r, i)
    case Swap(i) => AfterSwap(r, i)
    case Unlock(i) => Leave(r, i)
    case Relock(i) => AfterRelock(r, i)
    case ReadLocked(key, now, who) => AfterReadLocked(cfg, r, key, now, who)
    case Write(item) => AfterWrite(cfg, r, item)
    case Delete(key) =>
      if Resident(r.shard, key)
      then r.(shard := Remove(r.shard, key), deleted := r.deleted + [Find(r.shard, key)]) else r
    case SweepAt(now) =>
      r.(shard := Sweep(r.shard, now), swept := r.swept + Dead(r.shard.main, now) + Dead(r.shard.small, now))
    case Clear =>
      r.(shard := State([], [], Empty), cleared := r.cleared + r.shard.main + r.shard.small)
  }

  // What every step keeps

  /** f looks at nothing that changes while an entry is held. */
  ghost predicate Fixed<K(!new)>(f: Item<K, nat> -> bool) {
    forall item: Item<K, nat>, n: nat, t: int :: f(item.(freq := n, refreshAt := t)) == f(item)
  }

  ghost function Departed<K>(r: Race<K>, f: Item<K, nat> -> bool): nat {
    Tally(r.replaced, f) + Tally(r.victims, f) + Tally(r.expired, f)
    + Tally(r.swept, f) + Tally(r.deleted, f) + Tally(r.cleared, f)
  }

  /** Whatever is stored is held or has left, once. */
  ghost predicate Balanced<K>(r: Race<K>, f: Item<K, nat> -> bool) {
    Tally(r.stored, f) == Holding(r.shard, f) + Departed(r, f)
  }

  ghost predicate ReaderOk<K>(r: Race<K>, q: Reader<K>) {
    if q.Reading? then
      && Resident(r.shard, q.key)
      && var e := Find(r.shard, q.key);
         && e.value == q.serial
         && (q.phase.DueSeen? ==>
               q.phase.at != 0 && q.who != RefreshNone && e.byView == (q.who == RefreshView))
    else q.serial < |r.stored| && r.stored[q.serial].Expired(q.now)
  }

  /** How many refreshes of entry n have been started. */
  function Started(claims: seq<Claim>, n: nat): nat {
    if claims == [] then 0
    else (if claims[0].serial == n then 1 else 0) + Started(claims[1..], n)
  }

  function Due<K>(n: nat): Item<K, nat> -> bool {
    (e: Item<K, nat>) => e.value == n && e.refreshAt != 0
  }

  /** A refresh of entry n is still to be claimed or was, but not both. */
  ghost predicate ClaimOk<K>(r: Race<K>, n: nat) {
    Holding(r.shard, Due(n)) + Started(r.claims, n) <= if n < |r.stored| then 1 else 0
  }

  ghost predicate OwnerOk<K>(r: Race<K>, c: Claim) {
    c.serial < |r.stored| && c.who != RefreshNone && r.stored[c.serial].byView == (c.who == RefreshView)
  }

  ghost predicate Ok<K(!new)>(cfg: Config<K>, r: Race<K>) {
    && Runs.Good(cfg, r.shard)
    && (forall n :: 0 <= n < |r.stored| ==> r.stored[n].value == n)
    && (forall f: Item<K, nat> -> bool :: Fixed(f) ==> Balanced(r, f))
    && (forall i :: i in r.readers ==> ReaderOk(r, r.readers[i]))
    && (forall n :: ClaimOk(r, n))
    && (forall i :: 0 <= i < |r.claims| ==> OwnerOk(r, r.claims[i]))
  }

  // Counting what a shard holds

  function One(b: bool): nat {
    if b then 1 else 0
  }

  lemma {:induction false} TallyUpdate<K>(q: Queue<K, nat>, i: nat, item: Item<K, nat>, f: Item<K, nat> -> bool)
    requires i < |q|
    ensures Tally(q[i := item], f) + One(f(q[i])) == Tally(q, f) + One(f(item))
  {
    if i == 0 {
      assert q[i := item][1..] == q[1..];
    } else {
      assert q[i := item][1..] == q[1..][i - 1 := item];
      TallyUpdate(q[1..], i - 1, item, f);
    }
  }

  lemma HoldingUpdate<K>(s: State<K, nat>, item: Item<K, nat>, f: Item<K, nat> -> bool)
    requires Resident(s, item.key)
    ensures Holding(Update(s, item), f) + One(f(Find(s, item.key))) == Holding(s, f) + One(f(item))
  {
    if Holds(s.main, item.key) {
      TallyUpdate(s.main, IndexOf(s.main, item.key), item, f);
    } else {
      TallyUpdate(s.small, IndexOf(s.small, item.key), item, f);
    }
  }

  lemma HoldingRemove<K>(s: State<K, nat>, key: K, f: Item<K, nat> -> bool)
    requires Resident(s, key)
    ensures Holding(s, f) == Holding(Remove(s, key), f) + Tally([Find(s, key)], f)
  {
    if Holds(s.main, key) {
      TallyWithout(s.main, IndexOf(s.main, key), f);
    } else {
      TallyWithout(s.small, IndexOf(s.small, key), f);
    }
  }

  lemma {:induction false} TallyUnexpired<K>(q: Queue<K, nat>, now: int, f: Item<K, nat> -> bool)
    ensures Tally(q, f) == Tally(Unexpired(q, now), f) + Tally(Dead(q, now), f)
  {
    if q == [] {
    } else {
      TallyUnexpired(q[1..], now, f);
      TallyConcat([q[0]], Unexpired(q[1..], now), f);
      TallyConcat([q[0]], Dead(q[1..], now), f);
    }
  }

  /** Queueing an entry adds it to what is left without its key. */
  lemma HoldingInsert<K(!new)>(cfg: Config<K>, s: State<K, nat>, item: Item<K, nat>, f: Item<K, nat> -> bool)
    requires Blind(f)
    ensures Holding(Insert(cfg, s, item), f) == Holding(Remove(s, item.key), f) + One(f(item))
  {
    var s', rest := Insert(cfg, s, item), Remove(s, item.key);
    if s'.small == rest.small {
      TallyConcat([s'.main[0]], rest.main, f);
    } else {
      TallyConcat([s'.small[0]], rest.small, f);
    }
  }

  /** A write takes in its entry and gives out what it replaces and its victims. */
  lemma HoldingWrite<K(!new)>(cfg: Config<K>, s: State<K, nat>, item: Item<K, nat>, f: Item<K, nat> -> bool)
    requires Runs.Good(cfg, s) && Fits(cfg, item) && Blind(f)
    ensures var out := Set(cfg, s, item, true);
            && out.Stored?
            && Holding(s, f) + One(f(item)) ==
               Holding(out.state, f) + Tally(out.victims, f)
               + (if out.replaced.Some? then Tally([out.replaced.value], f) else 0)
  {
    hide Insert, Evict, Holding, Tally;
    Runs.InsertReady(cfg, s, item);
    EvictConserves(cfg, Insert(cfg, s, item), item.key, f);
    HoldingInsert(cfg, s, item, f);
    if Resident(s, item.key) {
      HoldingRemove(s, item.key, f);
    } else {
      assert Remove(s, item.key) == s;
    }
  }

  /** A read of an LRU shard drops its entry or moves it, and may claim its refresh. */
  lemma HoldingReadLocked<K>(cfg: Config<K>, s: State<K, nat>, key: K, now: int, who: Refresher,
                             f: Item<K, nat> -> bool)
    requires cfg.policy == LRU && Runs.Good(cfg, s) && Resident(s, key)
    ensures var out, e := Get(cfg, s, key, now, who), Find(s, key);
            if out.expired then Holding(s, f) == Holding(out.state, f) + Tally([e], f)
            else Holding(s, f) + One(f(if out.refresh then e.(refreshAt := 0) else e))
                 == Holding(out.state, f) + One(f(e))
  {
    HoldingRemove(s, key, f);
    var out := Get(cfg, s, key, now, who);
    if !out.expired {
      TallyConcat([out.state.main[0]], Drop(s.main, key), f);
    }
  }

  lemma {:induction false} TallyFinds<K>(q: Queue<K, nat>, f: Item<K, nat> -> bool) returns (i: nat)
    requires Tally(q, f) > 0
    ensures i < |q| && f(q[i])
  {
    if f(q[0]) {
      i := 0;
    } else {
      i := TallyFinds(q[1..], f);
      i := i + 1;
    }
  }

  function Plain<K>(item: Item<K, nat>): Item<K, nat> {
    item.(freq := 0, refreshAt := 0)
  }

  /** So does what is stored, if it is balanced. */
  lemma HeldIsStored<K>(r: Race<K>, key: K, f: Item<K, nat> -> bool) returns (i: nat)
    requires Resident(r.shard, key) && Balanced(r, f) && f(Find(r.shard, key))
    ensures i < |r.stored| && f(r.stored[i])
  {
    HoldingRemove(r.shard, key, f);
    i := TallyFinds(r.stored, f);
  }

  /** An entry held is the one that was stored under its serial number. */
  lemma ResidentIsStored<K(!new)>(cfg: Config<K>, r: Race<K>, key: K)
    requires Ok(cfg, r) && Resident(r.shard, key)
    ensures var e := Find(r.shard, key);
            e.value < |r.stored| && Plain(r.stored[e.value]) == Plain(e)
  {
    hide Runs.Good, Balanced, ReaderOk, ClaimOk, OwnerOk, Find, Resident;
    var e := Find(r.shard, key);
    var f := (item: Item<K, nat>) => Plain(item) == Plain(e);
    assert Fixed(f);
    var i := HeldIsStored(r, key, f);
    assert Plain(r.stored[i]).value == i;
  }

  // Every step keeps it: reads first

  /** Two races that differ in readers and claims and in what reads do to an entry. */
  ghost predicate Alike<K>(r: Race<K>, r': Race<K>) {
    && r'.stored == r.stored && r'.replaced == r.replaced && r'.victims == r.victims
    && r'.expired == r.expired && r'.swept == r.swept && r'.deleted == r.deleted && r'.cleared == r.cleared
  }

  /** What a read may do to the entry it is at. */
  ghost predicate Touches<K>(s: State<K, nat>, s': State<K, nat>, e: Item<K, nat>) {
    && Resident(s, e.key) && e.freq <= MAX_FREQ && Plain(Find(s, e.key)) == Plain(e)
    && s' == Update(s, e)
  }

  lemma TouchKeepsBalance<K(!new)>(cfg: Config<K>, r: Race<K>, r': Race<K>, e: Item<K, nat>)
    requires Ok(cfg, r) && Alike(r, r') && Touches(r.shard, r'.shard, e)
    ensures Runs.Good(cfg, r'.shard)
    ensures forall f: Item<K, nat> -> bool :: Fixed(f) ==> Balanced(r', f)
  {
    assert Plain(e).cost == Plain(Find(r.shard, e.key)).cost;
    Runs.UpdateGood(cfg, r.shard, e);
    forall f: Item<K, nat> -> bool | Fixed(f) ensures Balanced(r', f) {
      assert Balanced(r, f);
      assert f(Plain(e)) == f(e) && f(Plain(Find(r.shard, e.key))) == f(Find(r.shard, e.key));
      HoldingUpdate(r.shard, e, f);
    }
  }

  lemma TouchKeepsReader<K(!new)>(r: Race<K>, r': Race<K>, e: Item<K, nat>, q: Reader<K>)
    requires Wf(r.shard) && Alike(r, r') && Touches(r.shard, r'.shard, e) && ReaderOk(r, q)
    ensures ReaderOk(r', q)
  {
    if q.Reading? {
      FindUpdate(r.shard, e, q.key);
      assert Plain(e).value == Plain(Find(r.shard, e.key)).value;
      assert Plain(e).byView == Plain(Find(r.shard, e.key)).byView;
    }
  }

  lemma ClaimsKept<K>(r: Race<K>, r': Race<K>)
    requires r'.shard == r.shard && r'.stored == r.stored && r'.claims == r.claims
    requires forall n :: ClaimOk(r, n)
    ensures forall n :: ClaimOk(r', n)
  {
    forall n ensures ClaimOk(r', n) {
      assert ClaimOk(r, n);
    }
  }

  lemma StoreFreqKeeps<K(!new)>(cfg: Config<K>, r: Race<K>, i: nat)
    requires Ok(cfg, r) && Enabled(cfg, r, StoreFreq(i))
    ensures Ok(cfg, Next(cfg, r, StoreFreq(i)))
  {
    var r', f := Next(cfg, r, StoreFreq(i)), r.readers[i].phase.f;
    if f < MAX_FREQ {
      var e := At(r, i).(freq := f + 1);
      TouchKeepsBalance(cfg, r, r', e);
      forall j | j in r'.readers ensures ReaderOk(r', r'.readers[j]) {
        TouchKeepsReader(r, r', e, r.readers[j]);
      }
      forall n ensures ClaimOk(r', n) {
        assert ClaimOk(r, n);
        HoldingUpdate(r.shard, e, Due(n));
      }
    } else {
      ClaimsKept(r, r');
    }
  }

  lemma {:induction false} StartedSnoc(claims: seq<Claim>, c: Claim, n: nat)
    ensures Started(claims + [c], n) == Started(claims, n) + One(c.serial == n)
  {
    if claims == [] {
      assert [c][1..] == [];
    } else {
      assert (claims + [c])[1..] == claims[1..] + [c];
      StartedSnoc(claims[1..], c, n);
    }
  }

  /** A claim that succeeds turns a due refresh into a started one. */
  lemma ClaimMoves<K>(r: Race<K>, r': Race<K>, e: Item<K, nat>, who: Refresher, n: nat)
    requires ClaimOk(r, n) && r'.stored == r.stored && Resident(r.shard, e.key) && r'.shard == Update(r.shard, e)
    requires Find(r.shard, e.key).refreshAt != 0 && e == Find(r.shard, e.key).(refreshAt := 0)
    requires r'.claims == r.claims + [Claim(e.value, who)]
    ensures ClaimOk(r', n)
  {
    hide Holding, Started, Update, Find, Resident;
    HoldingUpdate(r.shard, e, Due(n));
    StartedSnoc(r.claims, Claim(e.value, who), n);
  }

  lemma SwapKeeps<K(!new)>(cfg: Config<K>, r: Race<K>, i: nat)
    requires Ok(cfg, r) && Enabled(cfg, r, Swap(i))
    ensures Ok(cfg, Next(cfg, r, Swap(i)))
  {
    var r', q := Next(cfg, r, Swap(i)), r.readers[i];
    if At(r, i).refreshAt == q.phase.at {
      var e := At(r, i).(refreshAt := 0);
      TouchKeepsBalance(cfg, r, r', e);
      forall j | j in r'.readers ensures ReaderOk(r', r'.readers[j]) {
        TouchKeepsReader(r, r', e, r.readers[j]);
      }
      forall n ensures ClaimOk(r', n) {
        assert ClaimOk(r, n);
        ClaimMoves(r, r', e, q.who, n);
      }
      ResidentIsStored(cfg, r, q.key);
      assert OwnerOk(r', Claim(e.value, q.who));
    } else {
      ClaimsKept(r, r');
    }
  }

  lemma ReadKeeps<K(!new)>(cfg: Config<K>, r: Race<K>, step: Step<K>)
    requires Ok(cfg, r) && Enabled(cfg, r, step)
    requires step.StartRead? || step.LoadFreq? || step.LoadDue? || step.Unlock?
    ensures Ok(cfg, Next(cfg, r, step))
  {
    var r' := Next(cfg, r, step);
    forall f: Item<K, nat> -> bool | Fixed(f) ensures Balanced(r', f) {
      assert Balanced(r, f);
    }
    ClaimsKept(r, r');
    if step.StartRead? {
      ResidentIsStored(cfg, r, step.key);
    }
    forall j | j in r'.readers ensures ReaderOk(r', r'.readers[j]) {
      assert j in r.readers ==> ReaderOk(r, r.readers[j]);
    }
  }

  // and then whole operations under the write lock

  /** The histories only grow, and nobody is reading. */
  lemma StaleKept<K>(r: Race<K>, r': Race<K>)
    requires Unread(r) && r.stored <= r'.stored && (forall i :: i in r'.readers ==> i in r.readers)
    requires forall i :: i in r'.readers ==> r'.readers[i] == r.readers[i] && ReaderOk(r, r.readers[i])
    ensures forall i :: i in r'.readers ==> ReaderOk(r', r'.readers[i])
  {
  }

  lemma RelockKeeps<K(!new)>(cfg: Config<K>, r: Race<K>, i: nat)
    requires Ok(cfg, r) && Enabled(cfg, r, Relock(i))
    ensures Ok(cfg, Next(cfg, r, Relock(i)))
  {
    var r', q := Next(cfg, r, Relock(i)), r.readers[i];
    StaleKept(r, r');
    if Resident(r.shard, q.key) && Find(r.shard, q.key).value == q.serial {
      var e := Find(r.shard, q.key);
      Runs.RemoveGood(cfg, r.shard, q.key);
      forall f: Item<K, nat> -> bool | Fixed(f) ensures Balanced(r', f) {
        assert Balanced(r, f);
        HoldingRemove(r.shard, q.key, f);
        TallyConcat(r.expired, [e], f);
      }
      forall n ensures ClaimOk(r', n) {
        assert ClaimOk(r, n);
        HoldingRemove(r.shard, q.key, Due(n));
      }
    } else {
      ClaimsKept(r, r');
    }
  }

  lemma DeleteKeeps<K(!new)>(cfg: Config<K>, r: Race<K>, key: K)
    requires Ok(cfg, r) && Enabled(cfg, r, Delete(key))
    ensures Ok(cfg, Next(cfg, r, Delete(key)))
  {
    var r' := Next(cfg, r, Delete(key));
    StaleKept(r, r');
    if Resident(r.shard, key) {
      Runs.RemoveGood(cfg, r.shard, key);
      forall f: Item<K, nat> -> bool | Fixed(f) ensures Balanced(r', f) {
        assert Balanced(r, f);
        HoldingRemove(r.shard, key, f);
        TallyConcat(r.deleted, [Find(r.shard, key)], f);
      }
      forall n ensures ClaimOk(r', n) {
        assert ClaimOk(r, n);
        HoldingRemove(r.shard, key, Due(n));
      }
    }
  }

  lemma SweepKeeps<K(!new)>(cfg: Config<K>, r: Race<K>, now: int)
    requires Ok(cfg, r) && Enabled(cfg, r, SweepAt(now))
    ensures Ok(cfg, Next(cfg, r, SweepAt(now)))
  {
    var r', s := Next(cfg, r, SweepAt(now)), r.shard;
    StaleKept(r, r');
    Runs.SweepGood(cfg, s, now);
    forall f: Item<K, nat> -> bool | Fixed(f) ensures Balanced(r', f) {
      assert Balanced(r, f);
      TallyUnexpired(s.main, now, f);
      TallyUnexpired(s.small, now, f);
      TallyConcat(r.swept, Dead(s.main, now), f);
      TallyConcat(r.swept + Dead(s.main, now), Dead(s.small, now), f);
    }
    forall n ensures ClaimOk(r', n) {
      assert ClaimOk(r, n);
      TallyUnexpired(s.main, now, Due(n));
      TallyUnexpired(s.small, now, Due(n));
    }
  }

  lemma ClearKeeps<K(!new)>(cfg: Config<K>, r: Race<K>)
    requires Ok(cfg, r) && Enabled(cfg, r, Clear)
    ensures Ok(cfg, Next(cfg, r, Clear))
  {
    var r', s := Next(cfg, r, Clear), r.shard;
    StaleKept(r, r');
    forall f: Item<K, nat> -> bool | Fixed(f) ensures Balanced(r', f) {
      assert Balanced(r, f);
      TallyConcat(r.cleared, s.main, f);
      TallyConcat(r.cleared + s.main, s.small, f);
    }
    forall n ensures ClaimOk(r', n) {
      assert ClaimOk(r, n);
    }
  }

  lemma WriteBalances<K(!new)>(cfg: Config<K>, r: Race<K>, item: Item<K, nat>, f: Item<K, nat> -> bool)
    requires Runs.Good(cfg, r.shard) && Fits(cfg, item) && Fixed(f) && Balanced(r, f)
    ensures Balanced(AfterWrite(cfg, r, item), f)
  {
    hide Set, Holding, Tally;
    var out := Set(cfg, r.shard, item, true);
    FixedIsBlind(f);
    HoldingWrite(cfg, r.shard, item, f);
    TallyConcat(r.stored, [item], f);
    TallyOne(item, f);
    TallyConcat(r.victims, out.victims, f);
    if out.replaced.Some? {
      TallyConcat(r.replaced, [out.replaced.value], f);
    }
  }

  lemma TallyOne<K>(item: Item<K, nat>, f: Item<K, nat> -> bool)
    ensures Tally([item], f) == One(f(item))
  {
  }

  lemma WriteKeepsClaims<K(!new)>(cfg: Config<K>, r: Race<K>, item: Item<K, nat>, n: nat)
    requires Runs.Good(cfg, r.shard) && Fits(cfg, item) && item.value == |r.stored| && ClaimOk(r, n)
    ensures ClaimOk(AfterWrite(cfg, r, item), n)
  {
    hide Set, Holding, Started;
    assert Blind(Due<K>(n));
    HoldingWrite(cfg, r.shard, item, Due(n));
  }

  lemma WriteKeeps<K(!new)>(cfg: Config<K>, r: Race<K>, item: Item<K, nat>)
    requires Ok(cfg, r) && Enabled(cfg, r, Write(item))
    ensures Ok(cfg, Next(cfg, r, Write(item)))
  {
    hide Runs.Good, Balanced, ClaimOk, Fixed, Insert, Evict;
    var r' := Next(cfg, r, Write(item));
    if Fits(cfg, item) {
      Runs.WriteGood(cfg, r.shard, item);
      StaleKept(r, r');
      forall f: Item<K, nat> -> bool | Fixed(f) ensures Balanced(r', f) {
        assert Balanced(r, f);
        WriteBalances(cfg, r, item, f);
      }
      forall n ensures ClaimOk(r', n) {
        assert ClaimOk(r, n);
        WriteKeepsClaims(cfg, r, item, n);
      }
    }
  }

  lemma FixedIsBlind<K(!new)>(f: Item<K, nat> -> bool)
    requires Fixed(f)
    ensures Blind(f)
  {
    forall item: Item<K, nat>, n: nat ensures f(item.(freq := n)) == f(item) {
      assert item.(freq := n) == item.(freq := n, refreshAt := item.refreshAt);
    }
  }

  lemma ReadLockedBalances<K(!new)>(cfg: Config<K>, r: Race<K>, key: K, now: int, who: Refresher,
                                    f: Item<K, nat> -> bool)
    requires cfg.policy == LRU && Runs.Good(cfg, r.shard) && Resident(r.shard, key) && Fixed(f) && Balanced(r, f)
    ensures Balanced(AfterReadLocked(cfg, r, key, now, who), f)
  {
    hide Get, Holding, Find, Resident;
    var e := Find(r.shard, key);
    assert f(e.(freq := e.freq, refreshAt := 0)) == f(e);
    HoldingReadLocked(cfg, r.shard, key, now, who, f);
    TallyConcat(r.expired, [e], f);
  }

  lemma ReadLockedKeepsClaims<K(!new)>(cfg: Config<K>, r: Race<K>, key: K, now: int, who: Refresher, n: nat)
    requires cfg.policy == LRU && Runs.Good(cfg, r.shard) && Resident(r.shard, key) && ClaimOk(r, n)
    ensures ClaimOk(AfterReadLocked(cfg, r, key, now, who), n)
  {
    HoldingReadLocked(cfg, r.shard, key, now, who, Due(n));
    StartedSnoc(r.claims, Claim(Find(r.shard, key).value, who), n);
  }

  lemma ReadLockedKeeps<K(!new)>(cfg: Config<K>, r: Race<K>, key: K, now: int, who: Refresher)
    requires Ok(cfg, r) && Enabled(cfg, r, ReadLocked(key, now, who))
    ensures Ok(cfg, Next(cfg, r, ReadLocked(key, now, who)))
  {
    hide Runs.Good, Balanced, ClaimOk, Fixed;
    var r' := Next(cfg, r, ReadLocked(key, now, who));
    StaleKept(r, r');
    Runs.ReadGood(cfg, r.shard, key, now, who);
    if Resident(r.shard, key) {
      var out, e := Get(cfg, r.shard, key, now, who), Find(r.shard, key);
      forall f: Item<K, nat> -> bool | Fixed(f) ensures Balanced(r', f) {
        assert Balanced(r, f);
        ReadLockedBalances(cfg, r, key, now, who, f);
      }
      forall n ensures ClaimOk(r', n) {
        assert ClaimOk(r, n);
        ReadLockedKeepsClaims(cfg, r, key, now, who, n);
      }
      ResidentIsStored(cfg, r, key);
      if out.refresh {
        assert OwnerOk(r', Claim(e.value, who));
      }
    }
  }

  lemma StepKeeps<K(!new)>(cfg: Config<K>, r: Race<K>, step: Step<K>)
    requires Ok(cfg, r) && Enabled(cfg, r, step)
    ensures Ok(cfg, Next(cfg, r, step))
  {
    hide Ok, Enabled, Next;
    match step
    case StartRead(_, _, _, _) => ReadKeeps(cfg, r, step);
    case LoadFreq(_) => ReadKeeps(cfg, r, step);
    case StoreFreq(i) => StoreFreqKeeps(cfg, r, i);
    case LoadDue(_) => ReadKeeps(cfg, r, step);
    case Swap(i) => SwapKeeps(cfg, r, i);
    case Unlock(_) => ReadKeeps(cfg, r, step);
    case Relock(i) => RelockKeeps(cfg, r, i);
    case ReadLocked(key, now, who) => ReadLockedKeeps(cfg, r, key, now, who);
    case Write(item) => WriteKeeps(cfg, r, item);
    case Delete(key) => DeleteKeeps(cfg, r, key);
    case SweepAt(now) => SweepKeeps(cfg, r, now);
    case Clear => ClearKeeps(cfg, r);
  }

  // Runs

  ghost predicate Legal<K(!new)>(cfg: Config<K>, r: Race<K>, steps: seq<Step<K>>)
    requires Ok(cfg, r)
    decreases |steps|
  {
    steps == []
    || (Enabled(cfg, r, steps[0])
        && (StepKeeps(cfg, r, steps[0]); Legal(cfg, Next(cfg, r, steps[0]), steps[1..])))
  }

  ghost function Exec<K(!new)>(cfg: Config<K>, r: Race<K>, steps: seq<Step<K>>): Race<K>
    requires Ok(cfg, r) && Legal(cfg, r, steps)
    decreases |steps|
  {
    if steps == [] then r
    else StepKeeps(cfg, r, steps[0]); Exec(cfg, Next(cfg, r, steps[0]), steps[1..])
  }

  lemma {:induction false} RunKeeps<K(!new)>(cfg: Config<K>, r: Race<K>, steps: seq<Step<K>>)
    requires Ok(cfg, r) && Legal(cfg, r, steps)
    ensures Ok(cfg, Exec(cfg, r, steps))
    decreases |steps|
  {
    hide Ok, Enabled, Next;
    if steps == [] {
    } else {
      StepKeeps(cfg, r, steps[0]);
      RunKeeps(cfg, Next(cfg, r, steps[0]), steps[1..]);
    }
  }

  /** A new shard nobody has touched. */
  ghost function Start<K(!new)>(cfg: Config<K>): (r: Race<K>)
    ensures Ok(cfg, r)
  {
    var r := Race(State([], [], Empty), map[], [], [], [], [], [], [], [], []);
    assert forall n: nat :: ClaimOk(r, n);
    r
  }

  function Serial<K>(n: nat): Item<K, nat> -> bool {
    (e: Item<K, nat>) => e.value == n
  }

  function Any<K>(): Item<K, nat> -> bool {
    (e: Item<K, nat>) => true
  }

  lemma {:induction false} TallyAny<K>(q: Queue<K, nat>)
    ensures Tally(q, Any()) == |q|
  {
    if q == [] {
    } else {
      TallyAny(q[1..]);
    }
  }

  lemma {:induction false} TallySerial<K>(q: Queue<K, nat>, from: nat, n: nat)
    requires forall i :: 0 <= i < |q| ==> q[i].value == from + i
    ensures Tally(q, Serial(n)) == One(from <= n < from + |q|)
    decreases |q|
  {
    if q == [] {
    } else {
      forall i | 0 <= i < |q[1..]| ensures q[1..][i].value == from + 1 + i {
        assert q[1..][i] == q[i + 1];
      }
      TallySerial(q[1..], from + 1, n);
    }
  }

  /** In every interleaving each entry stored is still held or has left once, as
      replaced, a victim, dropped by a lookup, swept, deleted or cleared; and so
      the counts add up. */
  lemma EachLeavesOnce<K(!new)>(cfg: Config<K>, steps: seq<Step<K>>, n: nat)
    requires Legal(cfg, Start(cfg), steps)
    ensures var r := Exec(cfg, Start(cfg), steps);
            && (n < |r.stored| ==> Holding(r.shard, Serial(n)) + Departed(r, Serial(n)) == 1)
            && |r.stored| == Count(r.shard) + |r.replaced| + |r.victims| + |r.expired|
                             + |r.swept| + |r.deleted| + |r.cleared|
  {
    RunKeeps(cfg, Start(cfg), steps);
    var r := Exec(cfg, Start(cfg), steps);
    assert Fixed(Serial<K>(n)) && Balanced(r, Serial(n));
    TallySerial(r.stored, 0, n);
    assert Fixed(Any<K>()) && Balanced(r, Any());
    TallyAny(r.stored);
    TallyAny(r.shard.main);
    TallyAny(r.shard.small);
    TallyAny(r.replaced);
    TallyAny(r.victims);
    TallyAny(r.expired);
    TallyAny(r.swept);
    TallyAny(r.deleted);
    TallyAny(r.cleared);
  }

  /** A lookup that comes back for the write lock drops only an entry that has
      expired by its clock, however long it took. */
  lemma LookupDropsOnlyExpired<K(!new)>(cfg: Config<K>, r: Race<K>, i: nat)
    requires Ok(cfg, r) && Enabled(cfg, r, Relock(i))
    ensures var r', q := Next(cfg, r, Relock(i)), r.readers[i];
            && (r'.shard != r.shard ==> Resident(r.shard, q.key) && Find(r.shard, q.key).Expired(q.now))
            && (Resident(r.shard, q.key) && !Find(r.shard, q.key).Expired(q.now) ==> r'.shard == r.shard)
  {
    var q := r.readers[i];
    if Resident(r.shard, q.key) {
      ResidentIsStored(cfg, r, q.key);
      assert Plain(Find(r.shard, q.key)).expiresAt == Plain(r.stored[Find(r.shard, q.key).value]).expiresAt;
    }
  }

  /** Read counts stay at their cap and the shard inside its budget at every
      moment, lost counts or not. */
  lemma CountsStayCapped<K(!new)>(cfg: Config<K>, steps: seq<Step<K>>, key: K)
    requires Legal(cfg, Start(cfg), steps)
    ensures var s := Exec(cfg, Start(cfg), steps).shard;
            !Over(cfg, s) && (Resident(s, key) ==> Find(s, key).freq <= MAX_FREQ)
  {
    RunKeeps(cfg, Start(cfg), steps);
  }

  // Refreshes

  /** The refreshes started of the entries before n. */
  function StartedBefore(claims: seq<Claim>, n: nat): nat {
    if n == 0 then 0 else Started(claims, n - 1) + StartedBefore(claims, n - 1)
  }

  lemma {:induction false} StartedBeforeCons(c: Claim, claims: seq<Claim>, n: nat)
    ensures StartedBefore([c] + claims, n) == StartedBefore(claims, n) + One(c.serial < n)
  {
    if n > 0 {
      StartedBeforeCons(c, claims, n - 1);
      assert ([c] + claims)[1..] == claims;
    }
  }

  lemma {:induction false} AllStartedBefore(claims: seq<Claim>, n: nat)
    requires forall i :: 0 <= i < |claims| ==> claims[i].serial < n
    ensures StartedBefore(claims, n) == |claims|
    decreases |claims|
  {
    if claims == [] {
      NoneStarted(n);
    } else {
      assert claims == [claims[0]] + claims[1..];
      StartedBeforeCons(claims[0], claims[1..], n);
      AllStartedBefore(claims[1..], n);
    }
  }

  lemma {:induction false} NoneStarted(n: nat)
    ensures StartedBefore([], n) == 0
  {
    if n > 0 {
      NoneStarted(n - 1);
    }
  }

  lemma {:induction false} FewStartedBefore(claims: seq<Claim>, n: nat)
    requires forall m :: Started(claims, m) <= 1
    ensures StartedBefore(claims, n) <= n
  {
    if n > 0 {
      FewStartedBefore(claims, n - 1);
      assert Started(claims, n - 1) <= 1;
    }
  }

  /** Over any run with any number of readers each entry's refresh is started at most
      once and only by the kind of owner that stored it, so there are never more
      refreshes than entries stored. */
  lemma RefreshedAtMostOnce<K(!new)>(cfg: Config<K>, steps: seq<Step<K>>)
    requires Legal(cfg, Start(cfg), steps)
    ensures var r := Exec(cfg, Start(cfg), steps);
            && (forall n :: Started(r.claims, n) <= 1)
            && (forall i :: 0 <= i < |r.claims| ==> OwnerOk(r, r.claims[i]))
            && |r.claims| <= |r.stored|
  {
    RunKeeps(cfg, Start(cfg), steps);
    var r := Exec(cfg, Start(cfg), steps);
    forall n ensures Started(r.claims, n) <= 1 {
      assert ClaimOk(r, n);
    }
    assert forall i :: 0 <= i < |r.claims| ==> OwnerOk(r, r.claims[i]);
    AllStartedBefore(r.claims, |r.stored|);
    FewStartedBefore(r.claims, |r.stored|);
  }
}
