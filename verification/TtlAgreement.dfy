/**
 The cache against a plain map of last writes with expiry times: whatever the
 policy and the budget, an answer is never anything but the last write's, a write
 that was stored can be read back at once, and without a budget the two agree on
 every read.
 */
module TtlAgreement {
  import opened ShardModel
  import opened Eviction
  import opened Runs

  datatype Written<V> = Written(value: V, negative: bool, expiresAt: int)

  function WrittenOf<K, V>(item: Item<K, V>): Written<V> {
    Written(item.value, item.negative, item.expiresAt)
  }

  /** The last write of every key with no delete or clear after it. A write that
      was refused, or whose load was invalidated, is none. */
  ghost function LastWrites<K, V>(cfg: Config<K>, m: map<K, Written<V>>, op: Op<K, V>): map<K, Written<V>> {
    match op
    case Read(_, _, _) => m
    case Write(item, valid) => if Fits(cfg, item) && valid then m[item.key := WrittenOf(item)] else m
    case Delete(key) => m - {key}
    case SweepAt(_) => m
    case Clear => map[]
  }

  ghost function RunWrites<K, V>(cfg: Config<K>, m: map<K, Written<V>>, ops: seq<Op<K, V>>): map<K, Written<V>>
    decreases |ops|
  {
    if ops == [] then m else RunWrites(cfg, LastWrites(cfg, m, ops[0]), ops[1..])
  }

  predicate Expired<V>(w: Written<V>, now: int) {
    w.expiresAt != 0 && now >= w.expiresAt
  }

  /** What a plain map with expiry times answers. */
  function PlainAnswer<K, V>(m: map<K, Written<V>>, key: K, now: int): Answer<V> {
    if key !in m || Expired(m[key], now) then Miss
    else if m[key].negative then Negative
    else Hit(m[key].value)
  }

  ghost predicate QueueAgrees<K, V>(q: Queue<K, V>, m: map<K, Written<V>>) {
    forall i :: 0 <= i < |q| ==> q[i].key in m && m[q[i].key] == WrittenOf(q[i])
  }

  ghost predicate Agrees<K, V>(s: State<K, V>, m: map<K, Written<V>>) {
    QueueAgrees(s.main, m) && QueueAgrees(s.small, m)
  }

  lemma {:induction false} EvictS3FifoAgrees<K, V>(cfg: Config<K>, s: State<K, V>, keep: K, m: map<K, Written<V>>)
    requires Wf(s) && Agrees(s, m)
    ensures Agrees(EvictS3Fifo(cfg, s, keep).state, m)
    decreases Effort(s, keep)
  {
    if Over(cfg, s) && !TakeTurn(cfg, s, keep).Stuck? {
      TurnShrinksEffort(cfg, s, keep);
      TurnAgrees(cfg, s, keep, m);
      EvictS3FifoAgrees(cfg, TakeTurn(cfg, s, keep).state, keep, m);
    }
  }

  lemma TurnAgrees<K, V>(cfg: Config<K>, s: State<K, V>, keep: K, m: map<K, Written<V>>)
    requires Agrees(s, m) && !TakeTurn(cfg, s, keep).Stuck?
    ensures Agrees(TakeTurn(cfg, s, keep).state, m)
  {
  }

  lemma RemoveAgrees<K, V>(cfg: Config<K>, s: State<K, V>, key: K, m: map<K, Written<V>>)
    requires Shaped(cfg, s) && Agrees(s, m)
    ensures Agrees(Remove(s, key), m - {key}) && Agrees(Remove(s, key), m)
  {
    RemoveShaped(cfg, s, key);
    var s' := Remove(s, key);
    assert forall i :: 0 <= i < |s'.main| ==> s'.main[i].key != key;
    assert forall i :: 0 <= i < |s'.small| ==> s'.small[i].key != key;
  }

  lemma InsertAgrees<K, V>(cfg: Config<K>, s: State<K, V>, item: Item<K, V>, m: map<K, Written<V>>)
    requires Shaped(cfg, s) && Agrees(s, m)
    ensures Agrees(Insert(cfg, s, item), m[item.key := WrittenOf(item)])
  {
    hide Remove, Find, Shaped, Resident, Holds;
    RemoveAgrees(cfg, s, item.key, m);
    OthersAgree(Remove(s, item.key), item.key, m, WrittenOf(item));
  }

  /** Entries of other keys do not mind a write. */
  lemma OthersAgree<K, V>(s: State<K, V>, key: K, m: map<K, Written<V>>, w: Written<V>)
    requires Agrees(s, m - {key})
    ensures Agrees(s, m[key := w])
  {
  }

  lemma WriteAgrees<K, V>(cfg: Config<K>, s: State<K, V>, item: Item<K, V>, m: map<K, Written<V>>)
    requires Good(cfg, s) && Agrees(s, m) && Fits(cfg, item)
    ensures Agrees(Set(cfg, s, item, true).state, m[item.key := WrittenOf(item)])
  {
    hide Insert, EvictS3Fifo;
    var m', s' := m[item.key := WrittenOf(item)], Insert(cfg, s, item);
    InsertAgrees(cfg, s, item, m);
    InsertReady(cfg, s, item);
    if Over(cfg, s') {
      match cfg.policy
      case S3FIFO => EvictS3FifoAgrees(cfg, s', item.key, m');
      case ClearOnFull =>
      case LRU => EvictLruTakesShortestSuffix(cfg, s', item.key);
    }
  }

  lemma ReadAgrees<K, V>(cfg: Config<K>, s: State<K, V>, key: K, now: int, who: Refresher, m: map<K, Written<V>>)
    requires Good(cfg, s) && Agrees(s, m)
    ensures Agrees(Get(cfg, s, key, now, who).state, m)
  {
    if Resident(s, key) {
      var item := Find(s, key);
      if item.Expired(now) {
        RemoveAgrees(cfg, s, key, m);
      } else if cfg.policy == LRU {
        RemoveAgrees(cfg, s, key, m);
        RemoveShaped(cfg, s, key);
      } else {
        UpdateAgrees(s, Claimed(if cfg.policy == S3FIFO then Bumped(item) else item, who, now), m);
      }
    }
  }

  lemma UpdateAgrees<K, V>(s: State<K, V>, item: Item<K, V>, m: map<K, Written<V>>)
    requires Agrees(s, m) && Resident(s, item.key) && WrittenOf(item) == WrittenOf(Find(s, item.key))
    ensures Agrees(Update(s, item), m)
  {
  }

  lemma SweepAgrees<K, V>(s: State<K, V>, now: int, m: map<K, Written<V>>)
    requires Agrees(s, m)
    ensures Agrees(Sweep(s, now), m)
  {
    UnexpiredKeeps(s.main, now);
    UnexpiredKeeps(s.small, now);
  }

  lemma ApplyAgrees<K, V>(cfg: Config<K>, s: State<K, V>, op: Op<K, V>, m: map<K, Written<V>>)
    requires Good(cfg, s) && Agrees(s, m)
    ensures Agrees(Apply(cfg, s, op), LastWrites(cfg, m, op))
  {
    match op
    case Read(key, now, who) => ReadAgrees(cfg, s, key, now, who, m);
    case Write(item, valid) =>
      if Fits(cfg, item) && valid {
        WriteAgrees(cfg, s, item, m);
      }
    case Delete(key) => RemoveAgrees(cfg, s, key, m);
    case SweepAt(now) => SweepAgrees(s, now, m);
    case Clear =>
  }

  lemma {:induction false} RunAgrees<K, V>(cfg: Config<K>, s: State<K, V>, ops: seq<Op<K, V>>, m: map<K, Written<V>>)
    requires Good(cfg, s) && Agrees(s, m)
    ensures Agrees(Run(cfg, s, ops), RunWrites(cfg, m, ops))
    decreases |ops|
  {
    if ops == [] {
    } else {
      ApplyGood(cfg, s, ops[0]);
      ApplyAgrees(cfg, s, ops[0], m);
      RunAgrees(cfg, Apply(cfg, s, ops[0]), ops[1..], LastWrites(cfg, m, ops[0]));
    }
  }

  /** After any run, under any policy and budget, a read that answers at all
      answers with the key's last write, and only before that expires. */
  lemma AnswersAreLastWrites<K, V>(cfg: Config<K>, ops: seq<Op<K, V>>, key: K, now: int, who: Refresher)
    ensures var answer := Get(cfg, Run(cfg, Start(), ops), key, now, who).answer;
            answer == Miss || answer == PlainAnswer(RunWrites(cfg, map[], ops), key, now)
  {
    RunAgrees(cfg, Start(), ops, map[]);
    RunGood(cfg, Start(), ops);
  }

  /** A write that was stored is read back until it expires: eviction spares it. */
  lemma StoredIsReadable<K, V>(cfg: Config<K>, s: State<K, V>, item: Item<K, V>, now: int, who: Refresher)
    requires Good(cfg, s) && Fits(cfg, item) && !item.Expired(now)
    ensures var r := Set(cfg, s, item, true);
            r.Stored? && Shaped(cfg, r.state) && Get(cfg, r.state, item.key, now, who).answer == AnswerOf(item)
  {
    WriteGood(cfg, s, item);
  }

  // Without a budget

  ghost predicate Unbudgeted<K>(cfg: Config<K>) {
    cfg.maxBytes == 0 && cfg.maxEntries == 0
  }

  /** No operation has read a clock later than now. */
  ghost predicate UpTo<K, V>(op: Op<K, V>, now: int) {
    && (op.Read? ==> op.now <= now)
    && (op.SweepAt? ==> op.now <= now)
  }

  /** Every last write is resident unless it has expired by now. */
  ghost predicate Complete<K, V>(s: State<K, V>, m: map<K, Written<V>>, now: int) {
    forall k :: k in m && !Expired(m[k], now) ==> Resident(s, k)
  }

  lemma InQueueIsHeld<K, V>(q: Queue<K, V>, i: nat)
    requires i < |q|
    ensures Holds(q, q[i].key)
  {
  }

  lemma RemoveKeepsOthers<K, V>(cfg: Config<K>, s: State<K, V>, key: K, k: K)
    requires Shaped(cfg, s) && k != key
    ensures Resident(Remove(s, key), k) <==> Resident(s, k)
  {
    RemoveShaped(cfg, s, key);
    DropKeepsOthers(s.main, key, k);
    DropKeepsOthers(s.small, key, k);
  }

  lemma DropKeepsOthers<K, V>(q: Queue<K, V>, key: K, k: K)
    requires Distinct(q) && k != key
    ensures Holds(Drop(q, key), k) <==> Holds(q, k)
  {
    if Holds(q, key) {
      WithoutOther(q, IndexOf(q, key), k);
    }
  }

  lemma {:induction false} UnexpiredHolds<K, V>(q: Queue<K, V>, now: int, k: K)
    requires Distinct(q) && Holds(q, k) && !q[IndexOf(q, k)].Expired(now)
    ensures Holds(Unexpired(q, now), k)
  {
    if q[0].key != k {
      UnexpiredHolds(q[1..], now, k);
      ConsHolds(q[0], Unexpired(q[1..], now), k);
    }
  }

  lemma WriteComplete<K, V>(cfg: Config<K>, s: State<K, V>, item: Item<K, V>, m: map<K, Written<V>>, now: int)
    requires Good(cfg, s) && Unbudgeted(cfg) && Complete(s, m, now)
    ensures Complete(Set(cfg, s, item, true).state, m[item.key := WrittenOf(item)], now)
  {
    var m' := m[item.key := WrittenOf(item)];
    InsertShaped(cfg, s, item);
    var s', rest := Insert(cfg, s, item), Remove(s, item.key);
    forall k | k in m' && !Expired(m'[k], now) && k != item.key ensures Resident(s', k) {
      RemoveKeepsOthers(cfg, s, item.key, k);
      if s'.main != rest.main {
        ConsHolds(s'.main[0], rest.main, k);
      } else {
        ConsHolds(s'.small[0], rest.small, k);
      }
    }
  }

  lemma ReadComplete<K, V>(cfg: Config<K>, s: State<K, V>, op: Op<K, V>, m: map<K, Written<V>>, now: int)
    requires Good(cfg, s) && Agrees(s, m) && Complete(s, m, now) && op.Read? && UpTo(op, now)
    ensures Complete(Apply(cfg, s, op), m, now)
  {
    var key := op.key;
    var r := Get(cfg, s, key, op.now, op.who);
    if Resident(s, key) {
      var item := Find(s, key);
      forall k | k in m && !Expired(m[k], now) ensures Resident(r.state, k) {
        if item.Expired(op.now) {
          assert m[key] == WrittenOf(item);
          assert k != key;
          RemoveKeepsOthers(cfg, s, key, k);
        } else if cfg.policy == LRU {
          if k != key {
            DropKeepsOthers(s.main, key, k);
          }
          ConsHolds(r.state.main[0], Drop(s.main, key), k);
        } else {
          UpdateResident(s, Claimed(if cfg.policy == S3FIFO then Bumped(item) else item, op.who, op.now), k);
        }
      }
    }
  }

  lemma UpdateResident<K, V>(s: State<K, V>, item: Item<K, V>, k: K)
    requires Resident(s, item.key) && Resident(s, k)
    ensures Resident(Update(s, item), k)
  {
    if Holds(s.main, k) {
      InQueueIsHeld(Update(s, item).main, IndexOf(s.main, k));
    } else {
      InQueueIsHeld(Update(s, item).small, IndexOf(s.small, k));
    }
  }

  lemma ApplyComplete<K, V>(cfg: Config<K>, s: State<K, V>, op: Op<K, V>, m: map<K, Written<V>>, now: int)
    requires Good(cfg, s) && Unbudgeted(cfg) && Agrees(s, m) && Complete(s, m, now) && UpTo(op, now)
    ensures Complete(Apply(cfg, s, op), LastWrites(cfg, m, op), now)
  {
    match op
    case Read(key, _, who) => ReadComplete(cfg, s, op, m, now);
    case Write(item, valid) =>
      if valid {
        WriteComplete(cfg, s, item, m, now);
      }
    case Delete(key) =>
      forall k | k in m && k != key && !Expired(m[k], now) ensures Resident(Remove(s, key), k) {
        RemoveKeepsOthers(cfg, s, key, k);
      }
    case SweepAt(at) =>
      forall k | k in m && !Expired(m[k], now) ensures Resident(Sweep(s, at), k) {
        if Holds(s.main, k) {
          UnexpiredHolds(s.main, at, k);
        } else {
          UnexpiredHolds(s.small, at, k);
        }
      }
    case Clear =>
  }

  lemma {:induction false} RunComplete<K, V>(
      cfg: Config<K>, s: State<K, V>, ops: seq<Op<K, V>>, m: map<K, Written<V>>, now: int)
    requires Good(cfg, s) && Unbudgeted(cfg) && Agrees(s, m) && Complete(s, m, now)
    requires forall i :: 0 <= i < |ops| ==> UpTo(ops[i], now)
    ensures Complete(Run(cfg, s, ops), RunWrites(cfg, m, ops), now)
    decreases |ops|
  {
    if ops == [] {
    } else {
      ApplyGood(cfg, s, ops[0]);
      ApplyAgrees(cfg, s, ops[0], m);
      ApplyComplete(cfg, s, ops[0], m, now);
      RunComplete(cfg, Apply(cfg, s, ops[0]), ops[1..], LastWrites(cfg, m, ops[0]), now);
    }
  }

  /** Without a budget and with a clock that does not go back, every read answers
      exactly as the plain map does. */
  lemma UnbudgetedIsPlainMap<K, V>(cfg: Config<K>, ops: seq<Op<K, V>>, key: K, now: int, who: Refresher)
    requires Unbudgeted(cfg)
    requires forall i :: 0 <= i < |ops| ==> UpTo(ops[i], now)
    ensures Get(cfg, Run(cfg, Start(), ops), key, now, who).answer
         == PlainAnswer(RunWrites(cfg, map[], ops), key, now)
  {
    hide Run, RunWrites, UpTo;
    var start: State<K, V> := Start();
    RunAgrees(cfg, start, ops, map[]);
    RunGood(cfg, start, ops);
    RunComplete(cfg, start, ops, map[], now);
  }
}
