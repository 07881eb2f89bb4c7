/**
 What reads do to what is read: each counts under S3FIFO, up to three, the first that
 is due claims the refresh, and nothing else comes of them but that an expired entry
 leaves. So an entry of the small queue that has been read moves up.
 */
module Reads {
  import opened GhostLog
  import opened ShardModel
  import opened Eviction
  import opened Runs
  import opened Shares

  /** Only reads, none of key after it has expired. */
  ghost predicate LiveReads<K, V>(ops: seq<Op<K, V>>, item: Item<K, V>) {
    forall i :: 0 <= i < |ops| ==>
      ops[i].Read? && (ops[i].key == item.key ==> item.expiresAt == 0 || ops[i].now < item.expiresAt)
  }

  function TimesRead<K(==), V>(ops: seq<Op<K, V>>, key: K): nat {
    if ops == [] then 0
    else TimesRead(ops[..|ops| - 1], key) + if ops[|ops| - 1].Read? && ops[|ops| - 1].key == key then 1 else 0
  }

  /** The read is one that starts the refresh of an entry that nobody has taken yet: by
      the kind of reader that wrote the entry, at the time it is due or later; LRU does
      not ask of an entry that says there is no value. */
  predicate IsDue<K(==), V>(cfg: Config<K>, item: Item<K, V>, op: Op<K, V>) {
    && op.Read? && op.key == item.key && op.who != RefreshNone && item.byView == (op.who == RefreshView)
    && item.refreshAt != 0 && item.refreshAt <= op.now && !(cfg.policy == LRU && item.negative)
  }

  predicate AnyDue<K(==), V>(cfg: Config<K>, item: Item<K, V>, ops: seq<Op<K, V>>) {
    exists i :: 0 <= i < |ops| && IsDue(cfg, item, ops[i])
  }

  /** The entry after the reads. */
  function AfterReads<K(==), V>(cfg: Config<K>, item: Item<K, V>, ops: seq<Op<K, V>>): Item<K, V> {
    item.(freq := if cfg.policy != S3FIFO then item.freq
                  else if item.freq + TimesRead(ops, item.key) < 3 then item.freq + TimesRead(ops, item.key)
                  else 3,
          refreshAt := if AnyDue(cfg, item, ops) then 0 else item.refreshAt)
  }

  lemma FindAfterDrop<K, V>(cfg: Config<K>, s: State<K, V>, k: K, key: K)
    requires Shaped(cfg, s) && k != key && Resident(s, key)
    ensures Resident(Remove(s, k), key) && Find(Remove(s, k), key) == Find(s, key)
    ensures Holds(Remove(s, k).small, key) <==> Holds(s.small, key)
  {
    if Holds(s.main, k) {
      WithoutOther(s.main, IndexOf(s.main, k), key);
    } else if Holds(s.small, k) {
      WithoutOther(s.small, IndexOf(s.small, k), key);
    }
  }

  lemma FindAfterFront<K, V>(cfg: Config<K>, s: State<K, V>, item: Item<K, V>, key: K)
    requires Shaped(cfg, s) && cfg.policy == LRU && Resident(s, item.key) && Resident(s, key)
    ensures var s' := s.(main := [item] + Drop(s.main, item.key));
            Resident(s', key) && Find(s', key) == if key == item.key then item else Find(s, key)
  {
    if key != item.key {
      WithoutOther(s.main, IndexOf(s.main, item.key), key);
      ConsOther(item, Drop(s.main, item.key), key);
    }
  }

  /** A read of another key, whatever becomes of that. */
  lemma OtherRead<K, V>(cfg: Config<K>, s: State<K, V>, k: K, now: int, who: Refresher, key: K)
    requires Shaped(cfg, s) && k != key && Resident(s, key)
    ensures var s' := Get(cfg, s, k, now, who).state; Resident(s', key) && Find(s', key) == Find(s, key)
  {
    if Resident(s, k) {
      var item := Find(s, k);
      if item.Expired(now) {
        FindAfterDrop(cfg, s, k, key);
      } else if cfg.policy == LRU {
        FindAfterFront(cfg, s, if item.negative then item else Claimed(item, who, now), key);
      } else {
        FindUpdate(s, Claimed(if cfg.policy == S3FIFO then Bumped(item) else item, who, now), key);
      }
    }
  }

  /** A live read of the key: it counts, and claims the refresh if it is due. */
  lemma OwnRead<K, V>(cfg: Config<K>, s: State<K, V>, key: K, now: int, who: Refresher)
    requires Shaped(cfg, s) && Resident(s, key) && Find(s, key).freq <= 3
    requires Find(s, key).expiresAt == 0 || now < Find(s, key).expiresAt
    ensures var r, item, op := Get(cfg, s, key, now, who), Find(s, key), Op<K, V>.Read(key, now, who);
            && Resident(r.state, key) && r.refresh == IsDue(cfg, item, op) && !r.expired
            && r.answer == (if item.negative then Negative else Hit(item.value))
            && Find(r.state, key) ==
               item.(freq := if cfg.policy == S3FIFO && item.freq < 3 then item.freq + 1 else item.freq,
                     refreshAt := if IsDue(cfg, item, op) then 0 else item.refreshAt)
  {
    hide Update, Drop, Find, Resident, Holds;
    var item := Find(s, key);
    if cfg.policy == LRU {
      FindAfterFront(cfg, s, if item.negative then item else Claimed(item, who, now), key);
    } else {
      FindUpdate(s, Claimed(if cfg.policy == S3FIFO then Bumped(item) else item, who, now), key);
    }
  }

  /** One read more. */
  lemma ReadCounts<K, V>(cfg: Config<K>, item: Item<K, V>, ops: seq<Op<K, V>>, op: Op<K, V>)
    requires op.Read? && item.freq <= 3
    ensures var before, after := AfterReads(cfg, item, ops), AfterReads(cfg, item, ops + [op]);
            if op.key != item.key then after == before
            else
              after == before.(freq := if cfg.policy == S3FIFO && before.freq < 3 then before.freq + 1 else before.freq,
                               refreshAt := if IsDue(cfg, before, op) then 0 else before.refreshAt)
    ensures IsDue(cfg, AfterReads(cfg, item, ops), op) <==> !AnyDue(cfg, item, ops) && IsDue(cfg, item, op)
  {
    var more := ops + [op];
    assert more[..|ops|] == ops && more[|ops|] == op;
    if AnyDue(cfg, item, ops) {
      var i :| 0 <= i < |ops| && IsDue(cfg, item, ops[i]);
      assert more[i] == ops[i];
    }
    if AnyDue(cfg, item, more) && !IsDue(cfg, item, op) {
      var i :| 0 <= i < |more| && IsDue(cfg, item, more[i]);
      assert ops[i] == more[i];
    }
  }

  /** After any number of reads, of this key and others: under S3FIFO the entry's count
      has gone up by as many as were of it, up to three, and under the other policies
      not at all; its refresh is taken exactly if one of them was due; and it is
      otherwise as it was. */
  lemma {:induction false} ReadsCount<K, V>(cfg: Config<K>, s: State<K, V>, ops: seq<Op<K, V>>, key: K)
    requires Good(cfg, s) && Resident(s, key) && LiveReads(ops, Find(s, key))
    ensures var s' := Run(cfg, s, ops); Resident(s', key) && Find(s', key) == AfterReads(cfg, Find(s, key), ops)
    decreases |ops|
  {
    hide Run, Good;
    CountIsCapped(cfg, s, key);
    if ops == [] {
      RunNone(cfg, s);
    } else {
      var front, op := ops[..|ops| - 1], ops[|ops| - 1];
      assert ops == front + [op];
      RunSnoc(cfg, s, front, op);
      ReadsCount(cfg, s, front, key);
      var mid, item := Run(cfg, s, front), Find(s, key);
      CountIsCapped(cfg, mid, key);
      ReadCounts(cfg, item, front, op);
      if op.key == key {
        OwnRead(cfg, mid, key, op.now, op.who);
      } else {
        OtherRead(cfg, mid, op.key, op.now, op.who, key);
      }
    }
  }

  lemma CountIsCapped<K, V>(cfg: Config<K>, s: State<K, V>, key: K)
    requires Good(cfg, s) && Resident(s, key)
    ensures Shaped(cfg, s) && Find(s, key).freq <= 3
  {
  }

  /** Of any number of reads exactly the first that is due is told to refresh. */
  lemma FirstDueRefreshes<K, V>(cfg: Config<K>, s: State<K, V>, ops: seq<Op<K, V>>, op: Op<K, V>)
    requires Good(cfg, s) && op.Read? && Resident(s, op.key) && LiveReads(ops + [op], Find(s, op.key))
    ensures var item, r := Find(s, op.key), Get(cfg, Run(cfg, s, ops), op.key, op.now, op.who);
            && (r.refresh <==> !AnyDue(cfg, item, ops) && IsDue(cfg, item, op))
            && r.answer == (if item.negative then Negative else Hit(item.value)) && !r.expired
  {
    var item, mid := Find(s, op.key), Run(cfg, s, ops);
    assert LiveReads(ops, item) by {
      assert forall i :: 0 <= i < |ops| ==> (ops + [op])[i] == ops[i];
    }
    assert (ops + [op])[|ops|] == op;
    RunGood(cfg, s, ops);
    ReadsCount(cfg, s, ops, op.key);
    CountIsCapped(cfg, s, op.key);
    CountIsCapped(cfg, mid, op.key);
    OwnRead(cfg, mid, op.key, op.now, op.who);
    ReadCounts(cfg, item, ops, op);
  }

  /** A read drops the entry it reads exactly if that has expired, says so, and answers
      as if there were none. */
  lemma ReadDropsExpired<K, V>(cfg: Config<K>, s: State<K, V>, key: K, now: int, who: Refresher)
    requires Good(cfg, s)
    ensures var r := Get(cfg, s, key, now, who);
            var gone := Resident(s, key) && Find(s, key).expiresAt != 0 && Find(s, key).expiresAt <= now;
            && r.expired == gone && (Resident(r.state, key) <==> Resident(s, key) && !gone)
            && (!Resident(r.state, key) ==> r.answer == Miss && !r.refresh)
  {
    if Resident(s, key) {
      if Find(s, key).Expired(now) {
        RemoveShaped(cfg, s, key);
      } else {
        OwnRead(cfg, s, key, now, who);
      }
    }
  }

  // An entry that has been read

  /** Key, if it is in the small queue, has been read since it came in. */
  predicate ReadIfSmall<K(==), V>(s: State<K, V>, key: K) {
    Holds(s.small, key) ==> s.small[IndexOf(s.small, key)].freq > 0
  }

  /** The operation does not write the key. */
  predicate Spares<K(==), V>(op: Op<K, V>, key: K) {
    match op
    case Write(item, _) => item.key != key
    case _ => true
  }

  lemma TurnKeepsRead<K, V>(cfg: Config<K>, s: State<K, V>, keep: K, key: K)
    requires Wf(s) && !TakeTurn(cfg, s, keep).Stuck? && ReadIfSmall(s, key)
    ensures ReadIfSmall(TakeTurn(cfg, s, keep).state, key)
  {
    if SmallGives(cfg, s, keep) {
      FrontIsWithout(s.small);
      if Last(s.small).key != key {
        WithoutOther(s.small, |s.small| - 1, key);
      } else {
        WithoutOne(s.small, |s.small| - 1);
      }
    }
  }

  lemma {:induction false} EvictionKeepsRead<K, V>(cfg: Config<K>, s: State<K, V>, keep: K, key: K)
    requires Wf(s) && ReadIfSmall(s, key)
    ensures ReadIfSmall(EvictS3Fifo(cfg, s, keep).state, key)
    ensures forall i :: 0 <= i < |SmallVictims(cfg, s, keep)| ==> SmallVictims(cfg, s, keep)[i].key != key
    decreases Effort(s, keep)
  {
    hide ReadIfSmall, Wf, Over, Effort;
    var turn := TakeTurn(cfg, s, keep);
    if Over(cfg, s) && !turn.Stuck? {
      TurnShrinksEffort(cfg, s, keep);
      TurnKeepsRead(cfg, s, keep, key);
      EvictionKeepsRead(cfg, turn.state, keep, key);
      VictimIsUnread(cfg, s, keep, key);
    }
  }

  lemma VictimIsUnread<K, V>(cfg: Config<K>, s: State<K, V>, keep: K, key: K)
    requires Wf(s) && ReadIfSmall(s, key)
    ensures var turn := TakeTurn(cfg, s, keep); turn.Gone? && !turn.fromMain ==> turn.victim.key != key
  {
    if SmallGives(cfg, s, keep) && Last(s.small).key == key {
      HeldAt(s.small, |s.small| - 1, key);
    }
  }

  lemma InsertKeepsRead<K, V>(cfg: Config<K>, s: State<K, V>, item: Item<K, V>, key: K)
    requires Shaped(cfg, s) && item.key != key && ReadIfSmall(s, key)
    ensures ReadIfSmall(Insert(cfg, s, item), key)
  {
    hide IsGhost;
    if Holds(s.main, item.key) {
    } else if Holds(s.small, item.key) {
      WithoutOther(s.small, IndexOf(s.small, item.key), key);
      ConsOther(item.(freq := 0), Without(s.small, IndexOf(s.small, item.key)), key);
    } else {
      ConsOther(item.(freq := 0), s.small, key);
    }
  }

  lemma DropKeepsRead<K, V>(cfg: Config<K>, s: State<K, V>, k: K, key: K)
    requires Shaped(cfg, s) && ReadIfSmall(s, key)
    ensures ReadIfSmall(Remove(s, k), key)
  {
    if !Holds(s.main, k) && Holds(s.small, k) {
      if k == key {
        WithoutOne(s.small, IndexOf(s.small, k));
      } else {
        WithoutOther(s.small, IndexOf(s.small, k), key);
      }
    }
  }

  lemma ReadKeepsRead<K, V>(cfg: Config<K>, s: State<K, V>, k: K, now: int, who: Refresher, key: K)
    requires Shaped(cfg, s) && cfg.policy == S3FIFO && ReadIfSmall(s, key)
    ensures ReadIfSmall(Get(cfg, s, k, now, who).state, key)
  {
    if Resident(s, k) {
      var item := Find(s, k);
      if item.Expired(now) {
        DropKeepsRead(cfg, s, k, key);
      } else if !Holds(s.main, k) {
        var i := IndexOf(s.small, k);
        IndexUpdate(s.small, i, Claimed(Bumped(item), who, now), key);
      }
    }
  }

  lemma {:induction false} SweepKeepsRead<K, V>(q: Queue<K, V>, now: int, key: K)
    requires Distinct(q) && (Holds(q, key) ==> q[IndexOf(q, key)].freq > 0)
    ensures var r := Unexpired(q, now); Holds(r, key) ==> r[IndexOf(r, key)].freq > 0
  {
    if q != [] {
      UnexpiredKeeps(q, now);
      var r := Unexpired(q, now);
      if Holds(r, key) {
        var x := r[IndexOf(r, key)];
        var j :| 0 <= j < |q| && q[j] == x;
        HeldAt(q, j, key);
      }
    }
  }

  lemma ApplyKeepsRead<K, V>(cfg: Config<K>, s: State<K, V>, op: Op<K, V>, key: K)
    requires Good(cfg, s) && cfg.policy == S3FIFO && ReadIfSmall(s, key) && Spares(op, key)
    ensures ReadIfSmall(Apply(cfg, s, op), key)
  {
    hide ReadIfSmall, Insert, Over;
    match op
    case Read(k, now, who) => ReadKeepsRead(cfg, s, k, now, who, key);
    case Write(item, valid) =>
      if Fits(cfg, item) && valid {
        InsertShaped(cfg, s, item);
        InsertKeepsRead(cfg, s, item, key);
        EvictionKeepsRead(cfg, Insert(cfg, s, item), item.key, key);
      }
    case Delete(k) => DropKeepsRead(cfg, s, k, key);
    case SweepAt(now) => SweptKeepsRead(s, now, key);
    case Clear => NothingIsRead<K, V>(key);
  }

  lemma SweptKeepsRead<K, V>(s: State<K, V>, now: int, key: K)
    requires Wf(s) && ReadIfSmall(s, key)
    ensures ReadIfSmall(Sweep(s, now), key)
  {
    SweepKeepsRead(s.small, now, key);
  }

  lemma NothingIsRead<K, V>(key: K)
    ensures ReadIfSmall<K, V>(Start(), key)
  {
  }

  lemma {:induction false} RunKeepsRead<K, V>(cfg: Config<K>, s: State<K, V>, ops: seq<Op<K, V>>, key: K)
    requires Good(cfg, s) && cfg.policy == S3FIFO && ReadIfSmall(s, key)
    requires forall i :: 0 <= i < |ops| ==> Spares(ops[i], key)
    ensures ReadIfSmall(Run(cfg, s, ops), key)
    decreases |ops|
  {
    hide ReadIfSmall, Apply;
    if ops == [] {
    } else {
      ApplyGood(cfg, s, ops[0]);
      ApplyKeepsRead(cfg, s, ops[0], key);
      RunKeepsRead(cfg, Apply(cfg, s, ops[0]), ops[1..], key);
    }
  }

  /** An entry once read is never let out by the small queue, whatever happens, unless it
      is written anew: no write's eviction, however much later, has it among the small
      queue's victims. */
  lemma OnceReadIsNotLetOut<K, V>(cfg: Config<K>, s: State<K, V>, key: K, now: int, who: Refresher,
                                  ops: seq<Op<K, V>>, item: Item<K, V>)
    requires Good(cfg, s) && cfg.policy == S3FIFO && Resident(s, key)
    requires Find(s, key).expiresAt == 0 || now < Find(s, key).expiresAt
    requires (forall i :: 0 <= i < |ops| ==> Spares(ops[i], key)) && item.key != key
    ensures Good(cfg, Get(cfg, s, key, now, who).state)
    ensures var later := Run(cfg, Get(cfg, s, key, now, who).state, ops);
            Shaped(cfg, later) && Wf(Insert(cfg, later, item)) &&
            var victims := SmallVictims(cfg, Insert(cfg, later, item), item.key);
            forall i :: 0 <= i < |victims| ==> victims[i].key != key
  {
    hide Insert, Run, Over;
    ReadGood(cfg, s, key, now, who);
    var s' := Get(cfg, s, key, now, who).state;
    CountIsCapped(cfg, s, key);
    OwnRead(cfg, s, key, now, who);
    assert ReadIfSmall(s', key);
    RunGood(cfg, s', ops);
    RunKeepsRead(cfg, s', ops, key);
    var later := Run(cfg, s', ops);
    InsertShaped(cfg, later, item);
    InsertKeepsRead(cfg, later, item, key);
    EvictionKeepsRead(cfg, Insert(cfg, later, item), item.key, key);
  }
}
