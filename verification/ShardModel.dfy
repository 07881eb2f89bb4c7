/**
 One shard of the cache as a value: its main and small queues, each with the
 newest entry first, and the log of its ghosts. Every operation is a function
 from state to state. The linked lists, the map and the running totals that the
 cache keeps instead are proved against these functions in Shards.
 */
module ShardModel {
  import opened GhostLog
  import opened Maybe

  const MAX_FREQ: nat := 3
  const SMALL_SHARE: nat := 10

  datatype Policy = LRU | ClearOnFull | S3FIFO

  datatype Refresher = RefreshNone | RefreshCache | RefreshView

  /** A budget of zero is no budget. The hash stands for maphash.Comparable. */
  datatype Config<!K> = Config(maxBytes: nat, maxEntries: nat, policy: Policy, hash: K -> nat)

  datatype Item<K, V> = Item(
    key: K, value: V, cost: nat, expiresAt: int, negative: bool, byView: bool,
    freq: nat, refreshAt: int)
  {
    predicate Expired(now: int) {
      expiresAt != 0 && now >= expiresAt
    }

    /** Whether a read by who at now is the one to refresh the entry. */
    predicate Claims(who: Refresher, now: int) {
      byView == (who == RefreshView) && refreshAt != 0 && now >= refreshAt
    }
  }

  type Queue<K, V> = seq<Item<K, V>>

  datatype State<K, V> = State(main: Queue<K, V>, small: Queue<K, V>, log: Log)

  // Queues

  /** Where key is, or the length of the queue if it is not there. */
  function IndexOf<K(==), V>(q: Queue<K, V>, key: K): (i: nat)
    ensures i <= |q|
    ensures i < |q| ==> q[i].key == key
    ensures forall j :: 0 <= j < i ==> q[j].key != key
  {
    if q == [] then 0
    else if q[0].key == key then 0
    else 1 + IndexOf(q[1..], key)
  }

  predicate Holds<K(==), V>(q: Queue<K, V>, key: K) {
    IndexOf(q, key) < |q|
  }

  function Without<T>(q: seq<T>, i: nat): (r: seq<T>)
    requires i < |q|
    ensures |r| == |q| - 1
    ensures forall j :: 0 <= j < |r| ==> r[j] == if j < i then q[j] else q[j + 1]
  {
    q[..i] + q[i + 1..]
  }

  function Drop<K(==), V>(q: Queue<K, V>, key: K): Queue<K, V> {
    var i := IndexOf(q, key);
    if i < |q| then Without(q, i) else q
  }

  function Bytes<K, V>(q: Queue<K, V>): nat {
    if q == [] then 0 else q[0].cost + Bytes(q[1..])
  }

  /** The items that have not expired by now, in their order. */
  function Unexpired<K, V>(q: Queue<K, V>, now: int): Queue<K, V> {
    if q == [] then []
    else if q[0].Expired(now) then Unexpired(q[1..], now)
    else [q[0]] + Unexpired(q[1..], now)
  }

  /** The queue's items that have expired by now, in their order. */
  function Dead<K, V>(q: Queue<K, V>, now: int): Queue<K, V> {
    if q == [] then []
    else if q[0].Expired(now) then [q[0]] + Dead(q[1..], now)
    else Dead(q[1..], now)
  }

  // Shards

  ghost predicate Distinct<K, V>(q: Queue<K, V>) {
    forall i, j :: 0 <= i < j < |q| ==> q[i].key != q[j].key
  }

  ghost predicate Apart<K, V>(p: Queue<K, V>, q: Queue<K, V>) {
    forall i, j :: 0 <= i < |p| && 0 <= j < |q| ==> p[i].key != q[j].key
  }

  /** No key is resident twice. */
  ghost predicate Wf<K, V>(s: State<K, V>) {
    Distinct(s.main) && Distinct(s.small) && Apart(s.main, s.small)
  }

  function Count<K, V>(s: State<K, V>): nat {
    |s.main| + |s.small|
  }

  function TotalBytes<K, V>(s: State<K, V>): nat {
    Bytes(s.main) + Bytes(s.small)
  }

  predicate Over<K, V>(cfg: Config<K>, s: State<K, V>) {
    || (cfg.maxBytes > 0 && TotalBytes(s) > cfg.maxBytes)
    || (cfg.maxEntries > 0 && Count(s) > cfg.maxEntries)
  }

  predicate Resident<K(==), V>(s: State<K, V>, key: K) {
    Holds(s.main, key) || Holds(s.small, key)
  }

  function Find<K(==), V>(s: State<K, V>, key: K): (item: Item<K, V>)
    requires Resident(s, key)
    ensures item.key == key
  {
    if Holds(s.main, key) then s.main[IndexOf(s.main, key)] else s.small[IndexOf(s.small, key)]
  }

  function Remove<K(==), V>(s: State<K, V>, key: K): State<K, V> {
    if Holds(s.main, key) then s.(main := Drop(s.main, key))
    else s.(small := Drop(s.small, key))
  }

  /** The entry of item.key becomes item, in its place. */
  function Update<K(==), V>(s: State<K, V>, item: Item<K, V>): State<K, V>
    requires Resident(s, item.key)
  {
    if Holds(s.main, item.key)
    then s.(main := s.main[IndexOf(s.main, item.key) := item])
    else s.(small := s.small[IndexOf(s.small, item.key) := item])
  }

  // Reads

  datatype Answer<V> = Miss | Negative | Hit(value: V)

  datatype ReadResult<K, V> = ReadResult(state: State<K, V>, answer: Answer<V>, expired: bool, refresh: bool)

  function AnswerOf<K, V>(item: Item<K, V>): Answer<V> {
    if item.negative then Negative else Hit(item.value)
  }

  function Bumped<K, V>(item: Item<K, V>): Item<K, V> {
    if item.freq < MAX_FREQ then item.(freq := item.freq + 1) else item
  }

  /** A claimed refresh is taken by zeroing the time it was due at. */
  function Claimed<K, V>(item: Item<K, V>, who: Refresher, now: int): Item<K, V> {
    if who != RefreshNone && item.Claims(who, now) then item.(refreshAt := 0) else item
  }

  /** A read, with nobody else between its locks. */
  function Get<K(==), V>(cfg: Config<K>, s: State<K, V>, key: K, now: int, who: Refresher): ReadResult<K, V> {
    if !Resident(s, key) then ReadResult(s, Miss, false, false)
    else
      var item := Find(s, key);
      if item.Expired(now) then ReadResult(Remove(s, key), Miss, true, false)
      else if cfg.policy == LRU then
        // A negative entry is not asked whether it is due.
        var read := if item.negative then item else Claimed(item, who, now);
        ReadResult(s.(main := [read] + Drop(s.main, key)), AnswerOf(item), false,
                   !item.negative && who != RefreshNone && item.Claims(who, now))
      else
        var read := if cfg.policy == S3FIFO then Bumped(item) else item;
        ReadResult(Update(s, Claimed(read, who, now)), AnswerOf(item), false,
                   who != RefreshNone && item.Claims(who, now))
  }

  // Writes

  /** Whether the small queue holds its share of the budget. */
  predicate SmallFull<K, V>(cfg: Config<K>, s: State<K, V>) {
    || (cfg.maxBytes > 0 && Bytes(s.small) >= Max(cfg.maxBytes / SMALL_SHARE, 1))
    || (cfg.maxEntries > 0 && |s.small| >= Max(cfg.maxEntries / SMALL_SHARE, 1))
  }

  /** One turn of the S3FIFO eviction loop: an entry leaves, or one moves up or
      round, or there is nothing but keep left to give. */
  datatype Turn<K, V> =
    | Gone(state: State<K, V>, victim: Item<K, V>, fromMain: bool)
    | Moved(state: State<K, V>)
    | Stuck

  function Last<T>(q: seq<T>): T
    requires q != []
  {
    q[|q| - 1]
  }

  function Front<T>(q: seq<T>): seq<T>
    requires q != []
  {
    q[..|q| - 1]
  }

  /** The oldest entry of the small queue moves up, its reads forgotten. */
  function MoveUp<K, V>(s: State<K, V>): State<K, V>
    requires s.small != []
  {
    s.(small := Front(s.small), main := [Last(s.small).(freq := 0)] + s.main)
  }

  /** The oldest entry of the small queue leaves as a ghost. */
  function LetOut<K, V>(cfg: Config<K>, s: State<K, V>): State<K, V>
    requires s.small != []
  {
    State(s.main, Front(s.small), Then(s.log, Added(cfg.hash(Last(s.small).key), Count(s) - 1)))
  }

  /** The main queue's entry i goes round again, one read the poorer. */
  function GoRound<K, V>(s: State<K, V>, i: nat): State<K, V>
    requires i < |s.main| && s.main[i].freq > 0
  {
    s.(main := [s.main[i].(freq := s.main[i].freq - 1)] + Without(s.main, i))
  }

  /** The oldest entry of the main queue but keep, or -1 if it has none. */
  function OldestButKeep<K(==), V>(main: Queue<K, V>, keep: K): (i: int)
    ensures -1 <= i < |main|
  {
    if main != [] && Last(main).key == keep then |main| - 2 else |main| - 1
  }

  /** Whether the small queue has to give up its oldest entry. */
  predicate SmallGives<K(==), V>(cfg: Config<K>, s: State<K, V>, keep: K) {
    && s.small != [] && Last(s.small).key != keep
    && (SmallFull(cfg, s) || OldestButKeep(s.main, keep) < 0)
  }

  function TakeTurn<K(==), V>(cfg: Config<K>, s: State<K, V>, keep: K): Turn<K, V> {
    if SmallGives(cfg, s, keep) then
      var t := Last(s.small);
      if t.freq > 0 then Moved(MoveUp(s)) else Gone(LetOut(cfg, s), t, false)
    else
      var i := OldestButKeep(s.main, keep);
      if i < 0 then Stuck
      else if s.main[i].freq > 0 then Moved(GoRound(s, i))
      else Gone(s.(main := Without(s.main, i)), s.main[i], true)
  }

  /** What is left for the main queue to go round: a turn for each read of an
      entry other than keep and one to leave. */
  function Rounds<K(==), V>(q: Queue<K, V>, keep: K): nat {
    if q == [] then 0
    else (if q[0].key == keep then 0 else q[0].freq + 1) + Rounds(q[1..], keep)
  }

  /** The turns the eviction loop can still take: two for an entry of the small
      queue, which may move up before it leaves. */
  function Effort<K(==), V>(s: State<K, V>, keep: K): nat {
    Rounds(s.main, keep) + 2 * (|s.small| - if Holds(s.small, keep) then 1 else 0)
  }

  // Queue arithmetic

  lemma {:induction false} BytesConcat<K, V>(p: Queue<K, V>, q: Queue<K, V>)
    ensures Bytes(p + q) == Bytes(p) + Bytes(q)
  {
    if p == [] {
      assert p + q == q;
    } else {
      assert (p + q)[1..] == p[1..] + q;
      BytesConcat(p[1..], q);
    }
  }

  lemma BytesCons<K, V>(item: Item<K, V>, q: Queue<K, V>)
    ensures Bytes([item] + q) == item.cost + Bytes(q)
  {
    assert ([item] + q)[1..] == q;
  }

  lemma TakenOut<T>(q: seq<T>, i: nat)
    requires i < |q|
    ensures q == q[..i] + ([q[i]] + q[i + 1..]) && Without(q, i) == q[..i] + q[i + 1..]
  {
  }

  lemma BytesAround<K, V>(front: Queue<K, V>, item: Item<K, V>, rest: Queue<K, V>)
    ensures Bytes(front + ([item] + rest)) == Bytes(front + rest) + item.cost
  {
    BytesConcat(front, [item] + rest);
    BytesConcat([item], rest);
    BytesConcat(front, rest);
  }

  lemma BytesWithout<K, V>(q: Queue<K, V>, i: nat)
    requires i < |q|
    ensures Bytes(q) == Bytes(Without(q, i)) + q[i].cost
  {
    hide Bytes, Without;
    TakenOut(q, i);
    BytesAround(q[..i], q[i], q[i + 1..]);
  }

  lemma {:induction false} RoundsConcat<K, V>(p: Queue<K, V>, q: Queue<K, V>, keep: K)
    ensures Rounds(p + q, keep) == Rounds(p, keep) + Rounds(q, keep)
  {
    if p == [] {
      assert p + q == q;
    } else {
      assert (p + q)[1..] == p[1..] + q;
      RoundsConcat(p[1..], q, keep);
    }
  }

  lemma RoundsAround<K, V>(front: Queue<K, V>, q: Queue<K, V>, rest: Queue<K, V>, keep: K)
    ensures Rounds(front + (q + rest), keep) == Rounds(front + rest, keep) + Rounds(q, keep)
  {
    hide Rounds;
    RoundsConcat(front, q + rest, keep);
    RoundsConcat(q, rest, keep);
    RoundsConcat(front, rest, keep);
  }

  lemma RoundsWithout<K, V>(q: Queue<K, V>, i: nat, keep: K)
    requires i < |q|
    ensures Rounds(q, keep) == Rounds(Without(q, i), keep) + Rounds([q[i]], keep)
  {
    hide Rounds, Without;
    TakenOut(q, i);
    RoundsAround(q[..i], [q[i]], q[i + 1..], keep);
  }

  lemma MoveUpShrinks<K, V>(s: State<K, V>, keep: K)
    requires Wf(s) && s.small != [] && Last(s.small).key != keep
    ensures Wf(MoveUp(s)) && Effort(MoveUp(s), keep) < Effort(s, keep)
  {
    RoundsConcat([Last(s.small).(freq := 0)], s.main, keep);
    FrontHolds(s.small, keep);
  }

  lemma LetOutShrinks<K, V>(cfg: Config<K>, s: State<K, V>, keep: K)
    requires Wf(s) && s.small != [] && Last(s.small).key != keep
    ensures Wf(LetOut(cfg, s)) && Effort(LetOut(cfg, s), keep) < Effort(s, keep)
  {
    FrontHolds(s.small, keep);
  }

  lemma AtIndex<K, V>(q: Queue<K, V>, key: K)
    requires Holds(q, key)
    ensures IndexOf(q, key) < |q| && q[IndexOf(q, key)].key == key
  {
  }

  lemma HeldSomewhere<K, V>(q: Queue<K, V>, i: nat, key: K)
    requires i < |q| && q[i].key == key
    ensures Holds(q, key)
  {
  }

  lemma WithoutBringsNothing<K, V>(q: Queue<K, V>, i: nat, key: K)
    requires i < |q| && Holds(Without(q, i), key)
    ensures Holds(q, key)
  {
    hide Holds, IndexOf;
    var n := IndexOf(Without(q, i), key);
    AtIndex(Without(q, i), key);
    HeldSomewhere(q, if n < i then n else n + 1, key);
  }

  lemma FrontHolds<K, V>(q: Queue<K, V>, key: K)
    requires q != [] && Last(q).key != key
    ensures Holds(Front(q), key) <==> Holds(q, key)
  {
    if Holds(q, key) {
      assert Front(q)[IndexOf(q, key)].key == key;
    }
    if Holds(Front(q), key) {
      assert q[IndexOf(Front(q), key)].key == key;
    }
  }

  lemma GoRoundShrinks<K, V>(s: State<K, V>, i: nat, keep: K)
    requires Wf(s) && i < |s.main| && s.main[i].freq > 0 && s.main[i].key != keep
    ensures Wf(GoRound(s, i)) && Effort(GoRound(s, i), keep) < Effort(s, keep)
  {
    RoundsWithout(s.main, i, keep);
    RoundsConcat([s.main[i].(freq := s.main[i].freq - 1)], Without(s.main, i), keep);
  }

  lemma LeaveShrinks<K, V>(s: State<K, V>, i: nat, keep: K)
    requires Wf(s) && i < |s.main| && s.main[i].key != keep
    ensures Wf(s.(main := Without(s.main, i))) && Effort(s.(main := Without(s.main, i)), keep) < Effort(s, keep)
  {
    RoundsWithout(s.main, i, keep);
  }

  /** Every turn but being stuck uses up at least one. */
  lemma TurnShrinksEffort<K, V>(cfg: Config<K>, s: State<K, V>, keep: K)
    requires Wf(s)
    ensures var turn := TakeTurn(cfg, s, keep);
            !turn.Stuck? ==> Wf(turn.state) && Effort(turn.state, keep) < Effort(s, keep)
  {
    if SmallGives(cfg, s, keep) {
      MoveUpShrinks(s, keep);
      LetOutShrinks(cfg, s, keep);
    } else {
      var i := OldestButKeep(s.main, keep);
      if 0 <= i {
        assert s.main[i].key != keep;
        if s.main[i].freq > 0 {
          GoRoundShrinks(s, i, keep);
        }
        LeaveShrinks(s, i, keep);
      }
    }
  }

  // Eviction

  datatype Evicted<K, V> = Evicted(state: State<K, V>, victims: Queue<K, V>, fromMain: nat, turns: nat)

  /** The S3FIFO eviction loop: turns until the shard is inside its budget. */
  function EvictS3Fifo<K(==), V>(cfg: Config<K>, s: State<K, V>, keep: K): Evicted<K, V>
    requires Wf(s)
    decreases Effort(s, keep)
  {
    if !Over(cfg, s) then Evicted(s, [], 0, 0)
    else
      TurnShrinksEffort(cfg, s, keep);
      match TakeTurn(cfg, s, keep)
      case Stuck => Evicted(s, [], 0, 0)
      case Moved(next) =>
        var rest := EvictS3Fifo(cfg, next, keep);
        rest.(turns := rest.turns + 1)
      case Gone(next, victim, fromMain) =>
        var rest := EvictS3Fifo(cfg, next, keep);
        Evicted(rest.state, [victim] + rest.victims,
                 rest.fromMain + (if fromMain then 1 else 0), rest.turns + 1)
  }

  /** The LRU eviction loop: the oldest entry leaves until the shard is inside
      its budget or keep is all there is. */
  function EvictLru<K(==), V>(cfg: Config<K>, s: State<K, V>, keep: K): Evicted<K, V>
    decreases |s.main|
  {
    if Over(cfg, s) && s.main != [] && Last(s.main).key != keep then
      var rest := EvictLru(cfg, s.(main := Front(s.main)), keep);
      Evicted(rest.state, [Last(s.main)] + rest.victims, rest.fromMain + 1, rest.turns + 1)
    else Evicted(s, [], 0, 0)
  }

  /** ClearOnFull wipes everything but keep; the victims come in no set order. */
  function EvictAll<K(==), V>(s: State<K, V>, keep: K): Evicted<K, V>
    requires Holds(s.main, keep)
  {
    var i := IndexOf(s.main, keep);
    Evicted(s.(main := [s.main[i]]), Without(s.main, i), |s.main| - 1, 1)
  }

  function Evict<K(==), V>(cfg: Config<K>, s: State<K, V>, keep: K): Evicted<K, V>
    requires Wf(s)
    requires cfg.policy != S3FIFO ==> Holds(s.main, keep)
  {
    if !Over(cfg, s) then Evicted(s, [], 0, 0)
    else match cfg.policy
      case S3FIFO => EvictS3Fifo(cfg, s, keep)
      case ClearOnFull => EvictAll(s, keep)
      case LRU => EvictLru(cfg, s, keep)
  }

  /** The state with item queued, its key's old entry gone and nothing evicted.
      An entry that replaces one of the main queue takes over its place in that
      queue and its reads; a ghost's entry goes to the main queue too. */
  ghost function Insert<K, V>(cfg: Config<K>, s: State<K, V>, item: Item<K, V>): State<K, V> {
    var entry := item.(freq := 0);
    var rest := Remove(s, item.key);
    var h := cfg.hash(item.key);
    if cfg.policy != S3FIFO then rest.(main := [entry] + rest.main)
    else if Holds(s.main, item.key) then
      rest.(main := [entry.(freq := Find(s, item.key).freq)] + rest.main)
    else if IsGhost(s.log, h) then
      rest.(main := [entry] + rest.main, log := Then(s.log, Taken(h)))
    else
      rest.(small := [entry] + rest.small, log := Then(s.log, Taken(h)))
  }

  /** What a write did: refused as too large for the budget, dropped because its
      load was invalidated, or stored. */
  datatype SetResult<K, V> =
    | TooLarge
    | Superseded
    | Stored(state: State<K, V>, replaced: Option<Item<K, V>>, victims: Queue<K, V>)

  predicate Fits<K, V>(cfg: Config<K>, item: Item<K, V>) {
    cfg.maxBytes == 0 || item.cost <= cfg.maxBytes
  }

  ghost predicate Shaped<K, V>(cfg: Config<K>, s: State<K, V>) {
    Wf(s) && (cfg.policy != S3FIFO ==> s.small == [])
  }

  /** A write of item; valid is false only for a load whose token was invalidated. */
  ghost function Set<K, V>(cfg: Config<K>, s: State<K, V>, item: Item<K, V>, valid: bool): SetResult<K, V>
    requires Shaped(cfg, s)
  {
    if !Fits(cfg, item) then TooLarge
    else if !valid then Superseded
    else
      InsertShaped(cfg, s, item);
      var out := Evict(cfg, Insert(cfg, s, item), item.key);
      Stored(out.state, if Resident(s, item.key) then Some(Find(s, item.key)) else None, out.victims)
  }

  function Sweep<K, V>(s: State<K, V>, now: int): State<K, V> {
    s.(main := Unexpired(s.main, now), small := Unexpired(s.small, now))
  }

  // What the queue operations keep

  lemma DropHolds<K, V>(q: Queue<K, V>, key: K)
    requires Distinct(q)
    ensures Distinct(Drop(q, key)) && !Holds(Drop(q, key), key)
    ensures forall x :: x in Drop(q, key) <==> x in q && x.key != key
  {
    var i := IndexOf(q, key);
    if i < |q| {
      var r := Without(q, i);
      forall x | x in q && x.key != key ensures x in r {
        var j :| 0 <= j < |q| && q[j] == x;
        assert x == r[if j < i then j else j - 1];
      }
    }
  }

  lemma RemoveShaped<K, V>(cfg: Config<K>, s: State<K, V>, key: K)
    requires Shaped(cfg, s)
    ensures Shaped(cfg, Remove(s, key)) && !Resident(Remove(s, key), key)
    ensures Remove(s, key) == State(Drop(s.main, key), Drop(s.small, key), s.log)
  {
    DropHolds(s.main, key);
    DropHolds(s.small, key);
  }

  lemma RemoveBringsNothing<K, V>(cfg: Config<K>, s: State<K, V>, k: K, key: K)
    requires Shaped(cfg, s)
    ensures Resident(Remove(s, k), key) ==> Resident(s, key)
  {
    RemoveShaped(cfg, s, k);
    DropHolds(s.main, k);
    DropHolds(s.small, k);
  }

  lemma ConsHolds<K, V>(x: Item<K, V>, q: Queue<K, V>, key: K)
    ensures Holds([x] + q, key) <==> x.key == key || Holds(q, key)
  {
    if Holds(q, key) {
      assert ([x] + q)[IndexOf(q, key) + 1].key == key;
    }
  }

  /** Nor does an insertion bring another key. */
  lemma InsertBringsNothing<K, V>(cfg: Config<K>, s: State<K, V>, item: Item<K, V>, key: K)
    requires Shaped(cfg, s) && key != item.key && Resident(Insert(cfg, s, item), key)
    ensures Resident(s, key)
  {
    hide Remove, Holds, IsGhost;
    RemoveBringsNothing(cfg, s, item.key, key);
    var s', rest := Insert(cfg, s, item), Remove(s, item.key);
    if s'.small == rest.small {
      ConsHolds(s'.main[0], rest.main, key);
    } else {
      ConsHolds(s'.small[0], rest.small, key);
    }
  }

  lemma InsertShaped<K, V>(cfg: Config<K>, s: State<K, V>, item: Item<K, V>)
    requires Shaped(cfg, s)
    ensures Shaped(cfg, Insert(cfg, s, item)) && Resident(Insert(cfg, s, item), item.key)
    ensures cfg.policy != S3FIFO ==> Holds(Insert(cfg, s, item).main, item.key)
  {
    hide Remove, Distinct, Apart, Holds;
    RemoveShaped(cfg, s, item.key);
    var entry, rest := item.(freq := 0), Remove(s, item.key);
    ConsApart(entry, rest.main, rest.small);
    ConsApart(entry, rest.small, rest.main);
    if Holds(s.main, item.key) {
      ConsApart(entry.(freq := Find(s, item.key).freq), rest.main, rest.small);
    }
  }

  lemma ConsApart<K, V>(x: Item<K, V>, p: Queue<K, V>, q: Queue<K, V>)
    requires Distinct(p) && Apart(p, q) && !Holds(p, x.key) && !Holds(q, x.key)
    ensures Distinct([x] + p) && Apart([x] + p, q) && Apart(q, [x] + p) && Apart(q, p) && Holds([x] + p, x.key)
  {
  }

  lemma IndexUpdate<K, V>(q: Queue<K, V>, i: nat, item: Item<K, V>, key: K)
    requires i < |q| && item.key == q[i].key
    ensures IndexOf(q[i := item], key) == IndexOf(q, key)
  {
    assert forall j :: 0 <= j < |q| ==> q[i := item][j].key == q[j].key;
  }

  lemma FindUpdate<K, V>(s: State<K, V>, item: Item<K, V>, key: K)
    requires Wf(s) && Resident(s, item.key)
    ensures Resident(Update(s, item), key) <==> Resident(s, key)
    ensures Resident(s, key) ==> Find(Update(s, item), key) == if key == item.key then item else Find(s, key)
  {
    if Holds(s.main, item.key) {
      IndexUpdate(s.main, IndexOf(s.main, item.key), item, key);
    } else {
      IndexUpdate(s.small, IndexOf(s.small, item.key), item, key);
    }
  }
}
