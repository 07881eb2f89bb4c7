/**
 The cache over its shards: how many there are, which one a key belongs to, how the
 budget is divided and what the shards together can hold.
 */
module Sharding {
  import opened GhostLog
  import opened ShardModel
  import Runs

  // How many shards

  function Pow2(k: nat): (p: nat)
    ensures p >= 1
  {
    if k == 0 then 1 else 2 * Pow2(k - 1)
  }

  /** bits.Len: how many bits x takes. */
  function BitLen(x: nat): nat {
    if x == 0 then 0 else 1 + BitLen(x / 2)
  }

  function ShardCount(n: int): (c: nat)
    ensures c > 0
  {
    if n <= 1 then 1 else Pow2(BitLen(n - 1))
  }

  lemma {:induction false} BitLenBounds(x: nat)
    ensures x < Pow2(BitLen(x))
    ensures x > 0 ==> Pow2(BitLen(x) - 1) <= x
  {
    if x > 0 {
      BitLenBounds(x / 2);
      if x / 2 == 0 {
        assert x == 1;
      }
    }
  }

  lemma {:induction false} Pow2Grows(j: nat, k: nat)
    ensures j < k ==> 2 * Pow2(j) <= Pow2(k)
  {
    if j < k - 1 {
      Pow2Grows(j, k - 1);
    }
  }

  /** The number of shards is the least power of two not below the request. */
  lemma ShardCountIsLeast(n: int) returns (k: nat)
    ensures ShardCount(n) == Pow2(k) && n <= ShardCount(n)
    ensures forall j: nat :: Pow2(j) >= n ==> Pow2(j) >= ShardCount(n)
  {
    if n <= 1 {
      k := 0;
    } else {
      k := BitLen(n - 1);
      BitLenBounds(n - 1);
      forall j: nat | Pow2(j) >= n ensures Pow2(j) >= Pow2(k) {
        Pow2Grows(j, k - 1);
        Pow2Grows(k, j);
      }
    }
  }

  // Which shard

  /** Bitwise and of two naturals. */
  function And(x: nat, y: nat): nat {
    if x == 0 || y == 0 then 0
    else 2 * And(x / 2, y / 2) + if x % 2 == 1 && y % 2 == 1 then 1 else 0
  }

  /** The cache has only one shard, or the key's hash is masked. */
  function ShardIndex(hash: nat, shards: nat): nat
    requires shards > 0
  {
    if shards == 1 then 0 else And(hash, shards - 1)
  }

  lemma {:induction false} MaskKeepsLowBits(x: nat, k: nat)
    ensures And(x, Pow2(k) - 1) == x % Pow2(k)
  {
    var p := Pow2(k);
    if k == 0 {
      ModuloIs(x, p, x, 0);
    } else if x == 0 {
      ModuloIs(x, p, 0, 0);
    } else {
      var half := Pow2(k - 1);
      AndStep(x, half);
      MaskKeepsLowBits(x / 2, k - 1);
      HalvedModulo(x, half);
      assert p == 2 * half;
    }
  }

  lemma AndStep(x: nat, p: nat)
    requires p > 0
    ensures And(x, 2 * p - 1) == 2 * And(x / 2, p - 1) + x % 2
  {
    assert (2 * p - 1) / 2 == p - 1 && (2 * p - 1) % 2 == 1;
  }

  lemma HalvedModulo(x: nat, p: nat)
    requires p > 0
    ensures x % (2 * p) == 2 * ((x / 2) % p) + x % 2
  {
    var q, r := (x / 2) / p, (x / 2) % p;
    assert x / 2 == p * q + r;
    assert x == (2 * p) * q + (2 * r + x % 2);
    ModuloIs(x, 2 * p, q, 2 * r + x % 2);
  }

  lemma ModuloIs(x: nat, m: nat, q: nat, r: nat)
    requires m > 0 && x == m * q + r && r < m
    ensures x % m == r
  {
    MulGap(m, q, x / m);
    MulGap(m, x / m, q);
  }

  lemma MulGap(m: int, a: int, b: int)
    requires m > 0
    ensures a < b ==> m * a + m <= m * b
    ensures a == b ==> m * a == m * b
  {
    if a < b {
      MulNonnegative(m, b - a - 1);
      assert m * b == m * a + m + m * (b - a - 1);
    }
  }

  lemma MulNonnegative(m: int, n: int)
    requires m >= 0 && n >= 0
    ensures m * n >= 0
  {
  }

  /** Masking the hash is taking it modulo the number of shards. */
  lemma ShardIndexIsModulo(hash: nat, request: int)
    ensures ShardIndex(hash, ShardCount(request)) == hash % ShardCount(request)
  {
    var k := ShardCountIsLeast(request);
    MaskKeepsLowBits(hash, k);
  }

  // What each may hold

  /** A total divided over n shards, rounded up; none is none. */
  function DivideBudget(total: int, n: int): nat
    requires n > 0
  {
    if total <= 0 then 0 else (total + n - 1) / n
  }

  /** No budget is none for each shard, and a budget is at least one. */
  lemma NoBudgetIsNone(total: int, n: int)
    requires n > 0
    ensures DivideBudget(total, n) == 0 <==> total <= 0
  {
    if total > 0 {
      DivideBudgetRoundsUp(total, n);
    }
  }

  lemma DivideBudgetRoundsUp(total: int, n: int)
    requires n > 0 && total > 0
    ensures total <= n * DivideBudget(total, n) < total + n && DivideBudget(total, n) > 0
  {
    var x := total + n - 1;
    assert x == n * (x / n) + x % n;
  }

  // What they hold together

  function SumBytes<K, V>(shards: seq<State<K, V>>): nat {
    if shards == [] then 0 else TotalBytes(shards[0]) + SumBytes(shards[1..])
  }

  function SumCount<K, V>(shards: seq<State<K, V>>): nat {
    if shards == [] then 0 else Count(shards[0]) + SumCount(shards[1..])
  }

  /** What the options say: each shard has its own seed for its ghosts' hashes. */
  datatype Options<!K> = Options(maxBytes: int, maxEntries: int, shards: int, policy: Policy,
                                 hash: K -> nat, ghostHash: nat -> K -> nat)

  function ConfigOf<K>(o: Options<K>, i: nat): Config<K> {
    var n := ShardCount(o.shards);
    Config(DivideBudget(o.maxBytes, n), DivideBudget(o.maxEntries, n), o.policy, o.ghostHash(i))
  }

  function IndexFor<K>(o: Options<K>, key: K): (i: nat)
    ensures i < ShardCount(o.shards)
  {
    ShardIndexIsModulo(o.hash(key), o.shards);
    ShardIndex(o.hash(key), ShardCount(o.shards))
  }

  /** The shard an operation goes to: its key's, or for a sweep or clear, which take
      the shards in turn, the one it has got to. */
  function Target<K, V>(o: Options<K>, op: Runs.Op<K, V>, turn: nat): (i: nat)
    ensures i < ShardCount(o.shards)
  {
    match op
    case Read(key, _, _) => IndexFor(o, key)
    case Write(item, _) => IndexFor(o, item.key)
    case Delete(key) => IndexFor(o, key)
    case SweepAt(_) => turn % ShardCount(o.shards)
    case Clear => turn % ShardCount(o.shards)
  }

  /** Whatever is done to a key is done in its own shard, its hash modulo their number. */
  lemma KeysHaveOneShard<K, V>(o: Options<K>, op: Runs.Op<K, V>, turn: nat)
    requires op.Read? || op.Write? || op.Delete?
    ensures Target(o, op, turn) == o.hash(if op.Write? then op.item.key else op.key) % ShardCount(o.shards)
  {
    ShardIndexIsModulo(o.hash(if op.Write? then op.item.key else op.key), o.shards);
  }

  ghost predicate Good<K, V>(o: Options<K>, shards: seq<State<K, V>>) {
    && |shards| == ShardCount(o.shards)
    && forall i :: 0 <= i < |shards| ==> Runs.Good(ConfigOf(o, i), shards[i])
  }

  ghost function Apply<K, V>(o: Options<K>, shards: seq<State<K, V>>, op: Runs.Op<K, V>, turn: nat): seq<State<K, V>>
    requires Good(o, shards)
  {
    var i := Target(o, op, turn);
    shards[i := Runs.Apply(ConfigOf(o, i), shards[i], op)]
  }

  lemma ApplyGood<K, V>(o: Options<K>, shards: seq<State<K, V>>, op: Runs.Op<K, V>, turn: nat)
    requires Good(o, shards)
    ensures Good(o, Apply(o, shards, op, turn))
  {
    var i := Target(o, op, turn);
    Runs.ApplyGood(ConfigOf(o, i), shards[i], op);
  }

  ghost function Run<K, V>(o: Options<K>, shards: seq<State<K, V>>, ops: seq<(Runs.Op<K, V>, nat)>): seq<State<K, V>>
    requires Good(o, shards)
    decreases |ops|
  {
    if ops == [] then shards
    else
      ApplyGood(o, shards, ops[0].0, ops[0].1);
      Run(o, Apply(o, shards, ops[0].0, ops[0].1), ops[1..])
  }

  lemma {:induction false} RunGood<K, V>(o: Options<K>, shards: seq<State<K, V>>, ops: seq<(Runs.Op<K, V>, nat)>)
    requires Good(o, shards)
    ensures Good(o, Run(o, shards, ops))
    decreases |ops|
  {
    if ops == [] {
    } else {
      ApplyGood(o, shards, ops[0].0, ops[0].1);
      RunGood(o, Apply(o, shards, ops[0].0, ops[0].1), ops[1..]);
    }
  }

  /** A new cache. */
  ghost function Start<K, V>(o: Options<K>): (shards: seq<State<K, V>>)
    ensures Good(o, shards)
  {
    seq(ShardCount(o.shards), i => Runs.Start())
  }

  lemma OneMore(n: int, x: int)
    ensures (n + 1) * x == n * x + x
  {
  }

  lemma {:induction false} SumsAtMost<K, V>(shards: seq<State<K, V>>, bytes: nat, entries: nat)
    requires forall i :: 0 <= i < |shards| ==>
                           (bytes > 0 ==> TotalBytes(shards[i]) <= bytes)
                           && (entries > 0 ==> Count(shards[i]) <= entries)
    ensures bytes > 0 ==> SumBytes(shards) <= |shards| * bytes
    ensures entries > 0 ==> SumCount(shards) <= |shards| * entries
  {
    if shards == [] {
    } else {
      SumsAtMost(shards[1..], bytes, entries);
      OneMore(|shards| - 1, bytes);
      OneMore(|shards| - 1, entries);
    }
  }

  lemma ShardsAtMost<K, V>(o: Options<K>, shards: seq<State<K, V>>)
    requires Good(o, shards)
    ensures var n := ShardCount(o.shards);
            && (DivideBudget(o.maxBytes, n) > 0 ==> SumBytes(shards) <= n * DivideBudget(o.maxBytes, n))
            && (DivideBudget(o.maxEntries, n) > 0 ==> SumCount(shards) <= n * DivideBudget(o.maxEntries, n))
  {
    hide ShardCount, DivideBudget, SumBytes, SumCount, TotalBytes, Count;
    var n := ShardCount(o.shards);
    SumsAtMost(shards, DivideBudget(o.maxBytes, n), DivideBudget(o.maxEntries, n));
  }

  /** In every reachable state of the cache the shards together hold less than the
      total asked for and one more byte, or entry, for each shard. */
  lemma TotalsStayBelow<K, V>(o: Options<K>, ops: seq<(Runs.Op<K, V>, nat)>)
    ensures var shards := Run(o, Start(o), ops);
            && (o.maxBytes > 0 ==> SumBytes(shards) < o.maxBytes + ShardCount(o.shards))
            && (o.maxEntries > 0 ==> SumCount(shards) < o.maxEntries + ShardCount(o.shards))
  {
    hide ShardCount, DivideBudget, SumBytes, SumCount, Good, Run;
    var shards, n := Run(o, Start(o), ops), ShardCount(o.shards);
    RunGood(o, Start(o), ops);
    if o.maxBytes > 0 {
      DivideBudgetRoundsUp(o.maxBytes, n);
    }
    if o.maxEntries > 0 {
      DivideBudgetRoundsUp(o.maxEntries, n);
    }
    ShardsAtMost(o, shards);
  }

  // Deadlines, in exact arithmetic

  /** An entry's life: its time to live, off by what chance made of the jitter. */
  function Life(ttl: int, offset: int): int {
    if ttl + offset <= 0 then 1 else ttl + offset
  }

  datatype Deadlines = Deadlines(expiresAt: int, refreshAt: int)

  /** When an entry stored now expires and when it is due a refresh; zero is never. */
  function DeadlinesOf(now: int, ttl: int, refreshAfter: int, offset: int): Deadlines {
    if ttl <= 0 then Deadlines(0, 0)
    else
      var life := Life(ttl, offset);
      Deadlines(now + life,
                if 0 < refreshAfter < ttl then now + Max(refreshAfter * life / ttl, 1) else 0)
  }

  lemma Proportion(part: int, whole: int, life: int)
    requires 0 < part < whole && life > 0
    ensures 0 <= part * life / whole < life
    ensures part * life / whole * whole <= part * life < (part * life / whole + 1) * whole
  {
    var x := part * life;
    var q := x / whole;
    assert x == whole * q + x % whole;
    MulGap(life, part, whole);
    MulNonnegative(part, life);
    MulGap(whole, life, q);
    MulGap(whole, q, 0);
  }

  /** The refresh is due within the life, at the same share of it to one unit. */
  lemma RefreshDue(part: int, whole: int, life: int, due: int)
    requires 0 < part < whole && life > 0 && due == Max(part * life / whole, 1)
    ensures 1 <= due <= life
    ensures (due - 1) * whole <= part * life < (due + 1) * whole
  {
    Proportion(part, whole, life);
    var q := part * life / whole;
    if q < 1 {
      assert q == 0 && due == 1;
      assert (due - 1) * whole == 0 && (q + 1) * whole <= (due + 1) * whole;
    } else {
      assert due == q;
      assert (due - 1) * whole <= q * whole;
    }
  }

  /** An entry never expires at once and never more than the jitter off; the refresh
      is due after the store and not after the expiry, the same share of the way
      through the entry's life that it is of the time to live. */
  lemma RefreshWithinLife(now: int, ttl: int, refreshAfter: int, jitter: nat, offset: int)
    requires now >= 0 && ttl > 0 && jitter <= 100
    requires 0 - ttl * jitter / 100 <= offset <= ttl * jitter / 100
    ensures var d := DeadlinesOf(now, ttl, refreshAfter, offset);
            && now < d.expiresAt
            && now + ttl - ttl * jitter / 100 <= d.expiresAt <= now + ttl + ttl * jitter / 100
            && (d.refreshAt != 0 <==> 0 < refreshAfter < ttl)
            && (d.refreshAt != 0 ==>
                  && now < d.refreshAt <= d.expiresAt
                  && (d.refreshAt - now - 1) * ttl <= refreshAfter * (d.expiresAt - now)
                  && refreshAfter * (d.expiresAt - now) < (d.refreshAt - now + 1) * ttl)
  {
    SpanWithin(ttl, jitter);
    hide Max;
    var d, life := DeadlinesOf(now, ttl, refreshAfter, offset), Life(ttl, offset);
    assert d.expiresAt - now == life;
    if 0 < refreshAfter < ttl {
      var due := d.refreshAt - now;
      RefreshDue(refreshAfter, ttl, life, due);
    }
  }

  /** Without a time to live an entry never expires and is never due a refresh; with
      one it does, whatever the clock says when it is stored. */
  lemma NoLifeNoDeadlines<K, V>(now: int, ttl: int, refreshAfter: int, offset: int, item: Item<K, V>, at: int)
    requires now >= 0
    ensures var d := DeadlinesOf(now, ttl, refreshAfter, offset);
            && (d.expiresAt == 0 <==> ttl <= 0) && (ttl <= 0 ==> d.refreshAt == 0)
            && (item.expiresAt == d.expiresAt ==>
                  (item.Expired(at) <==> ttl > 0 && now + (if ttl + offset < 1 then 1 else ttl + offset) <= at))
  {
  }

  lemma SpanWithin(ttl: int, jitter: nat)
    requires ttl > 0 && jitter <= 100
    ensures ttl * jitter / 100 <= ttl
    ensures ttl * jitter / 100 == ttl ==> jitter == 100
  {
    assert ttl * jitter <= ttl * 100;
  }
}
