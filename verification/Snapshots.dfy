/**
 A flight group, its shard's load registry and the cache's entries at one moment, as
 a value; what one step of loading makes of it; and what stays true of a loop's
 steps, told from the moment the loop began.
 */
module Snapshots {
  import opened TtlAgreement
  import opened BatchLoading
  import opened Loads
  import opened FlightGroups

  datatype Snapshot<K, V> = Snapshot(
    entries: map<K, Written<V>>,
    flights: map<K, nat>,
    calls: seq<Call<K, V>>,
    flags: map<Token, bool>,
    owner: map<Token, K>,
    next: Token)
  {
    predicate Valid(token: Token) {
      token in flags && flags[token]
    }

    /** The key's load, if one is in flight and not invalidated. */
    ghost predicate InFlight(k: K) {
      k in flights && flights[k] < |calls| && Valid(calls[flights[k]].token)
    }

    /** What the heap objects keep. */
    ghost predicate Sane() {
      && (forall k :: k in flights ==>
            flights[k] < |calls| && calls[flights[k]].key == k && calls[flights[k]].waiters > 0)
      && (forall c :: 0 <= c < |calls| ==> calls[c].token in flags)
      && (forall t :: t in owner ==> t in flags && flags[t])
      && (forall t :: t in flags ==> t < next)
    }

    // Steps

    ghost function Joined(c: nat): Snapshot<K, V>
      requires c < |calls|
    {
      this.(calls := calls[c := calls[c].(waiters := calls[c].waiters + 1)])
    }

    /** A token was begun, the second look found an answer, and the token ended. */
    ghost function Served(): Snapshot<K, V> {
      this.(flags := flags[next := true], next := next + 1)
    }

    ghost function Started(k: K, now: int): Snapshot<K, V> {
      Snapshot(Looked(entries, k, now), flights[k := |calls|],
               calls + [Call(k, next, 1, Pending, false, false)],
               flags[next := true], owner[next := k], next + 1)
    }

    ghost function Settled(c: nat, outcome: Outcome<V>): Snapshot<K, V>
      requires c < |calls|
    {
      this.(calls := calls[c := calls[c].(outcome := outcome)])
    }

    ghost function Stored(o: Settings<K, V>, k: K, outcome: Outcome<V>, token: Token): Snapshot<K, V> {
      if Keeps(o, outcome) && Valid(token) then
        this.(entries := entries[k := EntryFor(o, k, outcome)],
              flags := map t | t in flags :: flags[t] && !(t in owner && owner[t] == k),
              owner := map t | t in owner && owner[t] != k :: owner[t])
      else this
    }

    ghost function Finished(c: nat): Snapshot<K, V>
      requires c < |calls|
    {
      var k := calls[c].key;
      this.(calls := calls[c := calls[c].(done := true)],
            flights := if k in flights && flights[k] == c then flights - {k} else flights)
    }

    ghost function Ended(token: Token): Snapshot<K, V> {
      this.(owner := owner - {token})
    }
  }

  ghost function Elems<T>(q: seq<T>): set<T> {
    set x | x in q
  }

  ghost predicate Different<T>(q: seq<T>) {
    forall i, j :: 0 <= i < j < |q| ==> q[i] != q[j]
  }

  lemma DifferentSnoc<T>(q: seq<T>, x: T)
    requires Different(q) && x !in q
    ensures Different(q + [x])
  {
  }

  // Nobody disturbed

  /** From b to s, loads of keys have come and gone: no call, flight or token of
      theirs is left, nothing of others' has changed but that tokens of keys may have
      been invalidated. */
  ghost predicate Quiet<K(!new), V>(b: Snapshot<K, V>, s: Snapshot<K, V>, keys: set<K>) {
    && QuietCalls(b.calls, s.calls) && QuietFlights(b.flights, s.flights, keys)
    && QuietFlags(b.flags, s.flags) && QuietTokens(b.owner, s.owner, keys)
  }

  ghost predicate QuietCalls<K, V>(before: seq<Call<K, V>>, after: seq<Call<K, V>>) {
    |before| <= |after| && forall c :: 0 <= c < |before| ==> after[c] == before[c]
  }

  ghost predicate QuietFlights<K(!new)>(before: map<K, nat>, after: map<K, nat>, keys: set<K>) {
    && (forall k :: k in after ==> k in before && after[k] == before[k])
    && (forall k :: k in before && k !in keys ==> k in after)
  }

  ghost predicate QuietFlags(before: map<Token, bool>, after: map<Token, bool>) {
    forall t :: t in before ==> t in after && (after[t] ==> before[t])
  }

  ghost predicate QuietTokens<K(!new)>(before: map<Token, K>, after: map<Token, K>, keys: set<K>) {
    && (forall t :: t in after ==> t in before && after[t] == before[t])
    && (forall t :: t in before && before[t] !in keys ==> t in after)
  }

  lemma QuietThenQuiet<K(!new), V>(a: Snapshot<K, V>, b: Snapshot<K, V>, c: Snapshot<K, V>, keys: set<K>, more: set<K>)
    requires Quiet(a, b, keys) && Quiet(b, c, more)
    ensures Quiet(a, c, keys + more)
  {
  }

  lemma QuietStaysOut<K(!new), V>(b: Snapshot<K, V>, s: Snapshot<K, V>, keys: set<K>, k: K)
    requires b.Sane() && Quiet(b, s, keys) && !b.InFlight(k)
    ensures !s.InFlight(k)
  {
  }

  // Registering loads

  /** The loads acquire starts: of keys neither in flight nor cached. */
  ghost predicate Starts<K(!new), V>(b: Snapshot<K, V>, k: K, now: int) {
    !b.InFlight(k) && PlainAnswer(b.entries, k, now).Miss?
  }

  ghost function Mine<K(!new), V>(b: Snapshot<K, V>, keys: seq<K>, now: int): (mine: seq<K>) {
    if keys == [] then []
    else
      var rest, k := Mine(b, keys[..|keys| - 1], now), keys[|keys| - 1];
      if Starts(b, k, now) then rest + [k] else rest
  }

  lemma {:induction false} MineAre<K(!new), V>(b: Snapshot<K, V>, keys: seq<K>, now: int)
    ensures forall k :: k in Mine(b, keys, now) <==> k in keys && Starts(b, k, now)
    ensures Different(keys) ==> Different(Mine(b, keys, now))
  {
    if keys == [] {
    } else {
      MineAre(b, keys[..|keys| - 1], now);
      assert keys == keys[..|keys| - 1] + [keys[|keys| - 1]];
    }
  }

  lemma {:induction false} AllMine<K(!new), V>(b: Snapshot<K, V>, keys: seq<K>, now: int)
    requires forall k :: k in keys ==> Starts(b, k, now)
    ensures Mine(b, keys, now) == keys
  {
    if keys == [] {
    } else {
      AllMine(b, keys[..|keys| - 1], now);
    }
  }

  /** The calls: those joined have a waiter more, those started are new. */
  ghost predicate CallsAcquired<K(!new), V>(
      b: Snapshot<K, V>, calls: seq<Call<K, V>>, mine: seq<K>, tokens: seq<Token>, waits: seq<nat>)
  {
    && |calls| == |b.calls| + |mine| && |tokens| == |mine|
    && (forall c :: 0 <= c < |b.calls| ==>
          calls[c] == if c in waits then b.calls[c].(waiters := b.calls[c].waiters + 1) else b.calls[c])
    && (forall c :: |b.calls| <= c < |calls| ==>
          calls[c] == Call(mine[c - |b.calls|], tokens[c - |b.calls|], 1, Pending, false, false))
  }

  ghost predicate FlightsAcquired<K(!new), V>(b: Snapshot<K, V>, flights: map<K, nat>, mine: seq<K>) {
    && (forall k :: k in flights <==> k in b.flights || k in mine)
    && (forall k :: k in flights ==>
          if k in mine
          then |b.calls| <= flights[k] < |b.calls| + |mine| && mine[flights[k] - |b.calls|] == k
          else flights[k] == b.flights[k])
  }

  ghost predicate TokensAcquired<K(!new), V>(
      b: Snapshot<K, V>, flags: map<Token, bool>, owner: map<Token, K>, next: Token, mine: seq<K>, tokens: seq<Token>)
  {
    && |tokens| == |mine| && b.next <= next
    && (forall t :: t in b.flags ==> t in flags && flags[t] == b.flags[t])
    && (forall t :: t in flags ==> t < next)
    && (forall t :: t in b.owner ==> t in owner && owner[t] == b.owner[t])
    && (forall t :: t in owner ==> t in b.owner || t in tokens)
    && (forall j :: 0 <= j < |tokens| ==>
          && b.next <= tokens[j] < next && tokens[j] in owner && owner[tokens[j]] == mine[j]
          && tokens[j] in flags && flags[tokens[j]])
  }

  /** Whom the maker waits for: the running calls of keys, and its own, each once. */
  ghost predicate WaitsFor<K(!new), V>(b: Snapshot<K, V>, keys: seq<K>, waits: seq<nat>, started: seq<nat>) {
    && Different(waits)
    && (forall c :: c in waits && c < |b.calls| ==>
          b.calls[c].key in keys && b.InFlight(b.calls[c].key) && b.flights[b.calls[c].key] == c)
    && (forall k :: k in keys && b.InFlight(k) ==> b.flights[k] in waits)
    && (forall c :: |b.calls| <= c ==> (c in waits <==> c < |b.calls| + |started|))
    && (forall j :: 0 <= j < |started| ==> started[j] == |b.calls| + j)
    && ((forall k :: k in keys ==> !b.InFlight(k)) ==> waits == started)
  }

  ghost function Unmissed<K(!new), V>(b: Snapshot<K, V>, keys: seq<K>, now: int): map<K, Written<V>> {
    map k | k in b.entries && !(k in keys && Starts(b, k, now)) :: b.entries[k]
  }

  /** What the second looks find. */
  ghost function LateHits<K(!new), V>(b: Snapshot<K, V>, keys: seq<K>, now: int): map<K, V> {
    map k | k in keys && !b.InFlight(k) && PlainAnswer(b.entries, k, now).Hit? :: PlainAnswer(b.entries, k, now).value
  }

  ghost predicate Acquired<K(!new), V>(
      b: Snapshot<K, V>, s: Snapshot<K, V>, keys: seq<K>, now: int,
      waits: seq<nat>, started: seq<nat>, tokens: seq<Token>)
  {
    var mine := Mine(b, keys, now);
    && CallsAcquired(b, s.calls, mine, tokens, waits) && FlightsAcquired(b, s.flights, mine)
    && TokensAcquired(b, s.flags, s.owner, s.next, mine, tokens)
    && WaitsFor(b, keys, waits, started) && |started| == |mine|
    && s.entries == Unmissed(b, keys, now)
  }

  lemma NothingAcquired<K(!new), V>(b: Snapshot<K, V>, now: int)
    requires b.Sane()
    ensures Acquired(b, b, [], now, [], [], []) && LateHits(b, [], now) == map[]
  {
  }

  /** A key that comes next stands as it did at the start. */
  lemma NextAsAtStart<K(!new), V>(
      b: Snapshot<K, V>, s: Snapshot<K, V>, keys: seq<K>, k: K, now: int,
      waits: seq<nat>, started: seq<nat>, tokens: seq<Token>)
    requires b.Sane() && Acquired(b, s, keys, now, waits, started, tokens) && k !in keys
    ensures s.InFlight(k) <==> b.InFlight(k)
    ensures b.InFlight(k) ==> s.flights[k] == b.flights[k] && b.flights[k] !in waits
    ensures PlainAnswer(s.entries, k, now) == PlainAnswer(b.entries, k, now)
    ensures k in b.entries <==> k in s.entries
    ensures k in b.entries ==> s.entries[k] == b.entries[k]
  {
    MineAre(b, keys, now);
  }

  lemma OneMoreMine<K(!new), V>(b: Snapshot<K, V>, keys: seq<K>, k: K, now: int)
    ensures Mine(b, keys + [k], now) == if Starts(b, k, now) then Mine(b, keys, now) + [k] else Mine(b, keys, now)
    ensures !Starts(b, k, now) ==> Unmissed(b, keys + [k], now) == Unmissed(b, keys, now)
  {
    assert (keys + [k])[..|keys|] == keys;
  }

  lemma OneMoreLateHit<K(!new), V>(b: Snapshot<K, V>, keys: seq<K>, k: K, now: int)
    ensures var answer := PlainAnswer(b.entries, k, now);
            LateHits(b, keys + [k], now) == if !b.InFlight(k) && answer.Hit?
                                            then LateHits(b, keys, now)[k := answer.value]
                                            else LateHits(b, keys, now)
  {
  }

  lemma JoinKeepsCalls<K(!new), V>(
      b: Snapshot<K, V>, calls: seq<Call<K, V>>, mine: seq<K>, tokens: seq<Token>, waits: seq<nat>, c: nat)
    requires CallsAcquired(b, calls, mine, tokens, waits) && c < |b.calls| && c !in waits
    ensures CallsAcquired(b, calls[c := calls[c].(waiters := calls[c].waiters + 1)], mine, tokens, waits + [c])
  {
  }

  lemma JoinKeepsWaits<K(!new), V>(b: Snapshot<K, V>, keys: seq<K>, k: K, waits: seq<nat>, started: seq<nat>)
    requires b.Sane() && WaitsFor(b, keys, waits, started) && b.InFlight(k) && b.flights[k] !in waits
    ensures WaitsFor(b, keys + [k], waits + [b.flights[k]], started)
  {
    DifferentSnoc(waits, b.flights[k]);
  }

  /** One more key, joined. */
  lemma JoinKeeps<K(!new), V>(
      b: Snapshot<K, V>, s: Snapshot<K, V>, keys: seq<K>, k: K, now: int,
      waits: seq<nat>, started: seq<nat>, tokens: seq<Token>)
    requires b.Sane() && Acquired(b, s, keys, now, waits, started, tokens) && k !in keys && b.InFlight(k)
    requires b.flights[k] < |s.calls|
    ensures Acquired(b, s.Joined(b.flights[k]), keys + [k], now, waits + [b.flights[k]], started, tokens)
  {
    hide CallsAcquired, FlightsAcquired, TokensAcquired, WaitsFor, Mine, Unmissed;
    NextAsAtStart(b, s, keys, k, now, waits, started, tokens);
    OneMoreMine(b, keys, k, now);
    JoinKeepsCalls(b, s.calls, Mine(b, keys, now), tokens, waits, b.flights[k]);
    JoinKeepsWaits(b, keys, k, waits, started);
  }

  lemma ServeKeepsTokens<K(!new), V>(b: Snapshot<K, V>, s: Snapshot<K, V>, mine: seq<K>, tokens: seq<Token>)
    requires b.Sane() && TokensAcquired(b, s.flags, s.owner, s.next, mine, tokens)
    ensures TokensAcquired(b, s.Served().flags, s.owner, s.next + 1, mine, tokens)
  {
  }

  lemma ServeKeepsWaits<K(!new), V>(b: Snapshot<K, V>, keys: seq<K>, k: K, waits: seq<nat>, started: seq<nat>)
    requires WaitsFor(b, keys, waits, started) && !b.InFlight(k)
    ensures WaitsFor(b, keys + [k], waits, started)
  {
    assert (forall x :: x in keys + [k] ==> !b.InFlight(x)) ==> forall x :: x in keys ==> x in keys + [k];
  }

  /** One more key, answered by the second look. */
  lemma ServeKeeps<K(!new), V>(
      b: Snapshot<K, V>, s: Snapshot<K, V>, keys: seq<K>, k: K, now: int,
      waits: seq<nat>, started: seq<nat>, tokens: seq<Token>)
    requires b.Sane() && Acquired(b, s, keys, now, waits, started, tokens) && k !in keys
    requires !b.InFlight(k) && !PlainAnswer(b.entries, k, now).Miss?
    ensures Acquired(b, s.Served(), keys + [k], now, waits, started, tokens)
  {
    hide CallsAcquired, FlightsAcquired, TokensAcquired, WaitsFor, Mine, Unmissed;
    OneMoreMine(b, keys, k, now);
    ServeKeepsTokens(b, s, Mine(b, keys, now), tokens);
    ServeKeepsWaits(b, keys, k, waits, started);
  }

  lemma StartKeepsCalls<K(!new), V>(
      b: Snapshot<K, V>, calls: seq<Call<K, V>>, mine: seq<K>, tokens: seq<Token>, waits: seq<nat>, k: K, t: Token)
    requires CallsAcquired(b, calls, mine, tokens, waits)
    ensures CallsAcquired(b, calls + [Call(k, t, 1, Pending, false, false)], mine + [k], tokens + [t],
                          waits + [|calls|])
  {
  }

  lemma StartKeepsFlights<K(!new), V>(b: Snapshot<K, V>, flights: map<K, nat>, mine: seq<K>, k: K)
    requires FlightsAcquired(b, flights, mine) && k !in mine
    ensures FlightsAcquired(b, flights[k := |b.calls| + |mine|], mine + [k])
  {
  }

  lemma StartKeepsTokens<K(!new), V>(
      b: Snapshot<K, V>, s: Snapshot<K, V>, mine: seq<K>, tokens: seq<Token>, k: K)
    requires b.Sane() && TokensAcquired(b, s.flags, s.owner, s.next, mine, tokens)
    ensures TokensAcquired(b, s.flags[s.next := true], s.owner[s.next := k], s.next + 1, mine + [k], tokens + [s.next])
  {
  }

  lemma StartKeepsWaits<K(!new), V>(
      b: Snapshot<K, V>, keys: seq<K>, k: K, waits: seq<nat>, started: seq<nat>)
    requires WaitsFor(b, keys, waits, started) && !b.InFlight(k)
    ensures var c := |b.calls| + |started|; WaitsFor(b, keys + [k], waits + [c], started + [c])
  {
    var c := |b.calls| + |started|;
    DifferentSnoc(waits, c);
    assert (forall x :: x in keys + [k] ==> !b.InFlight(x)) ==> forall x :: x in keys ==> x in keys + [k];
  }

  lemma StartKeepsEntries<K(!new), V>(b: Snapshot<K, V>, keys: seq<K>, k: K, now: int)
    requires Starts(b, k, now) && k !in keys
    ensures Looked(Unmissed(b, keys, now), k, now) == Unmissed(b, keys + [k], now)
  {
  }

  lemma MineLength<K(!new), V>(
      b: Snapshot<K, V>, s: Snapshot<K, V>, mine: seq<K>, tokens: seq<Token>, waits: seq<nat>)
    requires CallsAcquired(b, s.calls, mine, tokens, waits)
    ensures |s.calls| == |b.calls| + |mine|
  {
  }

  /** One more key, of which a load is started. */
  lemma StartKeeps<K(!new), V>(
      b: Snapshot<K, V>, s: Snapshot<K, V>, keys: seq<K>, k: K, now: int,
      waits: seq<nat>, started: seq<nat>, tokens: seq<Token>)
    requires b.Sane() && Acquired(b, s, keys, now, waits, started, tokens) && k !in keys && Starts(b, k, now)
    ensures var c := |s.calls|;
            Acquired(b, s.Started(k, now), keys + [k], now, waits + [c], started + [c], tokens + [s.next])
  {
    hide CallsAcquired, FlightsAcquired, TokensAcquired, WaitsFor, Mine, Unmissed, Looked;
    var mine := Mine(b, keys, now);
    MineAre(b, keys, now);
    OneMoreMine(b, keys, k, now);
    MineLength(b, s, mine, tokens, waits);
    StartKeepsCalls(b, s.calls, mine, tokens, waits, k, s.next);
    StartKeepsFlights(b, s.flights, mine, k);
    StartKeepsTokens(b, s, mine, tokens, k);
    StartKeepsWaits(b, keys, k, waits, started);
    StartKeepsEntries(b, keys, k, now);
  }

  // Running a batch

  ghost function KeysOf<K(!new), V>(s: Snapshot<K, V>, started: seq<nat>): (keys: seq<K>)
    requires InRange(s.calls, started)
    ensures |keys| == |started| && forall j :: 0 <= j < |keys| ==> keys[j] == s.calls[started[j]].key
  {
    seq(|started|, j requires 0 <= j < |started| => s.calls[started[j]].key)
  }

  /** The maker of a batch has started these calls, of different keys, and nobody has
      invalidated their tokens. */
  ghost predicate Owns<K(!new), V>(b: Snapshot<K, V>, started: seq<nat>) {
    && Different(started) && InRange(b.calls, started) && Different(KeysOf(b, started))
    && (forall j :: 0 <= j < |started| ==>
          var call := b.calls[started[j]];
          call.token in b.owner && b.owner[call.token] == call.key && b.Valid(call.token))
  }

  // One change to each of some calls

  ghost predicate Changed<K(!new), V(!new)>(
      before: seq<Call<K, V>>, after: seq<Call<K, V>>, done: seq<nat>, f: Call<K, V> -> Call<K, V>)
  {
    && |after| == |before|
    && (forall c :: 0 <= c < |before| ==> after[c] == if c in done then f(before[c]) else before[c])
  }

  lemma OneMoreChanged<K(!new), V(!new)>(
      before: seq<Call<K, V>>, after: seq<Call<K, V>>, done: seq<nat>, c: nat, f: Call<K, V> -> Call<K, V>)
    requires Changed(before, after, done, f) && c < |before| && c !in done
    ensures after[c] == before[c] && Changed(before, after[c := f(before[c])], done + [c], f)
  {
  }

  function Sharer<K, V>(answer: BatchAnswer<K, V>): Call<K, V> -> Call<K, V> {
    (call: Call<K, V>) => call.(outcome := Share(answer, call.key))
  }

  function Finisher<K, V>(): Call<K, V> -> Call<K, V> {
    (call: Call<K, V>) => call.(done := true)
  }

  /** A panic on the way overrides the shares given out before it. */
  lemma PanicOverrides<K(!new), V(!new)>(
      before: seq<Call<K, V>>, mid: seq<Call<K, V>>, after: seq<Call<K, V>>, started: seq<nat>, i: nat,
      answer: BatchAnswer<K, V>)
    requires i <= |started| && Changed(before, mid, started[..i], Sharer(answer))
    requires Changed(mid, after, started, Sharer(Panic))
    ensures Changed(before, after, started, Sharer(Panic))
  {
  }

  /** No tokens but keys' have been invalidated. */
  ghost predicate InvalidatedOnly<K(!new), V>(
      b: Snapshot<K, V>, flags: map<Token, bool>, owner: map<Token, K>, keys: seq<K>)
  {
    && (forall t :: t in flags <==> t in b.flags)
    && (forall t :: t in flags && flags[t] ==> b.flags[t])
    && (forall t :: t in owner ==> t in b.owner && owner[t] == b.owner[t])
    && (forall t :: t in b.owner && b.owner[t] !in keys ==>
          t in owner && (t in b.flags && b.flags[t] ==> flags[t]))
  }

  lemma StoreInvalidates<K(!new), V>(
      o: Settings<K, V>, b: Snapshot<K, V>, s: Snapshot<K, V>, keys: seq<K>, k: K, outcome: Outcome<V>, token: Token)
    requires InvalidatedOnly(b, s.flags, s.owner, keys)
    ensures var s' := s.Stored(o, k, outcome, token); InvalidatedOnly(b, s'.flags, s'.owner, keys + [k])
  {
  }

  /** From b, the first i of the calls have got their shares and stored them. */
  ghost predicate Settling<K(!new), V(!new)>(
      o: Settings<K, V>, b: Snapshot<K, V>, s: Snapshot<K, V>, started: seq<nat>, i: nat, answer: BatchAnswer<K, V>)
    requires i <= |started| && InRange(b.calls, started)
  {
    && s.flights == b.flights && s.next == b.next
    && Changed(b.calls, s.calls, started[..i], Sharer(answer))
    && s.entries == b.entries + Kept(o, KeysOf(b, started)[..i], Sharing(answer))
    && InvalidatedOnly(b, s.flags, s.owner, KeysOf(b, started)[..i])
  }

  /** So the next one's token still stands. */
  lemma TokenStillValid<K(!new), V(!new)>(
      o: Settings<K, V>, b: Snapshot<K, V>, s: Snapshot<K, V>, started: seq<nat>, i: nat, answer: BatchAnswer<K, V>)
    requires Owns(b, started) && i < |started| && Settling(o, b, s, started, i, answer)
    ensures started[i] < |b.calls| == |s.calls| && s.calls[started[i]] == b.calls[started[i]]
    ensures s.Valid(b.calls[started[i]].token)
  {
    var keys := KeysOf(b, started);
    assert forall j :: 0 <= j < i ==> keys[..i][j] == keys[j] && keys[j] != keys[i];
    assert started[i] !in started[..i];
  }

  lemma TakeOneMore<T>(q: seq<T>, i: nat)
    requires i < |q|
    ensures q[..i + 1] == q[..i] + [q[i]]
  {
  }

  lemma SettleKeeps<K(!new), V(!new)>(
      o: Settings<K, V>, b: Snapshot<K, V>, s: Snapshot<K, V>, started: seq<nat>, i: nat, answer: BatchAnswer<K, V>)
    requires InRange(b.calls, started) && Owns(b, started) && i < |started| && Settling(o, b, s, started, i, answer)
    requires started[i] < |s.calls|
    ensures var c, call := started[i], b.calls[started[i]];
            var outcome := Share(answer, call.key);
            Settling(o, b, s.Settled(c, outcome).Stored(o, call.key, outcome, call.token), started, i + 1, answer)
  {
    hide Changed, InvalidatedOnly, Owns, Kept, EntryFor, Keeps, Share, Sharing, InRange;
    var c, keys := started[i], KeysOf(b, started);
    TokenStillValid(o, b, s, started, i, answer);
    TakeOneMore(keys, i);
    OneMoreSettled(b, s, started, i, answer);
    KeptOneMore(o, b.entries, keys[..i], Sharing(answer), keys[i]);
    var outcome := Sharing(answer)(keys[i]);
    SharingShares(answer, keys[i]);
    StoreInvalidates(o, b, s.Settled(c, outcome), keys[..i], keys[i], outcome, b.calls[c].token);
  }

  lemma SharingShares<K, V>(answer: BatchAnswer<K, V>, k: K)
    ensures Sharing(answer)(k) == Share(answer, k)
  {
  }

  lemma OneMoreSettled<K(!new), V(!new)>(
      b: Snapshot<K, V>, s: Snapshot<K, V>, started: seq<nat>, i: nat, answer: BatchAnswer<K, V>)
    requires Owns(b, started) && i < |started| && Changed(b.calls, s.calls, started[..i], Sharer(answer))
    ensures var c := started[i];
            && c < |s.calls| && s.calls[c] == b.calls[c]
            && Changed(b.calls, s.Settled(c, Share(answer, b.calls[c].key)).calls, started[..i + 1], Sharer(answer))
  {
    assert started[i] !in started[..i] && started[..i + 1] == started[..i] + [started[i]];
    OneMoreChanged(b.calls, s.calls, started[..i], started[i], Sharer(answer));
  }

  /** The calls that are done are out of the map; the others are as they were. */
  ghost predicate Dropped<K(!new)>(before: map<K, nat>, after: map<K, nat>, done: seq<nat>) {
    && (forall k :: k in after <==> k in before && before[k] !in done)
    && (forall k :: k in after ==> after[k] == before[k])
  }

  /** From b, where the calls have their results, the first i are finished. */
  ghost predicate Finishing<K(!new), V(!new)>(b: Snapshot<K, V>, s: Snapshot<K, V>, started: seq<nat>, i: nat)
    requires i <= |started|
  {
    && s == b.(calls := s.calls, flights := s.flights)
    && Changed(b.calls, s.calls, started[..i], Finisher()) && Dropped(b.flights, s.flights, started[..i])
  }

  lemma FinishKeeps<K(!new), V(!new)>(b: Snapshot<K, V>, s: Snapshot<K, V>, started: seq<nat>, i: nat)
    requires (forall k :: k in b.flights ==> b.flights[k] < |b.calls| && b.calls[b.flights[k]].key == k)
    requires Different(started) && InRange(b.calls, started) && i < |started| && Finishing(b, s, started, i)
    ensures started[i] < |s.calls| && Finishing(b, s.Finished(started[i]), started, i + 1)
  {
    var c := started[i];
    assert c !in started[..i];
    TakeOneMore(started, i);
    OneMoreChanged(b.calls, s.calls, started[..i], c, Finisher());
  }

  /** A call has its share and is finished. */
  function Ender<K, V>(answer: BatchAnswer<K, V>): Call<K, V> -> Call<K, V> {
    (call: Call<K, V>) => call.(outcome := Share(answer, call.key), done := true)
  }

  lemma SharedThenFinished<K(!new), V(!new)>(
      before: seq<Call<K, V>>, mid: seq<Call<K, V>>, after: seq<Call<K, V>>, started: seq<nat>,
      answer: BatchAnswer<K, V>)
    requires Changed(before, mid, started, Sharer(answer)) && Changed(mid, after, started, Finisher())
    ensures Changed(before, after, started, Ender(answer))
  {
  }

  // Where a whole load leaves a group

  /** From b, the calls are over and out of the map and their tokens ended, and of
      others' tokens only ones of the same keys are invalidated. */
  ghost predicate RanBatch<K(!new), V(!new)>(
      b: Snapshot<K, V>, s: Snapshot<K, V>, started: seq<nat>, answer: BatchAnswer<K, V>)
    requires InRange(b.calls, started)
  {
    && Changed(b.calls, s.calls, started, Ender(answer)) && Dropped(b.flights, s.flights, started)
    && TokensEnded(b, s.flags, s.owner, KeysOf(b, started), started, |started|)
  }

  ghost predicate TokensEnded<K(!new), V>(
      b: Snapshot<K, V>, flags: map<Token, bool>, owner: map<Token, K>, keys: seq<K>, started: seq<nat>, i: nat)
    requires i <= |started| && InRange(b.calls, started)
  {
    && InvalidatedFlags(b, flags)
    && (forall t :: t in owner ==> t in b.owner && owner[t] == b.owner[t])
    && (forall t :: t in b.owner && b.owner[t] !in keys ==> t in owner)
    && (forall j :: 0 <= j < i ==> b.calls[started[j]].token !in owner)
  }

  ghost predicate InvalidatedFlags<K(!new), V>(b: Snapshot<K, V>, flags: map<Token, bool>) {
    && (forall t :: t in flags <==> t in b.flags)
    && (forall t :: t in flags && flags[t] ==> b.flags[t])
  }

  lemma EndKeeps<K(!new), V>(
      b: Snapshot<K, V>, flags: map<Token, bool>, owner: map<Token, K>, keys: seq<K>, started: seq<nat>, i: nat)
    requires InRange(b.calls, started) && i < |started| && keys == KeysOf(b, started)
    requires b.calls[started[i]].token in b.owner ==> b.owner[b.calls[started[i]].token] == keys[i]
    requires TokensEnded(b, flags, owner, keys, started, i)
    ensures TokensEnded(b, flags, owner - {b.calls[started[i]].token}, keys, started, i + 1)
  {
  }

  lemma AcquiredKeys<K(!new), V>(
      b: Snapshot<K, V>, s: Snapshot<K, V>, keys: seq<K>, now: int,
      waits: seq<nat>, started: seq<nat>, tokens: seq<Token>)
    requires Acquired(b, s, keys, now, waits, started, tokens)
    ensures InRange(s.calls, started) && KeysOf(s, started) == Mine(b, keys, now) && |tokens| == |started|
    ensures forall j :: 0 <= j < |started| ==> s.calls[started[j]].token == tokens[j]
  {
    hide FlightsAcquired, TokensAcquired, Unmissed, Mine;
  }

  /** The calls started from b, run to their end, leave b's group quiet. */
  lemma AcquiredThenRan<K(!new), V(!new)>(
      b: Snapshot<K, V>, s: Snapshot<K, V>, s': Snapshot<K, V>, keys: seq<K>, now: int,
      waits: seq<nat>, started: seq<nat>, tokens: seq<Token>, answer: BatchAnswer<K, V>)
    requires b.Sane() && Acquired(b, s, keys, now, waits, started, tokens)
    requires (forall k :: k in keys ==> !b.InFlight(k)) && InRange(s.calls, started) && RanBatch(s, s', started, answer)
    ensures Quiet(b, s', Elems(keys))
  {
    var mine := Mine(b, keys, now);
    MineAre(b, keys, now);
    assert waits == started;
    FlightsThenDropped(b, s.flights, s'.flights, mine, started, keys);
    AcquiredKeys(b, s, keys, now, waits, started, tokens);
    TokensThenEnded(b, s, s', mine, started, tokens, keys);
  }

  lemma FlightsThenDropped<K(!new), V(!new)>(
      b: Snapshot<K, V>, flights: map<K, nat>, flights': map<K, nat>, mine: seq<K>, started: seq<nat>, keys: seq<K>)
    requires b.Sane() && FlightsAcquired(b, flights, mine) && Dropped(flights, flights', started)
    requires |started| == |mine| && forall j :: 0 <= j < |started| ==> started[j] == |b.calls| + j
    requires forall k :: k in mine ==> k in keys
    ensures QuietFlights(b.flights, flights', Elems(keys))
  {
    forall k | k in flights && k in mine ensures flights[k] in started {
      assert started[flights[k] - |b.calls|] == flights[k];
    }
  }

  lemma TokensThenEnded<K(!new), V(!new)>(
      b: Snapshot<K, V>, s: Snapshot<K, V>, s': Snapshot<K, V>, mine: seq<K>,
      started: seq<nat>, tokens: seq<Token>, keys: seq<K>)
    requires TokensAcquired(b, s.flags, s.owner, s.next, mine, tokens) && InRange(s.calls, started)
    requires TokensEnded(s, s'.flags, s'.owner, mine, started, |started|) && |started| == |mine|
    requires forall j :: 0 <= j < |tokens| ==> s.calls[started[j]].token == tokens[j]
    requires forall k :: k in mine ==> k in keys
    ensures QuietTokens(b.owner, s'.owner, Elems(keys)) && QuietFlags(b.flags, s'.flags)
  {
    forall t | t in tokens ensures t !in s'.owner {
      var j :| 0 <= j < |tokens| && tokens[j] == t;
      assert s.calls[started[j]].token == t;
    }
  }

  lemma AcquiredOwns<K(!new), V(!new)>(
      b: Snapshot<K, V>, s: Snapshot<K, V>, keys: seq<K>, now: int,
      waits: seq<nat>, started: seq<nat>, tokens: seq<Token>)
    requires Different(keys) && Acquired(b, s, keys, now, waits, started, tokens)
    ensures InRange(s.calls, started) && KeysOf(s, started) == Mine(b, keys, now) && Owns(s, started)
  {
    MineAre(b, keys, now);
    AcquiredKeys(b, s, keys, now, waits, started, tokens);
  }

  /** The slots acquire leaves are of different calls, all waited for. */
  lemma AcquiredSlots<K(!new), V(!new)>(
      b: Snapshot<K, V>, s: Snapshot<K, V>, keys: seq<K>, now: int,
      waits: seq<nat>, started: seq<nat>, tokens: seq<Token>)
    requires b.Sane() && Acquired(b, s, keys, now, waits, started, tokens)
    ensures Different(waits) && forall j :: 0 <= j < |waits| ==> waits[j] < |s.calls| && s.calls[waits[j]].waiters > 0
  {
    forall j | 0 <= j < |waits| ensures waits[j] < |s.calls| && s.calls[waits[j]].waiters > 0 {
      assert waits[j] in waits;
    }
  }
}
