/**
 The cache as a host of loads, with one flight group: loading one key, and loading
 many at once, as the loops over keys, calls and tokens that do it. Others may have
 loads in flight, though not of the keys being loaded, except where a method says so.
 */
module LoadHost {
  import opened ShardModel
  import opened TtlAgreement
  import opened Loads
  import opened Maybe
  import opened FlightGroups
  import opened BatchLoading
  import opened Snapshots

  // Waiting for a batch that is over

  ghost predicate HaveShares<K, V>(calls: seq<Call<K, V>>, waits: seq<nat>, keys: seq<K>, answer: BatchAnswer<K, V>) {
    && |waits| == |keys| && InRange(calls, waits)
    && forall j :: 0 <= j < |waits| ==>
         calls[waits[j]].key == keys[j] && calls[waits[j]].outcome == Share(answer, keys[j]) && calls[waits[j]].done
  }

  lemma LastResult<K, V>(calls: seq<Call<K, V>>, waits: seq<nat>, n: nat)
    requires InRange(calls, waits) && 0 < n <= |waits|
    ensures var all, call := Results(calls, waits[..n - 1]), calls[waits[n - 1]];
            Results(calls, waits[..n]) == if call.outcome.Found? then all[call.key := call.outcome.value] else all
    ensures var result, call := FirstFailure(calls, waits[..n - 1]), calls[waits[n - 1]];
            FirstFailure(calls, waits[..n]) ==
            if result.Ok? && call.outcome.Failed? then FirstError(call.outcome.error) else result
  {
    assert waits[..n][..n - 1] == waits[..n - 1];
  }

  lemma LastGained<K, V>(keys: seq<K>, n: nat, share: K -> Outcome<V>)
    requires 0 < n <= |keys|
    ensures var all, k := Gained(keys[..n - 1], share), keys[n - 1];
            Gained(keys[..n], share) == if share(k).Found? then all[k := share(k).value] else all
  {
    assert keys[..n] == keys[..n - 1] + [keys[n - 1]];
  }

  lemma NoneGained<K, V>(keys: seq<K>, share: K -> Outcome<V>)
    requires keys == []
    ensures Gained(keys, share) == map[]
  {
  }

  lemma {:induction false} ResultsAreShares<K, V>(
      calls: seq<Call<K, V>>, waits: seq<nat>, keys: seq<K>, answer: BatchAnswer<K, V>, n: nat)
    requires HaveShares(calls, waits, keys, answer) && n <= |keys|
    ensures Results(calls, waits[..n]) == Gained(keys[..n], Sharing(answer))
    ensures FirstFailure(calls, waits[..n]) == if answer.Error? && n > 0 then FirstError(answer.error) else Ok
  {
    hide Results, FirstFailure, Gained;
    if n > 0 {
      ResultsAreShares(calls, waits, keys, answer, n - 1);
      LastResult(calls, waits, n);
      LastGained(keys, n, Sharing(answer));
    } else {
      NoResults(calls, waits[..0]);
      NoneGained(keys[..0], Sharing(answer));
    }
  }

  lemma {:induction false} StopsAtPanic<K, V>(
      calls: seq<Call<K, V>>, waits: seq<nat>, keys: seq<K>, answer: BatchAnswer<K, V>, i: nat)
    requires HaveShares(calls, waits, keys, answer) && i <= |keys|
    ensures StopsAt(calls, waits, |waits|, i) == if answer.Panic? then i else |keys|
    decreases |keys| - i
  {
    if i < |keys| {
      StopsAtPanic(calls, waits, keys, answer, i + 1);
    }
  }

  /** One slot of each of the calls is given back, and nothing else changed. */
  ghost predicate GivenBack<K(!new), V>(
      before: seq<Call<K, V>>, after: seq<Call<K, V>>, flights: map<K, nat>, flights': map<K, nat>, rest: seq<nat>)
  {
    && |after| == |before|
    && (forall c :: 0 <= c < |before| ==> after[c] == if c in rest then LeftBy(before[c]) else before[c])
    && (forall k :: k in flights' <==> k in flights && !Deserted(before, flights[k], rest))
    && (forall k :: k in flights' ==> flights'[k] == flights[k])
  }

  function LeftBy<K, V>(call: Call<K, V>): Call<K, V> {
    call.(waiters := if call.waiters > 0 then call.waiters - 1 else 0,
          cancelled := call.cancelled || call.waiters == 1)
  }

  ghost predicate Deserted<K, V>(calls: seq<Call<K, V>>, c: nat, rest: seq<nat>) {
    c in rest && c < |calls| && calls[c].waiters == 1
  }

  /** Different calls, each of them waited for. */
  ghost predicate Slots<K, V>(calls: seq<Call<K, V>>, waits: seq<nat>) {
    Different(waits) && forall j :: 0 <= j < |waits| ==> waits[j] < |calls| && calls[waits[j]].waiters > 0
  }

  lemma NothingGivenBack<K(!new), V>(calls: seq<Call<K, V>>, flights: map<K, nat>)
    ensures GivenBack(calls, calls, flights, flights, [])
  {
  }

  lemma SlotsAfter<K, V>(calls: seq<Call<K, V>>, waits: seq<nat>, i: nat)
    requires Slots(calls, waits) && i <= |waits|
    ensures Slots(calls, waits[i..])
  {
  }

  lemma JoinedCallsLeft<K(!new), V>(
      b: Snapshot<K, V>, calls: seq<Call<K, V>>, after: seq<Call<K, V>>, mine: seq<K>, tokens: seq<Token>,
      waits: seq<nat>, keys: seq<K>, started: seq<nat>)
    requires b.Sane() && CallsAcquired(b, calls, mine, tokens, waits) && WaitsFor(b, keys, waits, started)
    requires |after| == |calls|
    requires forall c :: 0 <= c < |calls| ==> after[c] == if c in waits then LeftBy(calls[c]) else calls[c]
    ensures QuietCalls(b.calls, after)
    ensures forall c :: 0 <= c < |b.calls| && c in waits ==> calls[c].waiters > 1
  {
    forall c | 0 <= c < |b.calls| && c in waits ensures b.calls[c].waiters > 0 {
      assert b.flights[b.calls[c].key] == c;
    }
  }

  /** A caller that joins calls and gives up leaves those that were there as they were. */
  lemma JoinedThenLeft<K(!new), V>(
      b: Snapshot<K, V>, s: Snapshot<K, V>, after: seq<Call<K, V>>, flights': map<K, nat>, keys: seq<K>, now: int,
      waits: seq<nat>, started: seq<nat>, tokens: seq<Token>)
    requires b.Sane() && Acquired(b, s, keys, now, waits, started, tokens)
    requires GivenBack(s.calls, after, s.flights, flights', waits)
    ensures QuietCalls(b.calls, after)
    ensures forall k :: k in b.flights && b.InFlight(k) ==> k in flights' && flights'[k] == b.flights[k]
  {
    hide TokensAcquired, Unmissed;
    MineAre(b, keys, now);
    JoinedCallsLeft(b, s.calls, after, Mine(b, keys, now), tokens, waits, keys, started);
  }

  /** Each key's load on its own is answered after those before it. */
  ghost predicate EachAnswered<K, V>(o: Settings<K, V>, m: map<K, Written<V>>, keys: seq<K>, one: K -> Outcome<V>,
                                     outcomes: seq<Outcome<V>>)
  {
    && |outcomes| <= |keys|
    && forall i :: 0 <= i < |outcomes| ==>
         outcomes[i] == LoadOne(o, LoadEach(o, m, keys[..i], one), keys[i], one(keys[i])).outcome
  }

  lemma OneMoreAnswered<K, V>(o: Settings<K, V>, m: map<K, Written<V>>, keys: seq<K>, one: K -> Outcome<V>,
                              outcomes: seq<Outcome<V>>, outcome: Outcome<V>)
    requires EachAnswered(o, m, keys, one, outcomes) && |outcomes| < |keys|
    requires var i := |outcomes|;
             outcome == LoadOne(o, LoadEach(o, m, keys[..i], one), keys[i], one(keys[i])).outcome
    ensures EachAnswered(o, m, keys, one, outcomes + [outcome])
  {
    hide LoadOne, LoadEach;
  }

  lemma LastLoad<K, V>(o: Settings<K, V>, m: map<K, Written<V>>, keys: seq<K>, one: K -> Outcome<V>, i: nat)
    requires i < |keys|
    ensures LoadEach(o, m, keys[..i + 1], one)
            == LoadOne(o, LoadEach(o, m, keys[..i], one), keys[i], one(keys[i])).entries
  {
    assert keys[..i + 1][..i] == keys[..i];
  }

  lemma NoLoads<K, V>(o: Settings<K, V>, m: map<K, Written<V>>, keys: seq<K>, one: K -> Outcome<V>)
    ensures LoadEach(o, m, keys[..0], one) == m && EachAnswered(o, m, keys, one, [])
  {
  }

  class Host<K(!new, ==), V(!new, ==)> {
    const o: Settings<K, V>
    const loads: LoadRegistry<K>
    const group: FlightGroup<K, V>
    var entries: map<K, Written<V>>

    ghost function Now(): Snapshot<K, V>
      reads this, loads, group
    {
      Snapshot(entries, group.flights, group.calls, loads.flags, loads.owner, loads.next)
    }

    ghost predicate Valid()
      reads this, loads, group
    {
      && group.loads == loads && loads.Valid() && group.Valid()
      && forall c :: 0 <= c < |group.calls| ==> group.calls[c].token in loads.flags
    }

    /** No load is in flight or begun. */
    ghost predicate Idle()
      reads this, loads, group
    {
      Valid() && group.flights == map[] && loads.owner == map[]
    }

    lemma ValidIsSane()
      requires Valid()
      ensures Now().Sane()
      ensures forall k :: Now().InFlight(k) <==> group.Running(k).Some?
    {
    }

    constructor (settings: Settings<K, V>, stored: map<K, Written<V>>)
      ensures Idle() && o == settings && entries == stored && fresh(loads) && fresh(group)
    {
      var registry := new LoadRegistry<K>();
      var flights := new FlightGroup<K, V>(registry);
      o, loads, group, entries := settings, registry, flights, stored;
    }

    // Steps

    /** A lookup, which drops an expired entry. */
    method Lookup(key: K) returns (answer: Answer<V>)
      modifies this`entries
      ensures answer == PlainAnswer(old(entries), key, o.now) && entries == Looked(old(entries), key, o.now)
    {
      answer := PlainAnswer(entries, key, o.now);
      if key in entries && answer.Miss? {
        entries := entries - {key};
      }
    }

    /** Joins a load of key, or serves it after all, or registers one. */
    method AcquireOne(key: K) returns (waits: Option<nat>, hit: Option<V>)
      requires Valid()
      modifies this`entries, group, loads
      ensures Valid()
      ensures var s, answer := old(Now()), PlainAnswer(old(entries), key, o.now);
              if s.InFlight(key) then
                && s.flights[key] < |s.calls| && waits == Some(s.flights[key]) && hit.None?
                && Now() == s.Joined(s.flights[key])
              else if answer.Miss? then
                waits == Some(|s.calls|) && hit.None? && Now() == s.Started(key, o.now)
              else
                && waits.None? && hit == (if answer.Hit? then Some(answer.value) else None)
                && Now() == s.Served()
    {
      ValidIsSane();
      var running := group.Running(key);
      if running.Some? {
        group.Join(running.value);
        return running, None;
      }
      var token := loads.Begin(key);
      var answer := Lookup(key);
      if !answer.Miss? {
        loads.End(key, token);
        assert loads.owner == old(loads.owner);
        return None, if answer.Hit? then Some(answer.value) else None;
      }
      var c := group.Start(key, token);
      return Some(c), None;
    }

    /** Stores what a load came to, unless its token has been invalidated. */
    method Store(key: K, outcome: Outcome<V>, token: Token)
      requires Valid()
      modifies this`entries, loads
      ensures Valid() && Now() == old(Now()).Stored(o, key, outcome, token)
    {
      if Keeps(o, outcome) && loads.IsValid(token) {
        Invalidate(key);
        entries := entries[key := EntryFor(o, key, outcome)];
      }
    }

    method Invalidate(key: K)
      requires Valid()
      modifies loads
      ensures Valid() && loads.next == old(loads.next)
      ensures loads.owner == map t | t in old(loads.owner) && old(loads.owner)[t] != key :: old(loads.owner)[t]
      ensures loads.flags == map t | t in old(loads.flags) ::
                  old(loads.flags)[t] && !(t in old(loads.owner) && old(loads.owner)[t] == key)
    {
      loads.Invalidate(key);
    }

    method Settle(c: nat, outcome: Outcome<V>)
      requires Valid() && c < |group.calls|
      modifies group`calls
      ensures Valid() && Now() == old(Now()).Settled(c, outcome)
    {
      group.Settle(c, outcome);
    }

    method Finish(c: nat)
      requires Valid() && c < |group.calls|
      modifies group
      ensures Valid() && Now() == old(Now()).Finished(c)
    {
      group.Finish(c);
    }

    method End(key: K, token: Token)
      requires Valid() && (token in loads.owner ==> loads.owner[token] == key)
      modifies loads
      ensures Valid() && Now() == old(Now()).Ended(token)
    {
      loads.End(key, token);
    }

    // The loops of a batch

    /** Looks each key up once. */
    method LookUpAll(keys: seq<K>) returns (found: map<K, V>, missing: seq<K>)
      modifies this`entries
      ensures found == Hits(old(entries), keys, o.now) && missing == Missing(old(entries), keys, o.now)
      ensures entries == AfterLookups(old(entries), keys, o.now)
    {
      hide Hits, Missing, AfterLookups;
      ghost var m := entries;
      NoLookups(m, o.now);
      var notHit: set<K>;
      found, missing, notHit := map[], [], {};
      for i := 0 to |keys|
        invariant found == Hits(m, keys[..i], o.now) && missing == Missing(m, keys[..i], o.now)
        invariant notHit == set k | k in keys[..i] && !PlainAnswer(m, k, o.now).Hit?
        invariant entries == AfterLookups(m, keys[..i], o.now)
      {
        var key := keys[i];
        assert keys[..i + 1] == keys[..i] + [key];
        LookedOneMore(m, keys[..i], key, o.now);
        MissingAre(m, keys[..i], o.now);
        if key !in found && key !in notHit {
          var answer := Lookup(key);
          if answer.Hit? {
            found := found[key := answer.value];
          } else {
            notHit := notHit + {key};
            if answer.Miss? {
              missing := missing + [key];
            }
          }
        }
      }
      assert keys[..|keys|] == keys;
    }

    lemma NotBefore(keys: seq<K>, i: nat)
      requires Different(keys) && i < |keys|
      ensures keys[i] !in keys[..i]
    {
    }

    /** Joins the running loads of keys, serves what has been cached since into found,
        and registers loads of the rest: whom to wait for, and those to start. */
    method Acquire(keys: seq<K>, found: map<K, V>)
      returns (waits: seq<nat>, started: seq<nat>, all: map<K, V>, ghost tokens: seq<Token>)
      requires Valid() && Different(keys)
      modifies this`entries, group, loads
      ensures Valid() && Acquired(old(Now()), Now(), keys, o.now, waits, started, tokens)
      ensures Slots(group.calls, waits) && all == found + LateHits(old(Now()), keys, o.now)
    {
      hide Acquired, LateHits, Valid, Different;
      ghost var b := Now();
      ValidIsSane();
      NothingAcquired(b, o.now);
      waits, started, all, tokens := [], [], found, [];
      for i := 0 to |keys|
        invariant Valid() && Acquired(b, Now(), keys[..i], o.now, waits, started, tokens)
        invariant all == found + LateHits(b, keys[..i], o.now)
      {
        TakeOneMore(keys, i);
        NotBefore(keys, i);
        waits, started, all, tokens := AcquireNext(b, keys[..i], keys[i], waits, started, tokens, all);
        OneMoreLateHit(b, keys[..i], keys[i], o.now);
      }
      assert keys[..|keys|] == keys;
      AcquiredSlots(b, Now(), keys, o.now, waits, started, tokens);
    }

    /** Acquire's way with one key. */
    method AcquireNext(ghost b: Snapshot<K, V>, ghost keys: seq<K>, key: K, waits: seq<nat>, started: seq<nat>,
                       ghost tokens: seq<Token>, found: map<K, V>)
      returns (waits': seq<nat>, started': seq<nat>, found': map<K, V>, ghost tokens': seq<Token>)
      requires Valid() && b.Sane() && key !in keys && Acquired(b, Now(), keys, o.now, waits, started, tokens)
      modifies this`entries, group, loads
      ensures Valid() && Acquired(b, Now(), keys + [key], o.now, waits', started', tokens')
      ensures var answer := PlainAnswer(b.entries, key, o.now);
              found' == if !b.InFlight(key) && answer.Hit? then found[key := answer.value] else found
    {
      hide Acquired;
      waits', started', found', tokens' := waits, started, found, tokens;
      ghost var s := Now();
      NextAsAtStart(b, s, keys, key, o.now, waits, started, tokens);
      var running := group.Running(key);
      var c, hit := AcquireOne(key);
      ghost var answer := PlainAnswer(b.entries, key, o.now);
      if b.InFlight(key) {
        JoinKeeps(b, s, keys, key, o.now, waits, started, tokens);
      } else if answer.Miss? {
        StartKeeps(b, s, keys, key, o.now, waits, started, tokens);
        tokens' := tokens + [s.next];
      } else {
        ServeKeeps(b, s, keys, key, o.now, waits, started, tokens);
      }
      if c.Some? {
        waits' := waits + [c.value];
        if running.None? {
          started' := started + [c.value];
        }
      } else if hit.Some? {
        found' := found[key := hit.value];
      }
    }

    /** What runBatch does with the loader's answer: each call gets its share, stored
        under its own token, until publishing one panics. */
    method SettleAll(started: seq<nat>, answer: BatchAnswer<K, V>, publishing: Publishing) returns (broke: bool)
      requires Valid() && Owns(Now(), started)
      modifies this`entries, group`calls, loads
      ensures Valid() && broke == (publishing.Breaks? && publishing.at < |started|)
      ensures Given(old(Now()), Now(), started, if broke then publishing.at + 1 else |started|,
                    StoredCount(publishing, |started|), answer)
    {
      hide Owns, Settling;
      ghost var b := Now();
      broke := false;
      SettlingStarts(o, b, started, answer);
      for i := 0 to |started|
        invariant Valid() && InRange(b.calls, started) && Settling(o, b, Now(), started, i, answer)
        invariant !(publishing.Breaks? && publishing.at < i)
      {
        ghost var s := Now();
        TokenStillValid(o, b, s, started, i, answer);
        var call := group.calls[started[i]];
        var share := Share(answer, call.key);
        SettleKeeps(o, b, s, started, i, answer);
        Settle(started[i], share);
        if publishing.Breaks? && publishing.at == i {
          if publishing.stored {
            Store(call.key, share, call.token);
            SettlingGives(o, b, Now(), started, i + 1, answer);
          } else {
            BrokenGives(o, b, s, started, i, answer);
          }
          return true;
        }
        Store(call.key, share, call.token);
      }
      SettlingGives(o, b, Now(), started, |started|, answer);
    }

    /** From b, the first given of the calls have their shares, and the first stored of
        them are stored. */
    ghost predicate Given(b: Snapshot<K, V>, s: Snapshot<K, V>, started: seq<nat>, given: nat, stored: nat,
                          answer: BatchAnswer<K, V>)
    {
      && InRange(b.calls, started) && given <= |started| && stored <= |started|
      && s.flights == b.flights && s.next == b.next
      && Changed(b.calls, s.calls, started[..given], Sharer(answer))
      && s.entries == b.entries + Kept(o, KeysOf(b, started)[..stored], Sharing(answer))
      && InvalidatedOnly(b, s.flags, s.owner, KeysOf(b, started))
    }

    lemma SettlingStarts(o: Settings<K, V>, b: Snapshot<K, V>, started: seq<nat>, answer: BatchAnswer<K, V>)
      requires Owns(b, started)
      ensures InRange(b.calls, started) && Settling(o, b, b, started, 0, answer)
    {
    }

    lemma SettlingGives(o: Settings<K, V>, b: Snapshot<K, V>, s: Snapshot<K, V>, started: seq<nat>, i: nat,
                        answer: BatchAnswer<K, V>)
      requires o == this.o && InRange(b.calls, started) && i <= |started| && Settling(o, b, s, started, i, answer)
      ensures Given(b, s, started, i, i, answer)
    {
    }

    lemma BrokenGives(o: Settings<K, V>, b: Snapshot<K, V>, s: Snapshot<K, V>, started: seq<nat>, i: nat,
                      answer: BatchAnswer<K, V>)
      requires o == this.o && Owns(b, started) && i < |started| && Settling(o, b, s, started, i, answer)
      requires started[i] < |s.calls|
      ensures Given(b, s.Settled(started[i], Share(answer, b.calls[started[i]].key)), started, i + 1, i, answer)
    {
      OneMoreSettled(b, s, started, i, answer);
    }

    /** The panic is carried to every key's waiters. */
    method RaiseAll(started: seq<nat>)
      requires Valid() && InRange(group.calls, started) && Different(started)
      modifies group`calls
      ensures Valid() && Changed(old(group.calls), group.calls, started, Sharer(Panic))
    {
      ghost var before := group.calls;
      for i := 0 to |started|
        invariant Valid() && Changed(before, group.calls, started[..i], Sharer(Panic))
      {
        TakeOneMore(started, i);
        assert started[i] !in started[..i];
        OneMoreChanged(before, group.calls, started[..i], started[i], Sharer(Panic));
        Settle(started[i], Panicked);
      }
      assert started[..|started|] == started;
    }

    method FinishAll(started: seq<nat>)
      requires Valid() && InRange(group.calls, started) && Different(started)
      modifies group
      ensures Valid() && Finishing(old(Now()), Now(), started, |started|)
    {
      ghost var b := Now();
      for i := 0 to |started|
        invariant Valid() && Finishing(b, Now(), started, i)
      {
        FinishKeeps(b, Now(), started, i);
        Finish(started[i]);
      }
    }

    method EndAll(started: seq<nat>, ghost b: Snapshot<K, V>)
      requires Valid() && InRange(b.calls, started) && |group.calls| == |b.calls|
      requires forall c :: 0 <= c < |b.calls| ==>
                 group.calls[c].key == b.calls[c].key && group.calls[c].token == b.calls[c].token
      requires forall j :: 0 <= j < |started| && b.calls[started[j]].token in b.owner ==>
                 b.owner[b.calls[started[j]].token] == b.calls[started[j]].key
      requires TokensEnded(b, loads.flags, loads.owner, KeysOf(b, started), started, 0)
      modifies loads
      ensures Valid() && TokensEnded(b, loads.flags, loads.owner, KeysOf(b, started), started, |started|)
      ensures loads.next == old(loads.next)
    {
      for i := 0 to |started|
        invariant Valid() && loads.next == old(loads.next)
        invariant TokensEnded(b, loads.flags, loads.owner, KeysOf(b, started), started, i)
      {
        var call := group.calls[started[i]];
        EndKeeps(b, loads.flags, loads.owner, KeysOf(b, started), started, i);
        End(call.key, call.token);
      }
    }

    /** Every call of the batch gets its result and is finished, and every token ended. */
    method RunBatch(started: seq<nat>, answer: BatchAnswer<K, V>, publishing: Publishing)
      requires Valid() && Owns(Now(), started)
      modifies this`entries, group, loads
      ensures Valid() && InRange(old(group.calls), started)
      ensures RanBatch(old(Now()), Now(), started, Outward(answer, publishing, |started|))
      ensures entries == old(entries)
                       + Kept(o, KeysOf(old(Now()), started)[..StoredCount(publishing, |started|)], Sharing(answer))
    {
      hide Kept, KeysOf, Dropped, InvalidatedOnly, Sharer, Finisher, Ender;
      ghost var b, out := Now(), Outward(answer, publishing, |started|);
      var broke := SettleAll(started, answer, publishing);
      ghost var mid := group.calls;
      assert started[..|started|] == started;
      if broke {
        RaiseAll(started);
        PanicOverrides(b.calls, mid, group.calls, started, publishing.at + 1, answer);
      }
      ghost var s := Now();
      assert Changed(b.calls, s.calls, started, Sharer(out));
      FinishAll(started);
      SharedThenFinished(b.calls, s.calls, group.calls, started, out);
      GivenTokens(b, s, started, KeysOf(b, started));
      KeysAndTokensStay(b.calls, group.calls, started, out);
      EndAll(started, b);
    }

    lemma GivenTokens(b: Snapshot<K, V>, s: Snapshot<K, V>, started: seq<nat>, keys: seq<K>)
      requires InRange(b.calls, started) && InvalidatedOnly(b, s.flags, s.owner, keys)
      ensures TokensEnded(b, s.flags, s.owner, keys, started, 0)
    {
    }

    lemma KeysAndTokensStay(before: seq<Call<K, V>>, after: seq<Call<K, V>>, started: seq<nat>,
                            answer: BatchAnswer<K, V>)
      requires Changed(before, after, started, Ender(answer))
      ensures |after| == |before|
      ensures forall c :: 0 <= c < |before| ==> after[c].key == before[c].key && after[c].token == before[c].token
    {
    }

    // Waiting

    /** One more of the calls is left. */
    method LeaveOne(ghost calls: seq<Call<K, V>>, ghost flights: map<K, nat>, rest: seq<nat>, i: nat)
      requires Valid() && i < |rest| && GivenBack(calls, group.calls, flights, group.flights, rest[..i])
      requires Different(rest) && rest[i] < |calls| && calls[rest[i]].waiters > 0
      modifies group
      ensures Valid() && GivenBack(calls, group.calls, flights, group.flights, rest[..i + 1])
    {
      assert rest[i] !in rest[..i];
      group.Leave(rest[i]);
      assert rest[..i + 1] == rest[..i] + [rest[i]];
    }

    method LeaveAll(rest: seq<nat>)
      requires Valid() && Slots(group.calls, rest)
      modifies group
      ensures Valid() && GivenBack(old(group.calls), group.calls, old(group.flights), group.flights, rest)
    {
      hide GivenBack;
      NothingGivenBack(group.calls, group.flights);
      for i := 0 to |rest|
        invariant Valid() && GivenBack(old(group.calls), group.calls, old(group.flights), group.flights, rest[..i])
      {
        LeaveOne(old(group.calls), old(group.flights), rest, i);
      }
      assert rest[..|rest|] == rest;
    }

    method Take(all: map<K, V>, result: Result, call: Call<K, V>) returns (all': map<K, V>, result': Result)
      ensures all' == if call.outcome.Found? then all[call.key := call.outcome.value] else all
      ensures result' == if result.Ok? && call.outcome.Failed? then FirstError(call.outcome.error) else result
    {
      all', result' := all, result;
      match call.outcome
      case Found(value) => all' := all[call.key := value];
      case Failed(e) => if result.Ok? { result' := FirstError(e); }
      case _ =>
    }

    /** Takes the results of the calls in order. If the context ends once ends of them
        are done, or if a call has panicked, it gives back its slots of the calls after
        that, each once, and none otherwise. */
    method Collect(waits: seq<nat>, found: map<K, V>, ends: nat) returns (all: map<K, V>, result: Result)
      requires Valid() && Slots(group.calls, waits)
      requires forall j :: 0 <= j < |waits| && j < ends ==> group.calls[waits[j]].done
      modifies group
      ensures Valid()
      ensures var calls := old(group.calls);
              var stop := StopsAt(calls, waits, ends, 0);
              && all == found + Results(calls, waits[..stop])
              && result == (if stop == |waits| then FirstFailure(calls, waits)
                            else if stop >= ends then CtxEnded else Raised)
              && GivenBack(calls, group.calls, old(group.flights), group.flights,
                           waits[Spent(stop, |waits|, ends)..])
    {
      hide GivenBack, StopsAt, Results, FirstFailure;
      ghost var calls := group.calls;
      all, result := found, Ok;
      assert found + Results(calls, waits[..0]) == found && FirstFailure(calls, waits[..0]) == Ok by {
        NoResults(calls, waits[..0]);
      }
      for i := 0 to |waits|
        invariant unchanged(group)
        invariant StopsAt(calls, waits, ends, 0) == StopsAt(calls, waits, ends, i)
        invariant all == found + Results(calls, waits[..i]) && result == FirstFailure(calls, waits[..i])
      {
        StopsOrGoesOn(calls, waits, ends, i);
        SlotsAfter(calls, waits, i);
        if i >= ends {
          LeaveAll(waits[i..]);
          return all, CtxEnded;
        }
        var call := group.calls[waits[i]];
        if call.outcome.Panicked? {
          SlotsAfter(calls, waits, i + 1);
          LeaveAll(waits[i + 1..]);
          return all, Raised;
        }
        OneMoreResult(calls, waits, found, i);
        all, result := Take(all, result, call);
      }
      NothingGivenBack(calls, old(group.flights));
      assert waits[..|waits|] == waits && waits[|waits|..] == [];
    }

    /** A caller that joins running loads and starts others, and gives up before any is
        done, leaves every load that was in flight as it was. */
    method GiveUpAtOnce(keys: seq<K>, found: map<K, V>) returns (all: map<K, V>, result: Result)
      requires Valid() && Different(keys)
      modifies this`entries, group, loads
      ensures Valid() && QuietCalls(old(group.calls), group.calls)
      ensures forall k :: old(Now()).InFlight(k) ==> k in group.flights && group.flights[k] == old(group.flights)[k]
      ensures all == found + LateHits(old(Now()), keys, o.now)
    {
      hide Acquired, GivenBack, LateHits;
      ghost var b := Now();
      ValidIsSane();
      var waits, started;
      ghost var tokens;
      waits, started, all, tokens := Acquire(keys, found);
      ghost var s, late := Now(), all;
      all, result := Collect(waits, all, 0);
      assert waits[..0] == [] && waits[0..] == waits;
      JoinedThenLeft(b, s, group.calls, group.flights, keys, o.now, waits, started, tokens);
    }

    // Many keys

    lemma AllStart(b: Snapshot<K, V>, keys: seq<K>)
      requires forall k :: k in keys ==> !b.InFlight(k) && k !in b.entries
      ensures Mine(b, keys, o.now) == keys
      ensures LateHits(b, keys, o.now) == map[] && Unmissed(b, keys, o.now) == b.entries
    {
      AllMine(b, keys, o.now);
    }

    /** After a batch everybody it was for can see his share. */
    lemma RanGivesShares(s: Snapshot<K, V>, s': Snapshot<K, V>, started: seq<nat>, keys: seq<K>,
                         answer: BatchAnswer<K, V>)
      requires InRange(s.calls, started) && RanBatch(s, s', started, answer) && KeysOf(s, started) == keys
      ensures HaveShares(s'.calls, started, keys, answer)
    {
      forall j | 0 <= j < |started|
        ensures && started[j] < |s'.calls| && s'.calls[started[j]].key == keys[j]
                && s'.calls[started[j]].outcome == Share(answer, keys[j]) && s'.calls[started[j]].done
      {
        assert started[j] in started;
      }
    }

    lemma RanKeepsSlots(s: Snapshot<K, V>, s': Snapshot<K, V>, started: seq<nat>, answer: BatchAnswer<K, V>)
      requires InRange(s.calls, started) && RanBatch(s, s', started, answer) && Slots(s.calls, started)
      ensures Slots(s'.calls, started)
    {
    }

    /** Giving back one's own calls disturbs nobody. */
    lemma GivenBackIsQuiet(b: Snapshot<K, V>, s: Snapshot<K, V>, calls: seq<Call<K, V>>, flights: map<K, nat>,
                           keys: set<K>, rest: seq<nat>)
      requires b.Sane() && Quiet(b, s, keys) && GivenBack(s.calls, calls, s.flights, flights, rest)
      requires forall j :: 0 <= j < |rest| ==> rest[j] >= |b.calls|
      ensures QuietCalls(b.calls, calls) && QuietFlights(b.flights, flights, keys)
    {
    }

    /** Registers loads of the missing keys, runs the batch and takes its results. */
    method LoadMissing(missing: seq<K>, found: map<K, V>, loader: seq<K> -> BatchAnswer<K, V>, publishing: Publishing)
      returns (all: map<K, V>, result: Result)
      requires Valid() && Different(missing) && forall k :: k in missing ==> !Now().InFlight(k) && k !in entries
      modifies this`entries, group, loads
      ensures Valid() && Quiet(old(Now()), Now(), Elems(missing))
      ensures var answer := loader(missing);
              && entries == old(entries) + Kept(o, missing[..StoredCount(publishing, |missing|)], Sharing(answer))
              && all == found + Gained(missing, Sharing(Outward(answer, publishing, |missing|)))
              && result == Verdict(Outward(answer, publishing, |missing|), missing)
    {
      hide Valid, Acquired, Owns, RanBatch, Quiet, GivenBack, Gained, Kept, Results, FirstFailure, StopsAt, Slots,
           HaveShares;
      ghost var b := Now();
      ValidIsSane();
      AllStart(b, missing);
      var waits, started;
      ghost var tokens;
      waits, started, all, tokens := Acquire(missing, found);
      ghost var s := Now();
      var answer := loader(missing);
      ghost var out := Outward(answer, publishing, |missing|);
      AcquiredOwns(b, s, missing, o.now, waits, started, tokens);
      OwnWaits(b, s, missing, waits, started, tokens);
      RunBatch(started, answer, publishing);
      AcquiredThenRan(b, s, Now(), missing, o.now, waits, started, tokens, out);
      RanGivesShares(s, Now(), started, missing, out);
      RanKeepsSlots(s, Now(), started, out);
      all, result := TakeBatch(b, started, all, missing, out);
    }

    lemma OwnWaits(b: Snapshot<K, V>, s: Snapshot<K, V>, keys: seq<K>, waits: seq<nat>, started: seq<nat>,
                   tokens: seq<Token>)
      requires Acquired(b, s, keys, o.now, waits, started, tokens) && forall k :: k in keys ==> !b.InFlight(k)
      ensures waits == started && forall j :: 0 <= j < |started| ==> started[j] == |b.calls| + j
      ensures s.entries == Unmissed(b, keys, o.now)
    {
    }

    /** The maker of a batch that is over takes its results. */
    method TakeBatch(ghost b: Snapshot<K, V>, started: seq<nat>, found: map<K, V>, ghost keys: seq<K>,
                     ghost answer: BatchAnswer<K, V>)
      returns (all: map<K, V>, result: Result)
      requires Valid() && b.Sane() && Quiet(b, Now(), Elems(keys))
      requires Slots(group.calls, started) && HaveShares(group.calls, started, keys, answer)
      requires forall j :: 0 <= j < |started| ==> started[j] >= |b.calls|
      modifies group
      ensures Valid() && Quiet(b, Now(), Elems(keys))
      ensures all == found + Gained(keys, Sharing(answer)) && result == Verdict(answer, keys)
    {
      hide GivenBack, Results, FirstFailure, StopsAt, Slots, Gained, QuietCalls, QuietFlights, QuietFlags, QuietTokens;
      ghost var s := Now();
      ResultsAreShares(group.calls, started, keys, answer, |keys|);
      ResultsAreShares(group.calls, started, keys, answer, 0);
      StopsAtPanic(group.calls, started, keys, answer, 0);
      assert keys[..|keys|] == keys && started[..|started|] == started && keys[..0] == [] && started[..0] == [];
      all, result := Collect(started, found, |started|);
      GivenBackIsQuiet(b, s, group.calls, group.flights, Elems(keys),
                       started[Spent(StopsAt(s.calls, started, |started|, 0), |started|, |started|)..]);
      if answer.Panic? {
        NothingGained(keys, answer);
        NothingGained([], answer);
      }
    }

    /** Many keys at once. With nobody else about the batch is done before the wait
        for it ends. */
    method GetMany(keys: seq<K>, ctxDone: bool, loader: seq<K> -> BatchAnswer<K, V>, publishing: Publishing)
      returns (found: map<K, V>, result: Result)
      requires Valid() && forall k :: k in keys ==> !Now().InFlight(k)
      modifies this`entries, group, loads
      ensures Valid() && Quiet(old(Now()), Now(), Elems(keys))
      ensures var m, missing := old(entries), Missing(old(entries), keys, o.now);
              var answer := loader(missing);
              if missing == [] || ctxDone then
                && found == Hits(m, keys, o.now) && entries == AfterLookups(m, keys, o.now)
                && result == if missing == [] then Ok else CtxEnded
              else
                var out := Outward(answer, publishing, |missing|);
                && found == ManyFound(o, m, keys, Sharing(out))
                && entries == AfterLookups(m, keys, o.now)
                            + Kept(o, missing[..StoredCount(publishing, |missing|)], Sharing(answer))
                && result == Verdict(out, missing)
      ensures var m, missing := old(entries), Missing(old(entries), keys, o.now);
              var answer, broke := loader(missing), Broke(publishing, |missing|);
              && OthersKept(m, entries, missing)
              && (if ctxDone then forall k :: k in missing ==> k !in entries
                  else BatchKept(o, entries, missing, answer, publishing))
              && AllFound(m, keys, o.now, missing,
                          if answer.Values? && !ctxDone && !broke then answer.values else map[], found)
              && result == if missing == [] then Ok
                           else if ctxDone then CtxEnded
                           else if broke || answer.Panic? then Raised
                           else if answer.Error? then FirstError(answer.error)
                           else Ok
    {
      hide Missing, Hits, Gained, Kept, Verdict, Quiet, AllFound, BatchKept, OthersKept, AfterLookups;
      ghost var b := Now();
      ManyTold(b.entries, keys, loader(Missing(b.entries, keys, o.now)), publishing);
      var missing;
      found, missing := LookUpAll(keys);
      QuietSoFar(b, Now(), Elems(keys));
      MissingAre(b.entries, keys, o.now);
      if missing == [] {
        return found, Ok;
      }
      if ctxDone {
        return found, CtxEnded;
      }
      found, result := LoadMissing(missing, found, loader, publishing);
      QuietFrom(b, b.(entries := AfterLookups(b.entries, keys, o.now)), Now(), Elems(missing), Elems(keys));
    }

    /** What the batch's functions amount to. */
    lemma ManyTold(m: map<K, Written<V>>, keys: seq<K>, answer: BatchAnswer<K, V>, publishing: Publishing)
      ensures var missing := Missing(m, keys, o.now);
              var out, looked := Outward(answer, publishing, |missing|), AfterLookups(m, keys, o.now);
              var m' := looked + Kept(o, missing[..StoredCount(publishing, |missing|)], Sharing(answer));
              var values := if answer.Values? && !Broke(publishing, |missing|) then answer.values else map[];
              && OthersKept(m, looked, missing) && (forall k :: k in missing ==> k !in looked)
              && OthersKept(m, m', missing) && BatchKept(o, m', missing, answer, publishing)
              && AllFound(m, keys, o.now, missing, map[], Hits(m, keys, o.now))
              && AllFound(m, keys, o.now, missing, values, ManyFound(o, m, keys, Sharing(out)))
              && (missing == [] ==> BatchKept(o, looked, missing, answer, publishing)
                                    && AllFound(m, keys, o.now, missing, values, Hits(m, keys, o.now)))
              && (missing != [] ==> Verdict(out, missing) ==
                                    if Broke(publishing, |missing|) || answer.Panic? then Raised
                                    else if answer.Error? then FirstError(answer.error) else Ok)
    {
      hide AllFound, BatchKept, OthersKept, Missing, AfterLookups, Kept, ManyFound, Hits;
      var missing := Missing(m, keys, o.now);
      AfterLookupsAre(m, keys, o.now);
      BatchIsKept(o, m, keys, answer, publishing);
      AllAreFound(o, m, keys, Outward(answer, publishing, |missing|));
      if missing == [] {
        NoneMissing(m, keys, answer, publishing);
      }
    }

    lemma NoneMissing(m: map<K, Written<V>>, keys: seq<K>, answer: BatchAnswer<K, V>, publishing: Publishing)
      requires Missing(m, keys, o.now) == []
      ensures BatchKept(o, AfterLookups(m, keys, o.now), [], answer, publishing)
      ensures forall values :: AllFound(m, keys, o.now, [], values, Hits(m, keys, o.now))
    {
      AllAreFound(o, m, keys, answer);
    }

    lemma QuietSoFar(b: Snapshot<K, V>, s: Snapshot<K, V>, keys: set<K>)
      requires s == b.(entries := s.entries)
      ensures Quiet(b, s, keys)
    {
    }

    lemma QuietFrom(a: Snapshot<K, V>, b: Snapshot<K, V>, s: Snapshot<K, V>, keys: set<K>, more: set<K>)
      requires b == a.(entries := b.entries) && Quiet(b, s, keys) && keys <= more
      ensures Quiet(a, s, more)
    {
    }

    // One key

    /** One key on its own: the lookup, the second look, the load, its publication and
        the wait. None is a context that has ended by the time the lookup misses. */
    method GetOne(key: K, ctxDone: bool, load: Outcome<V>) returns (outcome: Option<Outcome<V>>)
      requires Valid() && !Now().InFlight(key)
      modifies this`entries, group, loads
      ensures Valid() && Quiet(old(Now()), Now(), {key})
      ensures var one := LoadOne(o, old(entries), key, load);
              if ctxDone && PlainAnswer(old(entries), key, o.now).Miss? then
                outcome == None && entries == Looked(old(entries), key, o.now)
              else
                outcome == Some(one.outcome) && entries == one.entries
      ensures match PlainAnswer(old(entries), key, o.now)
              case Hit(v) => outcome == Some(Found(v)) && entries == old(entries)
              case Negative => outcome == Some(NotFound) && entries == old(entries)
              case Miss =>
                && OthersKept(old(entries), entries, [key])
                && if ctxDone then outcome == None && key !in entries
                   else outcome == Some(load) && LoadKept(o, entries, key, load)
    {
      hide Quiet, LoadKept, Publish;
      ghost var b := Now();
      var answer := Lookup(key);
      QuietSoFar(b, Now(), {key});
      match answer {
        case Hit(value) => return Some(Found(value));
        case Negative => return Some(NotFound);
        case Miss =>
      }
      if ctxDone {
        return None;
      }
      ghost var s := Now();
      outcome := LoadMissed(key, load);
      QuietFrom(b, s, Now(), {key}, {key});
    }

    /** The second look, the load, its publication and the wait, of a key not cached. */
    method LoadMissed(key: K, load: Outcome<V>) returns (outcome: Option<Outcome<V>>)
      requires Valid() && !Now().InFlight(key) && key !in entries
      modifies this`entries, group, loads
      ensures Valid() && Quiet(old(Now()), Now(), {key})
      ensures outcome == Some(load) && entries == Publish(o, old(entries), key, load)
      ensures LoadKept(o, entries, key, load) && OthersKept(old(entries), entries, [key])
    {
      hide Quiet, LoadKept, OthersKept, Publish;
      ghost var s := Now();
      ValidIsSane();
      var c, hit := AcquireOne(key);
      PublishKeepsLoad(o, s.entries, key, load);
      outcome := RunOne(s, key, c.value, load);
    }

    lemma OneTokens(s: Snapshot<K, V>, key: K, load: Outcome<V>, flags: map<Token, bool>, owner: map<Token, K>,
                    t: Token)
      requires s.flags == flags[t := true] && s.owner == owner[t := key] && t !in flags && t !in owner
      ensures var s' := s.Stored(o, key, load, t).Ended(t);
              QuietTokens(owner, s'.owner, {key}) && QuietFlags(flags, s'.flags)
      ensures s.Stored(o, key, load, t).entries == Publish(o, s.entries, key, load)
    {
    }

    lemma FlightGone(flights: map<K, nat>, key: K, c: nat)
      ensures QuietFlights(flights, flights[key := c] - {key}, {key})
    {
    }

    /** What the steps of one key's load come to. */
    lemma OneIsQuiet(b: Snapshot<K, V>, key: K, load: Outcome<V>)
      requires b.Sane() && !b.InFlight(key) && key !in b.entries
      ensures var c, t, s := |b.calls|, b.next, b.Started(key, o.now);
              && c < |s.calls| && s.calls[c].token == t && c < |s.Settled(c, load).Stored(o, key, load, t).calls|
              && var s' := s.Settled(c, load).Stored(o, key, load, t).Finished(c).Ended(t);
                 Quiet(b, s', {key}) && s'.entries == Publish(o, b.entries, key, load) && s'.calls[c].outcome == load
    {
      hide QuietTokens, QuietFlags, QuietFlights, Publish, EntryFor, Keeps;
      var c, t := |b.calls|, b.next;
      var s := b.Started(key, o.now).Settled(c, load);
      OneTokens(s, key, load, b.flags, b.owner, t);
      FlightGone(b.flights, key, c);
      assert s.Stored(o, key, load, t).calls[c] == Call(key, t, 1, load, false, false);
    }

    /** The load that has just been registered: run and wait for one key. */
    method RunOne(ghost b: Snapshot<K, V>, key: K, c: nat, load: Outcome<V>) returns (outcome: Option<Outcome<V>>)
      requires Valid() && b.Sane() && !b.InFlight(key) && key !in b.entries
      requires Now() == b.Started(key, o.now) && c == |b.calls|
      modifies this`entries, group, loads
      ensures Valid() && Quiet(b, Now(), {key})
      ensures entries == Publish(o, b.entries, key, load) && outcome == Some(load)
    {
      hide Valid, Quiet, Publish;
      OneIsQuiet(b, key, load);
      var token := group.calls[c].token;
      Settle(c, load);
      Store(key, load, token);
      Finish(c);
      End(key, token);
      outcome := Some(group.calls[c].outcome);
    }

    /** A key loaded is not loaded again: another loader, who would answer otherwise, is
        not asked until the value expires. */
    method GetTwice(key: K, value: V, other: Outcome<V>) returns (first: Option<Outcome<V>>, second: Option<Outcome<V>>)
      requires Valid() && !Now().InFlight(key)
      requires PlainAnswer(entries, key, o.now).Miss? && (o.expires(key) == 0 || o.now < o.expires(key))
      modifies this`entries, group, loads
      ensures Valid() && first == Some(Found(value)) && second == Some(Found(value))
    {
      hide Quiet, LoadOne;
      ghost var b := Now();
      ValidIsSane();
      first := GetOne(key, false, Found(value));
      QuietStaysOut(b, Now(), {key}, key);
      second := GetOne(key, false, other);
    }

    lemma QuietMore(b: Snapshot<K, V>, s: Snapshot<K, V>, s': Snapshot<K, V>, keys: seq<K>, k: K)
      requires Quiet(b, s, Elems(keys)) && Quiet(s, s', {k}) && k in keys
      ensures Quiet(b, s', Elems(keys))
    {
      hide QuietCalls, QuietFlights, QuietFlags, QuietTokens;
      QuietThenQuiet(b, s, s', Elems(keys), {k});
      assert Elems(keys) + {k} == Elems(keys);
    }

    /** The keys one by one, duplicates too. */
    method GetEach(keys: seq<K>, one: K -> Outcome<V>) returns (outcomes: seq<Outcome<V>>)
      requires Valid() && forall k :: k in keys ==> !Now().InFlight(k)
      modifies this`entries, group, loads
      ensures Valid() && entries == LoadEach(o, old(entries), keys, one)
      ensures |outcomes| == |keys| && EachAnswered(o, old(entries), keys, one, outcomes)
      ensures Quiet(old(Now()), Now(), Elems(keys))
    {
      hide Quiet, Elems, LoadOne, LoadEach, EachAnswered;
      ghost var b := Now();
      ValidIsSane();
      QuietSoFar(b, b, Elems(keys));
      NoLoads(o, b.entries, keys, one);
      outcomes := [];
      for i := 0 to |keys|
        invariant Valid() && Quiet(b, Now(), Elems(keys))
        invariant entries == LoadEach(o, b.entries, keys[..i], one)
        invariant |outcomes| == i && EachAnswered(o, b.entries, keys, one, outcomes)
      {
        ghost var s := Now();
        QuietStaysOut(b, s, Elems(keys), keys[i]);
        LastLoad(o, b.entries, keys, one, i);
        var outcome := GetOne(keys[i], false, one(keys[i]));
        OneMoreAnswered(o, b.entries, keys, one, outcomes, outcome.value);
        outcomes := outcomes + [outcome.value];
        QuietMore(b, s, Now(), keys, keys[i]);
      }
      assert keys[..|keys|] == keys;
    }
  }

  /** GetManyOrLoad is GetOrLoad key by key: two caches that hold the same, one loading
      the keys in a batch and the other one after another, with a batch loader that
      answers each key as its own loader does, end up holding the same and find the
      same values. */
  method BothWays<K(!new, ==), V(!new, ==)>(
      a: Host<K, V>, b: Host<K, V>, keys: seq<K>, loader: seq<K> -> BatchAnswer<K, V>, one: K -> Outcome<V>)
    returns (found: map<K, V>, result: Result, outcomes: seq<Outcome<V>>)
    requires a != b && a.group != b.group && a.loads != b.loads && a.o == b.o && Sound(a.o)
    requires a.Valid() && b.Valid() && a.entries == b.entries
    requires forall k :: k in keys ==> !a.Now().InFlight(k) && !b.Now().InFlight(k)
    requires forall k :: one(k).Found? || one(k).NotFound?
    requires forall ks :: loader(ks).Values?
    requires forall ks, k :: k in ks ==>
               && (k in loader(ks).values <==> one(k).Found?)
               && (one(k).Found? ==> loader(ks).values[k] == one(k).value)
    modifies a`entries, a.group, a.loads, b`entries, b.group, b.loads
    ensures a.Valid() && b.Valid() && a.entries == b.entries && result == Ok && |outcomes| == |keys|
    ensures forall i :: 0 <= i < |keys| ==>
              && (outcomes[i].Found? <==> keys[i] in found)
              && (outcomes[i].Found? ==> found[keys[i]] == outcomes[i].value)
  {
    hide Quiet, ManyFound, ManyEntries, Hits, AfterLookups, Kept, Gained, Missing, LoadEach, LoadOne, Sound, Share;
    ghost var m, missing := a.entries, Missing(a.entries, keys, a.o.now);
    SharesAre(loader(missing), missing, one);
    SameShares(a.o, m, keys, loader(missing), one);
    BatchIsOneByOne(a.o, m, keys, one);
    found, result := a.GetMany(keys, false, loader, Smooth);
    outcomes := b.GetEach(keys, one);
  }

  lemma SharesAre<K(!new), V>(answer: BatchAnswer<K, V>, keys: seq<K>, one: K -> Outcome<V>)
    requires answer.Values? && forall k :: k in keys ==> one(k).Found? || one(k).NotFound?
    requires forall k :: k in keys ==>
               && (k in answer.values <==> one(k).Found?)
               && (one(k).Found? ==> answer.values[k] == one(k).value)
    ensures forall k :: k in keys ==> Share(answer, k) == one(k)
  {
  }

  /** What a smooth batch stores and finds when each key's share is its own. */
  lemma SameShares<K(!new), V>(
      o: Settings<K, V>, m: map<K, Written<V>>, keys: seq<K>, answer: BatchAnswer<K, V>, one: K -> Outcome<V>)
    requires forall k :: k in Missing(m, keys, o.now) ==> answer.Values? && Share(answer, k) == one(k)
    ensures var missing := Missing(m, keys, o.now);
            if missing == [] then
              Hits(m, keys, o.now) == ManyFound(o, m, keys, one)
              && AfterLookups(m, keys, o.now) == ManyEntries(o, m, keys, one)
            else
              && Verdict(answer, missing) == Ok
              && ManyFound(o, m, keys, Sharing(answer)) == ManyFound(o, m, keys, one)
              && AfterLookups(m, keys, o.now) + Kept(o, missing[..|missing|], Sharing(answer))
                 == ManyEntries(o, m, keys, one)
  {
    var missing := Missing(m, keys, o.now);
    assert Gained(missing, Sharing(answer)) == Gained(missing, one);
    assert Kept(o, missing, Sharing(answer)) == Kept(o, missing, one);
    assert missing[..|missing|] == missing;
    assert missing != [] ==> missing[0] in missing;
  }
}
