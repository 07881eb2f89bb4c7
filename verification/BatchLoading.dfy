/**
 Loading many keys at once, on a cache without a budget and with nobody else about:
 what a batch load finds and leaves behind, as loops over the keys, and that it is
 what loading the keys one by one finds and leaves.
 */
module BatchLoading {
  import opened ShardModel
  import opened TtlAgreement
  import opened FlightGroups

  /** What the cache stores a load with; no time of expiry is in the past. */
  datatype Settings<!K, V> = Settings(now: int, expires: K -> int, negatives: bool, negativeExpires: K -> int, zero: V)

  ghost predicate Sound<K(!new), V>(o: Settings<K, V>) {
    forall k: K :: (o.expires(k) == 0 || o.expires(k) > o.now)
                   && (o.negativeExpires(k) == 0 || o.negativeExpires(k) > o.now)
  }

  /** A batch loader's answer. An error that wraps ErrNotFound is the second. */
  datatype BatchAnswer<K, V> = Values(values: map<K, V>) | NotFoundError | Error(error: nat) | Panic

  function Share<K, V>(answer: BatchAnswer<K, V>, key: K): (o: Outcome<V>)
    ensures !o.Pending?
  {
    match answer
    case Values(values) => if key in values then Found(values[key]) else NotFound
    case NotFoundError => NotFound
    case Error(e) => Failed(e)
    case Panic => Panicked
  }

  function Sharing<K, V>(answer: BatchAnswer<K, V>): K -> Outcome<V> {
    k => Share(answer, k)
  }

  // What is stored

  predicate Keeps<K, V>(o: Settings<K, V>, outcome: Outcome<V>) {
    outcome.Found? || (outcome.NotFound? && o.negatives)
  }

  function EntryFor<K, V>(o: Settings<K, V>, key: K, outcome: Outcome<V>): Written<V> {
    if outcome.Found? then Written(outcome.value, false, o.expires(key))
    else Written(o.zero, true, o.negativeExpires(key))
  }

  function Publish<K, V>(o: Settings<K, V>, m: map<K, Written<V>>, key: K, outcome: Outcome<V>): map<K, Written<V>> {
    if Keeps(o, outcome) then m[key := EntryFor(o, key, outcome)] else m
  }

  /** A lookup drops an expired entry. */
  function Looked<K, V>(m: map<K, Written<V>>, key: K, now: int): map<K, Written<V>> {
    if key in m && PlainAnswer(m, key, now).Miss? then m - {key} else m
  }

  // One key

  datatype Loaded<K, V> = Loaded(entries: map<K, Written<V>>, outcome: Outcome<V>)

  /** GetOrLoad of one key, whose loader would answer with load. */
  function LoadOne<K, V>(o: Settings<K, V>, m: map<K, Written<V>>, key: K, load: Outcome<V>): Loaded<K, V> {
    match PlainAnswer(m, key, o.now)
    case Hit(v) => Loaded(m, Found(v))
    case Negative => Loaded(m, NotFound)
    case Miss => Loaded(Publish(o, Looked(m, key, o.now), key, load), load)
  }

  /** The keys one by one, in order and duplicates too. */
  function LoadEach<K, V>(o: Settings<K, V>, m: map<K, Written<V>>, keys: seq<K>,
                          one: K -> Outcome<V>): map<K, Written<V>>
  {
    if keys == [] then m
    else
      var front := LoadEach(o, m, keys[..|keys| - 1], one);
      LoadOne(o, front, keys[|keys| - 1], one(keys[|keys| - 1])).entries
  }

  // Many keys

  /** The keys that were a miss, each once, in the order they first come. */
  function Missing<K(==), V>(m: map<K, Written<V>>, keys: seq<K>, now: int): seq<K> {
    if keys == [] then []
    else
      var rest, k := Missing(m, keys[..|keys| - 1], now), keys[|keys| - 1];
      if PlainAnswer(m, k, now).Miss? && k !in rest then rest + [k] else rest
  }

  function Hits<K(==), V>(m: map<K, Written<V>>, keys: seq<K>, now: int): map<K, V> {
    map k | k in keys && PlainAnswer(m, k, now).Hit? :: PlainAnswer(m, k, now).value
  }

  /** The entries after looking all the keys up. */
  function AfterLookups<K(==), V>(m: map<K, Written<V>>, keys: seq<K>, now: int): map<K, Written<V>> {
    map k | k in m && !(k in keys && PlainAnswer(m, k, now).Miss?) :: m[k]
  }

  function Gained<K(==), V>(keys: seq<K>, share: K -> Outcome<V>): map<K, V> {
    map k | k in keys && share(k).Found? :: share(k).value
  }

  function Kept<K(==), V>(o: Settings<K, V>, keys: seq<K>, share: K -> Outcome<V>): map<K, Written<V>> {
    map k | k in keys && Keeps(o, share(k)) :: EntryFor(o, k, share(k))
  }

  /** The cache after a batch in which the missing keys get their shares. */
  function ManyEntries<K(==), V>(o: Settings<K, V>, m: map<K, Written<V>>, keys: seq<K>,
                                 share: K -> Outcome<V>): map<K, Written<V>>
  {
    AfterLookups(m, keys, o.now) + Kept(o, Missing(m, keys, o.now), share)
  }

  function ManyFound<K(==), V>(o: Settings<K, V>, m: map<K, Written<V>>, keys: seq<K>,
                               share: K -> Outcome<V>): map<K, V>
  {
    Hits(m, keys, o.now) + Gained(Missing(m, keys, o.now), share)
  }

  lemma {:induction false} MissingAre<K, V>(m: map<K, Written<V>>, keys: seq<K>, now: int)
    ensures forall k :: k in Missing(m, keys, now) <==> k in keys && PlainAnswer(m, k, now).Miss?
    ensures forall i, j :: 0 <= i < j < |Missing(m, keys, now)| ==>
                             Missing(m, keys, now)[i] != Missing(m, keys, now)[j]
  {
    if keys == [] {
    } else {
      MissingAre(m, keys[..|keys| - 1], now);
      assert keys == keys[..|keys| - 1] + [keys[|keys| - 1]];
    }
  }

  /** They are in the order in which they first come: more keys only add to the end. */
  lemma {:induction false} MissingGrows<K, V>(m: map<K, Written<V>>, keys: seq<K>, n: nat, now: int)
    requires n <= |keys|
    ensures Missing(m, keys[..n], now) <= Missing(m, keys, now)
    decreases |keys|
  {
    if n < |keys| {
      var front := keys[..|keys| - 1];
      assert front[..n] == keys[..n];
      MissingGrows(m, front, n, now);
    } else {
      assert keys[..n] == keys;
    }
  }

  /** What the batch makes of one key's entry. */
  lemma EntryAfter<K, V>(o: Settings<K, V>, m: map<K, Written<V>>, keys: seq<K>, share: K -> Outcome<V>, k: K)
    ensures var m' := ManyEntries(o, m, keys, share);
            if k in keys && PlainAnswer(m, k, o.now).Miss? then
              if Keeps(o, share(k)) then k in m' && m'[k] == EntryFor(o, k, share(k)) else k !in m'
            else if k in m then k in m' && m'[k] == m[k] else k !in m'
  {
    MissingAre(m, keys, o.now);
  }

  /** What the batch finds of one key. */
  lemma FoundAfter<K, V>(o: Settings<K, V>, m: map<K, Written<V>>, keys: seq<K>, share: K -> Outcome<V>, k: K)
    requires k in keys
    ensures var found, answer := ManyFound(o, m, keys, share), PlainAnswer(m, k, o.now);
            && (k in found <==> answer.Hit? || (answer.Miss? && share(k).Found?))
            && (answer.Hit? ==> found[k] == answer.value)
            && (answer.Miss? && share(k).Found? ==> found[k] == share(k).value)
  {
    MissingAre(m, keys, o.now);
  }

  /** A key loaded on its own after a batch is answered as before it, or as in it. */
  lemma LoadAfter<K(!new), V>(
      o: Settings<K, V>, m: map<K, Written<V>>, keys: seq<K>, one: K -> Outcome<V>, k: K)
    requires Sound(o) && (one(k).Found? || one(k).NotFound?)
    ensures var m' := ManyEntries(o, m, keys, one);
            var out := LoadOne(o, m', k, one(k));
            && out.outcome == (match PlainAnswer(m, k, o.now)
                               case Hit(v) => Found(v)
                               case Negative => NotFound
                               case Miss => one(k))
            && (k in keys ==> out.entries == m')
  {
    EntryAfter(o, m, keys, one, k);
    var m' := ManyEntries(o, m, keys, one);
    assert k !in m' ==> Looked(m', k, o.now) == m';
  }

  lemma OneMore<K(!new), V>(
      o: Settings<K, V>, m: map<K, Written<V>>, keys: seq<K>, one: K -> Outcome<V>, k: K)
    requires Sound(o) && (one(k).Found? || one(k).NotFound?)
    ensures LoadOne(o, ManyEntries(o, m, keys, one), k, one(k)).entries == ManyEntries(o, m, keys + [k], one)
  {
    var m' := LoadOne(o, ManyEntries(o, m, keys, one), k, one(k)).entries;
    var m'' := ManyEntries(o, m, keys + [k], one);
    EntryAfter(o, m, keys, one, k);
    forall x ensures x in m' <==> x in m''
             ensures x in m' ==> m'[x] == m''[x] {
      EntryAfter(o, m, keys, one, x);
      EntryAfter(o, m, keys + [k], one, x);
    }
  }

  lemma {:induction false} EntriesOneByOne<K(!new), V>(
      o: Settings<K, V>, m: map<K, Written<V>>, keys: seq<K>, one: K -> Outcome<V>)
    requires Sound(o) && forall k :: one(k).Found? || one(k).NotFound?
    ensures LoadEach(o, m, keys, one) == ManyEntries(o, m, keys, one)
  {
    if keys == [] {
    } else {
      var front, k := keys[..|keys| - 1], keys[|keys| - 1];
      EntriesOneByOne(o, m, front, one);
      OneMore(o, m, front, one, k);
      assert front + [k] == keys;
    }
  }

  /** Loading keys in a batch and loading them one by one leave the same entries, and
      find the same: a key's own load answers with a value just when the batch's
      result has it, and with that value. */
  lemma BatchIsOneByOne<K(!new), V>(
      o: Settings<K, V>, m: map<K, Written<V>>, keys: seq<K>, one: K -> Outcome<V>)
    requires Sound(o) && forall k :: one(k).Found? || one(k).NotFound?
    ensures LoadEach(o, m, keys, one) == ManyEntries(o, m, keys, one)
    ensures forall i :: 0 <= i < |keys| ==>
              var answer := LoadOne(o, LoadEach(o, m, keys[..i], one), keys[i], one(keys[i])).outcome;
              var found := ManyFound(o, m, keys, one);
              (answer.Found? <==> keys[i] in found) && (answer.Found? ==> found[keys[i]] == answer.value)
  {
    EntriesOneByOne(o, m, keys, one);
    forall i | 0 <= i < |keys|
      ensures var answer := LoadOne(o, LoadEach(o, m, keys[..i], one), keys[i], one(keys[i])).outcome;
              var found := ManyFound(o, m, keys, one);
              (answer.Found? <==> keys[i] in found) && (answer.Found? ==> found[keys[i]] == answer.value)
    {
      EntriesOneByOne(o, m, keys[..i], one);
      LoadAfter(o, m, keys[..i], one, keys[i]);
      FoundAfter(o, m, keys, one, keys[i]);
    }
  }

  /** On an error other than ErrNotFound, or a panic, the batch finds what was cached
      and stores nothing; on one that wraps ErrNotFound it finds as much, but stores
      that the missing keys do not exist. */
  lemma FailedBatch<K, V>(o: Settings<K, V>, m: map<K, Written<V>>, keys: seq<K>, answer: BatchAnswer<K, V>)
    requires !answer.Values?
    ensures var share := Sharing(answer);
            && ManyFound(o, m, keys, share) == Hits(m, keys, o.now)
            && (!answer.NotFoundError? ==> ManyEntries(o, m, keys, share) == AfterLookups(m, keys, o.now))
            && (answer.NotFoundError? && o.negatives ==>
                  forall k :: k in keys && PlainAnswer(m, k, o.now).Miss? ==>
                    var m' := ManyEntries(o, m, keys, share); k in m' && m'[k].negative)
  {
    var share := Sharing(answer);
    MissingAre(m, keys, o.now);
    NothingGained(Missing(m, keys, o.now), answer);
    if !answer.NotFoundError? {
      assert Kept(o, Missing(m, keys, o.now), share) == map[];
    }
  }

  // What callers get, told from what the loader gave

  /** The entries answer k so until the entry expires; a time of zero is never. */
  ghost predicate ReadsAs<K(!new), V(!new)>(m: map<K, Written<V>>, k: K, answer: Answer<V>, expiresAt: int) {
    forall t: int :: PlainAnswer(m, k, t) == if expiresAt != 0 && t >= expiresAt then Miss else answer
  }

  /** That k does not exist is remembered, if that is to be. */
  ghost predicate AbsenceKept<K(!new), V(!new)>(o: Settings<K, V>, m: map<K, Written<V>>, k: K) {
    if o.negatives then ReadsAs(m, k, Negative, o.negativeExpires(k)) else k !in m
  }

  /** What one key's load came to has been stored. */
  ghost predicate LoadKept<K(!new), V(!new)>(o: Settings<K, V>, m: map<K, Written<V>>, k: K, load: Outcome<V>) {
    match load
    case Found(v) => ReadsAs(m, k, Hit(v), o.expires(k))
    case NotFound => AbsenceKept(o, m, k)
    case _ => k !in m
  }

  /** What a batch's loader said of k has been stored. */
  ghost predicate AnswerKept<K(!new), V(!new)>(
      o: Settings<K, V>, m: map<K, Written<V>>, k: K, answer: BatchAnswer<K, V>)
  {
    match answer
    case Values(values) => if k in values then ReadsAs(m, k, Hit(values[k]), o.expires(k)) else AbsenceKept(o, m, k)
    case NotFoundError => AbsenceKept(o, m, k)
    case _ => k !in m
  }

  /** Entries of other keys are as they were. */
  ghost predicate OthersKept<K(!new), V>(m: map<K, Written<V>>, m': map<K, Written<V>>, keys: seq<K>) {
    forall k :: k !in keys ==> (k in m <==> k in m') && (k in m ==> m'[k] == m[k])
  }

  /** Of the missing keys, in order, those before the publication that panics are
      stored, and that one if it was by then; all of them if none panics. */
  ghost predicate BatchKept<K(!new), V(!new)>(
      o: Settings<K, V>, m: map<K, Written<V>>, missing: seq<K>, answer: BatchAnswer<K, V>, publishing: Publishing)
  {
    forall i :: 0 <= i < |missing| ==>
      if publishing.Smooth? || i < publishing.at || (i == publishing.at && publishing.stored)
      then AnswerKept(o, m, missing[i], answer)
      else missing[i] !in m
  }

  /** Found are the keys that were cached, and those the loader gave a value for. */
  ghost predicate AllFound<K(!new), V>(
      m: map<K, Written<V>>, keys: seq<K>, now: int, missing: seq<K>, values: map<K, V>, found: map<K, V>)
  {
    && (forall k :: k in found <==> (k in keys && PlainAnswer(m, k, now).Hit?) || (k in missing && k in values))
    && (forall k :: k in found ==>
          if k in missing then k in values && found[k] == values[k] else Hit(found[k]) == PlainAnswer(m, k, now))
  }

  predicate Broke(publishing: Publishing, n: nat) {
    publishing.Breaks? && publishing.at < n
  }

  lemma PublishKeepsLoad<K(!new), V(!new)>(o: Settings<K, V>, m: map<K, Written<V>>, k: K, load: Outcome<V>)
    requires k !in m
    ensures LoadKept(o, Publish(o, m, k, load), k, load) && OthersKept(m, Publish(o, m, k, load), [k])
  {
  }

  lemma KeptAt<K(!new), V(!new)>(
      o: Settings<K, V>, m: map<K, Written<V>>, missing: seq<K>, n: nat, answer: BatchAnswer<K, V>, i: nat)
    requires n <= |missing| && i < |missing| && missing[i] !in m
    requires forall i, j :: 0 <= i < j < |missing| ==> missing[i] != missing[j]
    ensures var m' := m + Kept(o, missing[..n], Sharing(answer));
            if i < n then AnswerKept(o, m', missing[i], answer) else missing[i] !in m'
  {
    var k := missing[i];
    assert i < n ==> missing[..n][i] == k;
    assert k in missing[..n] ==> i < n;
  }

  lemma BatchIsKept<K(!new), V(!new)>(
      o: Settings<K, V>, m: map<K, Written<V>>, keys: seq<K>, answer: BatchAnswer<K, V>, publishing: Publishing)
    ensures var missing := Missing(m, keys, o.now);
            var m' := AfterLookups(m, keys, o.now)
                    + Kept(o, missing[..StoredCount(publishing, |missing|)], Sharing(answer));
            BatchKept(o, m', missing, answer, publishing) && OthersKept(m, m', missing)
  {
    hide AnswerKept, PlainAnswer, Missing, Keeps, EntryFor, Share, Sharing;
    MissingAre(m, keys, o.now);
    var missing, looked := Missing(m, keys, o.now), AfterLookups(m, keys, o.now);
    AfterLookupsAre(m, keys, o.now);
    var n := StoredCount(publishing, |missing|);
    forall i | 0 <= i < |missing|
      ensures if i < n then AnswerKept(o, looked + Kept(o, missing[..n], Sharing(answer)), missing[i], answer)
              else missing[i] !in looked + Kept(o, missing[..n], Sharing(answer))
    {
      KeptAt(o, looked, missing, n, answer, i);
    }
  }

  lemma AfterLookupsAre<K(!new), V>(m: map<K, Written<V>>, keys: seq<K>, now: int)
    ensures var missing, looked := Missing(m, keys, now), AfterLookups(m, keys, now);
            OthersKept(m, looked, missing) && forall k :: k in missing ==> k !in looked
  {
    MissingAre(m, keys, now);
  }

  lemma AllAreFound<K(!new), V>(
      o: Settings<K, V>, m: map<K, Written<V>>, keys: seq<K>, answer: BatchAnswer<K, V>)
    ensures var missing := Missing(m, keys, o.now);
            AllFound(m, keys, o.now, missing, if answer.Values? then answer.values else map[],
                     ManyFound(o, m, keys, Sharing(answer)))
    ensures AllFound(m, keys, o.now, Missing(m, keys, o.now), map[], Hits(m, keys, o.now))
  {
    MissingAre(m, keys, o.now);
  }

  lemma StopsOrGoesOn<K, V>(calls: seq<Call<K, V>>, waits: seq<nat>, ends: nat, i: nat)
    requires i < |waits| && InRange(calls, waits)
    ensures StopsAt(calls, waits, ends, i) ==
            if i >= ends || calls[waits[i]].outcome.Panicked? then i else StopsAt(calls, waits, ends, i + 1)
  {
  }

  lemma OneMoreResult<K, V>(calls: seq<Call<K, V>>, waits: seq<nat>, found: map<K, V>, i: nat)
    requires i < |waits| && InRange(calls, waits)
    ensures var all, call := found + Results(calls, waits[..i]), calls[waits[i]];
            found + Results(calls, waits[..i + 1]) ==
            if call.outcome.Found? then all[call.key := call.outcome.value] else all
    ensures var result, call := FirstFailure(calls, waits[..i]), calls[waits[i]];
            FirstFailure(calls, waits[..i + 1]) ==
            if result.Ok? && call.outcome.Failed? then FirstError(call.outcome.error) else result
  {
    assert waits[..i + 1][..i] == waits[..i];
  }

  lemma NoResults<K, V>(calls: seq<Call<K, V>>, waits: seq<nat>)
    requires waits == []
    ensures Results(calls, waits) == map[] && FirstFailure(calls, waits) == Ok
  {
  }

  lemma NoLookups<K, V>(m: map<K, Written<V>>, now: int)
    ensures Hits(m, [], now) == map[] && Missing(m, [], now) == [] && AfterLookups(m, [], now) == m
  {
  }

  lemma LookedOneMore<K, V>(m: map<K, Written<V>>, keys: seq<K>, k: K, now: int)
    ensures var more, answer := keys + [k], PlainAnswer(m, k, now);
            && Hits(m, more, now) == (if answer.Hit? then Hits(m, keys, now)[k := answer.value] else Hits(m, keys, now))
            && AfterLookups(m, more, now) == Looked(AfterLookups(m, keys, now), k, now)
            && PlainAnswer(AfterLookups(m, keys, now), k, now) == answer
            && Missing(m, more, now) == (if answer.Miss? && k !in Missing(m, keys, now)
                                         then Missing(m, keys, now) + [k] else Missing(m, keys, now))
    ensures k in keys ==>
              && Hits(m, keys + [k], now) == Hits(m, keys, now)
              && AfterLookups(m, keys + [k], now) == AfterLookups(m, keys, now)
              && Missing(m, keys + [k], now) == Missing(m, keys, now)
    ensures k in Hits(m, keys, now) <==> k in keys && PlainAnswer(m, k, now).Hit?
  {
    hide Hits, AfterLookups, Missing, Looked, PlainAnswer;
    HitsOneMore(m, keys, k, now);
    AfterLookupsOneMore(m, keys, k, now);
    MissingOneMore(m, keys, k, now);
  }

  lemma HitsOneMore<K, V>(m: map<K, Written<V>>, keys: seq<K>, k: K, now: int)
    ensures var hits, answer := Hits(m, keys, now), PlainAnswer(m, k, now);
            Hits(m, keys + [k], now) == if answer.Hit? then hits[k := answer.value] else hits
    ensures k in keys ==> Hits(m, keys + [k], now) == Hits(m, keys, now)
    ensures k in Hits(m, keys, now) <==> k in keys && PlainAnswer(m, k, now).Hit?
  {
    hide PlainAnswer;
  }

  lemma AfterLookupsOneMore<K, V>(m: map<K, Written<V>>, keys: seq<K>, k: K, now: int)
    ensures AfterLookups(m, keys + [k], now) == Looked(AfterLookups(m, keys, now), k, now)
    ensures PlainAnswer(AfterLookups(m, keys, now), k, now) == PlainAnswer(m, k, now)
    ensures k in keys ==> AfterLookups(m, keys + [k], now) == AfterLookups(m, keys, now)
  {
  }

  lemma MissingOneMore<K, V>(m: map<K, Written<V>>, keys: seq<K>, k: K, now: int)
    ensures var missing := Missing(m, keys, now);
            Missing(m, keys + [k], now) ==
            if PlainAnswer(m, k, now).Miss? && k !in missing then missing + [k] else missing
    ensures k in keys ==> Missing(m, keys + [k], now) == Missing(m, keys, now)
  {
    hide PlainAnswer;
    assert (keys + [k])[..|keys|] == keys;
    MissingAre(m, keys, now);
  }

  lemma KeptOneMore<K, V>(o: Settings<K, V>, m: map<K, Written<V>>, keys: seq<K>, share: K -> Outcome<V>, k: K)
    ensures Publish(o, m + Kept(o, keys, share), k, share(k)) == m + Kept(o, keys + [k], share)
  {
  }

  lemma NothingGained<K, V>(keys: seq<K>, answer: BatchAnswer<K, V>)
    requires !answer.Values?
    ensures Gained(keys, Sharing(answer)) == map[]
  {
  }

  /** A wait stops at the first call that is not waited for any longer or has panicked. */
  lemma {:induction false} StopsAtFirst<K, V>(calls: seq<Call<K, V>>, waits: seq<nat>, ends: nat, i: nat)
    requires i <= |waits| && InRange(calls, waits)
    ensures var stop := StopsAt(calls, waits, ends, i);
            && (forall j :: i <= j < stop ==> j < ends && !calls[waits[j]].outcome.Panicked?)
            && (stop < |waits| ==> stop >= ends || calls[waits[stop]].outcome.Panicked?)
            && Spent(stop, |waits|, ends) == if stop < |waits| && stop < ends then stop + 1 else stop
    decreases |waits| - i
  {
    if !(i == |waits| || i >= ends || calls[waits[i]].outcome.Panicked?) {
      StopsAtFirst(calls, waits, ends, i + 1);
    }
  }

  /** The failure reported is the first in the order of the calls. */
  lemma {:induction false} FirstFailureIsFirst<K, V>(calls: seq<Call<K, V>>, waits: seq<nat>, i: nat)
    requires InRange(calls, waits) && i < |waits| && calls[waits[i]].outcome.Failed?
    requires forall j :: 0 <= j < i ==> !calls[waits[j]].outcome.Failed?
    ensures FirstFailure(calls, waits) == FirstError(calls[waits[i]].outcome.error)
  {
    if i == |waits| - 1 {
      NoFailure(calls, waits[..i]);
    } else {
      FirstFailureIsFirst(calls, waits[..|waits| - 1], i);
    }
  }

  lemma {:induction false} NoFailure<K, V>(calls: seq<Call<K, V>>, waits: seq<nat>)
    requires InRange(calls, waits) && forall j :: 0 <= j < |waits| ==> !calls[waits[j]].outcome.Failed?
    ensures FirstFailure(calls, waits) == Ok
  {
    if waits != [] {
      NoFailure(calls, waits[..|waits| - 1]);
    }
  }

  /** The results of calls of different keys are the values of those that found one. */
  lemma {:induction false} ResultsAreFound<K, V>(calls: seq<Call<K, V>>, waits: seq<nat>, k: K)
    requires InRange(calls, waits)
    requires forall i, j :: 0 <= i < j < |waits| ==> calls[waits[i]].key != calls[waits[j]].key
    ensures k in Results(calls, waits) <==>
            exists i :: 0 <= i < |waits| && calls[waits[i]].key == k && calls[waits[i]].outcome.Found?
    ensures forall i :: 0 <= i < |waits| && calls[waits[i]].key == k && calls[waits[i]].outcome.Found? ==>
              k in Results(calls, waits) && Results(calls, waits)[k] == calls[waits[i]].outcome.value
  {
    if waits != [] {
      var front := waits[..|waits| - 1];
      ResultsAreFound(calls, front, k);
      assert forall i :: 0 <= i < |front| ==> front[i] == waits[i];
    }
  }

  // The loops

  datatype Result = Ok | FirstError(error: nat) | CtxEnded | Raised

  /** How publishing a batch's shares goes: Cost or OnEvict may panic at one of them,
      before it is stored or after. */
  datatype Publishing = Smooth | Breaks(at: nat, stored: bool)

  /** How many of n shares are stored. */
  function StoredCount(publishing: Publishing, n: nat): (i: nat)
    ensures i <= n
  {
    match publishing
    case Smooth => n
    case Breaks(at, stored) => if at >= n then n else if stored then at + 1 else at
  }

  /** The answer as the waiters see it: a panic on the way is every key's. */
  function Outward<K, V>(answer: BatchAnswer<K, V>, publishing: Publishing, n: nat): BatchAnswer<K, V> {
    if publishing.Breaks? && publishing.at < n then Panic else answer
  }

  /** How a batch with nobody else about ends for its maker. */
  function Verdict<K, V>(answer: BatchAnswer<K, V>, keys: seq<K>): Result {
    if keys == [] then Ok
    else match answer
      case Values(_) => Ok
      case NotFoundError => Ok
      case Error(e) => FirstError(e)
      case Panic => Raised
  }

  ghost predicate InRange<T>(q: seq<T>, at: seq<nat>) {
    forall j :: 0 <= j < |at| ==> at[j] < |q|
  }

  /** Where a wait for calls stops, if the context ends once ends of them are done. */
  function StopsAt<K, V>(calls: seq<Call<K, V>>, waits: seq<nat>, ends: nat, i: nat): (stop: nat)
    requires i <= |waits| && InRange(calls, waits)
    ensures i <= stop <= |waits|
    decreases |waits| - i
  {
    if i == |waits| || i >= ends || calls[waits[i]].outcome.Panicked? then i
    else StopsAt(calls, waits, ends, i + 1)
  }

  /** From where the calls have to be given back. */
  function Spent(stop: nat, n: nat, ends: nat): (i: nat)
    requires stop <= n
    ensures stop <= i <= n
  {
    if stop < n && stop < ends then stop + 1 else stop
  }

  /** The first failure among the calls waited for, in their order. */
  function FirstFailure<K, V>(calls: seq<Call<K, V>>, waits: seq<nat>): Result
    requires InRange(calls, waits)
  {
    if waits == [] then Ok
    else
      var before, last := FirstFailure(calls, waits[..|waits| - 1]), calls[waits[|waits| - 1]].outcome;
      if before.Ok? && last.Failed? then FirstError(last.error) else before
  }

  function Results<K(==), V>(calls: seq<Call<K, V>>, waits: seq<nat>): map<K, V>
    requires InRange(calls, waits)
  {
    if waits == [] then map[]
    else
      var before, last := Results(calls, waits[..|waits| - 1]), calls[waits[|waits| - 1]];
      if last.outcome.Found? then before[last.key := last.outcome.value] else before
  }
}
