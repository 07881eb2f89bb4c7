/**
 Single flight with invalidation, as a state machine. It follows one storage key of
 one shard through any number of flight groups, the cache's and those of views of
 the key, each with its own mutex and its own place for a call. A step is one
 critical section of the shard's lock; a group's mutex is held over several of
 them. Other keys appear only as evictions, and clearing the shard does to this key
 what deleting it does.

 The source has a version, the clock, which goes up whenever the source changes and
 whenever the key is written, deleted or cleared, so that a read of the source comes
 after an invalidation exactly when it sees a version from then on.
 */
module Flights {
  import opened Maybe

  /** What a group reads: a view its own type of value, the cache any. */
  datatype Kind = AnyType | Only(ty: nat)

  /** Where a value came from: a write that made the version at, or a load that
      read that version. */
  datatype Origin = Written(at: nat) | Loaded(at: nat)

  /** The key's entry. A stale one has expired, if not yet by every clock. */
  datatype Entry = Entry(id: nat, origin: Origin, negative: bool, ty: nat, stale: bool)

  datatype Answer = Answer(origin: Origin, negative: bool) | Failure | Panic

  datatype Holder = ByCaller(p: nat) | ByCall(c: nat)

  /** A load token: begun at a version, valid until its key is written or deleted,
      and ended once by whoever holds it then. */
  datatype Token = Token(begun: nat, valid: bool, ended: bool, holder: Holder)

  datatype Phase =
    | Loading              // the loader has not read the source
    | HasRead(at: nat)     // it has, and saw version at
    | Returned(a: Answer)  // its result has been offered to the shard
    | Dropped(a: Answer)   // the call is out of the group's map
    | Done(a: Answer)      // the waiters can see the result
    | Ended(a: Answer)     // the token is out of the registry

  datatype Call = Call(group: nat, token: nat, refresh: bool, waiters: int, phase: Phase,
                       cancelled: bool, canceller: Option<nat>)

  /** A caller of GetOrLoad, or a refresh on its way to starting its load. Need is
      the version the last invalidation had left when the caller came. */
  datatype Caller =
    | Arrived(group: nat, need: nat)
    | Missed(group: nat, need: nat)
    | Beginning(group: nat, need: nat, refresh: bool)           // holds the mutex; found no load to join
    | Rechecking(group: nat, need: nat, t: nat)                 // holds the mutex and a token
    | Registering(group: nat, need: nat, t: nat, refresh: bool) // holds the mutex and a token
    | Ending(group: nat, need: nat, t: nat, a: Answer)          // holds the mutex and a token
    | Waiting(group: nat, need: nat, c: nat)
    | Left(c: nat, last: bool)                                  // gave up; the last one still has to cancel
    | Gone
    | Returned(need: nat, a: Answer, via: Option<nat>)

  datatype State = State(
    clock: nat,
    floor: nat,                // the clock as the last write, delete or clear left it
    published: nat,            // the version the last publication had read
    nextId: nat,
    entry: Option<Entry>,
    tokens: map<nat, Token>,
    registry: set<nat>,        // the shard's loads of the key
    calls: map<nat, Call>,
    flights: map<nat, nat>,    // each group's call of the key
    locks: map<nat, nat>,      // who holds each group's mutex
    callers: map<nat, Caller>)

  datatype Step =
    // the world
    | SourceChanges
    | Forget                               // Delete or Clear
    | Write(negative: bool, ty: nat)       // Set or SetNegative
    | Evict
    | Expire
    | DropStale(id: nat)                   // a sweep, or a lookup's second lock
    // a caller
    | Arrive(p: nat, g: nat)
    | LookupHits(p: nat)
    | LookupMisses(p: nat)
    | Join(p: nat)
    | Lock(p: nat)
    | LockToRefresh(p: nat, g: nat)
    | Begin(p: nat, t: nat)
    | RecheckHits(p: nat)
    | RecheckMisses(p: nat)
    | EndAndUnlock(p: nat)
    | Register(p: nat, c: nat)
    | Receive(p: nat)
    | GiveUp(p: nat)
    | Cancel(p: nat)
    // a call
    | ReadSource(c: nat)
    | Publish(c: nat, negative: bool, ty: nat, stores: bool, panics: bool)
    | Fail(c: nat, panics: bool)
    | Finish(c: nat)
    | Close(c: nat)
    | End(c: nat)

  function Init(): State {
    State(0, 0, 0, 0, None, map[], {}, map[], map[], map[], map[])
  }

  predicate CanRead(k: Kind, negative: bool, ty: nat) {
    negative || k == AnyType || k == Only(ty)
  }

  predicate Reads(k: Kind, e: Entry) {
    CanRead(k, e.negative, e.ty)
  }

  /** The group finds an answer in the cache, by every clock. */
  predicate Answers(kinds: nat -> Kind, s: State, g: nat) {
    s.entry.Some? && !s.entry.value.stale && Reads(kinds(g), s.entry.value)
  }

  function AnswerOf(e: Entry): Answer {
    Answer(e.origin, e.negative)
  }

  predicate TokenValid(s: State, t: nat) {
    t in s.tokens && s.tokens[t].valid
  }

  /** The call a caller can join: the group's, unless it has been invalidated. */
  predicate Running(s: State, g: nat) {
    g in s.flights && s.flights[g] in s.calls && TokenValid(s, s.calls[s.flights[g]].token)
  }

  /** Every load of the key in progress is invalidated. */
  function Invalidated(s: State): State {
    s.(registry := {},
       tokens := map t | t in s.tokens :: if t in s.registry then s.tokens[t].(valid := false) else s.tokens[t])
  }

  /** The entry is stored, and the key's loads in progress invalidated. */
  function Store(s: State, origin: Origin, negative: bool, ty: nat): State {
    var e := Entry(s.nextId, origin, negative, ty, false);
    Invalidated(s).(entry := Some(e), nextId := s.nextId + 1)
  }

  predicate Free(s: State, g: nat) {
    g !in s.locks
  }

  /** A call whose result has not been offered yet. */
  predicate InProgress(call: Call) {
    call.phase.Loading? || call.phase.HasRead?
  }

  // The steps in groups: the world's, a caller's on its own, a caller's around or
  // under its group's mutex, those that hand something over, and a call's

  predicate IsWorld(step: Step) {
    step.SourceChanges? || step.Forget? || step.Write? || step.Evict? || step.Expire? || step.DropStale?
  }

  predicate IsPassing(step: Step) {
    step.Arrive? || step.LookupHits? || step.LookupMisses? || step.Receive? || step.Cancel? || step.Join?
  }

  predicate IsLocking(step: Step) {
    || step.Lock? || step.LockToRefresh? || step.Begin? || step.RecheckHits? || step.RecheckMisses?
    || step.EndAndUnlock?
  }

  predicate IsHanding(step: Step) {
    step.Register? || step.GiveUp? || step.Publish?
  }

  predicate IsCall(step: Step) {
    step.ReadSource? || step.Fail? || step.Finish? || step.Close? || step.End?
  }

  predicate WorldEnabled(kinds: nat -> Kind, s: State, step: Step)
    requires IsWorld(step)
  {
    match step
    case SourceChanges => true
    case Forget => true
    case Write(_, _) => true
    case Evict => s.entry.Some?
    case Expire => s.entry.Some?
    case DropStale(id) => s.entry.Some? && s.entry.value.stale && s.entry.value.id == id
  }

  predicate PassingEnabled(kinds: nat -> Kind, s: State, step: Step)
    requires IsPassing(step)
  {
    match step
    case Arrive(p, _) => p !in s.callers
    case LookupHits(p) =>
      p in s.callers && s.callers[p].Arrived? && s.entry.Some? && Reads(kinds(s.callers[p].group), s.entry.value)
    case LookupMisses(p) =>
      p in s.callers && s.callers[p].Arrived? && !Answers(kinds, s, s.callers[p].group)
    case Receive(p) =>
      && p in s.callers && s.callers[p].Waiting? && s.callers[p].c in s.calls
      && (s.calls[s.callers[p].c].phase.Done? || s.calls[s.callers[p].c].phase.Ended?)
    case Cancel(p) => p in s.callers && s.callers[p].Left? && s.callers[p].last && s.callers[p].c in s.calls
    case Join(p) =>
      && p in s.callers && s.callers[p].Missed?
      && Free(s, s.callers[p].group) && Running(s, s.callers[p].group)
  }

  predicate LockingEnabled(kinds: nat -> Kind, s: State, step: Step)
    requires IsLocking(step)
  {
    match step
    case Lock(p) =>
      && p in s.callers && s.callers[p].Missed?
      && Free(s, s.callers[p].group) && !Running(s, s.callers[p].group)
    case LockToRefresh(p, g) => p !in s.callers && Free(s, g) && !Running(s, g)
    case Begin(p, t) => p in s.callers && s.callers[p].Beginning? && t !in s.tokens
    case RecheckHits(p) =>
      p in s.callers && s.callers[p].Rechecking? && s.entry.Some? && Reads(kinds(s.callers[p].group), s.entry.value)
    case RecheckMisses(p) =>
      p in s.callers && s.callers[p].Rechecking? && !Answers(kinds, s, s.callers[p].group)
    case EndAndUnlock(p) => p in s.callers && s.callers[p].Ending?
  }

  predicate HandingEnabled(kinds: nat -> Kind, s: State, step: Step)
    requires IsHanding(step)
  {
    match step
    case Register(p, c) => p in s.callers && s.callers[p].Registering? && c !in s.calls
    case GiveUp(p) =>
      p in s.callers && s.callers[p].Waiting? && s.callers[p].c in s.calls && Free(s, s.callers[p].group)
    case Publish(c, negative, ty, _, _) =>
      c in s.calls && s.calls[c].phase.HasRead? && CanRead(kinds(s.calls[c].group), negative, ty)
  }

  predicate CallEnabled(kinds: nat -> Kind, s: State, step: Step)
    requires IsCall(step)
  {
    match step
    case ReadSource(c) => c in s.calls && s.calls[c].phase.Loading?
    case Fail(c, _) => c in s.calls && InProgress(s.calls[c])
    case Finish(c) => c in s.calls && s.calls[c].phase.Returned? && Free(s, s.calls[c].group)
    case Close(c) => c in s.calls && s.calls[c].phase.Dropped?
    case End(c) => c in s.calls && s.calls[c].phase.Done?
  }

  predicate Enabled(kinds: nat -> Kind, s: State, step: Step) {
    if IsWorld(step) then WorldEnabled(kinds, s, step)
    else if IsPassing(step) then PassingEnabled(kinds, s, step)
    else if IsLocking(step) then LockingEnabled(kinds, s, step)
    else if IsHanding(step) then HandingEnabled(kinds, s, step)
    else CallEnabled(kinds, s, step)
  }

  function Without(m: map<nat, nat>, k: nat): map<nat, nat> {
    map x | x in m && x != k :: m[x]
  }

  /** drop: the group's call is taken out unless a newer one has replaced it. */
  function Drop(s: State, g: nat, c: nat): map<nat, nat> {
    if g in s.flights && s.flights[g] == c then Without(s.flights, g) else s.flights
  }

  function SetCaller(s: State, p: nat, q: Caller): State {
    s.(callers := s.callers[p := q])
  }

  function SetCall(s: State, c: nat, call: Call): State {
    s.(calls := s.calls[c := call])
  }

  function EndToken(s: State, t: nat): State {
    s.(registry := s.registry - {t},
       tokens := if t in s.tokens then s.tokens[t := s.tokens[t].(ended := true)] else s.tokens)
  }

  function WorldNext(kinds: nat -> Kind, s: State, step: Step): State
    requires IsWorld(step) && WorldEnabled(kinds, s, step)
  {
    match step
    case SourceChanges => s.(clock := s.clock + 1)
    case Forget => Invalidated(s).(clock := s.clock + 1, floor := s.clock + 1, entry := None)
    case Write(negative, ty) =>
      Store(s, Written(s.clock + 1), negative, ty).(clock := s.clock + 1, floor := s.clock + 1)
    case Evict => s.(entry := None)
    case Expire => s.(entry := Some(s.entry.value.(stale := true)))
    case DropStale(_) => s.(entry := None)
  }

  function PassingNext(kinds: nat -> Kind, s: State, step: Step): State
    requires IsPassing(step) && PassingEnabled(kinds, s, step)
  {
    match step
    case Arrive(p, g) => SetCaller(s, p, Arrived(g, s.floor))
    case LookupHits(p) =>
      SetCaller(s, p, Caller.Returned(s.callers[p].need, AnswerOf(s.entry.value), None))
    case LookupMisses(p) => SetCaller(s, p, Missed(s.callers[p].group, s.callers[p].need))
    case Receive(p) =>
      var q := s.callers[p];
      SetCaller(s, p, Caller.Returned(q.need, s.calls[q.c].phase.a, Some(q.c)))
    case Cancel(p) =>
      var c := s.callers[p].c;
      SetCall(SetCaller(s, p, Gone), c, s.calls[c].(cancelled := true))
    case Join(p) =>
      var c := s.flights[s.callers[p].group];
      SetCall(SetCaller(s, p, Waiting(s.callers[p].group, s.callers[p].need, c)),
              c, s.calls[c].(waiters := s.calls[c].waiters + 1))
  }

  function LockingNext(kinds: nat -> Kind, s: State, step: Step): State
    requires IsLocking(step) && LockingEnabled(kinds, s, step)
  {
    match step
    case Lock(p) =>
      var g := s.callers[p].group;
      SetCaller(s, p, Beginning(g, s.callers[p].need, false)).(locks := s.locks[g := p])
    case LockToRefresh(p, g) =>
      SetCaller(s, p, Beginning(g, s.floor, true)).(locks := s.locks[g := p])
    case Begin(p, t) =>
      var q := s.callers[p];
      SetCaller(s, p, if q.refresh then Registering(q.group, q.need, t, true) else Rechecking(q.group, q.need, t))
      .(tokens := s.tokens[t := Token(s.clock, true, false, ByCaller(p))], registry := s.registry + {t})
    case RecheckHits(p) =>
      var q := s.callers[p];
      SetCaller(s, p, Ending(q.group, q.need, q.t, AnswerOf(s.entry.value)))
    case RecheckMisses(p) =>
      var q := s.callers[p];
      SetCaller(s, p, Registering(q.group, q.need, q.t, false))
    case EndAndUnlock(p) =>
      var q := s.callers[p];
      SetCaller(EndToken(s, q.t), p, Caller.Returned(q.need, q.a, None))
      .(locks := Without(s.locks, q.group))
  }

  function HandingNext(kinds: nat -> Kind, s: State, step: Step): State
    requires IsHanding(step) && HandingEnabled(kinds, s, step)
  {
    match step
    case Register(p, c) =>
      var q := s.callers[p];
      SetCall(SetCaller(s, p, if q.refresh then Gone else Waiting(q.group, q.need, c)),
              c, Call(q.group, q.t, q.refresh, 1, Loading, false, None))
      .(flights := s.flights[q.group := c], locks := Without(s.locks, q.group),
        tokens := if q.t in s.tokens then s.tokens[q.t := s.tokens[q.t].(holder := ByCall(c))] else s.tokens)
    case GiveUp(p) =>
      var q := s.callers[p];
      var call := s.calls[q.c];
      var last := call.waiters == 1;
      SetCall(SetCaller(s, p, Left(q.c, last)), q.c,
              call.(waiters := call.waiters - 1, canceller := if last then Some(p) else call.canceller))
      .(flights := if last then Drop(s, call.group, q.c) else s.flights)
    case Publish(c, negative, ty, stores, panics) =>
      var at := s.calls[c].phase.at;
      var a := if panics then Panic else Answer(Loaded(at), negative);
      var s' := if stores && TokenValid(s, s.calls[c].token)
                then Store(s, Loaded(at), negative, ty).(published := at) else s;
      SetCall(s', c, s.calls[c].(phase := Phase.Returned(a)))
  }

  function CallNext(kinds: nat -> Kind, s: State, step: Step): State
    requires IsCall(step) && CallEnabled(kinds, s, step)
  {
    match step
    case ReadSource(c) => SetCall(s, c, s.calls[c].(phase := HasRead(s.clock)))
    case Fail(c, panics) =>
      SetCall(s, c, s.calls[c].(phase := Phase.Returned(if panics then Panic else Failure)))
    case Finish(c) =>
      SetCall(s.(flights := Drop(s, s.calls[c].group, c)), c, s.calls[c].(phase := Dropped(s.calls[c].phase.a)))
    case Close(c) => SetCall(s, c, s.calls[c].(phase := Done(s.calls[c].phase.a)))
    case End(c) =>
      SetCall(EndToken(s, s.calls[c].token), c, s.calls[c].(phase := Ended(s.calls[c].phase.a)))
  }

  function Next(kinds: nat -> Kind, s: State, step: Step): State
    requires Enabled(kinds, s, step)
  {
    if IsWorld(step) then WorldNext(kinds, s, step)
    else if IsPassing(step) then PassingNext(kinds, s, step)
    else if IsLocking(step) then LockingNext(kinds, s, step)
    else if IsHanding(step) then HandingNext(kinds, s, step)
    else CallNext(kinds, s, step)
  }
}
