/**
 What every step of the single-flight machine keeps.
 */
module FlightInvariants {
  import opened Flights
  import opened Maybe

  // Tokens

  /** The registry holds exactly the tokens begun, neither invalidated nor ended, and
      all of them began after the last invalidation and the last publication. */
  ghost predicate TokensOk(s: State) {
    && s.floor <= s.clock && s.published <= s.clock
    && (forall t :: t in s.registry ==> t in s.tokens)
    && (forall t :: t in s.tokens ==> (t in s.registry <==> s.tokens[t].valid && !s.tokens[t].ended))
    && (forall t :: t in s.tokens ==> s.tokens[t].begun <= s.clock)
    && (forall t :: t in s.registry ==> s.tokens[t].begun >= s.floor && s.tokens[t].begun >= s.published)
  }

  predicate Carries(q: Caller, t: nat) {
    (q.Rechecking? || q.Registering? || q.Ending?) && q.t == t
  }

  /** Every token that has not ended has one holder, who will end it. */
  ghost predicate HoldersOk(s: State) {
    && (forall p, t :: p in s.callers && Carries(s.callers[p], t) ==>
          t in s.tokens && !s.tokens[t].ended && s.tokens[t].holder == ByCaller(p))
    && (forall c :: c in s.calls ==>
          && s.calls[c].token in s.tokens
          && s.tokens[s.calls[c].token].holder == ByCall(c)
          && (s.tokens[s.calls[c].token].ended <==> s.calls[c].phase.Ended?))
    && (forall t :: t in s.tokens && !s.tokens[t].ended ==> Held(s, t, s.tokens[t].holder))
  }

  ghost predicate Held(s: State, t: nat, holder: Holder) {
    match holder
    case ByCaller(p) => p in s.callers && Carries(s.callers[p], t)
    case ByCall(c) => c in s.calls && s.calls[c].token == t
  }

  // Mutexes

  predicate Holds(q: Caller, g: nat) {
    (q.Beginning? || q.Rechecking? || q.Registering? || q.Ending?) && q.group == g
  }

  ghost predicate LocksOk(s: State) {
    && (forall p, g :: p in s.callers && Holds(s.callers[p], g) ==> g in s.locks && s.locks[g] == p)
    && (forall g :: g in s.locks ==> s.locks[g] in s.callers && Holds(s.callers[s.locks[g]], g))
  }

  // Versions

  predicate AnswerSince(a: Answer, version: nat) {
    a.Answer? ==> a.origin.at >= version
  }

  /** What a call has seen is from its token's beginning on. */
  ghost predicate Saw(begun: nat, clock: nat, phase: Phase) {
    match phase
    case Loading => true
    case HasRead(at) => begun <= at <= clock
    case Returned(a) => AnswerSince(a, begun)
    case Dropped(a) => AnswerSince(a, begun)
    case Done(a) => AnswerSince(a, begun)
    case Ended(a) => AnswerSince(a, begun)
  }

  ghost predicate CallsOk(s: State) {
    forall c :: c in s.calls ==>
      s.calls[c].token in s.tokens && Saw(s.tokens[s.calls[c].token].begun, s.clock, s.calls[c].phase)
  }

  /** What a caller waits for or has in hand is no older than it needs. */
  ghost predicate CallerOk(s: State, q: Caller) {
    match q
    case Arrived(_, need) => need <= s.floor
    case Missed(_, need) => need <= s.floor
    case Beginning(_, need, _) => need <= s.floor
    case Rechecking(_, need, t) => need <= s.floor && t in s.tokens && s.tokens[t].begun >= need
    case Registering(_, need, t, _) => need <= s.floor && t in s.tokens && s.tokens[t].begun >= need
    case Ending(_, need, _, a) => AnswerSince(a, need)
    case Waiting(g, need, c) =>
      && c in s.calls && s.calls[c].group == g
      && s.calls[c].token in s.tokens && s.tokens[s.calls[c].token].begun >= need
    case Left(c, _) => c in s.calls
    case Gone => true
    case Returned(need, a, _) => AnswerSince(a, need)
  }

  ghost predicate VersionsOk(s: State) {
    && (s.entry.Some? ==> s.entry.value.origin.at >= s.floor)
    && (forall p :: p in s.callers ==> CallerOk(s, s.callers[p]))
  }

  // Calls and their waiters

  predicate Unfinished(call: Call) {
    InProgress(call) || call.phase.Returned?
  }

  predicate Flying(call: Call, g: nat) {
    call.group == g && Unfinished(call) && !call.cancelled && call.waiters > 0
  }

  /** A call in the map is unfinished, uncancelled and waited for; one without
      waiters is being cancelled by the last that left. */
  ghost predicate FlightsOk(s: State) {
    && (forall g :: g in s.flights ==> s.flights[g] in s.calls && Flying(s.calls[s.flights[g]], g))
    && (forall c :: c in s.calls ==>
          && s.calls[c].waiters >= 0
          && (s.calls[c].waiters == 0 <==> s.calls[c].canceller.Some?)
          && (s.calls[c].cancelled ==> s.calls[c].waiters == 0))
    && (forall c :: c in s.calls && s.calls[c].canceller.Some? && !s.calls[c].cancelled ==>
          s.calls[c].canceller.value in s.callers && s.callers[s.calls[c].canceller.value] == Left(c, true))
    && (forall p :: p in s.callers && s.callers[p].Left? && s.callers[p].last && s.callers[p].c in s.calls ==>
          s.calls[s.callers[p].c].canceller == Some(p))
  }

  /** Callers that joined a call and have not given up. */
  ghost function Staying(s: State, c: nat): set<nat> {
    set p | p in s.callers && StaysWith(s.callers[p], c)
  }

  predicate StaysWith(q: Caller, c: nat) {
    (q.Waiting? && q.c == c) || (q.Returned? && q.via == Some(c))
  }

  ghost predicate WaitersOk(s: State) {
    && (forall c :: c in s.calls ==> s.calls[c].waiters == |Staying(s, c)| + if s.calls[c].refresh then 1 else 0)
    && (forall p, c :: p in s.callers && StaysWith(s.callers[p], c) ==> c in s.calls)
  }

  // One flight at a time

  predicate Joinable(s: State, call: Call) {
    Unfinished(call) && TokenValid(s, call.token) && call.waiters > 0
  }

  /** A call that can still publish and is still waited for is its group's. */
  ghost predicate SingleOk(s: State) {
    && (forall c :: c in s.calls && Joinable(s, s.calls[c]) ==>
          s.calls[c].group in s.flights && s.flights[s.calls[c].group] == c)
    && (forall p, g :: p in s.callers && Holds(s.callers[p], g) ==> !Running(s, g))
  }

  ghost predicate Inv(s: State) {
    && TokensOk(s) && HoldersOk(s) && LocksOk(s) && CallsOk(s) && VersionsOk(s)
    && FlightsOk(s) && WaitersOk(s) && SingleOk(s)
  }

  lemma TokensKeptByWorld(kinds: nat -> Kind, s: State, step: Step)
    requires TokensOk(s)
    requires IsWorld(step) && WorldEnabled(kinds, s, step)
    ensures TokensOk(WorldNext(kinds, s, step))
  {
  }

  lemma TokensKeptByPassing(kinds: nat -> Kind, s: State, step: Step)
    requires TokensOk(s)
    requires IsPassing(step) && PassingEnabled(kinds, s, step)
    ensures TokensOk(PassingNext(kinds, s, step))
  {
  }

  lemma TokensKeptByLocking(kinds: nat -> Kind, s: State, step: Step)
    requires TokensOk(s)
    requires IsLocking(step) && LockingEnabled(kinds, s, step)
    ensures TokensOk(LockingNext(kinds, s, step))
  {
  }

  lemma TokensKeptByRegister(kinds: nat -> Kind, s: State, p: nat, c: nat)
    requires TokensOk(s)
    requires HandingEnabled(kinds, s, Register(p, c))
    ensures TokensOk(HandingNext(kinds, s, Register(p, c)))
  {
  }

  lemma TokensKeptByGiveUp(kinds: nat -> Kind, s: State, p: nat)
    requires TokensOk(s)
    requires HandingEnabled(kinds, s, GiveUp(p))
    ensures TokensOk(HandingNext(kinds, s, GiveUp(p)))
  {
  }

  lemma TokensKeptByPublish(kinds: nat -> Kind, s: State, c: nat, negative: bool, ty: nat, stores: bool, panics: bool)
    requires TokensOk(s) && CallsOk(s)
    requires HandingEnabled(kinds, s, Publish(c, negative, ty, stores, panics))
    ensures TokensOk(HandingNext(kinds, s, Publish(c, negative, ty, stores, panics)))
  {
  }

  lemma TokensKeptByCall(kinds: nat -> Kind, s: State, step: Step)
    requires TokensOk(s)
    requires IsCall(step) && CallEnabled(kinds, s, step)
    ensures TokensOk(CallNext(kinds, s, step))
  {
  }

  predicate SameHolder(t: Token, t': Token) {
    t.ended == t'.ended && t.holder == t'.holder
  }

  predicate SameLoad(c: Call, c': Call) {
    c.token == c'.token && (c.phase.Ended? <==> c'.phase.Ended?)
  }

  /** Callers carry and calls hold what they did, whatever else they do. */
  ghost predicate HeldAlike(s: State, s': State) {
    && s.tokens.Keys == s'.tokens.Keys && s.calls.Keys == s'.calls.Keys
    && (forall t :: t in s.tokens ==> SameHolder(s.tokens[t], s'.tokens[t]))
    && (forall c :: c in s.calls ==> SameLoad(s.calls[c], s'.calls[c]))
    && (forall p, t :: p in s'.callers && Carries(s'.callers[p], t) ==> p in s.callers && Carries(s.callers[p], t))
    && (forall p, t :: p in s.callers && Carries(s.callers[p], t) ==> p in s'.callers && Carries(s'.callers[p], t))
  }

  lemma HoldersCarry(s: State, s': State)
    requires HoldersOk(s) && HeldAlike(s, s')
    ensures HoldersOk(s')
  {
    forall t | t in s'.tokens && !s'.tokens[t].ended ensures Held(s', t, s'.tokens[t].holder) {
      assert SameHolder(s.tokens[t], s'.tokens[t]);
      assert Held(s, t, s.tokens[t].holder);
    }
  }

  lemma HoldersKeptByBegin(kinds: nat -> Kind, s: State, p: nat, t: nat)
    requires HoldersOk(s) && LockingEnabled(kinds, s, Begin(p, t))
    ensures HoldersOk(LockingNext(kinds, s, Begin(p, t)))
  {
    var s' := LockingNext(kinds, s, Begin(p, t));
    assert Carries(s'.callers[p], t);
    forall t' | t' in s'.tokens && !s'.tokens[t'].ended ensures Held(s', t', s'.tokens[t'].holder) {
      assert t' != t ==> Held(s, t', s.tokens[t'].holder);
    }
  }

  /** A caller ends the token it carries. */
  lemma HoldersReleased(s: State, s': State, p: nat, t: nat, q: Caller)
    requires HoldersOk(s) && p in s.callers && Carries(s.callers[p], t) && forall t' :: !Carries(q, t')
    requires s'.callers == s.callers[p := q] && s'.calls == s.calls && s'.tokens == EndToken(s, t).tokens
    ensures HoldersOk(s')
  {
    assert forall c :: c in s.calls ==> s.calls[c].token != t;
    assert forall p', t' :: p' in s.callers && p' != p && Carries(s.callers[p'], t') ==> t' != t;
    forall t' | t' in s'.tokens && !s'.tokens[t'].ended ensures Held(s', t', s'.tokens[t'].holder) {
      assert t' != t && Held(s, t', s.tokens[t'].holder);
    }
  }

  lemma HoldersKeptByUnlock(kinds: nat -> Kind, s: State, p: nat)
    requires HoldersOk(s) && LockingEnabled(kinds, s, EndAndUnlock(p))
    ensures HoldersOk(LockingNext(kinds, s, EndAndUnlock(p)))
  {
    hide HoldersOk;
    var s' := LockingNext(kinds, s, EndAndUnlock(p));
    HoldersReleased(s, s', p, s.callers[p].t, s'.callers[p]);
  }

  lemma HoldersKeptByEnd(kinds: nat -> Kind, s: State, c: nat)
    requires HoldersOk(s) && CallEnabled(kinds, s, End(c))
    ensures HoldersOk(CallNext(kinds, s, End(c)))
  {
    var t, s' := s.calls[c].token, CallNext(kinds, s, End(c));
    assert s.tokens[t].holder == ByCall(c);
    forall t' | t' in s'.tokens && !s'.tokens[t'].ended ensures Held(s', t', s'.tokens[t'].holder) {
      assert t' != t && Held(s, t', s.tokens[t'].holder);
    }
  }

  lemma HoldersKeptByWorld(kinds: nat -> Kind, s: State, step: Step)
    requires HoldersOk(s)
    requires IsWorld(step) && WorldEnabled(kinds, s, step)
    ensures HoldersOk(WorldNext(kinds, s, step))
  {
    hide HoldersOk;
    HoldersCarry(s, WorldNext(kinds, s, step));
  }

  lemma HoldersKeptByPassing(kinds: nat -> Kind, s: State, step: Step)
    requires HoldersOk(s)
    requires IsPassing(step) && PassingEnabled(kinds, s, step)
    ensures HoldersOk(PassingNext(kinds, s, step))
  {
    hide HoldersOk;
    HoldersCarry(s, PassingNext(kinds, s, step));
  }

  lemma HoldersKeptByLocking(kinds: nat -> Kind, s: State, step: Step)
    requires HoldersOk(s)
    requires IsLocking(step) && LockingEnabled(kinds, s, step)
    ensures HoldersOk(LockingNext(kinds, s, step))
  {
    if step.Begin? {
      HoldersKeptByBegin(kinds, s, step.p, step.t);
    } else if step.EndAndUnlock? {
      HoldersKeptByUnlock(kinds, s, step.p);
    } else {
      HoldersCarry(s, LockingNext(kinds, s, step));
    }
  }

  /** A caller hands the token it carries to a new call. */
  lemma HoldersHanded(s: State, s': State, p: nat, t: nat, q: Caller, c: nat, call: Call)
    requires HoldersOk(s) && p in s.callers && Carries(s.callers[p], t) && forall t' :: !Carries(q, t')
    requires c !in s.calls && call.token == t && !call.phase.Ended? && t in s.tokens
    requires s'.callers == s.callers[p := q] && s'.calls == s.calls[c := call]
    requires s'.tokens == s.tokens[t := s.tokens[t].(holder := ByCall(c))]
    ensures HoldersOk(s')
  {
    forall t' | t' in s'.tokens && !s'.tokens[t'].ended ensures Held(s', t', s'.tokens[t'].holder) {
      assert t' != t ==> Held(s, t', s.tokens[t'].holder);
    }
  }

  lemma HoldersKeptByRegister(kinds: nat -> Kind, s: State, p: nat, c: nat)
    requires HoldersOk(s)
    requires HandingEnabled(kinds, s, Register(p, c))
    ensures HoldersOk(HandingNext(kinds, s, Register(p, c)))
  {
    var t, s' := s.callers[p].t, HandingNext(kinds, s, Register(p, c));
    assert Carries(s.callers[p], t);
    hide HoldersOk;
    HoldersHanded(s, s', p, t, s'.callers[p], c, s'.calls[c]);
  }

  lemma HoldersKeptByGiveUp(kinds: nat -> Kind, s: State, p: nat)
    requires HoldersOk(s)
    requires HandingEnabled(kinds, s, GiveUp(p))
    ensures HoldersOk(HandingNext(kinds, s, GiveUp(p)))
  {
    HoldersCarry(s, HandingNext(kinds, s, GiveUp(p)));
  }

  lemma HoldersKeptByPublish(kinds: nat -> Kind, s: State, c: nat, negative: bool, ty: nat, stores: bool, panics: bool)
    requires HoldersOk(s)
    requires HandingEnabled(kinds, s, Publish(c, negative, ty, stores, panics))
    ensures HoldersOk(HandingNext(kinds, s, Publish(c, negative, ty, stores, panics)))
  {
    var s' := HandingNext(kinds, s, Publish(c, negative, ty, stores, panics));
    assert s'.callers == s.callers && s'.calls.Keys == s.calls.Keys;
    assert s'.tokens == s.tokens || s'.tokens == Invalidated(s).tokens;
    HoldersCarry(s, s');
  }

  lemma HoldersKeptByCall(kinds: nat -> Kind, s: State, step: Step)
    requires HoldersOk(s)
    requires IsCall(step) && CallEnabled(kinds, s, step)
    ensures HoldersOk(CallNext(kinds, s, step))
  {
    if step.End? {
      HoldersKeptByEnd(kinds, s, step.c);
    } else {
      HoldersCarry(s, CallNext(kinds, s, step));
    }
  }

  lemma LocksKeptByWorld(kinds: nat -> Kind, s: State, step: Step)
    requires LocksOk(s)
    requires IsWorld(step) && WorldEnabled(kinds, s, step)
    ensures LocksOk(WorldNext(kinds, s, step))
  {
  }

  lemma LocksKeptByPassing(kinds: nat -> Kind, s: State, step: Step)
    requires LocksOk(s)
    requires IsPassing(step) && PassingEnabled(kinds, s, step)
    ensures LocksOk(PassingNext(kinds, s, step))
  {
    hide LocksOk;
    var s' := PassingNext(kinds, s, step);
    LocksKept(s, s', step.p, s'.callers[step.p]);
  }

  /** A caller takes the mutex that is free, or keeps the one it has, or lets it go. */
  lemma LocksTaken(s: State, s': State, p: nat, g: nat, q: Caller)
    requires LocksOk(s) && g !in s.locks && (p in s.callers ==> s.callers[p].Missed?) && q.Beginning? && q.group == g
    requires s'.callers == s.callers[p := q] && s'.locks == s.locks[g := p]
    ensures LocksOk(s')
  {
    assert Holds(q, g);
    forall p', g' | p' in s'.callers && Holds(s'.callers[p'], g') ensures g' in s'.locks && s'.locks[g'] == p' {
      if p' != p {
        assert Holds(s.callers[p'], g') && g' in s.locks;
      }
    }
  }

  lemma LocksKept(s: State, s': State, p: nat, q: Caller)
    requires LocksOk(s) && forall g :: (p in s.callers && Holds(s.callers[p], g)) <==> Holds(q, g)
    requires s'.callers == s.callers[p := q] && s'.locks == s.locks
    ensures LocksOk(s')
  {
    forall p', g' | p' in s'.callers && Holds(s'.callers[p'], g') ensures g' in s'.locks && s'.locks[g'] == p' {
      assert p' in s.callers && Holds(s.callers[p'], g');
    }
  }

  lemma LocksReleased(s: State, s': State, p: nat, g: nat, q: Caller)
    requires LocksOk(s) && p in s.callers && Holds(s.callers[p], g) && forall g' :: !Holds(q, g')
    requires s'.callers == s.callers[p := q] && s'.locks == Without(s.locks, g)
    ensures LocksOk(s')
  {
    forall p', g' | p' in s'.callers && Holds(s'.callers[p'], g') ensures g' in s'.locks && s'.locks[g'] == p' {
      assert p' != p && Holds(s.callers[p'], g') && s.locks[g'] == p';
    }
  }

  lemma LocksKeptByLocking(kinds: nat -> Kind, s: State, step: Step)
    requires LocksOk(s)
    requires IsLocking(step) && LockingEnabled(kinds, s, step)
    ensures LocksOk(LockingNext(kinds, s, step))
  {
    hide LocksOk;
    var p, s' := step.p, LockingNext(kinds, s, step);
    if step.Lock? || step.LockToRefresh? {
      LocksTaken(s, s', p, s'.callers[p].group, s'.callers[p]);
    } else if step.EndAndUnlock? {
      LocksReleased(s, s', p, s.callers[p].group, s'.callers[p]);
    } else {
      LocksKept(s, s', p, s'.callers[p]);
    }
  }

  lemma LocksKeptByRegister(kinds: nat -> Kind, s: State, p: nat, c: nat)
    requires LocksOk(s)
    requires HandingEnabled(kinds, s, Register(p, c))
    ensures LocksOk(HandingNext(kinds, s, Register(p, c)))
  {
    hide LocksOk;
    var s' := HandingNext(kinds, s, Register(p, c));
    LocksReleased(s, s', p, s.callers[p].group, s'.callers[p]);
  }

  lemma LocksKeptByGiveUp(kinds: nat -> Kind, s: State, p: nat)
    requires LocksOk(s)
    requires HandingEnabled(kinds, s, GiveUp(p))
    ensures LocksOk(HandingNext(kinds, s, GiveUp(p)))
  {
  }

  lemma LocksKeptByPublish(kinds: nat -> Kind, s: State, c: nat, negative: bool, ty: nat, stores: bool, panics: bool)
    requires LocksOk(s)
    requires HandingEnabled(kinds, s, Publish(c, negative, ty, stores, panics))
    ensures LocksOk(HandingNext(kinds, s, Publish(c, negative, ty, stores, panics)))
  {
  }

  lemma LocksKeptByCall(kinds: nat -> Kind, s: State, step: Step)
    requires LocksOk(s)
    requires IsCall(step) && CallEnabled(kinds, s, step)
    ensures LocksOk(CallNext(kinds, s, step))
  {
  }

  lemma CallsKeptByWorld(kinds: nat -> Kind, s: State, step: Step)
    requires CallsOk(s)
    requires IsWorld(step) && WorldEnabled(kinds, s, step)
    ensures CallsOk(WorldNext(kinds, s, step))
  {
  }

  lemma CallsKeptByPassing(kinds: nat -> Kind, s: State, step: Step)
    requires CallsOk(s)
    requires IsPassing(step) && PassingEnabled(kinds, s, step)
    ensures CallsOk(PassingNext(kinds, s, step))
  {
  }

  lemma CallsKeptByLocking(kinds: nat -> Kind, s: State, step: Step)
    requires CallsOk(s)
    requires IsLocking(step) && LockingEnabled(kinds, s, step)
    ensures CallsOk(LockingNext(kinds, s, step))
  {
  }

  lemma CallsKeptByRegister(kinds: nat -> Kind, s: State, p: nat, c: nat)
    requires CallsOk(s) && HoldersOk(s)
    requires HandingEnabled(kinds, s, Register(p, c))
    ensures CallsOk(HandingNext(kinds, s, Register(p, c)))
  {
  }

  lemma CallsKeptByGiveUp(kinds: nat -> Kind, s: State, p: nat)
    requires CallsOk(s)
    requires HandingEnabled(kinds, s, GiveUp(p))
    ensures CallsOk(HandingNext(kinds, s, GiveUp(p)))
  {
  }

  lemma CallsKeptByPublish(kinds: nat -> Kind, s: State, c: nat, negative: bool, ty: nat, stores: bool, panics: bool)
    requires CallsOk(s)
    requires HandingEnabled(kinds, s, Publish(c, negative, ty, stores, panics))
    ensures CallsOk(HandingNext(kinds, s, Publish(c, negative, ty, stores, panics)))
  {
  }

  lemma CallSaw(s: State, c: nat)
    requires TokensOk(s) && CallsOk(s) && c in s.calls
    ensures s.calls[c].token in s.tokens && s.tokens[s.calls[c].token].begun <= s.clock
    ensures Saw(s.tokens[s.calls[c].token].begun, s.clock, s.calls[c].phase)
  {
  }

  /** One call has moved on, and the tokens began when they did. */
  lemma CallsMoved(s: State, s': State, c: nat)
    requires CallsOk(s) && c in s.calls && c in s'.calls && s'.calls == s.calls[c := s'.calls[c]] && s'.clock == s.clock
    requires forall t :: t in s.tokens ==> t in s'.tokens && s'.tokens[t].begun == s.tokens[t].begun
    requires s'.calls[c].token == s.calls[c].token && s.calls[c].token in s.tokens
    requires Saw(s.tokens[s.calls[c].token].begun, s.clock, s'.calls[c].phase)
    ensures CallsOk(s')
  {
  }

  lemma CallsKeptByCall(kinds: nat -> Kind, s: State, step: Step)
    requires CallsOk(s) && TokensOk(s)
    requires IsCall(step) && CallEnabled(kinds, s, step)
    ensures CallsOk(CallNext(kinds, s, step))
  {
    hide TokensOk, CallsOk;
    CallSaw(s, step.c);
    CallsMoved(s, CallNext(kinds, s, step), step.c);
  }

  lemma VersionsKeptByWorld(kinds: nat -> Kind, s: State, step: Step)
    requires VersionsOk(s) && TokensOk(s)
    requires IsWorld(step) && WorldEnabled(kinds, s, step)
    ensures VersionsOk(WorldNext(kinds, s, step))
  {
  }

  /** What callers are held to does not get harder: versions only rise, tokens and
      calls stay what they are. */
  ghost predicate Stands(s: State, s': State) {
    && s.floor <= s'.floor && s'.entry == s.entry
    && (forall t :: t in s.tokens ==> t in s'.tokens && s'.tokens[t].begun == s.tokens[t].begun)
    && (forall c :: c in s.calls ==>
          c in s'.calls && s'.calls[c].group == s.calls[c].group && s'.calls[c].token == s.calls[c].token)
  }

  lemma StandsOk(s: State, s': State, q: Caller)
    requires Stands(s, s') && CallerOk(s, q)
    ensures CallerOk(s', q)
  {
  }

  /** One caller moves on and the others are as they were. */
  lemma VersionsMoved(s: State, s': State, p: nat, q: Caller)
    requires VersionsOk(s) && Stands(s, s') && s.floor == s'.floor && s'.callers == s.callers[p := q]
    requires CallerOk(s', q)
    ensures VersionsOk(s')
  {
    hide CallerOk;
    forall p' | p' in s'.callers ensures CallerOk(s', s'.callers[p']) {
      if p' != p {
        StandsOk(s, s', s'.callers[p']);
      }
    }
  }

  lemma JoinerOk(kinds: nat -> Kind, s: State, p: nat)
    requires VersionsOk(s) && TokensOk(s) && HoldersOk(s) && FlightsOk(s) && PassingEnabled(kinds, s, Join(p))
    ensures CallerOk(s, Waiting(s.callers[p].group, s.callers[p].need, s.flights[s.callers[p].group]))
  {
    var call := s.calls[s.flights[s.callers[p].group]];
    assert Flying(call, s.callers[p].group);
    assert call.token in s.registry;
  }

  lemma PasserOk(kinds: nat -> Kind, s: State, step: Step, p: nat)
    requires VersionsOk(s) && TokensOk(s) && CallsOk(s) && HoldersOk(s) && FlightsOk(s)
    requires IsPassing(step) && PassingEnabled(kinds, s, step) && step.p == p
    ensures var s' := PassingNext(kinds, s, step); p in s'.callers && CallerOk(s, s'.callers[p])
  {
    hide TokensOk, HoldersOk, FlightsOk;
    if step.Join? {
      hide VersionsOk, CallsOk, CallerOk;
      JoinerOk(kinds, s, p);
    } else {
      assert p in s.callers ==> CallerOk(s, s.callers[p]);
    }
  }

  lemma PassingStands(kinds: nat -> Kind, s: State, step: Step, p: nat)
    requires IsPassing(step) && PassingEnabled(kinds, s, step) && step.p == p
    ensures var s' := PassingNext(kinds, s, step);
            Stands(s, s') && s'.floor == s.floor && p in s'.callers && s'.callers == s.callers[p := s'.callers[p]]
  {
  }

  lemma VersionsKeptByPassing(kinds: nat -> Kind, s: State, step: Step)
    requires VersionsOk(s) && TokensOk(s) && CallsOk(s) && HoldersOk(s) && FlightsOk(s)
    requires IsPassing(step) && PassingEnabled(kinds, s, step)
    ensures VersionsOk(PassingNext(kinds, s, step))
  {
    hide VersionsOk, TokensOk, CallsOk, HoldersOk, FlightsOk, PassingNext, PassingEnabled, Stands, CallerOk;
    var s' := PassingNext(kinds, s, step);
    PasserOk(kinds, s, step, step.p);
    PassingStands(kinds, s, step, step.p);
    StandsOk(s, s', s'.callers[step.p]);
    VersionsMoved(s, s', step.p, s'.callers[step.p]);
  }

  lemma LockerOk(kinds: nat -> Kind, s: State, step: Step, p: nat)
    requires VersionsOk(s) && TokensOk(s)
    requires IsLocking(step) && LockingEnabled(kinds, s, step) && step.p == p
    ensures var s' := LockingNext(kinds, s, step); p in s'.callers && CallerOk(s', s'.callers[p])
  {
  }

  lemma LockingStands(kinds: nat -> Kind, s: State, step: Step, p: nat)
    requires IsLocking(step) && LockingEnabled(kinds, s, step) && step.p == p
    ensures var s' := LockingNext(kinds, s, step);
            Stands(s, s') && s'.floor == s.floor && p in s'.callers && s'.callers == s.callers[p := s'.callers[p]]
  {
  }

  lemma VersionsKeptByLocking(kinds: nat -> Kind, s: State, step: Step)
    requires VersionsOk(s) && TokensOk(s)
    requires IsLocking(step) && LockingEnabled(kinds, s, step)
    ensures VersionsOk(LockingNext(kinds, s, step))
  {
    hide VersionsOk, TokensOk, LockingNext, LockingEnabled, Stands, CallerOk;
    var s' := LockingNext(kinds, s, step);
    LockerOk(kinds, s, step, step.p);
    LockingStands(kinds, s, step, step.p);
    VersionsMoved(s, s', step.p, s'.callers[step.p]);
  }

  lemma VersionsKeptByRegister(kinds: nat -> Kind, s: State, p: nat, c: nat)
    requires VersionsOk(s)
    requires HandingEnabled(kinds, s, Register(p, c))
    ensures VersionsOk(HandingNext(kinds, s, Register(p, c)))
  {
  }

  lemma VersionsKeptByGiveUp(kinds: nat -> Kind, s: State, p: nat)
    requires VersionsOk(s)
    requires HandingEnabled(kinds, s, GiveUp(p))
    ensures VersionsOk(HandingNext(kinds, s, GiveUp(p)))
  {
  }

  lemma VersionsKeptByPublish(kinds: nat -> Kind, s: State, c: nat, negative: bool, ty: nat, stores: bool, panics: bool)
    requires VersionsOk(s) && TokensOk(s) && CallsOk(s) && HoldersOk(s)
    requires HandingEnabled(kinds, s, Publish(c, negative, ty, stores, panics))
    ensures VersionsOk(HandingNext(kinds, s, Publish(c, negative, ty, stores, panics)))
  {
  }

  lemma VersionsKeptByCall(kinds: nat -> Kind, s: State, step: Step)
    requires VersionsOk(s)
    requires IsCall(step) && CallEnabled(kinds, s, step)
    ensures VersionsOk(CallNext(kinds, s, step))
  {
  }

  lemma FlightsKeptByWorld(kinds: nat -> Kind, s: State, step: Step)
    requires FlightsOk(s)
    requires IsWorld(step) && WorldEnabled(kinds, s, step)
    ensures FlightsOk(WorldNext(kinds, s, step))
  {
  }

  lemma FlightsKeptByPassing(kinds: nat -> Kind, s: State, step: Step)
    requires FlightsOk(s)
    requires IsPassing(step) && PassingEnabled(kinds, s, step)
    ensures FlightsOk(PassingNext(kinds, s, step))
  {
  }

  lemma FlightsKeptByLocking(kinds: nat -> Kind, s: State, step: Step)
    requires FlightsOk(s)
    requires IsLocking(step) && LockingEnabled(kinds, s, step)
    ensures FlightsOk(LockingNext(kinds, s, step))
  {
  }

  lemma FlightsKeptByRegister(kinds: nat -> Kind, s: State, p: nat, c: nat)
    requires FlightsOk(s) && VersionsOk(s)
    requires HandingEnabled(kinds, s, Register(p, c))
    ensures FlightsOk(HandingNext(kinds, s, Register(p, c)))
  {
  }

  lemma FlightsKeptByGiveUp(kinds: nat -> Kind, s: State, p: nat)
    requires FlightsOk(s)
    requires HandingEnabled(kinds, s, GiveUp(p)) && s.calls[s.callers[p].c].waiters > 0
    ensures FlightsOk(HandingNext(kinds, s, GiveUp(p)))
  {
  }

  lemma FlightsKeptByPublish(kinds: nat -> Kind, s: State, c: nat, negative: bool, ty: nat, stores: bool, panics: bool)
    requires FlightsOk(s)
    requires HandingEnabled(kinds, s, Publish(c, negative, ty, stores, panics))
    ensures FlightsOk(HandingNext(kinds, s, Publish(c, negative, ty, stores, panics)))
  {
  }

  lemma FlightsKeptByFinish(kinds: nat -> Kind, s: State, c: nat)
    requires FlightsOk(s)
    requires CallEnabled(kinds, s, Finish(c))
    ensures FlightsOk(CallNext(kinds, s, Finish(c)))
  {
    var s' := CallNext(kinds, s, Finish(c));
    forall g | g in s'.flights ensures s'.flights[g] in s'.calls && Flying(s'.calls[s'.flights[g]], g) {
      assert g in s.flights && s'.flights[g] != c;
    }
  }

  /** A call has moved on, and if it was unfinished still is. */
  lemma FlightsMoved(s: State, s': State, c: nat)
    requires FlightsOk(s) && s'.flights == s.flights && s'.callers == s.callers
    requires c in s.calls && c in s'.calls && s'.calls == s.calls[c := s'.calls[c]]
    requires s'.calls[c] == s.calls[c].(phase := s'.calls[c].phase)
    requires Unfinished(s.calls[c]) ==> Unfinished(s'.calls[c])
    ensures FlightsOk(s')
  {
  }

  lemma FlightsKeptByCall(kinds: nat -> Kind, s: State, step: Step)
    requires FlightsOk(s)
    requires IsCall(step) && CallEnabled(kinds, s, step)
    ensures FlightsOk(CallNext(kinds, s, step))
  {
    hide FlightsOk;
    if step.Finish? {
      FlightsKeptByFinish(kinds, s, step.c);
    } else {
      FlightsMoved(s, CallNext(kinds, s, step), step.c);
    }
  }

  lemma SingleKeptByWorld(kinds: nat -> Kind, s: State, step: Step)
    requires SingleOk(s)
    requires IsWorld(step) && WorldEnabled(kinds, s, step)
    ensures SingleOk(WorldNext(kinds, s, step))
  {
    var s' := WorldNext(kinds, s, step);
    forall p, g | p in s'.callers && Holds(s'.callers[p], g) ensures !Running(s', g) {
      assert p in s.callers && Holds(s.callers[p], g) && !Running(s, g);
    }
  }

  lemma SingleKeptByPassing(kinds: nat -> Kind, s: State, step: Step)
    requires SingleOk(s) && FlightsOk(s)
    requires IsPassing(step) && PassingEnabled(kinds, s, step)
    ensures SingleOk(PassingNext(kinds, s, step))
  {
    var s' := PassingNext(kinds, s, step);
    forall p, g | p in s'.callers && Holds(s'.callers[p], g) ensures !Running(s', g) {
      assert p in s.callers && Holds(s.callers[p], g) && !Running(s, g);
    }
  }

  lemma SingleKeptByLocking(kinds: nat -> Kind, s: State, step: Step)
    requires SingleOk(s) && CallsOk(s) && LocksOk(s)
    requires IsLocking(step) && LockingEnabled(kinds, s, step)
    ensures SingleOk(LockingNext(kinds, s, step))
  {
    var s' := LockingNext(kinds, s, step);
    forall p, g | p in s'.callers && Holds(s'.callers[p], g) ensures !Running(s', g) {
      if p in s.callers && Holds(s.callers[p], g) {
        assert !Running(s, g) && s.locks[g] == p;
      }
    }
  }

  lemma SingleKeptByRegister(kinds: nat -> Kind, s: State, p: nat, c: nat)
    requires SingleOk(s) && FlightsOk(s) && LocksOk(s)
    requires HandingEnabled(kinds, s, Register(p, c))
    ensures SingleOk(HandingNext(kinds, s, Register(p, c)))
  {
    var s' := HandingNext(kinds, s, Register(p, c));
    var g0 := s.callers[p].group;
    assert Holds(s.callers[p], g0) && !Running(s, g0);
    forall c' | c' in s'.calls && Joinable(s', s'.calls[c'])
      ensures s'.calls[c'].group in s'.flights && s'.flights[s'.calls[c'].group] == c'
    {
      if c' != c {
        assert Joinable(s, s.calls[c']);
        assert Running(s, s.calls[c'].group);
      }
    }
    forall p', g | p' in s'.callers && Holds(s'.callers[p'], g) ensures !Running(s', g) {
      assert p' in s.callers && Holds(s.callers[p'], g) && !Running(s, g) && s.locks[g] == p';
    }
  }

  lemma SingleKeptByGiveUp(kinds: nat -> Kind, s: State, p: nat)
    requires SingleOk(s)
    requires HandingEnabled(kinds, s, GiveUp(p))
    ensures SingleOk(HandingNext(kinds, s, GiveUp(p)))
  {
    var s' := HandingNext(kinds, s, GiveUp(p));
    forall p', g | p' in s'.callers && Holds(s'.callers[p'], g) ensures !Running(s', g) {
      assert p' in s.callers && Holds(s.callers[p'], g) && !Running(s, g);
    }
  }

  lemma SingleKeptByPublish(kinds: nat -> Kind, s: State, c: nat, negative: bool, ty: nat, stores: bool, panics: bool)
    requires SingleOk(s)
    requires HandingEnabled(kinds, s, Publish(c, negative, ty, stores, panics))
    ensures SingleOk(HandingNext(kinds, s, Publish(c, negative, ty, stores, panics)))
  {
    var s' := HandingNext(kinds, s, Publish(c, negative, ty, stores, panics));
    forall p, g | p in s'.callers && Holds(s'.callers[p], g) ensures !Running(s', g) {
      assert p in s.callers && Holds(s.callers[p], g) && !Running(s, g);
    }
  }

  lemma SingleKeptByCall(kinds: nat -> Kind, s: State, step: Step)
    requires SingleOk(s)
    requires IsCall(step) && CallEnabled(kinds, s, step)
    ensures SingleOk(CallNext(kinds, s, step))
  {
    var s' := CallNext(kinds, s, step);
    forall g ensures Running(s', g) ==> Running(s, g) {
    }
    forall p, g | p in s'.callers && Holds(s'.callers[p], g) ensures !Running(s', g) {
      assert p in s.callers && Holds(s.callers[p], g) && !Running(s, g);
    }
  }
}
