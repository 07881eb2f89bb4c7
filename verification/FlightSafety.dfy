/**
 What single flight with invalidation promises, over every run of the machine.
 */
module FlightSafety {
  import opened Flights
  import opened Maybe
  import opened FlightInvariants

  // Waiters

  lemma StayingUpdate(s: State, s': State, p: nat, q: Caller, c: nat)
    requires s'.callers == s.callers[p := q]
    ensures Staying(s', c) == if StaysWith(q, c) then Staying(s, c) + {p} else Staying(s, c) - {p}
  {
  }

  /** One caller's change of state changes a call's count of waiters by as much. */
  lemma StayingCount(s: State, s': State, p: nat, q: Caller, c: nat)
    requires s'.callers == s.callers[p := q]
    ensures |Staying(s', c)| == |Staying(s, c)|
                              + (if StaysWith(q, c) then 1 else 0)
                              - (if p in s.callers && StaysWith(s.callers[p], c) then 1 else 0)
  {
    StayingUpdate(s, s', p, q, c);
    assert p in Staying(s, c) <==> p in s.callers && StaysWith(s.callers[p], c);
  }

  /** The caller a step is by, if it changes one. */
  function Mover(step: Step): Option<nat> {
    match step
    case Arrive(p, _) => Some(p)
    case LookupHits(p) => Some(p)
    case LookupMisses(p) => Some(p)
    case Join(p) => Some(p)
    case Lock(p) => Some(p)
    case LockToRefresh(p, _) => Some(p)
    case Begin(p, _) => Some(p)
    case RecheckHits(p) => Some(p)
    case RecheckMisses(p) => Some(p)
    case EndAndUnlock(p) => Some(p)
    case Register(p, _) => Some(p)
    case Receive(p) => Some(p)
    case GiveUp(p) => Some(p)
    case Cancel(p) => Some(p)
    case _ => None
  }

  /** Of the callers only the step's mover changes. */
  ghost predicate OnlyMoves(callers: map<nat, Caller>, callers': map<nat, Caller>, m: Option<nat>) {
    if m.Some? then m.value in callers' && callers' == callers[m.value := callers'[m.value]]
    else callers' == callers
  }

  lemma PassingMoves(kinds: nat -> Kind, s: State, step: Step)
    requires IsPassing(step) && PassingEnabled(kinds, s, step)
    ensures OnlyMoves(s.callers, PassingNext(kinds, s, step).callers, Mover(step))
  {
  }

  lemma LockingMoves(kinds: nat -> Kind, s: State, step: Step)
    requires IsLocking(step) && LockingEnabled(kinds, s, step)
    ensures OnlyMoves(s.callers, LockingNext(kinds, s, step).callers, Mover(step))
  {
  }

  lemma HandingMoves(kinds: nat -> Kind, s: State, step: Step)
    requires IsHanding(step) && HandingEnabled(kinds, s, step)
    ensures OnlyMoves(s.callers, HandingNext(kinds, s, step).callers, Mover(step))
  {
  }

  lemma MoverMoves(kinds: nat -> Kind, s: State, step: Step)
    requires Enabled(kinds, s, step)
    ensures OnlyMoves(s.callers, Next(kinds, s, step).callers, Mover(step))
  {
    hide PassingNext, LockingNext, HandingNext, PassingEnabled, LockingEnabled, HandingEnabled;
    if IsPassing(step) {
      PassingMoves(kinds, s, step);
    } else if IsLocking(step) {
      LockingMoves(kinds, s, step);
    } else if IsHanding(step) {
      HandingMoves(kinds, s, step);
    }
  }

  function Stays(s: State, p: Option<nat>, c: nat): int {
    if p.Some? && p.value in s.callers && StaysWith(s.callers[p.value], c) then 1 else 0
  }

  /** Call c's count of waiters changes by as much as the step's mover stays with
      the call; a new call starts with that and the refresh itself. */
  ghost predicate CountMoves(s: State, s': State, m: Option<nat>, c: nat) {
    if c in s.calls then
      && c in s'.calls && s'.calls[c].refresh == s.calls[c].refresh
      && s'.calls[c].waiters == s.calls[c].waiters + Stays(s', m, c) - Stays(s, m, c)
    else if c in s'.calls then
      s'.calls[c].waiters == Stays(s', m, c) + if s'.calls[c].refresh then 1 else 0
    else
      Stays(s', m, c) == 0
  }

  lemma PassingMovesCount(kinds: nat -> Kind, s: State, step: Step, c: nat)
    requires WaitersOk(s) && IsPassing(step) && PassingEnabled(kinds, s, step)
    ensures CountMoves(s, PassingNext(kinds, s, step), Mover(step), c)
  {
  }

  lemma HandingMovesCount(kinds: nat -> Kind, s: State, step: Step, c: nat)
    requires WaitersOk(s) && IsHanding(step) && HandingEnabled(kinds, s, step)
    ensures CountMoves(s, HandingNext(kinds, s, step), Mover(step), c)
  {
  }

  lemma LockingMovesCount(kinds: nat -> Kind, s: State, step: Step, c: nat)
    requires WaitersOk(s) && IsLocking(step) && LockingEnabled(kinds, s, step)
    ensures CountMoves(s, LockingNext(kinds, s, step), Mover(step), c)
  {
  }

  lemma CallMovesCount(kinds: nat -> Kind, s: State, step: Step, c: nat)
    requires IsCall(step) && CallEnabled(kinds, s, step)
    ensures CountMoves(s, CallNext(kinds, s, step), Mover(step), c)
  {
  }

  lemma StepMovesCount(kinds: nat -> Kind, s: State, step: Step, c: nat)
    requires WaitersOk(s) && Enabled(kinds, s, step)
    ensures CountMoves(s, Next(kinds, s, step), Mover(step), c)
  {
    hide PassingNext, LockingNext, HandingNext, CallNext, PassingEnabled, LockingEnabled, HandingEnabled, CallEnabled,
         WaitersOk;
    if IsWorld(step) {
    } else if IsPassing(step) {
      PassingMovesCount(kinds, s, step, c);
    } else if IsLocking(step) {
      LockingMovesCount(kinds, s, step, c);
    } else if IsHanding(step) {
      HandingMovesCount(kinds, s, step, c);
    } else {
      CallMovesCount(kinds, s, step, c);
    }
  }

  /** A new call has nobody with it yet. */
  lemma NobodyYet(s: State, c: nat)
    requires WaitersOk(s) && c !in s.calls
    ensures Staying(s, c) == {}
  {
  }

  lemma WaitersKept(kinds: nat -> Kind, s: State, step: Step)
    requires WaitersOk(s) && Enabled(kinds, s, step)
    ensures WaitersOk(Next(kinds, s, step))
  {
    hide Next, Enabled;
    var s', m := Next(kinds, s, step), Mover(step);
    MoverMoves(kinds, s, step);
    forall c | c in s'.calls
      ensures s'.calls[c].waiters == |Staying(s', c)| + if s'.calls[c].refresh then 1 else 0
    {
      StepMovesCount(kinds, s, step, c);
      if m.Some? {
        StayingCount(s, s', m.value, s'.callers[m.value], c);
      } else {
        assert Staying(s', c) == Staying(s, c);
      }
      if c !in s.calls {
        NobodyYet(s, c);
      }
    }
    forall p, c | p in s'.callers && StaysWith(s'.callers[p], c) ensures c in s'.calls {
      StepMovesCount(kinds, s, step, c);
    }
  }

  lemma WaiterCounts(s: State, p: nat)
    requires WaitersOk(s) && p in s.callers && s.callers[p].Waiting?
    ensures s.callers[p].c in s.calls && s.calls[s.callers[p].c].waiters > 0
  {
    assert StaysWith(s.callers[p], s.callers[p].c);
    assert p in Staying(s, s.callers[p].c);
  }

  // Every step keeps the invariant

  lemma WorldKeeps(kinds: nat -> Kind, s: State, step: Step)
    requires Inv(s) && Enabled(kinds, s, step) && IsWorld(step)
    ensures Inv(Next(kinds, s, step))
  {
    hide TokensOk, HoldersOk, LocksOk, CallsOk, VersionsOk, FlightsOk, WaitersOk, SingleOk,
         WorldNext, WorldEnabled;
    TokensKeptByWorld(kinds, s, step);
    HoldersKeptByWorld(kinds, s, step);
    LocksKeptByWorld(kinds, s, step);
    CallsKeptByWorld(kinds, s, step);
    VersionsKeptByWorld(kinds, s, step);
    FlightsKeptByWorld(kinds, s, step);
    SingleKeptByWorld(kinds, s, step);
    WaitersKept(kinds, s, step);
  }

  lemma PassingKeeps(kinds: nat -> Kind, s: State, step: Step)
    requires Inv(s) && Enabled(kinds, s, step) && IsPassing(step)
    ensures Inv(Next(kinds, s, step))
  {
    hide TokensOk, HoldersOk, LocksOk, CallsOk, VersionsOk, FlightsOk, WaitersOk, SingleOk,
         PassingNext, PassingEnabled;
    TokensKeptByPassing(kinds, s, step);
    HoldersKeptByPassing(kinds, s, step);
    LocksKeptByPassing(kinds, s, step);
    CallsKeptByPassing(kinds, s, step);
    VersionsKeptByPassing(kinds, s, step);
    FlightsKeptByPassing(kinds, s, step);
    SingleKeptByPassing(kinds, s, step);
    WaitersKept(kinds, s, step);
  }

  lemma LockingKeeps(kinds: nat -> Kind, s: State, step: Step)
    requires Inv(s) && Enabled(kinds, s, step) && IsLocking(step)
    ensures Inv(Next(kinds, s, step))
  {
    hide TokensOk, HoldersOk, LocksOk, CallsOk, VersionsOk, FlightsOk, WaitersOk, SingleOk,
         LockingNext, LockingEnabled;
    TokensKeptByLocking(kinds, s, step);
    HoldersKeptByLocking(kinds, s, step);
    LocksKeptByLocking(kinds, s, step);
    CallsKeptByLocking(kinds, s, step);
    VersionsKeptByLocking(kinds, s, step);
    FlightsKeptByLocking(kinds, s, step);
    SingleKeptByLocking(kinds, s, step);
    WaitersKept(kinds, s, step);
  }

  lemma RegisterKeeps(kinds: nat -> Kind, s: State, p: nat, c: nat)
    requires Inv(s) && Enabled(kinds, s, Register(p, c))
    ensures Inv(Next(kinds, s, Register(p, c)))
  {
    hide TokensOk, HoldersOk, LocksOk, CallsOk, VersionsOk, FlightsOk, WaitersOk, SingleOk,
         HandingNext, HandingEnabled;
    TokensKeptByRegister(kinds, s, p, c);
    HoldersKeptByRegister(kinds, s, p, c);
    LocksKeptByRegister(kinds, s, p, c);
    CallsKeptByRegister(kinds, s, p, c);
    VersionsKeptByRegister(kinds, s, p, c);
    FlightsKeptByRegister(kinds, s, p, c);
    SingleKeptByRegister(kinds, s, p, c);
    WaitersKept(kinds, s, Register(p, c));
  }

  lemma GiveUpKeeps(kinds: nat -> Kind, s: State, p: nat)
    requires Inv(s) && Enabled(kinds, s, GiveUp(p))
    ensures Inv(Next(kinds, s, GiveUp(p)))
  {
    hide TokensOk, HoldersOk, LocksOk, CallsOk, VersionsOk, FlightsOk, WaitersOk, SingleOk;
    WaiterCounts(s, p);
    TokensKeptByGiveUp(kinds, s, p);
    HoldersKeptByGiveUp(kinds, s, p);
    LocksKeptByGiveUp(kinds, s, p);
    CallsKeptByGiveUp(kinds, s, p);
    VersionsKeptByGiveUp(kinds, s, p);
    FlightsKeptByGiveUp(kinds, s, p);
    SingleKeptByGiveUp(kinds, s, p);
    WaitersKept(kinds, s, GiveUp(p));
  }

  lemma PublishKeeps(kinds: nat -> Kind, s: State, c: nat, negative: bool, ty: nat, stores: bool, panics: bool)
    requires Inv(s) && Enabled(kinds, s, Publish(c, negative, ty, stores, panics))
    ensures Inv(Next(kinds, s, Publish(c, negative, ty, stores, panics)))
  {
    hide TokensOk, HoldersOk, LocksOk, CallsOk, VersionsOk, FlightsOk, WaitersOk, SingleOk,
         HandingNext, HandingEnabled;
    TokensKeptByPublish(kinds, s, c, negative, ty, stores, panics);
    HoldersKeptByPublish(kinds, s, c, negative, ty, stores, panics);
    LocksKeptByPublish(kinds, s, c, negative, ty, stores, panics);
    CallsKeptByPublish(kinds, s, c, negative, ty, stores, panics);
    VersionsKeptByPublish(kinds, s, c, negative, ty, stores, panics);
    FlightsKeptByPublish(kinds, s, c, negative, ty, stores, panics);
    SingleKeptByPublish(kinds, s, c, negative, ty, stores, panics);
    WaitersKept(kinds, s, Publish(c, negative, ty, stores, panics));
  }

  lemma CallKeeps(kinds: nat -> Kind, s: State, step: Step)
    requires Inv(s) && Enabled(kinds, s, step) && IsCall(step)
    ensures Inv(Next(kinds, s, step))
  {
    hide TokensOk, HoldersOk, LocksOk, CallsOk, VersionsOk, FlightsOk, WaitersOk, SingleOk,
         CallNext, CallEnabled;
    TokensKeptByCall(kinds, s, step);
    HoldersKeptByCall(kinds, s, step);
    LocksKeptByCall(kinds, s, step);
    CallsKeptByCall(kinds, s, step);
    VersionsKeptByCall(kinds, s, step);
    FlightsKeptByCall(kinds, s, step);
    SingleKeptByCall(kinds, s, step);
    WaitersKept(kinds, s, step);
  }

  lemma StepKeeps(kinds: nat -> Kind, s: State, step: Step)
    requires Inv(s) && Enabled(kinds, s, step)
    ensures Inv(Next(kinds, s, step))
  {
    if IsWorld(step) {
      WorldKeeps(kinds, s, step);
    } else if IsPassing(step) {
      PassingKeeps(kinds, s, step);
    } else if IsLocking(step) {
      LockingKeeps(kinds, s, step);
    } else if IsCall(step) {
      CallKeeps(kinds, s, step);
    } else if step.Register? {
      RegisterKeeps(kinds, s, step.p, step.c);
    } else if step.GiveUp? {
      GiveUpKeeps(kinds, s, step.p);
    } else {
      PublishKeeps(kinds, s, step.c, step.negative, step.ty, step.stores, step.panics);
    }
  }

  // Runs

  predicate Legal(kinds: nat -> Kind, s: State, steps: seq<Step>)
    decreases |steps|
  {
    steps == [] || (Enabled(kinds, s, steps[0]) && Legal(kinds, Next(kinds, s, steps[0]), steps[1..]))
  }

  function Exec(kinds: nat -> Kind, s: State, steps: seq<Step>): State
    requires Legal(kinds, s, steps)
    decreases |steps|
  {
    if steps == [] then s else Exec(kinds, Next(kinds, s, steps[0]), steps[1..])
  }

  lemma {:induction false} RunKeeps(kinds: nat -> Kind, s: State, steps: seq<Step>)
    requires Inv(s) && Legal(kinds, s, steps)
    ensures Inv(Exec(kinds, s, steps))
    decreases |steps|
  {
    hide Inv, Next, Enabled;
    if steps == [] {
    } else {
      StepKeeps(kinds, s, steps[0]);
      RunKeeps(kinds, Next(kinds, s, steps[0]), steps[1..]);
    }
  }

  lemma InitOk(kinds: nat -> Kind)
    ensures Inv(Init())
  {
  }

  lemma {:induction false} ExecConcat(kinds: nat -> Kind, s: State, a: seq<Step>, b: seq<Step>)
    requires Legal(kinds, s, a + b)
    ensures Legal(kinds, s, a) && Legal(kinds, Exec(kinds, s, a), b)
    ensures Exec(kinds, s, a + b) == Exec(kinds, Exec(kinds, s, a), b)
    decreases |a|
  {
    hide Next, Enabled;
    if a == [] {
      assert a + b == b;
    } else {
      assert (a + b)[1..] == a[1..] + b;
      ExecConcat(kinds, Next(kinds, s, a[0]), a[1..], b);
    }
  }

  // Never stale after an invalidation

  /** The version a caller needs, as long as it can still be answered. */
  predicate Needs(q: Caller, need: nat) {
    match q
    case Arrived(_, n) => n == need
    case Missed(_, n) => n == need
    case Beginning(_, n, _) => n == need
    case Rechecking(_, n, _) => n == need
    case Registering(_, n, _, _) => n == need
    case Ending(_, n, _, _) => n == need
    case Waiting(_, n, _) => n == need
    case Left(_, _) => true
    case Gone => true
    case Returned(n, _, _) => n == need
  }

  lemma MoverNeedsAsMuch(kinds: nat -> Kind, s: State, step: Step, p: nat, need: nat)
    requires Enabled(kinds, s, step) && Mover(step) == Some(p)
    requires p in s.callers && Needs(s.callers[p], need)
    ensures var s' := Next(kinds, s, step); p in s'.callers && Needs(s'.callers[p], need)
  {
    hide WorldNext, WorldEnabled, CallNext, CallEnabled;
    if IsPassing(step) {
    } else if IsLocking(step) {
    } else {
    }
  }

  lemma NeedKept(kinds: nat -> Kind, s: State, step: Step, p: nat, need: nat)
    requires Enabled(kinds, s, step) && p in s.callers && Needs(s.callers[p], need)
    ensures var s' := Next(kinds, s, step); p in s'.callers && Needs(s'.callers[p], need)
  {
    hide Next, Enabled, Needs;
    MoverMoves(kinds, s, step);
    if Mover(step) == Some(p) {
      MoverNeedsAsMuch(kinds, s, step, p, need);
    }
  }

  lemma {:induction false} RunKeepsNeed(kinds: nat -> Kind, s: State, steps: seq<Step>, p: nat, need: nat)
    requires Legal(kinds, s, steps) && p in s.callers && Needs(s.callers[p], need)
    ensures var s' := Exec(kinds, s, steps); p in s'.callers && Needs(s'.callers[p], need)
    decreases |steps|
  {
    hide Next, Enabled, Needs;
    if steps == [] {
    } else {
      NeedKept(kinds, s, steps[0], p, need);
      RunKeepsNeed(kinds, Next(kinds, s, steps[0]), steps[1..], p, need);
    }
  }

  ghost predicate VersionsStay(s: State, s': State) {
    s'.clock == s.clock && s'.floor == s.floor && s'.published == s.published
  }

  lemma PassingKeepsVersions(kinds: nat -> Kind, s: State, step: Step)
    requires IsPassing(step) && PassingEnabled(kinds, s, step)
    ensures VersionsStay(s, PassingNext(kinds, s, step))
  {
  }

  lemma LockingKeepsVersions(kinds: nat -> Kind, s: State, step: Step)
    requires IsLocking(step) && LockingEnabled(kinds, s, step)
    ensures VersionsStay(s, LockingNext(kinds, s, step))
  {
  }

  lemma CallKeepsVersions(kinds: nat -> Kind, s: State, step: Step)
    requires IsCall(step) && CallEnabled(kinds, s, step)
    ensures VersionsStay(s, CallNext(kinds, s, step))
  {
  }

  /** Only the world's steps and publications move the versions. */
  lemma OthersKeepVersions(kinds: nat -> Kind, s: State, step: Step)
    requires Enabled(kinds, s, step) && !IsWorld(step) && !IsHanding(step)
    ensures VersionsStay(s, Next(kinds, s, step))
  {
    hide PassingNext, LockingNext, CallNext, PassingEnabled, LockingEnabled, CallEnabled;
    if IsPassing(step) {
      PassingKeepsVersions(kinds, s, step);
    } else if IsLocking(step) {
      LockingKeepsVersions(kinds, s, step);
    } else {
      CallKeepsVersions(kinds, s, step);
    }
  }

  lemma FloorStep(kinds: nat -> Kind, s: State, step: Step)
    requires s.floor <= s.clock && Enabled(kinds, s, step)
    ensures Next(kinds, s, step).floor >= s.floor
  {
    if IsWorld(step) || IsHanding(step) {
      hide PassingNext, LockingNext, CallNext, PassingEnabled, LockingEnabled, CallEnabled;
    } else {
      hide Next, Enabled;
      OthersKeepVersions(kinds, s, step);
    }
  }

  lemma {:induction false} FloorRises(kinds: nat -> Kind, s: State, steps: seq<Step>)
    requires Inv(s) && Legal(kinds, s, steps)
    ensures Exec(kinds, s, steps).floor >= s.floor
    decreases |steps|
  {
    hide Next, Enabled;
    if steps == [] {
    } else {
      FloorStep(kinds, s, steps[0]);
      StepKeeps(kinds, s, steps[0]);
      FloorRises(kinds, Next(kinds, s, steps[0]), steps[1..]);
    }
  }

  lemma ExecOne(kinds: nat -> Kind, s: State, step: Step)
    requires Legal(kinds, s, [step])
    ensures Enabled(kinds, s, step) && Exec(kinds, s, [step]) == Next(kinds, s, step)
  {
    hide Next, Enabled;
    assert [step][1..] == [];
  }

  /** Deleting or clearing the key, and writing it. */
  predicate Invalidates(step: Step) {
    step.Forget? || step.Write?
  }

  lemma InvalidationRaises(kinds: nat -> Kind, s: State, step: Step)
    requires Invalidates(step) && Enabled(kinds, s, step)
    ensures Next(kinds, s, step).floor == Next(kinds, s, step).clock
  {
  }

  lemma ArriverNeeds(kinds: nat -> Kind, s: State, p: nat, g: nat)
    requires Enabled(kinds, s, Arrive(p, g))
    ensures p in Next(kinds, s, Arrive(p, g)).callers
    ensures Needs(Next(kinds, s, Arrive(p, g)).callers[p], s.floor)
  {
  }

  /** Whatever happens before, in between and after: a caller that comes after the
      key was deleted, cleared or written is never answered with a load that read the
      source before that. Clock is the source's version then, as the step leaves it. */
  lemma NeverStale(kinds: nat -> Kind, before: seq<Step>, step: Step, between: seq<Step>, after: seq<Step>,
                   p: nat, g: nat, clock: nat)
    requires Invalidates(step)
    requires Legal(kinds, Init(), before + [step] + between + [Arrive(p, g)] + after)
    requires Legal(kinds, Init(), before + [step])
    requires clock == Exec(kinds, Init(), before + [step]).clock
    ensures var s := Exec(kinds, Init(), before + [step] + between + [Arrive(p, g)] + after);
            p in s.callers && (s.callers[p].Returned? ==> AnswerSince(s.callers[p].a, clock))
  {
    hide Next, Enabled, Legal, Exec, Init, TokensOk, HoldersOk, LocksOk, CallsOk, FlightsOk, WaitersOk, SingleOk;
    InitOk(kinds);
    var run := before + [step] + between + [Arrive(p, g)];
    ExecConcat(kinds, Init(), run, after);
    ExecConcat(kinds, Init(), before + [step] + between, [Arrive(p, g)]);
    ExecConcat(kinds, Init(), before + [step], between);
    ExecConcat(kinds, Init(), before, [step]);
    var s0 := Exec(kinds, Init(), before);
    ExecOne(kinds, s0, step);
    InvalidationRaises(kinds, s0, step);
    var s1 := Exec(kinds, Init(), before + [step]);
    RunKeeps(kinds, Init(), before + [step]);
    FloorRises(kinds, s1, between);
    var s2 := Exec(kinds, s1, between);
    ExecOne(kinds, s2, Arrive(p, g));
    ArriverNeeds(kinds, s2, p, g);
    RunKeepsNeed(kinds, Exec(kinds, Init(), run), after, p, s2.floor);
    RunKeeps(kinds, Init(), run + after);
  }
}
