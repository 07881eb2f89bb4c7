/**
 No caller is lost: whatever has happened, a caller who has not given up can still be
 answered, and one who waits for a load that is in progress with what it will read.
 */
module CallerProgress {
  import opened Flights
  import opened Maybe
  import opened FlightInvariants
  import opened FlightSafety
  import opened FlightProgress

  /** The steps before a call's waiters can see its result. */
  function WaitRank(call: Call): nat {
    match call.phase
    case Loading => 4
    case HasRead(_) => 3
    case Returned(_) => 2
    case Dropped(_) => 1
    case Done(_) => 0
    case Ended(_) => 0
  }

  /** The load has not come to nothing. */
  predicate Promising(call: Call) {
    match call.phase
    case Loading => true
    case HasRead(_) => true
    case Returned(a) => a.Answer?
    case Dropped(a) => a.Answer?
    case Done(a) => a.Answer?
    case Ended(a) => a.Answer?
  }

  /** One step nearer for who waits for call c: the call's, or the mutex holder's. */
  ghost predicate Nearer(s: State, s': State, p: nat, c: nat) {
    && p in s.callers && p in s'.callers && s'.callers[p] == s.callers[p]
    && c in s.calls && c in s'.calls && s'.calls[c].group == s.calls[c].group
    && (Promising(s.calls[c]) ==> Promising(s'.calls[c]))
    && (WaitRank(s'.calls[c]) < WaitRank(s.calls[c])
        || (WaitRank(s'.calls[c]) == WaitRank(s.calls[c])
            && LockRank(s', s.calls[c].group) < LockRank(s, s.calls[c].group)))
  }

  /** What a group can read. */
  function TypeFor(kind: Kind): nat {
    if kind.Only? then kind.ty else 0
  }

  lemma CallComesOn(kinds: nat -> Kind, s: State, p: nat, c: nat) returns (step: Step)
    requires p in s.callers && c in s.calls && WaitRank(s.calls[c]) > 0
    requires s.calls[c].phase.Returned? ==> Free(s, s.calls[c].group)
    ensures Enabled(kinds, s, step) && Nearer(s, Next(kinds, s, step), p, c)
  {
    hide WorldNext, PassingNext, LockingNext, WorldEnabled, PassingEnabled, LockingEnabled;
    match s.calls[c].phase
    case Loading => step := ReadSource(c);
    case HasRead(_) => step := Publish(c, false, TypeFor(kinds(s.calls[c].group)), false, false);
    case Returned(_) => step := Finish(c);
    case Dropped(_) => step := Close(c);
  }

  lemma HolderComesOn(kinds: nat -> Kind, s: State, p: nat, c: nat) returns (step: Step)
    requires LocksOk(s) && p in s.callers && s.callers[p].Waiting? && c in s.calls && s.calls[c].group in s.locks
    ensures Enabled(kinds, s, step) && Nearer(s, Next(kinds, s, step), p, c)
  {
    hide Next, Enabled;
    var g := s.calls[c].group;
    step := HolderCanMove(kinds, s, g);
    MoverMoves(kinds, s, step);
    assert Holds(s.callers[s.locks[g]], g);
  }

  lemma WaitsForCall(s: State, p: nat)
    requires VersionsOk(s) && p in s.callers && s.callers[p].Waiting?
    ensures s.callers[p].c in s.calls
  {
    assert CallerOk(s, s.callers[p]);
  }

  lemma ReceiverReturns(kinds: nat -> Kind, s: State, p: nat)
    requires p in s.callers && s.callers[p].Waiting? && s.callers[p].c in s.calls
    requires WaitRank(s.calls[s.callers[p].c]) == 0
    ensures Enabled(kinds, s, Receive(p))
    ensures var q := s.callers[p];
            Next(kinds, s, Receive(p)).callers ==
              s.callers[p := Caller.Returned(q.need, s.calls[q.c].phase.a, Some(q.c))]
  {
    hide WorldNext, HandingNext, LockingNext, WorldEnabled, HandingEnabled, LockingEnabled;
  }

  lemma {:induction false} StepThenRun(kinds: nat -> Kind, s: State, step: Step, rest: seq<Step>)
    requires Enabled(kinds, s, step) && Legal(kinds, Next(kinds, s, step), rest)
    ensures Legal(kinds, s, [step] + rest)
    ensures Exec(kinds, s, [step] + rest) == Exec(kinds, Next(kinds, s, step), rest)
  {
    hide Next, Enabled;
    assert ([step] + rest)[1..] == rest;
  }

  /** From every reachable state, who waits for a load can come to be answered, and
      with a value if the load has not failed. */
  lemma {:induction false} WaiterCanReceive(kinds: nat -> Kind, s: State, p: nat) returns (run: seq<Step>)
    requires Inv(s) && p in s.callers && s.callers[p].Waiting?
    ensures s.callers[p].c in s.calls && Legal(kinds, s, run)
    ensures var s', c := Exec(kinds, s, run), s.callers[p].c;
            && p in s'.callers && s'.callers[p].Returned? && s'.callers[p].via == Some(c)
            && (Promising(s.calls[c]) ==> s'.callers[p].a.Answer?)
    decreases if s.callers[p].c in s.calls then WaitRank(s.calls[s.callers[p].c]) else 0,
              if s.callers[p].c in s.calls then LockRank(s, s.calls[s.callers[p].c].group) else 0
  {
    hide Next, Enabled, TokensOk, HoldersOk, LocksOk, CallsOk, FlightsOk, WaitersOk, SingleOk, VersionsOk;
    WaitsForCall(s, p);
    var c := s.callers[p].c;
    var step;
    var rest := [];
    if WaitRank(s.calls[c]) == 0 {
      ReceiverReturns(kinds, s, p);
      step := Receive(p);
    } else {
      if s.calls[c].phase.Returned? && s.calls[c].group in s.locks {
        step := HolderComesOn(kinds, s, p, c);
      } else {
        step := CallComesOn(kinds, s, p, c);
      }
      StepKeeps(kinds, s, step);
      rest := WaiterCanReceive(kinds, Next(kinds, s, step), p);
    }
    StepThenRun(kinds, s, step, rest);
    run := [step] + rest;
  }

  // Callers on their way

  /** The steps a caller has left before it is answered or waits for a load; a refresh
      on its way is nobody's call. */
  function PlaceRank(q: Caller): nat {
    match q
    case Arrived(_, _) => 6
    case Missed(_, _) => 5
    case Beginning(_, _, _) => 4
    case Rechecking(_, _, _) => 3
    case Registering(_, _, _, _) => 2
    case Ending(_, _, _, _) => 1
    case _ => 0
  }

  predicate Calling(q: Caller) {
    || q.Arrived? || q.Missed? || (q.Beginning? && !q.refresh) || q.Rechecking?
    || (q.Registering? && !q.refresh) || q.Ending?
  }

  predicate Settled(q: Caller) {
    q.Waiting? || q.Returned?
  }

  function GroupOf(q: Caller): nat {
    if Calling(q) then q.group else 0
  }

  /** The step takes p nearer to being answered or waiting. */
  ghost predicate StepsOn(kinds: nat -> Kind, s: State, step: Step, p: nat)
    requires p in s.callers
  {
    Enabled(kinds, s, step) &&
    var s' := Next(kinds, s, step);
    && p in s'.callers && (Calling(s'.callers[p]) || Settled(s'.callers[p]))
    && PlaceRank(s'.callers[p]) < PlaceRank(s.callers[p])
  }

  lemma PasserStep(kinds: nat -> Kind, s: State, p: nat) returns (step: Step)
    requires p in s.callers && (s.callers[p].Arrived? || s.callers[p].Missed?)
    requires s.callers[p].Missed? ==> Free(s, s.callers[p].group)
    ensures StepsOn(kinds, s, step, p)
  {
    hide WorldNext, WorldEnabled, HandingNext, HandingEnabled, CallNext, CallEnabled;
    var g := s.callers[p].group;
    if s.callers[p].Arrived? {
      step := if Answers(kinds, s, g) then LookupHits(p) else LookupMisses(p);
    } else {
      step := if Running(s, g) then Join(p) else Lock(p);
    }
  }

  lemma CallerStep(kinds: nat -> Kind, s: State, p: nat) returns (step: Step)
    requires p in s.callers && Calling(s.callers[p])
    requires s.callers[p].Missed? ==> Free(s, s.callers[p].group)
    ensures StepsOn(kinds, s, step, p)
  {
    hide WorldNext, WorldEnabled, PassingNext, PassingEnabled, CallNext, CallEnabled;
    var g := s.callers[p].group;
    match s.callers[p]
    case Arrived(_, _) => step := PasserStep(kinds, s, p);
    case Missed(_, _) => step := PasserStep(kinds, s, p);
    case Beginning(_, _, _) =>
      var t := Unused(s.tokens.Keys);
      step := Begin(p, t);
    case Rechecking(_, _, _) => step := if Answers(kinds, s, g) then RecheckHits(p) else RecheckMisses(p);
    case Registering(_, _, _, _) =>
      var c := Unused(s.calls.Keys);
      step := Register(p, c);
    case Ending(_, _, _, _) => step := EndAndUnlock(p);
  }

  lemma HolderMakesWay(kinds: nat -> Kind, s: State, p: nat) returns (step: Step)
    requires LocksOk(s) && p in s.callers && s.callers[p].Missed? && s.callers[p].group in s.locks
    ensures Enabled(kinds, s, step)
    ensures var s' := Next(kinds, s, step);
            && p in s'.callers && s'.callers[p] == s.callers[p]
            && LockRank(s', s.callers[p].group) < LockRank(s, s.callers[p].group)
  {
    hide Next, Enabled;
    var g := s.callers[p].group;
    step := HolderCanMove(kinds, s, g);
    MoverMoves(kinds, s, step);
    assert Holds(s.callers[s.locks[g]], g);
  }

  /** From every reachable state, every caller who has come and not given up can come to
      be answered. */
  lemma {:induction false} CallerCanReturn(kinds: nat -> Kind, s: State, p: nat) returns (run: seq<Step>)
    requires Inv(s) && p in s.callers && (Calling(s.callers[p]) || Settled(s.callers[p]))
    ensures Legal(kinds, s, run)
    ensures var s' := Exec(kinds, s, run); p in s'.callers && s'.callers[p].Returned?
    decreases PlaceRank(s.callers[p]), LockRank(s, GroupOf(s.callers[p]))
  {
    hide Next, Enabled, TokensOk, HoldersOk, LocksOk, CallsOk, FlightsOk, WaitersOk, SingleOk, VersionsOk;
    if s.callers[p].Returned? {
      run := [];
    } else if s.callers[p].Waiting? {
      run := WaiterCanReceive(kinds, s, p);
    } else {
      var step;
      if s.callers[p].Missed? && s.callers[p].group in s.locks {
        step := HolderMakesWay(kinds, s, p);
      } else {
        step := CallerStep(kinds, s, p);
      }
      StepKeeps(kinds, s, step);
      var rest := CallerCanReturn(kinds, Next(kinds, s, step), p);
      StepThenRun(kinds, s, step, rest);
      run := [step] + rest;
    }
  }
}
