/**
 Nothing in the single-flight machine is stuck: whoever holds a group's mutex can go
 on, a call can go on or waits for a mutex whose holder can, and so every token that
 was begun can still be ended, whatever has happened.
 */
module FlightProgress {
  import opened Flights
  import opened Maybe
  import opened FlightInvariants
  import opened FlightSafety

  lemma Unused(ids: set<nat>) returns (id: nat)
    ensures id !in ids
  {
    id := if ids == {} then 0 else 1 + Greatest(ids);
  }

  ghost function Greatest(ids: set<nat>): (n: nat)
    requires ids != {}
    ensures n in ids && forall id :: id in ids ==> id <= n
  {
    var id :| id in ids;
    if ids == {id} then id
    else
      var n := Greatest(ids - {id});
      assert ids == ids - {id} + {id};
      if id <= n then n else id
  }

  // How far there is to go

  /** The steps a mutex's holder has left. */
  function HolderRank(q: Caller): nat {
    match q
    case Beginning(_, _, _) => 4
    case Rechecking(_, _, _) => 3
    case Registering(_, _, _, _) => 2
    case Ending(_, _, _, _) => 1
    case _ => 0
  }

  function LockRank(s: State, g: nat): nat {
    if g in s.locks && s.locks[g] in s.callers then HolderRank(s.callers[s.locks[g]]) else 0
  }

  /** The steps a call has left. */
  function CallRank(call: Call): nat {
    match call.phase
    case Loading => 4
    case HasRead(_) => 4
    case Returned(_) => 3
    case Dropped(_) => 2
    case Done(_) => 1
    case Ended(_) => 0
  }

  /** A bound on the steps until a token is ended, a caller that holds it first
      handing it to a call at most. */
  function Rank(s: State, t: nat): nat
    requires t in s.tokens
  {
    if s.tokens[t].ended then 0
    else match s.tokens[t].holder
      case ByCaller(p) => if p in s.callers && !s.callers[p].Ending? then 30 + HolderRank(s.callers[p]) else 1
      case ByCall(c) => if c in s.calls then 5 * CallRank(s.calls[c]) + LockRank(s, s.calls[c].group) + 1 else 1
  }

  // Whoever can move

  /** The holder of a mutex has a step of its own, which takes it nearer to letting
      the mutex go and touches no call there was. */
  lemma HolderCanMove(kinds: nat -> Kind, s: State, g: nat) returns (step: Step)
    requires LocksOk(s) && g in s.locks
    ensures Enabled(kinds, s, step) && Mover(step) == Some(s.locks[g])
    ensures LockRank(Next(kinds, s, step), g) < LockRank(s, g)
    ensures forall c :: c in s.calls ==> c in Next(kinds, s, step).calls && Next(kinds, s, step).calls[c] == s.calls[c]
  {
    hide WorldNext, WorldEnabled, PassingNext, PassingEnabled, CallNext, CallEnabled;
    var p := s.locks[g];
    var q := s.callers[p];
    match q
    case Beginning(_, _, _) =>
      var t := Unused(s.tokens.Keys);
      step := Begin(p, t);
    case Rechecking(_, _, _) => step := if Answers(kinds, s, g) then RecheckHits(p) else RecheckMisses(p);
    case Registering(_, _, _, _) =>
      var c := Unused(s.calls.Keys);
      step := Register(p, c);
    case Ending(_, _, _, _) => step := EndAndUnlock(p);
  }

  predicate MovesCall(step: Step, c: nat) {
    || (step.Fail? && step.c == c) || (step.Finish? && step.c == c)
    || (step.Close? && step.c == c) || (step.End? && step.c == c)
  }

  lemma CallStep(kinds: nat -> Kind, s: State, c: nat) returns (step: Step)
    requires c in s.calls && !s.calls[c].phase.Ended?
    requires s.calls[c].phase.Returned? ==> Free(s, s.calls[c].group)
    ensures IsCall(step) && CallEnabled(kinds, s, step) && MovesCall(step, c)
    ensures var s' := CallNext(kinds, s, step);
            c in s'.calls && s'.calls[c].group == s.calls[c].group && CallRank(s'.calls[c]) < CallRank(s.calls[c])
            && s'.locks == s.locks && s'.callers == s.callers
  {
    match s.calls[c].phase
    case Loading => step := Fail(c, false);
    case HasRead(_) => step := Fail(c, false);
    case Returned(_) => step := Finish(c);
    case Dropped(_) => step := Close(c);
    case Done(_) => step := End(c);
  }

  /** A call whose token has not been ended has a step of its own, or waits only for
      its group's mutex. */
  lemma CallCanMove(kinds: nat -> Kind, s: State, c: nat) returns (step: Step)
    requires c in s.calls && !s.calls[c].phase.Ended?
    requires s.calls[c].phase.Returned? ==> Free(s, s.calls[c].group)
    ensures Enabled(kinds, s, step) && MovesCall(step, c)
    ensures var s' := Next(kinds, s, step);
            c in s'.calls && s'.calls[c].group == s.calls[c].group && CallRank(s'.calls[c]) < CallRank(s.calls[c])
            && s'.locks == s.locks && s'.callers == s.callers
  {
    hide WorldNext, WorldEnabled, PassingNext, PassingEnabled, LockingNext, LockingEnabled, HandingNext, HandingEnabled,
         CallNext, CallEnabled;
    step := CallStep(kinds, s, c);
  }

  /** In every reachable state a mutex's holder can move, and a call that has not
      ended can, or waits for a mutex whose holder can. */
  lemma NobodyIsStuck(kinds: nat -> Kind, steps: seq<Step>)
    requires Legal(kinds, Init(), steps)
    ensures var s := Exec(kinds, Init(), steps);
            && (forall g :: g in s.locks ==> exists step :: Mover(step) == Some(s.locks[g]) && Enabled(kinds, s, step))
            && (forall c :: c in s.calls && !s.calls[c].phase.Ended? ==>
                  || (exists step :: MovesCall(step, c) && Enabled(kinds, s, step))
                  || (s.calls[c].phase.Returned? && s.calls[c].group in s.locks))
  {
    hide Next, Enabled, Legal, Exec, Init, TokensOk, HoldersOk, LocksOk, CallsOk, FlightsOk, WaitersOk, SingleOk,
         VersionsOk;
    InitOk(kinds);
    RunKeeps(kinds, Init(), steps);
    var s := Exec(kinds, Init(), steps);
    forall g | g in s.locks ensures exists step :: Mover(step) == Some(s.locks[g]) && Enabled(kinds, s, step) {
      var step := HolderCanMove(kinds, s, g);
    }
    forall c | c in s.calls && !s.calls[c].phase.Ended?
      ensures || (exists step :: MovesCall(step, c) && Enabled(kinds, s, step))
              || (s.calls[c].phase.Returned? && s.calls[c].group in s.locks)
    {
      if !(s.calls[c].phase.Returned? && s.calls[c].group in s.locks) {
        var step := CallCanMove(kinds, s, c);
      }
    }
  }

  // Tokens

  lemma CallerTokenMoves(kinds: nat -> Kind, s: State, t: nat) returns (step: Step)
    requires LocksOk(s) && HoldersOk(s) && t in s.tokens && !s.tokens[t].ended && s.tokens[t].holder.ByCaller?
    ensures Enabled(kinds, s, step) && t in Next(kinds, s, step).tokens && Rank(Next(kinds, s, step), t) < Rank(s, t)
  {
    var p := s.tokens[t].holder.p;
    assert Held(s, t, s.tokens[t].holder);
    var g := s.callers[p].group;
    assert Holds(s.callers[p], g);
    hide WorldNext, WorldEnabled, PassingNext, PassingEnabled, CallNext, CallEnabled;
    match s.callers[p]
    case Rechecking(_, _, _) => step := if Answers(kinds, s, g) then RecheckHits(p) else RecheckMisses(p);
    case Registering(_, _, _, _) =>
      var c := Unused(s.calls.Keys);
      step := Register(p, c);
    case Ending(_, _, _, _) => step := EndAndUnlock(p);
  }

  lemma PassingLeavesTokens(kinds: nat -> Kind, s: State, step: Step)
    requires IsPassing(step) && PassingEnabled(kinds, s, step)
    ensures PassingNext(kinds, s, step).tokens == s.tokens
  {
  }

  lemma CarriedIsCallers(s: State, p: nat, t: nat)
    requires HoldersOk(s) && p in s.callers && Carries(s.callers[p], t)
    ensures t in s.tokens && s.tokens[t].holder == ByCaller(p)
  {
  }

  lemma LockingLeavesToken(kinds: nat -> Kind, s: State, step: Step, t: nat)
    requires HoldersOk(s) && IsLocking(step) && LockingEnabled(kinds, s, step)
    requires t in s.tokens && s.tokens[t].holder.ByCall?
    ensures var s' := LockingNext(kinds, s, step); t in s'.tokens && s'.tokens[t] == s.tokens[t]
  {
    hide HoldersOk;
    if step.EndAndUnlock? {
      CarriedIsCallers(s, step.p, s.callers[step.p].t);
    }
  }

  lemma RegisterLeavesToken(kinds: nat -> Kind, s: State, step: Step, p: nat, g: nat, t: nat)
    requires HoldersOk(s) && IsHanding(step) && HandingEnabled(kinds, s, step) && Mover(step) == Some(p)
    requires p in s.callers && Holds(s.callers[p], g) && t in s.tokens && s.tokens[t].holder.ByCall?
    ensures var s' := HandingNext(kinds, s, step); t in s'.tokens && s'.tokens[t] == s.tokens[t]
  {
    hide HoldersOk;
    CarriedIsCallers(s, p, s.callers[p].t);
  }

  /** A step by somebody else's hand leaves the token with its call. */
  lemma HolderLeavesToken(kinds: nat -> Kind, s: State, step: Step, p: nat, g: nat, t: nat)
    requires HoldersOk(s) && Enabled(kinds, s, step) && Mover(step) == Some(p)
    requires p in s.callers && Holds(s.callers[p], g)
    requires t in s.tokens && !s.tokens[t].ended && s.tokens[t].holder.ByCall?
    ensures var s' := Next(kinds, s, step); t in s'.tokens && s'.tokens[t] == s.tokens[t]
  {
    hide WorldNext, WorldEnabled, PassingNext, LockingNext, HandingNext, CallNext, CallEnabled, HoldersOk;
    if IsPassing(step) {
      PassingLeavesTokens(kinds, s, step);
    } else if IsLocking(step) {
      LockingLeavesToken(kinds, s, step, t);
    } else {
      RegisterLeavesToken(kinds, s, step, p, g, t);
    }
  }

  lemma CallTokenMoves(kinds: nat -> Kind, s: State, t: nat) returns (step: Step)
    requires LocksOk(s) && HoldersOk(s) && t in s.tokens && !s.tokens[t].ended && s.tokens[t].holder.ByCall?
    ensures Enabled(kinds, s, step) && t in Next(kinds, s, step).tokens && Rank(Next(kinds, s, step), t) < Rank(s, t)
  {
    var c := s.tokens[t].holder.c;
    assert Held(s, t, s.tokens[t].holder);
    var g := s.calls[c].group;
    if s.calls[c].phase.Returned? && g in s.locks {
      step := HolderCanMove(kinds, s, g);
      HolderLeavesToken(kinds, s, step, s.locks[g], g, t);
    } else {
      step := CallCanMove(kinds, s, c);
    }
  }

  /** From any reachable state there is a way on in which the token is ended. */
  lemma {:induction false} TokenCanEnd(kinds: nat -> Kind, s: State, t: nat) returns (run: seq<Step>)
    requires Inv(s) && t in s.tokens
    ensures Legal(kinds, s, run) && t in Exec(kinds, s, run).tokens && Exec(kinds, s, run).tokens[t].ended
    decreases Rank(s, t)
  {
    hide Next, Enabled, TokensOk, HoldersOk, LocksOk, CallsOk, FlightsOk, WaitersOk, SingleOk, VersionsOk;
    if s.tokens[t].ended {
      run := [];
    } else {
      var step;
      if s.tokens[t].holder.ByCaller? {
        step := CallerTokenMoves(kinds, s, t);
      } else {
        step := CallTokenMoves(kinds, s, t);
      }
      StepKeeps(kinds, s, step);
      var rest := TokenCanEnd(kinds, Next(kinds, s, step), t);
      run := [step] + rest;
      assert run[1..] == rest;
    }
  }
}
