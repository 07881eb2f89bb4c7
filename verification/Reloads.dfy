/**
 When a group loads the key again: only after an event that lost it the answer.
 */
module Reloads {
  import opened Flights
  import opened FlightInvariants
  import opened FlightSafety
  import opened FlightTheorems
  import opened FlightProgress

  /** The step loses group g the key's answer: a delete, clear, eviction or expiry;
      a value of another type over it; a result that is refused or no answer, or the
      last waiter leaving, when callers could still join the load. */
  predicate Loses(kinds: nat -> Kind, s: State, step: Step, g: nat) {
    match step
    case Forget => true
    case Evict => true
    case Expire => true
    case Write(negative, ty) => !CanRead(kinds(g), negative, ty)
    case Publish(c, negative, ty, stores, _) =>
      if stores then Publishes(s, step) && !CanRead(kinds(g), negative, ty)
      else Running(s, g) && s.flights[g] == c
    case Fail(c, _) => Running(s, g) && s.flights[g] == c
    case GiveUp(p) =>
      && p in s.callers && s.callers[p].Waiting? && s.callers[p].c in s.calls
      && s.calls[s.callers[p].c].waiters == 1 && Running(s, g) && s.flights[g] == s.callers[p].c
    case _ => false
  }

  predicate Lossless(kinds: nat -> Kind, s: State, steps: seq<Step>, g: nat)
    requires Legal(kinds, s, steps)
    decreases |steps|
  {
    steps == [] || (!Loses(kinds, s, steps[0], g) && Lossless(kinds, Next(kinds, s, steps[0]), steps[1..], g))
  }

  lemma {:induction false} LosslessConcat(kinds: nat -> Kind, s: State, a: seq<Step>, b: seq<Step>, g: nat)
    requires Legal(kinds, s, a + b)
    ensures Legal(kinds, s, a) && Legal(kinds, Exec(kinds, s, a), b)
    ensures Lossless(kinds, s, a + b, g) <==>
            Lossless(kinds, s, a, g) && Lossless(kinds, Exec(kinds, s, a), b, g)
    decreases |a|
  {
    hide Next, Enabled, Loses;
    ExecConcat(kinds, s, a, b);
    if a == [] {
      assert a + b == b;
    } else {
      assert (a + b)[1..] == a[1..] + b;
      LosslessConcat(kinds, Next(kinds, s, a[0]), a[1..], b, g);
    }
  }

  // Nothing lost, no load

  /** A caller about to register a load of its own for g. */
  predicate Loads(q: Caller, g: nat) {
    q.Registering? && !q.refresh && q.group == g
  }

  ghost predicate Loading(s: State, g: nat) {
    exists p :: p in s.callers && Loads(s.callers[p], g)
  }

  /** The group has an answer in the cache or a load that callers can join, and none
      of its callers is about to load. */
  ghost predicate Secure(kinds: nat -> Kind, s: State, g: nat) {
    && (Answers(kinds, s, g) || (Running(s, g) && InProgress(s.calls[s.flights[g]])))
    && !Loading(s, g)
  }

  lemma SecureStepWorld(kinds: nat -> Kind, s: State, step: Step, g: nat)
    requires TokensOk(s) && CallsOk(s) && IsWorld(step) && WorldEnabled(kinds, s, step) && !Loses(kinds, s, step, g)
    requires Secure(kinds, s, g)
    ensures Secure(kinds, WorldNext(kinds, s, step), g)
  {
  }

  lemma SecureStepPassing(kinds: nat -> Kind, s: State, step: Step, g: nat)
    requires IsPassing(step) && PassingEnabled(kinds, s, step) && Secure(kinds, s, g)
    ensures Secure(kinds, PassingNext(kinds, s, step), g)
  {
    var s' := PassingNext(kinds, s, step);
    forall p | p in s'.callers ensures !Loads(s'.callers[p], g) {
      assert p in s.callers ==> !Loads(s.callers[p], g);
    }
  }

  lemma SecureStepLocking(kinds: nat -> Kind, s: State, step: Step, g: nat)
    requires SingleOk(s) && CallsOk(s) && IsLocking(step) && LockingEnabled(kinds, s, step) && Secure(kinds, s, g)
    ensures Secure(kinds, LockingNext(kinds, s, step), g)
  {
    var s' := LockingNext(kinds, s, step);
    if step.RecheckMisses? {
      assert Holds(s.callers[step.p], s.callers[step.p].group);
    }
    forall p | p in s'.callers ensures !Loads(s'.callers[p], g) {
      assert p in s.callers ==> !Loads(s.callers[p], g);
    }
  }

  lemma SecureStepRegister(kinds: nat -> Kind, s: State, p: nat, c: nat, g: nat)
    requires SingleOk(s) && HandingEnabled(kinds, s, Register(p, c)) && Secure(kinds, s, g)
    ensures Secure(kinds, HandingNext(kinds, s, Register(p, c)), g)
  {
    var s' := HandingNext(kinds, s, Register(p, c));
    assert Holds(s.callers[p], s.callers[p].group);
    forall p' | p' in s'.callers ensures !Loads(s'.callers[p'], g) {
      assert p' in s.callers ==> !Loads(s.callers[p'], g);
    }
  }

  lemma SecureStepGiveUp(kinds: nat -> Kind, s: State, p: nat, g: nat)
    requires HandingEnabled(kinds, s, GiveUp(p)) && Secure(kinds, s, g) && !Loses(kinds, s, GiveUp(p), g)
    ensures Secure(kinds, HandingNext(kinds, s, GiveUp(p)), g)
  {
    var s' := HandingNext(kinds, s, GiveUp(p));
    forall p' | p' in s'.callers ensures !Loads(s'.callers[p'], g) {
      assert p' in s.callers && !Loads(s.callers[p'], g);
    }
  }

  lemma SecureStepPublish(kinds: nat -> Kind, s: State, step: Step, g: nat)
    requires HoldersOk(s) && CallsOk(s) && step.Publish? && HandingEnabled(kinds, s, step)
    requires Secure(kinds, s, g) && !Loses(kinds, s, step, g)
    ensures Secure(kinds, HandingNext(kinds, s, step), g)
  {
    assert HandingNext(kinds, s, step).callers == s.callers;
  }

  lemma SecureStepHanding(kinds: nat -> Kind, s: State, step: Step, g: nat)
    requires HoldersOk(s) && SingleOk(s) && CallsOk(s) && IsHanding(step) && HandingEnabled(kinds, s, step)
    requires Secure(kinds, s, g) && !Loses(kinds, s, step, g)
    ensures Secure(kinds, HandingNext(kinds, s, step), g)
  {
    hide HandingNext, HandingEnabled, Secure, Loses, SingleOk, HoldersOk, CallsOk;
    if step.Register? {
      SecureStepRegister(kinds, s, step.p, step.c, g);
    } else if step.GiveUp? {
      SecureStepGiveUp(kinds, s, step.p, g);
    } else {
      SecureStepPublish(kinds, s, step, g);
    }
  }

  lemma LoadingAlike(s: State, s': State, g: nat)
    requires s'.callers == s.callers
    ensures Loading(s', g) <==> Loading(s, g)
  {
  }

  lemma SecureStepEnd(kinds: nat -> Kind, s: State, c: nat, g: nat)
    requires CallsOk(s) && CallEnabled(kinds, s, End(c)) && Secure(kinds, s, g)
    ensures Secure(kinds, CallNext(kinds, s, End(c)), g)
  {
    hide Loading;
    LoadingAlike(s, CallNext(kinds, s, End(c)), g);
  }

  lemma SecureStepAdvance(kinds: nat -> Kind, s: State, step: Step, g: nat)
    requires IsCall(step) && !step.End? && CallEnabled(kinds, s, step)
    requires Secure(kinds, s, g) && !Loses(kinds, s, step, g)
    ensures Secure(kinds, CallNext(kinds, s, step), g)
  {
    hide Loading;
    LoadingAlike(s, CallNext(kinds, s, step), g);
  }

  lemma SecureStepCall(kinds: nat -> Kind, s: State, step: Step, g: nat)
    requires CallsOk(s) && IsCall(step) && CallEnabled(kinds, s, step)
    requires Secure(kinds, s, g) && !Loses(kinds, s, step, g)
    ensures Secure(kinds, CallNext(kinds, s, step), g)
  {
    hide CallNext, CallEnabled, CallsOk, Secure, Loses;
    if step.End? {
      SecureStepEnd(kinds, s, step.c, g);
    } else {
      SecureStepAdvance(kinds, s, step, g);
    }
  }

  lemma SecureStep(kinds: nat -> Kind, s: State, step: Step, g: nat)
    requires Inv(s) && Enabled(kinds, s, step) && !Loses(kinds, s, step, g) && Secure(kinds, s, g)
    ensures Secure(kinds, Next(kinds, s, step), g)
  {
    hide WorldNext, PassingNext, LockingNext, HandingNext, CallNext, Secure, Loses;
    if IsWorld(step) {
      SecureStepWorld(kinds, s, step, g);
    } else if IsPassing(step) {
      SecureStepPassing(kinds, s, step, g);
    } else if IsLocking(step) {
      SecureStepLocking(kinds, s, step, g);
    } else if IsHanding(step) {
      SecureStepHanding(kinds, s, step, g);
    } else {
      SecureStepCall(kinds, s, step, g);
    }
  }

  lemma {:induction false} SecureStays(kinds: nat -> Kind, s: State, steps: seq<Step>, g: nat)
    requires Inv(s) && Legal(kinds, s, steps) && Lossless(kinds, s, steps, g) && Secure(kinds, s, g)
    ensures Secure(kinds, Exec(kinds, s, steps), g)
    decreases |steps|
  {
    hide Next, Enabled, Inv, Secure, Loses;
    if steps == [] {
    } else {
      SecureStep(kinds, s, steps[0], g);
      StepKeeps(kinds, s, steps[0]);
      SecureStays(kinds, Next(kinds, s, steps[0]), steps[1..], g);
    }
  }

  // Since the load's token was begun

  /** Caller p is between beginning a load of its own for g and registering it, and
      g has lost nothing; or it has turned out to need no load. */
  predicate Starting(kinds: nat -> Kind, s: State, p: nat, g: nat) {
    && p in s.callers
    && var q := s.callers[p];
       || q.Returned?
       || (&& Holds(q, g) && (q.Rechecking? || q.Ending? || (q.Registering? && !q.refresh))
           && (TokenValid(s, q.t) || Answers(kinds, s, g)))
  }

  lemma StartingStepWorld(kinds: nat -> Kind, s: State, step: Step, p: nat, g: nat)
    requires IsWorld(step) && WorldEnabled(kinds, s, step) && !Loses(kinds, s, step, g) && Starting(kinds, s, p, g)
    ensures Starting(kinds, WorldNext(kinds, s, step), p, g)
  {
  }

  lemma StartingStepLocking(kinds: nat -> Kind, s: State, step: Step, p: nat, g: nat)
    requires IsLocking(step) && LockingEnabled(kinds, s, step) && Starting(kinds, s, p, g)
    ensures Starting(kinds, LockingNext(kinds, s, step), p, g)
  {
  }

  lemma StartingStepHanding(kinds: nat -> Kind, s: State, step: Step, p: nat, g: nat)
    requires IsHanding(step) && HandingEnabled(kinds, s, step) && !Loses(kinds, s, step, g)
    requires Starting(kinds, s, p, g) && !(step.Register? && step.p == p)
    ensures Starting(kinds, HandingNext(kinds, s, step), p, g)
  {
  }

  lemma StartingStep(kinds: nat -> Kind, s: State, step: Step, p: nat, g: nat)
    requires Enabled(kinds, s, step) && !Loses(kinds, s, step, g)
    requires Starting(kinds, s, p, g) && !(step.Register? && step.p == p)
    ensures Starting(kinds, Next(kinds, s, step), p, g)
  {
    hide WorldNext, LockingNext, HandingNext, Loses;
    if IsWorld(step) {
      StartingStepWorld(kinds, s, step, p, g);
    } else if IsPassing(step) {
    } else if IsLocking(step) {
      StartingStepLocking(kinds, s, step, p, g);
    } else if IsHanding(step) {
      StartingStepHanding(kinds, s, step, p, g);
    } else {
    }
  }

  lemma {:induction false} StartingStays(kinds: nat -> Kind, s: State, steps: seq<Step>, p: nat, g: nat)
    requires Legal(kinds, s, steps) && Lossless(kinds, s, steps, g)
    requires Starting(kinds, s, p, g) && forall i :: 0 <= i < |steps| ==> !(steps[i].Register? && steps[i].p == p)
    ensures Starting(kinds, Exec(kinds, s, steps), p, g)
    decreases |steps|
  {
    hide Next, Enabled, Starting, Loses;
    if steps == [] {
    } else {
      StartingStep(kinds, s, steps[0], p, g);
      StartingStays(kinds, Next(kinds, s, steps[0]), steps[1..], p, g);
    }
  }

  lemma BeginStarts(kinds: nat -> Kind, s: State, p: nat, t: nat)
    requires Enabled(kinds, s, Begin(p, t)) && !s.callers[p].refresh
    ensures Starting(kinds, Next(kinds, s, Begin(p, t)), p, s.callers[p].group)
  {
  }

  lemma OneHolder(s: State, p: nat, p': nat, g: nat)
    requires LocksOk(s) && p in s.callers && p' in s.callers && p != p' && Holds(s.callers[p], g)
    ensures !Holds(s.callers[p'], g)
  {
    assert Holds(s.callers[p'], g) ==> g in s.locks;
  }

  /** Registering the load leaves the group secure exactly if nothing has lost it. */
  lemma RegisterSecures(kinds: nat -> Kind, s: State, p: nat, c: nat, g: nat)
    requires LocksOk(s) && HoldersOk(s)
    requires Enabled(kinds, s, Register(p, c)) && s.callers[p].group == g
    ensures Secure(kinds, Next(kinds, s, Register(p, c)), g)
            <==> TokenValid(s, s.callers[p].t) || Answers(kinds, s, g)
  {
    var s' := Next(kinds, s, Register(p, c));
    assert Carries(s.callers[p], s.callers[p].t);
    assert Holds(s.callers[p], g) && s.locks[g] == p;
    forall p' | p' in s'.callers ensures !Loads(s'.callers[p'], g) {
      if p' != p {
        OneHolder(s, p, p', g);
      }
    }
  }

  /** A group's callers load the key again only after an event that lost the answer:
      p begins a load for g, registers it, and later another caller is about to
      register one; then a step since p's beginning lost g the answer. */
  lemma LoadedAgainOnlyIfLost(kinds: nat -> Kind, s: State, a: seq<Step>, b: seq<Step>,
                              p: nat, t: nat, c: nat, g: nat)
    requires Inv(s) && Legal(kinds, s, [Begin(p, t)] + a + [Register(p, c)] + b)
    requires s.callers[p].group == g && !s.callers[p].refresh
    requires forall i :: 0 <= i < |a| ==> !(a[i].Register? && a[i].p == p)
    requires Loading(Exec(kinds, s, [Begin(p, t)] + a + [Register(p, c)] + b), g)
    ensures !Lossless(kinds, s, [Begin(p, t)] + a + [Register(p, c)] + b, g)
  {
    hide Next, Legal, Exec, Loses, TokensOk, HoldersOk, LocksOk, CallsOk, FlightsOk, WaitersOk, SingleOk, VersionsOk;
    var begin, register := [Begin(p, t)], [Register(p, c)];
    if Lossless(kinds, s, begin + a + register + b, g) {
      LosslessConcat(kinds, s, begin + a + register, b, g);
      LosslessConcat(kinds, s, begin + a, register, g);
      LosslessConcat(kinds, s, begin, a, g);
      ExecConcat(kinds, s, begin + a + register, b);
      ExecConcat(kinds, s, begin + a, register);
      ExecConcat(kinds, s, begin, a);
      ExecOne(kinds, s, Begin(p, t));
      var s1 := Exec(kinds, s, begin);
      RunKeeps(kinds, s, begin);
      BeginStarts(kinds, s, p, t);
      StartingStays(kinds, s1, a, p, g);
      var s2 := Exec(kinds, s1, a);
      RunKeeps(kinds, s1, a);
      ExecOne(kinds, s2, Register(p, c));
      RegisterSecures(kinds, s2, p, c, g);
      RunKeeps(kinds, s2, register);
      SecureStays(kinds, Exec(kinds, s2, register), b, g);
    }
  }

  // Since the load was registered

  /** One more step at the end of a run. */
  lemma {:induction false} Do(kinds: nat -> Kind, start: State, run: seq<Step>, s: State, step: Step, g: nat)
    returns (run': seq<Step>, s': State)
    requires Legal(kinds, start, run) && s == Exec(kinds, start, run) && Enabled(kinds, s, step)
    ensures run' == run + [step] && s' == Next(kinds, s, step)
    ensures Legal(kinds, start, run') && s' == Exec(kinds, start, run')
    ensures Lossless(kinds, start, run, g) && !Loses(kinds, s, step, g) ==> Lossless(kinds, start, run', g)
    decreases |run|
  {
    hide Next, Enabled, Loses;
    run', s' := run + [step], Next(kinds, s, step);
    if run == [] {
      assert run' == [step] && [step][1..] == [];
    } else {
      assert run'[1..] == run[1..] + [step];
      var _, _ := Do(kinds, Next(kinds, start, run[0]), run[1..], s, step, g);
    }
  }

  lemma NoSteps(kinds: nat -> Kind, s: State, g: nat)
    ensures Legal(kinds, s, []) && Exec(kinds, s, []) == s && Lossless(kinds, s, [], g)
  {
  }

  /** There is no answer for g in the cache, no load of it to join, and its mutex is
      free. */
  predicate Bare(kinds: nat -> Kind, s: State, g: nat) {
    !Answers(kinds, s, g) && !Running(s, g) && Free(s, g)
  }

  lemma CallerMisses(kinds: nat -> Kind, s: State, g: nat) returns (run: seq<Step>, t: State, p: nat)
    requires Bare(kinds, s, g)
    ensures Legal(kinds, s, run) && t == Exec(kinds, s, run) && Lossless(kinds, s, run, g)
    ensures Bare(kinds, t, g) && p in t.callers && t.callers[p].Missed? && t.callers[p].group == g
  {
    hide Legal, Exec, Lossless, WorldNext, HandingNext, CallNext;
    NoSteps(kinds, s, g);
    p := Unused(s.callers.Keys);
    run, t := Do(kinds, s, [], s, Arrive(p, g), g);
    run, t := Do(kinds, s, run, t, LookupMisses(p), g);
  }

  /** Then a caller who comes loads the key, with nothing lost meanwhile. */
  lemma CallerLoads(kinds: nat -> Kind, s: State, g: nat) returns (run: seq<Step>)
    requires Bare(kinds, s, g)
    ensures Legal(kinds, s, run) && Lossless(kinds, s, run, g) && Loading(Exec(kinds, s, run), g)
  {
    hide Legal, Exec, Lossless, WorldNext, PassingNext, HandingNext, CallNext;
    var t, p;
    run, t, p := CallerMisses(kinds, s, g);
    var id := Unused(t.tokens.Keys);
    run, t := Do(kinds, s, run, t, Lock(p), g);
    run, t := Do(kinds, s, run, t, Begin(p, id), g);
    run, t := Do(kinds, s, run, t, RecheckMisses(p), g);
    assert Loads(t.callers[p], g);
  }

  /** Counting from the registration instead, the same holds if and only if the load
      had not been invalidated by then, or was answered: otherwise callers cannot
      join it, and the next one loads again with nothing lost in between. */
  lemma SinceRegistration(kinds: nat -> Kind, s: State, p: nat, c: nat, g: nat)
    requires Inv(s) && Enabled(kinds, s, Register(p, c)) && s.callers[p].group == g
    ensures TokenValid(s, s.callers[p].t) || Answers(kinds, s, g)
            <==> (forall run :: Legal(kinds, Next(kinds, s, Register(p, c)), run)
                                && Lossless(kinds, Next(kinds, s, Register(p, c)), run, g)
                                ==> !Loading(Exec(kinds, Next(kinds, s, Register(p, c)), run), g))
  {
    var s' := Next(kinds, s, Register(p, c));
    RegisterSecures(kinds, s, p, c, g);
    StepKeeps(kinds, s, Register(p, c));
    if Secure(kinds, s', g) {
      forall run | Legal(kinds, s', run) && Lossless(kinds, s', run, g) ensures !Loading(Exec(kinds, s', run), g) {
        SecureStays(kinds, s', run, g);
      }
    } else {
      BareAfterRegister(kinds, s, p, c, g);
      var run := CallerLoads(kinds, s', g);
    }
  }

  lemma BareAfterRegister(kinds: nat -> Kind, s: State, p: nat, c: nat, g: nat)
    requires LocksOk(s) && HoldersOk(s) && Enabled(kinds, s, Register(p, c)) && s.callers[p].group == g
    requires !TokenValid(s, s.callers[p].t) && !Answers(kinds, s, g)
    ensures Bare(kinds, Next(kinds, s, Register(p, c)), g)
  {
    assert Carries(s.callers[p], s.callers[p].t);
  }

  /** A caller alone comes as far as its token. */
  lemma FirstBegins(kinds: nat -> Kind) returns (run: seq<Step>, s: State)
    ensures Legal(kinds, Init(), run) && s == Exec(kinds, Init(), run)
    ensures 0 in s.callers && s.callers[0] == Rechecking(0, 0, 0) && s.entry.None?
    ensures 0 in s.tokens && 0 in s.registry && 0 !in s.calls
  {
    hide Legal, Exec, Loses, Lossless;
    NoSteps(kinds, Init(), 0);
    run, s := Do(kinds, Init(), [], Init(), Arrive(0, 0), 0);
    run, s := Do(kinds, Init(), run, s, LookupMisses(0), 0);
    run, s := Do(kinds, Init(), run, s, Lock(0), 0);
    run, s := Do(kinds, Init(), run, s, Begin(0, 0), 0);
  }

  /** And that happens: the key is deleted between a caller's second look and its
      registration. */
  lemma InvalidatedWhileStarting(kinds: nat -> Kind) returns (run: seq<Step>, s: State)
    ensures Legal(kinds, Init(), run) && s == Exec(kinds, Init(), run) && Enabled(kinds, s, Register(0, 0))
    ensures !TokenValid(s, s.callers[0].t) && !Answers(kinds, s, s.callers[0].group)
  {
    hide Legal, Exec, Loses, Lossless;
    run, s := FirstBegins(kinds);
    run, s := Do(kinds, Init(), run, s, RecheckMisses(0), 0);
    run, s := Do(kinds, Init(), run, s, Forget, 0);
  }
}
