/**
 More of what single flight promises, over every run of the machine: publications
 never go backwards, tokens tell exactly whether a load was disturbed, a group has one
 load at a time, and who waits for a load.
 */
module FlightTheorems {
  import opened Flights
  import opened FlightInvariants
  import opened FlightSafety

  // Publications

  /** The step puts a load's result into the cache. */
  predicate Publishes(s: State, step: Step) {
    && step.Publish? && step.stores
    && step.c in s.calls && TokenValid(s, s.calls[step.c].token)
  }

  /** The source versions a run publishes, in order. */
  function Publications(kinds: nat -> Kind, s: State, steps: seq<Step>): seq<nat>
    requires Legal(kinds, s, steps)
    decreases |steps|
  {
    if steps == [] then []
    else
      var rest := Publications(kinds, Next(kinds, s, steps[0]), steps[1..]);
      if Publishes(s, steps[0]) then [s.calls[steps[0].c].phase.at] + rest else rest
  }

  /** Only a publication changes what was published last. */
  lemma PublishedStays(kinds: nat -> Kind, s: State, step: Step)
    requires Enabled(kinds, s, step) && !Publishes(s, step)
    ensures Next(kinds, s, step).published == s.published
  {
    if IsWorld(step) || IsHanding(step) {
      hide PassingNext, LockingNext, CallNext, PassingEnabled, LockingEnabled, CallEnabled;
    } else {
      hide Next, Enabled;
      OthersKeepVersions(kinds, s, step);
    }
  }

  /** A load that publishes read the source no earlier than the last publication
      and the last write or delete. */
  lemma PublishRises(kinds: nat -> Kind, s: State, step: Step)
    requires TokensOk(s) && HoldersOk(s) && CallsOk(s) && Enabled(kinds, s, step)
    ensures Next(kinds, s, step).published >= s.published
    ensures Publishes(s, step) ==>
              && s.calls[step.c].phase.at >= s.published && s.calls[step.c].phase.at >= s.floor
              && Next(kinds, s, step).published == s.calls[step.c].phase.at
  {
    hide WorldNext, PassingNext, LockingNext, CallNext, WorldEnabled, PassingEnabled, LockingEnabled, CallEnabled;
    if Publishes(s, step) {
      assert s.calls[step.c].token in s.registry;
    } else {
      hide HandingNext, HandingEnabled, TokensOk, HoldersOk, CallsOk;
      PublishedStays(kinds, s, step);
    }
  }

  ghost predicate Rising(versions: seq<nat>, from: nat) {
    && (forall i :: 0 <= i < |versions| ==> versions[i] >= from)
    && (forall i, j :: 0 <= i < j < |versions| ==> versions[i] <= versions[j])
  }

  /** Over any run with any number of groups, the versions published never go back. */
  lemma {:induction false} PublicationsNeverGoBack(kinds: nat -> Kind, s: State, steps: seq<Step>)
    requires Inv(s) && Legal(kinds, s, steps)
    ensures Rising(Publications(kinds, s, steps), s.published)
    decreases |steps|
  {
    hide Next, Enabled, TokensOk, HoldersOk, LocksOk, CallsOk, FlightsOk, WaitersOk, SingleOk, VersionsOk;
    if steps == [] {
    } else {
      var next := Next(kinds, s, steps[0]);
      PublishRises(kinds, s, steps[0]);
      StepKeeps(kinds, s, steps[0]);
      PublicationsNeverGoBack(kinds, next, steps[1..]);
      assert Rising(Publications(kinds, next, steps[1..]), s.published);
    }
  }

  // Tokens

  /** The step writes, deletes, clears or publishes the key. */
  predicate Disturbs(s: State, step: Step) {
    step.Forget? || step.Write? || Publishes(s, step)
  }

  predicate Undisturbed(kinds: nat -> Kind, s: State, steps: seq<Step>)
    requires Legal(kinds, s, steps)
    decreases |steps|
  {
    steps == [] || (!Disturbs(s, steps[0]) && Undisturbed(kinds, Next(kinds, s, steps[0]), steps[1..]))
  }

  /** The step takes token t out of the registry for whoever holds it. */
  predicate Ends(s: State, step: Step, t: nat) {
    || (step.End? && step.c in s.calls && s.calls[step.c].token == t)
    || (step.EndAndUnlock? && step.p in s.callers && Carries(s.callers[step.p], t))
  }

  ghost predicate TokenMoves(s: State, s': State, step: Step, t: nat) {
    && t in s.tokens && t in s'.tokens && s'.tokens[t].begun == s.tokens[t].begun
    && (s'.tokens[t].ended <==> s.tokens[t].ended || Ends(s, step, t))
    && (!s.tokens[t].ended ==> (s'.tokens[t].valid <==> s.tokens[t].valid && !Disturbs(s, step)))
    && (!s.tokens[t].valid ==> !s'.tokens[t].valid)
  }

  lemma TokenStepHanding(kinds: nat -> Kind, s: State, step: Step, t: nat)
    requires TokensOk(s) && IsHanding(step) && HandingEnabled(kinds, s, step) && t in s.tokens
    ensures TokenMoves(s, HandingNext(kinds, s, step), step, t)
  {
  }

  lemma TokenStepWorld(kinds: nat -> Kind, s: State, step: Step, t: nat)
    requires TokensOk(s) && IsWorld(step) && WorldEnabled(kinds, s, step) && t in s.tokens
    ensures TokenMoves(s, WorldNext(kinds, s, step), step, t)
  {
  }

  lemma TokenStepLocking(kinds: nat -> Kind, s: State, step: Step, t: nat)
    requires IsLocking(step) && LockingEnabled(kinds, s, step) && t in s.tokens
    ensures TokenMoves(s, LockingNext(kinds, s, step), step, t)
  {
  }

  lemma TokenStep(kinds: nat -> Kind, s: State, step: Step, t: nat)
    requires TokensOk(s) && Enabled(kinds, s, step) && t in s.tokens
    ensures TokenMoves(s, Next(kinds, s, step), step, t)
  {
    hide TokensOk, WorldNext, HandingNext, LockingNext, WorldEnabled, HandingEnabled, LockingEnabled;
    if IsWorld(step) {
      TokenStepWorld(kinds, s, step, t);
    } else if IsPassing(step) {
    } else if IsLocking(step) {
      TokenStepLocking(kinds, s, step, t);
    } else if IsHanding(step) {
      TokenStepHanding(kinds, s, step, t);
    } else {
    }
  }

  lemma {:induction false} TokenStaysInvalid(kinds: nat -> Kind, s: State, steps: seq<Step>, t: nat)
    requires Inv(s) && Legal(kinds, s, steps) && t in s.tokens
    ensures var s' := Exec(kinds, s, steps);
            && t in s'.tokens
            && (s.tokens[t].ended ==> s'.tokens[t].ended)
            && (!s.tokens[t].valid ==> !s'.tokens[t].valid)
    decreases |steps|
  {
    hide Next, Enabled;
    if steps == [] {
    } else {
      TokenStep(kinds, s, steps[0], t);
      StepKeeps(kinds, s, steps[0]);
      TokenStaysInvalid(kinds, Next(kinds, s, steps[0]), steps[1..], t);
    }
  }

  /** A token still unended tells exactly whether the key was written, deleted,
      cleared or published since the token was in the registry. */
  lemma {:induction false} ValidMeansUndisturbed(kinds: nat -> Kind, s: State, steps: seq<Step>, t: nat)
    requires Inv(s) && Legal(kinds, s, steps) && t in s.registry
    ensures var s' := Exec(kinds, s, steps);
            && t in s'.tokens
            && (!s'.tokens[t].ended ==> (s'.tokens[t].valid <==> Undisturbed(kinds, s, steps)))
    decreases |steps|
  {
    hide Next, Enabled;
    if steps == [] {
    } else {
      var next := Next(kinds, s, steps[0]);
      TokenStep(kinds, s, steps[0], t);
      StepKeeps(kinds, s, steps[0]);
      TokenStaysInvalid(kinds, next, steps[1..], t);
      if t in next.registry {
        ValidMeansUndisturbed(kinds, next, steps[1..], t);
      }
    }
  }

  /** A token in the registry has a holder that is not done. */
  lemma RegisteredIsHeld(s: State, t: nat)
    requires TokensOk(s) && HoldersOk(s) && LocksOk(s) && t in s.registry
    ensures (exists c :: c in s.calls && !s.calls[c].phase.Ended?) || s.locks != map[]
  {
    assert Held(s, t, s.tokens[t].holder);
    if s.tokens[t].holder.ByCaller? {
      var q := s.callers[s.tokens[t].holder.p];
      assert Holds(q, q.group);
      assert q.group in s.locks;
    } else {
      assert !s.calls[s.tokens[t].holder.c].phase.Ended?;
    }
  }

  /** In every reachable state the registry is the tokens begun, neither ended nor
      invalidated, and it is empty once no load runs or is being started. */
  lemma RegistryExact(kinds: nat -> Kind, steps: seq<Step>)
    requires Legal(kinds, Init(), steps)
    ensures var s := Exec(kinds, Init(), steps);
            && (forall t :: t in s.registry <==> TokenValid(s, t) && !s.tokens[t].ended)
            && ((forall c :: c in s.calls ==> s.calls[c].phase.Ended?) && s.locks == map[] ==> s.registry == {})
  {
    hide Next, Enabled, Legal, Exec, Init, HoldersOk, LocksOk, CallsOk, FlightsOk, WaitersOk, SingleOk, VersionsOk;
    InitOk(kinds);
    RunKeeps(kinds, Init(), steps);
    var s := Exec(kinds, Init(), steps);
    forall t | t in s.registry
      ensures (exists c :: c in s.calls && !s.calls[c].phase.Ended?) || s.locks != map[]
    {
      RegisteredIsHeld(s, t);
    }
  }

  /** Whatever way a load ends, its token is ended then and not before. */
  lemma EachTokenEndsOnce(kinds: nat -> Kind, s: State, step: Step, t: nat)
    requires Inv(s) && Enabled(kinds, s, step) && Ends(s, step, t)
    ensures t in s.tokens && !s.tokens[t].ended
    ensures var s' := Next(kinds, s, step); t in s'.tokens && s'.tokens[t].ended
  {
    hide Next, TokensOk, LocksOk, CallsOk, FlightsOk, WaitersOk, SingleOk, VersionsOk;
    TokenStep(kinds, s, step, t);
  }

  // One flight

  /** A call that is unfinished, waited for and can still publish is the one call
      of its group that callers can join, and the other way round. */
  lemma OneFlight(kinds: nat -> Kind, steps: seq<Step>, g: nat, c: nat)
    requires Legal(kinds, Init(), steps)
    ensures var s := Exec(kinds, Init(), steps);
            c in s.calls && s.calls[c].group == g && Joinable(s, s.calls[c])
            <==> Running(s, g) && s.flights[g] == c
  {
    hide Next, Enabled, Legal, Exec, Init, TokensOk, HoldersOk, LocksOk, CallsOk, VersionsOk, WaitersOk;
    InitOk(kinds);
    RunKeeps(kinds, Init(), steps);
  }

  // Waiters

  /** In every reachable state a call counts its callers joined less those that left,
      and one for a refresh. It is cancelled early only with nobody left, and with
      nobody left it is cancelled or the last to leave is about to; a refresh never.
      A group's call in the map is unfinished, uncancelled and waited for. */
  lemma WaitersAndCancellation(kinds: nat -> Kind, steps: seq<Step>, c: nat)
    requires Legal(kinds, Init(), steps) && c in Exec(kinds, Init(), steps).calls
    ensures var s := Exec(kinds, Init(), steps);
            var call := s.calls[c];
            && call.waiters == |Staying(s, c)| + (if call.refresh then 1 else 0)
            && (call.cancelled ==> Staying(s, c) == {} && !call.refresh)
            && (Staying(s, c) == {} && !call.refresh ==>
                  call.cancelled || exists p :: p in s.callers && s.callers[p] == Left(c, true))
            && (forall g :: g in s.flights && s.flights[g] == c ==>
                  g == call.group && Unfinished(call) && !call.cancelled && call.waiters > 0)
  {
    hide Next, Enabled, Legal, Exec, Init, TokensOk, HoldersOk, LocksOk, CallsOk, SingleOk, VersionsOk;
    InitOk(kinds);
    RunKeeps(kinds, Init(), steps);
  }
}
