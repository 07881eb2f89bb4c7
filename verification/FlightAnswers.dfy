/**
 What callers are told: whoever waits for a load is told how that load came out, and
 whoever finds the key cached is told what was stored last.
 */
module FlightAnswers {
  import opened Flights
  import opened Maybe
  import opened FlightSafety
  import opened FlightTheorems

  lemma {:induction false} LastStep(kinds: nat -> Kind, front: seq<Step>, step: Step)
    requires Legal(kinds, Init(), front + [step])
    ensures Legal(kinds, Init(), front) && Enabled(kinds, Exec(kinds, Init(), front), step)
    ensures Exec(kinds, Init(), front + [step]) == Next(kinds, Exec(kinds, Init(), front), step)
  {
    hide Next, Enabled;
    ExecConcat(kinds, Init(), front, [step]);
    ExecOne(kinds, Exec(kinds, Init(), front), step);
  }

  // Waiters

  /** The call's result has been offered, and it is a. */
  predicate Told(call: Call, a: Answer) {
    match call.phase
    case Loading => false
    case HasRead(_) => false
    case Returned(b) => a == b
    case Dropped(b) => a == b
    case Done(b) => a == b
    case Ended(b) => a == b
  }

  /** Callers that received have what their call came to. */
  ghost predicate AnswersOk(callers: map<nat, Caller>, calls: map<nat, Call>) {
    forall p :: p in callers && callers[p].Returned? && callers[p].via.Some? ==>
      callers[p].via.value in calls && Told(calls[callers[p].via.value], callers[p].a)
  }

  /** A call that has read keeps to what it read, and one that has a result to that. */
  ghost predicate KeepsTo(calls: map<nat, Call>, calls': map<nat, Call>) {
    forall c :: c in calls ==>
      && c in calls'
      && (forall a :: Told(calls[c], a) ==> Told(calls'[c], a))
      && (calls[c].phase.HasRead? && calls'[c].phase.HasRead? ==> calls'[c].phase == calls[c].phase)
      && (!calls[c].phase.Loading? ==> !calls'[c].phase.Loading?)
  }

  lemma PassingKeepsTo(kinds: nat -> Kind, s: State, step: Step)
    requires IsPassing(step) && PassingEnabled(kinds, s, step)
    ensures KeepsTo(s.calls, PassingNext(kinds, s, step).calls)
  {
  }

  lemma HandingKeepsTo(kinds: nat -> Kind, s: State, step: Step)
    requires IsHanding(step) && HandingEnabled(kinds, s, step)
    ensures KeepsTo(s.calls, HandingNext(kinds, s, step).calls)
  {
  }

  lemma CallKeepsTo(kinds: nat -> Kind, s: State, step: Step)
    requires IsCall(step) && CallEnabled(kinds, s, step)
    ensures KeepsTo(s.calls, CallNext(kinds, s, step).calls)
  {
  }

  lemma StepKeepsTo(kinds: nat -> Kind, s: State, step: Step)
    requires Enabled(kinds, s, step)
    ensures KeepsTo(s.calls, Next(kinds, s, step).calls)
  {
    hide PassingNext, HandingNext, CallNext, PassingEnabled, HandingEnabled, CallEnabled;
    if IsWorld(step) {
    } else if IsPassing(step) {
      PassingKeepsTo(kinds, s, step);
    } else if IsLocking(step) {
    } else if IsHanding(step) {
      HandingKeepsTo(kinds, s, step);
    } else {
      CallKeepsTo(kinds, s, step);
    }
  }

  /** Only receiving gives a caller a call's answer. */
  lemma OnlyReceives(kinds: nat -> Kind, s: State, step: Step, p: nat)
    requires Enabled(kinds, s, step) && Mover(step) == Some(p) && !step.Receive?
    ensures var s' := Next(kinds, s, step);
            p in s'.callers && (s'.callers[p].Returned? ==> s'.callers[p].via.None?)
  {
    hide WorldNext, WorldEnabled, CallNext, CallEnabled;
    if IsPassing(step) {
    } else if IsLocking(step) {
    } else {
    }
  }

  lemma Receives(kinds: nat -> Kind, s: State, p: nat)
    requires Enabled(kinds, s, Receive(p))
    ensures var s', c := Next(kinds, s, Receive(p)), s.callers[p].c;
            && p in s'.callers && s'.callers[p].Returned? && s'.callers[p].via == Some(c)
            && c in s'.calls && Told(s'.calls[c], s'.callers[p].a)
  {
  }

  lemma AnswersKept(kinds: nat -> Kind, s: State, step: Step)
    requires AnswersOk(s.callers, s.calls) && Enabled(kinds, s, step)
    ensures var s' := Next(kinds, s, step); AnswersOk(s'.callers, s'.calls)
  {
    hide Next, Enabled, Told;
    var s', m := Next(kinds, s, step), Mover(step);
    MoverMoves(kinds, s, step);
    StepKeepsTo(kinds, s, step);
    if step.Receive? {
      Receives(kinds, s, step.p);
    } else if m.Some? {
      OnlyReceives(kinds, s, step, m.value);
    }
  }

  lemma KeepsToTwice(a: map<nat, Call>, b: map<nat, Call>, c: map<nat, Call>)
    requires KeepsTo(a, b) && KeepsTo(b, c)
    ensures KeepsTo(a, c)
  {
    forall k | k in a && a[k].phase.HasRead? && c[k].phase.HasRead? ensures c[k].phase == a[k].phase {
      if !b[k].phase.HasRead? {
        assert Told(b[k], b[k].phase.a);
      }
    }
  }

  lemma {:induction false} RunKeepsTo(kinds: nat -> Kind, s: State, steps: seq<Step>)
    requires Legal(kinds, s, steps) && AnswersOk(s.callers, s.calls)
    ensures var s' := Exec(kinds, s, steps); KeepsTo(s.calls, s'.calls) && AnswersOk(s'.callers, s'.calls)
    decreases |steps|
  {
    hide Next, Enabled, AnswersOk, KeepsTo;
    if steps == [] {
      KeepsToItself(s.calls);
    } else {
      var next := Next(kinds, s, steps[0]);
      StepKeepsTo(kinds, s, steps[0]);
      AnswersKept(kinds, s, steps[0]);
      RunKeepsTo(kinds, next, steps[1..]);
      KeepsToTwice(s.calls, next.calls, Exec(kinds, s, steps).calls);
    }
  }

  lemma KeepsToItself(calls: map<nat, Call>)
    ensures KeepsTo(calls, calls)
  {
  }

  /** What the step that offers a call's result makes of it, the call having read at. */
  function ComesTo(step: Step, at: nat): Answer
    requires step.Publish? || step.Fail?
  {
    if step.panics then Panic else if step.Fail? then Failure else Answer(Loaded(at), step.negative)
  }

  lemma StepTells(kinds: nat -> Kind, s: State, step: Step, at: nat)
    requires (step.Publish? || step.Fail?) && Enabled(kinds, s, step)
    requires step.Publish? ==> s.calls[step.c].phase == HasRead(at)
    ensures var s' := Next(kinds, s, step); step.c in s'.calls && Told(s'.calls[step.c], ComesTo(step, at))
  {
    hide WorldNext, PassingNext, LockingNext, WorldEnabled, PassingEnabled, LockingEnabled;
  }

  lemma PublishHasRead(kinds: nat -> Kind, s: State, step: Step)
    requires Enabled(kinds, s, step) && step.Publish?
    ensures step.c in s.calls && s.calls[step.c].phase.HasRead?
  {
  }

  lemma StartsTold(kinds: nat -> Kind)
    ensures AnswersOk(Init().callers, Init().calls)
  {
  }

  /** Whoever receives from a call after its result was offered is told that result. */
  lemma LoadIsTold(kinds: nat -> Kind, before: seq<Step>, after: seq<Step>, c: nat, a: Answer, p: nat)
    requires Legal(kinds, Init(), before + after) && Legal(kinds, Init(), before)
    requires var s := Exec(kinds, Init(), before); c in s.calls && Told(s.calls[c], a)
    ensures var s := Exec(kinds, Init(), before + after);
            p in s.callers && s.callers[p].Returned? && s.callers[p].via == Some(c) ==> s.callers[p].a == a
  {
    hide Next, Enabled, Legal, Exec, Init;
    ExecConcat(kinds, Init(), before, after);
    StartsTold(kinds);
    RunKeepsTo(kinds, Init(), before);
    RunKeepsTo(kinds, Exec(kinds, Init(), before), after);
  }

  /** Everybody who waits for a load that publishes is told what it read, unless the
      publication panics. */
  lemma WaitersGetTheLoad(kinds: nat -> Kind, before: seq<Step>, c: nat, negative: bool, ty: nat, stores: bool,
                          panics: bool, after: seq<Step>, p: nat)
    requires Legal(kinds, Init(), before + [Publish(c, negative, ty, stores, panics)] + after)
    requires Legal(kinds, Init(), before)
    ensures var s0 := Exec(kinds, Init(), before);
            var s := Exec(kinds, Init(), before + [Publish(c, negative, ty, stores, panics)] + after);
            && c in s0.calls && s0.calls[c].phase.HasRead?
            && (p in s.callers && s.callers[p].Returned? && s.callers[p].via == Some(c) ==>
                  s.callers[p].a == if panics then Panic else Answer(Loaded(s0.calls[c].phase.at), negative))
  {
    hide Next, Enabled, Legal, Exec, Init, Told;
    var step := Publish(c, negative, ty, stores, panics);
    var s0 := Exec(kinds, Init(), before);
    ExecConcat(kinds, Init(), before + [step], after);
    LastStep(kinds, before, step);
    PublishHasRead(kinds, s0, step);
    StepTells(kinds, s0, step, s0.calls[c].phase.at);
    LoadIsTold(kinds, before + [step], after, c, ComesTo(step, s0.calls[c].phase.at), p);
  }

  /** And whoever waits for one that fails is told so. */
  lemma WaitersGetTheFailure(kinds: nat -> Kind, before: seq<Step>, c: nat, panics: bool, after: seq<Step>, p: nat)
    requires Legal(kinds, Init(), before + [Fail(c, panics)] + after)
    ensures var s := Exec(kinds, Init(), before + [Fail(c, panics)] + after);
            p in s.callers && s.callers[p].Returned? && s.callers[p].via == Some(c) ==>
              s.callers[p].a == if panics then Panic else Failure
  {
    hide Next, Enabled, Legal, Exec, Init, Told;
    var step := Fail(c, panics);
    ExecConcat(kinds, Init(), before + [step], after);
    LastStep(kinds, before, step);
    StepTells(kinds, Exec(kinds, Init(), before), step, 0);
    LoadIsTold(kinds, before + [step], after, c, ComesTo(step, 0), p);
  }

  lemma ReadsNow(kinds: nat -> Kind, s: State, c: nat)
    requires Enabled(kinds, s, ReadSource(c))
    ensures var s' := Next(kinds, s, ReadSource(c)); c in s'.calls && s'.calls[c].phase == HasRead(s.clock)
  {
  }

  /** The version a load has in hand is the source's when it read. */
  lemma LoadHasWhatItRead(kinds: nat -> Kind, before: seq<Step>, c: nat, after: seq<Step>)
    requires Legal(kinds, Init(), before + [ReadSource(c)] + after) && Legal(kinds, Init(), before)
    ensures var s := Exec(kinds, Init(), before + [ReadSource(c)] + after);
            c in s.calls && (s.calls[c].phase.HasRead? ==> s.calls[c].phase.at == Exec(kinds, Init(), before).clock)
  {
    hide Next, Enabled, Legal, Exec, Init, Told, AnswersOk;
    ExecConcat(kinds, Init(), before + [ReadSource(c)], after);
    LastStep(kinds, before, ReadSource(c));
    ReadsNow(kinds, Exec(kinds, Init(), before), c);
    StartsTold(kinds);
    RunKeepsTo(kinds, Init(), before + [ReadSource(c)]);
    RunKeepsTo(kinds, Exec(kinds, Init(), before + [ReadSource(c)]), after);
  }

  // Hits

  /** The caller has an answer from the cache in hand. */
  predicate HasHit(q: Caller, a: Answer) {
    (q.Ending? && q.a == a) || (q.Returned? && q.via.None? && q.a == a)
  }

  /** The step finds the key's entry for p, who reads such entries, and it says a. */
  predicate Finds(kinds: nat -> Kind, s: State, step: Step, p: nat, a: Answer) {
    && (step == LookupHits(p) || step == RecheckHits(p))
    && p in s.callers && (s.callers[p].Arrived? || s.callers[p].Rechecking?)
    && s.entry.Some? && a == Answer(s.entry.value.origin, s.entry.value.negative)
    && var kind := kinds(s.callers[p].group);
       kind.Only? && !s.entry.value.negative ==> s.entry.value.ty == kind.ty
  }

  lemma StepHits(kinds: nat -> Kind, s: State, step: Step, p: nat, a: Answer)
    requires Enabled(kinds, s, step) && Mover(step) == Some(p)
    requires var s' := Next(kinds, s, step); p in s'.callers && HasHit(s'.callers[p], a)
    ensures Finds(kinds, s, step, p, a) || (p in s.callers && HasHit(s.callers[p], a))
  {
    hide WorldNext, WorldEnabled, CallNext, CallEnabled;
    if IsPassing(step) {
    } else if IsLocking(step) {
    } else {
    }
  }

  lemma NobodyYetHit()
    ensures Init().callers == map[]
  {
  }

  /** Whoever is answered from the cache is told what it held when it was looked at. */
  lemma {:induction false} HitWasResident(kinds: nat -> Kind, steps: seq<Step>, p: nat, a: Answer)
    returns (before: seq<Step>, step: Step, after: seq<Step>)
    requires Legal(kinds, Init(), steps)
    requires var s := Exec(kinds, Init(), steps); p in s.callers && HasHit(s.callers[p], a)
    ensures steps == before + [step] + after && Legal(kinds, Init(), before)
    ensures Finds(kinds, Exec(kinds, Init(), before), step, p, a)
    decreases |steps|
  {
    hide Next, Enabled, Init, HasHit, Finds;
    NobodyYetHit();
    if steps == [] {
      assert false;
    } else {
      var front, last := steps[..|steps| - 1], steps[|steps| - 1];
      assert steps == front + [last];
      LastStep(kinds, front, last);
      var s := Exec(kinds, Init(), front);
      MoverMoves(kinds, s, last);
      if Mover(last) == Some(p) {
        StepHits(kinds, s, last, p, a);
      }
      if Finds(kinds, s, last, p, a) {
        before, step, after := front, last, [];
      } else {
        before, step, after := HitWasResident(kinds, front, p, a);
        after := after + [last];
      }
    }
  }

  /** And who misses finds nothing, or nothing that has not expired, or nothing it can
      read. */
  lemma MissFindsNothing(kinds: nat -> Kind, s: State, step: Step, p: nat)
    requires Enabled(kinds, s, step) && (step == LookupMisses(p) || step == RecheckMisses(p))
    ensures p in s.callers && (s.callers[p].Arrived? || s.callers[p].Rechecking?)
    ensures var kind := kinds(s.callers[p].group);
            || s.entry.None? || s.entry.value.stale
            || (kind.Only? && !s.entry.value.negative && s.entry.value.ty != kind.ty)
  {
  }

  // The entry

  /** The step stores an entry that says a, of type ty. */
  predicate Stores(s: State, step: Step, a: Answer, ty: nat) {
    match step
    case Write(negative, t) => a == Answer(Written(s.clock + 1), negative) && ty == t
    case Publish(c, negative, t, stores, _) =>
      && stores && c in s.calls && TokenValid(s, s.calls[c].token) && s.calls[c].phase.HasRead?
      && a == Answer(Loaded(s.calls[c].phase.at), negative) && ty == t
    case _ => false
  }

  /** The step takes the entry out, or stores another. */
  predicate Displaces(s: State, step: Step) {
    step.Forget? || step.Write? || step.Evict? || step.DropStale? || Publishes(s, step)
  }

  predicate Undisplaced(kinds: nat -> Kind, s: State, steps: seq<Step>)
    requires Legal(kinds, s, steps)
    decreases |steps|
  {
    steps == [] || (!Displaces(s, steps[0]) && Undisplaced(kinds, Next(kinds, s, steps[0]), steps[1..]))
  }

  /** The key's entry says a. */
  predicate Says(entry: Option<Entry>, a: Answer, ty: nat) {
    entry.Some? && a == Answer(entry.value.origin, entry.value.negative) && entry.value.ty == ty
  }

  lemma PassingKeepsEntry(kinds: nat -> Kind, s: State, step: Step)
    requires IsPassing(step) && PassingEnabled(kinds, s, step)
    ensures PassingNext(kinds, s, step).entry == s.entry
  {
  }

  lemma LockingKeepsEntry(kinds: nat -> Kind, s: State, step: Step)
    requires IsLocking(step) && LockingEnabled(kinds, s, step)
    ensures LockingNext(kinds, s, step).entry == s.entry
  {
  }

  lemma CallKeepsEntry(kinds: nat -> Kind, s: State, step: Step)
    requires IsCall(step) && CallEnabled(kinds, s, step)
    ensures CallNext(kinds, s, step).entry == s.entry
  {
  }

  lemma EntryKept(kinds: nat -> Kind, s: State, step: Step)
    requires Enabled(kinds, s, step) && !Displaces(s, step)
    ensures var s' := Next(kinds, s, step);
            s'.entry == if step.Expire? && s.entry.Some? then Some(s.entry.value.(stale := true)) else s.entry
  {
    hide PassingNext, LockingNext, CallNext, PassingEnabled, LockingEnabled, CallEnabled;
    if IsPassing(step) {
      PassingKeepsEntry(kinds, s, step);
    } else if IsLocking(step) {
      LockingKeepsEntry(kinds, s, step);
    } else if IsCall(step) {
      CallKeepsEntry(kinds, s, step);
    }
  }

  lemma EntryStored(kinds: nat -> Kind, s: State, step: Step, a: Answer, ty: nat)
    requires Enabled(kinds, s, step) && Stores(s, step, a, ty)
    ensures var s' := Next(kinds, s, step); Says(s'.entry, a, ty) && !s'.entry.value.stale
  {
    hide PassingNext, LockingNext, CallNext, PassingEnabled, LockingEnabled, CallEnabled;
  }

  predicate Expires(steps: seq<Step>) {
    exists i :: 0 <= i < |steps| && steps[i].Expire?
  }

  lemma {:induction false} RunKeepsEntry(kinds: nat -> Kind, s: State, steps: seq<Step>, a: Answer, ty: nat)
    requires Legal(kinds, s, steps) && Undisplaced(kinds, s, steps) && Says(s.entry, a, ty)
    ensures var entry := Exec(kinds, s, steps).entry;
            Says(entry, a, ty) && (entry.value.stale <==> s.entry.value.stale || Expires(steps))
    decreases |steps|
  {
    hide Next, Enabled, Displaces;
    if steps == [] {
    } else {
      EntryKept(kinds, s, steps[0]);
      RunKeepsEntry(kinds, Next(kinds, s, steps[0]), steps[1..], a, ty);
      assert steps == [steps[0]] + steps[1..];
      if Expires(steps[1..]) {
        var i :| 0 <= i < |steps[1..]| && steps[1..][i].Expire?;
        assert steps[i + 1].Expire?;
      }
      if Expires(steps) && !steps[0].Expire? {
        var i :| 0 <= i < |steps| && steps[i].Expire?;
        assert steps[1..][i - 1].Expire?;
      }
    }
  }

  /** What was written or published is what the cache holds, until it is taken out or
      something else is stored; it is stale exactly if it has expired since. */
  lemma StoredIsHeld(kinds: nat -> Kind, before: seq<Step>, step: Step, after: seq<Step>, a: Answer, ty: nat)
    requires Legal(kinds, Init(), before + [step] + after) && Legal(kinds, Init(), before)
    requires Stores(Exec(kinds, Init(), before), step, a, ty)
    requires Legal(kinds, Init(), before + [step]) && Legal(kinds, Exec(kinds, Init(), before + [step]), after)
    requires Undisplaced(kinds, Exec(kinds, Init(), before + [step]), after)
    ensures var entry := Exec(kinds, Init(), before + [step] + after).entry;
            Says(entry, a, ty) && (entry.value.stale <==> Expires(after))
  {
    hide Next, Enabled, Legal, Exec, Init, Stores, Says, Undisplaced, Expires;
    ExecConcat(kinds, Init(), before + [step], after);
    LastStep(kinds, before, step);
    EntryStored(kinds, Exec(kinds, Init(), before), step, a, ty);
    RunKeepsEntry(kinds, Exec(kinds, Init(), before + [step]), after, a, ty);
  }

  lemma StepSays(kinds: nat -> Kind, s: State, step: Step, a: Answer, ty: nat)
    requires Enabled(kinds, s, step) && Displaces(s, step) && Says(Next(kinds, s, step).entry, a, ty)
    ensures Stores(s, step, a, ty)
  {
    hide PassingNext, LockingNext, CallNext, PassingEnabled, LockingEnabled, CallEnabled;
  }

  lemma {:induction false} UndisplacedSnoc(kinds: nat -> Kind, s: State, steps: seq<Step>, step: Step)
    requires Legal(kinds, s, steps + [step]) && Legal(kinds, s, steps)
    requires Undisplaced(kinds, s, steps) && !Displaces(Exec(kinds, s, steps), step)
    ensures Undisplaced(kinds, s, steps + [step])
    decreases |steps|
  {
    hide Next, Enabled, Displaces;
    if steps == [] {
      assert steps + [step] == [step] && [step][1..] == [];
    } else {
      assert (steps + [step])[1..] == steps[1..] + [step];
      UndisplacedSnoc(kinds, Next(kinds, s, steps[0]), steps[1..], step);
    }
  }

  lemma NothingYet()
    ensures Init().entry.None?
  {
  }

  /** And what the cache holds was stored by the last step to store or take out. */
  lemma {:induction false} HeldWasStored(kinds: nat -> Kind, steps: seq<Step>, a: Answer, ty: nat)
    returns (before: seq<Step>, step: Step, after: seq<Step>)
    requires Legal(kinds, Init(), steps) && Says(Exec(kinds, Init(), steps).entry, a, ty)
    ensures steps == before + [step] + after && Legal(kinds, Init(), before) && Legal(kinds, Init(), before + [step])
    ensures Stores(Exec(kinds, Init(), before), step, a, ty)
    ensures Legal(kinds, Exec(kinds, Init(), before + [step]), after)
    ensures Undisplaced(kinds, Exec(kinds, Init(), before + [step]), after)
    decreases |steps|
  {
    hide Next, Enabled, Init, Displaces, Stores, Publishes;
    NothingYet();
    if steps == [] {
      assert false;
    } else {
      var front, last := steps[..|steps| - 1], steps[|steps| - 1];
      assert steps == front + [last];
      LastStep(kinds, front, last);
      var s := Exec(kinds, Init(), front);
      if Displaces(s, last) {
        StepSays(kinds, s, last, a, ty);
        before, step, after := front, last, [];
      } else {
        EntryKept(kinds, s, last);
        before, step, after := HeldWasStored(kinds, front, a, ty);
        assert before + [step] + (after + [last]) == front + [last];
        ExecConcat(kinds, Init(), before + [step], after);
        ExecConcat(kinds, Init(), before + [step], after + [last]);
        UndisplacedSnoc(kinds, Exec(kinds, Init(), before + [step]), after, last);
        after := after + [last];
      }
    }
  }
}
