/**
 The context shared by the keys of one batch load. The batch's maker holds a waiter
 slot on every call it registers, other callers join and leave at any moment, the
 last to leave a call cancels it afterwards, outside the group's mutex, and the
 cancellation that brings the shared count to zero stops the batch after that.
 */
module BatchCancellation {

  datatype Member = Member(others: nat, maker: bool, leaving: bool, cancelled: bool)
  {
    /** The call's waiters. */
    function Waiters(): nat {
      others + if maker then 1 else 0
    }
  }

  datatype State = State(members: seq<Member>, refresh: bool, acquired: bool, live: int, stopping: bool, stopped: bool)

  datatype Step =
    | Register
    | Acquired            // the maker has gone through all its keys
    | Join(i: nat)
    | Leave(i: nat)
    | MakerLeaves(i: nat)
    | Cancel(i: nat)
    | Stop

  function Start(refresh: bool): State {
    State([], refresh, false, 0, false, false)
  }

  predicate Enabled(s: State, step: Step) {
    match step
    case Register => !s.acquired
    case Acquired => !s.acquired
    // a call without waiters is out of the group's map
    case Join(i) => i < |s.members| && s.members[i].Waiters() > 0
    case Leave(i) => i < |s.members| && s.members[i].others > 0
    // a refresh has nobody behind it to leave, and a maker leaves only from collect
    case MakerLeaves(i) => i < |s.members| && s.members[i].maker && s.acquired && !s.refresh
    case Cancel(i) => i < |s.members| && s.members[i].leaving
    case Stop => s.stopping
  }

  function Left(m: Member): Member {
    if m.Waiters() == 0 then m.(leaving := true) else m
  }

  function Next(s: State, step: Step): State
    requires Enabled(s, step)
  {
    match step
    case Register => s.(members := s.members + [Member(0, true, false, false)], live := s.live + 1)
    case Acquired => s.(acquired := true)
    case Join(i) => s.(members := s.members[i := s.members[i].(others := s.members[i].others + 1)])
    case Leave(i) => s.(members := s.members[i := Left(s.members[i].(others := s.members[i].others - 1))])
    case MakerLeaves(i) => s.(members := s.members[i := Left(s.members[i].(maker := false))])
    case Cancel(i) =>
      s.(members := s.members[i := s.members[i].(leaving := false, cancelled := true)], live := s.live - 1,
         stopping := s.stopping || s.live == 1)
    case Stop => s.(stopping := false, stopped := true)
  }

  function Uncancelled(members: seq<Member>): nat {
    if members == [] then 0
    else (if members[0].cancelled then 0 else 1) + Uncancelled(members[1..])
  }

  predicate MemberOk(m: Member) {
    && (m.Waiters() == 0 <==> m.leaving || m.cancelled)
    && !(m.leaving && m.cancelled)
  }

  ghost predicate Ok(s: State) {
    && s.live == Uncancelled(s.members)
    && (forall i :: 0 <= i < |s.members| ==> MemberOk(s.members[i]))
    && (!s.acquired || s.refresh ==> forall i :: 0 <= i < |s.members| ==> s.members[i].maker)
    && (s.stopping || s.stopped <==> s.live == 0 && s.members != [])
  }

  lemma {:induction false} UncancelledUpdate(members: seq<Member>, i: nat, m: Member)
    requires i < |members|
    ensures Uncancelled(members[i := m]) + (if members[i].cancelled then 0 else 1)
            == Uncancelled(members) + if m.cancelled then 0 else 1
  {
    if i == 0 {
      assert members[i := m][1..] == members[1..];
    } else {
      assert members[i := m][1..] == members[1..][i - 1 := m];
      UncancelledUpdate(members[1..], i - 1, m);
    }
  }

  lemma {:induction false} UncancelledSnoc(members: seq<Member>, m: Member)
    ensures Uncancelled(members + [m]) == Uncancelled(members) + if m.cancelled then 0 else 1
  {
    if members == [] {
      assert [m][1..] == [];
    } else {
      assert (members + [m])[1..] == members[1..] + [m];
      UncancelledSnoc(members[1..], m);
    }
  }

  lemma {:induction false} NoneUncancelled(members: seq<Member>)
    ensures Uncancelled(members) == 0 <==> forall i :: 0 <= i < |members| ==> members[i].cancelled
  {
    if members == [] {
    } else {
      NoneUncancelled(members[1..]);
      assert members == [members[0]] + members[1..];
    }
  }

  lemma StepKeeps(s: State, step: Step)
    requires Ok(s) && Enabled(s, step)
    ensures Ok(Next(s, step))
  {
    NoneUncancelled(s.members);
    match step
    case Register => UncancelledSnoc(s.members, Member(0, true, false, false));
    case Join(i) => UncancelledUpdate(s.members, i, Next(s, step).members[i]);
    case Leave(i) => UncancelledUpdate(s.members, i, Next(s, step).members[i]);
    case MakerLeaves(i) => UncancelledUpdate(s.members, i, Next(s, step).members[i]);
    case Cancel(i) => UncancelledUpdate(s.members, i, Next(s, step).members[i]);
    case Acquired =>
    case Stop =>
  }

  predicate Legal(s: State, steps: seq<Step>)
    decreases |steps|
  {
    steps == [] || (Enabled(s, steps[0]) && Legal(Next(s, steps[0]), steps[1..]))
  }

  function Exec(s: State, steps: seq<Step>): State
    requires Legal(s, steps)
    decreases |steps|
  {
    if steps == [] then s else Exec(Next(s, steps[0]), steps[1..])
  }

  lemma {:induction false} RunKeeps(s: State, steps: seq<Step>)
    requires Ok(s) && Legal(s, steps)
    ensures Ok(Exec(s, steps)) && Exec(s, steps).refresh == s.refresh
    decreases |steps|
  {
    if steps == [] {
    } else {
      StepKeeps(s, steps[0]);
      RunKeeps(Next(s, steps[0]), steps[1..]);
    }
  }

  /** However joins and leaves interleave, a batch is stopped early only once every
      key has lost its last waiter, a refresh batch never; and once every key has,
      it is stopped as soon as the last leavers have done what they have to. */
  lemma StoppedExactlyWhenDeserted(refresh: bool, steps: seq<Step>)
    requires Legal(Start(refresh), steps)
    ensures var s := Exec(Start(refresh), steps);
            var deserted := s.members != [] && forall i :: 0 <= i < |s.members| ==> s.members[i].Waiters() == 0;
            && (s.stopped ==> deserted && s.acquired && !refresh)
            && (deserted && !s.stopping && (forall i :: 0 <= i < |s.members| ==> !s.members[i].leaving) ==> s.stopped)
  {
    RunKeeps(Start(refresh), steps);
    NoneUncancelled(Exec(Start(refresh), steps).members);
  }
}
