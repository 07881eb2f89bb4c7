/**
 Which queue gives up an entry, and which entry: the small queue while it holds a
 tenth of a budget, what of it was read moving up; otherwise the main queue, each of
 whose entries goes round once for every read it has.
 */
module Shares {
  import opened ShardModel
  import opened Eviction

  /** The small queue holds a tenth of the bytes or of the entries, one at least,
      where there is a budget for them. */
  predicate HoldsItsTenth<K, V>(cfg: Config<K>, small: Queue<K, V>) {
    || (cfg.maxBytes > 0 && Bytes(small) >= 1 && Bytes(small) >= cfg.maxBytes / 10)
    || (cfg.maxEntries > 0 && |small| >= 1 && |small| >= cfg.maxEntries / 10)
  }

  predicate HoldsOnly<K(==), V>(q: Queue<K, V>, keep: K) {
    forall i :: 0 <= i < |q| ==> q[i].key == keep
  }

  lemma TenthIsShare<K, V>(cfg: Config<K>, s: State<K, V>)
    ensures SmallFull(cfg, s) <==> HoldsItsTenth(cfg, s.small)
  {
  }

  lemma NothingToGive<K, V>(main: Queue<K, V>, keep: K)
    requires Distinct(main)
    ensures HoldsOnly(main, keep) <==> OldestButKeep(main, keep) < 0
    ensures OldestButKeep(main, keep) >= 0 ==> main[OldestButKeep(main, keep)].key != keep
  {
    assert |main| > 1 ==> main[|main| - 1].key != main[|main| - 2].key;
  }

  /** The small queue gives up its oldest entry if it holds its tenth, or if the main
      queue has nothing but keep: one that was read goes to the front of the main
      queue, its reads forgotten, and one that was not leaves. */
  lemma SmallQueueGives<K, V>(cfg: Config<K>, s: State<K, V>, keep: K)
    requires Distinct(s.main) && s.small != [] && s.small[|s.small| - 1].key != keep
    requires HoldsItsTenth(cfg, s.small) || HoldsOnly(s.main, keep)
    ensures var turn, last := TakeTurn(cfg, s, keep), |s.small| - 1;
            var t := s.small[last];
            if t.freq > 0
            then turn.Moved? && turn.state == State([t.(freq := 0)] + s.main, s.small[..last], s.log)
            else turn.Gone? && turn.victim == t && !turn.fromMain
                 && turn.state.main == s.main && turn.state.small == s.small[..last]
  {
    hide HoldsItsTenth, SmallFull, HoldsOnly, OldestButKeep, Distinct;
    TenthIsShare(cfg, s);
    NothingToGive(s.main, keep);
  }

  /** Otherwise the main queue gives up its oldest entry but keep: one that has reads
      goes to the front with one read fewer, and one that has none leaves. */
  lemma MainQueueGives<K, V>(cfg: Config<K>, s: State<K, V>, keep: K) returns (i: nat)
    requires Distinct(s.main) && !HoldsOnly(s.main, keep)
    requires s.small == [] || s.small[|s.small| - 1].key == keep || !HoldsItsTenth(cfg, s.small)
    ensures i < |s.main| && s.main[i].key != keep && (forall j :: i < j < |s.main| ==> s.main[j].key == keep)
    ensures var turn, rest := TakeTurn(cfg, s, keep), s.main[..i] + s.main[i + 1..];
            if s.main[i].freq > 0
            then turn.Moved? && turn.state == s.(main := [s.main[i].(freq := s.main[i].freq - 1)] + rest)
            else turn.Gone? && turn.victim == s.main[i] && turn.fromMain && turn.state == s.(main := rest)
  {
    hide HoldsItsTenth, SmallFull, HoldsOnly;
    TenthIsShare(cfg, s);
    NothingToGive(s.main, keep);
    i := OldestButKeep(s.main, keep);
  }

  // The victims of each queue

  /** What an eviction lets out of the small queue, in order. */
  function SmallVictims<K(==), V>(cfg: Config<K>, s: State<K, V>, keep: K): Queue<K, V>
    requires Wf(s)
    decreases Effort(s, keep)
  {
    if !Over(cfg, s) then []
    else
      TurnShrinksEffort(cfg, s, keep);
      match TakeTurn(cfg, s, keep)
      case Stuck => []
      case Moved(next) => SmallVictims(cfg, next, keep)
      case Gone(next, victim, fromMain) =>
        (if fromMain then [] else [victim]) + SmallVictims(cfg, next, keep)
  }

  /** What it takes from the main queue. */
  function MainVictims<K(==), V>(cfg: Config<K>, s: State<K, V>, keep: K): Queue<K, V>
    requires Wf(s)
    decreases Effort(s, keep)
  {
    if !Over(cfg, s) then []
    else
      TurnShrinksEffort(cfg, s, keep);
      match TakeTurn(cfg, s, keep)
      case Stuck => []
      case Moved(next) => MainVictims(cfg, next, keep)
      case Gone(next, victim, fromMain) =>
        (if fromMain then [victim] else []) + MainVictims(cfg, next, keep)
  }

  lemma MainVictimsStep<K, V>(cfg: Config<K>, s: State<K, V>, keep: K)
    requires Wf(s) && Over(cfg, s) && !TakeTurn(cfg, s, keep).Stuck?
    ensures var turn := TakeTurn(cfg, s, keep);
            && Wf(turn.state) && EvictS3Fifo(cfg, s, keep).state == EvictS3Fifo(cfg, turn.state, keep).state
            && MainVictims(cfg, s, keep) == if turn.Gone? && turn.fromMain
                                            then [turn.victim] + MainVictims(cfg, turn.state, keep)
                                            else MainVictims(cfg, turn.state, keep)
  {
    TurnShrinksEffort(cfg, s, keep);
  }

  ghost predicate Unread<K, V>(q: Queue<K, V>) {
    forall i :: 0 <= i < |q| ==> q[i].freq == 0
  }

  /** The two account for all the victims, none of which has a read left; and those of
      the small queue had none when the eviction began. */
  lemma {:induction false} VictimsAreUnread<K, V>(cfg: Config<K>, s: State<K, V>, keep: K)
    requires Wf(s)
    ensures var out := EvictS3Fifo(cfg, s, keep);
            && |SmallVictims(cfg, s, keep)| + |MainVictims(cfg, s, keep)| == |out.victims|
            && |MainVictims(cfg, s, keep)| == out.fromMain
            && Unread(out.victims) && Unread(SmallVictims(cfg, s, keep)) && Unread(MainVictims(cfg, s, keep))
    ensures forall i :: 0 <= i < |SmallVictims(cfg, s, keep)| ==> SmallVictims(cfg, s, keep)[i] in s.small
    decreases Effort(s, keep)
  {
    hide Wf, Effort, Over, SmallGives;
    var turn := TakeTurn(cfg, s, keep);
    if Over(cfg, s) && !turn.Stuck? {
      TurnShrinksEffort(cfg, s, keep);
      VictimsAreUnread(cfg, turn.state, keep);
      TurnShrinksSmall(cfg, s, keep);
    }
  }

  lemma TurnShrinksSmall<K, V>(cfg: Config<K>, s: State<K, V>, keep: K)
    requires !TakeTurn(cfg, s, keep).Stuck?
    ensures var turn := TakeTurn(cfg, s, keep);
            && (forall x :: x in turn.state.small ==> x in s.small)
            && (turn.Gone? && !turn.fromMain ==> turn.victim in s.small)
  {
  }

  // Going round

  /** How many of an eviction's turns come to key in the main queue. */
  function Visits<K(==), V>(cfg: Config<K>, s: State<K, V>, keep: K, key: K): nat
    requires Wf(s)
    decreases Effort(s, keep)
  {
    if !Over(cfg, s) then 0
    else
      TurnShrinksEffort(cfg, s, keep);
      var turn := TakeTurn(cfg, s, keep);
      if turn.Stuck? then 0
      else (if ComesTo(cfg, s, keep, key) then 1 else 0) + Visits(cfg, turn.state, keep, key)
  }

  predicate ComesTo<K(==), V>(cfg: Config<K>, s: State<K, V>, keep: K, key: K) {
    !SmallGives(cfg, s, keep)
    && var i := OldestButKeep(s.main, keep); 0 <= i && s.main[i].key == key
  }

  lemma TurnVisits<K, V>(cfg: Config<K>, s: State<K, V>, keep: K, key: K)
    requires Wf(s) && Holds(s.main, key) && !TakeTurn(cfg, s, keep).Stuck?
    ensures var next, item := TakeTurn(cfg, s, keep).state, s.main[IndexOf(s.main, key)];
            if !ComesTo(cfg, s, keep, key) then
              Holds(next.main, key) && next.main[IndexOf(next.main, key)] == item
            else if item.freq > 0 then
              Holds(next.main, key) && next.main[IndexOf(next.main, key)] == item.(freq := item.freq - 1)
            else
              !Resident(next, key)
  {
    var at := IndexOf(s.main, key);
    TurnShrinksEffort(cfg, s, keep);
    if SmallGives(cfg, s, keep) {
      if Last(s.small).freq > 0 {
        ConsOther(Last(s.small).(freq := 0), s.main, key);
      }
    } else {
      var i := OldestButKeep(s.main, keep);
      if s.main[i].key == key {
        assert i == at;
        WithoutOne(s.main, i);
      } else {
        WithoutOther(s.main, i, key);
        ConsOther(s.main[i].(freq := if s.main[i].freq > 0 then s.main[i].freq - 1 else 0), Without(s.main, i), key);
      }
    }
  }

  lemma WithoutOne<K, V>(q: Queue<K, V>, i: nat)
    requires Distinct(q) && i < |q|
    ensures !Holds(Without(q, i), q[i].key)
  {
  }

  lemma {:induction false} GoneStaysGone<K, V>(cfg: Config<K>, s: State<K, V>, keep: K, key: K)
    requires Wf(s) && !Resident(s, key)
    ensures !Resident(EvictS3Fifo(cfg, s, keep).state, key) && Visits(cfg, s, keep, key) == 0
    decreases Effort(s, keep)
  {
    hide Effort, Over;
    var turn := TakeTurn(cfg, s, keep);
    if Over(cfg, s) && !turn.Stuck? {
      TurnShrinksEffort(cfg, s, keep);
      TurnBringsNothing(cfg, s, keep, key);
      GoneStaysGone(cfg, turn.state, keep, key);
    }
  }

  lemma TurnBringsNothing<K, V>(cfg: Config<K>, s: State<K, V>, keep: K, key: K)
    requires Wf(s) && !TakeTurn(cfg, s, keep).Stuck? && !Resident(s, key)
    ensures !Resident(TakeTurn(cfg, s, keep).state, key) && !ComesTo(cfg, s, keep, key)
  {
  }

  /** An entry of the main queue goes round once for each of its reads: it is still
      there with as many reads fewer as it was come to, or it was come to once more
      than it had reads, and left. */
  lemma {:induction false} EachReadIsARound<K, V>(cfg: Config<K>, s: State<K, V>, keep: K, key: K)
    requires Wf(s) && Holds(s.main, key)
    ensures var out, item, visits := EvictS3Fifo(cfg, s, keep).state, s.main[IndexOf(s.main, key)],
                                     Visits(cfg, s, keep, key);
            if visits <= item.freq then
              Holds(out.main, key) && out.main[IndexOf(out.main, key)] == item.(freq := item.freq - visits)
            else
              visits == item.freq + 1 && !Resident(out, key)
    decreases Effort(s, keep)
  {
    hide Effort, Over, ComesTo, Wf;
    var turn := TakeTurn(cfg, s, keep);
    if Over(cfg, s) && !turn.Stuck? {
      TurnShrinksEffort(cfg, s, keep);
      TurnVisits(cfg, s, keep, key);
      if Holds(turn.state.main, key) {
        EachReadIsARound(cfg, turn.state, keep, key);
      } else {
        GoneStaysGone(cfg, turn.state, keep, key);
      }
    }
  }
}
