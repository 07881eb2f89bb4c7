/**
 Runs over a shard on the heap: any sequence of operations on one object, each
 answered, and leaving the shard, as the run over values does.
 */
module ShardRuns {
  import opened Maybe
  import M = ShardModel
  import opened Runs
  import opened Loads
  import opened Shards

  datatype Reply<V> =
    | Answered(answer: M.Answer<V>, expired: bool, refresh: bool)
    | Wrote(status: SetStatus)
    | Deleted(found: bool)
    | Done

  /** What the shard with value s answers to op. */
  ghost function ReplyOf<K, V>(cfg: M.Config<K>, s: M.State<K, V>, op: Op<K, V>): Reply<V>
    requires M.Shaped(cfg, s)
  {
    match op
    case Read(key, now, who) => var r := M.Get(cfg, s, key, now, who); Answered(r.answer, r.expired, r.refresh)
    case Write(item, valid) =>
      Wrote(match M.Set(cfg, s, item, valid)
            case TooLarge => TooLarge
            case Superseded => Superseded
            case Stored(_, _, _) => Stored)
    case Delete(key) => Deleted(M.Resident(s, key))
    case SweepAt(_) => Done
    case Clear => Done
  }

  /** A new entry has not been read. */
  lemma WriteForgetsReads<K, V>(cfg: M.Config<K>, s: M.State<K, V>, item: M.Item<K, V>, valid: bool)
    requires M.Shaped(cfg, s)
    ensures M.Set(cfg, s, item.(freq := 0), valid) == M.Set(cfg, s, item, valid)
    ensures M.Set(cfg, s, item, valid).Stored? ==> valid
  {
  }

  lemma ValidIsShaped<K, V>(s: Shard<K, V>)
    requires s.Valid()
    ensures M.Shaped(s.cfg, s.St()) && Good(s.cfg, s.St())
  {
  }

  /** The token of a load that has been invalidated. */
  method StaleToken<K(==), V>(s: Shard<K, V>, key: K) returns (token: Token)
    requires s.Valid()
    modifies s.loads
    ensures s.Valid() && s.St() == old(s.St()) && !s.loads.IsValid(token)
  {
    hide Shard.Rep, Good, LoadRegistry.Valid;
    token := s.loads.Begin(key);
    s.loads.Invalidate(key);
  }

  /** Stores a new entry; one that is not valid comes from a load whose token has
      been invalidated meanwhile. */
  method Write<K(==), V>(s: Shard<K, V>, item: M.Item<K, V>, valid: bool) returns (status: SetStatus)
    requires s.Valid()
    modifies s, s.mainS, s.smallS, s.ghosts, s.loads
    ensures s.Valid() && s.St() == Apply(s.cfg, old(s.St()), Op.Write(item, valid))
    ensures Wrote(status) == ReplyOf<K, V>(s.cfg, old(s.St()), Op.Write(item, valid))
    ensures forall e :: e in s.mainS || e in s.smallS ==> e in old(s.mainS) || e in old(s.smallS) || fresh(e)
  {
    hide M.Set, M.Insert, M.Shaped, Shard.Valid, Shard.TookOut, LoadRegistry.Invalidated;
    ValidIsShaped(s);
    WriteForgetsReads(s.cfg, s.St(), item, valid);
    var token := None;
    if !valid {
      var t := StaleToken(s, item.key);
      token := Some(t);
    }
    var e := new Entry(item.key, item.value, item.cost, item.expiresAt, item.refreshAt, item.negative, item.byView);
    var replaced, victims;
    ghost var rest;
    status, replaced, victims, rest := s.Set(e, token);
  }

  /** One operation. */
  method Do<K(==), V>(s: Shard<K, V>, op: Op<K, V>) returns (reply: Reply<V>)
    requires s.Valid()
    modifies s, s.mainS, s.smallS, s.ghosts, s.loads
    ensures s.Valid() && s.St() == Apply(s.cfg, old(s.St()), op) && reply == ReplyOf(s.cfg, old(s.St()), op)
    ensures forall e :: e in s.mainS || e in s.smallS ==> e in old(s.mainS) || e in old(s.smallS) || fresh(e)
  {
    match op
    case Read(key, now, who) =>
      var answer, expired, refresh := s.Get(key, now, who);
      reply := Answered(answer, expired, refresh);
    case Write(item, valid) =>
      var status := Write(s, item, valid);
      reply := Wrote(status);
    case Delete(key) =>
      var e := s.Delete(key);
      reply := Deleted(e != null);
    case SweepAt(now) =>
      var swept;
      ghost var gone;
      swept, gone := s.Sweep(now);
      reply := Done;
    case Clear =>
      s.Clear();
      reply := Done;
  }

  /** The operations one after another on the same shard. */
  method Drive<K(==), V>(s: Shard<K, V>, ops: seq<Op<K, V>>) returns (replies: seq<Reply<V>>)
    requires s.Valid()
    modifies s, s.mainS, s.smallS, s.ghosts, s.loads
    ensures s.Valid() && s.St() == Run(s.cfg, old(s.St()), ops) && |replies| == |ops|
    ensures forall i :: 0 <= i < |ops| ==>
              var before := Run(s.cfg, old(s.St()), ops[..i]);
              M.Shaped(s.cfg, before) && replies[i] == ReplyOf(s.cfg, before, ops[i])
  {
    hide Run, Apply, ReplyOf, Good, Shard.Valid, M.Shaped;
    ghost var start := s.St();
    ValidIsShaped(s);
    RunNone(s.cfg, start);
    replies := [];
    for n := 0 to |ops|
      invariant s.Valid() && |replies| == n
      invariant forall e :: e in s.mainS || e in s.smallS ==> e in old(s.mainS) || e in old(s.smallS) || fresh(e)
      invariant Good(s.cfg, start) && s.St() == Run(s.cfg, start, ops[..n])
      invariant forall i :: 0 <= i < n ==>
                  var before := Run(s.cfg, start, ops[..i]);
                  M.Shaped(s.cfg, before) && replies[i] == ReplyOf(s.cfg, before, ops[i])
    {
      RunSnoc(s.cfg, start, ops[..n], ops[n]);
      ValidIsShaped(s);
      assert ops[..n + 1] == ops[..n] + [ops[n]];
      var reply := Do(s, ops[n]);
      replies := replies + [reply];
    }
    assert ops[..|ops|] == ops;
  }

  /** The whole life of a shard. */
  method FromNew<K(==), V>(cfg: M.Config<K>, ops: seq<Op<K, V>>) returns (s: Shard<K, V>, replies: seq<Reply<V>>)
    ensures fresh(s) && s.cfg == cfg && s.Valid() && s.St() == Run(cfg, Start(), ops) && |replies| == |ops|
    ensures forall i :: 0 <= i < |ops| ==>
              var before := Run<K, V>(cfg, Start(), ops[..i]);
              M.Shaped(cfg, before) && replies[i] == ReplyOf(cfg, before, ops[i])
  {
    s := new Shard<K, V>(cfg);
    replies := Drive(s, ops);
  }
}
