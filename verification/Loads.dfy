/**
 The tokens of a shard's loads in progress. A load holds its token until it ends,
 and a write, delete or clear of its key makes the token invalid, which keeps the
 load from publishing. Tokens are numbered here, in the order they begin, and their
 flags are kept by number.
 */
module Loads {

  type Token = nat

  class LoadRegistry<K(==)> {
    var loads: map<K, set<Token>>
    var flags: map<Token, bool>
    var next: Token

    // The key of every token begun and neither ended nor invalidated.
    ghost var owner: map<Token, K>

    /** The registry holds exactly the owned tokens, all of them valid, under their
        keys, and keeps no empty set. */
    ghost predicate Valid()
      reads this
    {
      && (forall t: Token :: t in flags <==> t < next)
      && (forall t :: t in owner ==> t in flags && flags[t] && owner[t] in loads && t in loads[owner[t]])
      && (forall k :: k in loads ==> loads[k] != {})
      && (forall k, t :: k in loads && t in loads[k] ==> t in owner && owner[t] == k)
    }

    constructor ()
      ensures Valid() && owner == map[]
    {
      loads, flags, next, owner := map[], map[], 0, map[];
    }

    predicate IsValid(token: Token)
      reads this
    {
      token in flags && flags[token]
    }

    method Begin(key: K) returns (token: Token)
      requires Valid()
      modifies this
      ensures Valid() && token == old(next) && next == token + 1 && flags == old(flags)[token := true]
      ensures owner == old(owner)[token := key]
    {
      token := next;
      next := next + 1;
      flags := flags[token := true];
      var held := if key in loads then loads[key] else {};
      loads := loads[key := held + {token}];
      owner := owner[token := key];
    }

    /** Ends a load of key, whether or not it has been invalidated. */
    method End(key: K, token: Token)
      requires Valid() && (token in owner ==> owner[token] == key)
      modifies this`loads, this`owner
      ensures Valid() && owner == old(owner) - {token}
    {
      if key in loads {
        var held := loads[key] - {token};
        loads := if held == {} then loads - {key} else loads[key := held];
      }
      owner := owner - {token};
    }

    /** The tokens of key, of those owned before, are invalid and owned no more;
        the others are as they were. */
    ghost predicate Invalidated(before: map<Token, K>, was: map<Token, bool>, key: K)
      reads this
    {
      && (forall t :: t in owner <==> t in before && before[t] != key)
      && (forall t :: t in owner ==> owner[t] == before[t])
      && (forall t :: t in flags <==> t in was)
      && (forall t :: t in was ==> flags[t] == (was[t] && (t in before ==> before[t] != key)))
    }

    method Invalidate(key: K)
      requires Valid()
      modifies this`loads, this`flags, this`owner
      ensures Valid() && Invalidated(old(owner), old(flags), key)
    {
      if key in loads {
        var held := loads[key];
        var rest := held;
        while rest != {}
          invariant rest <= held && loads == old(loads) && owner == old(owner) && next == old(next)
          invariant forall t :: t in flags <==> t in old(flags)
          invariant forall t :: t in flags ==> flags[t] == (old(flags)[t] && t !in held - rest)
        {
          var token :| token in rest;
          flags := flags[token := false];
          rest := rest - {token};
        }
      }
      owner := map t | t in owner && owner[t] != key :: owner[t];
      loads := loads - {key};
    }

    /** What clearing a shard does: every load in progress is invalidated. */
    method InvalidateAll()
      requires Valid()
      modifies this`loads, this`flags, this`owner
      ensures Valid() && owner == map[] && loads == map[] && flags.Keys == old(flags.Keys)
      ensures forall t :: t in flags ==> flags[t] == (old(flags)[t] && t !in old(owner))
    {
      while loads.Keys != {}
        invariant Valid() && owner.Keys <= old(owner.Keys) && flags.Keys == old(flags.Keys)
        invariant forall t :: t in flags ==> flags[t] == (old(flags)[t] && (t in old(owner) ==> t in owner))
        decreases loads.Keys
      {
        var key :| key in loads;
        InvalidateOne(key);
      }
      forall t | t in owner ensures owner[t] in loads {
      }
      assert loads.Keys == {};
    }

    /** One round of InvalidateAll. */
    method InvalidateOne(key: K)
      requires Valid() && key in loads
      modifies this`loads, this`flags, this`owner
      ensures Valid() && Invalidated(old(owner), old(flags), key) && loads.Keys < old(loads.Keys)
    {
      Invalidate(key);
      forall k | k in loads ensures k in old(loads) && k != key {
        var t :| t in loads[k];
        assert owner[t] == k;
      }
    }

    /** With no load in progress the registry is empty. */
    lemma EmptyWhenIdle()
      requires Valid()
      ensures owner == map[] ==> loads == map[]
    {
      if loads != map[] {
        var k :| k in loads;
        var t :| t in loads[k];
        assert t in owner;
      }
    }
  }
}
