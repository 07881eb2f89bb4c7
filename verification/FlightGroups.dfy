/**
 One flight group: the loads in flight for a shard's keys, and who waits for them.
 Calls are numbered in the order they start.
 */
module FlightGroups {
  import opened Loads
  import opened Maybe

  datatype Outcome<+V> = Pending | Found(value: V) | NotFound | Failed(error: nat) | Panicked

  datatype Call<K, V> = Call(key: K, token: Token, waiters: nat, outcome: Outcome<V>, done: bool, cancelled: bool)

  class FlightGroup<K(==), V> {
    const loads: LoadRegistry<K>
    var flights: map<K, nat>
    var calls: seq<Call<K, V>>

    /** A call in the map is its key's, unfinished, uncancelled and waited for. */
    ghost predicate Valid()
      reads this
    {
      forall k :: k in flights ==>
        && flights[k] < |calls| && calls[flights[k]].key == k
        && !calls[flights[k]].done && !calls[flights[k]].cancelled && calls[flights[k]].waiters > 0
    }

    constructor (registry: LoadRegistry<K>)
      ensures Valid() && loads == registry && flights == map[] && calls == []
    {
      loads, flights, calls := registry, map[], [];
    }

    /** The key's load, if one is in flight and not invalidated. */
    function Running(key: K): (c: Option<nat>)
      requires Valid()
      reads this, loads
      ensures c.Some? ==> key in flights && flights[key] == c.value && loads.IsValid(calls[c.value].token)
      ensures c.None? ==> key !in flights || !loads.IsValid(calls[flights[key]].token)
    {
      if key in flights && loads.IsValid(calls[flights[key]].token) then Some(flights[key]) else None
    }

    method Join(c: nat)
      requires Valid() && c < |calls|
      modifies this`calls
      ensures Valid() && calls == old(calls)[c := old(calls)[c].(waiters := old(calls)[c].waiters + 1)]
    {
      calls := calls[c := calls[c].(waiters := calls[c].waiters + 1)];
    }

    /** A new call, with one waiter; it replaces an invalidated one. */
    method Start(key: K, token: Token) returns (c: nat)
      requires Valid()
      modifies this
      ensures Valid() && c == |old(calls)| && flights == old(flights)[key := c]
      ensures calls == old(calls) + [Call(key, token, 1, Pending, false, false)]
    {
      c := |calls|;
      calls := calls + [Call(key, token, 1, Pending, false, false)];
      flights := flights[key := c];
    }

    /** The loader's result, not yet for the waiters to see. */
    method Settle(c: nat, outcome: Outcome<V>)
      requires Valid() && c < |calls|
      modifies this`calls
      ensures Valid() && calls == old(calls)[c := old(calls)[c].(outcome := outcome)]
    {
      calls := calls[c := calls[c].(outcome := outcome)];
    }

    /** Takes the call out of the map unless a newer one has replaced it. */
    method Drop(key: K, c: nat)
      modifies this`flights
      ensures flights == if key in old(flights) && old(flights)[key] == c then old(flights) - {key} else old(flights)
    {
      if key in flights && flights[key] == c {
        flights := flights - {key};
      }
    }

    /** One waiter fewer. The last takes the call out of the map and cancels it. */
    method Leave(c: nat)
      requires Valid() && c < |calls| && calls[c].waiters > 0
      modifies this
      ensures Valid()
      ensures var call, last := old(calls)[c], old(calls)[c].waiters == 1;
              && calls == old(calls)[c := call.(waiters := call.waiters - 1, cancelled := call.cancelled || last)]
              && flights == if last && call.key in old(flights) && old(flights)[call.key] == c
                            then old(flights) - {call.key} else old(flights)
    {
      var call := calls[c];
      var last := call.waiters == 1;
      if last {
        Drop(call.key, c);
      }
      calls := calls[c := call.(waiters := call.waiters - 1, cancelled := call.cancelled || last)];
    }

    /** Publishes a call's result to its waiters, out of the map first. */
    method Finish(c: nat)
      requires Valid() && c < |calls|
      modifies this
      ensures Valid() && calls == old(calls)[c := old(calls)[c].(done := true)]
      ensures flights == if old(calls)[c].key in old(flights) && old(flights)[old(calls)[c].key] == c
                         then old(flights) - {old(calls)[c].key} else old(flights)
    {
      Drop(calls[c].key, c);
      calls := calls[c := calls[c].(done := true)];
    }
  }
}
