/**
 A shard as the cache keeps it: a map of entries, two doubly linked lists through
 the entries themselves, running totals, the ghost list and the tokens of the
 loads in progress. Each method is one critical section of the shard's lock and is
 proved against the function of ShardModel it stands for.
 */
module Shards {
  import opened GhostLog
  import opened Ghosts
  import opened Loads
  import opened Maybe
  import M = ShardModel
  import opened Eviction
  import opened Runs

  class Entry<K, V> {
    const key: K
    const value: V
    const cost: nat
    const expiresAt: int
    const negative: bool
    const byView: bool
    var refreshAt: int
    var small: bool
    var freq: nat
    var prev: Entry?<K, V>
    var next: Entry?<K, V>

    constructor (key: K, value: V, cost: nat, expiresAt: int, refreshAt: int, negative: bool, byView: bool)
      ensures ToItem() == M.Item(key, value, cost, expiresAt, negative, byView, 0, refreshAt)
      ensures !small && prev == null && next == null
    {
      this.key, this.value, this.cost, this.expiresAt := key, value, cost, expiresAt;
      this.refreshAt, this.negative, this.byView := refreshAt, negative, byView;
      small, freq, prev, next := false, 0, null, null;
    }

    function ToItem(): M.Item<K, V>
      reads this`freq, this`refreshAt
    {
      M.Item(key, value, cost, expiresAt, negative, byView, freq, refreshAt)
    }

    predicate Expired(now: int) {
      expiresAt != 0 && now >= expiresAt
    }

    /** Whether a read by who is the one to refresh the entry, which it claims. */
    method ClaimRefresh(who: M.Refresher, now: int) returns (claimed: bool)
      modifies this`refreshAt
      ensures claimed == old(ToItem()).Claims(who, now)
      ensures ToItem() == if claimed then old(ToItem()).(refreshAt := 0) else old(ToItem())
    {
      if byView != (who == M.RefreshView) {
        return false;
      }
      var at := refreshAt;
      claimed := at != 0 && now >= at;
      if claimed {
        refreshAt := 0;
      }
    }

    /** What a read under the read lock does: it counts itself, if reads are
        counted, up to the cap, and claims the refresh. */
    method Read(counted: bool, now: int, who: M.Refresher) returns (refresh: bool)
      modifies this`freq, this`refreshAt
      ensures var item := old(ToItem());
              && ToItem() == M.Claimed(if counted then M.Bumped(item) else item, who, now)
              && refresh == (who != M.RefreshNone && item.Claims(who, now))
      ensures freq == if counted && old(freq) < 3 then old(freq) + 1 else old(freq)
    {
      if counted {
        var f := freq;
        if f < M.MAX_FREQ {
          freq := f + 1;
        }
      }
      refresh := false;
      if who != M.RefreshNone {
        refresh := ClaimRefresh(who, now);
      }
    }
  }

  datatype SetStatus = TooLarge | Superseded | Stored

  // Lists

  ghost predicate NoDup<T>(q: seq<T>) {
    forall i, j :: 0 <= i < j < |q| ==> q[i] != q[j]
  }

  ghost predicate Among<T>(q: seq<T>, all: set<T>) {
    forall i :: 0 <= i < |q| ==> q[i] in all
  }

  /** all are as many as q, which are among them and all different: so each is in q. */
  lemma {:induction false} PlaceOf<T>(q: seq<T>, all: set<T>, x: T) returns (i: nat)
    requires NoDup(q) && Among(q, all) && |q| == |all| && x in all
    ensures i < |q| && q[i] == x
  {
    if q[0] == x {
      i := 0;
    } else {
      var j := PlaceOf(q[1..], all - {q[0]}, x);
      i := j + 1;
    }
  }

  /** q, of entries among all, is the doubly linked list from head to tail. */
  ghost predicate Linked<K, V>(
      q: seq<Entry<K, V>>, all: set<Entry<K, V>>, head: Entry?<K, V>, tail: Entry?<K, V>)
    reads all`prev, all`next
  {
    && Among(q, all)
    && head == (if q == [] then null else q[0])
    && tail == (if q == [] then null else q[|q| - 1])
    && (forall i {:trigger q[i].prev} :: 0 <= i < |q| ==> q[i].prev == if i == 0 then null else q[i - 1])
    && (forall i {:trigger q[i].next} :: 0 <= i < |q| ==> q[i].next == if i == |q| - 1 then null else q[i + 1])
  }

  /** items are the values of q's entries. */
  ghost predicate Mirrors<K, V>(q: seq<Entry<K, V>>, all: set<Entry<K, V>>, items: M.Queue<K, V>)
    requires Among(q, all)
    reads all`freq, all`refreshAt
  {
    |items| == |q| && forall i {:trigger items[i]} :: 0 <= i < |q| ==> q[i].ToItem() == items[i]
  }

  lemma AmongAt<T>(q: seq<T>, all: set<T>, i: nat)
    requires Among(q, all) && i < |q|
    ensures q[i] in all
  {
  }

  lemma MirrorsWithout<K, V>(q: seq<Entry<K, V>>, all: set<Entry<K, V>>, items: M.Queue<K, V>, i: nat)
    requires NoDup(q) && Among(q, all) && Mirrors(q, all, items) && i < |q|
    ensures |items| == |q| && items[i] == q[i].ToItem() && Among(M.Without(q, i), all - {q[i]})
    ensures Mirrors(M.Without(q, i), all - {q[i]}, M.Without(items, i))
  {
    assert q[i].ToItem() == items[i];
    var rest, kept := M.Without(q, i), M.Without(items, i);
    forall j | 0 <= j < |rest| ensures rest[j].ToItem() == kept[j] {
      assert items[if j < i then j else j + 1] == kept[j];
    }
  }

  lemma MirrorsCons<K, V>(e: Entry<K, V>, q: seq<Entry<K, V>>, all: set<Entry<K, V>>, items: M.Queue<K, V>)
    requires Among(q, all) && Mirrors(q, all, items)
    ensures Among([e] + q, all + {e}) && Mirrors([e] + q, all + {e}, [e.ToItem()] + items)
  {
    var more := [e.ToItem()] + items;
    forall j | 0 <= j < |more| ensures ([e] + q)[j].ToItem() == more[j] {
      if j > 0 {
        assert q[j - 1].ToItem() == items[j - 1];
      }
    }
  }

  /** items are the values of the entries taken out of the shard. */
  ghost predicate Carry<K, V>(victims: seq<Entry<K, V>>, items: M.Queue<K, V>)
    reads victims
  {
    |items| == |victims| && forall i {:trigger items[i]} :: 0 <= i < |victims| ==> victims[i].ToItem() == items[i]
  }

  ghost function Costs<K, V>(q: seq<Entry<K, V>>): nat {
    if q == [] then 0 else q[0].cost + Costs(q[1..])
  }

  /** The part of Mirrors that never changes. */
  ghost predicate SameKeys<K, V>(q: seq<Entry<K, V>>, items: M.Queue<K, V>) {
    |items| == |q| && forall i :: 0 <= i < |q| ==> q[i].key == items[i].key && q[i].cost == items[i].cost
  }

  lemma {:induction false} CostsAreBytes<K, V>(q: seq<Entry<K, V>>, items: M.Queue<K, V>)
    requires SameKeys(q, items)
    ensures M.Bytes(items) == Costs(q)
  {
    if q == [] {
    } else {
      CostsAreBytes(q[1..], items[1..]);
    }
  }

  lemma {:induction false} CostsWithout<K, V>(q: seq<Entry<K, V>>, i: nat)
    requires i < |q|
    ensures Costs(q) == Costs(M.Without(q, i)) + q[i].cost
  {
    if i == 0 {
      assert M.Without(q, 0) == q[1..];
    } else {
      CostsWithout(q[1..], i - 1);
      assert M.Without(q, i)[1..] == M.Without(q[1..], i - 1);
    }
  }

  lemma CostsCons<K, V>(e: Entry<K, V>, q: seq<Entry<K, V>>)
    ensures Costs([e] + q) == e.cost + Costs(q)
  {
    assert ([e] + q)[1..] == q;
  }

  // The map

  /** The map finds every entry of q under its key. */
  ghost predicate Indexed<K, V>(q: seq<Entry<K, V>>, items: map<K, Entry<K, V>>) {
    forall i :: 0 <= i < |q| ==> q[i].key in items && items[q[i].key] == q[i]
  }

  /** q lists all, each once. */
  ghost predicate Lists<T>(q: seq<T>, all: set<T>) {
    NoDup(q) && Among(q, all) && |q| == |all|
  }

  lemma ListsWithout<T>(q: seq<T>, all: set<T>, i: nat)
    requires Lists(q, all) && i < |q|
    ensures Lists(M.Without(q, i), all - {q[i]})
  {
  }

  lemma ListsCons<T>(q: seq<T>, all: set<T>, x: T)
    requires Lists(q, all) && x !in all
    ensures Lists([x] + q, all + {x})
  {
  }

  /** out lists the entries of all that are no longer in either list. */
  ghost predicate Gone<T>(out: seq<T>, outS: set<T>, mainS: set<T>, smallS: set<T>, all: set<T>) {
    Lists(out, outS) && outS !! mainS && outS !! smallS && outS + mainS + smallS == all
  }

  lemma GoneGrows<T>(out: seq<T>, outS: set<T>, mainS: set<T>, smallS: set<T>, all: set<T>, x: T)
    requires Gone(out, outS, mainS, smallS, all) && (x in mainS || x in smallS)
    ensures Gone(out + [x], outS + {x}, mainS - {x}, smallS - {x}, all)
  {
  }

  /** The lists are apart, and the map holds their entries under their keys and
      no others. */
  ghost predicate Filed<K, V>(
      mainQ: seq<Entry<K, V>>, mainS: set<Entry<K, V>>,
      smallQ: seq<Entry<K, V>>, smallS: set<Entry<K, V>>, items: map<K, Entry<K, V>>)
  {
    && Lists(mainQ, mainS) && Lists(smallQ, smallS) && mainS !! smallS
    && Indexed(mainQ, items) && Indexed(smallQ, items)
    && (forall k :: k in items ==> items[k].key == k && (items[k] in mainS || items[k] in smallS))
    && |items| == |mainQ| + |smallQ|
  }

  lemma Flip<K, V>(
      mainQ: seq<Entry<K, V>>, mainS: set<Entry<K, V>>,
      smallQ: seq<Entry<K, V>>, smallS: set<Entry<K, V>>, items: map<K, Entry<K, V>>)
    requires Filed(mainQ, mainS, smallQ, smallS, items)
    ensures Filed(smallQ, smallS, mainQ, mainS, items)
  {
  }

  /** Filed entries have no key twice. */
  lemma FiledIsWf<K, V>(
      mainQ: seq<Entry<K, V>>, mainS: set<Entry<K, V>>,
      smallQ: seq<Entry<K, V>>, smallS: set<Entry<K, V>>, items: map<K, Entry<K, V>>, s: M.State<K, V>)
    requires Filed(mainQ, mainS, smallQ, smallS, items) && SameKeys(mainQ, s.main) && SameKeys(smallQ, s.small)
    ensures M.Wf(s)
  {
    forall i, j | 0 <= i < j < |mainQ| ensures s.main[i].key != s.main[j].key {
      assert mainQ[i] != mainQ[j];
    }
    forall i, j | 0 <= i < j < |smallQ| ensures s.small[i].key != s.small[j].key {
      assert smallQ[i] != smallQ[j];
    }
    forall i, j | 0 <= i < |mainQ| && 0 <= j < |smallQ| ensures s.main[i].key != s.small[j].key {
      assert mainQ[i] in mainS && smallQ[j] in smallS;
    }
  }

  /** Where a key stands in a state: with the map's entry, wherever that is. */
  lemma FindMain<K, V>(
      mainQ: seq<Entry<K, V>>, mainS: set<Entry<K, V>>,
      smallQ: seq<Entry<K, V>>, smallS: set<Entry<K, V>>, items: map<K, Entry<K, V>>, s: M.State<K, V>, i: nat)
    requires Filed(mainQ, mainS, smallQ, smallS, items) && SameKeys(mainQ, s.main) && SameKeys(smallQ, s.small)
    requires i < |mainQ|
    ensures var key := mainQ[i].key;
            && M.Holds(s.main, key) && M.IndexOf(s.main, key) == i && M.Find(s, key) == s.main[i]
            && M.Remove(s, key) == s.(main := M.Without(s.main, i))
  {
    FiledIsWf(mainQ, mainS, smallQ, smallS, items, s);
  }

  lemma FindSmall<K, V>(
      mainQ: seq<Entry<K, V>>, mainS: set<Entry<K, V>>,
      smallQ: seq<Entry<K, V>>, smallS: set<Entry<K, V>>, items: map<K, Entry<K, V>>, s: M.State<K, V>, i: nat)
    requires Filed(mainQ, mainS, smallQ, smallS, items) && SameKeys(mainQ, s.main) && SameKeys(smallQ, s.small)
    requires i < |smallQ|
    ensures var key := smallQ[i].key;
            && !M.Holds(s.main, key) && M.Holds(s.small, key) && M.IndexOf(s.small, key) == i
            && M.Find(s, key) == s.small[i] && M.Remove(s, key) == s.(small := M.Without(s.small, i))
  {
    FiledIsWf(mainQ, mainS, smallQ, smallS, items, s);
  }

  lemma ResidentIsFiled<K, V>(
      mainQ: seq<Entry<K, V>>, mainS: set<Entry<K, V>>,
      smallQ: seq<Entry<K, V>>, smallS: set<Entry<K, V>>, items: map<K, Entry<K, V>>, s: M.State<K, V>, key: K)
    requires Filed(mainQ, mainS, smallQ, smallS, items) && SameKeys(mainQ, s.main) && SameKeys(smallQ, s.small)
    ensures M.Resident(s, key) <==> key in items
    ensures M.Holds(s.main, key) <==> key in items && items[key] in mainS
  {
    if key in items {
      if items[key] in mainS {
        var i := PlaceOf(mainQ, mainS, items[key]);
        FindMain(mainQ, mainS, smallQ, smallS, items, s, i);
      } else {
        var i := PlaceOf(smallQ, smallS, items[key]);
        FindSmall(mainQ, mainS, smallQ, smallS, items, s, i);
      }
    }
  }

  lemma UnfileMain<K, V>(
      mainQ: seq<Entry<K, V>>, mainS: set<Entry<K, V>>,
      smallQ: seq<Entry<K, V>>, smallS: set<Entry<K, V>>, items: map<K, Entry<K, V>>, i: nat)
    requires Filed(mainQ, mainS, smallQ, smallS, items) && i < |mainQ|
    ensures Filed(M.Without(mainQ, i), mainS - {mainQ[i]}, smallQ, smallS, items - {mainQ[i].key})
  {
    ListsWithout(mainQ, mainS, i);
    var items' := items - {mainQ[i].key};
    assert items'.Keys == items.Keys - {mainQ[i].key};
    forall j | 0 <= j < |smallQ| ensures smallQ[j].key != mainQ[i].key {
      assert smallQ[j] in smallS && mainQ[i] in mainS;
    }
  }

  lemma UnfileSmall<K, V>(
      mainQ: seq<Entry<K, V>>, mainS: set<Entry<K, V>>,
      smallQ: seq<Entry<K, V>>, smallS: set<Entry<K, V>>, items: map<K, Entry<K, V>>, i: nat)
    requires Filed(mainQ, mainS, smallQ, smallS, items) && i < |smallQ|
    ensures Filed(mainQ, mainS, M.Without(smallQ, i), smallS - {smallQ[i]}, items - {smallQ[i].key})
  {
    Flip(mainQ, mainS, smallQ, smallS, items);
    UnfileMain(smallQ, smallS, mainQ, mainS, items, i);
    Flip(M.Without(smallQ, i), smallS - {smallQ[i]}, mainQ, mainS, items - {smallQ[i].key});
  }

  lemma FileKeepsIndexed<K, V>(q: seq<Entry<K, V>>, items: map<K, Entry<K, V>>, e: Entry<K, V>)
    requires Indexed(q, items) && e.key !in items
    ensures Indexed(q, items[e.key := e]) && Indexed([e] + q, items[e.key := e])
  {
  }

  lemma FileMain<K, V>(
      mainQ: seq<Entry<K, V>>, mainS: set<Entry<K, V>>,
      smallQ: seq<Entry<K, V>>, smallS: set<Entry<K, V>>, items: map<K, Entry<K, V>>, e: Entry<K, V>)
    requires Filed(mainQ, mainS, smallQ, smallS, items) && e.key !in items && e !in mainS && e !in smallS
    ensures Filed([e] + mainQ, mainS + {e}, smallQ, smallS, items[e.key := e])
  {
    hide Lists, Indexed;
    var mainQ', mainS', items' := [e] + mainQ, mainS + {e}, items[e.key := e];
    assert Lists(mainQ', mainS') by {
      ListsCons(mainQ, mainS, e);
    }
    assert Indexed(mainQ', items') && Indexed(smallQ, items') by {
      FileKeepsIndexed(mainQ, items, e);
      FileKeepsIndexed(smallQ, items, e);
    }
    assert items'.Keys == items.Keys + {e.key};
    forall k | k in items' ensures items'[k].key == k && (items'[k] in mainS' || items'[k] in smallS) {
    }
  }

  lemma FileSmall<K, V>(
      mainQ: seq<Entry<K, V>>, mainS: set<Entry<K, V>>,
      smallQ: seq<Entry<K, V>>, smallS: set<Entry<K, V>>, items: map<K, Entry<K, V>>, e: Entry<K, V>)
    requires Filed(mainQ, mainS, smallQ, smallS, items) && e.key !in items && e !in mainS && e !in smallS
    ensures Filed(mainQ, mainS, [e] + smallQ, smallS + {e}, items[e.key := e])
  {
    Flip(mainQ, mainS, smallQ, smallS, items);
    FileMain(smallQ, smallS, mainQ, mainS, items, e);
    Flip([e] + smallQ, smallS + {e}, mainQ, mainS, items[e.key := e]);
  }

  lemma FiledNone<K, V>()
    ensures Filed<K, V>([], {}, [], {}, map[])
  {
  }

  lemma FiledOne<K, V>(e: Entry<K, V>)
    ensures Filed([e], {e}, [], {}, map[e.key := e]) && Costs([e]) == e.cost
  {
    assert map[e.key := e].Keys == {e.key};
    assert [e][1..] == [];
  }

  /** An entry moves from the small list to the front of the main one. */
  lemma FiledMove<K, V>(
      mainQ: seq<Entry<K, V>>, mainS: set<Entry<K, V>>,
      smallQ: seq<Entry<K, V>>, smallS: set<Entry<K, V>>, items: map<K, Entry<K, V>>, i: nat)
    requires Filed(mainQ, mainS, smallQ, smallS, items) && i < |smallQ|
    ensures Filed([smallQ[i]] + mainQ, mainS + {smallQ[i]}, M.Without(smallQ, i), smallS - {smallQ[i]}, items)
  {
    var e := smallQ[i];
    UnfileSmall(mainQ, mainS, smallQ, smallS, items, i);
    FileMain(mainQ, mainS, M.Without(smallQ, i), smallS - {e}, items - {e.key}, e);
    assert (items - {e.key})[e.key := e] == items;
  }

  /** An entry moves to the front of the main list. */
  lemma FiledRotate<K, V>(
      mainQ: seq<Entry<K, V>>, mainS: set<Entry<K, V>>,
      smallQ: seq<Entry<K, V>>, smallS: set<Entry<K, V>>, items: map<K, Entry<K, V>>, i: nat)
    requires Filed(mainQ, mainS, smallQ, smallS, items) && i < |mainQ|
    ensures Filed([mainQ[i]] + M.Without(mainQ, i), mainS, smallQ, smallS, items)
  {
    var e := mainQ[i];
    UnfileMain(mainQ, mainS, smallQ, smallS, items, i);
    FileMain(M.Without(mainQ, i), mainS - {e}, smallQ, smallS, items - {e.key}, e);
    assert (items - {e.key})[e.key := e] == items;
    assert mainS - {e} + {e} == mainS;
  }

  class Shard<K(==), V> {
    const cfg: M.Config<K>
    const ghosts: GhostList
    const loads: LoadRegistry<K>
    var items: map<K, Entry<K, V>>
    var head: Entry?<K, V>
    var tail: Entry?<K, V>
    var smallHead: Entry?<K, V>
    var smallTail: Entry?<K, V>
    var smallBytes: int
    var smallLen: int
    var bytes: int

    // The two lists, each from its head to its tail, and the sets of their entries.
    ghost var mainQ: seq<Entry<K, V>>
    ghost var smallQ: seq<Entry<K, V>>
    ghost var mainS: set<Entry<K, V>>
    ghost var smallS: set<Entry<K, V>>

    // The values of the lists' entries.
    ghost var main: M.Queue<K, V>
    ghost var small: M.Queue<K, V>

    /** Both lists are well linked, and apart. */
    ghost predicate TwoLists()
      reads this`mainQ, this`mainS, this`head, this`tail, this`smallQ, this`smallS, this`smallHead, this`smallTail
      reads mainS`prev, mainS`next, smallS`prev, smallS`next
    {
      && mainS !! smallS
      && Linked(mainQ, mainS, head, tail) && Linked(smallQ, smallS, smallHead, smallTail)
    }

    ghost predicate Flagged()
      reads this`mainS, this`smallS, mainS`small, smallS`small
    {
      (forall e :: e in mainS ==> !e.small) && (forall e :: e in smallS ==> e.small)
    }

    ghost predicate Totals()
      reads this`mainQ, this`smallQ, this`bytes, this`smallBytes, this`smallLen
    {
      && bytes == Costs(mainQ) + Costs(smallQ)
      && smallBytes == Costs(smallQ) && smallLen == |smallQ|
    }

    ghost predicate Mirrored()
      requires Among(mainQ, mainS) && Among(smallQ, smallS)
      reads this`mainQ, this`mainS, this`main, this`smallQ, this`smallS, this`small, mainS, smallS
    {
      Mirrors(mainQ, mainS, main) && Mirrors(smallQ, smallS, small)
    }

    /** What of the representation the lists, the totals and the values make up. */
    ghost predicate Chained()
      reads this`mainQ, this`mainS, this`head, this`tail, this`smallQ, this`smallS, this`smallHead, this`smallTail
      reads this`bytes, this`smallBytes, this`smallLen, this`main, this`small, mainS, smallS
    {
      TwoLists() && Flagged() && Totals() && Mirrored()
    }

    /** The representation, except for the load tokens. */
    ghost predicate Rep()
      reads this, mainS, smallS, ghosts
    {
      && Chained() && Filed(mainQ, mainS, smallQ, smallS, items) && ghosts.Valid()
      && (cfg.policy != M.S3FIFO ==> smallQ == [])
    }

    /** The shard as a value. */
    ghost function St(): M.State<K, V>
      reads this`main, this`small, ghosts`log
    {
      M.State(main, small, ghosts.log)
    }

    /** What every operation of a shard keeps. */
    ghost predicate Valid()
      reads this, mainS, smallS, ghosts, loads
    {
      Rep() && loads.Valid() && Good(cfg, St())
    }

    constructor (cfg: M.Config<K>)
      ensures this.cfg == cfg && fresh(ghosts) && fresh(loads)
      ensures Valid() && St() == Start() && loads.owner == map[] && mainS == {} && smallS == {}
    {
      this.cfg := cfg;
      ghosts := new GhostList();
      loads := new LoadRegistry<K>();
      items := map[];
      head, tail, smallHead, smallTail := null, null, null, null;
      smallBytes, smallLen, bytes := 0, 0, 0;
      mainQ, smallQ, mainS, smallS, main, small := [], [], {}, {}, [], [];
    }

    method PushFront(e: Entry<K, V>)
      requires NoDup(mainQ) && Linked(mainQ, mainS, head, tail) && e !in mainS
      modifies this`head, this`tail, this`mainQ, this`mainS, mainS`prev, e`prev, e`next
      ensures mainQ == [e] + old(mainQ) && mainS == old(mainS) + {e} && Linked(mainQ, mainS, head, tail)
    {
      e.prev, e.next := null, head;
      if head != null {
        head.prev := e;
      }
      head := e;
      if tail == null {
        tail := e;
      }
      mainQ, mainS := [e] + mainQ, mainS + {e};
    }

    method Unlink(e: Entry<K, V>, ghost i: nat)
      requires NoDup(mainQ) && Linked(mainQ, mainS, head, tail) && i < |mainQ| && mainQ[i] == e
      modifies this`head, this`tail, this`mainQ, this`mainS, mainS`prev, mainS`next
      ensures mainQ == M.Without(old(mainQ), i) && mainS == old(mainS) - {e} && Linked(mainQ, mainS, head, tail)
    {
      if e.prev != null {
        assert e.prev == mainQ[i - 1];
        e.prev.next := e.next;
      } else if head == e {
        head := e.next;
      }
      if e.next != null {
        assert e.next == mainQ[i + 1];
        e.next.prev := e.prev;
      } else if tail == e {
        tail := e.prev;
      }
      e.prev, e.next := null, null;
      mainQ, mainS := M.Without(mainQ, i), mainS - {e};
    }

    method PushSmall(e: Entry<K, V>)
      requires NoDup(smallQ) && Linked(smallQ, smallS, smallHead, smallTail) && e !in smallS
      modifies this`smallHead, this`smallTail, this`smallQ, this`smallS, this`smallBytes, this`smallLen
      modifies smallS`prev, e`prev, e`next, e`small
      ensures smallQ == [e] + old(smallQ) && smallS == old(smallS) + {e}
      ensures Linked(smallQ, smallS, smallHead, smallTail)
      ensures e.small && smallBytes == old(smallBytes) + e.cost && smallLen == old(smallLen) + 1
    {
      e.small := true;
      smallBytes := smallBytes + e.cost;
      smallLen := smallLen + 1;
      e.prev, e.next := null, smallHead;
      if smallHead != null {
        smallHead.prev := e;
      }
      smallHead := e;
      if smallTail == null {
        smallTail := e;
      }
      smallQ, smallS := [e] + smallQ, smallS + {e};
    }

    method UnlinkSmall(e: Entry<K, V>, ghost i: nat)
      requires NoDup(smallQ) && Linked(smallQ, smallS, smallHead, smallTail) && i < |smallQ| && smallQ[i] == e
      modifies this`smallHead, this`smallTail, this`smallQ, this`smallS, this`smallBytes, this`smallLen
      modifies smallS`prev, smallS`next
      ensures smallQ == M.Without(old(smallQ), i) && smallS == old(smallS) - {e}
      ensures Linked(smallQ, smallS, smallHead, smallTail)
      ensures smallBytes == old(smallBytes) - e.cost && smallLen == old(smallLen) - 1
    {
      if e.prev != null {
        assert e.prev == smallQ[i - 1];
        e.prev.next := e.next;
      } else if smallHead == e {
        smallHead := e.next;
      }
      if e.next != null {
        assert e.next == smallQ[i + 1];
        e.next.prev := e.prev;
      } else if smallTail == e {
        smallTail := e.prev;
      }
      e.prev, e.next := null, null;
      smallBytes := smallBytes - e.cost;
      smallLen := smallLen - 1;
      smallQ, smallS := M.Without(smallQ, i), smallS - {e};
    }

    lemma ListsAmong()
      requires TwoLists()
      ensures Among(mainQ, mainS) && Among(smallQ, smallS)
    {
    }

    lemma ListsApart(i: nat)
      requires TwoLists() && i < |smallQ|
      ensures Among(mainQ, mainS) && Among(smallQ, smallS) && smallQ[i] in smallS && smallQ[i] !in mainS
    {
    }

    /** Takes e out of the main list and the total. */
    method TakeMain(e: Entry<K, V>, ghost i: nat)
      requires Chained() && NoDup(mainQ) && i < |mainQ| && mainQ[i] == e
      modifies this`bytes, this`head, this`tail, this`mainQ, this`mainS, this`main, mainS`prev, mainS`next
      ensures Chained() && mainQ == M.Without(old(mainQ), i) && mainS == old(mainS) - {e}
      ensures main == M.Without(old(main), i)
    {
      hide Linked, Mirrors, Among, NoDup, Costs;
      ListsAmong();
      MirrorsWithout(mainQ, mainS, main, i);
      CostsWithout(mainQ, i);
      Unlink(e, i);
      bytes, main := bytes - e.cost, M.Without(main, i);
    }

    method TakeSmall(e: Entry<K, V>, ghost i: nat)
      requires Chained() && NoDup(smallQ) && i < |smallQ| && smallQ[i] == e
      modifies this`bytes, this`smallHead, this`smallTail, this`smallQ, this`smallS, this`small
      modifies this`smallBytes, this`smallLen, smallS`prev, smallS`next
      ensures Chained() && smallQ == M.Without(old(smallQ), i) && smallS == old(smallS) - {e}
      ensures small == M.Without(old(small), i)
    {
      hide Linked, Mirrors, Among, NoDup, Costs;
      ListsAmong();
      MirrorsWithout(smallQ, smallS, small, i);
      CostsWithout(smallQ, i);
      UnlinkSmall(e, i);
      bytes, small := bytes - e.cost, M.Without(small, i);
    }

    // Where an entry is

    lemma KeysMatch()
      requires Chained()
      ensures SameKeys(mainQ, main) && SameKeys(smallQ, small)
    {
      forall i | 0 <= i < |mainQ| ensures mainQ[i].key == main[i].key && mainQ[i].cost == main[i].cost {
        assert mainQ[i].ToItem() == main[i];
      }
      forall i | 0 <= i < |smallQ| ensures smallQ[i].key == small[i].key && smallQ[i].cost == small[i].cost {
        assert smallQ[i].ToItem() == small[i];
      }
    }

    lemma RepShaped()
      requires Rep()
      ensures M.Shaped(cfg, St())
    {
      KeysMatch();
      FiledIsWf(mainQ, mainS, smallQ, smallS, items, St());
    }

    lemma LocateMain(e: Entry<K, V>) returns (i: nat)
      requires Rep() && e in mainS
      ensures i < |mainQ| && mainQ[i] == e && main[i] == e.ToItem()
      ensures M.Holds(main, e.key) && M.IndexOf(main, e.key) == i && M.Find(St(), e.key) == e.ToItem()
      ensures M.Remove(St(), e.key) == St().(main := M.Without(main, i))
      ensures e.key in items && items[e.key] == e
    {
      i := PlaceOf(mainQ, mainS, e);
      KeysMatch();
      FindMain(mainQ, mainS, smallQ, smallS, items, St(), i);
    }

    lemma LocateSmall(e: Entry<K, V>) returns (i: nat)
      requires Rep() && e in smallS
      ensures i < |smallQ| && smallQ[i] == e && small[i] == e.ToItem()
      ensures !M.Holds(main, e.key) && M.Holds(small, e.key) && M.IndexOf(small, e.key) == i
      ensures M.Find(St(), e.key) == e.ToItem()
      ensures M.Remove(St(), e.key) == St().(small := M.Without(small, i))
      ensures e.key in items && items[e.key] == e
    {
      i := PlaceOf(smallQ, smallS, e);
      KeysMatch();
      FindSmall(mainQ, mainS, smallQ, smallS, items, St(), i);
    }

    lemma ResidentIsMapped(key: K)
      requires Rep()
      ensures M.Resident(St(), key) <==> key in items
      ensures key in items ==> items[key].key == key && (items[key] in mainS || items[key] in smallS)
      ensures M.Holds(main, key) <==> key in items && items[key] in mainS
    {
      KeysMatch();
      ResidentIsFiled(mainQ, mainS, smallQ, smallS, items, St(), key);
    }

    // Removal

    /** Takes entry i of the main list out of the shard. */
    method RemoveMainAt(e: Entry<K, V>, ghost i: nat)
      requires Rep() && i < |mainQ| && mainQ[i] == e
      modifies this`items, this`bytes, this`head, this`tail, this`mainQ, this`mainS, this`main, mainS`prev, mainS`next
      ensures Rep() && items == old(items) - {e.key} && mainS == old(mainS) - {e}
      ensures main == M.Without(old(main), i)
    {
      hide Chained;
      UnfileMain(mainQ, mainS, smallQ, smallS, items, i);
      items := items - {e.key};
      TakeMain(e, i);
    }

    method RemoveSmallAt(e: Entry<K, V>, ghost i: nat)
      requires Rep() && i < |smallQ| && smallQ[i] == e
      modifies this`items, this`bytes, this`smallHead, this`smallTail, this`smallQ, this`smallS, this`small
      modifies this`smallBytes, this`smallLen, smallS`prev, smallS`next
      ensures Rep() && items == old(items) - {e.key} && smallS == old(smallS) - {e}
      ensures small == M.Without(old(small), i)
    {
      hide Chained;
      UnfileSmall(mainQ, mainS, smallQ, smallS, items, i);
      items := items - {e.key};
      TakeSmall(e, i);
    }

    method RemoveMain(e: Entry<K, V>)
      requires Rep() && e in mainS
      modifies this`items, this`bytes, this`head, this`tail, this`mainQ, this`mainS, this`main, mainS`prev, mainS`next
      ensures Rep() && St() == M.Remove(old(St()), e.key)
      ensures items == old(items) - {e.key} && mainS == old(mainS) - {e}
    {
      ghost var i := LocateMain(e);
      RemoveMainAt(e, i);
    }

    method RemoveSmall(e: Entry<K, V>)
      requires Rep() && e in smallS
      modifies this`items, this`bytes, this`smallHead, this`smallTail, this`smallQ, this`smallS, this`small
      modifies this`smallBytes, this`smallLen, smallS`prev, smallS`next
      ensures Rep() && St() == M.Remove(old(St()), e.key)
      ensures items == old(items) - {e.key} && smallS == old(smallS) - {e}
    {
      ghost var i := LocateSmall(e);
      RemoveSmallAt(e, i);
    }

    /** Unlinks e from both the map and its list. */
    method Remove(e: Entry<K, V>)
      requires Rep() && e.key in items && items[e.key] == e
      modifies this`items, this`bytes, this`head, this`tail, this`mainQ, this`mainS, this`main, mainS`prev, mainS`next
      modifies this`smallHead, this`smallTail, this`smallQ, this`smallS, this`small, this`smallBytes, this`smallLen
      modifies smallS`prev, smallS`next
      ensures Rep() && St() == M.Remove(old(St()), e.key)
      ensures items == old(items) - {e.key}
      ensures mainS == old(mainS) - {e} && smallS == old(smallS) - {e}
    {
      hide Linked, Mirrors, Filed;
      Locate(e);
      if e.small {
        RemoveSmall(e);
      } else {
        RemoveMain(e);
      }
    }

    // Budgets

    predicate Over()
      reads this
    {
      || (cfg.maxBytes > 0 && bytes > cfg.maxBytes)
      || (cfg.maxEntries > 0 && |items| > cfg.maxEntries)
    }

    predicate SmallFull()
      reads this
    {
      || (cfg.maxBytes > 0 && smallBytes >= Max(cfg.maxBytes / M.SMALL_SHARE, 1))
      || (cfg.maxEntries > 0 && smallLen >= Max(cfg.maxEntries / M.SMALL_SHARE, 1))
    }

    /** The running totals decide as the sums would. */
    lemma TotalsDecide()
      requires Rep()
      ensures Over() <==> M.Over(cfg, St())
      ensures SmallFull() <==> M.SmallFull(cfg, St())
      ensures |items| == M.Count(St()) && bytes == M.TotalBytes(St())
    {
      KeysMatch();
      CostsAreBytes(mainQ, main);
      CostsAreBytes(smallQ, small);
    }

    // Moves

    /** Puts e at the front of the main list and into the total. */
    method PutMain(e: Entry<K, V>)
      requires Chained() && NoDup(mainQ) && e !in mainS && e !in smallS && !e.small
      modifies this`bytes, this`head, this`tail, this`mainQ, this`mainS, this`main, mainS`prev, e`prev, e`next
      ensures Chained() && mainQ == [e] + old(mainQ) && mainS == old(mainS) + {e}
      ensures main == [old(e.ToItem())] + old(main)
    {
      hide Linked, Mirrors, Among, NoDup, Costs;
      ListsAmong();
      MirrorsCons(e, mainQ, mainS, main);
      CostsCons(e, mainQ);
      PushFront(e);
      bytes, main := bytes + e.cost, [e.ToItem()] + main;
    }

    method PutSmall(e: Entry<K, V>)
      requires Chained() && NoDup(smallQ) && e !in mainS && e !in smallS
      modifies this`bytes, this`smallHead, this`smallTail, this`smallQ, this`smallS, this`small
      modifies this`smallBytes, this`smallLen, smallS`prev, e`prev, e`next, e`small
      ensures Chained() && smallQ == [e] + old(smallQ) && smallS == old(smallS) + {e}
      ensures small == [old(e.ToItem())] + old(small)
    {
      hide Linked, Mirrors, Among, NoDup, Costs;
      ListsAmong();
      MirrorsCons(e, smallQ, smallS, small);
      CostsCons(e, smallQ);
      PushSmall(e);
      bytes, small := bytes + e.cost, [e.ToItem()] + small;
    }

    method MoveToFront(e: Entry<K, V>, ghost i: nat)
      requires Linked(mainQ, mainS, head, tail) && NoDup(mainQ) && i < |mainQ| && mainQ[i] == e
      modifies this`head, this`tail, this`mainQ, this`mainS, mainS`prev, mainS`next
      ensures Linked(mainQ, mainS, head, tail)
      ensures mainQ == [e] + M.Without(old(mainQ), i) && mainS == old(mainS)
    {
      if head == e {
        return;
      }
      Unlink(e, i);
      PushFront(e);
    }

    /** Moves e to the front of the main list, if it is not there. */
    method Touch(e: Entry<K, V>, ghost i: nat)
      requires Chained() && NoDup(mainQ) && i < |mainQ| && mainQ[i] == e
      modifies this`head, this`tail, this`mainQ, this`mainS, this`main, mainS`prev, mainS`next
      ensures Chained() && mainQ == [e] + M.Without(old(mainQ), i) && mainS == old(mainS)
      ensures main == [old(main)[i]] + M.Without(old(main), i)
    {
      hide Linked, Mirrors, Among, NoDup, Costs;
      ListsAmong();
      AmongAt(mainQ, mainS, i);
      MirrorsWithout(mainQ, mainS, main, i);
      MirrorsCons(e, M.Without(mainQ, i), mainS - {e}, M.Without(main, i));
      assert mainS - {e} + {e} == mainS;
      assert Costs([e] + M.Without(mainQ, i)) == Costs(mainQ) by {
        CostsWithout(mainQ, i);
        CostsCons(e, M.Without(mainQ, i));
      }
      main := [main[i]] + M.Without(main, i);
      MoveToFront(e, i);
    }

    /** The links of MoveUp. */
    method Relink(t: Entry<K, V>, ghost i: nat)
      requires TwoLists() && NoDup(mainQ) && NoDup(smallQ) && i < |smallQ| && smallQ[i] == t
      modifies this`head, this`tail, this`mainQ, this`mainS, mainS`prev, mainS`next
      modifies this`smallHead, this`smallTail, this`smallQ, this`smallS, this`smallBytes, this`smallLen
      modifies smallS`prev, smallS`next, t`small, t`freq
      ensures TwoLists() && !t.small && t.freq == 0 && mainQ == [t] + old(mainQ) && mainS == old(mainS) + {t}
      ensures smallQ == M.Without(old(smallQ), i) && smallS == old(smallS) - {t}
      ensures smallBytes == old(smallBytes) - t.cost && smallLen == old(smallLen) - 1
    {
      UnlinkSmall(t, i);
      t.small := false;
      t.freq := 0;
      PushFront(t);
    }

    method LiftTail(t: Entry<K, V>, ghost i: nat)
      requires Chained() && NoDup(mainQ) && NoDup(smallQ) && i < |smallQ| && smallQ[i] == t
      modifies this`head, this`tail, this`mainQ, this`mainS, this`main, mainS`prev, mainS`next
      modifies this`smallHead, this`smallTail, this`smallQ, this`smallS, this`small, this`smallBytes, this`smallLen
      modifies smallS`prev, smallS`next, t`small, t`freq
      ensures Chained() && mainQ == [t] + old(mainQ) && mainS == old(mainS) + {t}
      ensures smallQ == M.Without(old(smallQ), i) && smallS == old(smallS) - {t}
      ensures main == [old(small)[i].(freq := 0)] + old(main) && small == M.Without(old(small), i)
    {
      hide Linked, Mirrors, Among, NoDup, TwoLists, Costs;
      ListsApart(i);
      MirrorsWithout(smallQ, smallS, small, i);
      CostsWithout(smallQ, i);
      CostsCons(t, mainQ);
      Relink(t, i);
      MirrorsCons(t, old(mainQ), old(mainS), main);
      main, small := [small[i].(freq := 0)] + main, M.Without(small, i);
    }

    /** The oldest entry of the small list moves up, its reads forgotten. */
    method MoveUp(t: Entry<K, V>)
      requires Rep() && smallQ != [] && t == smallTail
      modifies this`head, this`tail, this`mainQ, this`mainS, this`main, mainS`prev, mainS`next
      modifies this`smallHead, this`smallTail, this`smallQ, this`smallS, this`small, this`smallBytes, this`smallLen
      modifies smallS`prev, smallS`next, t`small, t`freq
      ensures Rep() && St() == M.MoveUp(old(St()))
      ensures mainS == old(mainS) + {t} && smallS == old(smallS) - {t}
    {
      ghost var i := |smallQ| - 1;
      FiledMove(mainQ, mainS, smallQ, smallS, items, i);
      LiftTail(t, i);
    }

    lemma TailIsLast()
      requires Rep()
      ensures mainQ != [] ==> tail == mainQ[|mainQ| - 1] && tail in mainS && M.Last(main) == tail.ToItem()
      ensures smallQ != [] ==>
                smallTail == smallQ[|smallQ| - 1] && smallTail in smallS && M.Last(small) == smallTail.ToItem()
      ensures |main| == |mainQ| && |small| == |smallQ| && mainS !! smallS
      ensures (mainQ == [] <==> tail == null) && (smallQ == [] <==> smallTail == null)
    {
      if mainQ != [] {
        assert mainQ[|mainQ| - 1].ToItem() == main[|mainQ| - 1];
      }
      if smallQ != [] {
        assert smallQ[|smallQ| - 1].ToItem() == small[|smallQ| - 1];
      }
    }

    method Remember(key: K)
      requires Rep()
      modifies ghosts
      ensures Rep() && ghosts.log == Then(old(ghosts.log), Added(cfg.hash(key), |items|))
    {
      hide Chained, Filed;
      ghosts.Add(cfg.hash(key), |items|);
    }

    /** The oldest entry of the small list leaves as a ghost. */
    method LetOut(t: Entry<K, V>)
      requires Rep() && smallQ != [] && t == smallTail
      modifies this`items, this`bytes, this`smallHead, this`smallTail, this`smallQ, this`smallS, this`small
      modifies this`smallBytes, this`smallLen, smallS`prev, smallS`next, ghosts
      ensures Rep() && St() == M.LetOut(cfg, old(St()))
      ensures smallS == old(smallS) - {t} && items == old(items) - {t.key}
    {
      hide Rep, M.TotalBytes, M.Over, M.SmallFull;
      TailIsLast();
      RemoveSmallAt(t, |smallQ| - 1);
      TotalsDecide();
      Remember(t.key);
    }

    method Spend(t: Entry<K, V>, ghost i: nat)
      requires Chained() && NoDup(mainQ) && i < |mainQ| && mainQ[i] == t && t.freq > 0
      modifies this`main, t`freq
      ensures Chained() && i < |old(main)| && old(main)[i] == old(t.ToItem())
      ensures main == old(main)[i := old(main)[i].(freq := old(main)[i].freq - 1)]
    {
      assert t.ToItem() == main[i];
      t.freq := t.freq - 1;
      main := main[i := t.ToItem()];
    }

    /** Main entry i goes round again, one read the poorer. */
    method GoRound(t: Entry<K, V>, ghost i: nat)
      requires Rep() && i < |mainQ| && mainQ[i] == t && t.freq > 0
      modifies this`head, this`tail, this`mainQ, this`mainS, this`main, mainS`prev, mainS`next, t`freq
      ensures Rep() && main[0].key == t.key && old(main)[i].freq > 0
      ensures St() == M.GoRound(old(St()), i) && mainS == old(mainS)
    {
      hide Linked, Mirrors;
      FiledRotate(mainQ, mainS, smallQ, smallS, items, i);
      Spend(t, i);
      Touch(t, i);
    }

    // Eviction

    /** Entries of the shard are the same when their keys are. */
    lemma SameEntry(a: Entry<K, V>, b: Entry<K, V>)
      requires Rep() && (a in mainS || a in smallS) && (b in mainS || b in smallS)
      ensures a == b <==> a.key == b.key
    {
      if a in mainS {
        var i := LocateMain(a);
      } else {
        var i := LocateSmall(a);
      }
      if b in mainS {
        var i := LocateMain(b);
      } else {
        var i := LocateSmall(b);
      }
    }

    /** The main list's oldest entry but keep, if it has one. */
    method OldestButKeep(keep: Entry<K, V>) returns (t: Entry?<K, V>, ghost i: int)
      requires Rep() && (keep in mainS || keep in smallS)
      ensures i == M.OldestButKeep(main, keep.key) && t != keep
      ensures if t == null then i == -1
              else 0 <= i < |mainQ| && mainQ[i] == t && main[i] == t.ToItem() && t in mainS && t !in smallS
    {
      TailIsLast();
      t := tail;
      i := |mainQ| - 1;
      if t != null {
        SameEntry(t, keep);
      }
      if t == keep {
        t := t.prev;
        i := i - 1;
      }
    }

    /** Whether the small list has to give up its oldest entry. */
    method SmallGives(keep: Entry<K, V>) returns (gives: bool)
      requires Rep() && (keep in mainS || keep in smallS)
      ensures gives == M.SmallGives(cfg, St(), keep.key)
    {
      TailIsLast();
      TotalsDecide();
      if tail != null {
        SameEntry(tail, keep);
      }
      if smallTail != null {
        SameEntry(smallTail, keep);
      }
      var mainEmpty := tail == null || (tail == keep && keep.prev == null);
      gives := smallTail != null && smallTail != keep && (SmallFull() || mainEmpty);
    }

    /** The turn of the S3FIFO loop in which the small list gives. */
    method SmallTurn() returns (victim: Entry?<K, V>)
      requires Rep() && smallQ != []
      modifies this`items, this`bytes, this`head, this`tail, this`mainQ, this`mainS, this`main
      modifies this`smallHead, this`smallTail, this`smallQ, this`smallS, this`small, this`smallBytes, this`smallLen
      modifies mainS`prev, mainS`next, smallS`prev, smallS`next, smallS`small, smallS`freq, ghosts
      ensures Rep()
      ensures var t := old(smallTail);
              && old(small) != [] && t in old(smallS) && old(t.ToItem()) == M.Last(old(small))
              && smallS == old(smallS) - {t}
              && if old(t.freq) > 0
                 then victim == null && St() == M.MoveUp(old(St())) && mainS == old(mainS) + {t}
                 else victim == t && t.ToItem() == old(t.ToItem())
                      && St() == M.LetOut(cfg, old(St())) && mainS == old(mainS)
    {
      hide Rep, M.MoveUp, M.LetOut, M.Last;
      TailIsLast();
      var t := smallTail;
      if t.freq > 0 {
        MoveUp(t);
        victim := null;
      } else {
        LetOut(t);
        victim := t;
      }
    }

    /** The turn in which main entry i does. */
    method MainTurn(t: Entry<K, V>, ghost i: nat) returns (victim: Entry?<K, V>)
      requires Rep() && i < |mainQ| && mainQ[i] == t
      modifies this`items, this`bytes, this`head, this`tail, this`mainQ, this`mainS, this`main
      modifies mainS`prev, mainS`next, t`freq
      ensures Rep()
      ensures && i < |old(main)| && t in old(mainS) && old(t.ToItem()) == old(main)[i]
              && if old(t.freq) > 0
                 then victim == null && St() == M.GoRound(old(St()), i) && mainS == old(mainS)
                 else victim == t && t.ToItem() == old(t.ToItem())
                      && St() == old(St()).(main := M.Without(old(main), i)) && mainS == old(mainS) - {t}
    {
      assert t.ToItem() == main[i];
      if t.freq > 0 {
        GoRound(t, i);
        victim := null;
      } else {
        RemoveMainAt(t, i);
        victim := t;
      }
    }

    /** The shard is what a turn makes of before, and victim the entry it evicted. */
    ghost predicate Turned(before: M.State<K, V>, keep: K, stuck: bool, victim: Entry?<K, V>)
      reads this`main, this`small, ghosts`log, victim
    {
      match M.TakeTurn(cfg, before, keep)
      case Stuck => stuck && victim == null && St() == before
      case Moved(next) => !stuck && victim == null && St() == next
      case Gone(next, item, _) => !stuck && victim != null && victim.ToItem() == item && St() == next
    }

    method SmallTakesTurn(keep: Entry<K, V>) returns (victim: Entry?<K, V>)
      requires Rep() && (keep in mainS || keep in smallS) && M.SmallGives(cfg, St(), keep.key)
      modifies this`items, this`bytes, this`head, this`tail, this`mainQ, this`mainS, this`main
      modifies this`smallHead, this`smallTail, this`smallQ, this`smallS, this`small, this`smallBytes, this`smallLen
      modifies mainS`prev, mainS`next, smallS`prev, smallS`next, smallS`small, smallS`freq, ghosts
      ensures Rep() && Turned(old(St()), keep.key, false, victim)
      ensures keep in mainS || keep in smallS
      ensures mainS <= old(mainS) + old(smallS) && smallS <= old(smallS)
      ensures victim != null ==> victim !in mainS && victim !in smallS && victim in old(smallS)
    {
      TailIsLast();
      SameEntry(smallTail, keep);
      victim := SmallTurn();
    }

    method MainTakesTurn(keep: Entry<K, V>) returns (stuck: bool, victim: Entry?<K, V>)
      requires Rep() && (keep in mainS || keep in smallS) && !M.SmallGives(cfg, St(), keep.key)
      modifies this`items, this`bytes, this`head, this`tail, this`mainQ, this`mainS, this`main
      modifies mainS`prev, mainS`next, mainS`freq
      ensures Rep() && Turned(old(St()), keep.key, stuck, victim)
      ensures keep in mainS || keep in smallS
      ensures mainS <= old(mainS)
      ensures victim != null ==> victim !in mainS && victim !in smallS && victim in old(mainS)
    {
      hide Rep;
      var t;
      ghost var i;
      t, i := OldestButKeep(keep);
      if t == null {
        return true, null;
      }
      SameEntry(t, keep);
      stuck := false;
      victim := MainTurn(t, i);
    }

    /** One turn of the S3FIFO loop, with the entry it evicted, if any. */
    method TakeTurn(keep: Entry<K, V>) returns (stuck: bool, victim: Entry?<K, V>)
      requires Rep() && (keep in mainS || keep in smallS)
      modifies this`items, this`bytes, this`head, this`tail, this`mainQ, this`mainS, this`main
      modifies this`smallHead, this`smallTail, this`smallQ, this`smallS, this`small, this`smallBytes, this`smallLen
      modifies mainS`prev, mainS`next, mainS`freq, smallS`prev, smallS`next, smallS`small, smallS`freq, ghosts
      ensures Rep() && Turned(old(St()), keep.key, stuck, victim)
      ensures keep in mainS || keep in smallS
      ensures mainS <= old(mainS) + old(smallS) && smallS <= old(smallS)
      ensures victim != null ==>
                victim !in mainS && victim !in smallS && (victim in old(mainS) || victim in old(smallS))
    {
      var gives := SmallGives(keep);
      if gives {
        stuck := false;
        victim := SmallTakesTurn(keep);
      } else {
        stuck, victim := MainTakesTurn(keep);
      }
    }

    /** What evicting from before for keep ends in, and whom it evicts. */
    ghost predicate Evicted(out: M.Evicted<K, V>, victims: seq<Entry<K, V>>)
      reads this`main, this`small, ghosts`log, victims
    {
      St() == out.state && Carry(victims, out.victims)
    }

    /** Part of the way through an S3FIFO eviction that will end in out. */
    ghost predicate Midway(out: M.Evicted<K, V>, keep: K, gone: M.Queue<K, V>)
      reads this`main, this`small, ghosts`log
    {
      && M.Wf(St())
      && out.state == M.EvictS3Fifo(cfg, St(), keep).state
      && out.victims == gone + M.EvictS3Fifo(cfg, St(), keep).victims
    }

    /** The victims so far, which are no longer in the shard. */
    ghost predicate Out(victims: seq<Entry<K, V>>, victimS: set<Entry<K, V>>, gone: M.Queue<K, V>)
      reads this`mainS, this`smallS, victims
    {
      Carry(victims, gone) && Among(victims, victimS) && victimS !! mainS && victimS !! smallS
    }

    /** One step of a function that steps as the loop does. */
    lemma TurnAdvances(out: M.Evicted<K, V>, keep: K, gone: M.Queue<K, V>,
                       before: M.State<K, V>, stuck: bool, victim: Entry?<K, V>)
      requires M.Wf(before) && M.Over(cfg, before) && Turned(before, keep, stuck, victim)
      requires out.state == M.EvictS3Fifo(cfg, before, keep).state
      requires out.victims == gone + M.EvictS3Fifo(cfg, before, keep).victims
      ensures stuck ==> St() == out.state && out.victims == gone
      ensures !stuck ==> M.Effort(St(), keep) < M.Effort(before, keep)
      ensures !stuck ==> Midway(out, keep, if victim == null then gone else gone + [victim.ToItem()])
    {
      M.TurnShrinksEffort(cfg, before, keep);
      if !stuck && victim != null {
        assert gone + ([victim.ToItem()] + M.EvictS3Fifo(cfg, St(), keep).victims)
            == gone + [victim.ToItem()] + M.EvictS3Fifo(cfg, St(), keep).victims;
      }
    }

    /** The body of the S3FIFO loop. */
    method EvictTurn(keep: Entry<K, V>, sofar: seq<Entry<K, V>>, ghost out: M.Evicted<K, V>,
                     ghost victimS: set<Entry<K, V>>, ghost gone: M.Queue<K, V>)
      returns (stuck: bool, victims: seq<Entry<K, V>>, ghost victimS': set<Entry<K, V>>, ghost gone': M.Queue<K, V>)
      requires Rep() && (keep in mainS || keep in smallS) && M.Over(cfg, St())
      requires Midway(out, keep.key, gone) && Out(sofar, victimS, gone)
      modifies this`items, this`bytes, this`head, this`tail, this`mainQ, this`mainS, this`main
      modifies this`smallHead, this`smallTail, this`smallQ, this`smallS, this`small, this`smallBytes, this`smallLen
      modifies mainS`prev, mainS`next, mainS`freq, smallS`prev, smallS`next, smallS`small, smallS`freq, ghosts
      ensures Rep() && (keep in mainS || keep in smallS)
      ensures mainS <= old(mainS) + old(smallS) && smallS <= old(smallS)
      ensures Out(victims, victimS', gone')
      ensures stuck ==> St() == out.state && out.victims == gone'
      ensures !stuck ==> Midway(out, keep.key, gone') && M.Effort(St(), keep.key) < M.Effort(old(St()), keep.key)
    {
      hide Rep, Turned, M.EvictS3Fifo, M.TakeTurn, M.Over, M.Effort, M.Wf;
      ghost var before := St();
      var victim;
      stuck, victim := TakeTurn(keep);
      TurnAdvances(out, keep.key, gone, before, stuck, victim);
      victims, gone', victimS' := sofar, gone, victimS;
      if victim != null {
        victims, gone', victimS' := victims + [victim], gone + [victim.ToItem()], victimS + {victim};
      }
    }

    /** The S3FIFO loop. */
    method EvictS3Fifo(keep: Entry<K, V>) returns (victims: seq<Entry<K, V>>)
      requires Rep() && M.Wf(St()) && (keep in mainS || keep in smallS)
      modifies this`items, this`bytes, this`head, this`tail, this`mainQ, this`mainS, this`main
      modifies this`smallHead, this`smallTail, this`smallQ, this`smallS, this`small, this`smallBytes, this`smallLen
      modifies mainS`prev, mainS`next, mainS`freq, smallS`prev, smallS`next, smallS`small, smallS`freq, ghosts
      ensures Rep() && Evicted(M.EvictS3Fifo(cfg, old(St()), keep.key), victims)
      ensures keep in mainS || keep in smallS
      ensures mainS <= old(mainS) + old(smallS) && smallS <= old(smallS)
    {
      victims := [];
      ghost var gone: M.Queue<K, V> := [];
      ghost var victimS: set<Entry<K, V>> := {};
      hide Rep;
      ghost var out := M.EvictS3Fifo(cfg, St(), keep.key);
      TotalsDecide();
      while Over()
        invariant Rep() && (keep in mainS || keep in smallS)
        invariant mainS <= old(mainS) + old(smallS) && smallS <= old(smallS)
        invariant Over() <==> M.Over(cfg, St())
        invariant Midway(out, keep.key, gone)
        invariant Out(victims, victimS, gone)
        decreases M.Effort(St(), keep.key)
      {
        var stuck;
        stuck, victims, victimS, gone := EvictTurn(keep, victims, out, victimS, gone);
        if stuck {
          break;
        }
        TotalsDecide();
      }
    }

    /** The loop stops where its function does. */
    lemma LruDone(keep: Entry<K, V>)
      requires Rep() && (keep in mainS || keep in smallS) && (!Over() || tail == null || tail == keep)
      ensures M.EvictLru(cfg, St(), keep.key) == M.Evicted(St(), [], 0, 0)
    {
      TotalsDecide();
      TailIsLast();
    }

    /** The LRU loop: the oldest entry leaves until the shard is inside its budget
        or keep is all there is. */
    method EvictLru(keep: Entry<K, V>) returns (victims: seq<Entry<K, V>>)
      requires Rep() && (keep in mainS || keep in smallS)
      modifies this`items, this`bytes, this`head, this`tail, this`mainQ, this`mainS, this`main, mainS`prev, mainS`next
      ensures Rep() && Evicted(M.EvictLru(cfg, old(St()), keep.key), victims)
      ensures keep in mainS || keep in smallS
      ensures mainS <= old(mainS)
    {
      hide Rep, M.EvictLru, M.Over;
      victims := [];
      ghost var gone: M.Queue<K, V> := [];
      ghost var victimS: set<Entry<K, V>> := {};
      ghost var out := M.EvictLru(cfg, St(), keep.key);
      TotalsDecide();
      TailIsLast();
      while Over() && tail != null && tail != keep
        invariant Rep() && (keep in mainS || keep in smallS)
        invariant mainS <= old(mainS)
        invariant Over() <==> M.Over(cfg, St())
        invariant mainQ == [] <==> tail == null
        invariant MidwayLru(out, keep.key, gone)
        invariant Out(victims, victimS, gone)
        decreases |main|
      {
        victims, victimS, gone := LruTurn(keep, victims, out, victimS, gone);
        TotalsDecide();
        TailIsLast();
      }
      LruDone(keep);
    }

    ghost predicate MidwayLru(out: M.Evicted<K, V>, keep: K, gone: M.Queue<K, V>)
      reads this`main, this`small, ghosts`log
    {
      && out.state == M.EvictLru(cfg, St(), keep).state
      && out.victims == gone + M.EvictLru(cfg, St(), keep).victims
    }

    lemma LruAdvances(out: M.Evicted<K, V>, keep: K, gone: M.Queue<K, V>, before: M.State<K, V>, victim: M.Item<K, V>)
      requires before.main != [] && M.Last(before.main) == victim && victim.key != keep && M.Over(cfg, before)
      requires St() == before.(main := M.Without(before.main, |before.main| - 1))
      requires out.state == M.EvictLru(cfg, before, keep).state
      requires out.victims == gone + M.EvictLru(cfg, before, keep).victims
      ensures MidwayLru(out, keep, gone + [victim])
    {
      FrontIsWithout(before.main);
      var rest := M.EvictLru(cfg, St(), keep).victims;
      assert gone + ([victim] + rest) == gone + [victim] + rest;
    }

    /** The body of the LRU loop. */
    method LruTurn(keep: Entry<K, V>, sofar: seq<Entry<K, V>>, ghost out: M.Evicted<K, V>,
                   ghost victimS: set<Entry<K, V>>, ghost gone: M.Queue<K, V>)
      returns (victims: seq<Entry<K, V>>, ghost victimS': set<Entry<K, V>>, ghost gone': M.Queue<K, V>)
      requires Rep() && (keep in mainS || keep in smallS) && M.Over(cfg, St()) && mainQ != [] && tail != keep
      requires MidwayLru(out, keep.key, gone) && Out(sofar, victimS, gone)
      modifies this`items, this`bytes, this`head, this`tail, this`mainQ, this`mainS, this`main, mainS`prev, mainS`next
      ensures Rep() && (keep in mainS || keep in smallS) && mainS <= old(mainS)
      ensures Out(victims, victimS', gone') && MidwayLru(out, keep.key, gone') && |main| < |old(main)|
    {
      hide Rep, M.EvictLru, M.Over;
      TailIsLast();
      SameEntry(tail, keep);
      var v := tail;
      ghost var before := St();
      RemoveMainAt(v, |mainQ| - 1);
      LruAdvances(out, keep.key, gone, before, v.ToItem());
      victims, gone', victimS' := sofar + [v], gone + [v.ToItem()], victimS + {v};
    }

    /** The entries other than keep, in no set order. */
    method Others(keep: Entry<K, V>) returns (victims: seq<Entry<K, V>>)
      requires Rep() && keep in mainS && smallQ == []
      ensures NoDup(victims) && (set v | v in victims) == mainS - {keep}
    {
      victims := [];
      var rest := items.Keys;
      while rest != {}
        invariant rest <= items.Keys && NoDup(victims)
        invariant forall v :: v in victims <==> v != keep && v.key in items.Keys - rest && items[v.key] == v
      {
        var k :| k in rest;
        rest := rest - {k};
        if items[k] != keep {
          victims := victims + [items[k]];
        }
      }
      forall v ensures v in victims <==> v in mainS - {keep} {
        if v in mainS {
          var i := LocateMain(v);
        }
        assert smallS == {};
      }
    }

    /** ClearOnFull: everything but keep goes at once. */
    method EvictAll(keep: Entry<K, V>) returns (victims: seq<Entry<K, V>>)
      requires Rep() && keep in mainS && smallQ == []
      modifies this`items, this`bytes, this`head, this`tail, this`mainQ, this`mainS, this`main, keep`prev, keep`next
      ensures Rep() && mainS == {keep} && M.Holds(old(main), keep.key)
      ensures St() == M.EvictAll(old(St()), keep.key).state
      ensures NoDup(victims) && (set v | v in victims) == old(mainS) - {keep}
    {
      victims := Others(keep);
      ghost var i := LocateMain(keep);
      KeepOnly(keep, i);
    }

    /** The small list is empty, and its totals with it. */
    ghost predicate NoSmall()
      reads this
    {
      && smallQ == [] && smallS == {} && small == []
      && smallHead == null && smallTail == null && smallBytes == 0 && smallLen == 0
    }

    lemma SmallIsEmpty()
      requires Rep() && smallQ == []
      ensures NoSmall()
    {
    }

    lemma OneChained(keep: Entry<K, V>)
      requires NoSmall() && !keep.small && mainQ == [keep] && mainS == {keep} && main == [keep.ToItem()]
      requires head == keep && tail == keep && keep.prev == null && keep.next == null && bytes == keep.cost
      ensures Chained()
    {
      FiledOne(keep);
    }

    method LinkOnly(keep: Entry<K, V>)
      requires NoSmall() && !keep.small
      modifies this`bytes, this`head, this`tail, this`mainQ, this`mainS, this`main, keep`prev, keep`next
      ensures Chained() && mainQ == [keep] && mainS == {keep} && main == [old(keep.ToItem())]
    {
      hide Chained;
      head, tail := keep, keep;
      keep.prev, keep.next := null, null;
      bytes := keep.cost;
      mainQ, mainS, main := [keep], {keep}, [keep.ToItem()];
      OneChained(keep);
    }

    method KeepOnly(keep: Entry<K, V>, ghost i: nat)
      requires Rep() && smallQ == [] && keep in mainS && i < |main| && main[i] == keep.ToItem()
      modifies this`items, this`bytes, this`head, this`tail, this`mainQ, this`mainS, this`main, keep`prev, keep`next
      ensures Rep() && mainS == {keep} && main == [old(main)[i]]
    {
      hide Filed, Linked;
      SmallIsEmpty();
      assert !keep.small;
      LinkOnly(keep);
      items := map[keep.key := keep];
      FiledOne(keep);
    }

    /** Brings the shard back inside its budget, sparing keep. */
    method Evict(keep: Entry<K, V>) returns (victims: seq<Entry<K, V>>)
      requires Rep() && (keep in mainS || keep in smallS) && (cfg.policy != M.S3FIFO ==> keep in mainS)
      modifies this`items, this`bytes, this`head, this`tail, this`mainQ, this`mainS, this`main
      modifies this`smallHead, this`smallTail, this`smallQ, this`smallS, this`small, this`smallBytes, this`smallLen
      modifies mainS`prev, mainS`next, mainS`freq, smallS`prev, smallS`next, smallS`small, smallS`freq, ghosts
      ensures Rep() && M.Shaped(cfg, old(St())) && (cfg.policy != M.S3FIFO ==> M.Holds(old(main), keep.key))
      ensures var out := M.Evict(cfg, old(St()), keep.key);
              && St() == out.state
              && (cfg.policy != M.ClearOnFull ==> Carry(victims, out.victims))
              && (cfg.policy == M.ClearOnFull && M.Over(cfg, old(St())) ==>
                  NoDup(victims) && (set v | v in victims) == old(mainS) - {keep})
              && (!M.Over(cfg, old(St())) ==> victims == [])
      ensures (keep in mainS || keep in smallS) && mainS <= old(mainS) + old(smallS) && smallS <= old(smallS)
    {
      RepShaped();
      TotalsDecide();
      if keep in mainS {
        ghost var i := LocateMain(keep);
      }
      if !Over() {
        return [];
      }
      if cfg.policy == M.S3FIFO {
        victims := EvictS3Fifo(keep);
      } else if cfg.policy == M.ClearOnFull {
        victims := EvictAll(keep);
      } else {
        victims := EvictLru(keep);
      }
    }

    // Writes

    method InsertMain(e: Entry<K, V>)
      requires Rep() && e.key !in items && e !in mainS && e !in smallS && !e.small
      modifies this`items, this`bytes, this`head, this`tail, this`mainQ, this`mainS, this`main
      modifies mainS`prev, e`prev, e`next
      ensures Rep() && mainS == old(mainS) + {e} && main == [old(e.ToItem())] + old(main)
    {
      hide Chained;
      FileMain(mainQ, mainS, smallQ, smallS, items, e);
      items := items[e.key := e];
      PutMain(e);
    }

    method InsertSmall(e: Entry<K, V>)
      requires Rep() && cfg.policy == M.S3FIFO && e.key !in items && e !in mainS && e !in smallS
      modifies this`items, this`bytes, this`smallHead, this`smallTail, this`smallQ, this`smallS, this`small
      modifies this`smallBytes, this`smallLen, smallS`prev, e`prev, e`next, e`small
      ensures Rep() && smallS == old(smallS) + {e} && small == [old(e.ToItem())] + old(small)
    {
      hide Chained;
      FileSmall(mainQ, mainS, smallQ, smallS, items, e);
      items := items[e.key := e];
      PutSmall(e);
    }

    /** Queues a new entry whose key the ghosts may remember. */
    method Admit(e: Entry<K, V>)
      requires Rep() && cfg.policy == M.S3FIFO && e.key !in items && e !in mainS && e !in smallS && !e.small
      modifies this`items, this`bytes, this`head, this`tail, this`mainQ, this`mainS, this`main
      modifies this`smallHead, this`smallTail, this`smallQ, this`smallS, this`small, this`smallBytes, this`smallLen
      modifies mainS`prev, smallS`prev, e`prev, e`next, e`small, ghosts
      ensures Rep() && (e in mainS || e in smallS) && mainS <= old(mainS) + {e} && smallS <= old(smallS) + {e}
      ensures var item, log := old(e.ToItem()), Then(old(ghosts.log), Taken(cfg.hash(e.key)));
              St() == if IsGhost(old(ghosts.log), cfg.hash(e.key))
                      then M.State([item] + old(main), old(small), log)
                      else M.State(old(main), [item] + old(small), log)
    {
      hide Linked, Mirrors, Filed;
      var was := ghosts.Take(cfg.hash(e.key));
      if was {
        InsertMain(e);
      } else {
        InsertSmall(e);
      }
    }

    lemma Locate(e: Entry<K, V>)
      requires Rep() && e.key in items && items[e.key] == e
      ensures M.Resident(St(), e.key) && M.Find(St(), e.key) == e.ToItem()
      ensures e.small <==> !M.Holds(St().main, e.key)
      ensures if e.small then e in smallS else e in mainS
      ensures NoDup(mainQ) && NoDup(smallQ) && (cfg.policy != M.S3FIFO ==> e in mainS)
    {
      if e in mainS {
        var i := LocateMain(e);
      } else {
        var i := LocateSmall(e);
      }
    }

    /** What an entry is to the state it was removed from. */
    ghost predicate Old(before: M.State<K, V>, key: K, replaced: Entry?<K, V>)
      reads replaced
    {
      if replaced == null then !M.Resident(before, key)
      else M.Resident(before, key) && M.Find(before, key) == replaced.ToItem()
           && (replaced.small <==> !M.Holds(before.main, key))
    }

    /** Queues a new entry, replaced having been removed from before for it. */
    method Place(e: Entry<K, V>, replaced: Entry?<K, V>, ghost before: M.State<K, V>)
      requires Rep() && e.key !in items && e !in mainS && e !in smallS && !e.small && e.freq == 0
      requires St() == M.Remove(before, e.key) && Old(before, e.key, replaced) && replaced != e
      modifies this`items, this`bytes, this`head, this`tail, this`mainQ, this`mainS, this`main
      modifies this`smallHead, this`smallTail, this`smallQ, this`smallS, this`small, this`smallBytes, this`smallLen
      modifies mainS`prev, smallS`prev, e`prev, e`next, e`small, e`freq, ghosts
      ensures Rep() && (e in mainS || e in smallS) && (cfg.policy != M.S3FIFO ==> e in mainS)
      ensures mainS <= old(mainS) + {e} && smallS <= old(smallS) + {e}
      ensures cfg.policy != M.S3FIFO ==> mainS == old(mainS) + {e}
      ensures St() == M.Insert(cfg, before, old(e.ToItem()))
    {
      hide Rep;
      if cfg.policy != M.S3FIFO {
        InsertMain(e);
      } else if replaced != null && !replaced.small {
        e.freq := replaced.freq;
        InsertMain(e);
      } else {
        Admit(e);
      }
    }

    /** Stores e in place of its key's old entry, before any eviction; rest is the
        main list's entries without that one. */
    method Insert(e: Entry<K, V>) returns (replaced: Entry?<K, V>, ghost rest: set<Entry<K, V>>)
      requires Rep() && e !in mainS && e !in smallS && !e.small && e.freq == 0
      modifies this`items, this`bytes, this`head, this`tail, this`mainQ, this`mainS, this`main
      modifies this`smallHead, this`smallTail, this`smallQ, this`smallS, this`small, this`smallBytes, this`smallLen
      modifies mainS`prev, mainS`next, smallS`prev, smallS`next, e`prev, e`next, e`small, e`freq, ghosts
      ensures Rep() && (e in mainS || e in smallS) && (cfg.policy != M.S3FIFO ==> e in mainS)
      ensures mainS <= old(mainS) + {e} && smallS <= old(smallS) + {e}
      ensures St() == M.Insert(cfg, old(St()), old(e.ToItem()))
      ensures Old(old(St()), e.key, replaced)
      ensures if replaced == null then rest == old(mainS)
              else rest == old(mainS) - {replaced} && replaced !in mainS && replaced !in smallS
      ensures cfg.policy != M.S3FIFO ==> mainS == rest + {e}
    {
      hide Rep, M.Insert;
      ghost var before := St();
      replaced := null;
      ResidentIsMapped(e.key);
      if e.key in items {
        replaced := items[e.key];
        Locate(replaced);
        Remove(replaced);
      }
      rest := mainS;
      Place(e, replaced, before);
    }

    // The critical sections

    /** The entries a stored write of item took out of before. ClearOnFull hands
        over the rest of them all, in no set order. */
    ghost predicate TookOut(before: M.State<K, V>, item: M.Item<K, V>, rest: set<Entry<K, V>>,
                            replaced: Entry?<K, V>, victims: seq<Entry<K, V>>)
      requires M.Shaped(cfg, before) && M.Fits(cfg, item)
      reads replaced, victims
    {
      var r := M.Set(cfg, before, item, true);
      && (if replaced == null then r.replaced == None else r.replaced == Some(replaced.ToItem()))
      && (cfg.policy != M.ClearOnFull ==> Carry(victims, r.victims))
      && (cfg.policy == M.ClearOnFull ==>
          NoDup(victims) && (set v | v in victims) == if M.Over(cfg, M.Insert(cfg, before, item)) then rest else {})
    }

    /** Stores e and evicts for it. */
    method Store(e: Entry<K, V>)
      returns (replaced: Entry?<K, V>, victims: seq<Entry<K, V>>, ghost rest: set<Entry<K, V>>)
      requires Rep() && Good(cfg, St()) && M.Fits(cfg, e.ToItem())
      requires e !in mainS && e !in smallS && !e.small && e.freq == 0
      modifies this`items, this`bytes, this`head, this`tail, this`mainQ, this`mainS, this`main
      modifies this`smallHead, this`smallTail, this`smallQ, this`smallS, this`small, this`smallBytes, this`smallLen
      modifies mainS`prev, mainS`next, mainS`freq, smallS`prev, smallS`next, smallS`small, smallS`freq
      modifies e`prev, e`next, e`small, e`freq, ghosts
      ensures Rep() && Good(cfg, St())
      ensures St() == M.Set(cfg, old(St()), old(e.ToItem()), true).state
      ensures TookOut(old(St()), old(e.ToItem()), rest, replaced, victims)
      ensures rest == if replaced == null then old(mainS) else old(mainS) - {replaced}
      ensures (e in mainS || e in smallS) && mainS <= old(mainS) + old(smallS) + {e} && smallS <= old(smallS) + {e}
    {
      hide Rep;
      ghost var before, item := St(), e.ToItem();
      WriteGood(cfg, before, item);
      replaced, rest := Insert(e);
      victims := Evict(e);
    }

    /** Stores e, unless it cannot fit at all or token, the load it comes from, has
        been invalidated. */
    method Set(e: Entry<K, V>, token: Option<Token>)
      returns (status: SetStatus, replaced: Entry?<K, V>, victims: seq<Entry<K, V>>, ghost rest: set<Entry<K, V>>)
      requires Valid() && e !in mainS && e !in smallS && !e.small && e.freq == 0
      modifies this`items, this`bytes, this`head, this`tail, this`mainQ, this`mainS, this`main
      modifies this`smallHead, this`smallTail, this`smallQ, this`smallS, this`small, this`smallBytes, this`smallLen
      modifies mainS`prev, mainS`next, mainS`freq, smallS`prev, smallS`next, smallS`small, smallS`freq
      modifies e`prev, e`next, e`small, e`freq, ghosts, loads
      ensures Valid()
      ensures status == match M.Set(cfg, old(St()), old(e.ToItem()), token.None? || old(loads.IsValid(token.value)))
                        case TooLarge => TooLarge
                        case Superseded => Superseded
                        case Stored(_, _, _) => Stored
      ensures status.Stored? <==> e in mainS || e in smallS
      ensures !status.Stored? ==>
                && St() == old(St()) && replaced == null && victims == []
                && loads.owner == old(loads.owner) && loads.flags == old(loads.flags)
      ensures status.Stored? ==>
                && St() == M.Set(cfg, old(St()), old(e.ToItem()), true).state
                && TookOut(old(St()), old(e.ToItem()), rest, replaced, victims)
                && rest == (if replaced == null then old(mainS) else old(mainS) - {replaced})
                && loads.Invalidated(old(loads.owner), old(loads.flags), e.key)
      ensures mainS <= old(mainS) + old(smallS) + {e} && smallS <= old(smallS) + {e}
    {
      replaced, victims, rest := null, [], {};
      if cfg.maxBytes > 0 && e.cost > cfg.maxBytes {
        return TooLarge, null, [], {};
      }
      if token.Some? && !loads.IsValid(token.value) {
        return Superseded, null, [], {};
      }
      status := Stored;
      loads.Invalidate(e.key);
      replaced, victims, rest := Store(e);
    }

    /** Takes the entry of key out, if there is one. */
    method Take(key: K) returns (e: Entry?<K, V>)
      requires Rep()
      modifies this`items, this`bytes, this`head, this`tail, this`mainQ, this`mainS, this`main, mainS`prev, mainS`next
      modifies this`smallHead, this`smallTail, this`smallQ, this`smallS, this`small, this`smallBytes, this`smallLen
      modifies smallS`prev, smallS`next
      ensures Rep() && St() == M.Remove(old(St()), key) && Old(old(St()), key, e)
      ensures mainS <= old(mainS) && smallS <= old(smallS)
    {
      hide Rep;
      ResidentIsMapped(key);
      e := null;
      if key in items {
        e := items[key];
        Locate(e);
        Remove(e);
      }
    }

    method Delete(key: K) returns (e: Entry?<K, V>)
      requires Valid()
      modifies this`items, this`bytes, this`head, this`tail, this`mainQ, this`mainS, this`main, mainS`prev, mainS`next
      modifies this`smallHead, this`smallTail, this`smallQ, this`smallS, this`small, this`smallBytes, this`smallLen
      modifies smallS`prev, smallS`next, loads
      ensures Valid() && St() == M.Remove(old(St()), key) && Old(old(St()), key, e)
      ensures loads.Invalidated(old(loads.owner), old(loads.flags), key)
      ensures mainS <= old(mainS) && smallS <= old(smallS)
    {
      RemoveGood(cfg, St(), key);
      loads.Invalidate(key);
      e := Take(key);
    }

    /** If nothing in the map has expired, neither has anything in the lists. */
    lemma NothingDead(now: int)
      requires Rep() && forall k :: k in items ==> !items[k].Expired(now)
      ensures M.Sweep(St(), now) == St()
    {
      forall i | 0 <= i < |main| ensures !main[i].Expired(now) {
        assert mainQ[i].ToItem() == main[i] && items[mainQ[i].key] == mainQ[i];
      }
      forall i | 0 <= i < |small| ensures !small[i].Expired(now) {
        assert smallQ[i].ToItem() == small[i] && items[smallQ[i].key] == smallQ[i];
      }
      UnexpiredAll(main, now);
      UnexpiredAll(small, now);
    }

    /** Sweep's way with one key: its entry leaves if it has expired. */
    method SweepKey(key: K, now: int) returns (e: Entry?<K, V>)
      requires Rep() && key in items
      modifies this`items, this`bytes, this`head, this`tail, this`mainQ, this`mainS, this`main, mainS`prev, mainS`next
      modifies this`smallHead, this`smallTail, this`smallQ, this`smallS, this`small, this`smallBytes, this`smallLen
      modifies smallS`prev, smallS`next
      ensures Rep() && M.Sweep(St(), now) == M.Sweep(old(St()), now)
      ensures if e == null
              then items == old(items) && mainS == old(mainS) && smallS == old(smallS) && !items[key].Expired(now)
              else old(items)[key].Expired(now) && items == old(items) - {key}
                   && mainS == old(mainS) - {e} && smallS == old(smallS) - {e}
                   && (e in old(mainS) || e in old(smallS))
    {
      e := null;
      if items[key].Expired(now) {
        e := items[key];
        Locate(e);
        SweepAfterRemove(St(), key, now);
        Remove(e);
      }
    }

    /** Drops every entry that has expired by now, handing them over in no set order. */
    method Sweep(now: int) returns (swept: seq<Entry<K, V>>, ghost gone: set<Entry<K, V>>)
      requires Valid()
      modifies this`items, this`bytes, this`head, this`tail, this`mainQ, this`mainS, this`main, mainS`prev, mainS`next
      modifies this`smallHead, this`smallTail, this`smallQ, this`smallS, this`small, this`smallBytes, this`smallLen
      modifies smallS`prev, smallS`next
      ensures Valid() && St() == M.Sweep(old(St()), now)
      ensures Gone(swept, gone, mainS, smallS, old(mainS) + old(smallS))
      ensures mainS <= old(mainS) && smallS <= old(smallS)
    {
      hide Rep, M.Sweep, Good;
      SweepGood(cfg, St(), now);
      ghost var goal := M.Sweep(St(), now);
      swept, gone := [], {};
      var rest := items.Keys;
      while rest != {}
        invariant Rep() && mainS <= old(mainS) && smallS <= old(smallS)
        invariant goal == M.Sweep(St(), now) && rest <= items.Keys
        invariant forall k :: k in items && k !in rest ==> !items[k].Expired(now)
        invariant Gone(swept, gone, mainS, smallS, old(mainS) + old(smallS))
        decreases |rest|
      {
        var k :| k in rest;
        rest := rest - {k};
        swept, gone := SweepTurn(k, now, swept, gone, old(mainS) + old(smallS));
      }
      NothingDead(now);
    }

    method SweepTurn(k: K, now: int, sofar: seq<Entry<K, V>>, ghost before: set<Entry<K, V>>,
                     ghost all: set<Entry<K, V>>)
      returns (swept: seq<Entry<K, V>>, ghost gone: set<Entry<K, V>>)
      requires Rep() && k in items && Gone(sofar, before, mainS, smallS, all)
      modifies this`items, this`bytes, this`head, this`tail, this`mainQ, this`mainS, this`main, mainS`prev, mainS`next
      modifies this`smallHead, this`smallTail, this`smallQ, this`smallS, this`small, this`smallBytes, this`smallLen
      modifies smallS`prev, smallS`next
      ensures Rep() && M.Sweep(St(), now) == M.Sweep(old(St()), now) && Gone(swept, gone, mainS, smallS, all)
      ensures items == if old(items)[k].Expired(now) then old(items) - {k} else old(items)
      ensures mainS <= old(mainS) && smallS <= old(smallS)
    {
      swept, gone := sofar, before;
      var e := SweepKey(k, now);
      if e != null {
        GoneGrows(sofar, before, old(mainS), old(smallS), all, e);
        swept, gone := sofar + [e], before + {e};
      }
    }

    lemma NothingChained()
      requires NoSmall() && mainQ == [] && mainS == {} && main == [] && head == null && tail == null && bytes == 0
      ensures Chained()
    {
    }

    method Unlinked()
      modifies this`bytes, this`head, this`tail, this`mainQ, this`mainS, this`main
      modifies this`smallHead, this`smallTail, this`smallQ, this`smallS, this`small, this`smallBytes, this`smallLen
      ensures Chained() && NoSmall() && mainQ == [] && mainS == {} && main == []
    {
      hide Chained;
      mainQ, smallQ, mainS, smallS, main, small := [], [], {}, {}, [], [];
      head, tail, bytes := null, null, 0;
      smallHead, smallTail, smallBytes, smallLen := null, null, 0, 0;
      NothingChained();
    }

    method ClearLists()
      requires ghosts.Valid()
      modifies this`items, this`bytes, this`head, this`tail, this`mainQ, this`mainS, this`main
      modifies this`smallHead, this`smallTail, this`smallQ, this`smallS, this`small, this`smallBytes, this`smallLen
      ensures Rep() && main == [] && small == [] && mainS == {} && smallS == {}
    {
      hide Filed, Chained;
      items := map[];
      Unlinked();
      FiledNone<K, V>();
    }

    /** Clears the shard. The entries' links are left as they are. */
    method Clear()
      requires Valid()
      modifies this`items, this`bytes, this`head, this`tail, this`mainQ, this`mainS, this`main
      modifies this`smallHead, this`smallTail, this`smallQ, this`smallS, this`small, this`smallBytes, this`smallLen
      modifies ghosts, loads`loads, loads`flags, loads`owner
      ensures Valid() && St() == Start() && loads.owner == map[] && loads.flags.Keys == old(loads.flags.Keys)
      ensures forall t :: t in loads.flags ==> loads.flags[t] == (old(loads.flags)[t] && t !in old(loads.owner))
      ensures mainS == {} && smallS == {}
    {
      loads.InvalidateAll();
      ClearLists();
      ghosts.Clear();
    }

    // Reads

    method ReadMain(e: Entry<K, V>, ghost i: nat, now: int, who: M.Refresher) returns (refresh: bool)
      requires Chained() && NoDup(mainQ) && i < |mainQ| && mainQ[i] == e
      modifies this`main, e`freq, e`refreshAt
      ensures Chained() && i < |old(main)| && old(main)[i] == old(e.ToItem())
      ensures var item := old(main)[i];
              && main == old(main)[i := M.Claimed(if cfg.policy == M.S3FIFO then M.Bumped(item) else item, who, now)]
              && refresh == (who != M.RefreshNone && item.Claims(who, now))
    {
      assert e.ToItem() == main[i];
      refresh := e.Read(cfg.policy == M.S3FIFO, now, who);
      main := main[i := e.ToItem()];
    }

    method ReadSmall(e: Entry<K, V>, ghost i: nat, now: int, who: M.Refresher) returns (refresh: bool)
      requires Chained() && NoDup(smallQ) && i < |smallQ| && smallQ[i] == e
      modifies this`small, e`freq, e`refreshAt
      ensures Chained() && i < |old(small)| && old(small)[i] == old(e.ToItem())
      ensures var item := old(small)[i];
              && small == old(small)[i := M.Claimed(if cfg.policy == M.S3FIFO then M.Bumped(item) else item, who, now)]
              && refresh == (who != M.RefreshNone && item.Claims(who, now))
    {
      assert e.ToItem() == small[i];
      refresh := e.Read(cfg.policy == M.S3FIFO, now, who);
      small := small[i := e.ToItem()];
    }

    /** What a read that finds e unexpired does under the read lock. */
    method ReadShared(e: Entry<K, V>, now: int, who: M.Refresher) returns (refresh: bool)
      requires Rep() && e.key in items && items[e.key] == e
      modifies this`main, this`small, e`freq, e`refreshAt
      ensures Rep() && M.Resident(old(St()), e.key)
      ensures var item := M.Find(old(St()), e.key);
              var counted := if cfg.policy == M.S3FIFO then M.Bumped(item) else item;
              && St() == M.Update(old(St()), M.Claimed(counted, who, now))
              && refresh == (who != M.RefreshNone && item.Claims(who, now))
    {
      hide Filed, NoDup, Linked, Mirrors, Costs;
      Locate(e);
      if e.small {
        ghost var i := LocateSmall(e);
        refresh := ReadSmall(e, i, now, who);
      } else {
        ghost var i := LocateMain(e);
        refresh := ReadMain(e, i, now, who);
      }
    }

    method Bring(e: Entry<K, V>, ghost i: nat)
      requires Rep() && i < |mainQ| && mainQ[i] == e
      modifies this`head, this`tail, this`mainQ, this`mainS, this`main, mainS`prev, mainS`next
      ensures Rep() && mainS == old(mainS) && mainQ != [] && mainQ[0] == e && NoDup(mainQ)
      ensures main == [old(main)[i]] + M.Without(old(main), i)
    {
      FiledRotate(mainQ, mainS, smallQ, smallS, items, i);
      Touch(e, i);
    }

    method ClaimFront(e: Entry<K, V>, now: int, who: M.Refresher) returns (refresh: bool)
      requires Chained() && NoDup(mainQ) && mainQ != [] && mainQ[0] == e
      modifies this`main, e`refreshAt
      ensures Chained() && old(main) != [] && old(main)[0] == old(e.ToItem())
      ensures refresh == (who != M.RefreshNone && old(main)[0].Claims(who, now))
      ensures main == old(main)[0 := M.Claimed(old(main)[0], who, now)]
    {
      assert e.ToItem() == main[0];
      refresh := false;
      if who != M.RefreshNone {
        refresh := e.ClaimRefresh(who, now);
      }
      main := main[0 := e.ToItem()];
    }

    /** What an LRU read that finds e unexpired does: it brings e to the front and,
        unless e is negative, claims the refresh. */
    method ReadLru(e: Entry<K, V>, now: int, who: M.Refresher) returns (refresh: bool)
      requires Rep() && e in mainS
      modifies this`head, this`tail, this`mainQ, this`mainS, this`main, mainS`prev, mainS`next, e`refreshAt
      ensures Rep() && M.Resident(old(St()), e.key)
      ensures var item := M.Find(old(St()), e.key);
              && St() == old(St()).(main := [if item.negative then item else M.Claimed(item, who, now)]
                                            + M.Drop(old(main), e.key))
              && refresh == (!item.negative && who != M.RefreshNone && item.Claims(who, now))
      ensures mainS == old(mainS)
    {
      hide Linked, Mirrors, Costs, Among, Filed;
      ghost var i := LocateMain(e);
      Bring(e, i);
      refresh := false;
      if !e.negative {
        refresh := ClaimFront(e, now, who);
      }
    }

    /** The upgrade from the read lock to the write lock: e, seen expired under the
        one, leaves under the other if it is still there. Between the two the shard
        may have been changed in any way that keeps it valid. */
    method DropIfSame(key: K, e: Entry<K, V>) returns (removed: bool)
      requires Valid()
      modifies this`items, this`bytes, this`head, this`tail, this`mainQ, this`mainS, this`main, mainS`prev, mainS`next
      modifies this`smallHead, this`smallTail, this`smallQ, this`smallS, this`small, this`smallBytes, this`smallLen
      modifies smallS`prev, smallS`next
      ensures Valid() && removed == (key in old(items) && old(items)[key] == e)
      ensures St() == if removed then M.Remove(old(St()), key) else old(St())
      ensures mainS <= old(mainS) && smallS <= old(smallS)
    {
      removed := key in items && items[key] == e;
      if removed {
        RemoveGood(cfg, St(), key);
        Remove(e);
      }
    }

    /** The read of a key that is there and has not expired. */
    method GetLive(e: Entry<K, V>, now: int, who: M.Refresher) returns (answer: M.Answer<V>, refresh: bool)
      requires Valid() && e.key in items && items[e.key] == e && !e.Expired(now)
      modifies this`head, this`tail, this`mainQ, this`mainS, this`main, this`small, mainS`prev, mainS`next
      modifies e`freq, e`refreshAt
      ensures Valid()
      ensures var r := M.Get(cfg, old(St()), e.key, now, who);
              St() == r.state && answer == r.answer && !r.expired && refresh == r.refresh
      ensures mainS == old(mainS) && smallS == old(smallS)
    {
      hide Chained, Filed, Good, NoDup;
      ReadGood(cfg, St(), e.key, now, who);
      Locate(e);
      answer := if e.negative then M.Negative else M.Hit(e.value);
      if cfg.policy != M.LRU {
        refresh := ReadShared(e, now, who);
      } else {
        refresh := ReadLru(e, now, who);
      }
    }

    /** A read, with nobody else between its locks. */
    method Get(key: K, now: int, who: M.Refresher)
      returns (answer: M.Answer<V>, expired: bool, refresh: bool)
      requires Valid()
      modifies this`items, this`bytes, this`head, this`tail, this`mainQ, this`mainS, this`main, mainS`prev, mainS`next
      modifies this`smallHead, this`smallTail, this`smallQ, this`smallS, this`small, this`smallBytes, this`smallLen
      modifies smallS`prev, smallS`next, mainS`freq, mainS`refreshAt, smallS`freq, smallS`refreshAt
      ensures Valid()
      ensures M.ReadResult(St(), answer, expired, refresh) == M.Get(cfg, old(St()), key, now, who)
      ensures mainS <= old(mainS) && smallS <= old(smallS)
    {
      ResidentIsMapped(key);
      if key !in items {
        return M.Miss, false, false;
      }
      var e := items[key];
      Locate(e);
      if e.Expired(now) {
        // LRU removes under the one lock it holds; the others look again first.
        expired := DropIfSame(key, e);
        return M.Miss, expired, false;
      }
      expired := false;
      answer, refresh := GetLive(e, now, who);
    }
  }
}
