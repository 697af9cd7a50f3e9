/** A peer's fixed pool of entries, split into free ones and used ones from the least to the most recently seen. */
module EntryPool {
  import opened Seqs

  type Slot = nat

  datatype Pool = Pool(free: seq<Slot>, used: seq<Slot>)

  /** Free and used entries together are the whole pool of `max` entries. */
  ghost predicate Pooled(o: Pool, max: nat) {
    && |o.free| + |o.used| == max && Distinct(o.free) && Distinct(o.used)
    && (forall k :: k in o.free ==> k < max && k !in o.used)
    && (forall k :: k in o.used ==> k < max)
  }

  function Fresh(max: nat): (o: Pool)
    ensures Pooled(o, max)
  {
    Pool(Range(max), [])
  }

  /** The entry becomes the most recent. */
  function Touch(o: Pool, k: Slot): Pool {
    o.(used := Without(o.used, k) + [k])
  }

  function Release(o: Pool, k: Slot): Pool {
    Pool(o.free + [k], Without(o.used, k))
  }

  /** The entry that is taken next: the first free one, or else the least recently seen one. */
  function Taken(o: Pool): Slot
    requires o.free != [] || o.used != []
  {
    if o.free != [] then o.free[0] else o.used[0]
  }

  /** The used entries that stay as they are. */
  function Kept(o: Pool): seq<Slot>
    requires o.free != [] || o.used != []
  {
    if o.free != [] then o.used else o.used[1..]
  }

  function Take(o: Pool): Pool
    requires o.free != [] || o.used != []
  {
    Pool(if o.free != [] then o.free[1..] else [], Kept(o) + [Taken(o)])
  }

  lemma WithoutSize<T(!new)>(q: seq<T>, x: T)
    requires Distinct(q) && x in q
    ensures |Without(q, x)| == |q| - 1
  {
    if q[0] == x {
      assert x !in q[1..];
    } else {
      WithoutSize(q[1..], x);
    }
  }

  lemma TouchPooled(o: Pool, k: Slot, max: nat)
    requires Pooled(o, max) && k in o.used
    ensures Pooled(Touch(o, k), max) && forall j :: j in Touch(o, k).used <==> j in o.used
  {
    WithoutDistinct(o.used, k);
    WithoutSize(o.used, k);
  }

  lemma ReleasePooled(o: Pool, k: Slot, max: nat)
    requires Pooled(o, max) && k in o.used
    ensures Pooled(Release(o, k), max)
  {
    WithoutDistinct(o.used, k);
    WithoutSize(o.used, k);
  }

  lemma TakePooled(o: Pool, max: nat)
    requires Pooled(o, max) && max > 0
    ensures o.free != [] || o.used != []
    ensures Pooled(Take(o), max) && Taken(o) !in Kept(o) && (Taken(o) in o.used <==> o.free == [])
    ensures forall k :: k in Take(o).used <==> k in o.used || k == Taken(o)
    ensures forall k :: k in Kept(o) <==> k in o.used && k != Taken(o)
  {
    var r := Take(o);
    if o.free != [] {
      assert o.free[0] in o.free && o.free[0] !in o.free[1..] && forall k :: k in r.free ==> k in o.free;
    } else {
      assert o.used[0] in o.used && o.used[0] !in o.used[1..];
      assert forall k :: k in o.used <==> k == o.used[0] || k in o.used[1..];
    }
    assert Distinct(r.used);
    assert forall k :: k in r.used <==> k in Kept(o) || k == Taken(o);
  }

  // ----- the list of keys it stands for -----

  /** The keys of the listed entries, in the same order. */
  function Keys<K>(q: seq<Slot>, key: map<Slot, K>): (s: seq<K>)
    requires forall k :: k in q ==> k in key
    ensures |s| == |q| && forall i :: 0 <= i < |q| ==> s[i] == key[q[i]]
  {
    if q == [] then [] else [key[q[0]]] + Keys(q[1..], key)
  }

  /** A list of at most `max` keys in which `x` has just been seen: only the oldest may have to go for it. */
  function Refreshed<K(==,!new)>(s: seq<K>, x: K, max: nat): seq<K> {
    if x in s then Without(s, x) + [x]
    else if |s| < max || s == [] then s + [x]
    else s[1..] + [x]
  }

  lemma {:induction false} KeysWithout<K(!new)>(q: seq<Slot>, key: map<Slot, K>, k: Slot)
    requires (forall j :: j in q ==> j in key) && k in key
    requires forall j :: j in q && key[j] == key[k] ==> j == k
    ensures Keys(Without(q, k), key) == Without(Keys(q, key), key[k])
  {
    if q != [] {
      KeysWithout(q[1..], key, k);
      assert Keys(q, key)[1..] == Keys(q[1..], key);
    }
  }

  lemma KeysHold<K>(q: seq<Slot>, key: map<Slot, K>, x: K)
    requires forall j :: j in q ==> j in key
    ensures x in Keys(q, key) <==> exists k :: k in q && key[k] == x
  {
    if x in Keys(q, key) {
      var i :| 0 <= i < |q| && Keys(q, key)[i] == x;
      assert q[i] in q;
    }
    if k :| k in q && key[k] == x {
      var i :| 0 <= i < |q| && q[i] == k;
      assert Keys(q, key)[i] == x;
    }
  }

  /** Touching the entry of a key and taking an entry for a new key both refresh the list of keys. */
  lemma TouchRefreshes<K(!new)>(o: Pool, key: map<Slot, K>, k: Slot, max: nat)
    requires Pooled(o, max) && k in o.used && forall j :: j in o.used ==> j in key
    requires forall j :: j in o.used && key[j] == key[k] ==> j == k
    ensures forall j :: j in Touch(o, k).used ==> j in key
    ensures Keys(Touch(o, k).used, key) == Refreshed(Keys(o.used, key), key[k], max)
  {
    KeysHold(o.used, key, key[k]);
    KeysWithout(o.used, key, k);
  }

  lemma TakeRefreshes<K(!new)>(o: Pool, key: map<Slot, K>, x: K, max: nat)
    requires Pooled(o, max) && max > 0 && (o.free != [] || o.used != []) && forall j :: j in o.used ==> j in key
    requires x !in Keys(o.used, key)
    ensures forall j :: j in Take(o).used ==> j in key[Taken(o) := x]
    ensures Keys(Take(o).used, key[Taken(o) := x]) == Refreshed(Keys(o.used, key), x, max)
  {
    hide Keys, Pooled;
    TakePooled(o, max);
    assert Keys(Take(o).used, key[Taken(o) := x]) == Keys(Kept(o), key) + [x];
    if o.free == [] {
      assert Keys(o.used[1..], key) == Keys(o.used, key)[1..];
    }
  }

  lemma {:induction false} KeysSame<K>(q: seq<Slot>, a: map<Slot, K>, b: map<Slot, K>)
    requires forall k :: k in q ==> k in a && k in b && a[k] == b[k]
    ensures Keys(q, a) == Keys(q, b)
  {
    if q != [] {
      assert forall k :: k in q[1..] ==> k in q;
      KeysSame(q[1..], a, b);
    }
  }
}
