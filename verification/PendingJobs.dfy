/** The list of pending jobs: a job that is set goes to the front, and the front job is the next to run. */
module PendingJobs {
  // A job that is not pending has itself as its successor, which no job on the list can have.

  import opened Wrappers
  import opened Seqs
  import opened LinkedNodes

  // ----- the list -----

  function Set<T(==,!new)>(q: seq<T>, j: T): (r: seq<T>)
    ensures r != [] && r[0] == j && forall k :: k in r <==> k in q || k == j
    ensures Distinct(q) ==> Distinct(r)
  {
    SetDistinct(q, j);
    [j] + Without(q, j)
  }

  lemma SetDistinct<T(!new)>(q: seq<T>, j: T)
    ensures Distinct(q) ==> Distinct([j] + Without(q, j))
  {
    if Distinct(q) {
      WithoutDistinct(q, j);
    }
  }

  // ----- the list as it is linked -----

  function FrontOf<T>(q: seq<T>): Option<T> { if q == [] then None else Some(q[0]) }

  /** The front of the list once `j` is gone. */
  lemma FrontWithout<T(!new)>(nodes: map<T, Node<T>>, q: seq<T>, j: T)
    requires Linked(nodes, q) && Distinct(q) && j in q
    ensures j in nodes && FrontOf(Without(q, j)) == if nodes[j].prev.None? then nodes[j].next else FrontOf(q)
  {
    var i := IndexOf(q, j);
    WithoutAt(q, i);
    assert nodes[q[i]] == NodeAt(q, i);
  }

  lemma UnlinkKeys<T(!new)>(nodes: map<T, Node<T>>, j: T)
    requires j in nodes && (nodes[j].prev.Some? ==> nodes[j].prev.value in nodes)
    requires nodes[j].next.Some? ==> nodes[j].next.value in nodes
    ensures Unlink(nodes, j).Keys == nodes.Keys
  {
  }

  /** The node goes before the front one. */
  function Prepend<T>(nodes: map<T, Node<T>>, first: Option<T>, j: T): map<T, Node<T>>
    requires first.Some? ==> first.value in nodes
  {
    SetPrev(nodes[j := Node(None, first)], first, Some(j))
  }

  lemma PrependLinked<T(!new)>(nodes: map<T, Node<T>>, q: seq<T>, j: T)
    requires Linked(nodes, q) && Distinct(q) && j !in q
    ensures FrontOf(q).Some? ==> FrontOf(q).value in nodes
    ensures Linked(Prepend(nodes, FrontOf(q), j), [j] + q) && Untouched(nodes, Prepend(nodes, FrontOf(q), j), q, j)
    ensures Prepend(nodes, FrontOf(q), j).Keys == nodes.Keys + {j}
  {
    var r, t := [j] + q, Prepend(nodes, FrontOf(q), j);
    forall i | 0 <= i < |r|
      ensures r[i] in t && t[r[i]] == NodeAt(r, i)
    {
      if i > 0 {
        assert r[i] == q[i - 1] && nodes[q[i - 1]] == NodeAt(q, i - 1);
      }
    }
  }

  class BPendingGroup<T(==,!new)> {
    var first: Option<T>
    var nodes: map<T, Node<T>>
    ghost var jobs: seq<T>

    /** The nodes on the list are linked in order; every other job points to itself. */
    ghost predicate Valid()
      reads this
    {
      && Distinct(jobs) && first == FrontOf(jobs) && Linked(nodes, jobs)
      && (forall j :: j in jobs ==> j in nodes)
      && (forall j :: j in nodes && j !in jobs ==> nodes[j].next == Some(j))
    }

    constructor ()
      ensures Valid() && jobs == [] && nodes == map[]
    {
      first, nodes, jobs := None, map[], [];
    }

    /** The successor tells whether the job is pending. */
    lemma PendingExact(j: T)
      requires Valid() && j in nodes
      ensures nodes[j].next == Some(j) <==> j !in jobs
    {
      if j in jobs {
        var i := IndexOf(jobs, j);
        assert nodes[jobs[i]] == NodeAt(jobs, i);
      }
    }

    method InitJob(j: T)
      requires Valid() && j !in nodes
      modifies this`nodes
      ensures Valid() && j in nodes && jobs == old(jobs) && nodes.Keys == old(nodes).Keys + {j}
    {
      nodes := nodes[j := Node(None, Some(j))];
    }

    method IsSet(j: T) returns (pending: bool)
      requires Valid() && j in nodes
      ensures pending == (j in jobs)
    {
      PendingExact(j);
      return nodes[j].next != Some(j);
    }

    method HasJobs() returns (some: bool)
      requires Valid()
      ensures some == (jobs != [])
    {
      return first.Some?;
    }

    /** Takes a pending job off the list, leaving its own node as it is. */
    method ListRemove(j: T)
      requires Valid() && j in jobs
      modifies this
      ensures jobs == Without(old(jobs), j) && Linked(nodes, jobs) && Distinct(jobs)
      ensures first == FrontOf(jobs) && nodes.Keys == old(nodes).Keys
      ensures forall k :: k in nodes && k !in old(jobs) ==> nodes[k] == old(nodes)[k]
    {
      hide Unlink, Linked, Distinct;
      UnlinkLinked(nodes, jobs, j);
      UnlinkKeys(nodes, j);
      FrontWithout(nodes, jobs, j);
      WithoutDistinct(jobs, j);
      if nodes[j].prev.None? {
        first := nodes[j].next;
      }
      nodes := Unlink(nodes, j);
      jobs := Without(jobs, j);
    }

    method ListPrepend(j: T)
      requires Distinct(jobs) && Linked(nodes, jobs) && j in nodes && j !in jobs
      requires first == FrontOf(jobs) && forall k :: k in jobs ==> k in nodes
      requires forall k :: k in nodes && k !in jobs && k != j ==> nodes[k].next == Some(k)
      modifies this
      ensures Valid() && jobs == [j] + old(jobs) && nodes.Keys == old(nodes).Keys
    {
      hide Linked, Distinct;
      PrependLinked(nodes, jobs, j);
      PrependDistinct(jobs, j);
      ghost var was := nodes;
      nodes := nodes[j := Node(None, first)];
      if first.Some? {
        nodes := nodes[first.value := nodes[first.value].(prev := Some(j))];
      }
      assert nodes == Prepend(was, FrontOf(jobs), j);
      first := Some(j);
      jobs := [j] + jobs;
    }

    lemma PrependDistinct(q: seq<T>, j: T)
      requires Distinct(q) && j !in q
      ensures Distinct([j] + q)
    {
    }

    method SetJob(j: T)
      requires Valid() && j in nodes
      modifies this
      ensures Valid() && jobs == Set(old(jobs), j) && nodes.Keys == old(nodes).Keys
    {
      PendingExact(j);
      if nodes[j].next != Some(j) {
        ListRemove(j);
      }
      ListPrepend(j);
    }

    method UnsetJob(j: T)
      requires Valid() && j in nodes
      modifies this
      ensures Valid() && jobs == Without(old(jobs), j) && nodes.Keys == old(nodes).Keys
    {
      hide Linked, Distinct;
      PendingExact(j);
      if nodes[j].next != Some(j) {
        ListRemove(j);
        StayLinked(nodes, nodes[j := nodes[j].(next := Some(j))], [], j, jobs);
        nodes := nodes[j := nodes[j].(next := Some(j))];
      }
    }

    /** The front job is taken off the list before it runs, so it can be set again while it runs. */
    method ExecuteJob() returns (j: T)
      requires Valid() && jobs != []
      modifies this
      ensures Valid() && j == old(jobs)[0] && jobs == old(jobs)[1..] && j !in jobs && nodes.Keys == old(nodes).Keys
    {
      hide Linked, Distinct;
      j := first.value;
      FirstGone(jobs);
      ListRemove(j);
      StayLinked(nodes, nodes[j := nodes[j].(next := Some(j))], [], j, jobs);
      nodes := nodes[j := nodes[j].(next := Some(j))];
    }
  }
}
