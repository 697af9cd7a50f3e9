/**
The assembler as an object that changes in place: its lists, its index, its entries and its input cursor.
*/
module FragmentAssemblerObject {
  import opened Bytes
  import opened FragmentProto
  import opened FragmentAssembler
  import opened FragmentEmission
  import opened FragmentInOrder
  import opened Seqs
  import opened Tiling
  import opened Wrappers

  datatype Advanced = Advanced(a: Asm, rest: Option<seq<byte>>, out: Option<seq<byte>>)

  /** Read chunks from `b` until one completes a frame (and `rest` is still to be read) or the packet is finished. */
  function Advance(c: Config, a: Asm, b: seq<byte>): (r: Advanced)
    requires Inv(c, a)
    ensures Inv(c, r.a) && (r.out.Some? <==> r.rest.Some?)
    ensures r.rest.Some? ==> |r.rest.value| < |b|
    decreases |b|
  {
    var ch := First(b);
    if ch.None? then Advanced(Tick(c, a), None, None)
    else
      var rest := b[HEADER + |ch.value.data|..];
      var r := Process(c, a, ch.value);
      if r.out.Some? then Advanced(r.a, Some(rest), r.out) else Advance(c, r.a, rest)
  }

  /** Reading a packet frame by frame, pausing at each, comes to feeding all its chunks at once. */
  lemma {:induction false} AdvanceFeeds(c: Config, a: Asm, b: seq<byte>)
    requires Inv(c, a)
    ensures var r := Advance(c, a, b);
      var f := FeedPacket(c, a, Parse(b));
      if r.out.Some? then
        var g := FeedPacket(c, r.a, Parse(r.rest.value));
        f.a == g.a && f.outs == [r.out.value] + g.outs
      else f == Delivered(r.a, [])
    decreases |b|
  {
    var ch := First(b);
    if ch.Some? {
      var rest := b[HEADER + |ch.value.data|..];
      var r := Process(c, a, ch.value);
      assert Parse(b) == [ch.value] + Parse(rest);
      assert Parse(b)[1..] == Parse(rest);
      if r.out.None? {
        AdvanceFeeds(c, r.a, rest);
      }
    }
  }

  /** `m` is the earliest time among the frames `ks` that have not timed out, or None if there is none. */
  ghost predicate Earliest(c: Config, a: Asm, ks: seq<nat>, m: Option<nat>)
    requires forall i :: 0 <= i < |ks| ==> ks[i] < |a.entries|
  {
    && (forall i :: 0 <= i < |ks| && !TimedOut(c, a, ks[i]) ==> m.Some? && m.value <= a.entries[ks[i]].time)
    && (m.Some? ==> exists i :: 0 <= i < |ks| && !TimedOut(c, a, ks[i]) && m.value == a.entries[ks[i]].time)
  }

  lemma EarliestNext(c: Config, a: Asm, ks: seq<nat>, m: Option<nat>, k: nat)
    requires k < |a.entries| && forall i :: 0 <= i < |ks| ==> ks[i] < |a.entries|
    requires Earliest(c, a, ks, m)
    ensures var t := a.entries[k].time;
      Earliest(c, a, ks + [k], if TimedOut(c, a, k) || (m.Some? && m.value <= t) then m else Some(t))
  {
    var t := a.entries[k].time;
    var r := if TimedOut(c, a, k) || (m.Some? && m.value <= t) then m else Some(t);
    if r == m && m.Some? {
      var i :| 0 <= i < |ks| && !TimedOut(c, a, ks[i]) && m.value == a.entries[ks[i]].time;
      assert (ks + [k])[i] == ks[i];
    } else if r.Some? {
      assert (ks + [k])[|ks|] == k;
    }
  }

  lemma MinTimeUnique(a: Asm, ks: seq<nat>, m: nat, k: nat)
    requires forall i :: 0 <= i < |ks| ==> ks[i] < |a.entries| && m <= a.entries[ks[i]].time
    requires k in ks && m == a.entries[k].time
    ensures m == MinTime(a, ks)
  {
  }

  lemma EarliestOfSwept(c: Config, a: Asm, m: Option<nat>)
    requires Inv(c, a) && Earliest(c, a, a.used, m)
    ensures var b := Swept(c, a);
      && (m.Some? <==> b.used != [])
      && (m.Some? ==> m.value == MinTime(b, b.used))
  {
    var b := Swept(c, a);
    forall j | 0 <= j < |b.used|
      ensures m.Some? && m.value <= b.entries[b.used[j]].time
    {
      assert b.used[j] in b.used && b.used[j] in a.used;
    }
    assert b.used != [] ==> b.used[0] in b.used;
    if m.Some? {
      var i :| 0 <= i < |a.used| && !TimedOut(c, a, a.used[i]) && m.value == a.entries[a.used[i]].time;
      assert a.used[i] in a.used;
      MinTimeUnique(b, b.used, m.value, a.used[i]);
    }
  }

  class FragmentProtoAssembler {
    const config: Config
    var entries: seq<Entry>
    var used: seq<nat>
    var free: seq<nat>
    var tree: map<nat, nat>
    var time: nat
    var input: Option<seq<byte>>
    var inPos: nat

    ghost function State(): Asm
      reads this
    {
      Asm(entries, used, free, tree, time)
    }

    ghost predicate Valid()
      reads this
    {
      Inv(config, State()) && (input.Some? ==> inPos <= |input.value|)
    }

    /** The entries come from the allocator with whatever is in them, and all of them are free. */
    constructor (c: Config, junk: seq<Entry>)
      requires c.Valid() && |junk| == c.numFrames && forall k :: 0 <= k < |junk| ==> |junk[k].buffer| == c.outputMtu
      ensures Valid() && config == c && State() == Started(c, junk) && input.None?
    {
      config, entries := c, junk;
      used, free, tree, time := [], [], map[], 0;
      input, inPos := None, 0;
      new;
      var i := 0;
      while i < c.numFrames
        invariant 0 <= i <= c.numFrames && |free| == i && forall k :: 0 <= k < i ==> free[k] == k
        invariant config == c && entries == junk && used == [] && tree == map[] && time == 0 && input.None?
      {
        free := free + [i];
        i := i + 1;
      }
      assert free == Range(c.numFrames);
    }

    method FreeFrame(k: nat)
      requires k < |entries|
      modifies this`used, this`tree, this`free
      ensures State() == FragmentAssembler.FreeFrame(old(State()), k)
    {
      used := Without(used, k);
      tree := tree - {entries[k].id};
      free := free + [k];
    }

    method AllocateNewFrame(id: nat) returns (k: nat)
      requires if free == [] then used != [] && used[0] < |entries| else free[0] < |entries|
      modifies this`used, this`tree, this`free, this`entries
      ensures State() == Take(Room(old(State())), id) && k == Room(old(State())).free[0]
    {
      if free == [] {
        FreeFrame(used[0]);
      }
      k := free[0];
      free := free[1..];
      entries := entries[k := Entry(id, time, [], 0, -1, 0, entries[k].buffer)];
      used := used + [k];
      tree := tree[id := k];
    }

    method OverlapsAny(e: Entry, ch: Chunk) returns (overlaps: bool)
      ensures overlaps <==> exists i :: 0 <= i < |e.chunks| && Overlap(e.chunks[i], ExtentOf(ch))
    {
      for i := 0 to |e.chunks|
        invariant forall j :: 0 <= j < i ==> !Overlap(e.chunks[j], ExtentOf(ch))
      {
        if Overlap(e.chunks[i], ExtentOf(ch)) {
          return true;
        }
      }
      return false;
    }

    /** The frame's part of process_chunk: check the chunk against the frame, and store it if it is good. */
    method AddToFrame(e: Entry, ch: Chunk) returns (v: Verdict)
      requires ch.End() <= |e.buffer|
      ensures v == AddChunk(config, e, ch, time)
    {
      var chunkEnd := ch.start + |ch.data|;
      var overlaps := OverlapsAny(e, ch);
      if overlaps {
        return Rejected(e);
      }
      if ch.last {
        if e.length >= 0 || e.soFar > chunkEnd {
          return Rejected(e);
        }
      } else if e.length >= 0 && chunkEnd > e.length {
        return Rejected(e);
      }
      var f := e.(time := time, chunks := e.chunks + [Extent(ch.start, |ch.data|)], sum := e.sum + |ch.data|);
      if ch.last {
        f := f.(length := chunkEnd);
      } else if f.length < 0 && f.soFar < chunkEnd {
        f := f.(soFar := chunkEnd);
      }
      f := f.(buffer := f.buffer[..ch.start] + ch.data + f.buffer[chunkEnd..]);
      if f.length < 0 || f.sum < f.length {
        return if |f.chunks| == config.numChunks then Rejected(f) else Waiting(f);
      }
      return Complete(f);
    }

    /** Look the frame up, replacing it if it timed out, or make one. */
    method FindFrame(id: nat) returns (k: nat)
      requires Inv(config, State())
      modifies this`used, this`tree, this`free, this`entries
      ensures State() == Locate(config, old(State()), id) && k == Target(config, old(State()), id)
    {
      ghost var was := State();
      assert 0 in used || 0 in free;
      if id !in tree {
        k := AllocateNewFrame(id);
      } else {
        k := tree[id];
        assert k in used;
        if time - entries[k].time > config.numFrames {
          FreeFrame(k);
          assert free[0] < |entries|;
          k := AllocateNewFrame(id);
        }
      }
      assert State() == Locate(config, was, id);
    }

    method ProcessChunk(ch: Chunk) returns (out: Option<seq<byte>>)
      requires Inv(config, State())
      modifies this`used, this`tree, this`free, this`entries
      ensures Inv(config, State())
      ensures var r := Process(config, old(State()), ch);
        State() == r.a && out == r.out
    {
      if ch.start > config.outputMtu || |ch.data| > config.outputMtu - ch.start {
        return None;
      }
      ghost var was := State();
      JudgeKeepsInv(config, was, ch);
      CompleteSum(was, ch);
      var k := FindFrame(ch.id);
      assert entries[k] == TargetEntry(config, was, ch.id);
      assert |entries[k].chunks| < config.numChunks;
      var v := AddToFrame(entries[k], ch);
      entries := entries[k := v.e];
      assert State() == SetEntry(Locate(config, was, ch.id), k, v.e);
      out := None;
      if v.Complete? {
        assert v.e.sum == v.e.length;
        out := Some(v.e.buffer[..v.e.length]);
      }
      if !v.Waiting? {
        FreeFrame(k);
      }
    }

    lemma CompleteSum(was: Asm, ch: Chunk)
      requires Inv(config, was) && InBounds(config, ch)
      ensures var v := Judge(config, was, ch); v.Complete? ==> v.e.sum == v.e.length
    {
      if Judge(config, was, ch).Complete? {
        CompleteTiles(config, TargetEntry(config, was, ch.id), ch, was.time);
      }
    }

    // ----- the clock -----

    /** The first loop of reduce_times: free what timed out, and find the earliest time that stays. */
    method SweepTimedOut() returns (minTime: Option<nat>)
      requires forall i :: 0 <= i < |used| ==> used[i] < |entries|
      modifies this`used, this`tree, this`free
      ensures State() == Sweep(config, old(State()), old(used))
      ensures Earliest(config, old(State()), old(used), minTime)
    {
      ghost var was := State();
      var all := used;
      minTime := None;
      var i := 0;
      while i < |all|
        invariant 0 <= i <= |all|
        invariant State() == Sweep(config, was, all[..i])
        invariant Earliest(config, was, all[..i], minTime)
      {
        var k := all[i];
        EarliestNext(config, was, all[..i], minTime, k);
        assert all[..i + 1] == all[..i] + [k] && all[..i + 1][..i] == all[..i];
        if time - entries[k].time > config.numFrames {
          FreeFrame(k);
        } else if minTime.None? || entries[k].time < minTime.value {
          minTime := Some(entries[k].time);
        }
        i := i + 1;
      }
      assert all[..i] == all;
    }

    lemma NextInPrefix(q: seq<nat>, i: nat)
      requires Distinct(q) && i < |q|
      ensures q[i] in q && q[i] !in q[..i] && forall k :: k in q[..i + 1] <==> k in q[..i] || k == q[i]
    {
      assert q[..i + 1] == q[..i] + [q[i]];
    }

    /** The entries in `ks` with their times moved back by `m`. */
    ghost function MovedBack(es: seq<Entry>, ks: seq<nat>, m: nat): (r: seq<Entry>)
      requires forall k :: k in ks && k < |es| ==> m <= es[k].time
      ensures |r| == |es|
    {
      seq(|es|, k requires 0 <= k < |es| => if k in ks then es[k].(time := es[k].time - m) else es[k])
    }

    lemma MovedNext(es: seq<Entry>, q: seq<nat>, i: nat, m: nat)
      requires Distinct(q) && i < |q| && q[i] < |es| && forall k :: k in q && k < |es| ==> m <= es[k].time
      ensures var was := MovedBack(es, q[..i], m);
        was[q[i]] == es[q[i]] && MovedBack(es, q[..i + 1], m) == was[q[i] := es[q[i]].(time := es[q[i]].time - m)]
    {
      NextInPrefix(q, i);
    }

    lemma MovedNone(es: seq<Entry>, m: nat)
      ensures MovedBack(es, [], m) == es
    {
    }

    lemma MovedAll(a: Asm, m: nat)
      requires m <= a.time && forall k :: k in a.used && k < |a.entries| ==> m <= a.entries[k].time
      ensures Shifted(a, m) == a.(time := a.time - m, entries := MovedBack(a.entries, a.used, m))
    {
    }

    /** The second loop: move every remaining time back by `m`. */
    method SubtractTime(m: nat)
      requires Distinct(used) && forall i :: 0 <= i < |used| ==> used[i] < |entries|
      requires m <= time && forall k :: k in used && k < |entries| ==> m <= entries[k].time
      modifies this`entries, this`time
      ensures State() == Shifted(old(State()), m)
    {
      hide Distinct, MovedBack, Shifted;
      ghost var was := entries;
      var i := 0;
      MovedNone(was, m);
      MovedAll(State(), m);
      assert used[..0] == [];
      while i < |used|
        invariant 0 <= i <= |used| && time == old(time) && entries == MovedBack(was, used[..i], m)
      {
        var k := used[i];
        assert k in used;
        MovedNext(was, used, i, m);
        entries := entries[k := entries[k].(time := entries[k].time - m)];
        i := i + 1;
      }
      assert used[..i] == used;
      time := time - m;
    }

    method ReduceTimes()
      requires Inv(config, State())
      modifies this`used, this`tree, this`free, this`entries, this`time
      ensures State() == Reduced(config, old(State()))
    {
      ghost var was := State();
      var minTime := SweepTimedOut();
      EarliestOfSwept(config, was, minTime);
      if minTime.None? {
        time := 0;
      } else {
        SubtractTime(minTime.value);
      }
    }

    /** The end of process_input: advance the clock. */
    method AdvanceClock()
      requires Inv(config, State())
      modifies this`used, this`tree, this`free, this`entries, this`time
      ensures Inv(config, State()) && State() == Tick(config, old(State()))
    {
      ghost var was := State();
      if time == MAX_TIME {
        ReducedKeepsInv(config, was);
        ReduceTimes();
        if used != [] {
          assert time < MAX_TIME;
          time := time + 1;
        } else {
          assert time == 0;
        }
      } else {
        time := time + 1;
      }
      assert State() == Tick(config, was);
    }

    // ----- packets -----

    /** Read on in the current packet until a frame is complete or the packet is finished. */
    method ProcessInput() returns (out: Option<seq<byte>>)
      requires Valid() && input.Some?
      modifies this
      ensures Valid()
      ensures var r := Advance(config, old(State()), old(input.value[inPos..]));
        && State() == r.a && out == r.out
        && (if r.rest.Some? then input == old(input) && input.value[inPos..] == r.rest.value else input.None?)
    {
      hide First, Inv, Process;
      ghost var goal := Advance(config, State(), input.value[inPos..]);
      while inPos < |input.value|
        invariant Valid() && input == old(input)
        invariant Advance(config, State(), input.value[inPos..]) == goal
        decreases |input.value| - inPos
      {
        var b := input.value[inPos..];
        var ch := First(b);
        if ch.None? {
          break;
        }
        out := ProcessChunk(ch.value);
        inPos := inPos + HEADER + |ch.value.data|;
        assert input.value[inPos..] == b[HEADER + |ch.value.data|..];
        if out.Some? {
          return;
        }
      }
      AdvanceClock();
      input := None;
      out := None;
    }

    method InputHandlerSend(data: seq<byte>) returns (out: Option<seq<byte>>)
      requires Valid() && input.None?
      modifies this
      ensures Valid()
      ensures var r := Advance(config, old(State()), data);
        && State() == r.a && out == r.out
        && (if r.rest.Some? then input == Some(data) && data[inPos..] == r.rest.value else input.None?)
    {
      input := Some(data);
      inPos := 0;
      assert data[0..] == data;
      out := ProcessInput();
    }

    /** The output has taken the last frame; go on with the packet. */
    method OutputHandlerDone() returns (out: Option<seq<byte>>)
      requires Valid() && input.Some?
      modifies this
      ensures Valid()
      ensures var r := Advance(config, old(State()), old(input.value[inPos..]));
        && State() == r.a && out == r.out
        && (if r.rest.Some? then input == old(input) && input.value[inPos..] == r.rest.value else input.None?)
    {
      out := ProcessInput();
    }
  }
}
