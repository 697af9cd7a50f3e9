/** The frames of the splitter over a network that reorders: what the assembler's size must be for one to be rebuilt. */
module FragmentOutOfOrder {
  import opened Bytes
  import opened FragmentProto
  import opened FragmentAssembler
  import opened FragmentEmission
  import opened FragmentAnyOrder
  import opened FragmentInOrder
  import opened LinkedNodes
  import opened Seqs
  import opened Tiling
  import opened Wrappers
  import D = FragmentDisassembler
  import R = FragmentRoundTrip

  // ----- the splitter's chunks are a split of the frame -----

  /** `done` are the consecutive pieces of what has been heard of a frame. */
  ghost predicate Part(done: seq<Chunk>, g: Glue) {
    && (if done == [] then g.cur == [] else done[0].start == 0 && done[|done| - 1].End() == |g.cur|)
    && (forall i :: 0 <= i < |done| - 1 ==> done[i].End() == done[i + 1].start)
    && (forall i :: 0 <= i < |done| ==>
          && done[i].id == g.id && done[i].End() <= |g.cur| && done[i].data == g.cur[done[i].start..done[i].End()]
          && !done[i].last && done[i].data != [])
  }

  lemma PartData(done: seq<Chunk>, g: Glue, ch: Chunk, i: nat)
    requires Part(done, g) && ch.id == g.id && ch.start == |g.cur| && i <= |done|
    ensures var x, cur := (done + [ch])[i], g.cur + ch.data;
      x.id == g.id && x.End() <= |cur| && x.data == cur[x.start..x.End()]
  {
    if i < |done| {
      var x := done[i];
      assert (done + [ch])[i] == x && (g.cur + ch.data)[x.start..x.End()] == g.cur[x.start..x.End()];
    }
  }

  lemma PartNext(done: seq<Chunk>, g: Glue, ch: Chunk)
    requires Part(done, g) && ch.id == g.id && ch.start == |g.cur| && !ch.last && ch.data != []
    ensures Part(done + [ch], Glue(g.id, g.cur + ch.data, g.count + 1))
  {
    var all, cur := done + [ch], g.cur + ch.data;
    forall i | 0 <= i < |all|
      ensures all[i].id == g.id && all[i].End() <= |cur| && all[i].data == cur[all[i].start..all[i].End()]
    {
      PartData(done, g, ch, i);
    }
  }

  lemma PartEnds(done: seq<Chunk>, g: Glue, ch: Chunk)
    requires Part(done, g) && ch.id == g.id && ch.start == |g.cur| && ch.last && (ch.data != [] || done == [])
    ensures IsSplit(done + [ch], g.id, g.cur + ch.data)
  {
    var all, cur := done + [ch], g.cur + ch.data;
    forall i | 0 <= i < |all|
      ensures all[i].id == g.id && all[i].End() <= |cur| && all[i].data == cur[all[i].start..all[i].End()]
    {
      PartData(done, g, ch, i);
    }
  }

  /** One frame of a stream: it begins at 0, and its last chunk is the only one flagged. */
  predicate OneFrameOf(cs: seq<Chunk>) {
    && cs != [] && cs[|cs| - 1].last
    && (forall i :: 0 <= i < |cs| - 1 ==> !cs[i].last)
    && (forall i :: 0 <= i < |cs| ==> (cs[i].start == 0 <==> i == 0))
  }

  lemma {:induction false} RestSplit(g: Glue, done: seq<Chunk>, cs: seq<Chunk>)
    requires Part(done, g) && InOrder(g, cs) && OneFrameOf(done + cs) && cs != []
    ensures |GlueOuts(g, cs)| == 1 && IsSplit(done + cs, g.id, GlueOuts(g, cs)[0])
    decreases |cs|
  {
    hide IsSplit;
    var ch := cs[0];
    assert (done + cs)[|done|] == ch;
    assert Restart(g, ch).cur == g.cur && (ch.start == 0 <==> done == []);
    assert Part(done, Restart(g, ch));
    if |cs| == 1 {
      assert cs == [ch] && cs[1..] == [];
      PartEnds(done, Restart(g, ch), ch);
    } else {
      assert !ch.last;
      PartNext(done, Restart(g, ch), ch);
      assert done + cs == (done + [ch]) + cs[1..];
      RestSplit(GlueNext(g, ch), done + [ch], cs[1..]);
    }
  }

  lemma FrameSplit(g: Glue, cs: seq<Chunk>)
    requires InOrder(g, cs) && OneFrameOf(cs)
    ensures |GlueOuts(g, cs)| == 1 && IsSplit(cs, g.id, GlueOuts(g, cs)[0])
  {
    assert [] + cs == cs;
    var h := Restart(g, cs[0]);
    assert InOrder(h, cs) && GlueOuts(h, cs) == GlueOuts(g, cs);
    RestSplit(h, [], cs);
  }

  /** How many frames end in the stream. */
  function Ended(cs: seq<Chunk>): nat {
    if cs == [] then 0 else Ended(cs[..|cs| - 1]) + if cs[|cs| - 1].last then 1 else 0
  }

  lemma {:induction false} EndedOuts(g: Glue, cs: seq<Chunk>)
    ensures |GlueOuts(g, cs)| == Ended(cs)
  {
    hide GlueOut;
    if cs != [] {
      var rest, ch := cs[..|cs| - 1], cs[|cs| - 1];
      assert cs == rest + [ch];
      EndedOuts(g, rest);
      GlueAppend(g, rest, [ch]);
      R.GlueOne(GlueRun(g, rest), ch);
      OutCount(GlueRun(g, rest), ch);
    }
  }

  lemma OutCount(g: Glue, ch: Chunk)
    ensures |GlueOut(g, ch)| == if ch.last then 1 else 0
  {
  }

  /** What the splitter writes for a frame, from its beginning to its end, is a split of the frame kept as the n-th to end. */
  lemma KeptFrameSplit(p: D.Params, es: seq<D.Event>, i: nat, j: nat)
    requires p.Valid() && D.Inv(p, R.IDLE) && R.Legal(p, R.IDLE, es) && i < j <= |R.Stream(p, R.IDLE, es)|
    requires OneFrameOf(R.Stream(p, R.IDLE, es)[i..j])
    ensures var w := R.Stream(p, R.IDLE, es);
      var n := Ended(w[..i]);
      n < |R.Kept(es)| && IsSplit(w[i..j], w[i].id, R.Kept(es)[n])
  {
    hide R.Legal, D.Inv, R.Stream, R.Final, InOrder, GlueOuts, GlueRun, R.KeptFrom, IsSplit, OneFrameOf, Ended;
    R.IdleOk(p);
    R.StreamInOrder(p, R.IDLE, es, R.SILENT, []);
    var w := R.Stream(p, R.IDLE, es);
    var a, b, c := w[..i], w[i..j], w[j..];
    assert w == a + (b + c) && b[0] == w[i];
    GlueAppend(R.SILENT, a, b + c);
    var g := GlueRun(R.SILENT, a);
    GlueAppend(g, b, c);
    FrameSplit(g, b);
    FirstId(g, b);
    EndedOuts(R.SILENT, a);
    var n, outs := Ended(a), GlueOuts(R.SILENT, w);
    assert outs == GlueOuts(R.SILENT, a) + (GlueOuts(g, b) + GlueOuts(GlueRun(g, b), c));
    assert [] + R.Opt(R.IDLE.input) == [] && R.Kept(es) == [] + outs + R.Opt(R.Final(p, R.IDLE, es).input);
    assert R.Kept(es)[n] == GlueOuts(g, b)[0];
  }

  /** A frame that began at `b` goes on up to `k`. */
  predicate Begun(w: seq<Chunk>, b: nat, k: nat) {
    && b < k <= |w| && w[b].start == 0
    && (forall l :: b <= l < k ==> !w[l].last) && (forall l :: b < l < k ==> w[l].start > 0)
  }

  lemma EndedNext(w: seq<Chunk>, k: nat)
    requires k < |w|
    ensures Ended(w[..k + 1]) == Ended(w[..k]) + if w[k].last then 1 else 0
  {
    assert w[..k + 1][..k] == w[..k];
  }

  lemma FoundFrame(w: seq<Chunk>, b: nat, k: nat)
    requires k < |w| && w[k].last && (if w[k].start == 0 then b == k else Begun(w, b, k))
    ensures OneFrameOf(w[b..k + 1])
  {
    var cs := w[b..k + 1];
    assert forall i :: 0 <= i < |cs| ==> cs[i] == w[b + i];
  }

  lemma {:induction false} FindFrame(g: Glue, w: seq<Chunk>, k: nat, b: nat, n: nat) returns (i: nat, j: nat)
    requires k <= |w| && InOrder(g, w[k..]) && Ended(w[..k]) <= n < Ended(w)
    requires g.cur == [] || (Begun(w, b, k) && Ended(w[..b]) == Ended(w[..k]))
    ensures i < j <= |w| && OneFrameOf(w[i..j]) && Ended(w[..i]) == n
    decreases |w| - k
  {
    hide OneFrameOf, Ended;
    assert w[..|w|] == w;
    var ch := w[k];
    assert w[k..][0] == ch && w[k..][1..] == w[k + 1..];
    EndedNext(w, k);
    var from := if ch.start == 0 then k else b;
    if ch.last && Ended(w[..k]) == n {
      i, j := from, k + 1;
      FoundFrame(w, from, k);
    } else {
      i, j := FindFrame(GlueNext(g, ch), w, k + 1, from, n);
    }
  }

  /** Every kept frame whose end was written has its stretch of the stream. */
  lemma KeptFrameWritten(p: D.Params, es: seq<D.Event>, n: nat) returns (i: nat, j: nat)
    requires p.Valid() && D.Inv(p, R.IDLE) && R.Legal(p, R.IDLE, es) && n < Ended(R.Stream(p, R.IDLE, es))
    ensures var w := R.Stream(p, R.IDLE, es);
      && i < j <= |w| && OneFrameOf(w[i..j]) && Ended(w[..i]) == n
      && n < |R.Kept(es)| && IsSplit(w[i..j], w[i].id, R.Kept(es)[n])
  {
    hide R.Legal, D.Inv, R.Stream, R.Final, InOrder, GlueOuts, GlueRun, R.KeptFrom, IsSplit, OneFrameOf;
    R.IdleOk(p);
    R.StreamInOrder(p, R.IDLE, es, R.SILENT, []);
    var w := R.Stream(p, R.IDLE, es);
    assert w[0..] == w && w[..0] == [];
    i, j := FindFrame(R.SILENT, w, 0, 0, n);
    KeptFrameSplit(p, es, i, j);
  }

  /** All kept frames but one that is still being written have ended. */
  lemma KeptEnded(p: D.Params, es: seq<D.Event>)
    requires p.Valid() && D.Inv(p, R.IDLE) && R.Legal(p, R.IDLE, es)
    ensures Ended(R.Stream(p, R.IDLE, es)) + (if R.Final(p, R.IDLE, es).input.Some? then 1 else 0) == |R.Kept(es)|
  {
    hide R.Legal, D.Inv, R.Stream, R.Final, InOrder, GlueOuts, GlueRun, R.KeptFrom, Ended;
    R.IdleOk(p);
    R.StreamInOrder(p, R.IDLE, es, R.SILENT, []);
    EndedOuts(R.SILENT, R.Stream(p, R.IDLE, es));
    assert [] + R.Opt(R.IDLE.input) == [];
  }

  lemma FirstId(g: Glue, cs: seq<Chunk>)
    requires InOrder(g, cs) && cs != []
    ensures cs[0].id == g.id
  {
  }

  // ----- how long an entry stays -----

  /** The entries used after `k` was are of frames in `ids`. */
  ghost predicate NewerIn(a: Asm, k: nat, ids: set<nat>) {
    k in a.used && forall i :: IndexOf(a.used, k) < i < |a.used| ==> a.used[i] < |a.entries| && a.entries[a.used[i]].id in ids
  }

  lemma IndexIs(q: seq<nat>, i: nat)
    requires Distinct(q) && i < |q|
    ensures IndexOf(q, q[i]) == i
  {
  }

  lemma NewerWithout(a: Asm, b: Asm, j: nat, k: nat, ids: set<nat>)
    requires Distinct(a.used) && j in a.used && j != k && NewerIn(a, k, ids) && b.used == Without(a.used, j) && b.entries == a.entries
    ensures NewerIn(b, k, ids)
  {
    hide Without, IndexOf;
    var n, i := IndexOf(a.used, j), IndexOf(a.used, k);
    WithoutShape(a.used, j);
    WithoutDistinct(a.used, j);
    IndexIs(b.used, if i < n then i else i - 1);
  }

  lemma NewerTake(a: Asm, k: nat, x: nat, e: Entry, ids: set<nat>)
    requires NewerIn(a, k, ids) && Distinct(a.used + [x]) && x < |a.entries|
    ensures NewerIn(a.(used := a.used + [x], entries := a.entries[x := e]), k, ids + {e.id})
  {
    hide IndexOf;
    var i, q := IndexOf(a.used, k), a.used + [x];
    assert q[i] == k;
    IndexIs(q, i);
    forall l | i < l < |a.used|
      ensures a.used[l] != x
    {
      assert q[l] != q[|a.used|];
    }
  }

  ghost function IdsOf(a: Asm, q: seq<nat>): set<nat>
    requires forall i :: 0 <= i < |q| ==> q[i] < |a.entries|
  {
    if q == [] then {} else {a.entries[q[0]].id} + IdsOf(a, q[1..])
  }

  /** Used entries are of different frames. */
  lemma {:induction false} IdsCount(c: Config, a: Asm, q: seq<nat>)
    requires Inv(c, a) && Distinct(q) && forall i :: 0 <= i < |q| ==> q[i] in a.used && q[i] < |a.entries|
    ensures |IdsOf(a, q)| == |q| && forall id :: id in IdsOf(a, q) ==> id in a.tree && a.tree[id] in q
  {
    hide PoolOk, Open;
    if q != [] {
      IdsCount(c, a, q[1..]);
      assert q[0] !in q[1..];
      assert a.tree[a.entries[q[0]].id] == q[0];
    }
  }

  lemma {:induction false} IdsIn(a: Asm, q: seq<nat>, ids: set<nat>)
    requires forall i :: 0 <= i < |q| ==> q[i] < |a.entries| && a.entries[q[i]].id in ids
    ensures IdsOf(a, q) <= ids
  {
    if q != [] {
      IdsIn(a, q[1..], ids);
    }
  }

  /** Without a free entry, every entry is used. */
  lemma FullPool(c: Config, a: Asm)
    requires PoolOk(c, a) && a.free == []
    ensures |a.used| >= c.numFrames
  {
    DistinctSize(a.used);
    forall k | k in Interval(0, c.numFrames)
      ensures k in Elements(a.used)
    {
      assert k in a.used || k in a.free;
    }
    SubsetSize(Interval(0, c.numFrames), Elements(a.used));
  }

  /** In a full pool the oldest entry is older than entries of as many other frames as fit beside it. */
  lemma OldestOfFull(c: Config, a: Asm, ids: set<nat>, other: nat)
    requires Inv(c, a) && a.free == [] && other !in a.tree && a.used != [] && NewerIn(a, a.used[0], ids)
    ensures |ids + {other}| >= c.numFrames
  {
    hide Open, IndexOk, NewerIn, IdsOf, PoolOk;
    var q := a.used[1..];
    TailUsed(c, a, ids);
    FullPool(c, a);
    IdsCount(c, a, q);
    IdsIn(a, q, ids);
    var all := IdsOf(a, q) + {other};
    assert other !in IdsOf(a, q) && |all| == |q| + 1;
    SubsetSize(all, ids + {other});
  }

  lemma TailUsed(c: Config, a: Asm, ids: set<nat>)
    requires PoolOk(c, a) && a.used != [] && NewerIn(a, a.used[0], ids)
    ensures var q := a.used[1..];
      Distinct(q) && forall i :: 0 <= i < |q| ==> q[i] in a.used && q[i] < |a.entries| && a.entries[q[i]].id in ids
  {
    hide IndexOf;
    IndexIs(a.used, 0);
    assert forall i :: 0 <= i < |a.used[1..]| ==> a.used[1..][i] == a.used[i + 1];
  }

  /** The frame has an entry, those used since are of frames in `ids`, and its last chunk came at most `gap` packets ago. */
  ghost predicate Standing(c: Config, a: Asm, id: nat, ids: set<nat>, gap: nat)
    requires Inv(c, a)
  {
    id in a.tree && a.time - a.entries[a.tree[id]].time <= gap && NewerIn(a, a.tree[id], ids)
  }

  lemma StandingFree(c: Config, a: Asm, id: nat, ids: set<nat>, gap: nat, k: nat)
    requires Inv(c, a) && Standing(c, a, id, ids, gap) && k in a.used && k != a.tree[id]
    ensures Inv(c, FreeFrame(a, k)) && Standing(c, FreeFrame(a, k), id, ids, gap)
  {
    hide Open, NewerIn;
    FreeOneKeepsInv(c, a, k);
    NewerWithout(a, FreeFrame(a, k), k, a.tree[id], ids);
  }

  lemma StandingTake(c: Config, a: Asm, id: nat, ids: set<nat>, gap: nat, other: nat)
    requires Inv(c, a) && Standing(c, a, id, ids, gap) && a.free != [] && other !in a.tree && other != id
    ensures Inv(c, Take(a, other)) && Standing(c, Take(a, other), id, ids + {other}, gap)
  {
    hide Open, NewerIn;
    TakeKeepsInv(c, a, other);
    assert Distinct(a.used + [a.free[0]]);
    NewerTake(a, a.tree[id], a.free[0], Take(a, other).entries[a.free[0]], ids);
    NewerSame(a.(used := Take(a, other).used, entries := Take(a, other).entries), Take(a, other), a.tree[id], ids + {other});
  }

  lemma NewerSame(a: Asm, b: Asm, k: nat, ids: set<nat>)
    requires NewerIn(a, k, ids) && b.used == a.used && |b.entries| == |a.entries|
    requires forall j :: j in a.used && j < |a.entries| ==> b.entries[j].id == a.entries[j].id
    ensures NewerIn(b, k, ids)
  {
    hide IndexOf;
  }

  lemma NewerMore(a: Asm, k: nat, ids: set<nat>, more: set<nat>)
    requires NewerIn(a, k, ids) && ids <= more
    ensures NewerIn(a, k, more)
  {
    hide IndexOf;
  }

  /** Finding an entry for another frame evicts this one only if entries of as many other frames have been used since as fit. */
  lemma StandingLocate(c: Config, a: Asm, id: nat, ids: set<nat>, gap: nat, other: nat)
    requires Inv(c, a) && Standing(c, a, id, ids, gap) && other != id && |ids + {other}| < c.numFrames
    ensures Inv(c, Locate(c, a, other)) && Standing(c, Locate(c, a, other), id, ids + {other}, gap)
  {
    hide Open, Take, FreeFrame, NewerIn;
    FreeKeepsInv(c, a);
    LocateKeepsInv(c, a, other);
    if other !in a.tree {
      if a.free == [] {
        if a.used[0] == a.tree[id] {
          OldestOfFull(c, a, ids, other);
          assert false;
        }
        StandingFree(c, a, id, ids, gap, a.used[0]);
        FreedTree(c, a, a.used[0], other);
      }
      StandingTake(c, Room(a), id, ids, gap, other);
    } else if TimedOut(c, a, a.tree[other]) {
      StandingFree(c, a, id, ids, gap, a.tree[other]);
      FreedTree(c, a, a.tree[other], other);
      StandingTake(c, FreeFrame(a, a.tree[other]), id, ids, gap, other);
    } else {
      NewerMore(a, a.tree[id], ids, ids + {other});
    }
  }

  lemma FreedTree(c: Config, a: Asm, k: nat, id: nat)
    requires Inv(c, a) && k in a.used && (id in a.tree ==> a.tree[id] == k)
    ensures id !in FreeFrame(a, k).tree && FreeFrame(a, k).free != []
  {
  }

  lemma StandingSet(c: Config, a: Asm, id: nat, ids: set<nat>, gap: nat, k: nat, e: Entry)
    requires Inv(c, a) && Standing(c, a, id, ids, gap) && k < |a.entries| && k != a.tree[id] && e.id == a.entries[k].id
    ensures Inv(c, SetEntry(a, k, e)) ==> Standing(c, SetEntry(a, k, e), id, ids, gap)
  {
    hide Open, NewerIn;
    NewerSame(a, SetEntry(a, k, e), a.tree[id], ids);
  }

  /** What is done with the entry of another frame once that is found. */
  lemma StandingJudged(c: Config, b: Asm, id: nat, ids: set<nat>, gap: nat, k: nat, e: Entry)
    requires Inv(c, b) && Standing(c, b, id, ids, gap) && k in b.used && k < |b.entries| && b.entries[k].id != id
    requires e.id == b.entries[k].id && |e.buffer| == c.outputMtu
    ensures Inv(c, SetEntry(b, k, e)) ==> Standing(c, SetEntry(b, k, e), id, ids, gap)
    ensures Inv(c, FreeFrame(SetEntry(b, k, e), k)) && Standing(c, FreeFrame(SetEntry(b, k, e), k), id, ids, gap)
  {
    hide Open, NewerIn, PoolOk;
    StandingSet(c, b, id, ids, gap, k, e);
    StandingFree(c, b, id, ids, gap, k);
    TreeKept(c, b, id, k);
    SetFreed(c, b, k, e);
    StandingSet(c, FreeFrame(b, k), id, ids, gap, k, e);
  }

  lemma SetFreed(c: Config, b: Asm, k: nat, e: Entry)
    requires Inv(c, b) && k in b.used && e.id == b.entries[k].id && |e.buffer| == c.outputMtu
    ensures FreeFrame(SetEntry(b, k, e), k) == SetEntry(FreeFrame(b, k), k, e) && Inv(c, FreeFrame(SetEntry(b, k, e), k))
  {
    hide Open;
    FreeOneKeepsInv(c, b, k);
    SetUnused(c, FreeFrame(b, k), k, e);
  }

  lemma StandingOther(c: Config, a: Asm, id: nat, ids: set<nat>, gap: nat, ch: Chunk)
    requires Inv(c, a) && Standing(c, a, id, ids, gap) && ch.id != id && |ids + {ch.id}| < c.numFrames
    ensures Standing(c, Process(c, a, ch).a, id, ids + {ch.id}, gap)
  {
    hide Open, Locate, AddChunk, NewerIn, PoolOk, IndexOk, FreeFrame, SetEntry;
    if InBounds(c, ch) {
      StandingLocate(c, a, id, ids, gap, ch.id);
      var b, k, v := Locate(c, a, ch.id), Target(c, a, ch.id), Judge(c, a, ch);
      JudgeKeepsInv(c, a, ch);
      AddChunkOpen(c, TargetEntry(c, a, ch.id), ch, a.time);
      StandingJudged(c, b, id, ids + {ch.id}, gap, k, v.e);
    } else {
      NewerMore(a, a.tree[id], ids, ids + {ch.id});
    }
  }

  lemma {:induction false} StandingSweep(c: Config, a: Asm, id: nat, ids: set<nat>, gap: nat, ks: seq<nat>)
    requires Inv(c, a) && Standing(c, a, id, ids, gap) && gap <= c.numFrames && AreUsed(a, ks)
    requires forall i :: 0 <= i < |ks| ==> ks[i] < |a.entries|
    ensures Inv(c, Sweep(c, a, ks)) && Standing(c, Sweep(c, a, ks), id, ids, gap) && Sweep(c, a, ks).tree[id] == a.tree[id]
  {
    hide Open, PoolOk, IndexOk, NewerIn;
    SweepKeepsInv(c, a, ks);
    if ks != [] {
      var rest, k := ks[..|ks| - 1], ks[|ks| - 1];
      assert forall i :: 0 <= i < |rest| ==> rest[i] == ks[i];
      assert AreUsed(a, rest) && k !in rest;
      SweepKeepsInv(c, a, rest);
      StandingSweep(c, a, id, ids, gap, rest);
      if TimedOut(c, a, k) {
        StandingFree(c, Sweep(c, a, rest), id, ids, gap, k);
        TreeKept(c, Sweep(c, a, rest), id, k);
      }
    }
  }

  lemma TreeKept(c: Config, a: Asm, id: nat, k: nat)
    requires Inv(c, a) && id in a.tree && k in a.used && k != a.tree[id]
    ensures id in FreeFrame(a, k).tree && FreeFrame(a, k).tree[id] == a.tree[id]
  {
  }

  lemma StandingTick(c: Config, a: Asm, id: nat, ids: set<nat>, gap: nat)
    requires Inv(c, a) && Standing(c, a, id, ids, gap) && gap <= c.numFrames
    ensures Standing(c, Tick(c, a), id, ids, gap + 1)
  {
    hide Open, PoolOk, NewerIn, Sweep;
    TickAges(c, a);
    PoolOf(c, a);
    if a.time == MAX_TIME {
      PrefixUsed(c, a);
      StandingSweep(c, a, id, ids, gap, a.used);
      var b := Swept(c, a);
      PoolOf(c, b);
      ReducedKeepsInv(c, a);
      NewerSame(b, Tick(c, a), b.tree[id], ids);
    } else {
      NewerSame(a, Tick(c, a), a.tree[id], ids);
    }
  }

  /** A chunk of the frame itself leaves its entry, if that waits for more, where it was, or last. */
  lemma StandingMine(c: Config, a: Asm, ch: Chunk, ids: set<nat>, gap: nat)
    requires Inv(c, a) && (if HasEntry(c, a, ch.id) then Standing(c, a, ch.id, ids, gap) else ids == {})
    requires InBounds(c, ch) && Judge(c, a, ch).Waiting?
    ensures Standing(c, Process(c, a, ch).a, ch.id, ids, 0)
  {
    hide Open, NewerIn, AddChunk;
    ProcessLeaves(c, a, ch);
    WaitingNow(c, TargetEntry(c, a, ch.id), ch, a.time);
    if HasEntry(c, a, ch.id) {
      LiveTarget(c, a, ch.id);
    } else {
      NewestAfter(c, a, ch.id);
    }
    NewerSame(Locate(c, a, ch.id), Process(c, a, ch).a, Target(c, a, ch.id), ids);
  }

  lemma WaitingNow(c: Config, e: Entry, ch: Chunk, now: nat)
    requires ch.End() <= |e.buffer| && AddChunk(c, e, ch, now).Waiting?
    ensures AddChunk(c, e, ch, now).e.time == now && AddChunk(c, e, ch, now).e.id == e.id
  {
  }

  lemma NewestAfter(c: Config, a: Asm, id: nat)
    requires Inv(c, a) && !HasEntry(c, a, id)
    ensures NewerIn(Locate(c, a, id), Target(c, a, id), {})
  {
    hide Open, NewerIn, IndexOk;
    FreeKeepsInv(c, a);
    LocateKeepsInv(c, a, id);
    PoolOf(c, a);
    var m := if id !in a.tree then Room(a) else FreeFrame(a, a.tree[id]);
    assert Locate(c, a, id) == Take(m, id) && Target(c, a, id) == m.free[0];
    NewestOf(Take(m, id), m.used, m.free[0]);
  }

  lemma NewestOf(a: Asm, q: seq<nat>, x: nat)
    requires a.used == q + [x] && Distinct(a.used)
    ensures NewerIn(a, x, {})
  {
    IndexIs(a.used, |q|);
  }

  // ----- runs -----

  /**
  From the frame's first chunk to its last: chunks of fewer than numFrames other frames, `ids`, and at most numFrames packets
  end between one chunk and the next.
  */
  ghost predicate Timely(c: Config, es: seq<Event>, id: nat, begun: bool, ids: set<nat>, gap: nat)
    decreases |es|
  {
    es == [] || match es[0]
      case Got(ch) =>
        if ch.id == id then (begun ==> gap <= c.numFrames) && Timely(c, es[1..], id, true, ids, 0)
        else
          var more := if begun then ids + {ch.id} else {};
          (ChunksOf(es, id) != [] ==> |more| < c.numFrames) && Timely(c, es[1..], id, begun, more, gap)
      case EndPacket => Timely(c, es[1..], id, begun, ids, if begun then gap + 1 else 0)
  }

  lemma StillNone(c: Config, a: Asm, id: nat, e: Event)
    requires Inv(c, a) && !HasEntry(c, a, id) && !(e.Got? && e.ch.id == id)
    ensures !HasEntry(c, Apply(c, a, e), id)
  {
    hide Open, Locate, AddChunk, PoolOk, TargetEntry;
    match e
    case Got(ch) =>
      if InBounds(c, ch) {
        ProcessLeaves(c, a, ch);
        LocateFrame(c, a, ch.id);
      }
    case EndPacket => TickAges(c, a);
  }

  /** Where the frame is while pieces are still to come. */
  ghost predicate Underway(c: Config, a: Asm, ps: seq<Chunk>, id: nat, frame: seq<byte>, idx: seq<nat>, ids: set<nat>, gap: nat)
    requires Inv(c, a)
  {
    if idx == [] then !HasEntry(c, a, id) && ids == {}
    else Progress(c, a, ps, id, frame, idx) && (gap <= c.numFrames ==> Standing(c, a, id, ids, gap))
  }

  lemma UnderwayElse(c: Config, a: Asm, ps: seq<Chunk>, id: nat, frame: seq<byte>, idx: seq<nat>, ids: set<nat>, gap: nat, e: Event)
    requires Inv(c, a) && Underway(c, a, ps, id, frame, idx, ids, gap) && !(e.Got? && e.ch.id == id)
    requires idx != [] && e.Got? ==> |ids + {e.ch.id}| < c.numFrames
    ensures Underway(c, Apply(c, a, e), ps, id, frame, idx, if idx != [] && e.Got? then ids + {e.ch.id} else ids,
                     if idx != [] && e.EndPacket? then gap + 1 else gap)
  {
    hide Inv, Progress, Standing, Process, Tick;
    if idx == [] {
      StillNone(c, a, id, e);
    } else {
      ElseProgress(c, a, ps, id, frame, idx, e);
      if gap <= c.numFrames {
        match e
        case Got(ch) => StandingOther(c, a, id, ids, gap, ch);
        case EndPacket => StandingTick(c, a, id, ids, gap);
      }
    }
  }

  lemma StandingHas(c: Config, a: Asm, id: nat, ids: set<nat>, gap: nat)
    requires Inv(c, a) && Standing(c, a, id, ids, gap) && gap <= c.numFrames
    ensures HasEntry(c, a, id)
  {
  }

  lemma UnderwayMine(c: Config, a: Asm, ps: seq<Chunk>, id: nat, frame: seq<byte>, idx: seq<nat>, ids: set<nat>, gap: nat, x: nat)
    requires Inv(c, a) && IsSplit(ps, id, frame) && |frame| <= c.outputMtu && |ps| <= c.numChunks
    requires Chosen(ps, idx) && x < |ps| && x !in idx
    requires Underway(c, a, ps, id, frame, idx, ids, gap) && (idx != [] ==> gap <= c.numFrames)
    ensures var r := Process(c, a, ps[x]);
      if |idx| + 1 < |ps| then r.out.None? && Underway(c, r.a, ps, id, frame, idx + [x], ids, 0) else r.out == Some(frame)
  {
    hide Inv, Progress, Standing, Process, AddChunk, TargetEntry, HasEntry, Holds, Chosen;
    if idx != [] {
      StandingHas(c, a, id, ids, gap);
    }
    MyProgress(c, a, ps, id, frame, idx, x);
    MyEntry(c, a, ps, id, frame, idx);
    PieceAdded(c, TargetEntry(c, a, id), ps, id, frame, idx, x, a.time);
    if |idx| + 1 < |ps| {
      StandingMine(c, a, ps[x], ids, gap);
    }
  }

  lemma {:induction false} RestTimely(c: Config, a: Asm, es: seq<Event>, ps: seq<Chunk>, id: nat, frame: seq<byte>,
                                      idx: seq<nat>, rest: seq<nat>, ids: set<nat>, gap: nat)
    requires Inv(c, a) && IsSplit(ps, id, frame) && |frame| <= c.outputMtu && |ps| <= c.numChunks
    requires Order(ps, idx, rest) && ChunksOf(es, id) == Pick(ps, rest)
    requires Timely(c, es, id, idx != [], ids, gap) && (idx == [] ==> ids == {} && gap == 0)
    requires rest != [] ==> Underway(c, a, ps, id, frame, idx, ids, gap)
    ensures FramesOf(c, a, es, id) == if rest == [] then [] else [frame]
    decreases |es|
  {
    hide Inv, IsSplit, Underway, Process, Tick, HasEntry;
    if es == [] {
    } else if es[0].Got? && es[0].ch.id == id {
      FirstOfPick(ps, rest, es, id);
      OrderNext(ps, idx, rest);
      UnderwayMine(c, a, ps, id, frame, idx, ids, gap, rest[0]);
      RestTimely(c, Apply(c, a, es[0]), es[1..], ps, id, frame, idx + [rest[0]], rest[1..], ids, 0);
    } else {
      assert ChunksOf(es[1..], id) == ChunksOf(es, id);
      if rest != [] {
        UnderwayElse(c, a, ps, id, frame, idx, ids, gap, es[0]);
      }
      var ids' := if idx != [] && es[0].Got? then ids + {es[0].ch.id} else ids;
      var gap' := if idx != [] && es[0].EndPacket? then gap + 1 else gap;
      RestTimely(c, Apply(c, a, es[0]), es[1..], ps, id, frame, idx, rest, ids', gap');
    }
  }

  /**
  The tolerance the assembler promises, on its input alone: the chunks of a frame in any order, with chunks of fewer than
  numFrames other frames among them and at most numFrames packet ends between two of them, give that frame, once.
  */
  lemma ToleratesDisorder(c: Config, a: Asm, es: seq<Event>, ps: seq<Chunk>, id: nat, frame: seq<byte>, order: seq<nat>)
    requires Inv(c, a) && IsSplit(ps, id, frame) && |frame| <= c.outputMtu && |ps| <= c.numChunks
    requires Chosen(ps, order) && |order| == |ps| && ChunksOf(es, id) == Pick(ps, order)
    requires !HasEntry(c, a, id) && Timely(c, es, id, false, {}, 0)
    ensures FramesOf(c, a, es, id) == [frame]
  {
    RestTimely(c, a, es, ps, id, frame, [], order, {}, 0);
  }

  /**
  Every kept frame whose end was written: its chunks `ps`, delivered in any timely order, give that frame, once.
  */
  lemma KeptFrameRebuilt(p: D.Params, fs: seq<D.Event>, n: nat, i: nat, j: nat, ps: seq<Chunk>, id: nat,
                         c: Config, a: Asm, es: seq<Event>, order: seq<nat>)
    requires p.Valid() && D.Inv(p, R.IDLE) && R.Legal(p, R.IDLE, fs)
    requires var w := R.Stream(p, R.IDLE, fs);
      i < j <= |w| && ps == w[i..j] && id == w[i].id && OneFrameOf(ps) && Ended(w[..i]) == n
    requires Inv(c, a) && |ps| <= c.numChunks && n < |R.Kept(fs)| && |R.Kept(fs)[n]| <= c.outputMtu
    requires Chosen(ps, order) && |order| == |ps| && ChunksOf(es, id) == Pick(ps, order)
    requires !HasEntry(c, a, id) && Timely(c, es, id, false, {}, 0)
    ensures FramesOf(c, a, es, id) == [R.Kept(fs)[n]]
  {
    hide R.Legal, D.Inv, R.Stream, R.KeptFrom, Inv, HasEntry, Timely, OneFrameOf, FramesOf, ChunksOf, Chosen, Ended;
    KeptFrameSplit(p, fs, i, j);
    ToleratesDisorder(c, a, es, ps, id, R.Kept(fs)[n], order);
  }
}
