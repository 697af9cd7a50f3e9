/** Chunks that arrive in order. */
module FragmentInOrder {
  // `Glue` is the obvious listener on a perfect network: it appends, and begins again at a chunk that starts at 0.  On a
  // stream the glue can follow, the assembler with its pool, index, overlap checks and clock gives the same frames,
  // unless a frame begins while the assembler still holds an abandoned beginning under the same id.

  import opened Bytes
  import opened FragmentProto
  import opened FragmentAssembler
  import opened Seqs
  import opened Tiling
  import opened Wrappers

  /** Frame `id` is arriving: `cur` are its bytes so far, in `count` chunks. */
  datatype Glue = Glue(id: nat, cur: seq<byte>, count: nat)

  /** A chunk at 0 begins a frame, whatever was heard of another before. */
  function Restart(g: Glue, ch: Chunk): Glue {
    if ch.start == 0 then Glue(g.id, [], 0) else g
  }

  predicate Follows(g: Glue, ch: Chunk) {
    ch.Fits() && ch.id == g.id && ch.start == |Restart(g, ch).cur| && (ch.data == [] ==> ch.last && ch.start == 0)
  }

  function GlueNext(g: Glue, ch: Chunk): Glue {
    var h := Restart(g, ch);
    if ch.last then Glue((h.id + 1) % 0x1_0000, [], 0) else Glue(h.id, h.cur + ch.data, h.count + 1)
  }

  function GlueOut(g: Glue, ch: Chunk): seq<seq<byte>> {
    if ch.last then [Restart(g, ch).cur + ch.data] else []
  }

  /** The stream can be followed from `g`. */
  predicate InOrder(g: Glue, cs: seq<Chunk>)
    decreases |cs|
  {
    cs == [] || (Follows(g, cs[0]) && InOrder(GlueNext(g, cs[0]), cs[1..]))
  }

  function GlueRun(g: Glue, cs: seq<Chunk>): Glue
    decreases |cs|
  {
    if cs == [] then g else GlueRun(GlueNext(g, cs[0]), cs[1..])
  }

  function GlueOuts(g: Glue, cs: seq<Chunk>): seq<seq<byte>>
    decreases |cs|
  {
    if cs == [] then [] else GlueOut(g, cs[0]) + GlueOuts(GlueNext(g, cs[0]), cs[1..])
  }

  /** No frame of the stream is longer, or in more chunks, than the assembler is set up for. */
  predicate Sized(c: Config, g: Glue, cs: seq<Chunk>)
    decreases |cs|
  {
    cs == [] || (SizedChunk(c, Restart(g, cs[0]), cs[0]) && Sized(c, GlueNext(g, cs[0]), cs[1..]))
  }

  predicate SizedChunk(c: Config, g: Glue, ch: Chunk) {
    |g.cur| + |ch.data| <= c.outputMtu && g.count + 1 <= c.numChunks && (!ch.last ==> g.count + 1 < c.numChunks)
  }

  lemma {:induction false} GlueAppend(g: Glue, cs: seq<Chunk>, ds: seq<Chunk>)
    ensures InOrder(g, cs + ds) <==> InOrder(g, cs) && InOrder(GlueRun(g, cs), ds)
    ensures GlueRun(g, cs + ds) == GlueRun(GlueRun(g, cs), ds)
    ensures GlueOuts(g, cs + ds) == GlueOuts(g, cs) + GlueOuts(GlueRun(g, cs), ds)
    decreases |cs|
  {
    hide GlueNext, GlueOut, Follows;
    if cs == [] {
      assert cs + ds == ds;
    } else {
      GlueAppend(GlueNext(g, cs[0]), cs[1..], ds);
      assert (cs + ds)[1..] == cs[1..] + ds;
    }
  }

  lemma {:induction false} SizedAppend(c: Config, g: Glue, cs: seq<Chunk>, ds: seq<Chunk>)
    ensures Sized(c, g, cs + ds) <==> Sized(c, g, cs) && Sized(c, GlueRun(g, cs), ds)
    decreases |cs|
  {
    if cs == [] {
      assert cs + ds == ds;
    } else {
      SizedAppend(c, GlueNext(g, cs[0]), cs[1..], ds);
      assert (cs + ds)[1..] == cs[1..] + ds;
    }
  }

  // ----- what is remembered of abandoned frames -----

  /** The extents held under the id now arriving, and whether they are exactly the frame now arriving. */
  datatype Memory = Memory(held: seq<Extent>, whole: bool)

  const NOTHING: Memory := Memory([], true)

  predicate Touches(xs: seq<Extent>, x: Extent) {
    exists i :: 0 <= i < |xs| && Overlap(xs[i], x)
  }

  /** A frame is heard whole only if nothing is held when it begins. */
  function Begin(m: Memory, ch: Chunk): Memory {
    if ch.start == 0 then Memory(m.held, m.held == []) else m
  }

  /** A chunk that touches what is held, or is one too many, makes everything held forgotten. */
  function Recall(n: nat, m: Memory, ch: Chunk): Memory {
    if ch.last then NOTHING
    else
      var x := ExtentOf(ch);
      Memory(if Touches(m.held, x) || |m.held| + 1 == n then [] else m.held + [x], Begin(m, ch).whole)
  }

  function RecallRun(n: nat, m: Memory, cs: seq<Chunk>): Memory
    decreases |cs|
  {
    if cs == [] then m else RecallRun(n, Recall(n, m, cs[0]), cs[1..])
  }

  /** Every frame that ends was heard whole, by an assembler that keeps up to `n` chunks of a frame. */
  predicate Clean(n: nat, m: Memory, cs: seq<Chunk>)
    decreases |cs|
  {
    cs == [] || ((cs[0].last ==> Begin(m, cs[0]).whole) && Clean(n, Recall(n, m, cs[0]), cs[1..]))
  }

  lemma CleanOne(n: nat, m: Memory, ch: Chunk)
    ensures Clean(n, m, [ch]) <==> (ch.last ==> Begin(m, ch).whole)
    ensures RecallRun(n, m, [ch]) == Recall(n, m, ch)
  {
    hide Recall, Begin;
    assert [ch][1..] == [] && Clean(n, Recall(n, m, ch), []) && RecallRun(n, Recall(n, m, ch), []) == Recall(n, m, ch);
  }

  lemma {:induction false} CleanAppend(n: nat, m: Memory, cs: seq<Chunk>, ds: seq<Chunk>)
    ensures Clean(n, m, cs + ds) <==> Clean(n, m, cs) && Clean(n, RecallRun(n, m, cs), ds)
    ensures RecallRun(n, m, cs + ds) == RecallRun(n, RecallRun(n, m, cs), ds)
    decreases |cs|
  {
    hide Recall, Begin;
    if cs == [] {
      assert cs + ds == ds;
    } else {
      CleanAppend(n, Recall(n, m, cs[0]), cs[1..], ds);
      assert (cs + ds)[1..] == cs[1..] + ds;
    }
  }

  // ----- the assembler keeps up with the glue -----

  /** The entry holds what is remembered, and exactly the prefix `g.cur` if that is heard whole. */
  ghost predicate Remembers(e: Entry, g: Glue, m: Memory) {
    && e.id == g.id && e.length == -1 && e.chunks == m.held
    && (m.whole ==>
          && e.soFar == e.sum == |g.cur| && |m.held| == g.count
          && |g.cur| <= |e.buffer| && e.buffer[..|g.cur|] == g.cur)
  }

  /** Of a frame not heard whole, there is more than it has brought so far, or its first byte is missing. */
  ghost predicate Torn(g: Glue, m: Memory) {
    Total(m.held) > |g.cur| || (g.cur != [] && !Covered(m.held, 0))
  }

  /** Nothing is in the pool but what is remembered under the glue's id, last heard of at most `age` packets ago. */
  ghost predicate Tracks(c: Config, a: Asm, g: Glue, m: Memory, age: nat) {
    && Inv(c, a)
    && (m.held == [] ==> a.used == [] && (m.whole ==> g.cur == [] && g.count == 0))
    && (m.held != [] ==>
          && Total(m.held) > 0
          && |a.used| == 1 && a.used[0] < |a.entries| && Remembers(a.entries[a.used[0]], g, m)
          && a.time - a.entries[a.used[0]].time <= age)
    && (!m.whole ==> Torn(g, m))
  }

  lemma BeginTracks(c: Config, a: Asm, g: Glue, m: Memory, ch: Chunk, age: nat)
    requires Tracks(c, a, g, m, age)
    ensures Tracks(c, a, Restart(g, ch), Begin(m, ch), age)
  {
    hide Inv, Covered;
  }

  lemma TargetRemembers(c: Config, a: Asm, g: Glue, m: Memory, id: nat)
    requires Tracks(c, a, g, m, c.numFrames) && id == g.id
    ensures Remembers(TargetEntry(c, a, id), g, m)
    ensures var b := Locate(c, a, id);
      |b.used| == 1 && b.used[0] == Target(c, a, id)
  {
    if m.held == [] {
      assert id !in a.tree;
      FreeKeepsInv(c, a);
      TakeKeepsInv(c, a, id);
    } else {
      assert a.used[0] in a.used;
    }
  }

  /** Adding to a frame heard whole. */
  lemma PrefixAccepts(c: Config, e: Entry, g: Glue, m: Memory, ch: Chunk, now: nat)
    requires Open(c, e) && Remembers(e, g, m) && m.whole && ch.start == |g.cur| && SizedChunk(c, g, ch)
    ensures InBounds(c, ch) && !Touches(m.held, ExtentOf(ch)) && |m.held| == g.count
    ensures var v := AddChunk(c, e, ch, now);
      if ch.last then v.Complete? && v.e.buffer[..v.e.length] == g.cur + ch.data
      else v.Waiting? && v.e.soFar == v.e.sum == ch.End() && v.e.buffer[..ch.End()] == g.cur + ch.data
  {
    forall i | 0 <= i < |e.chunks|
      ensures !Overlap(e.chunks[i], ExtentOf(ch))
    {
      assert e.chunks[i] in e.chunks;
    }
    var f := Store(e, ch, now);
    assert f.buffer[..ch.End()] == g.cur + ch.data;
  }

  /** A chunk in the middle of a frame: it is held, or all is forgotten. */
  lemma MiddleAdded(c: Config, e: Entry, g: Glue, m: Memory, ch: Chunk, now: nat)
    requires Open(c, e) && Remembers(e, g, m) && ch.start == |g.cur| && SizedChunk(c, g, ch) && !ch.last && ch.id == g.id
    ensures InBounds(c, ch)
    ensures var v := AddChunk(c, e, ch, now);
      var forgotten := Touches(m.held, ExtentOf(ch)) || |m.held| + 1 == c.numChunks;
      && (forgotten ==> v.Rejected? && !m.whole)
      && (!forgotten ==>
            && v.Waiting? && v.e.time == now
            && Remembers(v.e, Glue(g.id, g.cur + ch.data, g.count + 1), Memory(m.held + [ExtentOf(ch)], m.whole)))
  {
    if m.whole {
      PrefixAccepts(c, e, g, m, ch, now);
    }
    assert Acceptable(e, ch) <==> !Touches(m.held, ExtentOf(ch));
  }

  /** The entry holds more than the `n` bytes the frame has brought, or lacks its first byte. */
  ghost predicate TornEntry(e: Entry, n: nat) {
    e.length < 0 && (e.sum > n || (n > 0 && !Covered(e.chunks, 0)))
  }

  /** The next chunk of a torn frame neither completes it nor mends it. */
  lemma TornAdd(c: Config, e: Entry, n: nat, ch: Chunk, now: nat)
    requires Open(c, e) && TornEntry(e, n) && ch.start == n && InBounds(c, ch)
    ensures var v := AddChunk(c, e, ch, now);
      !v.Complete? && (v.Waiting? && !ch.last ==> TornEntry(v.e, ch.End()))
  {
    var f := Store(e, ch, now);
    assert f.chunks[..|f.chunks| - 1] == e.chunks;
    CoveredLast(f.chunks, 0);
    if AddChunk(c, e, ch, now).Complete? {
      CompleteTiles(c, e, ch, now);
      assert false;
    }
  }

  lemma TornGoesOn(g: Glue, m: Memory, x: Extent)
    requires Torn(g, m) && x.start == |g.cur| && x.len > 0
    ensures forall d: seq<byte> :: |d| == x.len ==> Torn(Glue(g.id, g.cur + d, g.count + 1), Memory([], false))
    ensures forall d: seq<byte> :: |d| == x.len ==> Torn(Glue(g.id, g.cur + d, g.count + 1), Memory(m.held + [x], false))
  {
    var xs := m.held + [x];
    assert xs[..|xs| - 1] == m.held;
    CoveredLast(xs, 0);
  }

  /** What is in the pool after a chunk in the middle of a frame. */
  lemma MiddleLeaves(c: Config, a: Asm, g: Glue, m: Memory, ch: Chunk)
    requires Tracks(c, a, g, m, c.numFrames) && ch.id == g.id && ch.start == |g.cur| && SizedChunk(c, g, ch) && !ch.last
    ensures var r := Process(c, a, ch);
      var x := ExtentOf(ch);
      var forgotten := Touches(m.held, x) || |m.held| + 1 == c.numChunks;
      && r.out.None? && Inv(c, r.a)
      && (forgotten ==> r.a.used == [] && !m.whole)
      && (!forgotten ==>
            && |r.a.used| == 1 && r.a.used[0] < |r.a.entries| && r.a.entries[r.a.used[0]].time == r.a.time
            && Remembers(r.a.entries[r.a.used[0]], Glue(g.id, g.cur + ch.data, g.count + 1), Memory(m.held + [x], m.whole)))
  {
    hide Touches, Torn, Remembers, Open, PoolOk, IndexOk, Locate, AddChunk, SizedChunk;
    TargetRemembers(c, a, g, m, ch.id);
    MiddleAdded(c, TargetEntry(c, a, ch.id), g, m, ch, a.time);
    JudgeKeepsInv(c, a, ch);
    var b := Locate(c, a, ch.id);
    var k := Target(c, a, ch.id);
    assert b.used == [k];
    assert Without([k], k) == [] by { assert [k][1..] == []; }
  }

  lemma MiddleStep(c: Config, a: Asm, g: Glue, m: Memory, ch: Chunk)
    requires Tracks(c, a, g, m, c.numFrames) && ch.id == g.id && ch.start == |g.cur| && SizedChunk(c, g, ch)
    requires !ch.last && ch.data != []
    ensures var r := Process(c, a, ch);
      var x := ExtentOf(ch);
      && r.out.None?
      && Tracks(c, r.a, Glue(g.id, g.cur + ch.data, g.count + 1),
                Memory(if Touches(m.held, x) || |m.held| + 1 == c.numChunks then [] else m.held + [x], m.whole), 0)
  {
    hide Touches, Torn, Remembers, Inv, Process, SizedChunk;
    var x := ExtentOf(ch);
    MiddleLeaves(c, a, g, m, ch);
    assert (m.held + [x])[..|m.held|] == m.held;
    assert Total(m.held + [x]) == Total(m.held) + x.len;
    if !m.whole {
      TornGoesOn(g, m, x);
    }
  }

  lemma LastStep(c: Config, a: Asm, g: Glue, m: Memory, ch: Chunk)
    requires Tracks(c, a, g, m, c.numFrames) && ch.id == g.id && ch.start == |g.cur| && SizedChunk(c, g, ch) && ch.last
    ensures var r := Process(c, a, ch);
      if m.whole then r.out == Some(g.cur + ch.data) && Tracks(c, r.a, Glue((g.id + 1) % 0x1_0000, [], 0), NOTHING, 0)
      else r.out.None?
  {
    hide Touches, PoolOk, IndexOk, Locate, AddChunk, Apart, Within;
    TargetRemembers(c, a, g, m, ch.id);
    JudgeKeepsInv(c, a, ch);
    var b := Locate(c, a, ch.id);
    var k := Target(c, a, ch.id);
    if m.whole {
      PrefixAccepts(c, TargetEntry(c, a, ch.id), g, m, ch, a.time);
      assert b.used == [k];
      assert Without([k], k) == [] by { assert [k][1..] == []; }
    } else {
      assert TornEntry(TargetEntry(c, a, ch.id), |g.cur|);
      TornAdd(c, TargetEntry(c, a, ch.id), |g.cur|, ch, a.time);
    }
  }

  /** One chunk: a frame comes out exactly when it ends and was heard whole, and is then the frame the glue heard. */
  lemma InOrderStep(c: Config, a: Asm, g: Glue, m: Memory, ch: Chunk)
    requires Tracks(c, a, g, m, c.numFrames) && Follows(g, ch) && SizedChunk(c, Restart(g, ch), ch)
    ensures var r := Process(c, a, ch);
      if ch.last && !Begin(m, ch).whole then r.out.None?
      else
        && Tracks(c, r.a, GlueNext(g, ch), Recall(c.numChunks, m, ch), 0)
        && GlueOut(g, ch) == (if r.out.Some? then [r.out.value] else [])
  {
    hide Process, Inv, Remembers, Torn, SizedChunk, Tracks;
    BeginTracks(c, a, g, m, ch, c.numFrames);
    if ch.last {
      LastStep(c, a, Restart(g, ch), Begin(m, ch), ch);
    } else {
      MiddleStep(c, a, Restart(g, ch), Begin(m, ch), ch);
    }
  }

  // ----- packets -----

  datatype Delivered = Delivered(a: Asm, outs: seq<seq<byte>>)

  /** Process the chunks of one packet, then let the clock advance. */
  function FeedPacket(c: Config, a: Asm, cs: seq<Chunk>): (r: Delivered)
    requires Inv(c, a)
    ensures Inv(c, r.a)
    decreases |cs|
  {
    if cs == [] then Delivered(Tick(c, a), [])
    else
      var r := Process(c, a, cs[0]);
      var rest := FeedPacket(c, r.a, cs[1..]);
      Delivered(rest.a, (if r.out.Some? then [r.out.value] else []) + rest.outs)
  }

  function FeedPackets(c: Config, a: Asm, ps: seq<seq<Chunk>>): (r: Delivered)
    requires Inv(c, a)
    ensures Inv(c, r.a)
    decreases |ps|
  {
    if ps == [] then Delivered(a, [])
    else
      var r := FeedPacket(c, a, ps[0]);
      var rest := FeedPackets(c, r.a, ps[1..]);
      Delivered(rest.a, r.outs + rest.outs)
  }

  function Flatten(ps: seq<seq<Chunk>>): seq<Chunk> {
    if ps == [] then [] else ps[0] + Flatten(ps[1..])
  }

  lemma TickTracks(c: Config, a: Asm, g: Glue, m: Memory)
    requires Tracks(c, a, g, m, 0)
    ensures Tracks(c, Tick(c, a), g, m, 1)
  {
    TickAges(c, a);
    assert m.held != [] ==> a.used[0] in a.used;
  }

  lemma {:induction false} InOrderPacket(c: Config, a: Asm, g: Glue, m: Memory, cs: seq<Chunk>, age: nat)
    requires age <= c.numFrames && Tracks(c, a, g, m, age) && (cs == [] ==> age == 0)
    requires InOrder(g, cs) && Sized(c, g, cs) && Clean(c.numChunks, m, cs)
    ensures var r := FeedPacket(c, a, cs);
      Tracks(c, r.a, GlueRun(g, cs), RecallRun(c.numChunks, m, cs), 1) && r.outs == GlueOuts(g, cs)
    decreases |cs|
  {
    hide Process, Inv, Remembers, Torn, SizedChunk, Recall, Begin, GlueNext, GlueOut, Follows, Restart;
    if cs == [] {
      TickTracks(c, a, g, m);
    } else {
      InOrderStep(c, a, g, m, cs[0]);
      InOrderPacket(c, Process(c, a, cs[0]).a, GlueNext(g, cs[0]), Recall(c.numChunks, m, cs[0]), cs[1..], 0);
    }
  }

  /** In-order delivery: the assembler emits what the glue emits, over any number of packets and any clock value. */
  lemma {:induction false} InOrderPackets(c: Config, a: Asm, g: Glue, m: Memory, ps: seq<seq<Chunk>>)
    requires Tracks(c, a, g, m, 1)
    requires forall i :: 0 <= i < |ps| ==> ps[i] != []
    requires InOrder(g, Flatten(ps)) && Sized(c, g, Flatten(ps)) && Clean(c.numChunks, m, Flatten(ps))
    ensures var r := FeedPackets(c, a, ps);
      && Tracks(c, r.a, GlueRun(g, Flatten(ps)), RecallRun(c.numChunks, m, Flatten(ps)), 1)
      && r.outs == GlueOuts(g, Flatten(ps))
    decreases |ps|
  {
    hide Inv, Remembers, Torn, InOrder, Sized, Clean, GlueRun, GlueOuts, RecallRun, FeedPacket;
    if ps == [] {
      GlueNone(c.numChunks, g, m);
    } else {
      GlueAppend(g, ps[0], Flatten(ps[1..]));
      SizedAppend(c, g, ps[0], Flatten(ps[1..]));
      CleanAppend(c.numChunks, m, ps[0], Flatten(ps[1..]));
      OneFrame(c, a);
      InOrderPacket(c, a, g, m, ps[0], 1);
      InOrderPackets(c, FeedPacket(c, a, ps[0]).a, GlueRun(g, ps[0]), RecallRun(c.numChunks, m, ps[0]), ps[1..]);
    }
  }

  lemma OneFrame(c: Config, a: Asm)
    requires Inv(c, a)
    ensures c.numFrames >= 1
  {
  }

  lemma GlueNone(n: nat, g: Glue, m: Memory)
    ensures InOrder(g, []) && GlueOuts(g, []) == [] && GlueRun(g, []) == g && RecallRun(n, m, []) == m
  {
  }
}
