/** What comes out once a frame has been lost: at most one frame for each that ends. */
module FragmentLoss {
  import opened Bytes
  import opened FragmentProto
  import opened FragmentAssembler
  import opened FragmentEmission
  import opened FragmentInOrder
  import opened Tiling
  import opened Wrappers

  // ----- frame ids come round -----

  /** How many frames ago `past` was last the id of a frame that ended, when `id` is the next. */
  function Back(id: nat, past: nat): (n: nat)
    requires id < 0x1_0000 && past < 0x1_0000
    ensures 1 <= n <= 0x1_0000 && (n == 0x1_0000 <==> id == past)
  {
    if past < id then id - past else id + 0x1_0000 - past
  }

  lemma BackNext(id: nat, past: nat)
    requires id < 0x1_0000 && past < 0x1_0000
    ensures Back((id + 1) % 0x1_0000, past) <= Back(id, past) + 1
  {
  }

  lemma BackOne(id: nat)
    requires id < 0x1_0000
    ensures Back((id + 1) % 0x1_0000, id) == 1
  {
  }

  /** Every frame held with a known end ended at most `w` frames ago for each packet since, and `k` for this packet. */
  ghost predicate Recent(c: Config, a: Asm, id: nat, w: nat, k: nat) {
    && Inv(c, a) && id < 0x1_0000
    && forall j :: j in a.used && j < |a.entries| ==>
         && a.entries[j].id < 0x1_0000
         && (a.entries[j].length >= 0 ==> Back(id, a.entries[j].id) <= (a.time - a.entries[j].time) * w + k)
  }

  /** Ids come round only after the assembler has forgotten their last use, with at most `w` chunks to a packet. */
  predicate Forgets(c: Config, w: nat) {
    (c.numFrames + 1) * w < 0x1_0000
  }

  lemma AgeBound(age: nat, n: nat, w: nat, k: nat)
    requires age <= n && k <= w
    ensures age * w + k <= (n + 1) * w
  {
    assert age * w <= n * w;
  }

  /** The frame now arriving has no end yet. */
  lemma NoEndYet(c: Config, a: Asm, id: nat, w: nat, k: nat)
    requires Recent(c, a, id, w, k) && Forgets(c, w) && k <= w
    ensures TargetEntry(c, a, id).length < 0
  {
    hide PoolOk, Open, Locate, TargetEntry;
    if HasEntry(c, a, id) {
      var j := a.tree[id];
      LiveTarget(c, a, id);
      PoolOf(c, a);
      AgeBound(a.time - a.entries[j].time, c.numFrames, w, k);
    } else {
      FreshTarget(c, a, id);
    }
  }

  lemma EndAdded(c: Config, e: Entry, ch: Chunk, now: nat)
    requires e.length < 0 && ch.End() <= |e.buffer|
    ensures var v := AddChunk(c, e, ch, now);
      v.e.id == e.id && (v.Waiting? ==> v.e.time == now && (v.e.length >= 0 ==> ch.last)) && (v.Complete? ==> ch.last)
  {
    hide Acceptable;
  }

  lemma RecentStep(c: Config, a: Asm, id: nat, w: nat, k: nat, ch: Chunk)
    requires Recent(c, a, id, w, k) && Forgets(c, w) && k < w && ch.id == id
    ensures var r := Process(c, a, ch);
      && (r.out.Some? ==> ch.last)
      && Recent(c, r.a, if ch.last then (id + 1) % 0x1_0000 else id, w, k + 1)
  {
    hide Inv, Process, AddChunk, Locate, Target, Forgets, Back;
    var r := Process(c, a, ch);
    if InBounds(c, ch) {
      NoEndYet(c, a, id, w, k);
      ProcessLeaves(c, a, ch);
      LocateFrame(c, a, id);
      EndAdded(c, TargetEntry(c, a, id), ch, a.time);
    } else {
      NothingDone(c, a, ch);
    }
    var next := if ch.last then (id + 1) % 0x1_0000 else id;
    forall j | j in r.a.used && j < |r.a.entries|
      ensures r.a.entries[j].id < 0x1_0000
      ensures r.a.entries[j].length >= 0 ==> Back(next, r.a.entries[j].id) <= (r.a.time - r.a.entries[j].time) * w + k + 1
    {
      if InBounds(c, ch) && j == Target(c, a, id) {
        BackOne(id);
      } else {
        assert j in a.used && j < |a.entries| && r.a.entries[j] == a.entries[j];
        BackNext(id, a.entries[j].id);
      }
    }
  }

  lemma RecentTick(c: Config, a: Asm, id: nat, w: nat, k: nat)
    requires Recent(c, a, id, w, k) && k <= w
    ensures Recent(c, Tick(c, a), id, w, 0)
  {
    hide Inv, Tick, Back;
    TickAges(c, a);
    InTime(c, a);
    var r := Tick(c, a);
    forall j | j in r.used && j < |r.entries|
      ensures r.entries[j].id < 0x1_0000
      ensures r.entries[j].length >= 0 ==> Back(id, r.entries[j].id) <= (r.time - r.entries[j].time) * w
    {
      var age := a.time - a.entries[j].time;
      AgeBound(age, age, w, k);
      assert r.entries[j] == a.entries[j].(time := r.entries[j].time) && r.time - r.entries[j].time == age + 1;
    }
  }

  lemma InTime(c: Config, a: Asm)
    requires Inv(c, a)
    ensures forall j :: j in a.used && j < |a.entries| ==> a.entries[j].time <= a.time
  {
  }

  // ----- a frame comes out once -----

  /** Nothing held under `id` has the frame's first byte. */
  ghost predicate Spent(c: Config, a: Asm, id: nat)
    requires Inv(c, a)
  {
    id in a.tree ==> !Covered(a.entries[a.tree[id]].chunks, 0)
  }

  lemma UncoveredAdd(c: Config, e: Entry, ch: Chunk, now: nat)
    requires Open(c, e) && InBounds(c, ch) && ch.start > 0 && (ch.last || ch.data != []) && !Covered(e.chunks, 0)
    ensures var v := AddChunk(c, e, ch, now);
      !v.Complete? && (v.Waiting? ==> !Covered(v.e.chunks, 0))
  {
    var f := Store(e, ch, now);
    assert f.chunks[..|f.chunks| - 1] == e.chunks;
    CoveredLast(f.chunks, 0);
    if AddChunk(c, e, ch, now).Complete? {
      CompleteTiles(c, e, ch, now);
    }
  }

  lemma SpentStep(c: Config, a: Asm, ch: Chunk)
    requires Inv(c, a) && Spent(c, a, ch.id) && ch.start > 0 && (ch.last || ch.data != [])
    ensures var r := Process(c, a, ch);
      r.out.None? && Spent(c, r.a, ch.id)
  {
    hide Process, AddChunk, Locate, Target, TargetEntry, Open, PoolOk;
    if InBounds(c, ch) {
      if HasEntry(c, a, ch.id) {
        LiveTarget(c, a, ch.id);
      } else {
        FreshTarget(c, a, ch.id);
      }
      UncoveredAdd(c, TargetEntry(c, a, ch.id), ch, a.time);
      ProcessLeaves(c, a, ch);
    } else {
      NothingDone(c, a, ch);
    }
  }

  /** A frame that comes out leaves nothing behind. */
  lemma EmittedSpent(c: Config, a: Asm, ch: Chunk)
    requires Inv(c, a) && Process(c, a, ch).out.Some?
    ensures Spent(c, Process(c, a, ch).a, ch.id)
  {
    hide AddChunk, Locate, Target, TargetEntry, Open, PoolOk;
    if InBounds(c, ch) {
      ProcessLeaves(c, a, ch);
    }
  }

  lemma SpentTick(c: Config, a: Asm, id: nat)
    requires Inv(c, a) && Spent(c, a, id)
    ensures Spent(c, Tick(c, a), id)
  {
    TickAges(c, a);
  }

  // ----- at most one frame for each that ends -----

  /** No frame is abandoned. */
  predicate Unbroken(g: Glue, cs: seq<Chunk>)
    decreases |cs|
  {
    cs == [] || (cs[0].start == |g.cur| && Unbroken(GlueNext(g, cs[0]), cs[1..]))
  }

  lemma {:induction false} UnbrokenAppend(g: Glue, cs: seq<Chunk>, ds: seq<Chunk>)
    ensures Unbroken(g, cs + ds) <==> Unbroken(g, cs) && Unbroken(GlueRun(g, cs), ds)
    decreases |cs|
  {
    hide GlueNext;
    if cs == [] {
      assert cs + ds == ds;
    } else {
      UnbrokenAppend(GlueNext(g, cs[0]), cs[1..], ds);
      assert (cs + ds)[1..] == cs[1..] + ds;
    }
  }

  /** Why no more comes out than ends: ids are forgotten before they come round, or no frame is abandoned any more. */
  datatype Reason = Forgotten(w: nat, k: nat) | Unabandoned(spent: bool)

  ghost predicate Bounded(c: Config, a: Asm, g: Glue, x: Reason) {
    && Inv(c, a)
    && match x
       case Forgotten(w, k) => Forgets(c, w) && k <= w && Recent(c, a, g.id, w, k)
       case Unabandoned(spent) => spent ==> g.cur != [] && Spent(c, a, g.id)
  }

  predicate Suits(x: Reason, g: Glue, cs: seq<Chunk>) {
    match x
    case Forgotten(w, k) => k + |cs| <= w
    case Unabandoned(_) => Unbroken(g, cs)
  }

  /** A frame that came out before its end. */
  function Owed(x: Reason): nat {
    if x.Unabandoned? && x.spent then 1 else 0
  }

  function Count(o: Option<seq<byte>>): nat {
    if o.Some? then 1 else 0
  }

  lemma RestStep(c: Config, a: Asm, g: Glue, ch: Chunk, x: Reason) returns (y: Reason)
    requires Bounded(c, a, g, x) && Follows(g, ch)
    requires if x.Forgotten? then x.k < x.w else ch.start == |g.cur|
    ensures y.Forgotten? == x.Forgotten? && (x.Forgotten? ==> y == Forgotten(x.w, x.k + 1))
    ensures Bounded(c, Process(c, a, ch).a, GlueNext(g, ch), y)
    ensures Count(Process(c, a, ch).out) + Owed(x) <= |GlueOut(g, ch)| + Owed(y)
  {
    hide Process, Inv, Recent, Spent, Forgets;
    var r := Process(c, a, ch);
    match x
    case Forgotten(w, k) =>
      RecentStep(c, a, g.id, w, k, ch);
      y := Forgotten(w, k + 1);
    case Unabandoned(spent) =>
      y := Unabandoned(!ch.last && (spent || r.out.Some?));
      if spent {
        SpentStep(c, a, ch);
      } else if r.out.Some? {
        EmittedSpent(c, a, ch);
      }
  }

  lemma RestTick(c: Config, a: Asm, g: Glue, x: Reason) returns (y: Reason)
    requires Bounded(c, a, g, x)
    ensures Bounded(c, Tick(c, a), g, y) && y == if x.Forgotten? then Forgotten(x.w, 0) else x
  {
    hide Tick, Inv, Recent, Spent, Forgets;
    match x
    case Forgotten(w, k) =>
      RecentTick(c, a, g.id, w, k);
      y := Forgotten(w, 0);
    case Unabandoned(spent) =>
      y := x;
      if spent {
        SpentTick(c, a, g.id);
      }
  }

  /** The reason still stands at the start of the next packet. */
  predicate Renewed(x: Reason, y: Reason) {
    if x.Forgotten? then y == Forgotten(x.w, 0) else y.Unabandoned?
  }

  lemma {:induction false} RestPacket(c: Config, a: Asm, g: Glue, cs: seq<Chunk>, x: Reason) returns (y: Reason)
    requires Bounded(c, a, g, x) && InOrder(g, cs) && Suits(x, g, cs)
    ensures Renewed(x, y) && Bounded(c, FeedPacket(c, a, cs).a, GlueRun(g, cs), y)
    ensures |FeedPacket(c, a, cs).outs| + Owed(x) <= |GlueOuts(g, cs)| + Owed(y)
    decreases |cs|
  {
    hide Process, Inv, Recent, Spent, Forgets, Follows, GlueNext, GlueOut;
    if cs == [] {
      y := RestTick(c, a, g, x);
    } else {
      var z := RestStep(c, a, g, cs[0], x);
      y := RestPacket(c, Process(c, a, cs[0]).a, GlueNext(g, cs[0]), cs[1..], z);
    }
  }

  /** The stream suits the reason, packet by packet. */
  predicate AllSuit(x: Reason, g: Glue, ps: seq<seq<Chunk>>) {
    match x
    case Forgotten(w, _) => forall i :: 0 <= i < |ps| ==> |ps[i]| <= w
    case Unabandoned(_) => Unbroken(g, Flatten(ps))
  }

  lemma {:induction false} RestPackets(c: Config, a: Asm, g: Glue, ps: seq<seq<Chunk>>, x: Reason) returns (y: Reason)
    requires Bounded(c, a, g, x) && (x.Forgotten? ==> x.k == 0) && InOrder(g, Flatten(ps)) && AllSuit(x, g, ps)
    ensures y.Forgotten? == x.Forgotten? && Bounded(c, FeedPackets(c, a, ps).a, GlueRun(g, Flatten(ps)), y)
    ensures |FeedPackets(c, a, ps).outs| + Owed(x) <= |GlueOuts(g, Flatten(ps))| + Owed(y)
    decreases |ps|
  {
    hide Inv, Recent, Spent, Forgets, InOrder, Unbroken, FeedPacket;
    if ps == [] {
      y := x;
    } else {
      GlueAppend(g, ps[0], Flatten(ps[1..]));
      UnbrokenAppend(g, ps[0], Flatten(ps[1..]));
      var z := RestPacket(c, a, g, ps[0], x);
      y := RestPackets(c, FeedPacket(c, a, ps[0]).a, GlueRun(g, ps[0]), ps[1..], z);
    }
  }

  // ----- a frame that was not heard whole is lost -----

  /** After the first frame that ends without having been heard whole, no frame is abandoned. */
  predicate UnbrokenAfter(n: nat, m: Memory, g: Glue, cs: seq<Chunk>)
    decreases |cs|
  {
    cs == [] || (
      var h := GlueNext(g, cs[0]);
      if cs[0].last && !Begin(m, cs[0]).whole then Unbroken(h, cs[1..])
      else UnbrokenAfter(n, Recall(n, m, cs[0]), h, cs[1..]))
  }

  lemma {:induction false} UnbrokenAfterAppend(n: nat, m: Memory, g: Glue, cs: seq<Chunk>, ds: seq<Chunk>)
    ensures UnbrokenAfter(n, m, g, cs + ds) <==>
      && UnbrokenAfter(n, m, g, cs)
      && (if Clean(n, m, cs) then UnbrokenAfter(n, RecallRun(n, m, cs), GlueRun(g, cs), ds) else Unbroken(GlueRun(g, cs), ds))
    decreases |cs|
  {
    hide Recall, Begin, GlueNext;
    if cs == [] {
      assert cs + ds == ds;
    } else {
      assert (cs + ds)[1..] == cs[1..] + ds;
      UnbrokenAfterAppend(n, Recall(n, m, cs[0]), GlueNext(g, cs[0]), cs[1..], ds);
      UnbrokenAppend(GlueNext(g, cs[0]), cs[1..], ds);
    }
  }

  ghost predicate Prepared(c: Config, a: Asm, g: Glue, m: Memory, cs: seq<Chunk>, x: Reason) {
    match x
    case Forgotten(w, k) => Bounded(c, a, g, x) && k + |cs| <= w
    case Unabandoned(spent) => !spent && UnbrokenAfter(c.numChunks, m, g, cs)
  }

  /** A packet in which a frame ends that was not heard whole brings fewer frames than end in it. */
  lemma {:induction false} LossPacket(c: Config, a: Asm, g: Glue, m: Memory, cs: seq<Chunk>, age: nat, x: Reason)
    returns (y: Reason)
    requires age <= c.numFrames && Tracks(c, a, g, m, age) && InOrder(g, cs) && Sized(c, g, cs)
    requires !Clean(c.numChunks, m, cs) && Prepared(c, a, g, m, cs, x)
    ensures Renewed(x, y) && Bounded(c, FeedPacket(c, a, cs).a, GlueRun(g, cs), y)
    ensures |FeedPacket(c, a, cs).outs| < |GlueOuts(g, cs)| + Owed(y)
    decreases |cs|
  {
    hide Process, Inv, Remembers, Torn, SizedChunk, Recall, Begin, GlueNext, Follows, Restart, Recent, Spent, Forgets;
    var b, h := Process(c, a, cs[0]).a, GlueNext(g, cs[0]);
    InOrderStep(c, a, g, m, cs[0]);
    var z := x;
    if x.Forgotten? {
      z := RestStep(c, a, g, cs[0], x);
    }
    if cs[0].last && !Begin(m, cs[0]).whole {
      y := RestPacket(c, b, h, cs[1..], z);
    } else {
      y := LossPacket(c, b, h, Recall(c.numChunks, m, cs[0]), cs[1..], 0, z);
    }
  }

  ghost predicate AllPrepared(c: Config, a: Asm, g: Glue, m: Memory, ps: seq<seq<Chunk>>, x: Reason) {
    match x
    case Forgotten(w, k) => k == 0 && Bounded(c, a, g, x) && forall i :: 0 <= i < |ps| ==> |ps[i]| <= w
    case Unabandoned(spent) => !spent && UnbrokenAfter(c.numChunks, m, g, Flatten(ps))
  }

  /** When a frame ends that was not heard whole, fewer frames come out than end. */
  lemma {:induction false} LossPackets(c: Config, a: Asm, g: Glue, m: Memory, ps: seq<seq<Chunk>>, x: Reason)
    returns (y: Reason)
    requires Tracks(c, a, g, m, 1) && (forall i :: 0 <= i < |ps| ==> ps[i] != [])
    requires InOrder(g, Flatten(ps)) && Sized(c, g, Flatten(ps))
    requires !Clean(c.numChunks, m, Flatten(ps)) && AllPrepared(c, a, g, m, ps, x)
    ensures y.Forgotten? == x.Forgotten? && Bounded(c, FeedPackets(c, a, ps).a, GlueRun(g, Flatten(ps)), y)
    ensures |FeedPackets(c, a, ps).outs| < |GlueOuts(g, Flatten(ps))| + Owed(y)
    decreases |ps|
  {
    hide Inv, Remembers, Torn, InOrder, Sized, Unbroken, UnbrokenAfter, Bounded, FeedPacket, GlueRun, RecallRun;
    var rest := Flatten(ps[1..]);
    GlueAppend(g, ps[0], rest);
    SizedAppend(c, g, ps[0], rest);
    CleanAppend(c.numChunks, m, ps[0], rest);
    UnbrokenAfterAppend(c.numChunks, m, g, ps[0], rest);
    OneFrame(c, a);
    var b, h := FeedPacket(c, a, ps[0]).a, GlueRun(g, ps[0]);
    if Clean(c.numChunks, m, ps[0]) {
      InOrderPacket(c, a, g, m, ps[0], 1);
      var z := x;
      if x.Forgotten? {
        z := RestPacket(c, a, g, ps[0], x);
      }
      y := LossPackets(c, b, h, RecallRun(c.numChunks, m, ps[0]), ps[1..], z);
    } else {
      var z := LossPacket(c, a, g, m, ps[0], 1, x);
      y := RestPackets(c, b, h, ps[1..], z);
    }
  }
}
