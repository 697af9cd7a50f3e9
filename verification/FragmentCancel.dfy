/** A cancel that comes when part of a frame has already been written leaves its id in use. */
module FragmentCancel {
  // The next frame begins with the same id; the assembler takes it for more of the abandoned one and drops it.

  import opened Bytes
  import opened FragmentProto
  import opened FragmentInOrder
  import opened FragmentLoss
  import opened FragmentRoundTrip
  import opened Tiling
  import opened Wrappers
  import A = FragmentAssembler
  import D = FragmentDisassembler
  import E = FragmentEmission
  import O = FragmentAnyOrder

  // ----- the next frame under an id in use is lost, whatever else is in the pool -----

  ghost predicate TornPool(c: A.Config, a: A.Asm, id: nat, n: nat)
    requires A.Inv(c, a)
  {
    n > 0 && (id in a.tree ==> TornEntry(a.entries[a.tree[id]], n))
  }

  lemma TornTarget(c: A.Config, a: A.Asm, id: nat, n: nat)
    requires A.Inv(c, a) && TornPool(c, a, id, n)
    ensures TornEntry(A.TargetEntry(c, a, id), n)
  {
    hide A.TargetEntry, A.PoolOk, A.Open;
    if E.HasEntry(c, a, id) {
      E.LiveTarget(c, a, id);
    } else {
      E.FreshTarget(c, a, id);
    }
  }

  lemma TornPiece(c: A.Config, a: A.Asm, ch: Chunk, n: nat)
    requires A.Inv(c, a) && TornEntry(A.TargetEntry(c, a, ch.id), n) && ch.start == n && A.InBounds(c, ch)
    ensures var r := A.Process(c, a, ch);
      r.out.None? && (!ch.last && ch.data != [] ==> TornPool(c, r.a, ch.id, ch.End()))
  {
    hide A.TargetEntry, A.Process, A.AddChunk, A.PoolOk, A.Open, TornEntry;
    TornAdd(c, A.TargetEntry(c, a, ch.id), n, ch, a.time);
    E.ProcessLeaves(c, a, ch);
  }

  lemma TornElse(c: A.Config, a: A.Asm, id: nat, n: nat, e: E.Event)
    requires A.Inv(c, a) && TornPool(c, a, id, n) && !(e.Got? && e.ch.id == id)
    ensures TornPool(c, O.Apply(c, a, e), id, n)
  {
    hide A.Process, A.AddChunk, A.Tick, A.Open, A.Locate, A.TargetEntry;
    match e
    case Got(ch) =>
      if A.InBounds(c, ch) {
        E.ProcessLeaves(c, a, ch);
        E.LocateFrame(c, a, ch.id);
      } else {
        E.NothingDone(c, a, ch);
      }
    case EndPacket => A.TickAges(c, a);
  }

  /** The pieces from the `i`th on are still to come. */
  lemma {:induction false} TornRest(c: A.Config, a: A.Asm, es: seq<E.Event>, ps: seq<Chunk>, id: nat, frame: seq<byte>, i: nat)
    requires A.Inv(c, a) && O.IsSplit(ps, id, frame) && |frame| <= c.outputMtu && i <= |ps| && O.ChunksOf(es, id) == ps[i..]
    requires i < |ps| ==> TornPool(c, a, id, ps[i].start)
    ensures O.FramesOf(c, a, es, id) == []
    decreases |es|
  {
    hide A.Process, A.Inv, A.TargetEntry, TornEntry, TornPool;
    if es != [] {
      if es[0].Got? && es[0].ch.id == id {
        assert es[0].ch == O.ChunksOf(es, id)[0] == ps[i] && O.ChunksOf(es[1..], id) == ps[i..][1..] == ps[i + 1..];
        TornTarget(c, a, id, ps[i].start);
        TornPiece(c, a, ps[i], ps[i].start);
        TornRest(c, O.Apply(c, a, es[0]), es[1..], ps, id, frame, i + 1);
      } else {
        assert O.ChunksOf(es, id) == O.ChunksOf(es[1..], id);
        if i < |ps| {
          TornElse(c, a, id, ps[i].start, es[0]);
        }
        TornRest(c, O.Apply(c, a, es[0]), es[1..], ps, id, frame, i);
      }
    }
  }

  /**
  When a frame begins while `id` has a live entry that holds bytes and has no end, nothing comes out for `id`: not with its
  first chunk, and not with any later one, whatever other chunks and packet ends come between them.
  */
  lemma {:induction false} TornFrameLost(c: A.Config, a: A.Asm, es: seq<E.Event>, ps: seq<Chunk>, id: nat, frame: seq<byte>)
    requires A.Inv(c, a) && O.IsSplit(ps, id, frame) && |frame| <= c.outputMtu
    requires E.HasEntry(c, a, id) && a.entries[a.tree[id]].length < 0 && a.entries[a.tree[id]].sum > 0
    requires es != [] && es[0] == E.Got(ps[0]) && O.ChunksOf(es, id) == ps
    ensures O.FramesOf(c, a, es, id) == []
  {
    hide A.Process, A.Inv, A.TargetEntry, TornPool;
    E.LiveTarget(c, a, id);
    TornPiece(c, a, ps[0], 0);
    assert O.ChunksOf(es[1..], id) == ps[1..];
    TornRest(c, O.Apply(c, a, es[0]), es[1..], ps, id, frame, 1);
  }

  // ----- exactly when the round trip holds -----

  /** Every frame that ends in the run began when nothing was held of an abandoned one. */
  ghost predicate HeardWhole(p: D.Params, c: A.Config, es: seq<D.Event>)
    requires p.Valid() && Legal(p, IDLE, es)
  {
    Clean(c.numChunks, NOTHING, Stream(p, IDLE, es))
  }

  /** The frames of the run fit the assembler. */
  ghost predicate AllFit(p: D.Params, c: A.Config, es: seq<D.Event>)
    requires p.Valid() && Legal(p, IDLE, es)
  {
    Sized(c, SILENT, Stream(p, IDLE, es))
  }

  lemma {:induction false} SizeCounts(cs: seq<Chunk>)
    ensures HEADER * |cs| <= D.Size(cs)
  {
    if cs != [] {
      SizeCounts(cs[..|cs| - 1]);
    }
  }

  lemma PacketsShort(p: D.Params, es: seq<D.Event>)
    requires p.Valid() && Legal(p, IDLE, es)
    ensures forall i :: 0 <= i < |Sent(p, IDLE, es)| ==> |Sent(p, IDLE, es)[i]| <= p.outputMtu / HEADER
  {
    hide Legal, D.Inv, Sent;
    IdleOk(p);
    var ps := Sent(p, IDLE, es);
    forall i | 0 <= i < |ps|
      ensures |ps[i]| <= p.outputMtu / HEADER
    {
      SizeCounts(ps[i]);
    }
  }

  lemma FlushedSent(p: D.Params, es: seq<D.Event>)
    requires p.Valid() && Legal(p, IDLE, es) && Flushed(Final(p, IDLE, es))
    ensures Flatten(Sent(p, IDLE, es)) == Stream(p, IDLE, es)
    ensures InOrder(SILENT, Stream(p, IDLE, es)) && GlueOuts(SILENT, Stream(p, IDLE, es)) == Kept(es)
  {
    hide Legal, D.Inv, Sent, Final, Stream, Flatten, InOrder, GlueOuts, KeptFrom;
    IdleOk(p);
    SentInOrder(p, es);
    assert Flatten(Sent(p, IDLE, es)) + [] == Flatten(Sent(p, IDLE, es));
  }

  /** With a frame not heard whole, fewer frames come out than were kept. */
  lemma LossInRun(p: D.Params, c: A.Config, junk: seq<A.Entry>, es: seq<D.Event>, x: Reason) returns (y: Reason)
    requires p.Valid() && Pool(c, junk) && Legal(p, IDLE, es) && Flushed(Final(p, IDLE, es)) && AllFit(p, c, es)
    requires !HeardWhole(p, c, es)
    requires if x.Forgotten? then x == Forgotten(p.outputMtu / HEADER, 0) && Forgets(c, x.w)
             else !x.spent && UnbrokenAfter(c.numChunks, NOTHING, SILENT, Stream(p, IDLE, es))
    ensures y.Forgotten? == x.Forgotten? && (y.Unabandoned? && y.spent ==> GlueRun(SILENT, Stream(p, IDLE, es)).cur != [])
    ensures |Emitted(p, c, junk, es)| < |Kept(es)| + Owed(y)
  {
    hide Legal, D.Inv, Sent, Final, Stream, Flatten, InOrder, GlueOuts, GlueRun, KeptFrom, Clean, Sized, UnbrokenAfter, Tracks;
    IdleOk(p);
    FlushedSent(p, es);
    PacketsShort(p, es);
    UnwireWire(Sent(p, IDLE, es));
    StartedTracks(c, junk);
    y := LossPackets(c, E.Started(c, junk), SILENT, NOTHING, Sent(p, IDLE, es), x);
  }

  /**
  The round trip of a run that leaves nothing unsent holds exactly when every frame that ends was heard whole; when one
  was not, fewer frames come out than were kept.
  */
  lemma RoundTripExact(p: D.Params, c: A.Config, junk: seq<A.Entry>, es: seq<D.Event>)
    requires p.Valid() && Pool(c, junk) && Legal(p, IDLE, es) && Flushed(Final(p, IDLE, es)) && AllFit(p, c, es)
    requires Forgets(c, p.outputMtu / HEADER)
    ensures Emitted(p, c, junk, es) == Kept(es) <==> HeardWhole(p, c, es)
    ensures !HeardWhole(p, c, es) ==> |Emitted(p, c, junk, es)| < |Kept(es)|
  {
    hide Legal, D.Inv, Sent, Final, Stream, Flatten, InOrder, GlueOuts, GlueRun, KeptFrom, Clean, Sized, Emitted, Forgets;
    IdleOk(p);
    FlushedSent(p, es);
    if HeardWhole(p, c, es) {
      RoundTrip(p, c, junk, es);
    } else {
      var y := LossInRun(p, c, junk, es, Forgotten(p.outputMtu / HEADER, 0));
    }
  }

  /** The client's own configuration: four frames, no chunk limit, chunks by MaxChunks, packets of at most 65535 bytes. */
  lemma RoundTripOfClient(p: D.Params, c: A.Config, junk: seq<A.Entry>, es: seq<D.Event>)
    requires p.Valid() && Pool(c, junk) && Legal(p, IDLE, es) && Flushed(Final(p, IDLE, es))
    requires p.chunkMtu < 0 && p.inputMtu <= c.outputMtu && c.numChunks == MaxChunks(p.outputMtu, p.inputMtu)
    requires c.numFrames == 4 && p.outputMtu <= 0xFFFF
    ensures Emitted(p, c, junk, es) == Kept(es) <==> HeardWhole(p, c, es)
  {
    hide Legal, D.Inv, Sent, Final, Stream, Flatten, InOrder, GlueOuts, GlueRun, KeptFrom, Clean, Sized, Emitted;
    IdleOk(p);
    FlushedSent(p, es);
    UnlimitedSized(p, c, es);
    RoundTripExact(p, c, junk, es);
  }

  // ----- one late cancel -----

  lemma {:induction false} RunAppend(p: D.Params, s: D.Dis, xs: seq<D.Event>, ys: seq<D.Event>)
    requires D.Inv(p, s) && Legal(p, s, xs) && Legal(p, Final(p, s, xs), ys)
    ensures Legal(p, s, xs + ys) && Final(p, s, xs + ys) == Final(p, Final(p, s, xs), ys)
    ensures Stream(p, s, xs + ys) == Stream(p, s, xs) + Stream(p, Final(p, s, xs), ys)
    decreases |xs|
  {
    hide D.Inv, D.Enabled, D.Step, Written;
    if xs == [] {
      assert xs + ys == ys;
    } else {
      RunAppend(p, D.Step(p, s, xs[0]).s, xs[1..], ys);
      assert (xs + ys)[1..] == xs[1..] + ys;
    }
  }

  /** A frame heard whole is held chunk by chunk. */
  ghost predicate Filed(g: Glue, m: Memory) {
    m.whole ==> |m.held| == g.count && Within(m.held, |g.cur|) && (g.cur != [] ==> m.held != [])
  }

  lemma {:induction false} FiledRun(c: A.Config, g: Glue, m: Memory, cs: seq<Chunk>)
    requires Filed(g, m) && InOrder(g, cs) && Sized(c, g, cs)
    ensures Filed(GlueRun(g, cs), RecallRun(c.numChunks, m, cs))
    decreases |cs|
  {
    if cs != [] {
      FiledStep(c, g, m, cs[0]);
      FiledRun(c, GlueNext(g, cs[0]), Recall(c.numChunks, m, cs[0]), cs[1..]);
    }
  }

  lemma FiledStep(c: A.Config, g: Glue, m: Memory, ch: Chunk)
    requires Filed(g, m) && Follows(g, ch) && SizedChunk(c, Restart(g, ch), ch)
    ensures Filed(GlueNext(g, ch), Recall(c.numChunks, m, ch))
  {
    var b := Begin(m, ch);
    assert b.whole ==> Within(b.held, ch.start) && !Touches(b.held, A.ExtentOf(ch)) by {
      assert forall i :: 0 <= i < |b.held| ==> b.held[i] in b.held;
    }
  }

  /** Between frames something is held of an abandoned one; a frame being written is not heard whole. */
  ghost predicate Dirty(s: D.Dis, m: Memory) {
    if s.input.Some? && s.used > 0 then !m.whole else m.held != []
  }

  lemma {:induction false} SplitTorn(p: D.Params, frame: seq<byte>, used: nat, room: nat, n: nat, m: Memory, g: Glue)
    requires p.Valid() && used <= |frame| && room > HEADER
    requires if used > 0 then !m.whole else m.held != []
    ensures var cs := D.Split(p, frame, g.id, used, room);
      && UnbrokenAfter(n, m, g, cs) && (Clean(n, m, cs) <==> Stop(p, frame, g.id, used, room) < |frame|)
      && (Clean(n, m, cs) ==> !RecallRun(n, m, cs).whole)
    decreases |frame| - used
  {
    hide D.NextChunk, D.Split, Stop, Touches;
    SplitOne(p, frame, g.id, used, room);
    var ch := D.NextChunk(p, frame, g.id, used, room);
    CleanOne(n, m, ch);
    assert [ch][1..] == [];
    assert UnbrokenAfter(n, m, g, [ch]);
    var room' := room - HEADER - |ch.data|;
    if ch.End() < |frame| && room' > HEADER {
      var rest := D.Split(p, frame, g.id, ch.End(), room');
      SplitTorn(p, frame, ch.End(), room', n, Recall(n, m, ch), GlueNext(g, ch));
      CleanAppend(n, m, [ch], rest);
      UnbrokenAfterAppend(n, m, g, [ch], rest);
      GlueOne(g, ch);
    }
  }

  /** What one call leaves: the abandoned frame still in the way, or the first frame after it ended and lost. */
  ghost predicate TornBy(s: D.Dis, n: nat, m: Memory, g: Glue, w: seq<Chunk>) {
    && UnbrokenAfter(n, m, g, w) && (Clean(n, m, w) <==> GlueOuts(g, w) == [])
    && (if Clean(n, m, w) then Dirty(s, RecallRun(n, m, w)) else s.input.None? && GlueRun(g, w).cur == [])
  }

  lemma WriteTorn(p: D.Params, s: D.Dis, n: nat, m: Memory, g: Glue)
    requires p.Valid() && s.id < 0x1_0000 && s.input.Some? && s.packet.Some?
    requires s.used <= |s.input.value| <= p.inputMtu && D.Room(p, s.packet.value) > HEADER
    requires Heard(s, g) && Dirty(s, m) && (s.used > 0 ==> s.used < |s.input.value|)
    ensures TornBy(D.Write(p, s).s, n, m, g, D.Split(p, s.input.value, s.id, s.used, D.Room(p, s.packet.value)))
  {
    hide D.Split, D.NextChunk, D.Size, InOrder, GlueOuts, GlueRun, Clean, UnbrokenAfter, RecallRun;
    var frame, room := s.input.value, D.Room(p, s.packet.value);
    var t := D.Write(p, s).s;
    SplitTorn(p, frame, s.used, room, n, m, g);
    SplitFollowed(p, frame, s.used, room, g);
    SplitLeaves(p, frame, s.used, room, g);
    D.SplitShape(p, frame, s.id, s.used, room);
    assert t.used == Stop(p, frame, s.id, s.used, room) && (t.input.Some? <==> t.used < |frame|);
    assert t.input.Some? ==> t.used > 0;
  }

  lemma StepTorn(p: D.Params, s: D.Dis, e: D.Event, n: nat, m: Memory, g: Glue)
    requires D.Inv(p, s) && D.Enabled(p, s, e) && Heard(s, g) && Dirty(s, m) && (e.Cancel? ==> s.used == 0)
    ensures TornBy(D.Step(p, s, e).s, n, m, g, Written(p, s, e))
  {
    hide D.Write, D.Split;
    assert D.Size([]) == 0;
    if e.Input? && s.packet.Some? {
      WriteTorn(p, s.(input := Some(e.frame), used := 0), n, m, g);
    } else if e.Recv? && s.input.Some? {
      WriteTorn(p, s.(packet := Some([])), n, m, g);
    }
  }

  // ----- nothing is abandoned without late cancels -----

  /** Between frames the listener has heard nothing of the next. */
  ghost predicate Fresh(s: D.Dis, g: Glue) {
    Heard(s, g) && ((s.input.Some? && s.used > 0) || g.cur == [])
  }

  lemma {:induction false} SplitUnbroken(p: D.Params, frame: seq<byte>, used: nat, room: nat, g: Glue)
    requires p.Valid() && used <= |frame| && room > HEADER && g.cur == frame[..used]
    ensures Unbroken(g, D.Split(p, frame, g.id, used, room))
    decreases |frame| - used
  {
    hide D.NextChunk, D.Split, Stop;
    SplitOne(p, frame, g.id, used, room);
    var ch := D.NextChunk(p, frame, g.id, used, room);
    assert [ch][1..] == [];
    assert Unbroken(g, [ch]);
    var room' := room - HEADER - |ch.data|;
    if ch.End() < |frame| && room' > HEADER {
      assert Restart(g, ch).cur + ch.data == frame[..ch.End()];
      SplitUnbroken(p, frame, ch.End(), room', GlueNext(g, ch));
      UnbrokenAppend(g, [ch], D.Split(p, frame, g.id, ch.End(), room'));
      GlueOne(g, ch);
    }
  }

  lemma WriteUnbroken(p: D.Params, s: D.Dis, g: Glue)
    requires p.Valid() && s.id < 0x1_0000 && s.input.Some? && s.packet.Some?
    requires s.used <= |s.input.value| <= p.inputMtu && D.Room(p, s.packet.value) > HEADER && Fresh(s, g)
    ensures var w := D.Split(p, s.input.value, s.id, s.used, D.Room(p, s.packet.value));
      Unbroken(g, w) && Fresh(D.Write(p, s).s, GlueRun(g, w))
  {
    hide D.Split, D.NextChunk, D.Size, InOrder, GlueOuts, GlueRun, Unbroken;
    SplitUnbroken(p, s.input.value, s.used, D.Room(p, s.packet.value), g);
    SplitLeaves(p, s.input.value, s.used, D.Room(p, s.packet.value), g);
    D.SplitShape(p, s.input.value, s.id, s.used, D.Room(p, s.packet.value));
  }

  lemma StepUnbroken(p: D.Params, s: D.Dis, e: D.Event, g: Glue)
    requires D.Inv(p, s) && D.Enabled(p, s, e) && Fresh(s, g) && (e.Cancel? ==> s.used == 0)
    ensures Unbroken(g, Written(p, s, e)) && Fresh(D.Step(p, s, e).s, GlueRun(g, Written(p, s, e)))
  {
    hide D.Write, D.Split;
    assert D.Size([]) == 0;
    if e.Input? && s.packet.Some? {
      WriteUnbroken(p, s.(input := Some(e.frame), used := 0), g);
    } else if e.Recv? && s.input.Some? {
      WriteUnbroken(p, s.(packet := Some([])), g);
    }
  }

  lemma {:induction false} EarlyUnbroken(p: D.Params, s: D.Dis, es: seq<D.Event>, g: Glue)
    requires D.Inv(p, s) && Legal(p, s, es) && EarlyCancels(p, s, es) && Fresh(s, g)
    ensures Unbroken(g, Stream(p, s, es)) && Fresh(Final(p, s, es), GlueRun(g, Stream(p, s, es)))
    decreases |es|
  {
    hide D.Inv, Written, Fresh;
    if es != [] {
      var t, w := D.Step(p, s, es[0]).s, Written(p, s, es[0]);
      StepUnbroken(p, s, es[0], g);
      EarlyUnbroken(p, t, es[1..], GlueRun(g, w));
      UnbrokenAppend(g, w, Stream(p, t, es[1..]));
      GlueAppend(g, w, Stream(p, t, es[1..]));
    }
  }

  /** With an abandoned frame in the way, the stream is heard whole only if no frame ends in it. */
  lemma {:induction false} TornRun(p: D.Params, s: D.Dis, es: seq<D.Event>, n: nat, m: Memory, g: Glue)
    requires D.Inv(p, s) && Legal(p, s, es) && EarlyCancels(p, s, es) && Heard(s, g) && Dirty(s, m)
    ensures var w := Stream(p, s, es);
      && UnbrokenAfter(n, m, g, w) && (Clean(n, m, w) <==> GlueOuts(g, w) == [])
      && (!Clean(n, m, w) ==> Fresh(Final(p, s, es), GlueRun(g, w)))
    decreases |es|
  {
    hide D.Inv, Written, Dirty, Heard, Recall, Begin, Unbroken;
    if es != [] {
      var t, w := D.Step(p, s, es[0]).s, Written(p, s, es[0]);
      var rest := Stream(p, t, es[1..]);
      StepTorn(p, s, es[0], n, m, g);
      StepHeard(p, s, es[0], g, []);
      CleanAppend(n, m, w, rest);
      UnbrokenAfterAppend(n, m, g, w, rest);
      GlueAppend(g, w, rest);
      if Clean(n, m, w) {
        TornRun(p, t, es[1..], n, RecallRun(n, m, w), GlueRun(g, w));
      } else {
        EarlyUnbroken(p, t, es[1..], GlueRun(g, w));
      }
    }
  }

  /** The run `xs`, after which a part-written frame is cancelled, and `ys`; no other cancel is late. */
  ghost predicate OneLate(p: D.Params, xs: seq<D.Event>, ys: seq<D.Event>)
    requires p.Valid()
  {
    && Legal(p, IDLE, xs) && EarlyCancels(p, IDLE, xs)
    && var s := Final(p, IDLE, xs);
    && s.input.Some? && s.used > 0
    && var t := D.Step(p, s, D.Cancel).s;
    Legal(p, t, ys) && EarlyCancels(p, t, ys) && Flushed(Final(p, t, ys))
  }

  lemma OneLateRun(p: D.Params, xs: seq<D.Event>, ys: seq<D.Event>)
    requires p.Valid() && OneLate(p, xs, ys)
    ensures var es := xs + ([D.Cancel] + ys);
      var s := Final(p, IDLE, xs);
      var t := D.Step(p, s, D.Cancel).s;
      && Legal(p, IDLE, es) && Flushed(Final(p, IDLE, es))
      && Stream(p, IDLE, es) == Stream(p, IDLE, xs) + Stream(p, t, ys)
  {
    hide D.Split, D.Write, EarlyCancels;
    IdleOk(p);
    var s := Final(p, IDLE, xs);
    var t := D.Step(p, s, D.Cancel).s;
    assert ([D.Cancel] + ys)[1..] == ys;
    assert Legal(p, s, [D.Cancel] + ys) && Final(p, s, [D.Cancel] + ys) == Final(p, t, ys);
    assert Stream(p, s, [D.Cancel] + ys) == [] + Stream(p, t, ys) == Stream(p, t, ys);
    RunAppend(p, IDLE, xs, [D.Cancel] + ys);
  }

  /** What a run with one late cancel leaves out: it is heard whole if and only if no frame is kept after the cancel. */
  lemma OneLateHeard(p: D.Params, c: A.Config, xs: seq<D.Event>, ys: seq<D.Event>)
    requires p.Valid() && OneLate(p, xs, ys)
    requires Legal(p, IDLE, xs + ([D.Cancel] + ys)) && AllFit(p, c, xs + ([D.Cancel] + ys))
    ensures var w := Stream(p, IDLE, xs + ([D.Cancel] + ys));
      && (HeardWhole(p, c, xs + ([D.Cancel] + ys)) <==> Kept(ys) == [])
      && UnbrokenAfter(c.numChunks, NOTHING, SILENT, w)
      && (Kept(ys) != [] ==> GlueRun(SILENT, w).cur == [])
  {
    hide D.Inv, D.Write, Legal, EarlyCancels, Final, Stream, InOrder, Sized, Clean, UnbrokenAfter, GlueRun,
         GlueOuts, RecallRun, KeptFrom;
    IdleOk(p);
    OneLateRun(p, xs, ys);
    var s := Final(p, IDLE, xs);
    var t := D.Step(p, s, D.Cancel).s;
    var n, v, w := c.numChunks, Stream(p, IDLE, xs), Stream(p, t, ys);
    var g, m := GlueRun(SILENT, v), RecallRun(n, NOTHING, v);
    CancelStep(p, s);
    SizedAppend(c, SILENT, v, w);
    StreamInOrder(p, IDLE, xs, SILENT, []);
    FiledRun(c, SILENT, NOTHING, v);
    EarlyClean(p, IDLE, xs, n, NOTHING);
    TornRun(p, t, ys, n, m, g);
    StreamInOrder(p, t, ys, g, []);
    CleanAppend(n, NOTHING, v, w);
    UnbrokenAfterAppend(n, NOTHING, SILENT, v, w);
    CleanUnbroken(n, NOTHING, SILENT, v);
    GlueAppend(SILENT, v, w);
    assert [] + Opt(t.input) == [] && [] + GlueOuts(g, w) + [] == GlueOuts(g, w);
  }

  lemma CancelStep(p: D.Params, s: D.Dis)
    requires D.Inv(p, s) && s.input.Some?
    ensures D.Enabled(p, s, D.Cancel) && D.Step(p, s, D.Cancel).s == s.(input := None)
  {
  }

  lemma {:induction false} CleanUnbroken(n: nat, m: Memory, g: Glue, cs: seq<Chunk>)
    requires Clean(n, m, cs)
    ensures UnbrokenAfter(n, m, g, cs)
    decreases |cs|
  {
    if cs != [] {
      CleanUnbroken(n, Recall(n, m, cs[0]), GlueNext(g, cs[0]), cs[1..]);
    }
  }

  /** One late cancel, in any configuration: the round trip holds exactly when no frame is kept after it. */
  lemma OneLateCancel(p: D.Params, c: A.Config, junk: seq<A.Entry>, xs: seq<D.Event>, ys: seq<D.Event>)
    requires p.Valid() && Pool(c, junk) && OneLate(p, xs, ys)
    requires Legal(p, IDLE, xs + ([D.Cancel] + ys)) && AllFit(p, c, xs + ([D.Cancel] + ys))
    ensures var es := xs + ([D.Cancel] + ys);
      && (Emitted(p, c, junk, es) == Kept(es) <==> Kept(ys) == [])
      && (Kept(ys) != [] ==> |Emitted(p, c, junk, es)| < |Kept(es)|)
  {
    hide D.Inv, Legal, EarlyCancels, Final, Stream, InOrder, Sized, Clean, UnbrokenAfter, GlueRun, GlueOuts,
         RecallRun, KeptFrom, Emitted, Sent, Flatten;
    IdleOk(p);
    var es := xs + ([D.Cancel] + ys);
    OneLateRun(p, xs, ys);
    OneLateHeard(p, c, xs, ys);
    FlushedSent(p, es);
    if Kept(ys) == [] {
      RoundTrip(p, c, junk, es);
    } else {
      var y := LossInRun(p, c, junk, es, Unabandoned(false));
    }
  }

  // ----- such a run -----

  const CARRIER: D.Params := D.Params(4, 9, -1, false)
  const FIRST: seq<byte> := [1, 2, 3, 4]
  const SECOND: seq<byte> := [5, 6]
  const HALF: Chunk := Chunk(0, 0, false, [1, 2])
  const WHOLE: Chunk := Chunk(0, 0, true, [5, 6])

  function LateRun(): seq<D.Event> { [D.Recv] + ([D.Input(FIRST)] + ([D.Cancel] + ([D.Recv] + ([D.Input(SECOND)] + [])))) }

  lemma FirstSplit()
    ensures D.Split(CARRIER, FIRST, 0, 0, 9) == [HALF]
  {
    assert D.NextChunk(CARRIER, FIRST, 0, 0, 9) == HALF by {
      assert FIRST[0..2] == [1, 2];
    }
  }

  lemma SecondSplit()
    ensures D.Split(CARRIER, SECOND, 0, 0, 9) == [WHOLE]
  {
    assert D.NextChunk(CARRIER, SECOND, 0, 0, 9) == WHOLE by {
      assert SECOND[0..2] == SECOND;
    }
  }

  lemma SizeOne(ch: Chunk)
    ensures D.Size([]) == 0 && D.Size([] + [ch]) == HEADER + |ch.data|
  {
    assert ([] + [ch])[..0] == [];
  }

  lemma RunOne(p: D.Params, s: D.Dis, e: D.Event, es: seq<D.Event>)
    requires D.Inv(p, s) && D.Enabled(p, s, e) && Legal(p, D.Step(p, s, e).s, es)
    ensures Legal(p, s, [e] + es)
    ensures Final(p, s, [e] + es) == Final(p, D.Step(p, s, e).s, es)
    ensures Sent(p, s, [e] + es) == Opt(D.Step(p, s, e).sent) + Sent(p, D.Step(p, s, e).s, es)
  {
    hide D.Inv, D.Step;
    assert ([e] + es)[1..] == es;
  }

  lemma LateSteps()
    ensures D.Inv(CARRIER, IDLE)
    ensures D.Step(CARRIER, IDLE, D.Recv) == D.Outcome(D.Dis(None, 0, Some([]), 0, false), None)
    ensures D.Inv(CARRIER, D.Dis(None, 0, Some([]), 0, false))
    ensures D.Step(CARRIER, D.Dis(None, 0, Some([]), 0, false), D.Input(FIRST))
      == D.Outcome(D.Dis(Some(FIRST), 2, None, 0, false), Some([HALF]))
    ensures D.Inv(CARRIER, D.Dis(Some(FIRST), 2, None, 0, false))
    ensures D.Step(CARRIER, D.Dis(Some(FIRST), 2, None, 0, false), D.Cancel) == D.Outcome(D.Dis(None, 2, None, 0, false), None)
    ensures D.Inv(CARRIER, D.Dis(None, 2, None, 0, false))
    ensures D.Step(CARRIER, D.Dis(None, 2, None, 0, false), D.Recv) == D.Outcome(D.Dis(None, 2, Some([]), 0, false), None)
    ensures D.Inv(CARRIER, D.Dis(None, 2, Some([]), 0, false))
    ensures D.Step(CARRIER, D.Dis(None, 2, Some([]), 0, false), D.Input(SECOND))
      == D.Outcome(D.Dis(None, 2, None, 1, false), Some([WHOLE]))
    ensures D.Inv(CARRIER, D.Dis(None, 2, None, 1, false))
  {
    hide D.Split, D.Size;
    FirstSplit();
    SecondSplit();
    SizeOne(HALF);
    SizeOne(WHOLE);
    assert [] + [HALF] == [HALF] && [] + [WHOLE] == [WHOLE];
  }

  lemma LateRunSends()
    ensures CARRIER.Valid() && D.Inv(CARRIER, IDLE) && Legal(CARRIER, IDLE, LateRun())
    ensures Flushed(Final(CARRIER, IDLE, LateRun())) && Sent(CARRIER, IDLE, LateRun()) == [[HALF], [WHOLE]]
  {
    hide D.Inv, D.Step;
    LateSteps();
    RunOne(CARRIER, D.Dis(None, 2, Some([]), 0, false), D.Input(SECOND), []);
    RunOne(CARRIER, D.Dis(None, 2, None, 0, false), D.Recv, [D.Input(SECOND)] + []);
    RunOne(CARRIER, D.Dis(Some(FIRST), 2, None, 0, false), D.Cancel, [D.Recv] + ([D.Input(SECOND)] + []));
    RunOne(CARRIER, D.Dis(None, 0, Some([]), 0, false), D.Input(FIRST), [D.Cancel] + ([D.Recv] + ([D.Input(SECOND)] + [])));
    RunOne(CARRIER, IDLE, D.Recv, [D.Input(FIRST)] + ([D.Cancel] + ([D.Recv] + ([D.Input(SECOND)] + []))));
    assert [] + ([[HALF]] + ([] + ([] + ([[WHOLE]] + [])))) == [[HALF], [WHOLE]];
  }

  lemma LateRunKeeps()
    ensures Kept(LateRun()) == [SECOND]
  {
    var e1, e2, e3, e4, e5 := D.Recv, D.Input(FIRST), D.Cancel, D.Recv, D.Input(SECOND);
    assert ([e1] + ([e2] + ([e3] + ([e4] + ([e5] + [])))))[1..] == [e2] + ([e3] + ([e4] + ([e5] + [])));
    assert ([e2] + ([e3] + ([e4] + ([e5] + []))))[1..] == [e3] + ([e4] + ([e5] + []));
    assert ([e3] + ([e4] + ([e5] + [])))[1..] == [e4] + ([e5] + []);
    assert ([e4] + ([e5] + []))[1..] == [e5] + [] && ([e5] + [])[1..] == [];
    assert KeptAfter([], e2) == [FIRST] && KeptAfter([FIRST], e3) == [] && KeptAfter([], e5) == [SECOND];
    assert KeptFrom([], [e5] + []) == [SECOND];
    assert KeptFrom([], [e4] + ([e5] + [])) == [SECOND];
    assert KeptFrom([FIRST], [e3] + ([e4] + ([e5] + []))) == [SECOND];
  }

  /** Nothing comes out of the whole run, though its last frame was neither cancelled nor left unsent. */
  lemma LateCancelLosesFrame(c: A.Config, junk: seq<A.Entry>)
    requires Pool(c, junk) && c.outputMtu >= 4 && c.numChunks >= 3
    ensures CARRIER.Valid() && Legal(CARRIER, IDLE, LateRun()) && Flushed(Final(CARRIER, IDLE, LateRun()))
    ensures Emitted(CARRIER, c, junk, LateRun()) == [] && Kept(LateRun()) == [SECOND]
  {
    LateRunSends();
    LateRunKeeps();
    hide D.Inv, Legal, Final, Sent, A.Process, A.Inv, Tracks, InOrder, Sized, Clean, GlueOuts, GlueRun, UnbrokenAfter;
    assert HALF.Fits() && WHOLE.Fits();
    UnwireWire([[HALF], [WHOLE]]);
    StartedTracks(c, junk);
    TwoChunks(c);
    var y := LossPackets(c, E.Started(c, junk), SILENT, NOTHING, [[HALF], [WHOLE]], Unabandoned(false));
  }

  lemma TwoChunks(c: A.Config)
    requires c.outputMtu >= 4 && c.numChunks >= 3
    ensures var cs := [HALF, WHOLE];
      && Flatten([[HALF], [WHOLE]]) == cs && InOrder(SILENT, cs) && Sized(c, SILENT, cs) && |GlueOuts(SILENT, cs)| == 1
      && GlueRun(SILENT, cs).cur == [] && !Clean(c.numChunks, NOTHING, cs) && UnbrokenAfter(c.numChunks, NOTHING, SILENT, cs)
  {
    assert [[HALF], [WHOLE]][1..] == [[WHOLE]] && [[WHOLE]][1..] == [] && Flatten([[WHOLE]]) == [WHOLE] + Flatten([]);
    assert [HALF, WHOLE][1..] == [WHOLE] && [WHOLE][1..] == [];
    var m, g := Recall(c.numChunks, NOTHING, HALF), GlueNext(SILENT, HALF);
    assert m.held == [Extent(0, 2)] && g == Glue(0, [1, 2], 1);
    CleanOne(c.numChunks, m, WHOLE);
    assert InOrder(g, [WHOLE]) && Sized(c, g, [WHOLE]);
    assert GlueOuts(g, [WHOLE]) == GlueOut(g, WHOLE) + [] && GlueRun(g, [WHOLE]).cur == [];
    assert UnbrokenAfter(c.numChunks, m, g, [WHOLE]) by {
      assert Unbroken(GlueNext(g, WHOLE), []);
    }
  }
}
