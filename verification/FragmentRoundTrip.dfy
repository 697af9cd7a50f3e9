/** Splitting and reassembling over a network that delivers every packet in order gives back every frame, in order. */
module FragmentRoundTrip {
  import opened Bytes
  import opened FragmentProto
  import opened FragmentInOrder
  import opened Wrappers
  import A = FragmentAssembler
  import D = FragmentDisassembler
  import E = FragmentEmission

  // ----- one call of the splitter -----

  /** Where the splitter stops in the frame. */
  function Stop(p: D.Params, frame: seq<byte>, id: nat, used: nat, room: nat): nat
    requires p.Valid() && used <= |frame| && room > HEADER
  {
    var cs := D.Split(p, frame, id, used, room);
    cs[|cs| - 1].End()
  }

  /** The first chunk of a call, and the rest of it. */
  lemma SplitOne(p: D.Params, frame: seq<byte>, id: nat, used: nat, room: nat)
    requires p.Valid() && used <= |frame| && room > HEADER
    ensures var ch := D.NextChunk(p, frame, id, used, room);
      var room' := room - HEADER - |ch.data|;
      if ch.End() < |frame| && room' > HEADER then
        && D.Split(p, frame, id, used, room) == [ch] + D.Split(p, frame, id, ch.End(), room')
        && Stop(p, frame, id, used, room) == Stop(p, frame, id, ch.End(), room')
      else D.Split(p, frame, id, used, room) == [ch] && Stop(p, frame, id, used, room) == ch.End()
  {
    hide D.NextChunk;
  }

  /** A listener at offset `used` of the frame can follow the split, and hears the frame if it reaches the end. */
  lemma {:induction false} SplitFollowed(p: D.Params, frame: seq<byte>, used: nat, room: nat, g: Glue)
    requires p.Valid() && used <= |frame| <= p.inputMtu && room > HEADER && g.id < 0x1_0000
    requires used > 0 ==> used < |frame| && g.cur == frame[..used]
    ensures var cs := D.Split(p, frame, g.id, used, room);
      InOrder(g, cs) && GlueOuts(g, cs) == if Stop(p, frame, g.id, used, room) == |frame| then [frame] else []
    decreases |frame| - used
  {
    hide D.NextChunk, D.Split, Stop;
    SplitOne(p, frame, g.id, used, room);
    var ch := D.NextChunk(p, frame, g.id, used, room);
    assert Restart(g, ch).cur + ch.data == frame[..ch.End()];
    GlueOne(g, ch);
    assert frame[..|frame|] == frame;
    var room' := room - HEADER - |ch.data|;
    if ch.End() < |frame| && room' > HEADER {
      var rest := D.Split(p, frame, g.id, ch.End(), room');
      assert ([ch] + rest)[1..] == rest;
      SplitFollowed(p, frame, ch.End(), room', GlueNext(g, ch));
    }
  }

  lemma {:induction false} SplitLeaves(p: D.Params, frame: seq<byte>, used: nat, room: nat, g: Glue)
    requires p.Valid() && used <= |frame| <= p.inputMtu && room > HEADER && g.id < 0x1_0000
    requires used > 0 ==> g.cur == frame[..used]
    ensures var cs := D.Split(p, frame, g.id, used, room);
      var end := Stop(p, frame, g.id, used, room);
      var h := GlueRun(g, cs);
      && end <= |frame|
      && if end == |frame| then h == Glue((g.id + 1) % 0x1_0000, [], 0) else h.id == g.id && h.cur == frame[..end]
    decreases |frame| - used
  {
    hide D.NextChunk, D.Split, Stop;
    SplitOne(p, frame, g.id, used, room);
    var ch := D.NextChunk(p, frame, g.id, used, room);
    assert Restart(g, ch).cur + ch.data == frame[..ch.End()];
    GlueOne(g, ch);
    var room' := room - HEADER - |ch.data|;
    if ch.End() < |frame| && room' > HEADER {
      var rest := D.Split(p, frame, g.id, ch.End(), room');
      assert ([ch] + rest)[1..] == rest;
      SplitLeaves(p, frame, ch.End(), room', GlueNext(g, ch));
    }
  }

  lemma GlueOne(g: Glue, ch: Chunk)
    ensures InOrder(g, [ch]) <==> Follows(g, ch)
    ensures GlueRun(g, [ch]) == GlueNext(g, ch) && GlueOuts(g, [ch]) == GlueOut(g, ch)
  {
    assert [ch][1..] == [];
  }

  // ----- the splitter's runs -----

  /** `g` is where an in-order listener stands who has heard every chunk written so far. */
  ghost predicate Heard(s: D.Dis, g: Glue) {
    && g.id == s.id
    && (s.input.Some? ==> s.used <= |s.input.value| && (s.used > 0 ==> g.cur == s.input.value[..s.used]))
  }

  ghost predicate Legal(p: D.Params, s: D.Dis, es: seq<D.Event>)
    requires D.Inv(p, s)
    decreases |es|
  {
    es == [] || (D.Enabled(p, s, es[0]) && Legal(p, D.Step(p, s, es[0]).s, es[1..]))
  }

  function Final(p: D.Params, s: D.Dis, es: seq<D.Event>): (r: D.Dis)
    requires D.Inv(p, s) && Legal(p, s, es)
    ensures D.Inv(p, r)
    decreases |es|
  {
    if es == [] then s else Final(p, D.Step(p, s, es[0]).s, es[1..])
  }

  function Opt<T>(o: Option<T>): seq<T> {
    if o.Some? then [o.value] else []
  }

  function Sent(p: D.Params, s: D.Dis, es: seq<D.Event>): (ps: seq<seq<Chunk>>)
    requires D.Inv(p, s) && Legal(p, s, es)
    ensures forall i :: 0 <= i < |ps| ==> ps[i] != [] && D.Size(ps[i]) <= p.outputMtu && forall c :: c in ps[i] ==> c.Fits()
    decreases |es|
  {
    if es == [] then [] else Opt(D.Step(p, s, es[0]).sent) + Sent(p, D.Step(p, s, es[0]).s, es[1..])
  }

  /** The frames given to the splitter and not taken back; a cancel takes back the last one. */
  function KeptAfter(kept: seq<seq<byte>>, e: D.Event): seq<seq<byte>> {
    if e.Input? then kept + [e.frame] else if e.Cancel? && kept != [] then kept[..|kept| - 1] else kept
  }

  function KeptFrom(kept: seq<seq<byte>>, es: seq<D.Event>): seq<seq<byte>>
    decreases |es|
  {
    if es == [] then kept else KeptFrom(KeptAfter(kept, es[0]), es[1..])
  }

  function Kept(es: seq<D.Event>): seq<seq<byte>> { KeptFrom([], es) }

  /** The part-filled packet. */
  function Pending(s: D.Dis): seq<Chunk> {
    if s.packet.Some? then s.packet.value else []
  }

  /** The chunks one step adds to the stream, whether or not its packet leaves. */
  function Written(p: D.Params, s: D.Dis, e: D.Event): seq<Chunk>
    requires D.Inv(p, s) && D.Enabled(p, s, e)
  {
    if e.Input? && s.packet.Some? then D.Split(p, e.frame, s.id, 0, D.Room(p, s.packet.value))
    else if e.Recv? && s.input.Some? then D.Split(p, s.input.value, s.id, s.used, p.outputMtu)
    else []
  }

  lemma WriteWrites(p: D.Params, s: D.Dis)
    requires p.Valid() && s.input.Some? && s.packet.Some?
    requires s.used <= |s.input.value| && D.Room(p, s.packet.value) > HEADER
    ensures var r := D.Write(p, s);
      s.packet.value + D.Split(p, s.input.value, s.id, s.used, D.Room(p, s.packet.value))
      == (if r.sent.Some? then r.sent.value else []) + Pending(r.s)
  {
    hide D.Split, D.Room;
  }

  lemma StepWrites(p: D.Params, s: D.Dis, e: D.Event)
    requires D.Inv(p, s) && D.Enabled(p, s, e)
    ensures var r := D.Step(p, s, e);
      Pending(s) + Written(p, s, e) == (if r.sent.Some? then r.sent.value else []) + Pending(r.s)
  {
    hide D.Split, D.Write;
    assert D.Size([]) == 0;
    if e.Input? && s.packet.Some? {
      WriteWrites(p, s.(input := Some(e.frame), used := 0));
    } else if e.Recv? && s.input.Some? {
      WriteWrites(p, s.(packet := Some([])));
    }
  }

  /**
  A packet leaves exactly when the timer fires, or when something was written and it is full or may not wait; until then what
  was written waits in it for more.
  */
  lemma LeavesExactly(p: D.Params, s: D.Dis, e: D.Event)
    requires D.Inv(p, s) && D.Enabled(p, s, e)
    ensures var r := D.Step(p, s, e);
      var all := Pending(s) + Written(p, s, e);
      var leaves := if e.Timeout? then true else Written(p, s, e) != [] && (!p.latency || D.Room(p, all) <= HEADER);
      && (r.sent == if leaves then Some(all) else None)
      && (Pending(r.s) == if leaves then [] else all)
  {
    hide D.Split, D.Write;
    assert D.Size([]) == 0;
    if e.Input? && s.packet.Some? {
      WriteLeaves(p, s.(input := Some(e.frame), used := 0));
    } else if e.Recv? && s.input.Some? {
      WriteLeaves(p, s.(packet := Some([])));
    } else {
      assert Pending(s) + [] == Pending(s);
    }
  }

  lemma WriteLeaves(p: D.Params, s: D.Dis)
    requires p.Valid() && s.input.Some? && s.packet.Some?
    requires s.used <= |s.input.value| && D.Room(p, s.packet.value) > HEADER
    ensures var r := D.Write(p, s);
      var all := s.packet.value + D.Split(p, s.input.value, s.id, s.used, D.Room(p, s.packet.value));
      var leaves := !p.latency || D.Room(p, all) <= HEADER;
      r.sent == (if leaves then Some(all) else None) && Pending(r.s) == if leaves then [] else all
  {
    hide D.Split, D.Room;
  }

  /** What a call of the splitter leaves, seen by the listener. */
  lemma WriteHeard(p: D.Params, s: D.Dis, g: Glue)
    requires p.Valid() && s.id < 0x1_0000 && s.input.Some? && s.packet.Some?
    requires s.used <= |s.input.value| <= p.inputMtu && D.Room(p, s.packet.value) > HEADER
    requires Heard(s, g) && (s.used > 0 ==> s.used < |s.input.value|)
    ensures var w := D.Split(p, s.input.value, s.id, s.used, D.Room(p, s.packet.value));
      && InOrder(g, w) && Heard(D.Write(p, s).s, GlueRun(g, w))
      && Opt(s.input) == GlueOuts(g, w) + Opt(D.Write(p, s).s.input)
  {
    hide D.Split, D.NextChunk, InOrder, GlueRun, GlueOuts, D.Size;
    SplitFollowed(p, s.input.value, s.used, D.Room(p, s.packet.value), g);
    SplitLeaves(p, s.input.value, s.used, D.Room(p, s.packet.value), g);
    D.SplitShape(p, s.input.value, s.id, s.used, D.Room(p, s.packet.value));
  }

  lemma StepHeard(p: D.Params, s: D.Dis, e: D.Event, g: Glue, done: seq<seq<byte>>)
    requires D.Inv(p, s) && D.Enabled(p, s, e) && Heard(s, g)
    ensures var w := Written(p, s, e);
      && InOrder(g, w) && Heard(D.Step(p, s, e).s, GlueRun(g, w))
      && KeptAfter(done + Opt(s.input), e) == done + GlueOuts(g, w) + Opt(D.Step(p, s, e).s.input)
  {
    hide D.Write, D.Split, InOrder, GlueRun, GlueOuts;
    assert D.Size([]) == 0;
    GlueNone(0, g, NOTHING);
    match e
    case Input(frame) =>
      assert done + Opt(s.input) == done;
      if s.packet.Some? {
        WriteHeard(p, s.(input := Some(frame), used := 0), g);
        assert done + [frame] == done + (GlueOuts(g, Written(p, s, e)) + Opt(D.Step(p, s, e).s.input));
      }
    case Recv =>
      if s.input.Some? {
        WriteHeard(p, s.(packet := Some([])), g);
        assert done + Opt(s.input) == done + (GlueOuts(g, Written(p, s, e)) + Opt(D.Step(p, s, e).s.input));
      }
    case Timeout =>
    case Cancel =>
      var kept := done + Opt(s.input);
      assert kept[..|kept| - 1] == done;
  }

  /** Every chunk a run writes, in order. */
  function Stream(p: D.Params, s: D.Dis, es: seq<D.Event>): seq<Chunk>
    requires D.Inv(p, s) && Legal(p, s, es)
    decreases |es|
  {
    if es == [] then [] else Written(p, s, es[0]) + Stream(p, D.Step(p, s, es[0]).s, es[1..])
  }

  lemma Chain<T>(a: seq<T>, v: seq<T>, o: seq<T>, b: seq<T>, w: seq<T>, f: seq<T>, z: seq<T>)
    requires a + v == o + b && b + w == f + z
    ensures a + (v + w) == (o + f) + z
  {
    assert a + (v + w) == (a + v) + w;
    assert (o + b) + w == o + (b + w);
    assert (o + f) + z == o + (f + z);
  }

  lemma FlattenSent(o: Option<seq<Chunk>>, ps: seq<seq<Chunk>>)
    ensures Flatten(Opt(o) + ps) == (if o.Some? then o.value else []) + Flatten(ps)
  {
    if o.Some? {
      assert ([o.value] + ps)[1..] == ps;
    } else {
      assert [] + ps == ps;
    }
  }

  /** The packets sent, and the one being filled, hold the stream and nothing else. */
  lemma {:induction false} PacketsHoldStream(p: D.Params, s: D.Dis, es: seq<D.Event>)
    requires D.Inv(p, s) && Legal(p, s, es)
    ensures Pending(s) + Stream(p, s, es) == Flatten(Sent(p, s, es)) + Pending(Final(p, s, es))
    decreases |es|
  {
    if es != [] {
      var t := D.Step(p, s, es[0]);
      StepWrites(p, s, es[0]);
      PacketsHoldStream(p, t.s, es[1..]);
      FlattenSent(t.sent, Sent(p, t.s, es[1..]));
      Chain(Pending(s), Written(p, s, es[0]), if t.sent.Some? then t.sent.value else [], Pending(t.s),
            Stream(p, t.s, es[1..]), Flatten(Sent(p, t.s, es[1..])), Pending(Final(p, s, es)));
    }
  }

  /** Whatever is cancelled, a listener hears the frames kept, in order, all but one that is still being written. */
  lemma {:induction false} StreamInOrder(p: D.Params, s: D.Dis, es: seq<D.Event>, g: Glue, done: seq<seq<byte>>)
    requires D.Inv(p, s) && Legal(p, s, es) && Heard(s, g)
    ensures var w := Stream(p, s, es);
      && InOrder(g, w) && Heard(Final(p, s, es), GlueRun(g, w))
      && KeptFrom(done + Opt(s.input), es) == done + GlueOuts(g, w) + Opt(Final(p, s, es).input)
    decreases |es|
  {
    if es == [] {
      assert done + [] + Opt(s.input) == done + Opt(s.input);
    } else {
      var t := D.Step(p, s, es[0]).s;
      var v := Written(p, s, es[0]);
      StepHeard(p, s, es[0], g, done);
      StreamInOrder(p, t, es[1..], GlueRun(g, v), done + GlueOuts(g, v));
      GlueAppend(g, v, Stream(p, t, es[1..]));
      Regroup(done, GlueOuts(g, v), GlueOuts(GlueRun(g, v), Stream(p, t, es[1..])), Opt(Final(p, s, es).input));
    }
  }

  lemma Regroup<T>(a: seq<T>, b: seq<T>, c: seq<T>, d: seq<T>)
    ensures a + b + c + d == a + (b + c) + d
  {
  }

  // ----- how many chunks a frame takes -----

  /** bdivide_up: a / b, rounded up. */
  function DivUp(a: nat, b: nat): nat
    requires b > 0
  {
    if a == 0 then 0 else 1 + if a <= b then 0 else DivUp(a - b, b)
  }

  /** fragmentproto_max_chunks_for_frame */
  function MaxChunks(carrierMtu: nat, frameMtu: nat): nat
    requires carrierMtu > HEADER
  {
    DivUp(frameMtu, carrierMtu - HEADER) + 1
  }

  lemma {:induction false} DivUpIsCeiling(a: nat, b: nat)
    requires b > 0
    ensures a <= DivUp(a, b) * b
    ensures a > 0 ==> (DivUp(a, b) - 1) * b < a
  {
    if a > b {
      DivUpIsCeiling(a - b, b);
      var q := DivUp(a - b, b);
      assert (q + 1) * b == q * b + b;
      assert q * b == (q - 1) * b + b;
    }
  }

  lemma {:induction false} DivUpMono(a: nat, a': nat, b: nat)
    requires b > 0 && a <= a'
    ensures DivUp(a, b) <= DivUp(a', b)
  {
    if a > b {
      DivUpMono(a - b, a' - b, b);
    }
  }

  /**
  No frame exceeds `n` bytes; a frame of k bytes takes at most ceil(k / m) + 1 chunks, and the first k bytes of a frame
  that goes on, at most ceil(k / m).
  */
  predicate Thrifty(m: nat, n: nat, g: Glue, cs: seq<Chunk>)
    requires m > 0
    decreases |cs|
  {
    cs == [] || (
      var h := Restart(g, cs[0]);
      var k := |h.cur| + |cs[0].data|;
      && k <= n && h.count + 1 <= DivUp(k, m) + (if cs[0].last then 1 else 0)
      && Thrifty(m, n, GlueNext(g, cs[0]), cs[1..]))
  }

  lemma {:induction false} ThriftyAppend(m: nat, n: nat, g: Glue, cs: seq<Chunk>, ds: seq<Chunk>)
    requires m > 0
    ensures Thrifty(m, n, g, cs + ds) <==> Thrifty(m, n, g, cs) && Thrifty(m, n, GlueRun(g, cs), ds)
    decreases |cs|
  {
    if cs == [] {
      assert cs + ds == ds;
    } else {
      ThriftyAppend(m, n, GlueNext(g, cs[0]), cs[1..], ds);
      assert (cs + ds)[1..] == cs[1..] + ds;
    }
  }

  predicate Budgeted(m: nat, g: Glue)
    requires m > 0
  {
    g.count <= DivUp(|g.cur|, m)
  }

  lemma ChunkThrifty(p: D.Params, m: nat, frame: seq<byte>, used: nat, room: nat, g: Glue)
    requires p.Valid() && p.chunkMtu < 0 && used <= |frame| <= p.inputMtu && room > HEADER
    requires m == p.outputMtu - HEADER && room <= p.outputMtu
    requires Budgeted(m, g) && (used > 0 ==> g.cur == frame[..used] && room == p.outputMtu)
    ensures var cs := D.Split(p, frame, g.id, used, room);
      Thrifty(m, p.inputMtu, g, cs) && Budgeted(m, GlueRun(g, cs))
  {
    var ch := D.NextChunk(p, frame, g.id, used, room);
    GlueOne(g, ch);
    assert D.Split(p, frame, g.id, used, room) == [ch];
    assert [ch][1..] == [];
    assert |Restart(g, ch).cur + ch.data| == ch.End();
    DivUpMono(used, ch.End(), m);
    if !ch.last && used > 0 {
      assert DivUp(ch.End(), m) == 1 + DivUp(used, m);
    }
  }

  lemma StepThrifty(p: D.Params, m: nat, s: D.Dis, e: D.Event, g: Glue)
    requires D.Inv(p, s) && D.Enabled(p, s, e) && Heard(s, g)
    requires p.chunkMtu < 0 && m == p.outputMtu - HEADER && Budgeted(m, g)
    ensures var w := Written(p, s, e);
      Thrifty(m, p.inputMtu, g, w) && Budgeted(m, GlueRun(g, w))
  {
    assert D.Size([]) == 0;
    if e.Input? && s.packet.Some? {
      ChunkThrifty(p, m, e.frame, 0, D.Room(p, s.packet.value), g);
    } else if e.Recv? && s.input.Some? {
      ChunkThrifty(p, m, s.input.value, s.used, p.outputMtu, g);
    }
  }

  /** With no chunk limit, every run writes a thrifty stream. */
  lemma {:induction false} StreamThrifty(p: D.Params, m: nat, s: D.Dis, es: seq<D.Event>, g: Glue)
    requires D.Inv(p, s) && Legal(p, s, es) && Heard(s, g)
    requires p.chunkMtu < 0 && m == p.outputMtu - HEADER && Budgeted(m, g)
    ensures Thrifty(m, p.inputMtu, g, Stream(p, s, es))
    decreases |es|
  {
    if es != [] {
      var w := Written(p, s, es[0]);
      var t := D.Step(p, s, es[0]).s;
      StepThrifty(p, m, s, es[0], g);
      StepHeard(p, s, es[0], g, []);
      StreamThrifty(p, m, t, es[1..], GlueRun(g, w));
      ThriftyAppend(m, p.inputMtu, g, w, Stream(p, t, es[1..]));
    }
  }

  /** A thrifty stream fits an assembler set up for its frames with MaxChunks. */
  lemma {:induction false} ThriftySized(c: A.Config, m: nat, n: nat, g: Glue, cs: seq<Chunk>)
    requires m > 0 && Thrifty(m, n, g, cs) && n <= c.outputMtu && DivUp(n, m) + 1 <= c.numChunks
    ensures Sized(c, g, cs)
    decreases |cs|
  {
    if cs != [] {
      DivUpMono(|Restart(g, cs[0]).cur| + |cs[0].data|, n, m);
      ThriftySized(c, m, n, GlueNext(g, cs[0]), cs[1..]);
    }
  }

  // ----- the round trip -----

  function Wire(ps: seq<seq<Chunk>>): (r: seq<seq<byte>>)
    ensures |r| == |ps|
  {
    seq(|ps|, i requires 0 <= i < |ps| => EncodeAll(ps[i]))
  }

  function Unwire(bs: seq<seq<byte>>): (r: seq<seq<Chunk>>)
    ensures |r| == |bs|
  {
    seq(|bs|, i requires 0 <= i < |bs| => Parse(bs[i]))
  }

  lemma UnwireWire(ps: seq<seq<Chunk>>)
    requires forall i :: 0 <= i < |ps| ==> forall ch :: ch in ps[i] ==> ch.Fits()
    ensures Unwire(Wire(ps)) == ps
  {
    forall i | 0 <= i < |ps|
      ensures Parse(EncodeAll(ps[i])) == ps[i]
    {
      ParseRoundTrip(ps[i]);
    }
  }

  const IDLE: D.Dis := D.Dis(None, 0, None, 0, false)
  const SILENT: Glue := Glue(0, [], 0)

  ghost predicate Pool(c: A.Config, junk: seq<A.Entry>) {
    c.Valid() && |junk| == c.numFrames && forall k :: 0 <= k < |junk| ==> |junk[k].buffer| == c.outputMtu
  }

  /** What a fresh assembler emits when given, as bytes, every packet a fresh splitter sends in the run. */
  function Emitted(p: D.Params, c: A.Config, junk: seq<A.Entry>, es: seq<D.Event>): seq<seq<byte>>
    requires p.Valid() && Pool(c, junk) && Legal(p, IDLE, es)
  {
    FeedPackets(c, E.Started(c, junk), Unwire(Wire(Sent(p, IDLE, es)))).outs
  }

  predicate Flushed(s: D.Dis) { s.input.None? && Pending(s) == [] }

  lemma IdleOk(p: D.Params)
    requires p.Valid()
    ensures D.Inv(p, IDLE) && Heard(IDLE, SILENT) && Pending(IDLE) == []
  {
  }

  lemma SentInOrder(p: D.Params, es: seq<D.Event>)
    requires p.Valid() && Legal(p, IDLE, es)
    ensures var cs := Flatten(Sent(p, IDLE, es));
      && Stream(p, IDLE, es) == cs + Pending(Final(p, IDLE, es))
      && InOrder(SILENT, cs) && GlueOuts(SILENT, cs) <= Kept(es)
      && (Flushed(Final(p, IDLE, es)) ==> GlueOuts(SILENT, cs) == Kept(es))
  {
    hide Stream, Final, InOrder, GlueOuts, GlueRun, KeptFrom, Flatten, Sent, D.Inv, Legal, Heard;
    IdleOk(p);
    var cs := Flatten(Sent(p, IDLE, es));
    var end := Final(p, IDLE, es);
    PacketsHoldStream(p, IDLE, es);
    assert Stream(p, IDLE, es) == cs + Pending(end);
    StreamInOrder(p, IDLE, es, SILENT, []);
    GlueAppend(SILENT, cs, Pending(end));
    GlueNone(0, GlueRun(SILENT, cs), NOTHING);
    var late := GlueOuts(GlueRun(SILENT, cs), Pending(end));
    assert [] + Opt(IDLE.input) == [];
    Regroup([], GlueOuts(SILENT, cs), late, Opt(end.input));
    assert Kept(es) == GlueOuts(SILENT, cs) + (late + Opt(end.input));
  }

  /** With no chunk limit and an assembler sized by MaxChunks, as DatagramPeerIO does, every frame fits. */
  lemma UnlimitedSized(p: D.Params, c: A.Config, es: seq<D.Event>)
    requires p.Valid() && Legal(p, IDLE, es)
    requires p.chunkMtu < 0 && p.inputMtu <= c.outputMtu && c.numChunks == MaxChunks(p.outputMtu, p.inputMtu)
    ensures Sized(c, SILENT, Flatten(Sent(p, IDLE, es)))
  {
    hide Stream, Final, InOrder, GlueOuts, GlueRun, KeptFrom, Flatten, Sent, D.Inv, Legal, Heard, Thrifty, Sized;
    IdleOk(p);
    var cs, m := Flatten(Sent(p, IDLE, es)), p.outputMtu - HEADER;
    SentInOrder(p, es);
    StreamThrifty(p, m, IDLE, es, SILENT);
    ThriftyAppend(m, p.inputMtu, SILENT, cs, Pending(Final(p, IDLE, es)));
    ThriftySized(c, m, p.inputMtu, SILENT, cs);
  }

  lemma StartedTracks(c: A.Config, junk: seq<A.Entry>)
    requires Pool(c, junk)
    ensures Tracks(c, E.Started(c, junk), SILENT, NOTHING, 1)
  {
  }

  /**
  From freshly initialised ends, when every frame that ends was heard whole: the frames that come out are the frames that
  went in and were not cancelled, in order, less those whose last chunk has not left yet; with nothing left to write they
  are all of them.
  */
  lemma RoundTrip(p: D.Params, c: A.Config, junk: seq<A.Entry>, es: seq<D.Event>)
    requires p.Valid() && Pool(c, junk) && Legal(p, IDLE, es)
    requires Sized(c, SILENT, Flatten(Sent(p, IDLE, es))) && Clean(c.numChunks, NOTHING, Flatten(Sent(p, IDLE, es)))
    ensures Emitted(p, c, junk, es) <= Kept(es)
    ensures Flushed(Final(p, IDLE, es)) ==> Emitted(p, c, junk, es) == Kept(es)
  {
    hide Stream, Final, InOrder, GlueOuts, GlueRun, KeptFrom, Flatten, D.Inv, Legal, Tracks, Sized, Clean;
    IdleOk(p);
    SentInOrder(p, es);
    UnwireWire(Sent(p, IDLE, es));
    StartedTracks(c, junk);
    InOrderPackets(c, E.Started(c, junk), SILENT, NOTHING, Sent(p, IDLE, es));
  }

  // ----- early cancels -----

  /** Each cancel comes before anything of its frame has been written. */
  ghost predicate EarlyCancels(p: D.Params, s: D.Dis, es: seq<D.Event>)
    requires D.Inv(p, s) && Legal(p, s, es)
    decreases |es|
  {
    es == [] || ((es[0].Cancel? ==> s.used == 0) && EarlyCancels(p, D.Step(p, s, es[0]).s, es[1..]))
  }

  /** What is remembered is of the frame being written, and whole. */
  ghost predicate Whole(s: D.Dis, m: Memory) {
    if s.input.Some? && s.used > 0 then m.whole else m.held == []
  }

  lemma {:induction false} SplitClean(p: D.Params, frame: seq<byte>, id: nat, used: nat, room: nat, n: nat, m: Memory)
    requires p.Valid() && used <= |frame| && room > HEADER
    requires if used > 0 then m.whole else m.held == []
    ensures var cs := D.Split(p, frame, id, used, room);
      && Clean(n, m, cs)
      && (if Stop(p, frame, id, used, room) == |frame| then RecallRun(n, m, cs) == NOTHING else RecallRun(n, m, cs).whole)
    decreases |frame| - used
  {
    hide D.NextChunk, D.Split, Stop, Touches;
    SplitOne(p, frame, id, used, room);
    var ch := D.NextChunk(p, frame, id, used, room);
    CleanOne(n, m, ch);
    var room' := room - HEADER - |ch.data|;
    if ch.End() < |frame| && room' > HEADER {
      SplitClean(p, frame, id, ch.End(), room', n, Recall(n, m, ch));
      CleanAppend(n, m, [ch], D.Split(p, frame, id, ch.End(), room'));
    }
  }

  lemma WriteClean(p: D.Params, s: D.Dis, n: nat, m: Memory)
    requires p.Valid() && s.id < 0x1_0000 && s.input.Some? && s.packet.Some?
    requires s.used <= |s.input.value| <= p.inputMtu && D.Room(p, s.packet.value) > HEADER
    requires if s.used > 0 then m.whole else m.held == []
    ensures var w := D.Split(p, s.input.value, s.id, s.used, D.Room(p, s.packet.value));
      Clean(n, m, w) && Whole(D.Write(p, s).s, RecallRun(n, m, w))
  {
    SplitClean(p, s.input.value, s.id, s.used, D.Room(p, s.packet.value), n, m);
    D.SplitShape(p, s.input.value, s.id, s.used, D.Room(p, s.packet.value));
  }

  lemma StepClean(p: D.Params, s: D.Dis, e: D.Event, n: nat, m: Memory)
    requires D.Inv(p, s) && D.Enabled(p, s, e) && Whole(s, m) && (e.Cancel? ==> s.used == 0)
    ensures Clean(n, m, Written(p, s, e)) && Whole(D.Step(p, s, e).s, RecallRun(n, m, Written(p, s, e)))
  {
    hide D.Write, D.Split, Recall;
    assert D.Size([]) == 0;
    if e.Input? && s.packet.Some? {
      WriteClean(p, s.(input := Some(e.frame), used := 0), n, m);
    } else if e.Recv? && s.input.Some? {
      WriteClean(p, s.(packet := Some([])), n, m);
    }
  }

  /** Without late cancels every frame is heard whole. */
  lemma {:induction false} EarlyClean(p: D.Params, s: D.Dis, es: seq<D.Event>, n: nat, m: Memory)
    requires D.Inv(p, s) && Legal(p, s, es) && EarlyCancels(p, s, es) && Whole(s, m)
    ensures Clean(n, m, Stream(p, s, es)) && Whole(Final(p, s, es), RecallRun(n, m, Stream(p, s, es)))
    decreases |es|
  {
    hide D.Inv, Recall, Begin, Written, Whole;
    if es != [] {
      var t := D.Step(p, s, es[0]).s;
      var w := Written(p, s, es[0]);
      StepClean(p, s, es[0], n, m);
      EarlyClean(p, t, es[1..], n, RecallRun(n, m, w));
      CleanAppend(n, m, w, Stream(p, t, es[1..]));
    }
  }

  lemma EarlySent(p: D.Params, es: seq<D.Event>, n: nat)
    requires p.Valid() && Legal(p, IDLE, es) && EarlyCancels(p, IDLE, es)
    ensures Clean(n, NOTHING, Flatten(Sent(p, IDLE, es)))
  {
    hide Stream, Final, InOrder, GlueOuts, GlueRun, KeptFrom, Flatten, Sent, D.Inv, Legal, EarlyCancels, Clean;
    IdleOk(p);
    SentInOrder(p, es);
    EarlyClean(p, IDLE, es, n, NOTHING);
    CleanAppend(n, NOTHING, Flatten(Sent(p, IDLE, es)), Pending(Final(p, IDLE, es)));
  }

  /** The configuration of DatagramPeerIO: without late cancels no frame is ever lost. */
  lemma RoundTripUnlimited(p: D.Params, c: A.Config, junk: seq<A.Entry>, es: seq<D.Event>)
    requires p.Valid() && Pool(c, junk) && Legal(p, IDLE, es) && EarlyCancels(p, IDLE, es)
    requires p.chunkMtu < 0 && p.inputMtu <= c.outputMtu && c.numChunks == MaxChunks(p.outputMtu, p.inputMtu)
    ensures Emitted(p, c, junk, es) <= Kept(es)
    ensures Flushed(Final(p, IDLE, es)) ==> Emitted(p, c, junk, es) == Kept(es)
  {
    UnlimitedSized(p, c, es);
    EarlySent(p, es, c.numChunks);
    RoundTrip(p, c, junk, es);
  }
}
