/** Why ids must not come round within the assembler's memory: a run in which a lost frame is made good by a cancelled one. */
module FragmentWrap {
  import opened Bytes
  import opened FragmentProto
  import opened FragmentInOrder
  import opened FragmentCancel
    import opened FragmentRoundTrip
  import opened Seqs
  import opened Tiling
  import opened Wrappers
  import A = FragmentAssembler
  import D = FragmentDisassembler
  import E = FragmentEmission
  import O = FragmentAnyOrder
  import T = FragmentOutOfOrder

  // Every packet is filled with as many copies of one frame as there are ids and with the beginning of one more, which is
  // then cancelled.  So the first frame of the second packet meets an abandoned beginning under its id; its second chunk
  // stays behind, and is completed at the end of the packet by the beginning of the cancelled frame with that id.

  const IDS: nat := 0x1_0000
  const FRAME: seq<byte> := [1, 2]
  const BIG: D.Params := D.Params(2, 8 + 16 * IDS, 1, true)

  function Head(id: nat): Chunk { Chunk(id, 0, false, [1]) }

  function Tail(id: nat): Chunk { Chunk(id, 1, true, [2]) }

  function Next(id: nat): nat { (id + 1) % IDS }

  function Pairs(id: nat, k: nat): seq<Chunk>
    decreases k
  {
    if k == 0 then [] else [Head(id), Tail(id)] + Pairs(Next(id), k - 1)
  }

  function After(id: nat, k: nat): nat
    decreases k
  {
    if k == 0 then id else After(Next(id), k - 1)
  }

  function Copies(k: nat): seq<seq<byte>> {
    if k == 0 then [] else [FRAME] + Copies(k - 1)
  }

  lemma NextIs(id: nat)
    requires id < IDS
    ensures Next(id) == if id + 1 == IDS then 0 else id + 1
  {
  }

  lemma {:induction false} AfterIs(id: nat, k: nat)
    requires id < IDS && id + k <= IDS
    ensures After(id, k) == if id + k == IDS then 0 else id + k
    decreases k
  {
    hide Next;
    NextIs(id);
    if k > 0 {
      AfterIs(Next(id), k - 1);
    }
  }

  // ----- the splitter -----

  lemma SplitWhole(id: nat, room: nat)
    requires room > HEADER + 8
    ensures D.Split(BIG, FRAME, id, 0, room) == [Head(id), Tail(id)]
  {
    assert FRAME[0..1] == [1] && FRAME[1..2] == [2];
    assert D.NextChunk(BIG, FRAME, id, 0, room) == Head(id);
    assert D.NextChunk(BIG, FRAME, id, 1, room - 8) == Tail(id);
    assert D.Split(BIG, FRAME, id, 1, room - 8) == [Tail(id)];
  }

  lemma SplitHead(id: nat)
    ensures D.Split(BIG, FRAME, id, 0, 8) == [Head(id)]
  {
    assert FRAME[0..1] == [1];
    assert D.NextChunk(BIG, FRAME, id, 0, 8) == Head(id);
  }

  lemma SizeTwo(cs: seq<Chunk>, id: nat)
    ensures D.Size(cs + [Head(id)]) == D.Size(cs) + 8 && D.Size(cs + [Head(id), Tail(id)]) == D.Size(cs) + 16
  {
    var one, two := cs + [Head(id)], cs + [Head(id), Tail(id)];
    assert one[..|one| - 1] == cs && two[..|two| - 1] == one;
  }

  /** Another whole copy goes into the packet. */
  lemma InputWhole(s: D.Dis, k: nat)
    requires D.Inv(BIG, s) && s.input.None? && s.packet.Some? && D.Room(BIG, s.packet.value) == 8 + 16 * k && k > 0
    ensures D.Enabled(BIG, s, D.Input(FRAME)) && Written(BIG, s, D.Input(FRAME)) == [Head(s.id), Tail(s.id)]
    ensures var r := D.Step(BIG, s, D.Input(FRAME));
      && r.sent.None? && r.s.input.None? && r.s.packet == Some(s.packet.value + [Head(s.id), Tail(s.id)])
      && D.Room(BIG, r.s.packet.value) == 8 + 16 * (k - 1) && r.s.id == Next(s.id)
  {
    hide D.Split, D.Inv, D.Size;
    SplitWhole(s.id, 8 + 16 * k);
    SizeTwo(s.packet.value, s.id);
  }

  /** The beginning of one more fills the packet, which is sent. */
  lemma InputHead(s: D.Dis)
    requires D.Inv(BIG, s) && s.input.None? && s.packet.Some? && D.Room(BIG, s.packet.value) == 8
    ensures D.Enabled(BIG, s, D.Input(FRAME)) && Written(BIG, s, D.Input(FRAME)) == [Head(s.id)]
    ensures var r := D.Step(BIG, s, D.Input(FRAME));
      && r.sent == Some(s.packet.value + [Head(s.id)]) && r.s == D.Dis(Some(FRAME), 1, None, s.id, false)
  {
    hide D.Split, D.Inv, D.Size;
    SplitHead(s.id);
    SizeTwo(s.packet.value, s.id);
  }

  function Inputs(k: nat): seq<D.Event> {
    if k == 0 then [D.Input(FRAME), D.Cancel] else [D.Input(FRAME)] + Inputs(k - 1)
  }

  /** The splitter between two packets. */
  function Between(id: nat): D.Dis { D.Dis(None, 1, None, id, false) }

  ghost predicate Sends(s: D.Dis, es: seq<D.Event>, t: D.Dis, ps: seq<seq<Chunk>>, w: seq<Chunk>) {
    && D.Inv(BIG, s) && Legal(BIG, s, es) && Final(BIG, s, es) == t && Sent(BIG, s, es) == ps && Stream(BIG, s, es) == w
  }

  lemma SendsFirst(s: D.Dis, e: D.Event, es: seq<D.Event>, t: D.Dis, ps: seq<seq<Chunk>>, w: seq<Chunk>)
    requires D.Inv(BIG, s) && D.Enabled(BIG, s, e) && Sends(D.Step(BIG, s, e).s, es, t, ps, w)
    ensures Sends(s, [e] + es, t, Opt(D.Step(BIG, s, e).sent) + ps, Written(BIG, s, e) + w)
  {
    hide D.Inv, D.Enabled, D.Step, Written;
    assert ([e] + es)[1..] == es && ([e] + es)[0] == e;
  }

  lemma SendsNone(s: D.Dis)
    requires D.Inv(BIG, s)
    ensures Sends(s, [], s, [], [])
  {
  }

  lemma {:induction false} InputsSend(s: D.Dis, k: nat)
    requires D.Inv(BIG, s) && s.input.None? && s.packet.Some? && D.Room(BIG, s.packet.value) == 8 + 16 * k
    ensures var w := Pairs(s.id, k) + [Head(After(s.id, k))];
      Sends(s, Inputs(k), Between(After(s.id, k)), [s.packet.value + w], w)
    decreases k
  {
    hide D.Inv, D.Enabled, D.Step, D.Size, Written, Sends;
    var e, cs := D.Input(FRAME), s.packet.value;
    if k == 0 {
      InputHead(s);
      var t := D.Step(BIG, s, e).s;
      CancelLate(s.id);
      SendsNone(Between(s.id));
      SendsFirst(t, D.Cancel, [], Between(s.id), [], []);
      SendsFirst(s, e, [D.Cancel] + [], Between(s.id), [] + [], [] + []);
      assert [e] + ([D.Cancel] + []) == Inputs(0) && Pairs(s.id, 0) + [Head(s.id)] == [Head(s.id)];
      assert [cs + [Head(s.id)]] + ([] + []) == [cs + [Head(s.id)]] && [Head(s.id)] + ([] + []) == [Head(s.id)];
    } else {
      InputWhole(s, k);
      var t := D.Step(BIG, s, e).s;
      InputsSend(t, k - 1);
      var w := Pairs(t.id, k - 1) + [Head(After(t.id, k - 1))];
      SendsFirst(s, e, Inputs(k - 1), Between(After(s.id, k)), [t.packet.value + w], w);
      assert [Head(s.id), Tail(s.id)] + w == Pairs(s.id, k) + [Head(After(s.id, k))];
      assert t.packet.value + w == cs + ([Head(s.id), Tail(s.id)] + w);
      assert [] + [t.packet.value + w] == [t.packet.value + w];
    }
  }

  lemma CancelLate(id: nat)
    requires D.Inv(BIG, D.Dis(Some(FRAME), 1, None, id, false))
    ensures D.Enabled(BIG, D.Dis(Some(FRAME), 1, None, id, false), D.Cancel)
    ensures D.Step(BIG, D.Dis(Some(FRAME), 1, None, id, false), D.Cancel) == D.Outcome(Between(id), None)
    ensures Written(BIG, D.Dis(Some(FRAME), 1, None, id, false), D.Cancel) == [] && D.Inv(BIG, Between(id))
  {
  }

  function Packet(): seq<Chunk> { Pairs(0, IDS) + [Head(0)] }

  function Round(): seq<D.Event> { [D.Recv] + Inputs(IDS) }

  /** One packet, from and to a splitter that waits for the next with id 0. */
  lemma RoundSends(s: D.Dis)
    requires D.Inv(BIG, s) && s.input.None? && s.packet.None? && s.id == 0
    ensures Sends(s, Round(), Between(0), [Packet()], Packet())
  {
    hide D.Inv, Sends, Pairs, After, Inputs;
    RecvIdle(s);
    var t := D.Step(BIG, s, D.Recv).s;
    AfterIs(0, IDS);
    InputsSend(t, IDS);
    SendsFirst(s, D.Recv, Inputs(IDS), Between(0), [[] + Packet()], Packet());
    assert [] + Packet() == Packet() && [] + [Packet()] == [Packet()];
  }

  lemma RecvIdle(s: D.Dis)
    requires D.Inv(BIG, s) && s.input.None? && s.packet.None?
    ensures D.Enabled(BIG, s, D.Recv) && Written(BIG, s, D.Recv) == []
    ensures D.Step(BIG, s, D.Recv) == D.Outcome(s.(packet := Some([])), None) && D.Room(BIG, []) == 8 + 16 * IDS
  {
  }

  lemma RunStep(s: D.Dis, es: seq<D.Event>)
    requires D.Inv(BIG, s) && Legal(BIG, s, es) && es != []
    ensures var r := D.Step(BIG, s, es[0]);
      && D.Enabled(BIG, s, es[0]) && Legal(BIG, r.s, es[1..]) && Final(BIG, s, es) == Final(BIG, r.s, es[1..])
      && Sent(BIG, s, es) == Opt(r.sent) + Sent(BIG, r.s, es[1..])
      && Stream(BIG, s, es) == Written(BIG, s, es[0]) + Stream(BIG, r.s, es[1..])
  {
    hide D.Inv, D.Enabled, D.Step, Written;
  }

  lemma {:induction false} SendsAppend(s: D.Dis, es: seq<D.Event>, t: D.Dis, fs: seq<D.Event>, u: D.Dis,
                                       ps: seq<seq<Chunk>>, w: seq<Chunk>)
    requires D.Inv(BIG, s) && Legal(BIG, s, es) && Final(BIG, s, es) == t && Sends(t, fs, u, ps, w)
    ensures Sends(s, es + fs, u, Sent(BIG, s, es) + ps, Stream(BIG, s, es) + w)
    decreases |es|
  {
    hide D.Inv, D.Enabled, D.Step, Written, Sends, Legal, Final, Sent, Stream;
    if es == [] {
      NoRun(s);
      assert es + fs == fs && [] + ps == ps && [] + w == w;
    } else {
      RunStep(s, es);
      var r := D.Step(BIG, s, es[0]);
      SendsAppend(r.s, es[1..], t, fs, u, ps, w);
      SendsFirst(s, es[0], es[1..] + fs, u, Sent(BIG, r.s, es[1..]) + ps, Stream(BIG, r.s, es[1..]) + w);
      assert es + fs == [es[0]] + (es[1..] + fs);
      Associate(Opt(r.sent), Sent(BIG, r.s, es[1..]), ps);
      Associate(Written(BIG, s, es[0]), Stream(BIG, r.s, es[1..]), w);
    }
  }

  lemma NoRun(s: D.Dis)
    requires D.Inv(BIG, s)
    ensures Legal(BIG, s, []) && Final(BIG, s, []) == s && Sent(BIG, s, []) == [] && Stream(BIG, s, []) == []
  {
  }

  function WrapRun(): seq<D.Event> { Round() + Round() }

  lemma RunSends()
    ensures BIG.Valid() && Sends(IDLE, WrapRun(), Between(0), [Packet(), Packet()], Packet() + Packet())
  {
    hide D.Inv, Packet, Round, Legal, Final, Sent, Stream;
    IdleOk(BIG);
    RoundSends(IDLE);
    RoundFrom();
    SendsAppend(IDLE, Round(), Between(0), Round(), Between(0), [Packet()], Packet());
    assert [Packet()] + [Packet()] == [Packet(), Packet()];
  }

  lemma RoundFrom()
    ensures Sends(Between(0), Round(), Between(0), [Packet()], Packet())
  {
    assert D.Inv(BIG, Between(0));
    RoundSends(Between(0));
  }

  // ----- what a listener hears -----

  lemma HeadHeard(c: A.Config, g: Glue, m: Memory)
    requires g.id < IDS && c.outputMtu >= 2 && c.numChunks >= 2
    ensures var cs := [Head(g.id)];
      && InOrder(g, cs) && GlueOuts(g, cs) == [] && Sized(c, g, cs) && GlueRun(g, cs) == Glue(g.id, [1], 1)
      && Clean(c.numChunks, m, cs) && RecallRun(c.numChunks, m, cs) == Recall(c.numChunks, m, Head(g.id))
      && (RecallRun(c.numChunks, m, cs).whole <==> m.held == [])
  {
    hide InOrder, Sized, Clean, RecallRun, Recall, GlueRun, GlueOuts;
    GlueOne(g, Head(g.id));
    CleanOne(c.numChunks, m, Head(g.id));
    SizedOne(c, g, Head(g.id));
    HeadNext(g);
    HeadRecalled(c.numChunks, m, g.id);
  }

  lemma HeadNext(g: Glue)
    ensures GlueNext(g, Head(g.id)) == Glue(g.id, [1], 1) && GlueOut(g, Head(g.id)) == []
    ensures Restart(g, Head(g.id)) == Glue(g.id, [], 0)
  {
    assert [] + Head(g.id).data == Head(g.id).data;
  }

  lemma HeadRecalled(n: nat, m: Memory, id: nat)
    ensures Recall(n, m, Head(id)).whole <==> m.held == []
  {
    hide Touches;
  }

  lemma TailHeard(c: A.Config, g: Glue, m: Memory)
    requires g.id < IDS && g.cur == [1] && g.count == 1 && c.outputMtu >= 2 && c.numChunks >= 2
    ensures var cs := [Tail(g.id)];
      && InOrder(g, cs) && GlueOuts(g, cs) == [FRAME] && Sized(c, g, cs) && GlueRun(g, cs) == Glue(Next(g.id), [], 0)
      && RecallRun(c.numChunks, m, cs) == NOTHING && (Clean(c.numChunks, m, cs) <==> m.whole)
  {
    hide InOrder, Sized, Clean, RecallRun, Touches, GlueRun, GlueOuts;
    GlueOne(g, Tail(g.id));
    CleanOne(c.numChunks, m, Tail(g.id));
    SizedOne(c, g, Tail(g.id));
    assert [1] + [2] == FRAME;
  }

  lemma SizedOne(c: A.Config, g: Glue, ch: Chunk)
    ensures Sized(c, g, [ch]) <==> SizedChunk(c, Restart(g, ch), ch)
  {
    assert [ch][1..] == [];
  }

  lemma PairGlued(c: A.Config, g: Glue, m: Memory)
    requires g.id < IDS && c.outputMtu >= 2 && c.numChunks >= 2
    ensures var cs := [Head(g.id), Tail(g.id)];
      && InOrder(g, cs) && GlueRun(g, cs) == Glue(Next(g.id), [], 0) && GlueOuts(g, cs) == [FRAME] && Sized(c, g, cs)
      && RecallRun(c.numChunks, m, cs) == NOTHING && (Clean(c.numChunks, m, cs) <==> m.held == [])
  {
    hide InOrder, Sized, Clean, RecallRun, Recall, GlueRun, GlueOuts;
    var a, b := [Head(g.id)], [Tail(g.id)];
    HeadHeard(c, g, m);
    TailHeard(c, Glue(g.id, [1], 1), RecallRun(c.numChunks, m, a));
    GlueAppend(g, a, b);
    SizedAppend(c, g, a, b);
    CleanAppend(c.numChunks, m, a, b);
    assert a + b == [Head(g.id), Tail(g.id)] && [] + [FRAME] == [FRAME];
  }

  /** Pairs are heard whole, one frame each, if nothing is held when they begin. */
  lemma {:induction false} PairsGlued(c: A.Config, g: Glue, k: nat)
    requires g.id < IDS && c.outputMtu >= 2 && c.numChunks >= 2
    ensures var cs := Pairs(g.id, k);
      && InOrder(g, cs) && GlueOuts(g, cs) == Copies(k) && Sized(c, g, cs) && Clean(c.numChunks, NOTHING, cs)
      && RecallRun(c.numChunks, NOTHING, cs) == NOTHING && GlueRun(g, cs).id == After(g.id, k)
    decreases k
  {
    hide InOrder, Sized, Clean, RecallRun, GlueRun, GlueOuts;
    if k == 0 {
      NothingGlued(c, g);
    } else {
      var h, cs, rest := Glue(Next(g.id), [], 0), [Head(g.id), Tail(g.id)], Pairs(Next(g.id), k - 1);
      PairGlued(c, g, NOTHING);
      PairsGlued(c, h, k - 1);
      GlueAppend(g, cs, rest);
      SizedAppend(c, g, cs, rest);
      CleanAppend(c.numChunks, NOTHING, cs, rest);
    }
  }

  lemma NothingGlued(c: A.Config, g: Glue)
    ensures InOrder(g, []) && GlueOuts(g, []) == [] && Sized(c, g, []) && Clean(c.numChunks, NOTHING, [])
    ensures RecallRun(c.numChunks, NOTHING, []) == NOTHING && GlueRun(g, []) == g
  {
  }

  lemma HeadHeld(c: A.Config)
    requires c.numChunks >= 2
    ensures Recall(c.numChunks, NOTHING, Head(0)) == Memory([Extent(0, 1)], true)
  {
  }

  /** A packet is heard as one copy for each id, and leaves the beginning of another. */
  lemma PacketGlued(c: A.Config, g: Glue)
    requires g.id == 0 && c.outputMtu >= 2 && c.numChunks >= 2
    ensures var cs := Packet();
      && InOrder(g, cs) && GlueOuts(g, cs) == Copies(IDS) && Sized(c, g, cs) && GlueRun(g, cs) == Glue(0, [1], 1)
      && Clean(c.numChunks, NOTHING, cs) && RecallRun(c.numChunks, NOTHING, cs) == Memory([Extent(0, 1)], true)
  {
    hide InOrder, Sized, Clean, RecallRun, GlueRun, GlueOuts, Pairs, Copies, After;
    var cs := Pairs(0, IDS);
    AfterIs(0, IDS);
    PairsGlued(c, g, IDS);
    var h := GlueRun(g, cs);
    HeadHeard(c, h, NOTHING);
    HeadHeld(c);
    GlueAppend(g, cs, [Head(0)]);
    SizedAppend(c, g, cs, [Head(0)]);
    CleanAppend(c.numChunks, NOTHING, cs, [Head(0)]);
  }

  /** The second packet begins badly: its first frame is not heard whole. */
  lemma SecondTorn(c: A.Config)
    requires c.outputMtu >= 2 && c.numChunks >= 2
    ensures !Clean(c.numChunks, Memory([Extent(0, 1)], true), Packet())
    ensures Packet() == [Head(0), Tail(0)] + (Pairs(1, IDS - 1) + [Head(0)])
  {
    hide Clean;
    var m, cs, rest := Memory([Extent(0, 1)], true), [Head(0), Tail(0)], Pairs(1, IDS - 1) + [Head(0)];
    PairGlued(c, SILENT, m);
    assert Pairs(0, IDS) == cs + Pairs(Next(0), IDS - 1);
    assert Packet() == cs + rest;
    CleanAppend(c.numChunks, m, cs, rest);
  }

  // ----- the assembler -----

  predicate Wide(c: A.Config) {
    c.Valid() && c.outputMtu >= 2 && c.numChunks >= 2 && c.numFrames >= IDS
  }

  function Pair(id: nat): seq<Chunk> { [Head(id), Tail(id)] }

  lemma PairIsSplit(id: nat)
    ensures O.IsSplit(Pair(id), id, FRAME)
  {
    assert FRAME[0..1] == [1] && FRAME[1..2] == [2];
  }

  /** Only the chunk's own frame is new in the index, and not if it has just come out. */
  lemma TreeFrom(c: A.Config, a: A.Asm, ch: Chunk)
    requires A.Inv(c, a)
    ensures var r := A.Process(c, a, ch);
      && (forall id :: id in r.a.tree ==> id == ch.id || id in a.tree)
      && (r.out.Some? ==> ch.id !in r.a.tree)
  {
    hide A.AddChunk, A.Locate, A.Open, A.PoolOk, A.TargetEntry, A.Process;
    if A.InBounds(c, ch) {
      E.ProcessLeaves(c, a, ch);
      E.LocateFrame(c, a, ch.id);
      var r := A.Process(c, a, ch);
      E.PoolOf(c, r.a);
    } else {
      E.NothingDone(c, a, ch);
    }
  }

  /** The end of the lost frame is held, and nothing else; frames 1 to `n` - 1 have passed since. */
  ghost predicate Shelf(c: A.Config, a: A.Asm, n: nat) {
    && A.Inv(c, a) && 1 <= n <= IDS && (forall id :: id in a.tree ==> id == 0)
    && T.Underway(c, a, Pair(0), 0, FRAME, [1], Interval(1, n), 0)
  }

  lemma NoEntry(c: A.Config, a: A.Asm, id: nat)
    requires A.Inv(c, a) && id !in a.tree
    ensures T.Underway(c, a, Pair(id), id, FRAME, [], {}, 0)
  {
  }

  lemma Picked(id: nat, x: nat)
    requires x < 2
    ensures O.Chosen(Pair(id), []) && O.Chosen(Pair(id), [x]) && |Pair(id)| == 2 && Pair(id)[0] == Head(id) && Pair(id)[1] == Tail(id)
  {
  }

  /** The end of a frame in an empty pool. */
  lemma TailAlone(c: A.Config, a: A.Asm)
    requires Wide(c) && A.Inv(c, a) && a.tree == map[]
    ensures var r := A.Process(c, a, Tail(0)); r.out.None? && Shelf(c, r.a, 1)
  {
    hide A.Process, A.Inv, O.IsSplit, O.Chosen, T.Underway;
    PairIsSplit(0);
    Picked(0, 1);
    NoEntry(c, a, 0);
    T.UnderwayMine(c, a, Pair(0), 0, FRAME, [], {}, 0, 1);
    TreeFrom(c, a, Tail(0));
    assert [] + [1] == [1 as nat];
    assert Interval(1, 1) == {};
  }

  /** Another frame passes the one on the shelf. */
  lemma PassHead(c: A.Config, a: A.Asm, n: nat)
    requires Wide(c) && Shelf(c, a, n) && n < IDS
    ensures var r := A.Process(c, a, Head(n));
      && r.out.None? && (forall id :: id in r.a.tree ==> id == 0 || id == n)
      && T.Underway(c, r.a, Pair(0), 0, FRAME, [1], Interval(1, n + 1), 0)
      && T.Underway(c, r.a, Pair(n), n, FRAME, [0], {}, 0)
  {
    hide A.Process, A.Inv, O.IsSplit, O.Chosen, T.Underway;
    PairIsSplit(n);
    Picked(n, 0);
    NoEntry(c, a, n);
    T.UnderwayMine(c, a, Pair(n), n, FRAME, [], {}, 0, 0);
    TreeFrom(c, a, Head(n));
    assert [] + [0] == [0 as nat];
    assert Interval(1, n) + {n} == Interval(1, n + 1);
    T.UnderwayElse(c, a, Pair(0), 0, FRAME, [1], Interval(1, n), 0, E.Got(Head(n)));
  }

  lemma PassTail(c: A.Config, a: A.Asm, n: nat)
    requires Wide(c) && A.Inv(c, a) && 1 <= n < IDS && (forall id :: id in a.tree ==> id == 0 || id == n)
    requires T.Underway(c, a, Pair(0), 0, FRAME, [1], Interval(1, n + 1), 0) && T.Underway(c, a, Pair(n), n, FRAME, [0], {}, 0)
    ensures var r := A.Process(c, a, Tail(n));
      r.out == Some(FRAME) && Shelf(c, r.a, n + 1)
  {
    hide A.Process, A.Inv, O.IsSplit, O.Chosen, T.Underway;
    PairIsSplit(n);
    Picked(n, 0);
    T.UnderwayMine(c, a, Pair(n), n, FRAME, [0], {}, 0, 1);
    TreeFrom(c, a, Tail(n));
    assert Interval(1, n + 1) + {n} == Interval(1, n + 1);
    T.UnderwayElse(c, a, Pair(0), 0, FRAME, [1], Interval(1, n + 1), 0, E.Got(Tail(n)));
  }

  lemma FeedFirst(c: A.Config, a: A.Asm, x: Chunk, cs: seq<Chunk>)
    requires A.Inv(c, a)
    ensures var r := A.Process(c, a, x);
      FeedPacket(c, a, [x] + cs).outs == (if r.out.Some? then [r.out.value] else []) + FeedPacket(c, r.a, cs).outs
  {
    hide A.Process, A.Inv;
    assert ([x] + cs)[1..] == cs;
  }

  /** The frames up to the last id pass, and the beginning of a frame with the first id again completes the one on the shelf. */
  lemma {:induction false} Rest(c: A.Config, a: A.Asm, n: nat)
    requires Wide(c) && Shelf(c, a, n)
    ensures FeedPacket(c, a, Pairs(n % IDS, IDS - n) + [Head(0)]).outs == Copies(IDS - n) + [FRAME]
    decreases IDS - n
  {
    hide A.Process, A.Inv, Shelf, FeedPacket, Pairs, Copies;
    var k := IDS - n;
    ShelfRange(c, a, n);
    if k == 0 {
      ShelfDone(c, a);
      Unrolled(0, 0);
    } else {
      var d := PassBoth(c, a, n, Pairs((n + 1) % IDS, k - 1) + [Head(0)]);
      Rest(c, d, n + 1);
      Unrolled(n, k);
    }
  }

  lemma ShelfRange(c: A.Config, a: A.Asm, n: nat)
    requires Shelf(c, a, n)
    ensures A.Inv(c, a) && 1 <= n <= IDS
  {
  }

  /** The two unrollings the proof goes by. */
  lemma Unrolled(n: nat, k: nat)
    ensures k == 0 ==> Pairs(n, k) + [Head(0)] == [Head(0)] && Copies(k) + [FRAME] == [FRAME]
    ensures k > 0 ==> Pairs(n, k) + [Head(0)] == [Head(n)] + ([Tail(n)] + (Pairs(Next(n), k - 1) + [Head(0)]))
    ensures k > 0 ==> Copies(k) + [FRAME] == [FRAME] + (Copies(k - 1) + [FRAME])
  {
  }

  lemma ShelfDone(c: A.Config, a: A.Asm)
    requires Wide(c) && Shelf(c, a, IDS)
    ensures A.Inv(c, a) && FeedPacket(c, a, [Head(0)]).outs == [FRAME]
  {
    hide A.Process, A.Inv, O.IsSplit, O.Chosen, T.Underway, FeedPacket;
    PairIsSplit(0);
    Picked(0, 1);
    T.UnderwayMine(c, a, Pair(0), 0, FRAME, [1], Interval(1, IDS), 0, 0);
    FeedFirst(c, a, Head(0), []);
    NoMore(c, A.Process(c, a, Head(0)).a);
    assert [Head(0)] + [] == [Head(0)] && [FRAME] + [] == [FRAME];
  }

  lemma PassBoth(c: A.Config, a: A.Asm, n: nat, rest: seq<Chunk>) returns (d: A.Asm)
    requires Wide(c) && Shelf(c, a, n) && n < IDS
    ensures A.Inv(c, a) && A.Inv(c, d) && Shelf(c, d, n + 1)
    ensures FeedPacket(c, a, [Head(n)] + ([Tail(n)] + rest)).outs == [FRAME] + FeedPacket(c, d, rest).outs
  {
    hide A.Process, A.Inv, T.Underway, FeedPacket;
    PassHead(c, a, n);
    var b := A.Process(c, a, Head(n)).a;
    PassTail(c, b, n);
    d := A.Process(c, b, Tail(n)).a;
    FeedFirst(c, b, Tail(n), rest);
    FeedFirst(c, a, Head(n), [Tail(n)] + rest);
  }

  lemma NoMore(c: A.Config, a: A.Asm)
    requires A.Inv(c, a)
    ensures FeedPacket(c, a, []).outs == []
  {
  }

  lemma {:induction false} OneMore(k: nat)
    ensures Copies(k) + [FRAME] == Copies(k + 1)
  {
    if k > 0 {
      OneMore(k - 1);
    }
  }

  /** The second packet: the abandoned beginning costs its first frame, and the cancelled one at its end makes it good. */
  lemma SecondPacket(c: A.Config, a: A.Asm)
    requires Wide(c) && Tracks(c, a, Glue(0, [1], 1), Memory([Extent(0, 1)], true), 1)
    ensures FeedPacket(c, a, Packet()).outs == Copies(IDS)
  {
    hide A.Process, A.Inv, FeedPacket, Pairs, Copies, Packet;
    SecondTorn(c);
    HeadDrops(c, a);
    var b := A.Process(c, a, Head(0)).a;
    TailAlone(c, b);
    var d := A.Process(c, b, Tail(0)).a;
    Rest(c, d, 1);
    OneMore(IDS - 1);
    var rest := Pairs(1, IDS - 1) + [Head(0)];
    FeedFirst(c, b, Tail(0), rest);
    FeedFirst(c, a, Head(0), [Tail(0)] + rest);
    assert Packet() == [Head(0)] + ([Tail(0)] + rest);
  }

  lemma HeadDrops(c: A.Config, a: A.Asm)
    requires Wide(c) && Tracks(c, a, Glue(0, [1], 1), Memory([Extent(0, 1)], true), 1)
    ensures var r := A.Process(c, a, Head(0)); r.out.None? && r.a.tree == map[]
  {
    hide A.Process, Torn, Remembers;
    var g, m := Glue(0, [1], 1), Memory([Extent(0, 1)], true);
    assert Overlap(m.held[0], Extent(0, 1)) && Touches(m.held, Extent(0, 1));
    InOrderStep(c, a, g, m, Head(0));
    var r := A.Process(c, a, Head(0));
    E.PoolOf(c, r.a);
  }

  /**
  Without the condition that ids are forgotten before they come round, the round trip can hold of a run in which a frame
  was not heard whole: every frame kept comes out, one of them made of the bytes of two frames.
  */
  lemma ForgettingNeeded(c: A.Config, junk: seq<A.Entry>)
    requires Wide(c) && Pool(c, junk)
    ensures BIG.Valid() && Legal(BIG, IDLE, WrapRun()) && Flushed(Final(BIG, IDLE, WrapRun())) && AllFit(BIG, c, WrapRun())
    ensures !HeardWhole(BIG, c, WrapRun()) && Emitted(BIG, c, junk, WrapRun()) == Kept(WrapRun())
  {
    hide D.Inv, A.Inv, Legal, Final, Sent, Stream, InOrder, Sized, Clean, RecallRun, GlueRun, GlueOuts, KeptFrom, FeedPacket,
         Packet, Copies, WrapRun, Tracks, Flatten;
    RunSends();
    var p, ps := Packet(), [Packet(), Packet()];
    var g, m := Glue(0, [1], 1), Memory([Extent(0, 1)], true);
    PacketGlued(c, SILENT);
    PacketGlued(c, g);
    SecondTorn(c);
    GlueAppend(SILENT, p, p);
    SizedAppend(c, SILENT, p, p);
    CleanAppend(c.numChunks, NOTHING, p, p);
    FlushedSent(BIG, WrapRun());
    UnwireWire(Sent(BIG, IDLE, WrapRun()));
    StartedTracks(c, junk);
    var a := E.Started(c, junk);
    InOrderPacket(c, a, SILENT, NOTHING, p, 1);
    SecondPacket(c, FeedPacket(c, a, p).a);
    FeedBoth(c, a, p, p);
  }

  lemma FeedBoth(c: A.Config, a: A.Asm, p: seq<Chunk>, q: seq<Chunk>)
    requires A.Inv(c, a)
    ensures var r := FeedPacket(c, a, p);
      FeedPackets(c, a, [p, q]).outs == r.outs + FeedPacket(c, r.a, q).outs
  {
    hide A.Inv, FeedPacket;
    assert [p, q][1..] == [q] && [q][1..] == [];
    var r := FeedPacket(c, a, p);
    assert FeedPackets(c, r.a, [q]).outs == FeedPacket(c, r.a, q).outs + [];
  }
}
