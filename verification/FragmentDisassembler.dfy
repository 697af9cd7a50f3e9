/** The splitter: packs frames into FragmentProto packets, several to a packet or several packets to a frame. */
module FragmentDisassembler {
  import opened Bytes
  import opened FragmentProto
  import opened Wrappers

  /** `chunkMtu` is negative for "no limit"; `latency` says whether a part-filled packet may wait. */
  datatype Params = Params(inputMtu: nat, outputMtu: nat, chunkMtu: int, latency: bool) {
    predicate Valid() {
      inputMtu <= 0xFFFF && outputMtu > HEADER && chunkMtu != 0
    }
  }

  datatype Dis = Dis(input: Option<seq<byte>>, used: nat, packet: Option<seq<Chunk>>, id: nat, timer: bool)

  function Size(cs: seq<Chunk>): nat {
    if cs == [] then 0 else Size(cs[..|cs| - 1]) + HEADER + |cs[|cs| - 1].data|
  }

  function Min(a: int, b: int): int { if a < b then a else b }

  function ChunkLen(p: Params, inAvail: nat, outAvail: nat): (n: nat)
    requires p.Valid()
    ensures n <= inAvail && n <= outAvail && (p.chunkMtu > 0 ==> n <= p.chunkMtu)
    ensures inAvail > 0 && outAvail > 0 ==> n > 0
    ensures n == inAvail || n == outAvail || n == p.chunkMtu
  {
    if p.chunkMtu > 0 then Min(Min(inAvail, outAvail), p.chunkMtu) else Min(inAvail, outAvail)
  }

  function NextChunk(p: Params, frame: seq<byte>, id: nat, used: nat, room: nat): (ch: Chunk)
    requires p.Valid() && used <= |frame| && room > HEADER
    ensures ch.id == id && ch.start == used && ch.End() <= |frame| && |ch.data| <= room - HEADER
    ensures ch.data == frame[used..ch.End()] && (ch.last <==> ch.End() == |frame|) && (used < |frame| ==> ch.End() > used)
    ensures ch.last || |ch.data| == room - HEADER || |ch.data| == p.chunkMtu
    ensures p.chunkMtu > 0 ==> |ch.data| <= p.chunkMtu
  {
    var n := ChunkLen(p, |frame| - used, room - HEADER);
    Chunk(id, used, n == |frame| - used, frame[used..used + n])
  }

  /** The chunks one call writes: from offset `used` of the frame, into `room` bytes of packet. */
  function Split(p: Params, frame: seq<byte>, id: nat, used: nat, room: nat): (cs: seq<Chunk>)
    requires p.Valid() && used <= |frame| && room > HEADER
    ensures cs != []
    decreases |frame| - used
  {
    var ch := NextChunk(p, frame, id, used, room);
    var room' := room - HEADER - |ch.data|;
    if ch.End() < |frame| && room' > HEADER then [ch] + Split(p, frame, id, ch.End(), room')
    else [ch]
  }

  function Room(p: Params, packet: seq<Chunk>): int { p.outputMtu - Size(packet) }

  ghost predicate Inv(p: Params, s: Dis) {
    && p.Valid() && s.id < 0x1_0000
    && (s.input.Some? ==>
          s.packet.None? && |s.input.value| <= p.inputMtu && (s.used == 0 || s.used < |s.input.value|))
    && (s.packet.Some? ==>
          && Room(p, s.packet.value) > HEADER
          && (forall c :: c in s.packet.value ==> c.Fits())
          && (!p.latency ==> s.packet.value == []))
    && (s.timer <==> s.packet.Some? && s.packet.value != [])
  }

  datatype Event = Input(frame: seq<byte>) | Recv | Timeout | Cancel

  predicate Enabled(p: Params, s: Dis, e: Event) {
    match e
    case Input(frame) => s.input.None? && |frame| <= p.inputMtu
    case Recv => s.packet.None?
    case Timeout => s.timer
    case Cancel => s.input.Some?
  }

  datatype Outcome = Outcome(s: Dis, sent: Option<seq<Chunk>>)

  /** The frame and the packet with the chunks of one call written. */
  function Fill(p: Params, s: Dis): (r: Dis)
    requires p.Valid() && s.input.Some? && s.packet.Some?
    requires s.used <= |s.input.value| && Room(p, s.packet.value) > HEADER
    ensures r.input == s.input && r.packet.Some?
  {
    var cs := Split(p, s.input.value, s.id, s.used, Room(p, s.packet.value));
    s.(packet := Some(s.packet.value + cs), used := cs[|cs| - 1].End())
  }

  /** Let go of the frame if it is all written, and of the packet if it is full or may not wait. */
  function Finish(p: Params, s: Dis): Outcome
    requires s.input.Some? && s.packet.Some?
  {
    var s1 := if s.used == |s.input.value| then s.(input := None, id := (s.id + 1) % 0x1_0000) else s;
    if Room(p, s.packet.value) <= HEADER || !p.latency then Outcome(s1.(packet := None, timer := false), s.packet)
    else Outcome(s1.(timer := true), None)
  }

  function Write(p: Params, s: Dis): Outcome
    requires p.Valid() && s.input.Some? && s.packet.Some?
    requires s.used <= |s.input.value| && Room(p, s.packet.value) > HEADER
  {
    Finish(p, Fill(p, s))
  }

  function Move(p: Params, s: Dis, e: Event): Outcome
    requires Inv(p, s) && Enabled(p, s, e)
  {
    match e
    case Input(frame) =>
      var s1 := s.(input := Some(frame), used := 0);
      if s.packet.None? then Outcome(s1, None) else Write(p, s1)
    case Recv =>
      var s1 := s.(packet := Some([]));
      if s.input.None? then Outcome(s1, None)
      else assert Size([]) == 0; Write(p, s1)
    case Timeout => Outcome(s.(packet := None, timer := false), s.packet)
    case Cancel => Outcome(s.(input := None), None)
  }

  lemma {:induction false} SizeAppend(cs: seq<Chunk>, ds: seq<Chunk>)
    ensures Size(cs + ds) == Size(cs) + Size(ds)
  {
    if ds == [] {
      assert cs + ds == cs;
    } else {
      SizeAppend(cs, ds[..|ds| - 1]);
      assert (cs + ds)[..|cs + ds| - 1] == cs + ds[..|ds| - 1];
    }
  }

  /** A split fits the packet, ends at the frame's end or fills the packet, and flags the last chunk only there. */
  lemma {:induction false} SplitShape(p: Params, frame: seq<byte>, id: nat, used: nat, room: nat)
    requires p.Valid() && used <= |frame| <= p.inputMtu && room > HEADER && id < 0x1_0000
    ensures var cs := Split(p, frame, id, used, room);
      var end := cs[|cs| - 1].End();
      && Size(cs) <= room && end <= |frame|
      && (forall c :: c in cs ==> c.Fits())
      && used <= end && (used < |frame| ==> used < end)
      && (end == |frame| || room - Size(cs) <= HEADER)
    decreases |frame| - used
  {
    var ch := NextChunk(p, frame, id, used, room);
    var cs := Split(p, frame, id, used, room);
    assert Size([ch]) == HEADER + |ch.data| by { assert [ch][..0] == []; }
    var room' := room - HEADER - |ch.data|;
    if ch.End() < |frame| && room' > HEADER {
      var rest := Split(p, frame, id, ch.End(), room');
      SplitShape(p, frame, id, ch.End(), room');
      SizeAppend([ch], rest);
      assert cs == [ch] + rest && cs[|cs| - 1] == rest[|rest| - 1];
    }
  }

  lemma WriteKeepsInv(p: Params, s: Dis)
    requires p.Valid() && s.id < 0x1_0000
    requires s.input.Some? && s.packet.Some? && |s.input.value| <= p.inputMtu
    requires s.used <= |s.input.value| && Room(p, s.packet.value) > HEADER
    requires forall c :: c in s.packet.value ==> c.Fits()
    ensures var r := Write(p, s);
      && Inv(p, r.s)
      && (r.sent.Some? ==> r.sent.value != [] && Size(r.sent.value) <= p.outputMtu
                           && forall c :: c in r.sent.value ==> c.Fits())
  {
    var frame, packet := s.input.value, s.packet.value;
    var cs := Split(p, frame, s.id, s.used, Room(p, packet));
    SplitShape(p, frame, s.id, s.used, Room(p, packet));
    SizeAppend(packet, cs);
  }

  lemma MoveKeepsInv(p: Params, s: Dis, e: Event)
    requires Inv(p, s) && Enabled(p, s, e)
    ensures var r := Move(p, s, e);
      && Inv(p, r.s)
      && (r.sent.Some? ==> r.sent.value != [] && Size(r.sent.value) <= p.outputMtu
                           && forall c :: c in r.sent.value ==> c.Fits())
  {
    assert Size([]) == 0;
    match e
    case Input(frame) =>
      if s.packet.Some? {
        WriteKeepsInv(p, s.(input := Some(frame), used := 0));
      }
    case Recv =>
      if s.input.Some? {
        WriteKeepsInv(p, s.(packet := Some([])));
      }
    case Timeout =>
    case Cancel =>
  }

  /** One handler run; it keeps the invariant, and a finished packet is non-empty and within the carrier's MTU. */
  function Step(p: Params, s: Dis, e: Event): (r: Outcome)
    requires Inv(p, s) && Enabled(p, s, e)
    ensures Inv(p, r.s)
    ensures r.sent.Some? ==> r.sent.value != [] && Size(r.sent.value) <= p.outputMtu
    ensures r.sent.Some? ==> forall c :: c in r.sent.value ==> c.Fits()
  {
    MoveKeepsInv(p, s, e);
    Move(p, s, e)
  }
}
