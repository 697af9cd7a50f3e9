/**
The splitter as an object that writes chunks into the output buffer it was handed.
*/
module FragmentDisassemblerObject {
  import opened Bytes
  import opened FragmentProto
  import opened FragmentDisassembler
  import opened Wrappers

  /** memcpy: put `src` into `dst` at `at`. */
  method CopyInto(dst: array<byte>, at: nat, src: seq<byte>)
    requires at + |src| <= dst.Length
    modifies dst
    ensures dst[..] == old(dst[..at]) + src + old(dst[at + |src|..])
  {
    forall i | 0 <= i < |src| {
      dst[at + i] := src[i];
    }
  }

  /** The packet as it will be when the do-while loop of write_chunks ends. */
  function ToWrite(p: Params, frame: seq<byte>, id: nat, used: nat, room: int, packet: seq<Chunk>, more: bool): seq<Chunk>
    requires p.Valid() && (more ==> used <= |frame| && room > HEADER)
  {
    if more then packet + Split(p, frame, id, used, room) else packet
  }

  lemma WriteOne(p: Params, frame: seq<byte>, id: nat, used: nat, room: nat, packet: seq<Chunk>)
    requires p.Valid() && used <= |frame| && room > HEADER
    ensures var ch := NextChunk(p, frame, id, used, room);
      var room' := room - HEADER - |ch.data|;
      ToWrite(p, frame, id, used, room, packet, true)
      == ToWrite(p, frame, id, ch.End(), room', packet + [ch], ch.End() < |frame| && room' > HEADER)
  {
  }

  class FragmentProtoDisassembler {
    const params: Params
    var inLen: int
    var inData: seq<byte>
    var inUsed: nat
    var out: array?<byte>
    var outUsed: nat
    var frameId: nat
    var timer: bool
    /** The chunks written to `out` so far. */
    ghost var packet: seq<Chunk>

    ghost function State(): Dis
      reads this
    {
      Dis(if inLen >= 0 then Some(inData) else None, inUsed, if out != null then Some(packet) else None, frameId, timer)
    }

    ghost predicate OutputOk()
      reads this, out
    {
      out != null ==>
        && out.Length == params.outputMtu && outUsed == Size(packet) <= out.Length
        && out[..outUsed] == EncodeAll(packet)
    }

    ghost predicate Valid()
      reads this, out
    {
      Inv(params, State()) && OutputOk() && (inLen >= 0 ==> inLen == |inData|)
    }

    constructor (p: Params)
      requires p.Valid()
      ensures Valid() && params == p && out == null && State() == Dis(None, 0, None, 0, false)
    {
      params := p;
      inLen, inData, inUsed := -1, [], 0;
      out, outUsed, frameId, timer := null, 0, 0, false;
      packet := [];
    }

    /** Write one chunk at the end of the output. */
    method WriteChunk(ch: Chunk)
      requires out != null && OutputOk() && HEADER + |ch.data| <= out.Length - outUsed
      modifies this`outUsed, this`packet, out
      ensures OutputOk() && packet == old(packet) + [ch] && outUsed == old(outUsed) + HEADER + |ch.data|
    {
      hide Encode, EncodeAll;
      EncodeAllAppend(packet, ch);
      SizeAppend(packet, [ch]);
      assert Size([ch]) == HEADER + |ch.data| by { assert [ch][..0] == []; }
      CopyInto(out, outUsed, Encode(ch));
      assert out[..outUsed + |Encode(ch)|] == old(out[..outUsed]) + Encode(ch);
      outUsed := outUsed + HEADER + |ch.data|;
      packet := packet + [ch];
    }

    /** One round of the do-while loop of write_chunks. */
    method WriteNext() returns (more: bool)
      requires params.Valid() && inLen == |inData|
      requires inUsed <= inLen && out != null && OutputOk() && params.outputMtu - outUsed > HEADER
      modifies this`inUsed, this`outUsed, this`packet, out
      ensures OutputOk() && old(inUsed) <= inUsed <= inLen && packet != [] && packet[|packet| - 1].End() == inUsed
      ensures more ==> inUsed > old(inUsed) && params.outputMtu - outUsed > HEADER
      ensures ToWrite(params, inData, frameId, inUsed, params.outputMtu - outUsed, packet, more)
        == ToWrite(params, inData, frameId, old(inUsed), params.outputMtu - old(outUsed), old(packet), true)
    {
      hide NextChunk, Encode, EncodeAll, Size, ToWrite;
      ghost var used, room, before := inUsed, params.outputMtu - outUsed, packet;
      var ch := NextChunk(params, inData, frameId, inUsed, params.outputMtu - outUsed);
      WriteChunk(ch);
      inUsed := ch.End();
      more := inLen - inUsed > 0 && params.outputMtu - outUsed - HEADER > 0;
      assert packet == before + [ch] && params.outputMtu - outUsed == room - HEADER - |ch.data|;
      assert more <==> ch.End() < |inData| && room - HEADER - |ch.data| > HEADER;
      WriteOne(params, inData, frameId, used, room, before);
    }

    /** The do-while loop of write_chunks. */
    method FillPacket()
      requires params.Valid() && inLen == |inData|
      requires inUsed <= inLen && out != null && OutputOk() && params.outputMtu - outUsed > HEADER
      modifies this`inUsed, this`outUsed, this`packet, out
      ensures OutputOk() && State() == Fill(params, old(State()))
    {
      ghost var goal := ToWrite(params, inData, frameId, inUsed, params.outputMtu - outUsed, packet, true);
      var more := true;
      while more
        invariant inUsed <= inLen && OutputOk()
        invariant more ==> params.outputMtu - outUsed > HEADER
        invariant ToWrite(params, inData, frameId, inUsed, params.outputMtu - outUsed, packet, more) == goal
        invariant !more ==> packet != [] && packet[|packet| - 1].End() == inUsed
        decreases if more then inLen - inUsed + 1 else 0
      {
        more := WriteNext();
      }
    }

    method FinishPacket() returns (sent: Option<nat>)
      requires inLen == |inData| && out != null && outUsed == Size(packet)
      modifies this`inLen, this`frameId, this`out, this`timer
      ensures State() == Finish(params, old(State())).s
      ensures sent == if Finish(params, old(State())).sent.Some? then Some(outUsed) else None
      ensures out == null || out == old(out)
      ensures inLen == -1 || inLen == old(inLen)
    {
      if inLen - inUsed == 0 {
        inLen := -1;
        frameId := (frameId + 1) % 0x1_0000;
      }
      if params.outputMtu - outUsed - HEADER <= 0 || !params.latency {
        out := null;
        timer := false;
        sent := Some(outUsed);
      } else {
        timer := true;
        sent := None;
      }
    }

    /** `sent` is the length of the finished packet in the buffer that was handed in, or None if it is kept back. */
    method WriteChunks() returns (sent: Option<nat>)
      requires params.Valid() && frameId < 0x1_0000 && OutputOk()
      requires inLen == |inData| <= params.inputMtu && inUsed <= inLen
      requires out != null && params.outputMtu - outUsed > HEADER
      requires forall c :: c in packet ==> c.Fits()
      modifies this, out
      ensures Valid()
      ensures var r := Write(params, old(State()));
        && State() == r.s && (sent.Some? <==> r.sent.Some?)
        && (sent.Some? ==> sent.value <= old(out).Length && old(out)[..sent.value] == EncodeAll(r.sent.value))
    {
      WriteKeepsInv(params, State());
      FillPacket();
      sent := FinishPacket();
    }

    method InputHandlerSend(data: seq<byte>) returns (sent: Option<nat>)
      requires Valid() && Enabled(params, State(), Input(data))
      modifies this, out
      ensures Valid()
      ensures var r := Step(params, old(State()), Input(data));
        && State() == r.s && (sent.Some? <==> r.sent.Some?)
        && (sent.Some? ==> old(out) != null && sent.value <= old(out).Length
                           && old(out)[..sent.value] == EncodeAll(r.sent.value))
    {
      inLen := |data|;
      inData := data;
      inUsed := 0;
      sent := None;
      if out != null {
        sent := WriteChunks();
      }
    }

    method InputHandlerRequestCancel()
      requires Valid() && Enabled(params, State(), Cancel)
      modifies this
      ensures Valid() && State() == Step(params, old(State()), Cancel).s
    {
      assert out == null;
      inLen := -1;
    }

    method OutputHandlerRecv(data: array<byte>) returns (sent: Option<nat>)
      requires Valid() && Enabled(params, State(), Recv) && data.Length == params.outputMtu
      modifies this, data
      ensures Valid()
      ensures var r := Step(params, old(State()), Recv);
        && State() == r.s && (sent.Some? <==> r.sent.Some?)
        && (sent.Some? ==> sent.value <= data.Length && data[..sent.value] == EncodeAll(r.sent.value))
    {
      out := data;
      outUsed := 0;
      packet := [];
      sent := None;
      if inLen >= 0 {
        sent := WriteChunks();
      }
    }

    method TimerHandler() returns (sent: nat)
      requires Valid() && Enabled(params, State(), Timeout)
      modifies this
      ensures Valid() && State() == Step(params, old(State()), Timeout).s
      ensures old(out) != null && sent <= old(out).Length
      ensures old(out)[..sent] == EncodeAll(Step(params, old(State()), Timeout).sent.value)
    {
      assert params.latency && inLen < 0;
      out := null;
      timer := false;
      sent := outUsed;
    }
  }
}
