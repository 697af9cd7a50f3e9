/**
The stream encoder and decoder as the source runs them, on fixed buffers.
*/
module PacketProtoObject {
  import opened Bytes
  import opened Wrappers
  import P = PacketProto

  /** The encoder lets its input write the payload behind the place of the header, then writes the header. */
  class PacketProtoEncoder {
    var packet: Option<array<byte>>

    constructor ()
      ensures packet == None
    {
      packet := None;
    }

    method OutputHandlerRecv(data: array<byte>)
      requires packet.None?
      modifies this
      ensures packet == Some(data)
    {
      packet := Some(data);
    }

    method InputHandlerDone(n: nat) returns (size: nat)
      requires packet.Some? && n <= P.MAX_PAYLOAD && P.HEADER + n <= packet.value.Length
      modifies this, packet.value
      ensures packet == None && size == P.HEADER + n
      ensures old(packet.value)[..size] == P.Encode(old(packet.value[P.HEADER..P.HEADER + n]))
    {
      var out := packet.value;
      out[0], out[1] := n % 256, n / 256;
      Widths();
      assert Le(n, 2) == [n % 256] + Le(n / 256, 1) && Le(n / 256, 1) == [n / 256 % 256] + Le(n / 256 / 256, 0);
      assert out[..P.HEADER + n] == [out[0], out[1]] + out[P.HEADER..P.HEADER + n];
      packet := None;
      size := P.HEADER + n;
    }
  }

  class PacketProtoDecoder {
    const mtu: nat
    const buf: array<byte>
    var start: nat
    var used: nat
    /** The packet handed to the output, while the output has it. */
    var sending: Option<(nat, nat)>

    ghost predicate Bounded()
      reads this
    {
      mtu <= P.MAX_PAYLOAD && buf.Length == P.HEADER + mtu && start + used <= buf.Length
    }

    /** While data is being received there is room for it. */
    ghost predicate Valid()
      reads this, buf
    {
      && Bounded()
      && (sending.Some? ==> sending.value.0 + sending.value.1 <= start)
      && (sending.None? ==> start + used < buf.Length)
    }

    ghost function State(): P.Decoder
      requires start + used <= buf.Length
      reads this, buf
    {
      P.Decoder(start, buf[start..start + used])
    }

    constructor (outputMtu: nat)
      ensures Valid() && mtu == (if outputMtu < P.MAX_PAYLOAD then outputMtu else P.MAX_PAYLOAD)
      ensures State() == P.Decoder(0, []) && sending == None && fresh(buf)
    {
      var m := if outputMtu < P.MAX_PAYLOAD then outputMtu else P.MAX_PAYLOAD;
      mtu := m;
      buf := new byte[P.HEADER + m](_ => 0);
      start, used, sending := 0, 0, None;
    }

    method ReadLength() returns (len: nat)
      requires Bounded() && used >= P.HEADER
      ensures len == P.LengthAt(State().data)
    {
      var low: nat, high: nat := buf[start], buf[start + 1];
      len := low + 256 * high;
      assert State().data[..2] == [buf[start], buf[start + 1]];
      assert FromLe([buf[start], buf[start + 1]]) == buf[start] + 256 * FromLe([buf[start + 1]]);
    }

    /**
    Sends the next packet, or receives more; then there is room, and after an error the buffer is empty.  The packet
    handed to the output lies before the data that is kept, so it stays as it is until the output is done with it.
    */
    method ProcessData() returns (failed: bool)
      requires Bounded() && sending.None?
      modifies this, buf
      ensures Valid() && P.Fits(mtu, old(State())) && State() == P.Process(mtu, old(State()))
      ensures match P.Act(mtu, old(State()))
        case Send(packet) => !failed && sending.Some? && buf[sending.value.0..sending.value.0 + sending.value.1] == packet
        case Receive(error) => failed == error && sending.None?
    {
      hide P.LengthAt;
      ghost var was := State();
      failed := false;
      if used >= P.HEADER {
        var len := ReadLength();
        if len > mtu {
          start, used, failed := 0, 0, true;
          return;
        }
        if used - P.HEADER >= len {
          sending := Some((start + P.HEADER, len));
          start, used := start + P.HEADER + len, used - P.HEADER - len;
          assert buf[start..start + used] == P.AfterFirst(mtu, was.data);
          return;
        }
      }
      if start + used == buf.Length {
        Wrap();
        assert buf[start..start + used] == was.data;
      }
    }

    /** Moves the data to the front of the buffer. */
    method Wrap()
      requires start + used == buf.Length
      modifies this`start, buf
      ensures start == 0 && buf[..used] == old(buf[start..start + used])
    {
      var i := 0;
      while i < used
        modifies buf
        invariant 0 <= i <= used && forall k :: 0 <= k < i ==> buf[k] == old(buf[start + k])
        invariant forall k :: start + i <= k < buf.Length ==> buf[k] == old(buf[k])
      {
        buf[i] := buf[start + i];
        i := i + 1;
      }
      start := 0;
    }

    /** What the input does with the room it was given. */
    method Fill(piece: seq<byte>)
      requires start + used + |piece| <= buf.Length
      modifies buf
      ensures buf[start..start + used] == old(buf[start..start + used])
      ensures buf[start + used..start + used + |piece|] == piece
    {
      var i := 0;
      while i < |piece|
        modifies buf
        invariant 0 <= i <= |piece| && forall k :: 0 <= k < start + used ==> buf[k] == old(buf[k])
        invariant forall k :: 0 <= k < i ==> buf[start + used + k] == piece[k]
      {
        buf[start + used + i] := piece[i];
        i := i + 1;
      }
    }

    /** The input has put the piece where it was asked to. */
    method InputHandlerDone(piece: seq<byte>) returns (failed: bool)
      requires Valid() && sending.None? && P.Received(mtu, State(), piece)
      modifies this, buf
      ensures Valid()
      ensures var m := P.Feed(mtu, old(State()), piece);
        P.Fits(mtu, m) && State() == P.Process(mtu, m) && failed == (P.Act(mtu, m) == P.Receive(true))
    {
      hide P.Process, P.Act;
      ghost var was := State();
      Fill(piece);
      assert buf[start..start + used + |piece|] == buf[start..start + used] + buf[start + used..start + used + |piece|];
      used := used + |piece|;
      assert State() == P.Feed(mtu, was, piece);
      failed := ProcessData();
    }

    method OutputHandlerDone() returns (failed: bool)
      requires Valid() && sending.Some?
      modifies this, buf
      ensures Valid() && P.Fits(mtu, old(State())) && State() == P.Process(mtu, old(State()))
      ensures failed == (P.Act(mtu, old(State())) == P.Receive(true))
    {
      sending := None;
      failed := ProcessData();
    }

    method Reset()
      requires Valid()
      modifies this
      ensures Valid() && State() == P.Reset(mtu, old(State())) && sending == old(sending)
    {
      start, used := start + used, 0;
    }
  }
}
