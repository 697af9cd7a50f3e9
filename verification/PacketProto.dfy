/** Packets over a byte stream: each packet is a 16-bit length followed by its payload. */
module PacketProto {
  // The decoder keeps what it has received in a buffer that holds just one packet, and moves it to the front when it
  // reaches the end.

  import opened Bytes

  const HEADER: nat := 2
  const MAX_PAYLOAD: nat := 0xFFFF

  function Encode(p: seq<byte>): (r: seq<byte>)
    ensures |r| == HEADER + |p|
  {
    Le(|p|, 2) + p
  }

  function EncodeAll(ps: seq<seq<byte>>): seq<byte> {
    if ps == [] then [] else Encode(ps[0]) + EncodeAll(ps[1..])
  }

  // ----- what a stream says -----

  function LengthAt(s: seq<byte>): nat
    requires |s| >= HEADER
  {
    FromLe(s[..2])
  }

  /** The stream starts with a whole packet. */
  predicate Whole(mtu: nat, s: seq<byte>) {
    |s| >= HEADER && LengthAt(s) <= mtu && |s| - HEADER >= LengthAt(s)
  }

  /** The stream starts with a packet that is too large. */
  predicate TooLarge(mtu: nat, s: seq<byte>) {
    |s| >= HEADER && LengthAt(s) > mtu
  }

  function First(mtu: nat, s: seq<byte>): seq<byte>
    requires Whole(mtu, s)
  {
    s[HEADER..HEADER + LengthAt(s)]
  }

  function AfterFirst(mtu: nat, s: seq<byte>): seq<byte>
    requires Whole(mtu, s)
  {
    s[HEADER + LengthAt(s)..]
  }

  function Packets(mtu: nat, s: seq<byte>): seq<seq<byte>>
    decreases |s|
  {
    if Whole(mtu, s) then [First(mtu, s)] + Packets(mtu, AfterFirst(mtu, s)) else []
  }

  /** What is left behind the packets. */
  function Rest(mtu: nat, s: seq<byte>): (r: seq<byte>)
    ensures !Whole(mtu, r)
    decreases |s|
  {
    if Whole(mtu, s) then Rest(mtu, AfterFirst(mtu, s)) else s
  }

  // ----- the decoder -----

  /** The bytes received and not yet decoded, and where in the buffer they start. */
  datatype Decoder = Decoder(start: nat, data: seq<byte>)

  predicate Fits(mtu: nat, d: Decoder) {
    d.start + |d.data| <= HEADER + mtu
  }

  /** The room for which a receive is issued. */
  function Room(mtu: nat, d: Decoder): (r: int)
    ensures Fits(mtu, d) ==> r >= 0
  {
    HEADER + mtu - (d.start + |d.data|)
  }

  datatype Action = Send(packet: seq<byte>) | Receive(failed: bool)

  /** At the end of the buffer the data moves to the front. */
  function Wrapped(mtu: nat, d: Decoder): Decoder {
    if d.start + |d.data| == HEADER + mtu then d.(start := 0) else d
  }

  function Act(mtu: nat, d: Decoder): Action {
    if Whole(mtu, d.data) then Send(First(mtu, d.data)) else Receive(TooLarge(mtu, d.data))
  }

  function Process(mtu: nat, d: Decoder): (t: Decoder)
    requires Fits(mtu, d)
    ensures Fits(mtu, t)
    ensures Act(mtu, d).Receive? ==> Room(mtu, t) > 0
  {
    if Whole(mtu, d.data) then Decoder(d.start + HEADER + LengthAt(d.data), AfterFirst(mtu, d.data))
    else if TooLarge(mtu, d.data) then Decoder(0, [])
    else Wrapped(mtu, d)
  }

  /** Packets are sent one after another until data must be received again. */
  function Sent(mtu: nat, d: Decoder): seq<seq<byte>>
    requires Fits(mtu, d)
    decreases |d.data|
  {
    if Whole(mtu, d.data) then [First(mtu, d.data)] + Sent(mtu, Process(mtu, d)) else []
  }

  function Settle(mtu: nat, d: Decoder): (t: Decoder)
    requires Fits(mtu, d)
    ensures Fits(mtu, t) && Room(mtu, t) > 0
    decreases |d.data|
  {
    if Whole(mtu, d.data) then Settle(mtu, Process(mtu, d)) else Process(mtu, d)
  }

  function Failed(mtu: nat, d: Decoder): bool {
    TooLarge(mtu, Rest(mtu, d.data))
  }

  /** The position in the buffer has no influence on what is decoded. */
  lemma {:induction false} SettleExact(mtu: nat, d: Decoder)
    requires Fits(mtu, d)
    ensures Sent(mtu, d) == Packets(mtu, d.data)
    ensures Settle(mtu, d).data == if Failed(mtu, d) then [] else Rest(mtu, d.data)
    ensures Failed(mtu, d) ==> Settle(mtu, d) == Decoder(0, [])
    decreases |d.data|
  {
    if Whole(mtu, d.data) {
      SettleExact(mtu, Process(mtu, d));
    }
  }

  // ----- pieces -----

  /** A piece is received into the room that was asked for. */
  predicate Received(mtu: nat, d: Decoder, piece: seq<byte>) {
    0 < |piece| <= Room(mtu, d)
  }

  function Feed(mtu: nat, d: Decoder, piece: seq<byte>): Decoder {
    d.(data := d.data + piece)
  }

  ghost predicate AllReceived(mtu: nat, d: Decoder, pieces: seq<seq<byte>>)
    requires Fits(mtu, d)
    decreases |pieces|
  {
    pieces == [] ||
    (Received(mtu, d, pieces[0]) && AllReceived(mtu, Settle(mtu, Feed(mtu, d, pieces[0])), pieces[1..]))
  }

  function Output(mtu: nat, d: Decoder, pieces: seq<seq<byte>>): seq<seq<byte>>
    requires Fits(mtu, d) && AllReceived(mtu, d, pieces)
    decreases |pieces|
  {
    if pieces == [] then []
    else
      var m := Feed(mtu, d, pieces[0]);
      Sent(mtu, m) + Output(mtu, Settle(mtu, m), pieces[1..])
  }

  function After(mtu: nat, d: Decoder, pieces: seq<seq<byte>>): (t: Decoder)
    requires Fits(mtu, d) && AllReceived(mtu, d, pieces)
    ensures Fits(mtu, t) && (pieces != [] ==> Room(mtu, t) > 0)
    decreases |pieces|
  {
    if pieces == [] then d else After(mtu, Settle(mtu, Feed(mtu, d, pieces[0])), pieces[1..])
  }

  function Joined(pieces: seq<seq<byte>>): seq<byte> {
    if pieces == [] then [] else pieces[0] + Joined(pieces[1..])
  }

  // ----- the stream does not care where it is cut -----

  lemma MoreBytes(mtu: nat, s: seq<byte>, t: seq<byte>)
    requires Whole(mtu, s)
    ensures Whole(mtu, s + t) && First(mtu, s + t) == First(mtu, s) && AfterFirst(mtu, s + t) == AfterFirst(mtu, s) + t
  {
    assert (s + t)[..2] == s[..2];
  }

  lemma {:induction false} PacketsAppend(mtu: nat, s: seq<byte>, t: seq<byte>)
    ensures Packets(mtu, s + t) == Packets(mtu, s) + Packets(mtu, Rest(mtu, s) + t)
    ensures Rest(mtu, s + t) == Rest(mtu, Rest(mtu, s) + t)
    decreases |s|
  {
    if Whole(mtu, s) {
      MoreBytes(mtu, s, t);
      PacketsAppend(mtu, AfterFirst(mtu, s), t);
    }
  }

  /** A packet that is too large stays where it is, whatever follows. */
  lemma TooLargeStays(mtu: nat, s: seq<byte>, t: seq<byte>)
    requires TooLarge(mtu, s)
    ensures TooLarge(mtu, s + t)
  {
    assert (s + t)[..2] == s[..2];
  }

  lemma FeedStep(mtu: nat, d: Decoder, piece: seq<byte>, later: seq<byte>)
    requires Fits(mtu, d) && Received(mtu, d, piece) && !TooLarge(mtu, Rest(mtu, d.data + piece + later))
    ensures var m := Settle(mtu, Feed(mtu, d, piece));
      && m.data == Rest(mtu, d.data + piece) && Sent(mtu, Feed(mtu, d, piece)) == Packets(mtu, d.data + piece)
      && Packets(mtu, d.data + piece + later) == Packets(mtu, d.data + piece) + Packets(mtu, m.data + later)
      && Rest(mtu, d.data + piece + later) == Rest(mtu, m.data + later)
  {
    PacketsAppend(mtu, d.data + piece, later);
    SettleExact(mtu, Feed(mtu, d, piece));
    if TooLarge(mtu, Rest(mtu, d.data + piece)) {
      TooLargeStays(mtu, Rest(mtu, d.data + piece), later);
    }
  }

  /** However the stream is cut, the decoder sends the packets of the whole stream and keeps what is left. */
  lemma {:induction false} OutputExact(mtu: nat, d: Decoder, pieces: seq<seq<byte>>)
    requires Fits(mtu, d) && AllReceived(mtu, d, pieces) && (pieces == [] ==> !Whole(mtu, d.data))
    requires !TooLarge(mtu, Rest(mtu, d.data + Joined(pieces)))
    ensures Output(mtu, d, pieces) == Packets(mtu, d.data + Joined(pieces))
    ensures After(mtu, d, pieces).data == Rest(mtu, d.data + Joined(pieces))
    decreases |pieces|
  {
    if pieces == [] {
      assert d.data + [] == d.data;
    } else {
      var piece, later := pieces[0], Joined(pieces[1..]);
      assert d.data + piece + later == d.data + Joined(pieces);
      FeedStep(mtu, d, piece, later);
      OutputExact(mtu, Settle(mtu, Feed(mtu, d, piece)), pieces[1..]);
    }
  }

  // ----- the round trip -----

  lemma FirstEncoded(mtu: nat, p: seq<byte>, t: seq<byte>)
    requires |p| <= mtu && |p| <= MAX_PAYLOAD
    ensures Whole(mtu, Encode(p) + t) && First(mtu, Encode(p) + t) == p && AfterFirst(mtu, Encode(p) + t) == t
  {
    Widths();
    LeRoundTrip(|p|, 2);
    assert (Encode(p) + t)[..2] == Le(|p|, 2);
  }

  lemma {:induction false} PacketsEncoded(mtu: nat, ps: seq<seq<byte>>)
    requires forall p :: p in ps ==> |p| <= mtu && |p| <= MAX_PAYLOAD
    ensures Packets(mtu, EncodeAll(ps)) == ps && Rest(mtu, EncodeAll(ps)) == []
  {
    if ps != [] {
      FirstEncoded(mtu, ps[0], EncodeAll(ps[1..]));
      PacketsEncoded(mtu, ps[1..]);
    }
  }

  /** Packets encoded into a stream and received in any pieces come out as they went in, and nothing is left. */
  lemma RoundTrip(mtu: nat, ps: seq<seq<byte>>, start: nat, pieces: seq<seq<byte>>)
    requires forall p :: p in ps ==> |p| <= mtu && |p| <= MAX_PAYLOAD
    requires start <= HEADER + mtu && AllReceived(mtu, Decoder(start, []), pieces) && Joined(pieces) == EncodeAll(ps)
    ensures Output(mtu, Decoder(start, []), pieces) == ps && After(mtu, Decoder(start, []), pieces).data == []
  {
    PacketsEncoded(mtu, ps);
    assert [] + Joined(pieces) == Joined(pieces);
    OutputExact(mtu, Decoder(start, []), pieces);
  }

  // ----- errors and progress -----

  /** An error is reported while the pieces are received. */
  predicate Fails(mtu: nat, d: Decoder, pieces: seq<seq<byte>>)
    requires Fits(mtu, d) && AllReceived(mtu, d, pieces)
    decreases |pieces|
  {
    pieces != [] &&
    (Failed(mtu, Feed(mtu, d, pieces[0])) || Fails(mtu, Settle(mtu, Feed(mtu, d, pieces[0])), pieces[1..]))
  }

  /** That happens if and only if the stream, read packet by packet, comes to one that is too large. */
  lemma {:induction false} FailsExact(mtu: nat, d: Decoder, pieces: seq<seq<byte>>)
    requires Fits(mtu, d) && AllReceived(mtu, d, pieces) && !TooLarge(mtu, Rest(mtu, d.data))
    ensures Fails(mtu, d, pieces) <==> TooLarge(mtu, Rest(mtu, d.data + Joined(pieces)))
    decreases |pieces|
  {
    if pieces == [] {
      assert d.data + [] == d.data;
    } else {
      var s, later := d.data + pieces[0], Joined(pieces[1..]);
      assert s + later == d.data + Joined(pieces);
      PacketsAppend(mtu, s, later);
      SettleExact(mtu, Feed(mtu, d, pieces[0]));
      if Failed(mtu, Feed(mtu, d, pieces[0])) {
        TooLargeStays(mtu, Rest(mtu, s), later);
      } else {
        FailsExact(mtu, Settle(mtu, Feed(mtu, d, pieces[0])), pieces[1..]);
      }
    }
  }

  function Singles(s: seq<byte>): seq<seq<byte>> {
    if s == [] then [] else [[s[0]]] + Singles(s[1..])
  }

  /** There is always room for one more byte, so every stream can be received to its end. */
  lemma {:induction false} AlwaysRoom(mtu: nat, d: Decoder, s: seq<byte>)
    requires Fits(mtu, d) && Room(mtu, d) > 0
    ensures AllReceived(mtu, d, Singles(s)) && Joined(Singles(s)) == s
    decreases |s|
  {
    hide Fits, Room, Feed, Settle, Received;
    if s != [] {
      ByteFits(mtu, d, s[0]);
      var rest := Singles(s[1..]);
      assert Singles(s) == [[s[0]]] + rest && Singles(s)[1..] == rest;
      AlwaysRoom(mtu, Settle(mtu, Feed(mtu, d, [s[0]])), s[1..]);
      assert s == [s[0]] + s[1..];
    }
  }

  lemma ByteFits(mtu: nat, d: Decoder, b: byte)
    requires Fits(mtu, d) && Room(mtu, d) > 0
    ensures Received(mtu, d, [b]) && Fits(mtu, Feed(mtu, d, [b]))
  {
  }

  /** Clearing the buffer leaves the outstanding receive where it is. */
  function Reset(mtu: nat, d: Decoder): (t: Decoder)
    ensures Room(mtu, t) == Room(mtu, d) && (Fits(mtu, d) ==> Fits(mtu, t)) && t.data == []
  {
    Decoder(d.start + |d.data|, [])
  }

  // ----- the bytes by position -----

  /** The header: the length in two bytes, the least significant first. */
  lemma HeaderBytes(p: seq<byte>)
    requires |p| <= MAX_PAYLOAD
    ensures Encode(p) == [|p| % 256, |p| / 256] + p
  {
    hide Le;
    LeTwo(|p|);
  }

  /** The stream starts with a whole packet if and only if it begins with the bytes of one within the MTU. */
  lemma FirstExact(mtu: nat, s: seq<byte>, p: seq<byte>)
    ensures Whole(mtu, s) && First(mtu, s) == p <==> |p| <= mtu && |p| <= MAX_PAYLOAD && Encode(p) <= s
  {
    if Whole(mtu, s) && First(mtu, s) == p {
      Widths();
      LeOfRead(s[..2]);
      assert s[..HEADER + |p|] == s[..2] + p;
    }
    if |p| <= mtu && |p| <= MAX_PAYLOAD && Encode(p) <= s {
      FirstEncoded(mtu, p, s[|Encode(p)|..]);
      assert s == Encode(p) + s[|Encode(p)|..];
    }
  }
}
