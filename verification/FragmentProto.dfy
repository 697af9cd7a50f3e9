/** The wire form of FragmentProto: a packet is a series of chunks, each a 7-byte header and a payload. */
module FragmentProto {
  import opened Bytes
  import opened Wrappers

  const HEADER: nat := 7

  datatype Chunk = Chunk(id: nat, start: nat, last: bool, data: seq<byte>) {
    predicate Fits() {
      id < 0x1_0000 && start < 0x1_0000 && |data| < 0x1_0000
    }
    function End(): nat { start + |data| }
  }

  /** The header fields keep the low 16 bits of what they are given. */
  function Encode(c: Chunk): (r: seq<byte>)
    ensures |r| == HEADER + |c.data|
  {
    Le(c.id, 2) + Le(c.start, 2) + Le(|c.data|, 2) + [if c.last then 1 else 0] + c.data
  }

  function EncodeAll(cs: seq<Chunk>): seq<byte> {
    if cs == [] then [] else Encode(cs[0]) + EncodeAll(cs[1..])
  }

  /** The chunk at the front of `b`, unless it is cut short or its is_last byte is neither 0 nor 1. */
  function First(b: seq<byte>): (r: Option<Chunk>)
    ensures r.Some? ==> r.value.Fits() && HEADER + |r.value.data| <= |b|
  {
    if |b| < HEADER then None
    else
      var n := FromLe(b[4..6]);
      Widths();
      if b[6] > 1 || |b| - HEADER < n then None
      else Some(Chunk(FromLe(b[0..2]), FromLe(b[2..4]), b[6] == 1, b[HEADER..HEADER + n]))
  }

  /** All chunks of a packet up to the first defect. */
  function Parse(b: seq<byte>): seq<Chunk>
    decreases |b|
  {
    var c := First(b);
    if c.None? then [] else [c.value] + Parse(b[HEADER + |c.value.data|..])
  }

  lemma FirstOfEncoded(c: Chunk, rest: seq<byte>)
    requires c.Fits()
    ensures First(Encode(c) + rest) == Some(c)
    ensures (Encode(c) + rest)[HEADER + |c.data|..] == rest
  {
    var b := Encode(c) + rest;
    Widths();
    LeRoundTrip(c.id, 2);
    LeRoundTrip(c.start, 2);
    LeRoundTrip(|c.data|, 2);
    assert b[0..2] == Le(c.id, 2);
    assert b[2..4] == Le(c.start, 2);
    assert b[4..6] == Le(|c.data|, 2);
    assert b[HEADER..HEADER + |c.data|] == c.data;
  }

  lemma {:induction false} ParseRoundTrip(cs: seq<Chunk>)
    requires forall c :: c in cs ==> c.Fits()
    ensures Parse(EncodeAll(cs)) == cs
  {
    if cs != [] {
      FirstOfEncoded(cs[0], EncodeAll(cs[1..]));
      ParseRoundTrip(cs[1..]);
    }
  }

  lemma {:induction false} EncodeAllAppend(cs: seq<Chunk>, c: Chunk)
    ensures EncodeAll(cs + [c]) == EncodeAll(cs) + Encode(c)
  {
    if cs == [] {
      assert [c][1..] == [];
    } else {
      EncodeAllAppend(cs[1..], c);
      assert (cs + [c])[1..] == cs[1..] + [c];
    }
  }

  // ----- the bytes by position -----

  /** The header: id, start and length in two bytes each, the least significant first, and the last flag in one. */
  lemma HeaderBytes(c: Chunk)
    requires c.Fits()
    ensures Encode(c) == [c.id % 256, c.id / 256, c.start % 256, c.start / 256, |c.data| % 256, |c.data| / 256,
                          if c.last then 1 else 0] + c.data
  {
    hide Le;
    LeTwo(c.id);
    LeTwo(c.start);
    LeTwo(|c.data|);
  }

  /** A chunk is found at the front of a buffer if and only if the buffer begins with its bytes. */
  lemma FirstExact(b: seq<byte>, c: Chunk)
    ensures First(b) == Some(c) <==> c.Fits() && Encode(c) <= b
  {
    if First(b) == Some(c) {
      Widths();
      LeOfRead(b[0..2]);
      LeOfRead(b[2..4]);
      LeOfRead(b[4..6]);
      var e := b[..HEADER + |c.data|];
      assert e == b[0..2] + b[2..4] + b[4..6] + [b[6]] + c.data;
    }
    if c.Fits() && Encode(c) <= b {
      FirstOfEncoded(c, b[|Encode(c)|..]);
      assert b == Encode(c) + b[|Encode(c)|..];
    }
  }
}
