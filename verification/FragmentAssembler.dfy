/** The reassembler of FragmentProto frames. */
module FragmentAssembler {
  // A fixed pool of frame entries, an index of the used ones by frame id, and a 32-bit packet clock that is rebased when
  // it runs out.

  import opened Bytes
  import opened FragmentProto
  import opened Seqs
  import opened Tiling
  import opened Wrappers

  const MAX_TIME: nat := 0xFFFF_FFFF

  datatype Config = Config(outputMtu: nat, numFrames: nat, numChunks: nat) {
    predicate Valid() {
      0 < numFrames < MAX_TIME && numChunks > 0
    }
  }

  /** A frame entry; `length` is -1 until a last chunk has come, and `buffer` holds outputMtu bytes. */
  datatype Entry = Entry(
    id: nat, time: nat, chunks: seq<Extent>, sum: nat, length: int, soFar: nat, buffer: seq<byte>)

  datatype Asm = Asm(entries: seq<Entry>, used: seq<nat>, free: seq<nat>, tree: map<nat, nat>, time: nat)

  // ----- one frame -----

  datatype Verdict = Rejected(e: Entry) | Waiting(e: Entry) | Complete(e: Entry)

  function ExtentOf(ch: Chunk): Extent { Extent(ch.start, |ch.data|) }

  predicate Acceptable(e: Entry, ch: Chunk) {
    && (forall i :: 0 <= i < |e.chunks| ==> !Overlap(e.chunks[i], ExtentOf(ch)))
    && if ch.last then e.length < 0 && e.soFar <= ch.End() else e.length >= 0 ==> ch.End() <= e.length
  }

  function Store(e: Entry, ch: Chunk, now: nat): Entry
    requires ch.End() <= |e.buffer|
  {
    Entry(e.id, now, e.chunks + [ExtentOf(ch)], e.sum + |ch.data|,
          if ch.last then ch.End() else e.length,
          if !ch.last && e.length < 0 && e.soFar < ch.End() then ch.End() else e.soFar,
          e.buffer[..ch.start] + ch.data + e.buffer[ch.End()..])
  }

  function AddChunk(c: Config, e: Entry, ch: Chunk, now: nat): Verdict
    requires ch.End() <= |e.buffer|
  {
    if !Acceptable(e, ch) then Rejected(e)
    else
      var f := Store(e, ch, now);
      if f.length < 0 || f.sum < f.length then
        if |f.chunks| == c.numChunks then Rejected(f) else Waiting(f)
      else Complete(f)
  }

  /** The chunks of an entry are apart and inside the frame as far as its length is known. */
  ghost predicate Sound(c: Config, e: Entry) {
    && |e.buffer| == c.outputMtu
    && Apart(e.chunks) && e.sum == Total(e.chunks)
    && e.soFar <= c.outputMtu && e.length <= c.outputMtu
    && Within(e.chunks, if e.length >= 0 then e.length else e.soFar)
  }

  /** What every used entry satisfies between packets: sound, incomplete, and with room for another chunk. */
  ghost predicate Open(c: Config, e: Entry) {
    Sound(c, e) && |e.chunks| < c.numChunks && (e.length < 0 || e.sum < e.length)
  }

  lemma StoreSound(c: Config, e: Entry, ch: Chunk, now: nat)
    requires Sound(c, e) && Acceptable(e, ch) && ch.End() <= c.outputMtu
    ensures Sound(c, Store(e, ch, now))
  {
    var f := Store(e, ch, now);
    assert f.chunks[..|f.chunks| - 1] == e.chunks;
  }

  /** The assembler's assert that a complete frame's sum is its length holds, and then its chunks tile it. */
  lemma CompleteTiles(c: Config, e: Entry, ch: Chunk, now: nat)
    requires Sound(c, e) && ch.End() <= c.outputMtu
    requires AddChunk(c, e, ch, now).Complete?
    ensures var f := AddChunk(c, e, ch, now).e;
      f.sum == f.length && Tiles(f.chunks, f.length)
  {
    StoreSound(c, e, ch, now);
    var f := Store(e, ch, now);
    Pigeonhole(f.chunks, f.length);
  }

  // ----- the pool -----

  ghost predicate PoolOk(c: Config, a: Asm) {
    && |a.entries| == c.numFrames
    && Distinct(a.used) && Distinct(a.free)
    && (forall i :: 0 <= i < |a.used| ==> a.used[i] < c.numFrames && a.used[i] !in a.free)
    && (forall i :: 0 <= i < |a.free| ==> a.free[i] < c.numFrames && a.free[i] !in a.used)
    && (forall k :: 0 <= k < c.numFrames ==> k in a.used || k in a.free)
    && (forall k :: 0 <= k < c.numFrames ==> |a.entries[k].buffer| == c.outputMtu)
  }

  ghost predicate IndexOk(c: Config, a: Asm)
    requires PoolOk(c, a)
  {
    && (forall k :: k in a.used ==> a.entries[k].id in a.tree && a.tree[a.entries[k].id] == k)
    && (forall id :: id in a.tree ==> a.tree[id] in a.used && a.entries[a.tree[id]].id == id)
  }

  ghost predicate Inv(c: Config, a: Asm) {
    && c.Valid()
    && PoolOk(c, a)
    && IndexOk(c, a)
    && (forall k :: k in a.used ==> Open(c, a.entries[k]) && a.entries[k].time <= a.time)
    && a.time <= MAX_TIME
  }

  function FreeFrame(a: Asm, k: nat): Asm
    requires k < |a.entries|
  {
    a.(used := Without(a.used, k), tree := a.tree - {a.entries[k].id}, free := a.free + [k])
  }

  function Room(a: Asm): Asm
    requires a.free == [] ==> a.used != [] && a.used[0] < |a.entries|
  {
    if a.free == [] then FreeFrame(a, a.used[0]) else a
  }

  function Take(a: Asm, id: nat): Asm
    requires a.free != [] && a.free[0] < |a.entries|
  {
    var k := a.free[0];
    a.(free := a.free[1..], used := a.used + [k], tree := a.tree[id := k],
       entries := a.entries[k := Entry(id, a.time, [], 0, -1, 0, a.entries[k].buffer)])
  }

  predicate TimedOut(c: Config, a: Asm, k: nat)
    requires k < |a.entries|
  {
    a.time - a.entries[k].time > c.numFrames
  }

  /** The state in which `id` has an entry that has not timed out; the entry is `tree[id]`. */
  function Locate(c: Config, a: Asm, id: nat): Asm
    requires Inv(c, a)
  {
    FreeKeepsInv(c, a);
    if id !in a.tree then Take(Room(a), id)
    else if TimedOut(c, a, a.tree[id]) then Take(FreeFrame(a, a.tree[id]), id)
    else a
  }

  lemma FreeKeepsInv(c: Config, a: Asm)
    requires Inv(c, a)
    ensures forall k :: k in a.used ==> Inv(c, FreeFrame(a, k)) && FreeFrame(a, k).free != []
    ensures a.free == [] ==> a.used != []
  {
    forall k | k in a.used
      ensures Inv(c, FreeFrame(a, k))
    {
      FreeOneKeepsInv(c, a, k);
    }
    assert 0 in a.used || 0 in a.free;
  }

  lemma FreeOneKeepsInv(c: Config, a: Asm, k: nat)
    requires Inv(c, a) && k in a.used
    ensures Inv(c, FreeFrame(a, k))
  {
    WithoutDistinct(a.used, k);
    var r := FreeFrame(a, k);
    assert forall i :: 0 <= i < |r.used| ==> r.used[i] in r.used;
    assert forall i :: 0 <= i < |r.free| ==> r.free[i] in r.free;
    assert PoolOk(c, r);
    assert IndexOk(c, r);
  }

  lemma TakeKeepsPool(c: Config, a: Asm, id: nat)
    requires PoolOk(c, a) && a.free != []
    ensures PoolOk(c, Take(a, id))
  {
    var r := Take(a, id);
    assert Distinct(r.used);
    forall k | 0 <= k < c.numFrames
      ensures k in r.used || k in r.free
    {
      if k in a.free && k != a.free[0] {
        var i :| 0 <= i < |a.free| && a.free[i] == k;
        assert r.free[i - 1] == k;
      }
    }
    forall i | 0 <= i < |r.used|
      ensures r.used[i] < c.numFrames && r.used[i] !in r.free
    {
      assert i < |a.used| ==> r.used[i] == a.used[i];
    }
    assert forall i :: 0 <= i < |r.free| ==> r.free[i] == a.free[i + 1];
  }

  lemma TakeKeepsInv(c: Config, a: Asm, id: nat)
    requires Inv(c, a) && a.free != [] && id !in a.tree
    ensures var r := Take(a, id);
      && Inv(c, r) && id in r.tree && r.tree[id] == a.free[0]
      && r.entries[a.free[0]].chunks == [] && r.entries[a.free[0]].length < 0
  {
    TakeKeepsPool(c, a, id);
    var r := Take(a, id);
    assert a.free[0] !in a.used;
    assert IndexOk(c, r);
    assert Total([]) == 0;
  }

  lemma LocateKeepsInv(c: Config, a: Asm, id: nat)
    requires Inv(c, a)
    ensures var r := Locate(c, a, id);
      && Inv(c, r) && id in r.tree && r.time == a.time
  {
    FreeKeepsInv(c, a);
    if id !in a.tree {
      TakeKeepsInv(c, Room(a), id);
    } else if TimedOut(c, a, a.tree[id]) {
      TakeKeepsInv(c, FreeFrame(a, a.tree[id]), id);
    }
  }

  // ----- a chunk -----

  datatype Fed = Fed(a: Asm, out: Option<seq<byte>>)

  predicate InBounds(c: Config, ch: Chunk) {
    ch.start <= c.outputMtu && |ch.data| <= c.outputMtu - ch.start
  }

  /** The entry a chunk is added to, just before it is added. */
  function Target(c: Config, a: Asm, id: nat): (k: nat)
    requires Inv(c, a)
    ensures k in Locate(c, a, id).used && k < |Locate(c, a, id).entries|
  {
    LocateKeepsInv(c, a, id);
    Locate(c, a, id).tree[id]
  }

  function TargetEntry(c: Config, a: Asm, id: nat): (e: Entry)
    requires Inv(c, a)
    ensures Open(c, e) && e.id == id
  {
    LocateKeepsInv(c, a, id);
    Locate(c, a, id).entries[Target(c, a, id)]
  }

  function SetEntry(a: Asm, k: nat, e: Entry): Asm
    requires k < |a.entries|
  {
    a.(entries := a.entries[k := e])
  }

  function Judge(c: Config, a: Asm, ch: Chunk): Verdict
    requires Inv(c, a) && InBounds(c, ch)
  {
    AddChunk(c, TargetEntry(c, a, ch.id), ch, a.time)
  }

  /** Process one chunk; `out` is the frame sent on, if the chunk completes one. */
  function Process(c: Config, a: Asm, ch: Chunk): (r: Fed)
    requires Inv(c, a)
    ensures Inv(c, r.a) && r.a.time == a.time
  {
    if !InBounds(c, ch) then Fed(a, None)
    else
      JudgeKeepsInv(c, a, ch);
      var k := Target(c, a, ch.id);
      var v := Judge(c, a, ch);
      var b := SetEntry(Locate(c, a, ch.id), k, v.e);
      match v
      case Rejected(_) => Fed(FreeFrame(b, k), None)
      case Waiting(_) => Fed(b, None)
      case Complete(e) => Fed(FreeFrame(b, k), Some(e.buffer[..e.length]))
  }

  lemma SetUnused(c: Config, a: Asm, k: nat, e: Entry)
    requires Inv(c, a) && k < c.numFrames && k !in a.used && |e.buffer| == c.outputMtu
    ensures Inv(c, SetEntry(a, k, e))
  {
    assert PoolOk(c, SetEntry(a, k, e));
  }

  lemma SetUsed(c: Config, a: Asm, k: nat, e: Entry)
    requires Inv(c, a) && k in a.used && e.id == a.entries[k].id && e.time <= a.time && Open(c, e)
    ensures Inv(c, SetEntry(a, k, e))
  {
    assert PoolOk(c, SetEntry(a, k, e));
  }

  lemma AddChunkOpen(c: Config, e: Entry, ch: Chunk, now: nat)
    requires Open(c, e) && InBounds(c, ch)
    ensures var v := AddChunk(c, e, ch, now);
      && v.e.id == e.id && |v.e.buffer| == c.outputMtu
      && (v.Waiting? ==> Open(c, v.e) && v.e.time == now)
      && (v.Complete? ==> 0 <= v.e.length <= c.outputMtu)
  {
    if Acceptable(e, ch) {
      StoreSound(c, e, ch, now);
    }
  }

  lemma JudgeKeepsInv(c: Config, a: Asm, ch: Chunk)
    requires Inv(c, a) && InBounds(c, ch)
    ensures var v := Judge(c, a, ch);
      var b := Locate(c, a, ch.id);
      var k := Target(c, a, ch.id);
      && b.time == a.time && k < |b.entries|
      && (v.Waiting? ==> Inv(c, SetEntry(b, k, v.e)))
      && Inv(c, FreeFrame(SetEntry(b, k, v.e), k))
      && (v.Complete? ==> 0 <= v.e.length <= |v.e.buffer|)
  {
    LocateKeepsInv(c, a, ch.id);
    var b := Locate(c, a, ch.id);
    var k := Target(c, a, ch.id);
    var v := Judge(c, a, ch);
    AddChunkOpen(c, b.entries[k], ch, b.time);
    if v.Waiting? {
      SetUsed(c, b, k, v.e);
    }
    FreeOneKeepsInv(c, b, k);
    SetUnused(c, FreeFrame(b, k), k, v.e);
    assert FreeFrame(SetEntry(b, k, v.e), k) == SetEntry(FreeFrame(b, k), k, v.e);
  }

  // ----- the clock -----

  ghost predicate AreUsed(a: Asm, ks: seq<nat>) {
    Distinct(ks) && forall i :: 0 <= i < |ks| ==> ks[i] in a.used
  }

  lemma PrefixUsed(c: Config, a: Asm)
    requires PoolOk(c, a)
    ensures AreUsed(a, a.used)
  {
  }

  /** Free those of the frames `ks` that timed out, in order; nothing else changes. */
  function Sweep(c: Config, a: Asm, ks: seq<nat>): (r: Asm)
    requires forall i :: 0 <= i < |ks| ==> ks[i] < |a.entries|
    ensures r.entries == a.entries && r.time == a.time
  {
    if ks == [] then a
    else
      var b := Sweep(c, a, ks[..|ks| - 1]);
      var k := ks[|ks| - 1];
      if TimedOut(c, a, k) then FreeFrame(b, k) else b
  }

  lemma {:induction false} SweepKeepsInv(c: Config, a: Asm, ks: seq<nat>)
    requires Inv(c, a) && AreUsed(a, ks)
    ensures forall i :: 0 <= i < |ks| ==> ks[i] < |a.entries|
    ensures Inv(c, Sweep(c, a, ks))
    ensures forall k :: k in Sweep(c, a, ks).used <==> k in a.used && !(k in ks && TimedOut(c, a, k))
  {
    hide Open, IndexOk;
    if ks != [] {
      var rest, k := ks[..|ks| - 1], ks[|ks| - 1];
      assert forall i :: 0 <= i < |rest| ==> rest[i] == ks[i];
      assert AreUsed(a, rest);
      SweepKeepsInv(c, a, rest);
      assert k !in rest && forall j :: j in ks <==> j in rest || j == k;
      var b := Sweep(c, a, rest);
      if TimedOut(c, a, k) {
        FreeOneKeepsInv(c, b, k);
      }
    }
  }

  function MinTime(a: Asm, ks: seq<nat>): (m: nat)
    requires ks != [] && forall i :: 0 <= i < |ks| ==> ks[i] < |a.entries|
    ensures forall k :: k in ks ==> m <= a.entries[k].time
    ensures exists k :: k in ks && m == a.entries[k].time
  {
    var t := a.entries[ks[|ks| - 1]].time;
    if |ks| == 1 then assert ks[0] in ks; t
    else
      var m := MinTime(a, ks[..|ks| - 1]);
      assert ks[|ks| - 1] in ks;
      assert forall k :: k in ks <==> k in ks[..|ks| - 1] || k == ks[|ks| - 1];
      if t < m then t else m
  }

  function Swept(c: Config, a: Asm): (r: Asm)
    requires Inv(c, a)
    ensures Inv(c, r) && r.entries == a.entries && r.time == a.time
    ensures forall k :: k in r.used <==> k in a.used && !TimedOut(c, a, k)
  {
    PrefixUsed(c, a);
    SweepKeepsInv(c, a, a.used);
    Sweep(c, a, a.used)
  }

  /** Every used frame's time and the packet time moved back by `m`. */
  function Shifted(a: Asm, m: nat): Asm
    requires forall k :: k in a.used && k < |a.entries| ==> m <= a.entries[k].time
    requires m <= a.time
  {
    a.(time := a.time - m,
       entries := seq(|a.entries|, k requires 0 <= k < |a.entries| =>
         if k in a.used then a.entries[k].(time := a.entries[k].time - m) else a.entries[k]))
  }

  function Reduced(c: Config, a: Asm): Asm
    requires Inv(c, a)
  {
    var b := Swept(c, a);
    if b.used == [] then b.(time := 0)
    else Shifted(b, MinTime(b, b.used))
  }

  /** The end of a packet: the clock advances by one, rebased first if it is at its maximum. */
  function Tick(c: Config, a: Asm): (r: Asm)
    requires Inv(c, a)
    ensures Inv(c, r)
  {
    if a.time == MAX_TIME then
      ReducedKeepsInv(c, a);
      var r := Reduced(c, a);
      if r.used != [] then r.(time := r.time + 1) else r
    else a.(time := a.time + 1)
  }

  lemma ShiftKeepsInv(c: Config, a: Asm, m: nat)
    requires Inv(c, a) && m <= a.time
    requires forall k :: k in a.used && k < |a.entries| ==> m <= a.entries[k].time
    ensures var r := Shifted(a, m);
      && Inv(c, r)
      && (forall k :: k in r.used ==> r.entries[k] == a.entries[k].(time := a.entries[k].time - m))
  {
    var r := Shifted(a, m);
    assert PoolOk(c, r);
    assert IndexOk(c, r);
    forall k | k in r.used
      ensures Open(c, r.entries[k]) && r.entries[k].time <= r.time
    {
      assert Open(c, a.entries[k]);
    }
  }

  /** Rebasing the clock at its maximum drops exactly the timed-out frames, keeps every other age and makes room. */
  lemma ReducedKeepsInv(c: Config, a: Asm)
    requires Inv(c, a)
    ensures var r := Reduced(c, a);
      && Inv(c, r)
      && (forall k :: k in r.used <==> k in a.used && !TimedOut(c, a, k))
      && (forall k :: k in r.used ==>
            r.time - r.entries[k].time == a.time - a.entries[k].time
            && r.entries[k] == a.entries[k].(time := r.entries[k].time))
      && (a.time == MAX_TIME ==> r.time < MAX_TIME)
      && (r.used == [] ==> r.time == 0)
  {
    var b := Swept(c, a);
    if b.used != [] {
      var m := MinTime(b, b.used);
      var k :| k in b.used && m == b.entries[k].time;
      ShiftKeepsInv(c, b, m);
    }
  }

  lemma {:induction false} AllStay(c: Config, a: Asm, ks: seq<nat>)
    requires forall i :: 0 <= i < |ks| ==> ks[i] < |a.entries| && !TimedOut(c, a, ks[i])
    ensures Sweep(c, a, ks) == a
  {
    if ks != [] {
      AllStay(c, a, ks[..|ks| - 1]);
    }
  }

  /** A packet makes every kept frame one packet older and changes nothing else about it. */
  lemma TickAges(c: Config, a: Asm)
    requires Inv(c, a)
    ensures var r := Tick(c, a);
      && (forall k :: k in r.used ==>
            && k in a.used && k < |a.entries| && k < |r.entries|
            && r.time - r.entries[k].time == a.time - a.entries[k].time + 1
            && r.entries[k] == a.entries[k].(time := r.entries[k].time))
      && (forall k :: k in a.used && k !in r.used ==> TimedOut(c, a, k))
      && ((forall i :: 0 <= i < |a.used| ==> !TimedOut(c, a, a.used[i])) ==> r.used == a.used)
  {
    if a.time == MAX_TIME {
      ReducedKeepsInv(c, a);
      if forall i :: 0 <= i < |a.used| ==> !TimedOut(c, a, a.used[i]) {
        AllStay(c, a, a.used);
      }
    }
  }
}
