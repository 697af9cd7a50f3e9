/** What the assembler's output means. */
module FragmentEmission {
  // The assembler keeps only the extents of the chunks it accepted; here a log of the chunks themselves runs beside it,
  // and every frame sent on is shown to be exactly what the logged chunks say.

  import opened Bytes
  import opened FragmentProto
  import opened FragmentAssembler
  import opened Seqs
  import opened Tiling
  import opened Wrappers

  function Extents(cs: seq<Chunk>): (r: seq<Extent>)
    ensures |r| == |cs| && forall i :: 0 <= i < |cs| ==> r[i] == ExtentOf(cs[i])
  {
    seq(|cs|, i requires 0 <= i < |cs| => ExtentOf(cs[i]))
  }

  /** `out` is one frame `id` of which `cs` are the pieces: they tile it, hold its bytes and agree on its end. */
  ghost predicate Reassembles(cs: seq<Chunk>, id: nat, out: seq<byte>) {
    && Tiles(Extents(cs), |out|)
    && (forall i :: 0 <= i < |cs| ==>
          cs[i].id == id && cs[i].End() <= |out| && out[cs[i].start..cs[i].End()] == cs[i].data)
    && (forall i :: 0 <= i < |cs| && cs[i].last ==> cs[i].End() == |out|)
    && (exists i :: 0 <= i < |cs| && cs[i].last)
  }

  /** `e` is what an entry looks like after accepting exactly `cs`. */
  ghost predicate Records(e: Entry, cs: seq<Chunk>) {
    && e.chunks == Extents(cs)
    && (forall i :: 0 <= i < |cs| ==>
          cs[i].id == e.id && cs[i].End() <= |e.buffer| && e.buffer[cs[i].start..cs[i].End()] == cs[i].data)
    && (forall i :: 0 <= i < |cs| && cs[i].last ==> cs[i].End() == e.length)
    && (e.length >= 0 ==> exists i :: 0 <= i < |cs| && cs[i].last)
  }

  type Log = map<nat, seq<Chunk>>

  ghost predicate Logged(a: Asm, log: Log) {
    forall k :: k in a.used ==> k < |a.entries| && k in log && Records(a.entries[k], log[k])
  }

  /** The chunks accepted into the target's frame once `ch` is added. */
  function Pieces(c: Config, a: Asm, log: Log, ch: Chunk): seq<Chunk>
    requires Inv(c, a)
  {
    var k := Target(c, a, ch.id);
    (if TargetEntry(c, a, ch.id).chunks == [] || k !in log then [] else log[k]) + [ch]
  }

  function NextLog(c: Config, a: Asm, log: Log, ch: Chunk): Log
    requires Inv(c, a)
  {
    if InBounds(c, ch) then log[Target(c, a, ch.id) := Pieces(c, a, log, ch)] else log
  }

  lemma SpliceAt(b: seq<byte>, start: nat, data: seq<byte>)
    requires start + |data| <= |b|
    ensures var r := b[..start] + data + b[start + |data|..]; |r| == |b| && r[start..start + |data|] == data
  {
  }

  lemma SpliceElsewhere(b: seq<byte>, start: nat, data: seq<byte>, lo: nat, hi: nat)
    requires start + |data| <= |b| && lo <= hi <= |b| && (lo == hi || hi <= start || start + |data| <= lo)
    ensures |b[..start] + data + b[start + |data|..]| == |b|
    ensures (b[..start] + data + b[start + |data|..])[lo..hi] == b[lo..hi]
  {
  }

  /** The bytes of an earlier chunk are not touched by one that does not overlap it. */
  lemma StoreKeeps(e: Entry, ch: Chunk, was: Chunk, now: nat)
    requires ch.End() <= |e.buffer| && was.End() <= |e.buffer| && !Overlap(ExtentOf(was), ExtentOf(ch))
    ensures was.End() <= |Store(e, ch, now).buffer|
    ensures Store(e, ch, now).buffer[was.start..was.End()] == e.buffer[was.start..was.End()]
  {
    SpliceElsewhere(e.buffer, ch.start, ch.data, was.start, was.End());
  }

  lemma StoreRecords(c: Config, e: Entry, cs: seq<Chunk>, ch: Chunk, now: nat)
    requires Sound(c, e) && Records(e, cs) && Acceptable(e, ch) && InBounds(c, ch) && ch.id == e.id
    ensures Records(Store(e, ch, now), cs + [ch])
  {
    hide Apart, Total, Within;
    var f := Store(e, ch, now);
    var ds := cs + [ch];
    assert f.chunks == Extents(ds);
    SpliceAt(e.buffer, ch.start, ch.data);
    forall i | 0 <= i < |ds|
      ensures ds[i].id == f.id && ds[i].End() <= |f.buffer| && f.buffer[ds[i].start..ds[i].End()] == ds[i].data
      ensures ds[i].last ==> ds[i].End() == f.length
    {
      if i < |cs| {
        assert ds[i] == cs[i] && e.chunks[i] == ExtentOf(cs[i]);
        StoreKeeps(e, ch, cs[i], now);
      }
    }
    if ch.last {
      assert ds[|cs|].last;
    } else if e.length >= 0 {
      var i :| 0 <= i < |cs| && cs[i].last;
      assert ds[i].last;
    }
  }

  /** The entries other than `k` that are used in `b` are used in `a` and unchanged. */
  ghost predicate OthersSame(a: Asm, b: Asm, k: nat) {
    forall j :: j in b.used && j != k ==> j in a.used && j < |a.entries| && j < |b.entries| && b.entries[j] == a.entries[j]
  }

  lemma TakeFrame(c: Config, a: Asm, id: nat)
    requires PoolOk(c, a) && a.free != []
    ensures var k := a.free[0];
      && k < |a.entries| && id in Take(a, id).tree && Take(a, id).tree[id] == k && k < |Take(a, id).entries|
      && Take(a, id).entries[k].chunks == [] && Take(a, id).entries[k].length < 0 && OthersSame(a, Take(a, id), k)
  {
    hide Distinct;
  }

  lemma PoolOf(c: Config, a: Asm)
    requires Inv(c, a)
    ensures PoolOk(c, a) && forall id :: id in a.tree ==> a.tree[id] in a.used && a.tree[id] < |a.entries|
    ensures a.used != [] ==> a.used[0] in a.used && a.used[0] < |a.entries|
    ensures forall k :: k in a.used ==> k < |a.entries|
  {
  }

  lemma FreedSame(c: Config, a: Asm, k: nat, j: nat)
    requires k < |a.entries| && forall i :: i in a.used ==> i < |a.entries|
    ensures OthersSame(a, FreeFrame(a, k), j) && FreeFrame(a, k).entries == a.entries
  {
  }

  lemma SameTwice(a: Asm, m: Asm, b: Asm, k: nat)
    requires OthersSame(a, m, k) && OthersSame(m, b, k)
    ensures OthersSame(a, b, k)
  {
  }

  /** Finding the entry leaves every other used entry as it was; the entry itself is as it was, or fresh. */
  lemma LocateFrame(c: Config, a: Asm, id: nat)
    requires Inv(c, a)
    ensures var b := Locate(c, a, id);
      var k := Target(c, a, id);
      && b.entries[k] == TargetEntry(c, a, id) && OthersSame(a, b, k)
      && ((k in a.used && k < |a.entries| && b.entries[k] == a.entries[k])
          || (b.entries[k].chunks == [] && b.entries[k].length < 0))
  {
    hide Inv, PoolOk, OthersSame, FreeFrame, Take;
    FreeKeepsInv(c, a);
    PoolOf(c, a);
    if id !in a.tree {
      var m := Room(a);
      PoolOf(c, m);
      TakeFrame(c, m, id);
      if a.free == [] {
        FreedSame(c, a, a.used[0], m.free[0]);
        SameTwice(a, m, Take(m, id), m.free[0]);
      }
    } else if TimedOut(c, a, a.tree[id]) {
      var m := FreeFrame(a, a.tree[id]);
      PoolOf(c, m);
      TakeFrame(c, m, id);
      FreedSame(c, a, a.tree[id], m.free[0]);
      SameTwice(a, m, Take(m, id), m.free[0]);
    } else {
      NothingMoved(c, a, a.tree[id]);
    }
  }

  predicate HasEntry(c: Config, a: Asm, id: nat)
    requires Inv(c, a)
  {
    id in a.tree && !TimedOut(c, a, a.tree[id])
  }

  lemma FreshTarget(c: Config, a: Asm, id: nat)
    requires Inv(c, a) && !HasEntry(c, a, id)
    ensures var e := TargetEntry(c, a, id);
      e.chunks == [] && e.length == -1 && e.soFar == 0
  {
    FreeKeepsInv(c, a);
    var b := if id !in a.tree then Room(a) else FreeFrame(a, a.tree[id]);
    assert Locate(c, a, id) == Take(b, id);
    assert Target(c, a, id) == b.free[0];
  }

  lemma LiveTarget(c: Config, a: Asm, id: nat)
    requires Inv(c, a) && HasEntry(c, a, id)
    ensures Locate(c, a, id) == a && TargetEntry(c, a, id) == a.entries[a.tree[id]]
  {
    hide PoolOk, Open;
  }

  lemma NothingDone(c: Config, a: Asm, ch: Chunk)
    requires Inv(c, a) && !InBounds(c, ch)
    ensures Process(c, a, ch) == Fed(a, None)
  {
  }

  /** What a chunk leaves in the pool: the other frames as they were, and its own only if that waits for more. */
  lemma ProcessLeaves(c: Config, a: Asm, ch: Chunk)
    requires Inv(c, a) && InBounds(c, ch)
    ensures var r := Process(c, a, ch);
      var t := Target(c, a, ch.id);
      var v := Judge(c, a, ch);
      && OthersSame(a, r.a, t) && (r.out.Some? <==> v.Complete?)
      && (t in r.a.used ==> v.Waiting? && t < |r.a.entries| && r.a.entries[t] == v.e)
      && (ch.id in r.a.tree <==> v.Waiting?) && (v.Waiting? ==> r.a.tree[ch.id] == t && t in r.a.used)
  {
    hide PoolOk, Open, Locate, AddChunk;
    LocateFrame(c, a, ch.id);
    LocateKeepsInv(c, a, ch.id);
  }

  lemma NothingMoved(c: Config, a: Asm, k: nat)
    requires Inv(c, a)
    ensures OthersSame(a, a, k)
  {
  }

  lemma PiecesRecorded(c: Config, a: Asm, log: Log, ch: Chunk)
    requires Inv(c, a) && Logged(a, log) && InBounds(c, ch)
    requires Acceptable(TargetEntry(c, a, ch.id), ch)
    ensures Records(Store(TargetEntry(c, a, ch.id), ch, a.time), Pieces(c, a, log, ch))
  {
    LocateFrame(c, a, ch.id);
    var e := TargetEntry(c, a, ch.id);
    var cs := Pieces(c, a, log, ch);
    var before := cs[..|cs| - 1];
    assert cs == before + [ch];
    assert Records(e, before) by {
      if e.chunks == [] {
        assert before == [] && Extents([]) == [];
      }
    }
    StoreRecords(c, e, before, ch, a.time);
  }

  lemma CompleteReassembles(c: Config, e: Entry, ch: Chunk, now: nat, cs: seq<Chunk>)
    requires Sound(c, e) && InBounds(c, ch) && AddChunk(c, e, ch, now).Complete?
    requires Records(Store(e, ch, now), cs)
    ensures var f := Store(e, ch, now);
      0 <= f.length <= |f.buffer| && Reassembles(cs, e.id, f.buffer[..f.length])
  {
    hide Tiles, Apart, Total, Acceptable;
    CompleteTiles(c, e, ch, now);
    StoreSound(c, e, ch, now);
    var f := Store(e, ch, now);
    var out := f.buffer[..f.length];
    forall i | 0 <= i < |cs|
      ensures cs[i].End() <= |out| && out[cs[i].start..cs[i].End()] == cs[i].data
    {
      assert f.chunks[i] == ExtentOf(cs[i]) && f.chunks[i] in f.chunks;
      assert f.buffer[cs[i].start..cs[i].End()] == cs[i].data;
      assert out[cs[i].start..cs[i].End()] == f.buffer[cs[i].start..cs[i].End()];
    }
  }

  /** A frame sent on is reassembled, byte for byte, from the accepted chunks of its id. */
  lemma EmissionExact(c: Config, a: Asm, log: Log, ch: Chunk)
    requires Inv(c, a) && Logged(a, log)
    requires Process(c, a, ch).out.Some?
    ensures Reassembles(Pieces(c, a, log, ch), ch.id, Process(c, a, ch).out.value)
  {
    hide Inv, Logged, Records, Reassembles, Pieces, Locate, Target, Acceptable;
    PiecesRecorded(c, a, log, ch);
    CompleteReassembles(c, TargetEntry(c, a, ch.id), ch, a.time, Pieces(c, a, log, ch));
  }

  lemma ProcessLogged(c: Config, a: Asm, log: Log, ch: Chunk)
    requires Inv(c, a) && Logged(a, log)
    ensures Logged(Process(c, a, ch).a, NextLog(c, a, log, ch))
  {
    hide Inv, Records, Pieces, Locate, Target, TargetEntry, Process;
    if InBounds(c, ch) {
      ProcessLeaves(c, a, ch);
      if Judge(c, a, ch).Waiting? {
        PiecesRecorded(c, a, log, ch);
      }
    } else {
      NothingDone(c, a, ch);
    }
  }

  lemma RecordsAnyTime(e: Entry, t: nat, cs: seq<Chunk>)
    requires Records(e, cs)
    ensures Records(e.(time := t), cs)
  {
  }

  lemma TickLogged(c: Config, a: Asm, log: Log)
    requires Inv(c, a) && Logged(a, log)
    ensures Logged(Tick(c, a), log)
  {
    if a.time == MAX_TIME {
      ReducedKeepsInv(c, a);
      var r := Tick(c, a);
      forall j | j in r.used
        ensures j < |r.entries| && j in log && Records(r.entries[j], log[j])
      {
        RecordsAnyTime(a.entries[j], r.entries[j].time, log[j]);
      }
    }
  }

  // ----- whole runs -----

  datatype Event = Got(ch: Chunk) | EndPacket

  datatype Trace = Trace(a: Asm, log: Log, heard: seq<Chunk>)

  ghost predicate Good(c: Config, t: Trace) {
    && Inv(c, t.a) && Logged(t.a, t.log)
    && (forall k, i :: k in t.a.used && 0 <= i < |t.log[k]| ==> t.log[k][i] in t.heard)
  }

  function Next(c: Config, t: Trace, e: Event): (r: Trace)
    requires Good(c, t)
    ensures Good(c, r)
  {
    match e
    case Got(ch) =>
      NextGood(c, t, ch);
      Trace(Process(c, t.a, ch).a, NextLog(c, t.a, t.log, ch), t.heard + [ch])
    case EndPacket =>
      TickLogged(c, t.a, t.log);
      assert Good(c, Trace(Tick(c, t.a), t.log, t.heard)) by {
        if t.a.time == MAX_TIME { ReducedKeepsInv(c, t.a); }
      }
      Trace(Tick(c, t.a), t.log, t.heard)
  }

  lemma PiecesHeard(c: Config, t: Trace, ch: Chunk)
    requires Good(c, t)
    ensures forall i :: 0 <= i < |Pieces(c, t.a, t.log, ch)| ==> Pieces(c, t.a, t.log, ch)[i] in t.heard + [ch]
  {
    LocateFrame(c, t.a, ch.id);
  }

  lemma NextGood(c: Config, t: Trace, ch: Chunk)
    requires Good(c, t)
    ensures Good(c, Trace(Process(c, t.a, ch).a, NextLog(c, t.a, t.log, ch), t.heard + [ch]))
  {
    ProcessLogged(c, t.a, t.log, ch);
    PiecesHeard(c, t, ch);
    var b := Process(c, t.a, ch).a;
    var log := NextLog(c, t.a, t.log, ch);
    LocateFrame(c, t.a, ch.id);
    forall k, i | k in b.used && 0 <= i < |log[k]|
      ensures log[k][i] in t.heard + [ch]
    {
      if InBounds(c, ch) && k == Target(c, t.a, ch.id) {
      } else {
        assert t.log[k][i] in t.heard;
      }
    }
  }

  function RunTrace(c: Config, t: Trace, es: seq<Event>): (r: Trace)
    requires Good(c, t)
    ensures Good(c, r)
    decreases |es|
  {
    if es == [] then t else RunTrace(c, Next(c, t, es[0]), es[1..])
  }

  /** After FragmentProtoAssembler_Init: every entry free, its contents whatever the allocator left. */
  function Started(c: Config, junk: seq<Entry>): (a: Asm)
    requires c.Valid() && |junk| == c.numFrames
    requires forall k :: 0 <= k < |junk| ==> |junk[k].buffer| == c.outputMtu
    ensures Inv(c, a) && a.used == []
  {
    Asm(junk, [], Range(c.numFrames), map[], 0)
  }

  /** In any run, whatever the network sends, a frame is emitted only if chunks heard in that run tile it exactly. */
  lemma EveryEmissionTiled(c: Config, junk: seq<Entry>, es: seq<Event>, ch: Chunk)
    requires c.Valid() && |junk| == c.numFrames
    requires forall k :: 0 <= k < |junk| ==> |junk[k].buffer| == c.outputMtu
    ensures var t := RunTrace(c, Trace(Started(c, junk), map[], []), es);
      Process(c, t.a, ch).out.Some? ==> exists cs ::
        && Reassembles(cs, ch.id, Process(c, t.a, ch).out.value)
        && forall i :: 0 <= i < |cs| ==> cs[i] in t.heard + [ch]
  {
    var t := RunTrace(c, Trace(Started(c, junk), map[], []), es);
    if Process(c, t.a, ch).out.Some? {
      EmissionExact(c, t.a, t.log, ch);
      PiecesHeard(c, t, ch);
    }
  }
}
