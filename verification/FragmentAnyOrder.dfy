/** The chunks of one frame may arrive in any order, mixed with other frames: as long as its entry lives, it is rebuilt. */
module FragmentAnyOrder {
  import opened Bytes
  import opened FragmentProto
  import opened FragmentAssembler
  import opened FragmentEmission
  import opened Seqs
  import opened Tiling
  import opened Wrappers

  /** `ps` are the consecutive pieces of `frame`, the final one flagged, none empty unless it is alone. */
  ghost predicate IsSplit(ps: seq<Chunk>, id: nat, frame: seq<byte>) {
    && ps != [] && ps[0].start == 0 && ps[|ps| - 1].End() == |frame|
    && (forall i :: 0 <= i < |ps| - 1 ==> ps[i].End() == ps[i + 1].start)
    && (forall i :: 0 <= i < |ps| ==>
          && ps[i].id == id && ps[i].End() <= |frame| && ps[i].data == frame[ps[i].start..ps[i].End()]
          && (ps[i].last <==> i == |ps| - 1) && (|ps| > 1 ==> ps[i].data != []))
  }

  lemma {:induction false} PiecesAscend(ps: seq<Chunk>, id: nat, frame: seq<byte>, i: nat, j: nat)
    requires IsSplit(ps, id, frame) && i < j < |ps|
    ensures ps[i].End() <= ps[j].start
    decreases j
  {
    if i < j - 1 {
      PiecesAscend(ps, id, frame, i, j - 1);
    }
  }

  lemma {:induction false} PieceAt(ps: seq<Chunk>, id: nat, frame: seq<byte>, p: nat, n: nat) returns (i: nat)
    requires IsSplit(ps, id, frame) && n < |ps| && p < ps[n].End()
    ensures i <= n && ExtentOf(ps[i]).Covers(p)
    decreases n
  {
    if ps[n].start <= p {
      i := n;
    } else {
      i := PieceAt(ps, id, frame, p, n - 1);
    }
  }

  /** A choice of pieces, each at most once. */
  ghost predicate Chosen(ps: seq<Chunk>, idx: seq<nat>) {
    Distinct(idx) && forall j :: 0 <= j < |idx| ==> idx[j] < |ps|
  }

  function Pick(ps: seq<Chunk>, idx: seq<nat>): (r: seq<Chunk>)
    requires forall j :: 0 <= j < |idx| ==> idx[j] < |ps|
    ensures |r| == |idx| && forall j :: 0 <= j < |idx| ==> r[j] == ps[idx[j]]
  {
    seq(|idx|, j requires 0 <= j < |idx| => ps[idx[j]])
  }

  /** The entry holds exactly the chosen pieces. */
  ghost predicate Holds(c: Config, e: Entry, ps: seq<Chunk>, frame: seq<byte>, idx: seq<nat>) {
    Sound(c, e) && Chosen(ps, idx) && Records(e, Pick(ps, idx)) && e.soFar <= |frame|
  }

  lemma PiecesApart(ps: seq<Chunk>, id: nat, frame: seq<byte>, i: nat, j: nat)
    requires IsSplit(ps, id, frame) && i < |ps| && j < |ps| && i != j
    ensures !Overlap(ExtentOf(ps[i]), ExtentOf(ps[j]))
  {
    if i < j {
      PiecesAscend(ps, id, frame, i, j);
    } else {
      PiecesAscend(ps, id, frame, j, i);
    }
  }

  lemma PieceAcceptable(c: Config, e: Entry, ps: seq<Chunk>, id: nat, frame: seq<byte>, idx: seq<nat>, x: nat)
    requires IsSplit(ps, id, frame) && Holds(c, e, ps, frame, idx) && x < |ps| && x !in idx
    ensures Acceptable(e, ps[x])
  {
    var cs := Pick(ps, idx);
    forall i | 0 <= i < |e.chunks|
      ensures !Overlap(e.chunks[i], ExtentOf(ps[x]))
    {
      assert idx[i] in idx;
      PiecesApart(ps, id, frame, idx[i], x);
    }
    if e.length >= 0 {
      var i :| 0 <= i < |cs| && cs[i].last;
      assert idx[i] in idx && idx[i] == |ps| - 1;
    }
  }

  lemma StoreHolds(c: Config, e: Entry, ps: seq<Chunk>, id: nat, frame: seq<byte>, idx: seq<nat>, x: nat, now: nat)
    requires IsSplit(ps, id, frame) && |frame| <= c.outputMtu && e.id == id
    requires Holds(c, e, ps, frame, idx) && x < |ps| && x !in idx
    ensures Acceptable(e, ps[x]) && InBounds(c, ps[x])
    ensures Holds(c, Store(e, ps[x], now), ps, frame, idx + [x])
  {
    hide Apart, Within, Total, Records, Acceptable;
    PieceAcceptable(c, e, ps, id, frame, idx, x);
    StoreSound(c, e, ps[x], now);
    StoreRecords(c, e, Pick(ps, idx), ps[x], now);
    assert Pick(ps, idx + [x]) == Pick(ps, idx) + [ps[x]];
  }

  // ----- counting cells -----

  lemma PickCovers(ps: seq<Chunk>, id: nat, frame: seq<byte>, idx: seq<nat>)
    requires IsSplit(ps, id, frame) && Chosen(ps, idx)
    requires forall i :: 0 <= i < |ps| ==> i in idx
    ensures forall p :: 0 <= p < |frame| ==> Covered(Extents(Pick(ps, idx)), p)
  {
    var xs := Extents(Pick(ps, idx));
    forall p | 0 <= p < |frame|
      ensures Covered(xs, p)
    {
      var i := PieceAt(ps, id, frame, p, |ps| - 1);
      assert i in idx;
      var j :| 0 <= j < |idx| && idx[j] == i;
      assert xs[j] == ExtentOf(ps[i]);
    }
  }

  /** With every piece chosen, the cells are those of the whole frame. */
  lemma AllChosen(c: Config, e: Entry, ps: seq<Chunk>, id: nat, frame: seq<byte>, idx: seq<nat>)
    requires IsSplit(ps, id, frame) && Holds(c, e, ps, frame, idx)
    requires forall i :: 0 <= i < |ps| ==> i in idx
    ensures e.length == |frame| && e.sum == |frame|
  {
    assert |ps| - 1 in idx;
    var l :| 0 <= l < |idx| && idx[l] == |ps| - 1;
    assert Pick(ps, idx)[l].last;
    PickCovers(ps, id, frame, idx);
    CoveredTiles(e.chunks, |frame|);
    Pigeonhole(e.chunks, |frame|);
  }

  lemma CoveredTiles(xs: seq<Extent>, n: nat)
    requires Apart(xs) && Within(xs, n) && forall p :: 0 <= p < n ==> Covered(xs, p)
    ensures Tiles(xs, n)
  {
  }

  /** No chosen piece reaches into one that was not chosen. */
  lemma MissingCell(ps: seq<Chunk>, id: nat, frame: seq<byte>, idx: seq<nat>, y: nat)
    requires IsSplit(ps, id, frame) && Chosen(ps, idx) && y < |ps| && y !in idx && |ps| > 1
    ensures ps[y].start < |frame| && !Covered(Extents(Pick(ps, idx)), ps[y].start)
  {
    var p, xs := ps[y].start, Extents(Pick(ps, idx));
    assert ps[y].data != [] && ps[y].End() <= |frame|;
    forall i | 0 <= i < |xs|
      ensures !xs[i].Covers(p)
    {
      assert idx[i] in idx && xs[i] == ExtentOf(ps[idx[i]]);
      PiecesApart(ps, id, frame, idx[i], y);
    }
  }

  lemma LengthKnown(e: Entry, ps: seq<Chunk>, id: nat, frame: seq<byte>, idx: seq<nat>)
    requires IsSplit(ps, id, frame) && Chosen(ps, idx) && Records(e, Pick(ps, idx)) && e.length >= 0
    ensures e.length == |frame|
  {
    var cs := Pick(ps, idx);
    var l :| 0 <= l < |cs| && cs[l].last;
    assert cs[l] == ps[idx[l]];
  }

  /** With a non-empty piece missing, the frame cannot be complete. */
  lemma OneMissing(c: Config, e: Entry, ps: seq<Chunk>, id: nat, frame: seq<byte>, idx: seq<nat>, y: nat)
    requires IsSplit(ps, id, frame) && Holds(c, e, ps, frame, idx)
    requires y < |ps| && y !in idx && |ps| > 1
    ensures e.length < 0 || e.sum < e.length
  {
    hide IsSplit, Chosen, Covered, Apart, Within, Total;
    if e.length >= 0 {
      LengthKnown(e, ps, id, frame, idx);
      MissingCell(ps, id, frame, idx, y);
      Pigeonhole(e.chunks, e.length);
    }
  }

  lemma ReassembledFrame(cs: seq<Chunk>, ps: seq<Chunk>, id: nat, frame: seq<byte>, idx: seq<nat>, out: seq<byte>)
    requires IsSplit(ps, id, frame) && Chosen(ps, idx) && cs == Pick(ps, idx)
    requires Reassembles(cs, id, out) && |out| == |frame|
    ensures out == frame
  {
    hide Distinct, Apart, Within, Total;
    forall p | 0 <= p < |out|
      ensures out[p] == frame[p]
    {
      assert Covered(Extents(cs), p);
      var i :| 0 <= i < |cs| && Extents(cs)[i].Covers(p);
      SameByte(out, frame, cs[i].start, cs[i].End(), p);
    }
  }

  lemma SameByte(a: seq<byte>, b: seq<byte>, lo: nat, hi: nat, p: nat)
    requires lo <= p < hi <= |a| && hi <= |b| && a[lo..hi] == b[lo..hi]
    ensures a[p] == b[p]
  {
    assert a[p] == a[lo..hi][p - lo] && b[p] == b[lo..hi][p - lo];
  }

  lemma Pigeons(idx: seq<nat>, n: nat)
    requires Distinct(idx) && forall j :: 0 <= j < |idx| ==> idx[j] < n
    ensures |idx| <= n
    ensures |idx| == n <==> forall i :: 0 <= i < n ==> i in idx
  {
    DistinctSize(idx);
    SubsetSize(Elements(idx), Interval(0, n));
    if forall i :: 0 <= i < n ==> i in idx {
      assert Interval(0, n) <= Elements(idx);
      SubsetSize(Interval(0, n), Elements(idx));
    }
    if |idx| == n {
      forall i | 0 <= i < n
        ensures i in idx
      {
        assert i in Interval(0, n);
      }
    }
  }

  /** Adding a piece: the frame waits until its pieces are all there, and is then exactly the original. */
  lemma PieceAdded(c: Config, e: Entry, ps: seq<Chunk>, id: nat, frame: seq<byte>, idx: seq<nat>, x: nat, now: nat)
    requires IsSplit(ps, id, frame) && |frame| <= c.outputMtu && |ps| <= c.numChunks && e.id == id
    requires Holds(c, e, ps, frame, idx) && x < |ps| && x !in idx
    ensures InBounds(c, ps[x])
    ensures var v := AddChunk(c, e, ps[x], now);
      if |idx| + 1 < |ps| then v.Waiting? && Holds(c, v.e, ps, frame, idx + [x])
      else v.Complete? && v.e.length == |frame| && v.e.buffer[..v.e.length] == frame
  {
    hide Apart, Within, Total, Tiles, Acceptable, Reassembles;
    StoreHolds(c, e, ps, id, frame, idx, x, now);
    var f := Store(e, ps[x], now);
    var more := idx + [x];
    Pigeons(more, |ps|);
    if |more| < |ps| {
      var y :| 0 <= y < |ps| && y !in more;
      OneMissing(c, f, ps, id, frame, more, y);
    } else {
      AllChosen(c, f, ps, id, frame, more);
      CompleteReassembles(c, e, ps[x], now, Pick(ps, more));
      ReassembledFrame(Pick(ps, more), ps, id, frame, more, f.buffer[..f.length]);
    }
  }

  // ----- whole runs -----

  function Apply(c: Config, a: Asm, e: Event): (r: Asm)
    requires Inv(c, a)
    ensures Inv(c, r)
  {
    match e
    case Got(ch) => Process(c, a, ch).a
    case EndPacket => Tick(c, a)
  }

  function ChunksOf(es: seq<Event>, id: nat): seq<Chunk> {
    if es == [] then []
    else (if es[0].Got? && es[0].ch.id == id then [es[0].ch] else []) + ChunksOf(es[1..], id)
  }

  /** The frames emitted on account of chunks of `id`. */
  function FramesOf(c: Config, a: Asm, es: seq<Event>, id: nat): seq<seq<byte>>
    requires Inv(c, a)
    decreases |es|
  {
    if es == [] then []
    else
      (if es[0].Got? && es[0].ch.id == id && Process(c, a, es[0].ch).out.Some? then [Process(c, a, es[0].ch).out.value]
       else []) + FramesOf(c, Apply(c, a, es[0]), es[1..], id)
  }

  /** When a chunk of `id` comes, the frame has an entry that has not timed out, except for its first chunk. */
  ghost predicate Lives(c: Config, a: Asm, es: seq<Event>, id: nat, begun: bool)
    requires Inv(c, a)
    decreases |es|
  {
    es == [] || (
      var mine := es[0].Got? && es[0].ch.id == id;
      && (mine ==> (HasEntry(c, a, id) <==> begun))
      && Lives(c, Apply(c, a, es[0]), es[1..], id, begun || mine))
  }

  ghost predicate Progress(c: Config, a: Asm, ps: seq<Chunk>, id: nat, frame: seq<byte>, idx: seq<nat>)
    requires Inv(c, a)
  {
    id in a.tree ==> Holds(c, a.entries[a.tree[id]], ps, frame, idx)
  }

  lemma TickProgress(c: Config, a: Asm, ps: seq<Chunk>, id: nat, frame: seq<byte>, idx: seq<nat>)
    requires Inv(c, a) && Progress(c, a, ps, id, frame, idx)
    ensures Progress(c, Tick(c, a), ps, id, frame, idx)
  {
    TickAges(c, a);
    var r := Tick(c, a);
    if id in r.tree {
      var k := r.tree[id];
      RecordsAnyTime(a.entries[k], r.entries[k].time, Pick(ps, idx));
    }
  }

  lemma OtherProgress(c: Config, a: Asm, ps: seq<Chunk>, id: nat, frame: seq<byte>, idx: seq<nat>, ch: Chunk)
    requires Inv(c, a) && Progress(c, a, ps, id, frame, idx) && ch.id != id
    ensures Progress(c, Process(c, a, ch).a, ps, id, frame, idx)
  {
    if InBounds(c, ch) {
      LocateFrame(c, a, ch.id);
      LocateKeepsInv(c, a, ch.id);
      var b := Locate(c, a, ch.id);
      var r := Process(c, a, ch).a;
      if id in r.tree {
        var k := r.tree[id];
        assert k in b.used && r.entries[k].id == id;
        assert k != Target(c, a, ch.id);
        assert r.entries[k] == a.entries[k] && k in a.used;
      }
    }
  }

  lemma EmptyHolds(c: Config, e: Entry, ps: seq<Chunk>, frame: seq<byte>)
    requires Sound(c, e) && e.chunks == [] && e.length == -1 && e.soFar == 0
    ensures Holds(c, e, ps, frame, [])
  {
    assert Pick(ps, []) == [] && Extents([]) == [];
  }

  lemma MyEntry(c: Config, a: Asm, ps: seq<Chunk>, id: nat, frame: seq<byte>, idx: seq<nat>)
    requires Inv(c, a)
    requires idx != [] ==> Progress(c, a, ps, id, frame, idx)
    requires HasEntry(c, a, id) <==> idx != []
    ensures Holds(c, TargetEntry(c, a, id), ps, frame, idx)
  {
    if idx == [] {
      FreshTarget(c, a, id);
      EmptyHolds(c, TargetEntry(c, a, id), ps, frame);
    }
  }

  lemma MyProgress(c: Config, a: Asm, ps: seq<Chunk>, id: nat, frame: seq<byte>, idx: seq<nat>, x: nat)
    requires Inv(c, a) && IsSplit(ps, id, frame) && |frame| <= c.outputMtu && |ps| <= c.numChunks
    requires Chosen(ps, idx) && x < |ps| && x !in idx
    requires idx != [] ==> Progress(c, a, ps, id, frame, idx)
    requires HasEntry(c, a, id) <==> idx != []
    ensures var r := Process(c, a, ps[x]);
      if |idx| + 1 < |ps| then r.out.None? && Progress(c, r.a, ps, id, frame, idx + [x])
      else r.out == Some(frame)
  {
    MyEntry(c, a, ps, id, frame, idx);
    PieceAdded(c, TargetEntry(c, a, id), ps, id, frame, idx, x, a.time);
    LocateKeepsInv(c, a, id);
  }

  lemma FirstOfPick(ps: seq<Chunk>, rest: seq<nat>, es: seq<Event>, id: nat)
    requires Chosen(ps, rest) && ChunksOf(es, id) == Pick(ps, rest)
    requires es != [] && es[0].Got? && es[0].ch.id == id
    ensures rest != [] && es[0].ch == ps[rest[0]]
    ensures Chosen(ps, rest[1..]) && ChunksOf(es[1..], id) == Pick(ps, rest[1..])
  {
    assert ChunksOf(es, id) == [es[0].ch] + ChunksOf(es[1..], id);
    assert es[0].ch == ChunksOf(es, id)[0];
    assert ChunksOf(es[1..], id) == ChunksOf(es, id)[1..] == Pick(ps, rest[1..]);
  }

  /** Other events keep what the frame has. */
  lemma ElseProgress(c: Config, a: Asm, ps: seq<Chunk>, id: nat, frame: seq<byte>, idx: seq<nat>, e: Event)
    requires Inv(c, a) && Progress(c, a, ps, id, frame, idx) && !(e.Got? && e.ch.id == id)
    ensures Progress(c, Apply(c, a, e), ps, id, frame, idx)
  {
    match e
    case Got(ch) => OtherProgress(c, a, ps, id, frame, idx, ch);
    case EndPacket => TickProgress(c, a, ps, id, frame, idx);
  }

  /** `idx` are the pieces that have come, `rest` those still to come, in their order. */
  ghost predicate Order(ps: seq<Chunk>, idx: seq<nat>, rest: seq<nat>) {
    && Chosen(ps, idx) && Chosen(ps, rest) && |idx| + |rest| == |ps|
    && (forall j :: 0 <= j < |rest| ==> rest[j] !in idx)
  }

  lemma OrderNext(ps: seq<Chunk>, idx: seq<nat>, rest: seq<nat>)
    requires Order(ps, idx, rest) && rest != []
    ensures Order(ps, idx + [rest[0]], rest[1..])
  {
    assert rest[0] !in idx;
    forall j | 0 <= j < |rest[1..]|
      ensures rest[1..][j] !in idx + [rest[0]]
    {
      assert rest[1..][j] == rest[j + 1];
    }
  }

  lemma {:induction false} RestOfRun(c: Config, a: Asm, es: seq<Event>, ps: seq<Chunk>, id: nat, frame: seq<byte>,
                                     idx: seq<nat>, rest: seq<nat>)
    requires Inv(c, a) && IsSplit(ps, id, frame) && |frame| <= c.outputMtu && |ps| <= c.numChunks
    requires Order(ps, idx, rest)
    requires ChunksOf(es, id) == Pick(ps, rest) && Lives(c, a, es, id, idx != [])
    requires idx != [] && rest != [] ==> Progress(c, a, ps, id, frame, idx)
    ensures FramesOf(c, a, es, id) == if rest == [] then [] else [frame]
    decreases |es|
  {
    if es == [] {
    } else if es[0].Got? && es[0].ch.id == id {
      FirstOfPick(ps, rest, es, id);
      OrderNext(ps, idx, rest);
      MyProgress(c, a, ps, id, frame, idx, rest[0]);
      RestOfRun(c, Apply(c, a, es[0]), es[1..], ps, id, frame, idx + [rest[0]], rest[1..]);
    } else {
      assert ChunksOf(es[1..], id) == ChunksOf(es, id);
      if idx != [] && rest != [] {
        ElseProgress(c, a, ps, id, frame, idx, es[0]);
      }
      RestOfRun(c, Apply(c, a, es[0]), es[1..], ps, id, frame, idx, rest);
    }
  }

  /**
  Let the chunks of `id` in a run be those of one frame, in any order, with anything else in between.  If the frame's
  entry lives through them, the run emits exactly that frame for `id`, once.
  */
  lemma AnyOrder(c: Config, a: Asm, es: seq<Event>, ps: seq<Chunk>, id: nat, frame: seq<byte>, order: seq<nat>)
    requires Inv(c, a) && IsSplit(ps, id, frame) && |frame| <= c.outputMtu && |ps| <= c.numChunks
    requires Chosen(ps, order) && |order| == |ps|
    requires ChunksOf(es, id) == Pick(ps, order) && Lives(c, a, es, id, false)
    ensures FramesOf(c, a, es, id) == [frame]
  {
    RestOfRun(c, a, es, ps, id, frame, [], order);
  }
}
