/**
The generated writer and parser as objects: a buffer filled from the front, and one cursor per field.
*/
module BProtoObject {
  import opened Bytes
  import opened BProto
  import opened Seqs
  import opened Wrappers

  lemma {:induction false} WrittenAppend(schema: seq<Field>, adds: seq<Add>, i: nat, v: Value)
    requires Addable(schema, adds) && i < |schema| && Fits(schema[i], v)
    ensures Addable(schema, adds + [Add(i, v)])
    ensures Written(schema, adds + [Add(i, v)]) == Written(schema, adds) + Entry(schema[i], v)
    ensures TotalSize(schema, adds + [Add(i, v)]) == TotalSize(schema, adds) + SizeOf(schema[i], v)
  {
    var a := Add(i, v);
    var all := adds + [a];
    assert Addable(schema, all);
    if adds == [] {
      assert all == [a] && all[1..] == [];
      assert Written(schema, all) == Entry(schema[i], v) + Written(schema, []);
    } else {
      var tail := adds[1..];
      WrittenAppend(schema, tail, i, v);
      assert all[1..] == tail + [a] && all[0] == adds[0];
      Associate(Entry(schema[adds[0].i], adds[0].v), Written(schema, tail), Entry(schema[i], v));
      assert Written(schema, all) == Entry(schema[adds[0].i], adds[0].v) + Written(schema, tail + [a]);
    }
  }

  lemma {:induction false} AddedAppend(adds: seq<Add>, a: Add, i: nat)
    ensures Added(adds + [a], i) == Added(adds, i) + (if a.i == i then [a.v] else [])
  {
    var all, last := adds + [a], if a.i == i then [a.v] else [];
    if adds == [] {
      assert all == [a] && all[1..] == [];
    } else {
      assert all[1..] == adds[1..] + [a] && all[0] == adds[0];
      AddedAppend(adds[1..], a, i);
      Associate(if adds[0].i == i then [adds[0].v] else [], Added(adds[1..], i), last);
    }
  }

  lemma CountAdd(counts: seq<nat>, adds: seq<Add>, a: Add)
    requires a.i < |counts| && forall i :: 0 <= i < |counts| ==> counts[i] == |Added(adds, i)|
    ensures var now := counts[a.i := counts[a.i] + 1];
      forall i :: 0 <= i < |now| ==> now[i] == |Added(adds + [a], i)|
  {
    forall i | 0 <= i < |counts|
      ensures |Added(adds + [a], i)| == counts[i] + if i == a.i then 1 else 0
    {
      AddedAppend(adds, a, i);
    }
  }

  class Writer {
    const schema: seq<Field>
    const out: array<byte>
    var used: nat
    var counts: seq<nat>
    /** Everything added so far. */
    ghost var adds: seq<Add>

    ghost predicate Valid()
      reads this, out
    {
      && Addable(schema, adds)
      && used == TotalSize(schema, adds) == |Written(schema, adds)| <= out.Length
      && out[..used] == Written(schema, adds)
      && |counts| == |schema| && forall i :: 0 <= i < |schema| ==> counts[i] == |Added(adds, i)|
    }

    constructor (schema: seq<Field>, out: array<byte>)
      ensures Valid() && this.schema == schema && this.out == out && adds == []
    {
      this.schema := schema;
      this.out := out;
      used := 0;
      counts := seq(|schema|, _ => 0);
      adds := [];
    }

    /** memcpy to the end of what is written. */
    method Append(src: seq<byte>)
      requires used + |src| <= out.Length
      modifies out, this`used
      ensures used == old(used) + |src| && out[..used] == old(out[..used]) + src
    {
      var at := used;
      forall i | 0 <= i < |src| {
        out[at + i] := src[i];
      }
      used := used + |src|;
    }

    /** Header and value of one entry. */
    method AppendEntry(f: Field, v: Value)
      requires Fits(f, v) && used + SizeOf(f, v) <= out.Length
      modifies out, this`used
      ensures used == old(used) + SizeOf(f, v) && out[..used] == old(out[..used]) + Entry(f, v)
    {
      ghost var before := out[..used];
      Append(Le(f.id, 2) + Le(f.kind.Code(), 2));
      if f.kind.IsData() {
        Append(Le(|v.bytes|, 4));
        Append(v.bytes);
      } else {
        Append(Le(v.n, Width(f.kind.Code())));
      }
      assert out[..used] == before + Entry(f, v);
    }

    /** The Add function of field `i`; for data, together with the caller's filling of the returned space. */
    method Add(i: nat, v: Value)
      requires Valid() && i < |schema| && Fits(schema[i], v) && used + SizeOf(schema[i], v) <= out.Length
      requires (schema[i].card.Optional? || schema[i].card.Required?) ==> counts[i] == 0
      modifies this, out
      ensures Valid() && adds == old(adds) + [BProto.Add(i, v)]
    {
      WrittenAppend(schema, adds, i, v);
      CountAdd(counts, adds, BProto.Add(i, v));
      AppendEntry(schema[i], v);
      counts := counts[i := counts[i] + 1];
      adds := adds + [BProto.Add(i, v)];
    }

    /** The length of the message; its reader will find every value, as RoundTrip says. */
    method Finish() returns (len: nat)
      requires Valid() && forall i :: 0 <= i < |schema| ==> schema[i].card.Allows(counts[i])
      ensures len == TotalSize(schema, adds) <= out.Length && out[..len] == Written(schema, adds)
      ensures forall i :: 0 <= i < |schema| ==> schema[i].card.Allows(|Added(adds, i)|)
    {
      len := used;
    }
  }

  function Pack(start: seq<nat>, span: seq<nat>, count: seq<nat>): (ts: seq<Tally>)
    requires |start| == |span| == |count|
    ensures |ts| == |start| && forall i :: 0 <= i < |ts| ==> ts[i] == Tally(start[i], span[i], count[i])
  {
    seq(|start|, i requires 0 <= i < |start| => Tally(start[i], span[i], count[i]))
  }

  /** One round of the scan over an entry that belongs to a field. */
  lemma ScanRound(schema: seq<Field>, buf: seq<byte>, at: nat, ts: seq<Tally>)
    requires at < |buf| && Ready(schema, |buf|, ts, at) && NextRaw(buf[at..]).Some?
    requires Lookup(schema, NextRaw(buf[at..]).value).Some?
    ensures var end := at + NextRaw(buf[at..]).value.size;
      var i := Lookup(schema, NextRaw(buf[at..]).value).value;
      var us := ts[i := Counted(ts[i], |buf|, at, end)];
      && (ts[i].start == |buf| || ts[i].start <= end)
      && Ready(schema, |buf|, us, end) && Scan(schema, buf, at, ts) == Scan(schema, buf, end, us)
  {
  }

  // ----- what the getters keep -----

  /** The parser with field `i`'s cursor `n` bytes further. */
  function Moved(p: Parser, i: nat, n: nat): Parser
    requires i < |p.pos|
  {
    p.(pos := p.pos[i := p.pos[i] + n])
  }

  lemma LeftOk(schema: seq<Field>, items: seq<Raw>, p: Parser, i: nat)
    requires Sound(schema, items, p) && i < |schema|
    ensures RestOk(p, i) && Items(Rest(p, i)).Some?
  {
    hide Items, NextRaw, Values, Offset, Hit;
    var a: nat, c: nat, e: nat :| SoundAt(schema[i], items, p, i, a, c, e);
    LeftAt(schema[i], items, p, i, a, c, e);
  }

  ghost function LeftOf(schema: seq<Field>, items: seq<Raw>, p: Parser, i: nat): seq<Value>
    requires Sound(schema, items, p) && i < |schema|
  {
    LeftOk(schema, items, p, i);
    Values(schema[i], Items(Rest(p, i)).value)
  }

  lemma LeftAt(f: Field, items: seq<Raw>, p: Parser, i: nat, a: nat, c: nat, e: nat)
    requires Items(p.buf) == Some(items)
    requires i < |p.start| && i < |p.span| && i < |p.pos| && SoundAt(f, items, p, i, a, c, e)
    ensures RestOk(p, i) && Items(Rest(p, i)).Some? && Values(f, Items(Rest(p, i)).value) == Values(f, items[c..])
  {
    hide Items, NextRaw, Values, Offset;
    CutItems(p.buf, items, c, e);
    ValuesTail(f, items, c, e);
  }

  /** Moving one cursor to a boundary of its span keeps the parser sound and leaves the other fields alone. */
  lemma CursorMoved(schema: seq<Field>, items: seq<Raw>, p: Parser, q: Parser, i: nat, a: nat, c: nat, e: nat)
    requires Sound(schema, items, p) && i < |schema| && |q.pos| == |p.pos|
    requires q == p.(pos := p.pos[i := q.pos[i]]) && SoundAt(schema[i], items, q, i, a, c, e)
    ensures Sound(schema, items, q) && LeftOf(schema, items, q, i) == Values(schema[i], items[c..])
    ensures forall j :: 0 <= j < |schema| && j != i ==> LeftOf(schema, items, q, j) == LeftOf(schema, items, p, j)
  {
    hide Items, NextRaw, Values, Offset, Hit;
    forall j | 0 <= j < |schema|
      ensures SoundField(schema[j], items, q, j)
    {
      if j != i {
        var a': nat, c': nat, e': nat :| SoundAt(schema[j], items, p, j, a', c', e');
        assert SoundAt(schema[j], items, q, j, a', c', e');
      }
    }
    LeftAt(schema[i], items, q, i, a, c, e);
    forall j | 0 <= j < |schema| && j != i
      ensures LeftOf(schema, items, q, j) == LeftOf(schema, items, p, j)
    {
      LeftOk(schema, items, p, j);
      assert Rest(q, j) == Rest(p, j);
    }
  }

  lemma GetKeeps(schema: seq<Field>, items: seq<Raw>, p: Parser, i: nat)
    requires Sound(schema, items, p) && i < |schema|
    ensures RestOk(p, i)
    ensures var g := Seek(schema[i], Rest(p, i));
      var left := LeftOf(schema, items, p, i);
      && !g.Crash? && Sound(schema, items, Moved(p, i, g.used))
      && (forall j :: 0 <= j < |schema| && j != i ==>
            LeftOf(schema, items, Moved(p, i, g.used), j) == LeftOf(schema, items, p, j))
      && (if left == [] then g.Nothing? && LeftOf(schema, items, Moved(p, i, g.used), i) == []
          else g.Found? && g.v == left[0] && LeftOf(schema, items, Moved(p, i, g.used), i) == left[1..])
  {
    hide Items, NextRaw, Values, Offset, Hit, Seek;
    var a: nat, c: nat, e: nat :| SoundAt(schema[i], items, p, i, a, c, e);
    LeftAt(schema[i], items, p, i, a, c, e);
    var c' := GetExact(schema[i], items, p, i, a, c, e);
    var g := Seek(schema[i], Rest(p, i));
    CursorMoved(schema, items, p, Moved(p, i, g.used), i, a, c', e);
  }

  lemma ResetKeeps(schema: seq<Field>, items: seq<Raw>, p: Parser, i: nat)
    requires Sound(schema, items, p) && i < |schema|
    ensures var q := p.(pos := p.pos[i := 0]);
      && Sound(schema, items, q) && LeftOf(schema, items, q, i) == Values(schema[i], items)
      && (forall j :: 0 <= j < |schema| && j != i ==> LeftOf(schema, items, q, j) == LeftOf(schema, items, p, j))
  {
    hide Items, NextRaw, Values, Offset, Hit;
    var a: nat, c: nat, e: nat :| SoundAt(schema[i], items, p, i, a, c, e);
    CursorMoved(schema, items, p, p.(pos := p.pos[i := 0]), i, a, a, e);
    ValuesAppend(schema[i], items[..a], items[a..]);
    assert items[..a] + items[a..] == items;
  }

  lemma ForwardKeeps(schema: seq<Field>, items: seq<Raw>, p: Parser, i: nat)
    requires Sound(schema, items, p) && i < |schema|
    ensures var q := p.(pos := p.pos[i := p.span[i]]);
      && Sound(schema, items, q) && LeftOf(schema, items, q, i) == []
      && (forall j :: 0 <= j < |schema| && j != i ==> LeftOf(schema, items, q, j) == LeftOf(schema, items, p, j))
  {
    hide Items, NextRaw, Values, Offset, Hit;
    var a: nat, c: nat, e: nat :| SoundAt(schema[i], items, p, i, a, c, e);
    CursorMoved(schema, items, p, p.(pos := p.pos[i := p.span[i]]), i, a, e, e);
  }

  lemma DoneMeans(schema: seq<Field>, items: seq<Raw>, p: Parser, i: nat)
    requires Sound(schema, items, p) && i < |schema|
    ensures p.pos[i] == p.span[i] <==> LeftOf(schema, items, p, i) == []
  {
    hide Items, NextRaw, Values, Offset, Hit;
    var a: nat, c: nat, e: nat :| SoundAt(schema[i], items, p, i, a, c, e);
    LeftAt(schema[i], items, p, i, a, c, e);
    DoneExact(schema[i], items, p, i, a, c, e);
  }

  lemma SliceOfSlice<T>(b: seq<T>, lo: nat, hi: nat, n: nat)
    requires lo <= hi <= |b| && n <= hi - lo
    ensures b[lo..hi][n..] == b[lo + n..hi]
  {
  }

  /** One round of a getter's loop, `used` bytes into the rest of its span. */
  lemma SeekRound(f: Field, rest: seq<byte>, used: nat)
    requires used < |rest| && Seek(f, rest) == Skip(Seek(f, rest[used..]), used) && !Seek(f, rest).Crash?
    ensures NextRaw(rest[used..]).Some?
    ensures var r := NextRaw(rest[used..]).value;
      if Hit(f, r) then Seek(f, rest) == Found(ValueOf(r), used + r.size)
      else used + r.size <= |rest| && Seek(f, rest) == Skip(Seek(f, rest[used + r.size..]), used + r.size)
  {
    var r := NextRaw(rest[used..]);
    if r.Some? {
      SliceOfSlice(rest, used, |rest|, r.value.size);
    }
  }

  /** The loop of a Get function over the rest of its span; `used` is how far it moves the cursor. */
  method SeekNext(f: Field, rest: seq<byte>) returns (v: Option<Value>, used: nat)
    requires !Seek(f, rest).Crash?
    ensures var g := Seek(f, rest);
      used == g.used && v == if g.Found? then Some(g.v) else None
  {
    hide NextRaw, ValueOf, Seek;
    used := 0;
    assert rest[0..] == rest;
    while used < |rest|
      invariant used <= |rest| && Seek(f, rest) == Skip(Seek(f, rest[used..]), used)
    {
      SeekRound(f, rest, used);
      var raw := NextRaw(rest[used..]);
      assert raw.Some?;
      used := used + raw.value.size;
      if raw.value.id == f.id && raw.value.code == f.kind.Code() {
        return Some(ValueOf(raw.value)), used;
      }
    }
    assert rest[used..] == [];
    SeekNone(f);
    v := None;
  }

  class MessageParser {
    const schema: seq<Field>
    var buf: seq<byte>
    var start: seq<nat>
    var span: seq<nat>
    var pos: seq<nat>
    /** The entries of the buffer, once Init has accepted it. */
    ghost var items: seq<Raw>

    ghost function State(): Parser
      reads this
    {
      Parser(buf, start, span, pos)
    }

    ghost predicate Valid()
      reads this
    {
      Sound(schema, items, State())
    }

    constructor (schema: seq<Field>)
      ensures this.schema == schema
    {
      this.schema := schema;
      buf, start, span, pos, items := [], [], [], [], [];
    }

    ghost function Tallies(count: seq<nat>): seq<Tally>
      requires |start| == |span| == |count|
      reads this
    {
      Pack(start, span, count)
    }

    /** An entry of field `i` was found at [entry, end). */
    method CountEntry(i: nat, entry: nat, end: nat, count: seq<nat>) returns (now: seq<nat>)
      requires |start| == |span| == |count| && i < |count|
      requires entry <= end && (start[i] == |buf| || start[i] <= end)
      modifies this`start, this`span
      ensures |start| == |span| == |now| == |count|
      ensures var before := old(Tallies(count));
        Tallies(now) == before[i := Counted(before[i], |buf|, entry, end)]
    {
      if start[i] == |buf| {
        start := start[i := entry];
      }
      span := span[i := end - start[i]];
      now := count[i := count[i] + 1];
    }

    /** The loop over the entries. */
    method ScanEntries() returns (ok: bool, count: seq<nat>)
      requires |start| == |span| == |schema| && forall i :: 0 <= i < |start| ==> start[i] == |buf| && span[i] == 0
      modifies this`start, this`span
      ensures |start| == |span| == |count| == |schema|
      ensures var r := Scan(schema, buf, 0, Start(schema, |buf|));
        (ok <==> r.Some?) && (ok ==> Tallies(count) == r.value)
    {
      hide NextRaw, Lookup, Ready, Counted;
      count := seq(|schema|, _ => 0);
      var at := 0;
      assert Tallies(count) == Start(schema, |buf|);
      while at < |buf|
        invariant at <= |buf| && |start| == |span| == |count| == |schema|
        invariant Ready(schema, |buf|, Tallies(count), at)
        invariant Scan(schema, buf, at, Tallies(count)) == Scan(schema, buf, 0, Start(schema, |buf|))
      {
        var raw := NextRaw(buf[at..]);
        if raw.None? {
          return false, count;
        }
        var i := Lookup(schema, raw.value);
        if i.None? {
          return false, count;
        }
        assert Tallies(count)[i.value].start == start[i.value];
        ScanRound(schema, buf, at, Tallies(count));
        count := CountEntry(i.value, at, at + raw.value.size, count);
        at := at + raw.value.size;
      }
      ok := true;
    }

    method CheckCounts(count: seq<nat>) returns (ok: bool)
      requires |count| == |schema|
      ensures ok <==> forall i :: 0 <= i < |schema| ==> schema[i].card.Allows(count[i])
    {
      var i := 0;
      while i < |schema|
        invariant 0 <= i <= |schema|
        invariant forall j :: 0 <= j < i ==> schema[j].card.Allows(count[j])
      {
        if !schema[i].card.Allows(count[i]) {
          return false;
        }
        i := i + 1;
      }
      return true;
    }

    /** Parser_Init. */
    method Init(message: seq<byte>) returns (ok: bool)
      requires WellFormed(schema)
      modifies this
      ensures ok <==> ParserInit(schema, message).Some?
      ensures ok ==> State() == ParserInit(schema, message).value && Items(message) == Some(items) && Valid()
    {
      hide Scan, Items, WellFormed, Known, Sound, Values;
      ParserInitExact(schema, message);
      buf := message;
      start := seq(|schema|, _ => |message|);
      span := seq(|schema|, _ => 0);
      pos := seq(|schema|, _ => 0);
      var count: seq<nat>;
      ok, count := ScanEntries();
      if ok {
        ok := CheckCounts(count);
      }
      if ok {
        ghost var entries := Items(message);
        items := entries.value;
        assert State() == Located(message, Tallies(count));
      }
    }

    // ----- the getters -----

    /** The values of field `i` not got yet. */
    ghost function Left(i: nat): seq<Value>
      requires Valid() && i < |schema|
      reads this
    {
      LeftOf(schema, items, State(), i)
    }

    /** The Get function of field `i`. */
    method Get(i: nat) returns (v: Option<Value>)
      requires Valid() && i < |schema|
      modifies this`pos
      ensures Valid() && forall j :: 0 <= j < |schema| && j != i ==> Left(j) == old(Left(j))
      ensures if old(Left(i)) == [] then v == None && Left(i) == []
              else v == Some(old(Left(i))[0]) && Left(i) == old(Left(i))[1..]
    {
      hide Sound, LeftOf, Items, NextRaw, Values, Seek, Skip;
      ghost var was := State();
      GetKeeps(schema, items, was, i);
      var used: nat;
      v, used := SeekNext(schema[i], buf[start[i] + pos[i]..start[i] + span[i]]);
      pos := pos[i := pos[i] + used];
      assert State() == Moved(was, i, used);
    }

    method Reset(i: nat)
      requires Valid() && i < |schema|
      modifies this`pos
      ensures Valid() && Left(i) == Values(schema[i], items)
      ensures forall j :: 0 <= j < |schema| && j != i ==> Left(j) == old(Left(j))
    {
      ResetKeeps(schema, items, State(), i);
      pos := pos[i := 0];
    }

    method Forward(i: nat)
      requires Valid() && i < |schema|
      modifies this`pos
      ensures Valid() && Left(i) == []
      ensures forall j :: 0 <= j < |schema| && j != i ==> Left(j) == old(Left(j))
    {
      ForwardKeeps(schema, items, State(), i);
      pos := pos[i := span[i]];
    }

    /** True exactly when every value of every field was got or forwarded over. */
    method GotEverything() returns (all: bool)
      requires Valid()
      ensures all <==> forall i :: 0 <= i < |schema| ==> Left(i) == []
    {
      var i := 0;
      while i < |schema|
        invariant 0 <= i <= |schema|
        invariant forall j :: 0 <= j < i ==> Left(j) == []
      {
        DoneMeans(schema, items, State(), i);
        if pos[i] != span[i] {
          assert Left(i) != [];
          return false;
        }
        i := i + 1;
      }
      return true;
    }
  }
}
