/** BProto messages byte by byte: what is written, and exactly which bytes a parser accepts. */
module BProtoWire {
  import opened Bytes
  import opened BProto
  import opened Wrappers

  /** An integer of four bytes, the least significant first. */
  function Quad(n: nat): seq<byte>
    requires n < 0x1_0000_0000
  {
    [n % 256, n / 0x100 % 256, n / 0x1_0000 % 256, n / 0x100_0000]
  }

  function Octet(n: nat): seq<byte>
    requires n < 0x1_0000_0000_0000_0000
  {
    [n % 256, n / 0x100 % 256, n / 0x1_0000 % 256, n / 0x100_0000 % 256, n / 0x1_0000_0000 % 256,
     n / 0x100_0000_0000 % 256, n / 0x1_0000_0000_0000 % 256, n / 0x100_0000_0000_0000]
  }

  /**
  An entry as it is on the wire: the id in two bytes, the type in two bytes (uint8 1, uint16 2, uint32 3, uint64 4, data 5,
  constdata 6), and then the integer, or the length in four bytes and the data.
  */
  function Wire(f: Field, v: Value): seq<byte>
    requires Fits(f, v) && f.id < 0x1_0000 && (f.kind.ConstData? ==> f.kind.size < 0x1_0000_0000)
  {
    [f.id % 256, f.id / 256] +
    match f.kind
    case U8 => [1, 0, v.n]
    case U16 => [2, 0, v.n % 256, v.n / 256]
    case U32 => [3, 0] + Quad(v.n)
    case U64 => [4, 0] + Octet(v.n)
    case Data => [5, 0] + Quad(|v.bytes|) + v.bytes
    case ConstData(_) => [6, 0] + Quad(|v.bytes|) + v.bytes
  }

  lemma TwoBytes(f: Field)
    requires f.id < 0x1_0000
    ensures Le(f.id, 2) == [f.id % 256, f.id / 256]
    ensures Le(f.kind.Code(), 2) == match f.kind
      case U8 => [1, 0]
      case U16 => [2, 0]
      case U32 => [3, 0]
      case U64 => [4, 0]
      case Data => [5, 0]
      case ConstData(_) => [6, 0]
  {
    hide Le;
    LeTwo(f.id);
    LeTwo(f.kind.Code());
  }

  lemma NumBytes(f: Field, v: Value)
    requires Fits(f, v) && !f.kind.IsData()
    ensures f.kind.U8? ==> Le(v.n, Width(f.kind.Code())) == [v.n]
    ensures f.kind.U16? ==> Le(v.n, Width(f.kind.Code())) == [v.n % 256, v.n / 256]
    ensures f.kind.U32? ==> Le(v.n, Width(f.kind.Code())) == Quad(v.n)
    ensures f.kind.U64? ==>
      Le(v.n, Width(f.kind.Code())) == Octet(v.n)
  {
    hide Le;
    match f.kind
    case U8 => LeLast(v.n);
    case U16 => LeTwo(v.n);
    case U32 => LeFour(v.n);
    case U64 => LeEight(v.n);
  }

  /** What the writer appends is the entry on the wire, and the SIZE defines are 5, 6, 8, 12 and 8 plus the length. */
  lemma EntryIsWire(f: Field, v: Value)
    requires Fits(f, v) && f.id < 0x1_0000 && (f.kind.ConstData? ==> f.kind.size < 0x1_0000_0000)
    ensures Entry(f, v) == Wire(f, v)
    ensures SizeOf(f, v) == match f.kind
      case U8 => 5
      case U16 => 6
      case U32 => 8
      case U64 => 12
      case Data => 8 + |v.bytes|
      case ConstData(size) => 8 + size
  {
    hide Le;
    TwoBytes(f);
    if f.kind.IsData() {
      LeFour(|v.bytes|);
    } else {
      NumBytes(f, v);
    }
  }

  /** A message on the wire: its entries one after the other. */
  function Message(schema: seq<Field>, adds: seq<Add>): seq<byte>
    requires WellFormed(schema) && Addable(schema, adds)
  {
    if adds == [] then [] else Wire(schema[adds[0].i], adds[0].v) + Message(schema, adds[1..])
  }

  lemma {:induction false} WrittenIsMessage(schema: seq<Field>, adds: seq<Add>)
    requires WellFormed(schema) && Addable(schema, adds)
    ensures Written(schema, adds) == Message(schema, adds)
  {
    hide Entry, Wire;
    if adds != [] {
      EntryIsWire(schema[adds[0].i], adds[0].v);
      WrittenIsMessage(schema, adds[1..]);
    }
  }

  // ----- which bytes are accepted -----

  /** A value as the entry's Add would have been given it. */
  lemma ReadFits(f: Field, b: seq<byte>, r: Raw)
    requires NextRaw(b) == Some(r) && Hit(f, r) && (f.kind.ConstData? ==> |r.body| == f.kind.size)
    ensures Fits(f, ValueOf(r)) && SizeOf(f, ValueOf(r)) == r.size <= |b| && f.id < 0x1_0000
    ensures b[..r.size] == Entry(f, ValueOf(r))
  {
    Widths();
    var w := b[..r.size];
    LeOfRead(b[0..2]);
    LeOfRead(b[2..4]);
    if f.kind.IsData() {
      LeOfRead(b[4..8]);
      assert w == b[0..2] + b[2..4] + (b[4..8] + r.body);
    } else {
      LeOfRead(r.body);
      assert w == b[0..2] + b[2..4] + r.body;
    }
  }

  lemma OneMoreSpelled(schema: seq<Field>, a: Add, more: seq<Add>)
    requires Addable(schema, more) && a.i < |schema| && Fits(schema[a.i], a.v)
    ensures Addable(schema, [a] + more)
    ensures Written(schema, [a] + more) == Entry(schema[a.i], a.v) + Written(schema, more)
    ensures ItemsOf(schema, [a] + more) == [RawOf(schema[a.i], a.v)] + ItemsOf(schema, more)
  {
    hide Entry, RawOf, Fits, ItemsOf;
    var adds := [a] + more;
    assert adds[1..] == more && adds[0] == a;
    var x, y := ItemsOf(schema, adds), [RawOf(schema[a.i], a.v)] + ItemsOf(schema, more);
    assert |x| == |y|;
    forall k | 0 <= k < |x|
      ensures x[k] == y[k]
    {
      assert k > 0 ==> adds[k] == more[k - 1];
    }
  }

  /** The adds that an accepted buffer spells. */
  lemma {:induction false} Spelled(schema: seq<Field>, b: seq<byte>, items: seq<Raw>) returns (adds: seq<Add>)
    requires WellFormed(schema) && Items(b) == Some(items) && Known(schema, items)
    ensures Addable(schema, adds) && Written(schema, adds) == b && ItemsOf(schema, adds) == items
    decreases |items|
  {
    hide NextRaw, Items, Entry, RawOf, Lookup, Known, ValueOf, Addable, Written, ItemsOf, Hit, SizeOf;
    ItemsSplit(b, items);
    if items == [] {
      adds := [];
      NothingSpelled(schema);
    } else {
      var r, rest := items[0], b[items[0].size..];
      KnownRest(schema, items);
      var i := Lookup(schema, r).value;
      LookupChecks(schema, r);
      ReadFits(schema[i], b, r);
      var more := Spelled(schema, rest, items[1..]);
      var v := ValueOf(r);
      adds := [Add(i, v)] + more;
      OneMoreSpelled(schema, Add(i, v), more);
      assert b == b[..r.size] + rest;
      EntryRoundTrip(schema[i], v, rest);
    }
  }

  lemma NothingSpelled(schema: seq<Field>)
    ensures Addable(schema, []) && Written(schema, []) == [] && ItemsOf(schema, []) == []
  {
  }

  lemma KnownRest(schema: seq<Field>, items: seq<Raw>)
    requires Known(schema, items) && items != []
    ensures Lookup(schema, items[0]).Some? && Known(schema, items[1..])
  {
    hide Lookup;
    assert forall k :: 0 <= k < |items| - 1 ==> items[1..][k] == items[k + 1];
  }

  lemma LookupChecks(schema: seq<Field>, r: Raw)
    requires Lookup(schema, r).Some?
    ensures var f := schema[Lookup(schema, r).value]; Hit(f, r) && (f.kind.ConstData? ==> |r.body| == f.kind.size)
  {
  }

  predicate CountOk(card: Cardinality, vs: seq<Value>) {
    match card
    case Repeated => true
    case RequiredRepeated => vs != []
    case Optional => |vs| <= 1
    case Required => |vs| == 1
  }

  /** The adds give every field as many values as its cardinality allows. */
  predicate CountsOk(schema: seq<Field>, adds: seq<Add>) {
    forall i :: 0 <= i < |schema| ==> CountOk(schema[i].card, Added(adds, i))
  }

  /**
  Parser_Init accepts exactly the messages on the wire: a buffer is accepted if and only if it is the bytes of entries of the
  schema's fields, in any order, in numbers the cardinalities allow.
  */
  lemma AcceptsExactly(schema: seq<Field>, buf: seq<byte>)
    requires WellFormed(schema)
    ensures ParserInit(schema, buf).Some? <==>
      exists adds :: Addable(schema, adds) && CountsOk(schema, adds) && Message(schema, adds) == buf
  {
    hide NextRaw, Items, Known, Lookup, ParserInit, Written, Message, ItemsOf, Values, Sound;
    ParserInitExact(schema, buf);
    if ParserInit(schema, buf).Some? {
      var items := Items(buf).value;
      var adds := Spelled(schema, buf, items);
      WrittenIsMessage(schema, adds);
      forall i | 0 <= i < |schema|
        ensures Values(schema[i], items) == Added(adds, i)
      {
        AddedValues(schema, adds, i);
      }
      assert Addable(schema, adds) && CountsOk(schema, adds) && Message(schema, adds) == buf;
    }
    if adds :| Addable(schema, adds) && CountsOk(schema, adds) && Message(schema, adds) == buf {
      WrittenIsMessage(schema, adds);
      RoundTrip(schema, adds);
    }
  }

  /** One required field: its bytes are accepted, nothing else is. */
  lemma OneField(f: Field, buf: seq<byte>)
    requires f.card.Required? && f.id < 0x1_0000 && (f.kind.ConstData? ==> f.kind.size < 0x1_0000_0000)
    ensures ParserInit([f], buf).Some? <==> exists v :: Fits(f, v) && buf == Wire(f, v)
  {
    hide Wire, ParserInit;
    assert WellFormed([f]);
    AcceptsExactly([f], buf);
    if ParserInit([f], buf).Some? {
      var adds: seq<Add> :| Addable([f], adds) && CountsOk([f], adds) && Message([f], adds) == buf;
      AllOfOne(adds);
      assert |adds| == 1 && adds[1..] == [];
      assert Message([f], adds) == Wire(f, adds[0].v) + [];
    }
    if v :| Fits(f, v) && buf == Wire(f, v) {
      var adds := [Add(0, v)];
      assert adds[1..] == [];
      assert Added(adds, 0) == [v];
      assert Message([f], adds) == Wire(f, v) + [];
      assert Addable([f], adds) && CountsOk([f], adds) && Message([f], adds) == buf;
    }
  }

  lemma {:induction false} AllOfOne(adds: seq<Add>)
    requires forall k :: 0 <= k < |adds| ==> adds[k].i == 0
    ensures |Added(adds, 0)| == |adds|
  {
    if adds != [] {
      AllOfOne(adds[1..]);
    }
  }
}
