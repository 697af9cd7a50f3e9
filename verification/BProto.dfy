/** BProto messages: a series of entries, each an id, a type code and a value. */
module BProto {
  // For one message schema this models what the generator emits: which entries a parser accepts, where it finds each
  // field's values, and what its getters return.

  import opened Bytes
  import opened Wrappers

  const HEADER: nat := 4
  const DATA_HEADER: nat := 4
  const TYPE_DATA: nat := 5
  const TYPE_CONSTDATA: nat := 6

  /** A field's type: an unsigned integer of 1, 2, 4 or 8 bytes, data of any length, or data of a fixed length. */
  datatype Kind = U8 | U16 | U32 | U64 | Data | ConstData(size: nat) {
    function Code(): nat {
      match this
      case U8 => 1
      case U16 => 2
      case U32 => 3
      case U64 => 4
      case Data => TYPE_DATA
      case ConstData(_) => TYPE_CONSTDATA
    }
    predicate IsData() { Data? || ConstData? }
  }

  /** The bytes of an integer of the given type code. */
  function Width(code: nat): nat
    requires 1 <= code <= 4
  {
    if code == 1 then 1 else if code == 2 then 2 else if code == 3 then 4 else 8
  }

  datatype Cardinality = Repeated | RequiredRepeated | Optional | Required {
    predicate Allows(count: nat) {
      match this
      case Repeated => true
      case RequiredRepeated => count >= 1
      case Optional => count <= 1
      case Required => count == 1
    }
  }

  datatype Field = Field(id: nat, kind: Kind, card: Cardinality)

  /** Two fields would be the same case of the same switch in the generated parser. */
  predicate SameCase(f: Field, g: Field) {
    f.id == g.id && (f.kind.Code() == g.kind.Code() || (f.kind.IsData() && g.kind.IsData()))
  }

  /** A schema whose generated parser has no duplicate case labels. */
  ghost predicate WellFormed(schema: seq<Field>) {
    && (forall i :: 0 <= i < |schema| ==>
          schema[i].id < 0x1_0000 && (schema[i].kind.ConstData? ==> schema[i].kind.size < 0x1_0000_0000))
    && (forall i, j :: 0 <= i < j < |schema| ==> !SameCase(schema[i], schema[j]))
  }

  // ----- entries on the wire -----

  /** An entry as found in a buffer; `body` is the integer's bytes or the payload, `size` all it takes. */
  datatype Raw = Raw(id: nat, code: nat, body: seq<byte>, size: nat)

  datatype Value = Num(n: nat) | Blob(bytes: seq<byte>)

  function ValueOf(r: Raw): Value {
    if r.code <= 4 then Num(FromLe(r.body)) else Blob(r.body)
  }

  /** The entry at the front of `b`, unless it is cut short or of unknown type. */
  function NextRaw(b: seq<byte>): (r: Option<Raw>)
    ensures r.Some? ==> 0 < r.value.size <= |b|
  {
    if |b| < HEADER then None
    else
      var id, code := FromLe(b[0..2]), FromLe(b[2..4]);
      if 1 <= code <= 4 then
        if |b| - HEADER < Width(code) then None
        else Some(Raw(id, code, b[HEADER..HEADER + Width(code)], HEADER + Width(code)))
      else if code == TYPE_DATA || code == TYPE_CONSTDATA then
        if |b| - HEADER < DATA_HEADER then None
        else
          var n := FromLe(b[4..8]);
          if |b| - HEADER - DATA_HEADER < n then None
          else Some(Raw(id, code, b[8..8 + n], HEADER + DATA_HEADER + n))
      else None
  }

  /** The entries of a buffer that is nothing but complete entries. */
  function Items(b: seq<byte>): Option<seq<Raw>>
    decreases |b|
  {
    if b == [] then Some([])
    else
      var r := NextRaw(b);
      if r.None? then None
      else
        var rest := Items(b[r.value.size..]);
        if rest.None? then None else Some([r.value] + rest.value)
  }

  /** Where entry `k` begins. */
  function Offset(items: seq<Raw>, k: nat): nat
    requires k <= |items|
  {
    if k == 0 then 0 else Offset(items, k - 1) + items[k - 1].size
  }

  /** What a getter looks for. */
  predicate Hit(f: Field, r: Raw) {
    r.id == f.id && r.code == f.kind.Code()
  }

  /** The values of a field among the entries, in order. */
  function Values(f: Field, items: seq<Raw>): seq<Value> {
    if items == [] then []
    else (if Hit(f, items[0]) then [ValueOf(items[0])] else []) + Values(f, items[1..])
  }

  lemma OffsetEmpty(items: seq<Raw>)
    ensures Offset(items, 0) == 0
  {
  }

  lemma {:induction false} OffsetTail(items: seq<Raw>, k: nat)
    requires 0 < k <= |items|
    ensures Offset(items, k) == items[0].size + Offset(items[1..], k - 1)
  {
    if k > 1 {
      OffsetTail(items, k - 1);
    }
  }

  lemma {:induction false} OffsetMono(items: seq<Raw>, j: nat, k: nat)
    requires j <= k <= |items|
    ensures Offset(items, j) <= Offset(items, k)
    decreases k
  {
    if j < k {
      OffsetMono(items, j, k - 1);
    }
  }

  /** Entry `k` of a buffer is what is found at its offset; the last one ends where the buffer does. */
  lemma {:induction false} ItemAt(b: seq<byte>, items: seq<Raw>, k: nat)
    requires Items(b) == Some(items) && k <= |items|
    ensures Offset(items, k) <= |b| && (k == |items| <==> Offset(items, k) == |b|)
    ensures Items(b[Offset(items, k)..]) == Some(items[k..])
    ensures k < |items| ==> NextRaw(b[Offset(items, k)..]) == Some(items[k])
    decreases k
  {
    hide NextRaw, Items;
    ItemsSplit(b, items);
    if k > 0 {
      var n := items[0].size;
      ItemAt(b[n..], items[1..], k - 1);
      OffsetTail(items, k);
      assert b[n..][Offset(items[1..], k - 1)..] == b[Offset(items, k)..];
      assert items[1..][k - 1..] == items[k..];
    } else {
      assert b[0..] == b && items[0..] == items;
    }
  }

  lemma SliceOfPrefix(b: seq<byte>, n: nat, i: nat, j: nat)
    requires i <= j <= n <= |b|
    ensures b[..n][i..j] == b[i..j]
  {
  }

  /** An entry is found also if the buffer is cut anywhere after it. */
  lemma CutAfter(b: seq<byte>, n: nat)
    requires NextRaw(b).Some? && NextRaw(b).value.size <= n <= |b|
    ensures NextRaw(b[..n]) == NextRaw(b)
  {
    hide FromLe;
    var r := NextRaw(b).value;
    SliceOfPrefix(b, n, 0, 2);
    SliceOfPrefix(b, n, 2, 4);
    if r.code <= 4 {
      SliceOfPrefix(b, n, HEADER, HEADER + Width(r.code));
    } else {
      SliceOfPrefix(b, n, 4, 8);
      SliceOfPrefix(b, n, 8, 8 + FromLe(b[4..8]));
    }
  }

  /** The first entry of a buffer and the rest of it. */
  lemma ItemsSplit(b: seq<byte>, xs: seq<Raw>)
    requires Items(b) == Some(xs)
    ensures b == [] <==> xs == []
    ensures xs != [] ==> NextRaw(b) == Some(xs[0]) && xs[0].size <= |b| && Items(b[xs[0].size..]) == Some(xs[1..])
  {
    hide NextRaw;
  }

  lemma ItemsCons(b: seq<byte>, r: Raw, rest: seq<byte>, xs: seq<Raw>)
    requires b != [] && NextRaw(b) == Some(r) && b[r.size..] == rest && Items(rest) == Some(xs)
    ensures Items(b) == Some([r] + xs)
  {
    hide NextRaw;
  }

  lemma ItemsNone()
    ensures Items([]) == Some([])
  {
  }

  lemma {:induction false} ValuesAppend(f: Field, a: seq<Raw>, b: seq<Raw>)
    ensures Values(f, a + b) == Values(f, a) + Values(f, b)
  {
    hide Values, Hit, ValueOf;
    if a == [] {
      assert a + b == b;
      ValuesNone(f);
    } else {
      var v := if Hit(f, a[0]) then [ValueOf(a[0])] else [];
      ValuesAppend(f, a[1..], b);
      assert (a + b)[1..] == a[1..] + b;
      ValuesStep(f, a);
      ValuesStep(f, a + b);
      assert v + (Values(f, a[1..]) + Values(f, b)) == (v + Values(f, a[1..])) + Values(f, b);
    }
  }

  // ----- Parser_Init -----

  /** The field whose case the parser's switches select for an entry. */
  function FindCase(schema: seq<Field>, r: Raw, i: nat): (k: Option<nat>)
    requires i <= |schema|
    ensures k.Some? ==> i <= k.value < |schema| && schema[k.value].id == r.id
    decreases |schema| - i
  {
    if i == |schema| then None
    else if schema[i].id == r.id && (schema[i].kind.Code() == r.code || (schema[i].kind.IsData() && r.code > 4)) then Some(i)
    else FindCase(schema, r, i + 1)
  }

  /** That field, if its further checks pass: the exact type, and the exact length of fixed-size data. */
  function Lookup(schema: seq<Field>, r: Raw): (k: Option<nat>)
    ensures k.Some? ==> k.value < |schema| && Hit(schema[k.value], r)
  {
    var i := FindCase(schema, r, 0);
    if i.None? then None
    else
      var k := schema[i.value].kind;
      if k.Code() != r.code || (k.ConstData? && |r.body| != k.size) then None else i
  }

  /** Where a field's entries are and how many: [start, start + span), start being the buffer's length when there is none. */
  datatype Tally = Tally(start: nat, span: nat, count: nat)

  /** The tally after another entry of the field, at [pos, end). */
  function Counted(t: Tally, bufLen: nat, pos: nat, end: nat): Tally
    requires pos <= end && (t.start == bufLen || t.start <= end)
  {
    var start := if t.start == bufLen then pos else t.start;
    Tally(start, end - start, t.count + 1)
  }

  predicate Ready(schema: seq<Field>, bufLen: nat, ts: seq<Tally>, pos: nat) {
    |ts| == |schema| && forall i :: 0 <= i < |ts| ==> ts[i].start == bufLen || ts[i].start <= pos
  }

  /** The parser's loop, from position `pos` on. */
  function Scan(schema: seq<Field>, buf: seq<byte>, pos: nat, ts: seq<Tally>): (r: Option<seq<Tally>>)
    requires pos <= |buf| && Ready(schema, |buf|, ts, pos)
    ensures r.Some? ==> |r.value| == |schema|
    decreases |buf| - pos
  {
    if pos == |buf| then Some(ts)
    else
      var raw := NextRaw(buf[pos..]);
      if raw.None? then None
      else
        var i := Lookup(schema, raw.value);
        if i.None? then None
        else
          var end := pos + raw.value.size;
          Scan(schema, buf, end, ts[i.value := Counted(ts[i.value], |buf|, pos, end)])
  }

  predicate CountsAllowed(schema: seq<Field>, ts: seq<Tally>)
    requires |ts| == |schema|
  {
    forall i :: 0 <= i < |schema| ==> schema[i].card.Allows(ts[i].count)
  }

  /** What Parser_Init leaves in the parser; `pos` is how far each field's getter has come. */
  datatype Parser = Parser(buf: seq<byte>, start: seq<nat>, span: seq<nat>, pos: seq<nat>)

  function Start(schema: seq<Field>, bufLen: nat): (ts: seq<Tally>)
    ensures Ready(schema, bufLen, ts, 0)
  {
    seq(|schema|, _ => Tally(bufLen, 0, 0))
  }

  /** The parser of a successful scan, before the cardinalities are checked. */
  function Located(buf: seq<byte>, ts: seq<Tally>): (p: Parser)
    ensures |p.start| == |p.span| == |p.pos| == |ts| && p.buf == buf
    ensures forall i :: 0 <= i < |ts| ==> p.start[i] == ts[i].start && p.span[i] == ts[i].span && p.pos[i] == 0
  {
    Parser(buf, seq(|ts|, i requires 0 <= i < |ts| => ts[i].start), seq(|ts|, i requires 0 <= i < |ts| => ts[i].span),
           seq(|ts|, _ => 0))
  }

  function ParserInit(schema: seq<Field>, buf: seq<byte>): Option<Parser> {
    var ts := Scan(schema, buf, 0, Start(schema, |buf|));
    if ts.None? || !CountsAllowed(schema, ts.value) then None else Some(Located(buf, ts.value))
  }

  // ----- what the scan establishes -----

  /** Every entry belongs to some field. */
  predicate Known(schema: seq<Field>, items: seq<Raw>) {
    forall k :: 0 <= k < |items| ==> Lookup(schema, items[k]).Some?
  }

  /** The tally of a field over the first `k` entries. */
  function TallyOf(f: Field, items: seq<Raw>, bufLen: nat, k: nat): (t: Tally)
    requires k <= |items|
    ensures t.start == bufLen || t.start <= Offset(items, k)
  {
    if k == 0 then Tally(bufLen, 0, 0)
    else
      var t := TallyOf(f, items, bufLen, k - 1);
      if Hit(f, items[k - 1]) then Counted(t, bufLen, Offset(items, k - 1), Offset(items, k)) else t
  }

  /** In a well-formed schema an entry is a hit for the field looked up and for no other. */
  lemma LookupUnique(schema: seq<Field>, r: Raw, j: nat)
    requires WellFormed(schema) && Lookup(schema, r).Some? && j < |schema|
    ensures Hit(schema[j], r) <==> j == Lookup(schema, r).value
  {
    var i := Lookup(schema, r).value;
    assert i < j ==> !SameCase(schema[i], schema[j]);
    assert j < i ==> !SameCase(schema[j], schema[i]);
  }

  ghost predicate Tallied(schema: seq<Field>, items: seq<Raw>, bufLen: nat, k: nat, ts: seq<Tally>)
    requires k <= |items|
  {
    |ts| == |schema| && forall i :: 0 <= i < |ts| ==> ts[i] == TallyOf(schema[i], items, bufLen, k)
  }

  lemma TalliedStep(schema: seq<Field>, items: seq<Raw>, bufLen: nat, k: nat, ts: seq<Tally>, i: nat)
    requires WellFormed(schema) && k < |items| && Tallied(schema, items, bufLen, k, ts)
    requires Lookup(schema, items[k]) == Some(i)
    ensures Tallied(schema, items, bufLen, k + 1,
                    ts[i := Counted(ts[i], bufLen, Offset(items, k), Offset(items, k + 1))])
  {
    var us := ts[i := Counted(ts[i], bufLen, Offset(items, k), Offset(items, k + 1))];
    forall j | 0 <= j < |us|
      ensures us[j] == TallyOf(schema[j], items, bufLen, k + 1)
    {
      LookupUnique(schema, items[k], j);
    }
  }

  lemma TalliedReady(schema: seq<Field>, buf: seq<byte>, items: seq<Raw>, k: nat, ts: seq<Tally>)
    requires Items(buf) == Some(items) && k <= |items| && Tallied(schema, items, |buf|, k, ts)
    ensures Offset(items, k) <= |buf| && Ready(schema, |buf|, ts, Offset(items, k))
  {
    ItemAt(buf, items, k);
  }

  /** One round of the scan's loop, entry by entry. */
  lemma ScanOne(schema: seq<Field>, buf: seq<byte>, items: seq<Raw>, k: nat, ts: seq<Tally>)
    requires Items(buf) == Some(items) && k < |items| && Offset(items, k + 1) <= |buf|
    requires Ready(schema, |buf|, ts, Offset(items, k))
    ensures var i := Lookup(schema, items[k]);
      var pos, end := Offset(items, k), Offset(items, k + 1);
      Scan(schema, buf, pos, ts) ==
        if i.None? then None else Scan(schema, buf, end, ts[i.value := Counted(ts[i.value], |buf|, pos, end)])
  {
    hide Items, NextRaw, Lookup;
    ItemAt(buf, items, k);
  }

  /** Over complete entries the scan succeeds exactly if every remaining one is known, and gives every field's tally. */
  lemma {:induction false} ScanItems(schema: seq<Field>, buf: seq<byte>, items: seq<Raw>, k: nat, ts: seq<Tally>)
    requires WellFormed(schema) && Items(buf) == Some(items) && k <= |items| && Tallied(schema, items, |buf|, k, ts)
    requires Offset(items, k) <= |buf| && Ready(schema, |buf|, ts, Offset(items, k))
    ensures var r := Scan(schema, buf, Offset(items, k), ts);
      && (r.Some? <==> Known(schema, items[k..]))
      && (r.Some? ==> Tallied(schema, items, |buf|, |items|, r.value))
    decreases |items| - k
  {
    ItemAt(buf, items, k);
    if k < |items| {
      ItemAt(buf, items, k + 1);
      ScanOne(schema, buf, items, k, ts);
      KnownTail(schema, items, k);
      var i := Lookup(schema, items[k]);
      if i.Some? {
        var us := ts[i.value := Counted(ts[i.value], |buf|, Offset(items, k), Offset(items, k + 1))];
        TalliedStep(schema, items, |buf|, k, ts, i.value);
        TalliedReady(schema, buf, items, k + 1, us);
        ScanItems(schema, buf, items, k + 1, us);
      }
    }
  }

  lemma KnownTail(schema: seq<Field>, items: seq<Raw>, k: nat)
    requires k < |items|
    ensures Known(schema, items[k..]) <==> Lookup(schema, items[k]).Some? && Known(schema, items[k + 1..])
  {
    var a, b := items[k..], items[k + 1..];
    if Known(schema, a) {
      assert a[0] == items[k];
      assert forall j :: 0 <= j < |b| ==> b[j] == a[j + 1];
    }
    if Lookup(schema, items[k]).Some? && Known(schema, b) {
      assert forall j :: 0 <= j < |a| ==> a[j] == if j == 0 then items[k] else b[j - 1];
    }
  }

  /** On a buffer that is not a series of complete entries the scan fails. */
  lemma {:induction false} ScanBroken(schema: seq<Field>, buf: seq<byte>, pos: nat, ts: seq<Tally>)
    requires pos <= |buf| && Ready(schema, |buf|, ts, pos) && Items(buf[pos..]).None?
    ensures Scan(schema, buf, pos, ts).None?
    decreases |buf| - pos
  {
    var raw := NextRaw(buf[pos..]);
    if raw.Some? {
      var end := pos + raw.value.size;
      assert buf[pos..][raw.value.size..] == buf[end..];
      var i := Lookup(schema, raw.value);
      if i.Some? {
        ScanBroken(schema, buf, end, ts[i.value := Counted(ts[i.value], |buf|, pos, end)]);
      }
    }
  }

  // ----- where a field's entries are -----

  lemma TallyNext(f: Field, items: seq<Raw>, bufLen: nat, k: nat)
    requires k < |items| && Offset(items, k) < bufLen
    ensures var t, u := TallyOf(f, items, bufLen, k), TallyOf(f, items, bufLen, k + 1);
      var end := Offset(items, k + 1);
      && Offset(items, k) <= end
      && (!Hit(f, items[k]) ==> u == t)
      && (Hit(f, items[k]) ==>
            && u.count == t.count + 1
            && u.start == (if t.start == bufLen then Offset(items, k) else t.start) && u.start + u.span == end)
  {
    hide Hit;
  }

  /** Among the first `k` entries the field's are all in [first, last], which is where its tally points. */
  lemma {:induction false} TallyMeans(f: Field, items: seq<Raw>, bufLen: nat, k: nat)
      returns (first: nat, last: nat)
    requires k <= |items| && (k > 0 ==> Offset(items, k - 1) < bufLen)
    ensures var t := TallyOf(f, items, bufLen, k);
      && t.count == |Values(f, items[..k])|
      && (t.count == 0 ==> t.start == bufLen && t.span == 0)
      && (t.count > 0 ==>
            && first <= last < k && Hit(f, items[last])
            && t.start == Offset(items, first) < bufLen && t.start + t.span == Offset(items, last + 1)
            && Values(f, items[..first]) == [] && Values(f, items[last + 1..k]) == [])
  {
    hide Values, ValueOf, Hit;
    first, last := 0, 0;
    ValuesNone(f);
    if k > 0 {
      TallyNext(f, items, bufLen, k - 1);
      OffsetMono(items, if k > 1 then k - 2 else 0, k - 1);
      first, last := TallyMeans(f, items, bufLen, k - 1);
      var t := TallyOf(f, items, bufLen, k - 1);
      var r := items[k - 1];
      ValuesOne(f, r);
      ValuesAppend(f, items[..k - 1], [r]);
      assert items[..k] == items[..k - 1] + [r];
      if Hit(f, r) {
        if t.count == 0 {
          first := k - 1;
        } else {
          OffsetMono(items, first, k);
        }
        last := k - 1;
        assert items[k..k] == [];
      } else if t.count > 0 {
        ValuesAppend(f, items[last + 1..k - 1], [r]);
        assert items[last + 1..k] == items[last + 1..k - 1] + [r];
      }
    } else {
      assert items[..0] == [];
    }
  }

  lemma ValuesNone(f: Field)
    ensures Values(f, []) == []
  {
  }

  lemma ValuesOne(f: Field, r: Raw)
    ensures Values(f, [r]) == if Hit(f, r) then [ValueOf(r)] else []
  {
    assert [r][1..] == [];
  }

  // ----- soundness: whatever the bytes -----

  /**
  Field `i` of the parser, with entries as boundaries: its span runs from entry `a` to entry `e`, its getter stands at
  entry `c`.  All the field's entries are in the span, and a non-empty span ends with one of them.
  */
  ghost predicate SoundAt(f: Field, items: seq<Raw>, p: Parser, i: nat, a: nat, c: nat, e: nat)
    requires i < |p.start| && i < |p.span| && i < |p.pos|
  {
    && a <= c <= e <= |items|
    && p.start[i] == Offset(items, a) && p.start[i] + p.pos[i] == Offset(items, c)
    && p.start[i] + p.span[i] == Offset(items, e)
    && (a < e ==> Hit(f, items[e - 1]))
    && Values(f, items[..a]) == [] && Values(f, items[e..]) == []
  }

  ghost predicate SoundField(f: Field, items: seq<Raw>, p: Parser, i: nat)
    requires i < |p.start| && i < |p.span| && i < |p.pos|
  {
    exists a, c, e :: SoundAt(f, items, p, i, a, c, e)
  }

  ghost predicate Sound(schema: seq<Field>, items: seq<Raw>, p: Parser) {
    && |p.start| == |p.span| == |p.pos| == |schema| && Items(p.buf) == Some(items)
    && forall i :: 0 <= i < |schema| ==> SoundField(schema[i], items, p, i)
  }

  lemma TallySound(f: Field, items: seq<Raw>, p: Parser, i: nat)
    requires Items(p.buf) == Some(items)
    requires i < |p.start| && i < |p.span| && i < |p.pos| && p.pos[i] == 0
    requires var t := TallyOf(f, items, |p.buf|, |items|); p.start[i] == t.start && p.span[i] == t.span
    ensures TallyOf(f, items, |p.buf|, |items|).count == |Values(f, items)|
    ensures exists a, e :: SoundAt(f, items, p, i, a, a, e)
  {
    hide Items, NextRaw, Values, TallyOf, Offset, Hit;
    var n := |items|;
    OffsetEmpty(items);
    ValuesNone(f);
    ItemAt(p.buf, items, n);
    if n > 0 {
      ItemAt(p.buf, items, n - 1);
    }
    assert items[..n] == items && items[n..] == [];
    var first, last := TallyMeans(f, items, |p.buf|, n);
    if TallyOf(f, items, |p.buf|, n).count == 0 {
      assert SoundAt(f, items, p, i, n, n, n);
    } else {
      assert SoundAt(f, items, p, i, first, first, last + 1);
    }
  }

  lemma ScanSound(schema: seq<Field>, buf: seq<byte>, items: seq<Raw>, ts: seq<Tally>)
    requires Items(buf) == Some(items) && Tallied(schema, items, |buf|, |items|, ts)
    ensures Sound(schema, items, Located(buf, ts))
    ensures forall i :: 0 <= i < |schema| ==> ts[i].count == |Values(schema[i], items)|
  {
    forall i | 0 <= i < |schema|
      ensures ts[i].count == |Values(schema[i], items)| && SoundField(schema[i], items, Located(buf, ts), i)
    {
      TallySound(schema[i], items, Located(buf, ts), i);
    }
  }

  /** Parser_Init succeeds exactly on complete, known entries whose counts the cardinalities allow. */
  lemma ParserInitExact(schema: seq<Field>, buf: seq<byte>)
    requires WellFormed(schema)
    ensures var r := ParserInit(schema, buf);
      var items := Items(buf);
      && (r.Some? <==>
            && items.Some? && Known(schema, items.value)
            && forall i :: 0 <= i < |schema| ==> schema[i].card.Allows(|Values(schema[i], items.value)|))
      && (r.Some? ==> Sound(schema, items.value, r.value) && forall i :: 0 <= i < |schema| ==> r.value.pos[i] == 0)
  {
    var ts := Start(schema, |buf|);
    if Items(buf).None? {
      assert buf[0..] == buf;
      ScanBroken(schema, buf, 0, ts);
    } else {
      var items := Items(buf).value;
      assert items[0..] == items;
      ScanItems(schema, buf, items, 0, ts);
      if Known(schema, items) {
        ScanSound(schema, buf, items, Scan(schema, buf, 0, ts).value);
      }
    }
  }

  // ----- the getters -----

  /** What a getter's loop comes to; Crash is a failed assert. */
  datatype Got = Found(v: Value, used: nat) | Nothing(used: nat) | Crash

  function Skip(g: Got, n: nat): Got {
    match g
    case Found(v, used) => Found(v, used + n)
    case Nothing(used) => Nothing(used + n)
    case Crash => Crash
  }

  /** The loop of the getter of `f` over the rest of its span. */
  function Seek(f: Field, b: seq<byte>): Got
    decreases |b|
  {
    if b == [] then Nothing(0)
    else
      var r := NextRaw(b);
      if r.None? then Crash
      else if Hit(f, r.value) then Found(ValueOf(r.value), r.value.size)
      else Skip(Seek(f, b[r.value.size..]), r.value.size)
  }

  predicate RestOk(p: Parser, i: nat) {
    && i < |p.start| && i < |p.span| && i < |p.pos|
    && p.pos[i] <= p.span[i] && p.start[i] + p.span[i] <= |p.buf|
  }

  function Rest(p: Parser, i: nat): seq<byte>
    requires RestOk(p, i)
  {
    p.buf[p.start[i] + p.pos[i]..p.start[i] + p.span[i]]
  }

  /** The bytes of entries `c` to `e`. */
  function Cut(b: seq<byte>, items: seq<Raw>, c: nat, e: nat): seq<byte>
    requires c <= e <= |items| && Offset(items, c) <= Offset(items, e) <= |b|
  {
    b[Offset(items, c)..Offset(items, e)]
  }

  lemma CutBounds(b: seq<byte>, items: seq<Raw>, c: nat, e: nat)
    requires Items(b) == Some(items) && c <= e <= |items|
    ensures Offset(items, c) <= Offset(items, e) <= |b|
  {
    ItemAt(b, items, e);
    OffsetMono(items, c, e);
  }

  lemma CutFirst(b: seq<byte>, items: seq<Raw>, c: nat, e: nat)
    requires Items(b) == Some(items) && c < e <= |items|
    requires Offset(items, c + 1) <= Offset(items, e) <= |b|
    ensures Cut(b, items, c, e) != [] && NextRaw(Cut(b, items, c, e)) == Some(items[c])
    ensures Cut(b, items, c, e)[items[c].size..] == Cut(b, items, c + 1, e)
  {
    ItemAt(b, items, c);
    var n := Offset(items, e) - Offset(items, c);
    CutAfter(b[Offset(items, c)..], n);
    assert b[Offset(items, c)..][..n] == Cut(b, items, c, e);
  }

  lemma {:induction false} CutItems(b: seq<byte>, items: seq<Raw>, c: nat, e: nat)
    requires Items(b) == Some(items) && c <= e <= |items|
    ensures Offset(items, c) <= Offset(items, e) <= |b|
    ensures Items(Cut(b, items, c, e)) == Some(items[c..e])
    decreases e - c
  {
    hide Items, NextRaw, Offset;
    CutBounds(b, items, c, e);
    if c < e {
      CutItems(b, items, c + 1, e);
      CutFirst(b, items, c, e);
      assert items[c..e] == [items[c]] + items[c + 1..e];
      ItemsCons(Cut(b, items, c, e), items[c], Cut(b, items, c + 1, e), items[c + 1..e]);
    } else {
      ItemsNone();
      assert Cut(b, items, c, e) == [] && items[c..e] == [];
    }
  }

  /** Over complete entries a getter never crashes: it finds the first of its values, or there is none. */
  lemma {:induction false} SeekItems(f: Field, b: seq<byte>, xs: seq<Raw>) returns (k: nat)
    requires Items(b) == Some(xs)
    ensures k <= |xs| && Offset(xs, k) <= |b|
    ensures var vs := Values(f, xs);
      if vs == [] then Seek(f, b) == Nothing(|b|) && k == |xs|
      else Seek(f, b) == Found(vs[0], Offset(xs, k)) && Values(f, xs[k..]) == vs[1..] && k > 0
    decreases |xs|
  {
    hide Items, NextRaw, Seek, Values, Offset, Hit, ValueOf;
    k := 0;
    ItemsSplit(b, xs);
    OffsetEmpty(xs);
    if xs == [] {
      ValuesNone(f);
      SeekNone(f);
    } else {
      var r := xs[0];
      OffsetEmpty(xs[1..]);
      OffsetTail(xs, 1);
      SeekStep(f, b, r);
      ValuesStep(f, xs);
      if Hit(f, r) {
        k := 1;
      } else {
        assert Values(f, xs) == Values(f, xs[1..]);
        var j := SeekItems(f, b[r.size..], xs[1..]);
        OffsetTail(xs, j + 1);
        assert xs[j + 1..] == xs[1..][j..];
        k := j + 1;
      }
    }
  }

  lemma SeekNone(f: Field)
    ensures Seek(f, []) == Nothing(0)
  {
  }

  lemma SeekStep(f: Field, b: seq<byte>, r: Raw)
    requires b != [] && NextRaw(b) == Some(r)
    ensures Seek(f, b) == if Hit(f, r) then Found(ValueOf(r), r.size) else Skip(Seek(f, b[r.size..]), r.size)
  {
    hide NextRaw;
  }

  lemma ValuesStep(f: Field, xs: seq<Raw>)
    requires xs != []
    ensures Values(f, xs) == (if Hit(f, xs[0]) then [ValueOf(xs[0])] else []) + Values(f, xs[1..])
  {
  }

  lemma ValuesTail(f: Field, items: seq<Raw>, c: nat, e: nat)
    requires c <= e <= |items| && Values(f, items[e..]) == []
    ensures Values(f, items[c..]) == Values(f, items[c..e])
  {
    ValuesAppend(f, items[c..e], items[e..]);
    assert items[c..e] + items[e..] == items[c..];
  }

  lemma LastHitCounts(f: Field, items: seq<Raw>, c: nat, e: nat)
    requires c < e <= |items| && Hit(f, items[e - 1])
    ensures Values(f, items[c..]) != []
  {
    ValuesOne(f, items[e - 1]);
    ValuesAppend(f, items[c..e - 1], [items[e - 1]]);
    ValuesAppend(f, items[c..e - 1] + [items[e - 1]], items[e..]);
    assert items[c..e - 1] + [items[e - 1]] + items[e..] == items[c..];
    assert |Values(f, items[c..])| >= |Values(f, [items[e - 1]])| == 1;
  }

  /** Getting from a sound parser: no assert fails, the value is the next one, and the parser stays sound. */
  lemma GetExact(f: Field, items: seq<Raw>, p: Parser, i: nat, a: nat, c: nat, e: nat) returns (c': nat)
    requires Items(p.buf) == Some(items)
    requires i < |p.start| && i < |p.span| && i < |p.pos| && SoundAt(f, items, p, i, a, c, e)
    ensures RestOk(p, i)
    ensures var g := Seek(f, Rest(p, i));
      var left := Values(f, items[c..]);
      && !g.Crash? && SoundAt(f, items, p.(pos := p.pos[i := p.pos[i] + g.used]), i, a, c', e)
      && (left == [] ==> g.Nothing? && p.pos[i] == p.span[i] && c' == c)
      && (left != [] ==> g.Found? && g.v == left[0] && Values(f, items[c'..]) == left[1..])
  {
    hide Seek, Items, NextRaw, Values, Offset;
    CutItems(p.buf, items, c, e);
    var k := SeekItems(f, Cut(p.buf, items, c, e), items[c..e]);
    c' := c + k;
    OffsetOfSlice(items, c, e, k);
    assert items[c..e][k..] == items[c'..e];
    ValuesTail(f, items, c, e);
    ValuesTail(f, items, c', e);
    if c < e {
      LastHitCounts(f, items, c, e);
    }
  }

  lemma {:induction false} OffsetOfSlice(items: seq<Raw>, c: nat, e: nat, k: nat)
    requires c <= e <= |items| && k <= e - c
    ensures Offset(items, c) + Offset(items[c..e], k) == Offset(items, c + k)
    decreases k
  {
    if k > 0 {
      OffsetOfSlice(items, c, e, k - 1);
    }
  }

  lemma {:induction false} OffsetStrict(b: seq<byte>, items: seq<Raw>, c: nat, e: nat)
    requires Items(b) == Some(items) && c < e <= |items|
    ensures Offset(items, c) < Offset(items, e)
  {
    ItemAt(b, items, c);
    OffsetMono(items, c + 1, e);
  }

  /** A field's getter is at the end of its span exactly when it has no value left. */
  lemma DoneExact(f: Field, items: seq<Raw>, p: Parser, i: nat, a: nat, c: nat, e: nat)
    requires Items(p.buf) == Some(items)
    requires i < |p.start| && i < |p.span| && i < |p.pos| && SoundAt(f, items, p, i, a, c, e)
    ensures p.pos[i] == p.span[i] <==> Values(f, items[c..]) == []
  {
    if c < e {
      LastHitCounts(f, items, c, e);
      OffsetStrict(p.buf, items, c, e);
    }
  }

  /** Call the getter until it returns nothing, at most `n` times more; None if an assert fails or it goes on longer. */
  function GetAll(f: Field, b: seq<byte>, n: nat): Option<seq<Value>> {
    match Seek(f, b)
    case Crash => None
    case Nothing(_) => Some([])
    case Found(v, used) =>
      if n == 0 || used > |b| then None
      else
        var more := GetAll(f, b[used..], n - 1);
        if more.None? then None else Some([v] + more.value)
  }

  lemma GetAllStep(f: Field, b: seq<byte>, n: nat, ws: seq<Value>)
    requires Seek(f, b).Nothing? ==> ws == []
    requires Seek(f, b).Found? ==>
      && ws != [] && Seek(f, b).v == ws[0] && n > 0 && Seek(f, b).used <= |b|
      && GetAll(f, b[Seek(f, b).used..], n - 1) == Some(ws[1..])
    requires !Seek(f, b).Crash?
    ensures GetAll(f, b, n) == Some(ws)
  {
    hide Seek;
    if ws != [] {
      assert ws == [ws[0]] + ws[1..];
    }
  }

  /** The getter returns the field's values in order, and then nothing. */
  lemma {:induction false} GetAllExact(f: Field, b: seq<byte>, xs: seq<Raw>)
    requires Items(b) == Some(xs)
    ensures GetAll(f, b, |Values(f, xs)|) == Some(Values(f, xs))
    decreases |xs|
  {
    hide Items, NextRaw, Seek, Values, GetAll, Offset;
    var k := SeekItems(f, b, xs);
    var vs := Values(f, xs);
    if vs != [] {
      ItemAt(b, xs, k);
      GetAllExact(f, b[Offset(xs, k)..], xs[k..]);
    }
    GetAllStep(f, b, |vs|, vs);
  }

  // ----- the writer, and the round trip -----

  /** The value is one the field's Add function can be given. */
  predicate Fits(f: Field, v: Value) {
    match f.kind
    case U8 => v.Num? && v.n < 0x100
    case U16 => v.Num? && v.n < 0x1_0000
    case U32 => v.Num? && v.n < 0x1_0000_0000
    case U64 => v.Num? && v.n < 0x1_0000_0000_0000_0000
    case Data => v.Blob? && |v.bytes| < 0x1_0000_0000
    case ConstData(size) => v.Blob? && |v.bytes| == size
  }

  /** The field's SIZE define. */
  function SizeOf(f: Field, v: Value): nat
    requires Fits(f, v)
  {
    if f.kind.IsData() then HEADER + DATA_HEADER + |v.bytes| else HEADER + Width(f.kind.Code())
  }

  /** What the field's Add function appends. */
  function Entry(f: Field, v: Value): (b: seq<byte>)
    requires Fits(f, v)
    ensures |b| == SizeOf(f, v)
  {
    Le(f.id, 2) + Le(f.kind.Code(), 2)
    + if f.kind.IsData() then Le(|v.bytes|, 4) + v.bytes else Le(v.n, Width(f.kind.Code()))
  }

  function RawOf(f: Field, v: Value): Raw
    requires Fits(f, v)
  {
    Raw(f.id, f.kind.Code(), if f.kind.IsData() then v.bytes else Le(v.n, Width(f.kind.Code())), SizeOf(f, v))
  }

  lemma EntryRoundTrip(f: Field, v: Value, rest: seq<byte>)
    requires Fits(f, v) && f.id < 0x1_0000 && (f.kind.ConstData? ==> f.kind.size < 0x1_0000_0000)
    ensures NextRaw(Entry(f, v) + rest) == Some(RawOf(f, v)) && ValueOf(RawOf(f, v)) == v && RawOf(f, v).size == SizeOf(f, v)
    ensures (Entry(f, v) + rest)[SizeOf(f, v)..] == rest
  {
    var b := Entry(f, v) + rest;
    Widths();
    LeRoundTrip(f.id, 2);
    LeRoundTrip(f.kind.Code(), 2);
    assert b[0..2] == Le(f.id, 2);
    assert b[2..4] == Le(f.kind.Code(), 2);
    if f.kind.IsData() {
      LeRoundTrip(|v.bytes|, 4);
      assert b[4..8] == Le(|v.bytes|, 4);
      assert b[8..8 + |v.bytes|] == v.bytes;
    } else {
      var w := Width(f.kind.Code());
      LeRoundTrip(v.n, w);
      assert b[4..4 + w] == Le(v.n, w);
    }
  }

  datatype Add = Add(i: nat, v: Value)

  ghost predicate Addable(schema: seq<Field>, adds: seq<Add>) {
    forall k :: 0 <= k < |adds| ==> adds[k].i < |schema| && Fits(schema[adds[k].i], adds[k].v)
  }

  function Written(schema: seq<Field>, adds: seq<Add>): seq<byte>
    requires Addable(schema, adds)
  {
    if adds == [] then [] else Entry(schema[adds[0].i], adds[0].v) + Written(schema, adds[1..])
  }

  function TotalSize(schema: seq<Field>, adds: seq<Add>): nat
    requires Addable(schema, adds)
  {
    if adds == [] then 0 else SizeOf(schema[adds[0].i], adds[0].v) + TotalSize(schema, adds[1..])
  }

  function ItemsOf(schema: seq<Field>, adds: seq<Add>): (r: seq<Raw>)
    requires Addable(schema, adds)
    ensures |r| == |adds| && forall k :: 0 <= k < |adds| ==> r[k] == RawOf(schema[adds[k].i], adds[k].v)
  {
    seq(|adds|, k requires 0 <= k < |adds| => RawOf(schema[adds[k].i], adds[k].v))
  }

  /** The values added to field `i`, in order. */
  function Added(adds: seq<Add>, i: nat): seq<Value> {
    if adds == [] then [] else (if adds[0].i == i then [adds[0].v] else []) + Added(adds[1..], i)
  }

  lemma {:induction false} WrittenItems(schema: seq<Field>, adds: seq<Add>)
    requires WellFormed(schema) && Addable(schema, adds)
    ensures Items(Written(schema, adds)) == Some(ItemsOf(schema, adds))
    ensures |Written(schema, adds)| == TotalSize(schema, adds)
  {
    hide NextRaw, Items, Entry, RawOf;
    if adds != [] {
      var f, v := schema[adds[0].i], adds[0].v;
      var tail := adds[1..];
      WrittenItems(schema, tail);
      EntryRoundTrip(f, v, Written(schema, tail));
      ItemsCons(Entry(f, v) + Written(schema, tail), RawOf(f, v), Written(schema, tail), ItemsOf(schema, tail));
      assert ItemsOf(schema, adds) == [RawOf(f, v)] + ItemsOf(schema, tail);
    } else {
      ItemsNone();
    }
  }

  lemma {:induction false} FindCaseOf(schema: seq<Field>, i: nat, v: Value, j: nat)
    requires WellFormed(schema) && j <= i < |schema| && Fits(schema[i], v)
    ensures FindCase(schema, RawOf(schema[i], v), j) == Some(i)
    decreases i - j
  {
    if j < i {
      assert !SameCase(schema[j], schema[i]);
      FindCaseOf(schema, i, v, j + 1);
    }
  }

  lemma {:induction false} AddedValues(schema: seq<Field>, adds: seq<Add>, i: nat)
    requires WellFormed(schema) && Addable(schema, adds) && i < |schema|
    ensures Values(schema[i], ItemsOf(schema, adds)) == Added(adds, i)
  {
    if adds != [] {
      var k, v := adds[0].i, adds[0].v;
      var r := RawOf(schema[k], v);
      FindCaseOf(schema, k, v, 0);
      LookupUnique(schema, r, i);
      EntryRoundTrip(schema[k], v, []);
      AddedValues(schema, adds[1..], i);
      assert ItemsOf(schema, adds)[1..] == ItemsOf(schema, adds[1..]);
    }
  }

  /**
  The round trip: for every schema and every series of adds within the cardinalities, in any interleaving, Parser_Init
  accepts what was written, each field's getter returns its values in the order they were added, and the length is the
  sum of the SIZE defines.
  */
  lemma RoundTrip(schema: seq<Field>, adds: seq<Add>)
    requires WellFormed(schema) && Addable(schema, adds)
    requires forall i :: 0 <= i < |schema| ==> schema[i].card.Allows(|Added(adds, i)|)
    ensures |Written(schema, adds)| == TotalSize(schema, adds)
    ensures var p := ParserInit(schema, Written(schema, adds));
      && p.Some? && Sound(schema, ItemsOf(schema, adds), p.value)
      && forall i :: 0 <= i < |schema| ==>
           RestOk(p.value, i) && GetAll(schema[i], Rest(p.value, i), |Added(adds, i)|) == Some(Added(adds, i))
  {
    var buf, items := Written(schema, adds), ItemsOf(schema, adds);
    WrittenItems(schema, adds);
    ParserInitExact(schema, buf);
    forall i | 0 <= i < |schema|
      ensures Values(schema[i], items) == Added(adds, i)
    {
      AddedValues(schema, adds, i);
    }
    forall k | 0 <= k < |items|
      ensures Lookup(schema, items[k]).Some?
    {
      FindCaseOf(schema, adds[k].i, adds[k].v, 0);
    }
    var p := ParserInit(schema, buf).value;
    forall i | 0 <= i < |schema|
      ensures RestOk(p, i) && GetAll(schema[i], Rest(p, i), |Added(adds, i)|) == Some(Added(adds, i))
    {
      FreshGetter(schema[i], items, p, i);
    }
  }

  /** Before its first call a getter has all the field's values before it. */
  lemma FreshGetter(f: Field, items: seq<Raw>, p: Parser, i: nat)
    requires Items(p.buf) == Some(items)
    requires i < |p.start| && i < |p.span| && i < |p.pos| && SoundField(f, items, p, i) && p.pos[i] == 0
    ensures RestOk(p, i) && GetAll(f, Rest(p, i), |Values(f, items)|) == Some(Values(f, items))
  {
    var a: nat, c: nat, e: nat :| SoundAt(f, items, p, i, a, c, e);
    if a < c {
      OffsetStrict(p.buf, items, a, c);
      assert false;
    }
    CutItems(p.buf, items, a, e);
    assert Rest(p, i) == Cut(p.buf, items, a, e);
    GetAllExact(f, Rest(p, i), items[a..e]);
    ValuesMiddle(f, items, a, e);
  }

  lemma ValuesMiddle(f: Field, items: seq<Raw>, a: nat, e: nat)
    requires a <= e <= |items| && Values(f, items[..a]) == [] && Values(f, items[e..]) == []
    ensures Values(f, items) == Values(f, items[a..e])
  {
    ValuesTail(f, items, a, e);
    ValuesAppend(f, items[..a], items[a..]);
    assert items[..a] + items[a..] == items;
  }
}
