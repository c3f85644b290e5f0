/**
 * The key-match stream of `bucket.getMatches` in src/client.js. The response body is a
 * sequence of lines in groups of three — a prefix, a key, and the JSON of the stored
 * object — and a three-state machine assembles each group into one record
 * `{prefix, key, siblings, value, context}` that it hands to the `next` callback.
 */
module MatchStream {

  import opened Wrappers
  import opened Js
  import opened Http
  import opened Siblings

  /** Which line the machine expects next (the closure variable `nextState`). */
  datatype LineKind = PrefixLine | KeyLine | SiblingsLine

  /** The machine: the expected line and the record being assembled (`nextSiblingSet`). */
  datatype Machine = Machine(state: LineKind, pending: map<string, Value>)

  type Record = map<string, Value>

  const Start: Machine := Machine(PrefixLine, map[])

  /** The accumulator holds exactly the fields read since the last record was delivered. */
  predicate WellShaped(m: Machine) {
    match m.state
    case PrefixLine => m.pending == map[]
    case KeyLine => m.pending.Keys == {"prefix"}
    case SiblingsLine => m.pending.Keys == {"prefix", "key"}
  }

  /**
   * `JSON.parse(line)` on a siblings line followed by the source's check: a malformed
   * line, a null object (reading `.siblings` of null) and a `siblings` field that is
   * not an array are errors.
   */
  function StoredObject(p: Parsed): (r: Result<map<string, Value>, StreamError>)
    ensures r.Success? <==> p.Parsed? && p.v.Obj? && Prop(p.v.fields, "siblings").Arr?
    ensures r.Success? ==> r.value == p.v.fields
    ensures p.Malformed? ==> r == Failure(SyntaxError)
    ensures p.Parsed? && Nullish(p.v) ==> r == Failure(TypeError)
    ensures p.Parsed? && !Nullish(p.v) && !(p.v.Obj? && Prop(p.v.fields, "siblings").Arr?) ==>
              r == Failure(SiblingsNotArray)
  {
    match p
    case Malformed => Failure(SyntaxError)
    case Parsed(v) =>
      if Nullish(v) then Failure(TypeError)
      else if v.Obj? && Prop(v.fields, "siblings").Arr? then Success(v.fields)
      else Failure(SiblingsNotArray)
  }

  /**
   * The record for one group of three lines: the prefix and key lines as they are,
   * the stored object's siblings and context, and the value the sibling rule gives.
   */
  function MatchRecord(prefix: string, key: string, stored: map<string, Value>): Record
    requires Prop(stored, "siblings").Arr?
  {
    var siblings := Prop(stored, "siblings").items;
    map["prefix" := Str(prefix), "key" := Str(key), "siblings" := Arr(siblings),
        "value" := (if |siblings| == 1 then siblings[0] else Null),
        "context" := Prop(stored, "context")]
  }

  /** The effect of one line: the next machine and what is handed to `next`. */
  function Step(m: Machine, line: string, parse: string -> Parsed): (r: (Machine, seq<Delivery<Record>>))
    ensures WellShaped(m) ==> WellShaped(r.0)
    ensures |r.1| <= 1
    ensures m.state != SiblingsLine ==> r.1 == []
    ensures m.state == PrefixLine ==> r.0.state == KeyLine && r.0.pending == m.pending["prefix" := Str(line)]
    ensures m.state == KeyLine ==> r.0.state == SiblingsLine && r.0.pending == m.pending["key" := Str(line)]
    ensures m.state == SiblingsLine && StoredObject(parse(line)).Failure? ==>
              r.0 == m && r.1 == [Error(StoredObject(parse(line)).error)]
    ensures m.state == SiblingsLine && StoredObject(parse(line)).Success? ==>
              r.0 == Start && |r.1| == 1 && r.1[0].Item?
  {
    match m.state
    case PrefixLine => (Machine(KeyLine, m.pending["prefix" := Str(line)]), [])
    case KeyLine => (Machine(SiblingsLine, m.pending["key" := Str(line)]), [])
    case SiblingsLine =>
      match StoredObject(parse(line))
      case Failure(e) => (m, [Error(e)])
      case Success(stored) =>
        var dbobject := FillIn(stored);
        var record := m.pending["siblings" := Prop(dbobject, "siblings")]
                               ["value" := Prop(dbobject, "value")]
                               ["context" := Prop(dbobject, "context")];
        (Start, [Item(record)])
  }

  /** The effect of a sequence of lines, fed in order. */
  function Run(m: Machine, lines: seq<string>, parse: string -> Parsed): (r: (Machine, seq<Delivery<Record>>))
    decreases |lines|
  {
    if lines == [] then (m, [])
    else
      var first := Step(m, lines[0], parse);
      var rest := Run(first.0, lines[1..], parse);
      (rest.0, first.1 + rest.1)
  }

  /** Feeding `a + b` is feeding `a`, then feeding `b` to the machine `a` left. */
  lemma {:induction false} RunAppend(m: Machine, a: seq<string>, b: seq<string>, parse: string -> Parsed)
    ensures Run(m, a + b, parse).0 == Run(Run(m, a, parse).0, b, parse).0
    ensures Run(m, a + b, parse).1 == Run(m, a, parse).1 + Run(Run(m, a, parse).0, b, parse).1
    decreases |a|
  {
    if a == [] {
      assert a + b == b;
    } else {
      assert (a + b)[0] == a[0];
      assert (a + b)[1..] == a[1..] + b;
      var first := Step(m, a[0], parse);
      RunAppend(first.0, a[1..], b, parse);
      var left, whole := Run(first.0, a[1..], parse), Run(first.0, a[1..] + b, parse);
      assert Run(m, a + b, parse) == (whole.0, first.1 + whole.1);
      assert Run(m, a, parse) == (left.0, first.1 + left.1);
    }
  }

  /** Every siblings line (the third of each group) holds an object whose `siblings` is an array. */
  predicate WellFormedStream(lines: seq<string>, parse: string -> Parsed) {
    && |lines| % 3 == 0
    && forall i | 0 <= i < |lines| && i % 3 == 2 :: StoredObject(parse(lines[i])).Success?
  }

  /** Reference definition of the deliveries for a well-formed stream: one record per group of three lines. */
  function Records(lines: seq<string>, parse: string -> Parsed): seq<Delivery<Record>>
    requires WellFormedStream(lines, parse)
    decreases |lines|
  {
    if lines == [] then []
    else
      assert StoredObject(parse(lines[2])).Success?;
      var tail := lines[3..];
      assert WellFormedStream(tail, parse) by {
        forall i | 0 <= i < |tail| && i % 3 == 2 ensures StoredObject(parse(tail[i])).Success? {
          assert tail[i] == lines[i + 3];
        }
      }
      [Item(MatchRecord(lines[0], lines[1], StoredObject(parse(lines[2])).value))] + Records(tail, parse)
  }

  lemma OneGroup(p: string, k: string, s: string, parse: string -> Parsed)
    requires StoredObject(parse(s)).Success?
    ensures Run(Start, [p, k, s], parse) == (Start, [Item(MatchRecord(p, k, StoredObject(parse(s)).value))])
  {
    var r1 := Step(Start, p, parse);
    var r2 := Step(r1.0, k, parse);
    var r3 := Step(r2.0, s, parse);
    assert r1.0.state == KeyLine && r1.1 == [];
    assert r2.0.state == SiblingsLine && r2.1 == [];
    assert Run(r3.0, [], parse) == (r3.0, []);
    assert r3.1 + [] == r3.1;
    assert [s][1..] == [];
    assert Run(r2.0, [s], parse) == (r3.0, r3.1);
    assert [k, s][1..] == [s];
    assert Run(r1.0, [k, s], parse) == (r3.0, r2.1 + r3.1);
    assert r2.1 + r3.1 == r3.1;
    assert [p, k, s][1..] == [k, s];
    assert Run(Start, [p, k, s], parse) == (r3.0, r1.1 + r3.1);
    assert r1.1 + r3.1 == r3.1;
  }

  /** Feeding a well-formed stream from the start delivers exactly the reference records and ends at the start. */
  lemma {:induction false} RunIsRecords(lines: seq<string>, parse: string -> Parsed)
    requires WellFormedStream(lines, parse)
    ensures Run(Start, lines, parse) == (Start, Records(lines, parse))
    decreases |lines|
  {
    if lines != [] {
      var head, tail := lines[..3], lines[3..];
      assert lines == head + tail;
      assert head == [lines[0], lines[1], lines[2]];
      assert StoredObject(parse(lines[2])).Success?;
      OneGroup(lines[0], lines[1], lines[2], parse);
      assert WellFormedStream(tail, parse) by {
        forall i | 0 <= i < |tail| && i % 3 == 2 ensures StoredObject(parse(tail[i])).Success? {
          assert tail[i] == lines[i + 3];
        }
      }
      RunIsRecords(tail, parse);
      RunAppend(Start, head, tail, parse);
    }
  }

  lemma {:induction false} RecordsAt(lines: seq<string>, parse: string -> Parsed)
    requires WellFormedStream(lines, parse)
    ensures |Records(lines, parse)| == |lines| / 3
    ensures forall i | 0 <= i < |lines| / 3 ::
              Records(lines, parse)[i]
              == Item(MatchRecord(lines[3 * i], lines[3 * i + 1], StoredObject(parse(lines[3 * i + 2])).value))
    decreases |lines|
  {
    if lines != [] {
      var tail := lines[3..];
      assert WellFormedStream(tail, parse) by {
        forall i | 0 <= i < |tail| && i % 3 == 2 ensures StoredObject(parse(tail[i])).Success? {
          assert tail[i] == lines[i + 3];
        }
      }
      RecordsAt(tail, parse);
      var d := Records(lines, parse);
      forall i | 1 <= i < |lines| / 3
        ensures d[i] == Item(MatchRecord(lines[3 * i], lines[3 * i + 1], StoredObject(parse(lines[3 * i + 2])).value))
      {
        var j := i - 1;
        assert d[i] == Records(tail, parse)[j];
        assert tail[3 * j] == lines[3 * i];
        assert tail[3 * j + 1] == lines[3 * i + 1];
        assert tail[3 * j + 2] == lines[3 * i + 2];
      }
    }
  }

  /**
   * After 3n well-formed lines the machine is back at the start and has delivered
   * exactly n records, in order: record i has line 3i as prefix, line 3i+1 as key, and
   * siblings, value and context from the object on line 3i+2.
   */
  lemma RunDeliversOneRecordPerGroup(lines: seq<string>, parse: string -> Parsed)
    requires WellFormedStream(lines, parse)
    ensures Run(Start, lines, parse).0 == Start
    ensures |Run(Start, lines, parse).1| == |lines| / 3
    ensures forall i | 0 <= i < |lines| / 3 ::
              Run(Start, lines, parse).1[i]
              == Item(MatchRecord(lines[3 * i], lines[3 * i + 1], StoredObject(parse(lines[3 * i + 2])).value))
  {
    RunIsRecords(lines, parse);
    RecordsAt(lines, parse);
  }

  /**
   * The lines `p`, `k` and `{"siblings":["v"],"context":"c"}` deliver the single record
   * `{prefix: "p", key: "k", siblings: ["v"], value: "v", context: "c"}`.
   */
  lemma OneSiblingExample(line: string, parse: string -> Parsed)
    requires parse(line) == Parsed(Obj(map["siblings" := Arr([Str("v")]), "context" := Str("c")]))
    ensures Run(Start, ["p", "k", line], parse)
            == (Start, [Item(map["prefix" := Str("p"), "key" := Str("k"), "siblings" := Arr([Str("v")]),
                                 "value" := Str("v"), "context" := Str("c")])])
  {
    OneGroup("p", "k", line, parse);
  }

  /** Every record delivered satisfies the database-object invariant and has exactly the five fields. */
  lemma {:induction false} RunDeliversResolvedRecords(m: Machine, lines: seq<string>, parse: string -> Parsed)
    requires WellShaped(m)
    ensures forall d | d in Run(m, lines, parse).1 && d.Item? ::
              ValueConsistent(d.item) && d.item.Keys == {"prefix", "key", "siblings", "value", "context"}
    decreases |lines|
  {
    if lines != [] {
      RunDeliversResolvedRecords(Step(m, lines[0], parse).0, lines[1..], parse);
      var first := Step(m, lines[0], parse).1;
      if first != [] && first[0].Item? {
        var stored := StoredObject(parse(lines[0])).value;
        assert ValueConsistent(FillIn(stored));
      }
    }
  }

  /**
   * The state the closures of `getMatches` share: the expected line, the record being
   * assembled, and the calls made so far to the `next` callback.
   */
  class KeyMatchStream {
    var state: LineKind
    var pending: map<string, Value>
    var delivered: seq<Delivery<Record>>
    const parse: string -> Parsed

    function Current(): Machine
      reads this
    {
      Machine(state, pending)
    }

    predicate Valid()
      reads this
    {
      WellShaped(Current())
    }

    constructor (parse: string -> Parsed)
      ensures Valid() && Current() == Start && delivered == [] && this.parse == parse
    {
      state := PrefixLine;
      pending := map[];
      delivered := [];
      this.parse := parse;
    }

    /** `parseNext(line)`: run the handler of the current state. */
    method Feed(line: string)
      requires Valid()
      modifies this
      ensures Valid()
      ensures Current() == Step(old(Current()), line, parse).0
      ensures delivered == old(delivered) + Step(old(Current()), line, parse).1
    {
      match state
      case PrefixLine =>
        pending := pending["prefix" := Str(line)];
        state := KeyLine;
      case KeyLine =>
        pending := pending["key" := Str(line)];
        state := SiblingsLine;
      case SiblingsLine =>
        var parsed := parse(line);
        if parsed.Malformed? {
          delivered := delivered + [Error(SyntaxError)];
          return;
        }
        if Nullish(parsed.v) {
          delivered := delivered + [Error(TypeError)];
          return;
        }
        if !(parsed.v.Obj? && Prop(parsed.v.fields, "siblings").Arr?) {
          delivered := delivered + [Error(SiblingsNotArray)];
          return;
        }
        var dbobject := new JsObject(parsed.v.fields);
        FillInDBObjectValue(dbobject);
        pending := pending["siblings" := Prop(dbobject.props, "siblings")];
        pending := pending["value" := Prop(dbobject.props, "value")];
        pending := pending["context" := Prop(dbobject.props, "context")];
        delivered := delivered + [Item(pending)];
        pending := map[];
        state := PrefixLine;
    }

    /** The line splitter feeding every line of the response body to `parseNext`, in order. */
    method FeedAll(lines: seq<string>)
      requires Valid()
      modifies this
      ensures Valid()
      ensures Current() == Run(old(Current()), lines, parse).0
      ensures delivered == old(delivered) + Run(old(Current()), lines, parse).1
    {
      var i := 0;
      while i < |lines|
        invariant 0 <= i <= |lines|
        invariant Valid()
        invariant Current() == Run(old(Current()), lines[..i], parse).0
        invariant delivered == old(delivered) + Run(old(Current()), lines[..i], parse).1
      {
        RunAppend(old(Current()), lines[..i], [lines[i]], parse);
        assert lines[..i + 1] == lines[..i] + [lines[i]];
        Feed(lines[i]);
        i := i + 1;
      }
      assert lines[..i] == lines;
    }
  }
}
