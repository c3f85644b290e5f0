/**
 * The event stream of `history.query` in src/client.js: every line of the response
 * body is one JSON event; blank lines are skipped, every other line is parsed and
 * handed to the `next` callback, a line that does not parse is reported as an error.
 */
module HistoryStream {

  import opened Js
  import opened Http

  /** `parseNext(line)`: nothing for a line that trims to '', else one delivery. */
  function LineDeliveries(line: string, parse: string -> Parsed): seq<Delivery<Value>> {
    if Trim(line) == "" then []
    else
      match parse(line)
      case Malformed => [Error(SyntaxError)]
      case Parsed(event) => [Item(event)]
  }

  /** What the callback receives for a whole response body, line by line. */
  function Deliveries(lines: seq<string>, parse: string -> Parsed): seq<Delivery<Value>>
    decreases |lines|
  {
    if lines == [] then [] else LineDeliveries(lines[0], parse) + Deliveries(lines[1..], parse)
  }

  /** The lines that hold an event: those not made only of whitespace. */
  function EventLines(lines: seq<string>): (r: seq<string>)
    ensures forall i | 0 <= i < |r| :: !IsBlank(r[i])
    decreases |lines|
  {
    if lines == [] then []
    else if IsBlank(lines[0]) then EventLines(lines[1..])
    else [lines[0]] + EventLines(lines[1..])
  }

  /** The delivery for one event line. */
  function Deliver(line: string, parse: string -> Parsed): Delivery<Value> {
    match parse(line)
    case Malformed => Error(SyntaxError)
    case Parsed(event) => Item(event)
  }

  /**
   * Blank lines deliver nothing; every other line delivers exactly one event (or one
   * parse error), and deliveries keep the order of the lines.
   */
  lemma {:induction false} DeliveriesFollowEventLines(lines: seq<string>, parse: string -> Parsed)
    ensures |Deliveries(lines, parse)| == |EventLines(lines)|
    ensures forall i | 0 <= i < |EventLines(lines)| ::
              Deliveries(lines, parse)[i] == Deliver(EventLines(lines)[i], parse)
    decreases |lines|
  {
    if lines != [] {
      DeliveriesFollowEventLines(lines[1..], parse);
      TrimEmptyIffBlank(lines[0]);
    }
  }

  /**
   * The consumer keeps no state between lines, so however the body is cut into pieces
   * the deliveries are those of the pieces, concatenated.
   */
  lemma {:induction false} DeliveriesAppend(a: seq<string>, b: seq<string>, parse: string -> Parsed)
    ensures Deliveries(a + b, parse) == Deliveries(a, parse) + Deliveries(b, parse)
    decreases |a|
  {
    if a == [] {
      assert a + b == b;
    } else {
      assert (a + b)[1..] == a[1..] + b;
      DeliveriesAppend(a[1..], b, parse);
    }
  }
}
