/**
 * The endpoints of a DeviceDB node that src/client.js calls, with the method and the
 * path each one is reached by, and the reading of a (method, path) pair back into an
 * endpoint — what the node's router does. The round trip shows the client never sends
 * two different operations to the same place.
 */
module Routes {

  import opened Wrappers
  import opened Text
  import opened Http

  datatype Endpoint =
    | Batch(bucket: string)              // POST   /{bucket}/batch
    | MerkleRoot(bucket: string)         // GET    /{bucket}/merkleRoot
    | Values(bucket: string)             // POST   /{bucket}/values
    | Matches(bucket: string)            // POST   /{bucket}/matches
    | AddPeer(peer: string)              // PUT    /peers/{peer}
    | RemovePeer(peer: string)           // DELETE /peers/{peer}
    | ListPeers                          // GET    /peers
    | LogEvent(source: string, kind: string)  // PUT /events/{source}/{kind}
    | QueryEvents                        // GET    /events
    | PurgeEvents                        // DELETE /events

  function Verb(e: Endpoint): Method {
    match e
    case Batch(_) => POST
    case MerkleRoot(_) => GET
    case Values(_) => POST
    case Matches(_) => POST
    case AddPeer(_) => PUT
    case RemovePeer(_) => DELETE
    case ListPeers => GET
    case LogEvent(_, _) => PUT
    case QueryEvents => GET
    case PurgeEvents => DELETE
  }

  /** The path segments after the leading '/'. */
  function Segments(e: Endpoint): (segments: seq<string>)
    ensures segments != []
  {
    match e
    case Batch(b) => [b, "batch"]
    case MerkleRoot(b) => [b, "merkleRoot"]
    case Values(b) => [b, "values"]
    case Matches(b) => [b, "matches"]
    case AddPeer(p) => ["peers", p]
    case RemovePeer(p) => ["peers", p]
    case ListPeers => ["peers"]
    case LogEvent(s, k) => ["events", s, k]
    case QueryEvents => ["events"]
    case PurgeEvents => ["events"]
  }

  /** The reference the client resolves against the server URI, as the source spells it. */
  function Ref(e: Endpoint): string {
    match e
    case Batch(b) => "/" + b + "/batch"
    case MerkleRoot(b) => "/" + b + "/merkleRoot"
    case Values(b) => "/" + b + "/values"
    case Matches(b) => "/" + b + "/matches"
    case AddPeer(p) => "/peers/" + p
    case RemovePeer(p) => "/peers/" + p
    case ListPeers => "/peers"
    case LogEvent(s, k) => "/events/" + s + "/" + k
    case QueryEvents => "/events"
    case PurgeEvents => "/events"
  }

  /** The router: a method and the '/'-separated fields of a path, read back into an endpoint. */
  function Route(verb: Method, fields: seq<string>): Option<Endpoint> {
    if |fields| < 2 || fields[0] != "" then None
    else if |fields| == 2 then
      if fields[1] == "peers" && verb == GET then Some(ListPeers)
      else if fields[1] == "events" && verb == GET then Some(QueryEvents)
      else if fields[1] == "events" && verb == DELETE then Some(PurgeEvents)
      else None
    else if |fields| == 3 then
      if fields[1] == "peers" && verb == PUT then Some(AddPeer(fields[2]))
      else if fields[1] == "peers" && verb == DELETE then Some(RemovePeer(fields[2]))
      else if fields[2] == "batch" && verb == POST then Some(Batch(fields[1]))
      else if fields[2] == "values" && verb == POST then Some(Values(fields[1]))
      else if fields[2] == "matches" && verb == POST then Some(Matches(fields[1]))
      else if fields[2] == "merkleRoot" && verb == GET then Some(MerkleRoot(fields[1]))
      else None
    else if |fields| == 4 && fields[1] == "events" && verb == PUT then Some(LogEvent(fields[2], fields[3]))
    else None
  }

  /** The reference is the segments, each preceded by '/'. */
  lemma RefIsPath(e: Endpoint)
    ensures Ref(e) == Prefixed(Segments(e), "/")
  {
    match e
    case Batch(b) => TwoSegmentPath(b, "batch", "/batch");
    case MerkleRoot(b) => TwoSegmentPath(b, "merkleRoot", "/merkleRoot");
    case Values(b) => TwoSegmentPath(b, "values", "/values");
    case Matches(b) => TwoSegmentPath(b, "matches", "/matches");
    case AddPeer(p) => NamedPath("peers", p, "/peers/");
    case RemovePeer(p) => NamedPath("peers", p, "/peers/");
    case ListPeers => PrefixedShort("peers", "", "", "/");
    case LogEvent(s, k) =>
      NamedPath("events", s, "/events/");
      PrefixedShort("events", s, k, "/");
    case QueryEvents => PrefixedShort("events", "", "", "/");
    case PurgeEvents => PrefixedShort("events", "", "", "/");
  }

  /** Bucket names, peer IDs and event sources and types that contain no '/'. */
  predicate PlainSegments(e: Endpoint) {
    forall i | 0 <= i < |Segments(e)| :: '/' !in Segments(e)[i]
  }

  /** The router reads every request the client builds back into the endpoint it was built for. */
  lemma RouteInvertsRef(e: Endpoint)
    requires PlainSegments(e)
    ensures Route(Verb(e), Split(Ref(e), '/')) == Some(e)
  {
    RefIsPath(e);
    SplitPath(Segments(e));
    RouteReadsSegments(e);
  }

  /** The router maps the fields of each endpoint's path back to the endpoint. */
  lemma RouteReadsSegments(e: Endpoint)
    ensures Route(Verb(e), [""] + Segments(e)) == Some(e)
  {
    var fields := [""] + Segments(e);
    assert fields[0] == "" && fields[1..] == Segments(e);
  }

  /** The router accepts only what the client builds. */
  lemma RouteAcceptsOnlyRefs(verb: Method, fields: seq<string>)
    requires Route(verb, fields).Some?
    ensures Verb(Route(verb, fields).value) == verb
    ensures [""] + Segments(Route(verb, fields).value) == fields
  {
    assert [""] + fields[1..] == fields;
  }

  /** Two different operations never go out with the same method and path. */
  lemma RequestsIdentifyEndpoints(e1: Endpoint, e2: Endpoint)
    requires PlainSegments(e1) && PlainSegments(e2)
    requires Verb(e1) == Verb(e2) && Ref(e1) == Ref(e2)
    ensures e1 == e2
  {
    RouteInvertsRef(e1);
    RouteInvertsRef(e2);
  }

  /**
   * Without the no-'/' condition the claim fails: `log` accepts any non-empty source
   * and type, and a '/' inside one of them moves the boundary between the two.
   */
  lemma SlashInSegmentsCollide()
    ensures LogEvent("a/b", "c") != LogEvent("a", "b/c")
    ensures Verb(LogEvent("a/b", "c")) == Verb(LogEvent("a", "b/c"))
    ensures Ref(LogEvent("a/b", "c")) == Ref(LogEvent("a", "b/c")) == "/events/a/b/c"
  {
    assert "/events/" + "a/b" + "/" + "c" == "/events/a/b/c";
    assert "/events/" + "a" + "/" + "b/c" == "/events/a/b/c";
  }
}
