/**
 * The DeviceDB node client of src/client.js: the `DeviceDB` object and its wiring, the
 * peer endpoints, and `bucket` (`put`, `delete`, `batch`, `getMerkleRoot`, `get`,
 * `getMatches`). The event log lives in module History.
 */
module Client {

  import opened Wrappers
  import opened Js
  import opened Http
  import opened Routes
  import opened Ops
  import opened Siblings
  import MatchStream
  import opened History

  /**
   * The options object handed to `new DeviceDB(options)`, which the constructor writes
   * to. Its `https` and `agent` fields belong to the transport and are not modelled.
   */
  class ClientOptions {
    var uri: string
    var category: Value

    constructor (uri: string, category: Value)
      ensures this.uri == uri && this.category == category
    {
      this.uri := uri;
      this.category := category;
    }
  }

  /** A `bucket`: its name and the node it talks to. */
  datatype Bucket = Bucket(bucketName: string, serverURI: string)

  /** A `DeviceDB` client object; `shared` is another name for `default`. */
  datatype DeviceDB = DeviceDB(
    serverURI: string,
    lww: Bucket, default: Bucket, shared: Bucket, cloud: Bucket, local: Bucket,
    history: History, alerts: AlertLog)

  /** The buckets of a client, named after the node's four buckets, all on the client's node. */
  predicate Wired(db: DeviceDB) {
    && db.lww == Bucket("lww", db.serverURI)
    && db.default == Bucket("default", db.serverURI)
    && db.shared == db.default
    && db.cloud == Bucket("cloud", db.serverURI)
    && db.local == Bucket("local", db.serverURI)
    && db.history == History(db.serverURI, "events")
    && db.alerts == AlertLog(History(db.serverURI, "alerts"))
  }

  /**
   * `new DeviceDB(options)`. The history object is built while `options.category` is
   * `events` and the alert log while it is `alerts`, which is where the constructor
   * leaves it.
   */
  method NewDeviceDB(options: ClientOptions) returns (db: DeviceDB)
    modifies options
    ensures Wired(db) && db.serverURI == old(options.uri)
    ensures options.uri == old(options.uri) && options.category == Str("alerts")
  {
    var uri := options.uri;
    var lww := Bucket("lww", uri);
    var dflt := Bucket("default", uri);
    var cloud := Bucket("cloud", uri);
    var local := Bucket("local", uri);
    options.category := Str("events");
    var history := History(options.uri, options.category.s);
    options.category := Str("alerts");
    var alerts := AlertLog(History(options.uri, options.category.s));
    db := DeviceDB(uri, lww, dflt, dflt, cloud, local, history, alerts);
  }

  /** Everything the history and the alert log of a client send is filed under its own category. */
  lemma AlertsAreLoggedUnderAlerts(db: DeviceDB, event: map<string, Value>, name: Value, level: Value,
                                   metadata: Value, status: bool, enc: string -> string)
    requires Wired(db)
    ensures var r := LogRequest(db.history, event, enc);
            r.Success? ==> r.value.suffix[..|"?category=" + enc("events")|] == "?category=" + enc("events")
    ensures var r := AlertRequest(db.alerts, name, level, metadata, status, enc);
            r.Success? ==> r.value.suffix == "?category=" + enc("alerts")
  {
    var r := LogRequest(db.history, event, enc);
    if r.Success? {
      var head := "?category=" + enc("events");
      assert r.value.suffix == head + GroupsSuffix(Strings(GroupItems(event)), enc);
    }
  }

  // ---------------------------------------------------------------- bucket writes

  /** `bucket.batch(ops)`: POST the operations, as JSON, to `/{bucket}/batch`. */
  function BatchRequest(b: Bucket, ops: Value): (r: Request)
    ensures r.verb == Verb(Batch(b.bucketName)) && r.ref == Ref(Batch(b.bucketName))
    ensures r.base == b.serverURI && r.suffix == "" && r.json && r.body == Some(ops)
  {
    Request(POST, b.serverURI, "/" + b.bucketName + "/batch", "", true, Some(ops))
  }

  /** `bucket.put(key, value, context)`: a batch of exactly one well-formed put. */
  function PutRequest(b: Bucket, key: Value, value: Value, context: Value): (r: Request)
    ensures r.verb == POST && r.ref == Ref(Batch(b.bucketName)) && r.json
    ensures r.base == b.serverURI && r.suffix == ""
    ensures r.body.Some? && r.body.value.Arr? && |r.body.value.items| == 1
    ensures var op := r.body.value.items[0];
            && WellFormedOp(op) && op.fields["type"] == Str("put")
            && op.fields["key"] == key && op.fields["value"] == value
            && op.fields["context"] == (if Falsy(context) then Str("") else context)
  {
    BatchRequest(b, Arr([PutOp(key, value, context)]))
  }

  /** `bucket.delete(key, context)`: a batch of exactly one well-formed delete, carrying no value. */
  function DeleteRequest(b: Bucket, key: Value, context: Value): (r: Request)
    ensures r.verb == POST && r.ref == Ref(Batch(b.bucketName)) && r.json
    ensures r.base == b.serverURI && r.suffix == ""
    ensures r.body.Some? && r.body.value.Arr? && |r.body.value.items| == 1
    ensures var op := r.body.value.items[0];
            && WellFormedOp(op) && op.fields["type"] == Str("delete")
            && op.fields["key"] == key && "value" !in op.fields
            && op.fields["context"] == (if Falsy(context) then Str("") else context)
  {
    BatchRequest(b, Arr([DeleteOp(key, context)]))
  }

  // ---------------------------------------------------------------- bucket reads

  /** `bucket.getMerkleRoot()`: GET `/{bucket}/merkleRoot`; resolves with the response body. */
  function MerkleRootRequest(b: Bucket): (r: Request)
    ensures r.verb == Verb(MerkleRoot(b.bucketName)) && r.ref == Ref(MerkleRoot(b.bucketName))
    ensures r.base == b.serverURI && r.json && r.body == None
  {
    Request(GET, b.serverURI, "/" + b.bucketName + "/merkleRoot", "", true, None)
  }

  /** The request of `bucket.get(key)`: POST the keys, as a JSON array, to `/{bucket}/values`. */
  function ValuesRequest(b: Bucket, key: Value): (r: Request)
    ensures r.verb == Verb(Values(b.bucketName)) && r.ref == Ref(Values(b.bucketName))
    ensures r.base == b.serverURI && r.json
    ensures key.Arr? ==> r.body == Some(key)
    ensures !key.Arr? ==> r.body == Some(Arr([key]))
  {
    Request(POST, b.serverURI, "/" + b.bucketName + "/values", "", true, Some(Arr(KeyQuery(key))))
  }

  /** The request of `bucket.getMatches(key)`: POST the key prefixes to `/{bucket}/matches`. */
  function MatchesRequest(b: Bucket, key: Value): (r: Request)
    ensures r.verb == Verb(Matches(b.bucketName)) && r.ref == Ref(Matches(b.bucketName))
    ensures r.base == b.serverURI && r.json
    ensures key.Arr? ==> r.body == Some(key)
    ensures !key.Arr? ==> r.body == Some(Arr([key]))
  {
    Request(POST, b.serverURI, "/" + b.bucketName + "/matches", "", true, Some(Arr(KeyQuery(key))))
  }

  /**
   * `bucket.get(key)`. On 200 every non-null entry of the response has its value filled
   * in by the sibling rule, in place, and the promise resolves with the whole list for
   * an array key and with its first entry otherwise. Other outcomes touch nothing.
   */
  method Get(b: Bucket, key: Value, res: HttpResult<seq<JsObject?>>)
    returns (req: Request, outcome: Outcome<Fetched<JsObject?>, seq<JsObject?>>)
    requires res.Response? ==> Distinct(res.body)
    modifies if res.Response? then Refs(res.body) else {}
    ensures req == ValuesRequest(b, key)
    ensures res.Response? && res.status == 200 ==>
              && outcome == Resolved(Answer(key, res.body))
              && forall i | 0 <= i < |res.body| && res.body[i] != null ::
                   res.body[i].props == FillIn(old(res.body[i].props))
    ensures !(res.Response? && res.status == 200) ==> outcome == Rejected(Settle(res).reason)
    ensures res.Response? && res.status != 200 ==>
              forall i | 0 <= i < |res.body| && res.body[i] != null :: res.body[i].props == old(res.body[i].props)
  {
    req := ValuesRequest(b, key);
    match res
    case TransportError(e) =>
      outcome := Rejected(Transport(e));
    case Response(status, responseBody) =>
      if status != 200 {
        outcome := Rejected(StatusBody(responseBody));
      } else {
        FillInAll(responseBody);
        outcome := Resolved(Answer(key, responseBody));
      }
  }

  /**
   * A scalar key answered with one entry resolves with that entry and its value filled
   * in; no entry is left with a value that disagrees with its siblings.
   */
  lemma GetResolvesConsistentEntries(key: Value, responseBody: seq<map<string, Value>>)
    requires |responseBody| == |KeyQuery(key)|
    ensures !key.Arr? ==> Answer(key, seq(|responseBody|, i requires 0 <= i < |responseBody| => FillIn(responseBody[i])))
                          == Single(FillIn(responseBody[0]))
    ensures forall i | 0 <= i < |responseBody| :: ValueConsistent(FillIn(responseBody[i]))
  {
    var filled := seq(|responseBody|, i requires 0 <= i < |responseBody| => FillIn(responseBody[i]));
    AnswerUnwrapsQuery(key, filled);
  }

  /**
   * `bucket.getMatches(key, next)`: the response lines go through a fresh match stream,
   * whose calls of `next` are returned; the promise resolves with nothing.
   */
  method GetMatches(b: Bucket, key: Value, lines: seq<string>, parse: string -> Parsed, res: HttpResult<Value>)
    returns (req: Request, delivered: seq<Delivery<MatchStream.Record>>, outcome: Outcome<Value, Value>)
    ensures req == MatchesRequest(b, key)
    ensures delivered == MatchStream.Run(MatchStream.Start, lines, parse).1
    ensures outcome == Completed(Settle(res))
  {
    req := MatchesRequest(b, key);
    var stream := new MatchStream.KeyMatchStream(parse);
    stream.FeedAll(lines);
    delivered := stream.delivered;
    outcome := Completed(Settle(res));
  }

  // ---------------------------------------------------------------- peers

  /**
   * `parseInt(parsedAddress.port) || 443`: the port of the peer address, where a missing
   * port (`parseInt(null)` is NaN) and port 0 both fall back to 443.
   */
  function PeerPort(port: Option<nat>): (p: nat)
    ensures p > 0
    ensures port.Some? && port.value != 0 ==> p == port.value
    ensures port == None || port == Some(0) ==> p == 443
  {
    match port
    case Some(n) => if n != 0 then n else 443
    case None => 443
  }

  /**
   * `addPeer(peerID, peerAddress)`: PUT `{id, host, port}` to `/peers/{peerID}`. The
   * address arrives already split by `url.parse` into its host name and port.
   */
  function AddPeerRequest(db: DeviceDB, peerID: Value, hostname: Value, port: Option<nat>): (r: Request)
    ensures r.verb == Verb(AddPeer(JsString(peerID))) && r.ref == Ref(AddPeer(JsString(peerID)))
    ensures r.base == db.serverURI && r.json && r.body.Some? && r.body.value.Obj?
    ensures r.body.value.fields.Keys == {"id", "host", "port"}
    ensures r.body.value.fields["id"] == peerID && r.body.value.fields["host"] == hostname
    ensures r.body.value.fields["port"] == Num(PeerPort(port))
  {
    Request(PUT, db.serverURI, "/peers/" + JsString(peerID), "", true,
            Some(Obj(map["id" := peerID, "host" := hostname, "port" := Num(PeerPort(port))])))
  }

  /** `removePeer(peerID)`: DELETE `/peers/{peerID}`. */
  function RemovePeerRequest(db: DeviceDB, peerID: Value): (r: Request)
    ensures r.verb == Verb(RemovePeer(JsString(peerID))) && r.ref == Ref(RemovePeer(JsString(peerID)))
    ensures r.base == db.serverURI && r.json && r.body == None
  {
    Request(DELETE, db.serverURI, "/peers/" + JsString(peerID), "", true, None)
  }

  /** `listPeers()`: GET `/peers`; resolves with the response body. */
  function ListPeersRequest(db: DeviceDB): (r: Request)
    ensures r.verb == Verb(ListPeers) && r.ref == Ref(ListPeers)
    ensures r.base == db.serverURI && r.json && r.body == None
  {
    Request(GET, db.serverURI, "/peers", "", true, None)
  }

  /**
   * The calls of `DeviceDB` that have no bucket argument go to the `default` bucket,
   * which is also the `shared` one.
   */
  lemma TopLevelCallsUseDefaultBucket(db: DeviceDB, key: Value, value: Value, context: Value)
    requires Wired(db)
    ensures PutRequest(db.default, key, value, context).ref == Ref(Batch("default"))
    ensures DeleteRequest(db.shared, key, context).ref == Ref(Batch("default"))
    ensures MerkleRootRequest(db.default).ref == Ref(MerkleRoot("default"))
    ensures ValuesRequest(db.default, key).ref == Ref(Values("default"))
    ensures MatchesRequest(db.default, key).ref == Ref(Matches("default"))
  {
  }
}
