/**
 * The cluster client of src/cloud-client.js: server selection among several cloud
 * URIs, the relay and site endpoints, `site` and its buckets (`put`, `delete`,
 * `batch`, `get`, `getMatches`) with their `key=` / `prefix=` query strings and the
 * processing of the answers.
 */
module Cloud {

  import opened Wrappers
  import opened Text
  import opened Js
  import opened Http
  import opened Ops
  import opened Siblings

  // ---------------------------------------------------------------- server selection

  /** `options.uri`: one server URI, or an array of them to spread calls over. */
  datatype ServerUri = Single(uri: string) | Pool(uris: seq<string>)

  /**
   * `Math.random()` returns `draw / RandomDenominator` for a draw in
   * `[0, RandomDenominator)`: a double in [0, 1) on a grid of 2^-52.
   */
  const RandomDenominator: nat := 0x10_0000_0000_0000

  /** Thrown when `url.resolve` is handed `undefined` instead of a server URI. */
  const NoServer := "TypeError"

  /**
   * The first significant digit of `n / d` for `0 < n < d`: the digit `parseInt` reads
   * from `String(n / d)` when that string is in exponent notation (`"4.76e-7"`).
   */
  function LeadingDigit(n: nat, d: nat): (digit: nat)
    requires 0 < n < d
    ensures 1 <= digit <= 9
    decreases d - n
  {
    if 10 * n >= d then 10 * n / d else LeadingDigit(10 * n, d)
  }

  function Pow10(e: nat): (p: nat)
    ensures p >= 1
  {
    if e == 0 then 1 else 10 * Pow10(e - 1)
  }

  /**
   * `LeadingDigit(n, d)` is the first significant digit of `n / d`: scaled by some
   * power of ten, `n / d` lies in `[digit, digit + 1)`.
   */
  lemma {:induction false} LeadingDigitIsFirstDigit(n: nat, d: nat)
    requires 0 < n < d
    ensures exists e: nat :: LeadingDigit(n, d) * d <= n * Pow10(e) < (LeadingDigit(n, d) + 1) * d
    decreases d - n
  {
    if 10 * n >= d {
      QuotientBounds(10 * n, d);
      assert n * Pow10(1) == 10 * n;
    } else {
      LeadingDigitIsFirstDigit(10 * n, d);
      var digit := LeadingDigit(10 * n, d);
      var e: nat :| digit * d <= 10 * n * Pow10(e) < (digit + 1) * d;
      ShiftPow10(n, e);
    }
  }

  lemma QuotientBounds(x: nat, d: nat)
    requires d > 0
    ensures (x / d) * d <= x < (x / d + 1) * d
  {
  }

  lemma ShiftPow10(n: nat, e: nat)
    ensures n * Pow10(e + 1) == 10 * n * Pow10(e)
  {
    assert Pow10(e + 1) == 10 * Pow10(e);
  }


  /**
   * `parseInt(len * Math.random())` with the draw `k`. Below 1e-6, `String` switches to
   * exponent notation and `parseInt` stops at the decimal point of the mantissa.
   */
  function ParseIntIndex(len: nat, k: nat): (i: nat)
    requires k < RandomDenominator
    ensures len * k == 0 ==> i == 0
    ensures len * k * 1000000 >= RandomDenominator ==> i == len * k / RandomDenominator
    ensures 0 < len * k && len * k * 1000000 < RandomDenominator ==> i == LeadingDigit(len * k, RandomDenominator)
  {
    var n := len * k;
    if n == 0 then 0
    else if n * 1000000 >= RandomDenominator then n / RandomDenominator
    else LeadingDigit(n, RandomDenominator)
  }

  /**
   * `_server()` as written: the URI itself, or the pool entry at the `parseInt` index;
   * None when that entry does not exist (reading it gives `undefined`).
   */
  function ServerAsWritten(u: ServerUri, k: nat): (s: Option<string>)
    requires k < RandomDenominator
    ensures u.Single? ==> s == Some(u.uri)
    ensures u.Pool? ==> (s.Some? <==> ParseIntIndex(|u.uris|, k) < |u.uris|)
    ensures u.Pool? && s.Some? ==> s.value in u.uris
  {
    match u
    case Single(uri) => Some(uri)
    case Pool(uris) =>
      var i := ParseIntIndex(|uris|, k);
      if i < |uris| then Some(uris[i]) else None
  }

  /** The draw 2^31, i.e. `Math.random()` returning 2^-21 ≈ 4.77e-7, makes a one-URI pool miss. */
  lemma ServerAsWrittenMisses()
    ensures ParseIntIndex(1, 0x8000_0000) == 4
    ensures ServerAsWritten(Pool(["https://cloud.example"]), 0x8000_0000) == None
  {
    var d := RandomDenominator;
    var n := 0x8000_0000;
    assert 10 * (10 * (10 * (10 * (10 * (10 * n))))) < d;
    assert 10 * (10 * (10 * (10 * (10 * (10 * (10 * n)))))) / d == 4;
    assert LeadingDigit(n, d) == 4;
  }

  /** With one URI, every non-zero draw below 1e-6 picks an index past the end. */
  lemma SingleUriPoolMissesSmallDraws(uri: string, k: nat)
    requires 0 < k && k * 1000000 < RandomDenominator
    ensures ServerAsWritten(Pool([uri]), k) == None
  {
    assert 1 * k == k;
  }

  /** Pools of ten or more URIs stay in bounds as written: a leading digit is at most 9. */
  lemma ServerAsWrittenInBoundsFromTen(uris: seq<string>, k: nat)
    requires |uris| >= 10 && k < RandomDenominator
    ensures ServerAsWritten(Pool(uris), k).Some?
  {
    var n := |uris| * k;
    if n != 0 && n * 1000000 >= RandomDenominator {
      FloorIndexInBounds(|uris|, k);
    }
  }

  /** A product with a positive factor is positive only if the other factor is. */
  lemma PositiveFactor(x: int, d: int)
    requires d > 0 && x * d > 0
    ensures x > 0
  {
  }

  lemma FloorIndexInBounds(len: nat, k: nat)
    requires 0 < len && k < RandomDenominator
    ensures len * k / RandomDenominator < len
  {
    var d := RandomDenominator;
    var q := len * k / d;
    assert len * (d - k) > 0;
    assert (len - q) * d == len * d - q * d;
    PositiveFactor(len - q, d);
  }

  /**
   * `_server()` with the index taken as `Math.floor(len * Math.random())`: the URI
   * itself, a pool entry, or None for an empty pool (whose entry 0 is `undefined`).
   */
  function Server(u: ServerUri, k: nat): (s: Option<string>)
    requires k < RandomDenominator
    ensures u.Single? ==> s == Some(u.uri)
    ensures u.Pool? ==> (s.Some? <==> u.uris != [])
    ensures u.Pool? && s.Some? ==> s.value in u.uris
  {
    match u
    case Single(uri) => Some(uri)
    case Pool(uris) =>
      if uris == [] then None
      else
        FloorIndexInBounds(|uris|, k);
        Some(uris[|uris| * k / RandomDenominator])
  }

  /** Every URI of a pool is picked by some draw. */
  lemma EveryServerIsPicked(uris: seq<string>, i: nat)
    requires i < |uris| <= RandomDenominator
    ensures exists k | 0 <= k < RandomDenominator :: Server(Pool(uris), k) == Some(uris[i])
  {
    var d := RandomDenominator;
    var len := |uris|;
    var k := (i * d + len - 1) / len;
    assert k * len <= i * d + len - 1 < k * len + len;
    assert i * d <= len * k < (i + 1) * d;
    assert (d - k) * len == len * d - len * k;
    assert len * d >= (i + 1) * d;
    PositiveFactor(d - k, len);
    var q := len * k / d;
    assert q * d <= len * k < q * d + d;
    assert (i + 1 - q) * d == (i + 1) * d - q * d;
    PositiveFactor(i + 1 - q, d);
    assert (q + 1 - i) * d == q * d + d - i * d;
    PositiveFactor(q + 1 - i, d);
    assert Server(Pool(uris), k) == Some(uris[i]);
  }

  /**
   * As long as `String(len * Math.random())` is not in exponent notation (a zero
   * product, or one of at least 1e-6), the index as written is the floor and the
   * choice as written is the corrected one.
   */
  lemma ServerAsWrittenAgrees(u: ServerUri, k: nat)
    requires k < RandomDenominator
    requires u.Pool? ==> |u.uris| * k == 0 || |u.uris| * k * 1000000 >= RandomDenominator
    ensures ServerAsWritten(u, k) == Server(u, k)
  {
    if u.Pool? && u.uris != [] {
      FloorIndexInBounds(|u.uris|, k);
      if |u.uris| * k == 0 {
        assert |u.uris| * k / RandomDenominator == 0;
      }
    }
  }

  /**
   * `url.resolve(this._server(), ref)` inside a promise executor, with the server
   * chosen as written: a missing server throws, which rejects the promise before
   * anything is sent.
   */
  function At(u: ServerUri, k: nat, verb: Method, ref: string, body: Option<Value>): (r: Result<Request, string>)
    requires k < RandomDenominator
    ensures r.Success? <==> ServerAsWritten(u, k).Some?
    ensures r.Failure? ==> r.error == NoServer
    ensures r.Success? ==> r.value.base == ServerAsWritten(u, k).value && r.value.verb == verb
                           && r.value.ref == ref && r.value.suffix == "" && r.value.json && r.value.body == body
  {
    match ServerAsWritten(u, k)
    case None => Failure(NoServer)
    case Some(server) => Success(Request(verb, server, ref, "", true, body))
  }

  // ---------------------------------------------------------------- paths

  /** What a path of the cloud API names. */
  datatype Target =
    | RelayAt(relay: string)                     // /relays/{relay}
    | SiteAt(site: string)                       // /sites/{site}
    | SiteBatches(site: string, bucket: string)  // /sites/{site}/buckets/{bucket}/batches
    | SiteKeys(site: string, bucket: string)     // /sites/{site}/buckets/{bucket}/keys

  function Segments(t: Target): (segments: seq<string>)
    ensures segments != []
  {
    match t
    case RelayAt(r) => ["relays", r]
    case SiteAt(s) => ["sites", s]
    case SiteBatches(s, b) => ["sites", s, "buckets", b, "batches"]
    case SiteKeys(s, b) => ["sites", s, "buckets", b, "keys"]
  }

  /** The path, as the source spells it. */
  function Path(t: Target): string {
    match t
    case RelayAt(r) => "/relays/" + r
    case SiteAt(s) => "/sites/" + s
    case SiteBatches(s, b) => "/sites/" + s + "/buckets/" + b + "/batches"
    case SiteKeys(s, b) => "/sites/" + s + "/buckets/" + b + "/keys"
  }

  lemma BucketPath(s: string, b: string, last: string, sitesSlash: string, bucketsSlash: string, slashLast: string)
    requires sitesSlash == "/" + "sites" + "/" && bucketsSlash == "/" + "buckets" + "/" && slashLast == "/" + last
    ensures sitesSlash + s + bucketsSlash + b + slashLast == Prefixed(["sites", s, "buckets", b, last], "/")
  {
    var segments := ["sites", s, "buckets", b, last];
    assert segments[1..] == [s, "buckets", b, last];
    assert segments[1..][1..] == ["buckets", b, last];
    PrefixedShort("buckets", b, last, "/");
  }

  lemma PathIsSegments(t: Target)
    ensures Path(t) == Prefixed(Segments(t), "/")
  {
    match t
    case RelayAt(r) => NamedPath("relays", r, "/relays/");
    case SiteAt(s) => NamedPath("sites", s, "/sites/");
    case SiteBatches(s, b) => BucketPath(s, b, "batches", "/sites/", "/buckets/", "/batches");
    case SiteKeys(s, b) => BucketPath(s, b, "keys", "/sites/", "/buckets/", "/keys");
  }

  /** The cloud's router: the '/'-separated fields of a path, read back into a target. */
  function Route(fields: seq<string>): Option<Target> {
    if |fields| == 3 && fields[0] == "" && fields[1] == "relays" then Some(RelayAt(fields[2]))
    else if |fields| == 3 && fields[0] == "" && fields[1] == "sites" then Some(SiteAt(fields[2]))
    else if |fields| == 6 && fields[0] == "" && fields[1] == "sites" && fields[3] == "buckets" then
      if fields[5] == "batches" then Some(SiteBatches(fields[2], fields[4]))
      else if fields[5] == "keys" then Some(SiteKeys(fields[2], fields[4]))
      else None
    else None
  }

  predicate PlainSegments(t: Target) {
    forall i | 0 <= i < |Segments(t)| :: '/' !in Segments(t)[i]
  }

  /** Every path the client builds reads back as the target it was built for. */
  lemma RouteInvertsPath(t: Target)
    requires PlainSegments(t)
    ensures Route(Split(Path(t), '/')) == Some(t)
  {
    PathIsSegments(t);
    SplitPath(Segments(t));
  }

  /** Different targets never share a path. */
  lemma PathsIdentifyTargets(t1: Target, t2: Target)
    requires PlainSegments(t1) && PlainSegments(t2) && Path(t1) == Path(t2)
    ensures t1 == t2
  {
    RouteInvertsPath(t1);
    RouteInvertsPath(t2);
  }

  /** Without the no-'/' condition the claim fails: a site ID may spell out a bucket path. */
  lemma SlashInSegmentsCollide()
    ensures SiteAt("s/buckets/b/keys") != SiteKeys("s", "b")
    ensures Path(SiteAt("s/buckets/b/keys")) == Path(SiteKeys("s", "b")) == "/sites/s/buckets/b/keys"
  {
    assert "/sites/" + "s/buckets/b/keys" == "/sites/s/buckets/b/keys";
    assert "/sites/" + "s" + "/buckets/" + "b" + "/keys" == "/sites/s/buckets/b/keys";
  }

  // ---------------------------------------------------------------- relays and sites

  /** The cluster client object: the cloud server URI or URIs. */
  datatype CloudDB = CloudDB(serverURI: ServerUri)

  /** `addRelay(relayID)`: PUT `/relays/{relayID}`. */
  function AddRelayRequest(db: CloudDB, relayID: Value, k: nat): (r: Result<Request, string>)
    requires k < RandomDenominator
    ensures r.Success? <==> ServerAsWritten(db.serverURI, k).Some?
    ensures r.Success? ==> r.value.verb == PUT && r.value.ref == Path(RelayAt(JsString(relayID))) && r.value.body == None
  {
    At(db.serverURI, k, PUT, "/relays/" + JsString(relayID), None)
  }

  /** `removeRelay(relayID)`: DELETE `/relays/{relayID}`. */
  function RemoveRelayRequest(db: CloudDB, relayID: Value, k: nat): (r: Result<Request, string>)
    requires k < RandomDenominator
    ensures r.Success? <==> ServerAsWritten(db.serverURI, k).Some?
    ensures r.Success? ==> r.value.verb == DELETE && r.value.ref == Path(RelayAt(JsString(relayID))) && r.value.body == None
  {
    At(db.serverURI, k, DELETE, "/relays/" + JsString(relayID), None)
  }

  /** `moveRelay(relayID, siteID)`: PATCH `/relays/{relayID}` with the body `{site: siteID}`. */
  function MoveRelayRequest(db: CloudDB, relayID: Value, siteID: Value, k: nat): (r: Result<Request, string>)
    requires k < RandomDenominator
    ensures r.Success? <==> ServerAsWritten(db.serverURI, k).Some?
    ensures r.Success? ==> r.value.verb == PATCH && r.value.ref == Path(RelayAt(JsString(relayID)))
                           && r.value.body == Some(Obj(map["site" := siteID]))
  {
    At(db.serverURI, k, PATCH, "/relays/" + JsString(relayID), Some(Obj(map["site" := siteID])))
  }

  /** `addSite(siteID)`: PUT `/sites/{siteID}`. */
  function AddSiteRequest(db: CloudDB, siteID: Value, k: nat): (r: Result<Request, string>)
    requires k < RandomDenominator
    ensures r.Success? <==> ServerAsWritten(db.serverURI, k).Some?
    ensures r.Success? ==> r.value.verb == PUT && r.value.ref == Path(SiteAt(JsString(siteID))) && r.value.body == None
  {
    At(db.serverURI, k, PUT, "/sites/" + JsString(siteID), None)
  }

  /** `removeSite(siteID)`: DELETE `/sites/{siteID}`. */
  function RemoveSiteRequest(db: CloudDB, siteID: Value, k: nat): (r: Result<Request, string>)
    requires k < RandomDenominator
    ensures r.Success? <==> ServerAsWritten(db.serverURI, k).Some?
    ensures r.Success? ==> r.value.verb == DELETE && r.value.ref == Path(SiteAt(JsString(siteID))) && r.value.body == None
  {
    At(db.serverURI, k, DELETE, "/sites/" + JsString(siteID), None)
  }

  /** A cloud `bucket`: its name, the cloud URIs and the site it belongs to. */
  datatype CloudBucket = CloudBucket(bucketName: string, serverURI: ServerUri, siteID: Value)

  /** A `site`: its four buckets; `shared` is another name for `default`. */
  datatype Site = Site(lww: CloudBucket, default: CloudBucket, shared: CloudBucket, cloud: CloudBucket, local: CloudBucket)

  /** `db.site(siteID)`: every bucket of the site talks to the client's URIs about that site. */
  function SiteOf(db: CloudDB, siteID: Value): (s: Site)
    ensures s.lww.bucketName == "lww" && s.default.bucketName == "default"
    ensures s.cloud.bucketName == "cloud" && s.local.bucketName == "local"
    ensures s.shared == s.default
    ensures forall b | b in [s.lww, s.default, s.cloud, s.local] :: b.serverURI == db.serverURI && b.siteID == siteID
  {
    Site(CloudBucket("lww", db.serverURI, siteID), CloudBucket("default", db.serverURI, siteID),
         CloudBucket("default", db.serverURI, siteID), CloudBucket("cloud", db.serverURI, siteID),
         CloudBucket("local", db.serverURI, siteID))
  }

  // ---------------------------------------------------------------- bucket writes

  /** `bucket.batch(ops)`: POST the operations to `/sites/{siteID}/buckets/{bucket}/batches`. */
  function CloudBatchRequest(b: CloudBucket, ops: Value, k: nat): (r: Result<Request, string>)
    requires k < RandomDenominator
    ensures r.Success? <==> ServerAsWritten(b.serverURI, k).Some?
    ensures r.Success? ==> r.value.verb == POST && r.value.ref == Path(SiteBatches(JsString(b.siteID), b.bucketName))
                           && r.value.body == Some(ops) && r.value.json
  {
    At(b.serverURI, k, POST, "/sites/" + JsString(b.siteID) + "/buckets/" + b.bucketName + "/batches", Some(ops))
  }

  /** `bucket.put(key, value, context)`: a batch of exactly one well-formed put. */
  function CloudPutRequest(b: CloudBucket, key: Value, value: Value, context: Value, k: nat): (r: Result<Request, string>)
    requires k < RandomDenominator
    ensures r.Success? <==> ServerAsWritten(b.serverURI, k).Some?
    ensures r.Success? ==> r.value.verb == POST && r.value.ref == Path(SiteBatches(JsString(b.siteID), b.bucketName))
    ensures r.Success? ==> r.value.body.Some? && r.value.body.value.Arr? && |r.value.body.value.items| == 1
    ensures r.Success? ==>
              var op := r.value.body.value.items[0];
              && WellFormedOp(op) && op.fields["type"] == Str("put")
              && op.fields["key"] == key && op.fields["value"] == value
              && op.fields["context"] == (if Falsy(context) then Str("") else context)
  {
    CloudBatchRequest(b, Arr([PutOp(key, value, context)]), k)
  }

  /** `bucket.delete(key, context)`: a batch of exactly one well-formed delete, carrying no value. */
  function CloudDeleteRequest(b: CloudBucket, key: Value, context: Value, k: nat): (r: Result<Request, string>)
    requires k < RandomDenominator
    ensures r.Success? <==> ServerAsWritten(b.serverURI, k).Some?
    ensures r.Success? ==> r.value.verb == POST && r.value.ref == Path(SiteBatches(JsString(b.siteID), b.bucketName))
    ensures r.Success? ==> r.value.body.Some? && r.value.body.value.Arr? && |r.value.body.value.items| == 1
    ensures r.Success? ==>
              var op := r.value.body.value.items[0];
              && WellFormedOp(op) && op.fields["type"] == Str("delete")
              && op.fields["key"] == key && "value" !in op.fields
              && op.fields["context"] == (if Falsy(context) then Str("") else context)
  {
    CloudBatchRequest(b, Arr([DeleteOp(key, context)]), k)
  }

  // ---------------------------------------------------------------- key query strings

  /** One `{param}=<encoded key>` per key, in order; `enc` is `encodeURIComponent`. */
  function KeyParams(param: string, keys: seq<Value>, enc: string -> string): (r: seq<string>)
    ensures |r| == |keys|
  {
    seq(|keys|, i requires 0 <= i < |keys| => param + "=" + enc(JsString(keys[i])))
  }

  /** `for (let key of query) queryString += param + '=' + encodeURIComponent(key) + '&'`. */
  method KeysQueryString(param: string, keys: seq<Value>, enc: string -> string) returns (queryString: string)
    ensures queryString == Terminated(KeyParams(param, keys, enc), "&")
  {
    queryString := "";
    var i := 0;
    while i < |keys|
      invariant 0 <= i <= |keys|
      invariant queryString == Terminated(KeyParams(param, keys, enc)[..i], "&")
    {
      TerminatedAppend(KeyParams(param, keys, enc)[..i], KeyParams(param, keys, enc)[i], "&");
      assert KeyParams(param, keys, enc)[..i + 1] == KeyParams(param, keys, enc)[..i] + [KeyParams(param, keys, enc)[i]];
      queryString := queryString + param + "=" + enc(JsString(keys[i])) + "&";
      i := i + 1;
    }
    assert KeyParams(param, keys, enc)[..i] == KeyParams(param, keys, enc);
  }

  /**
   * The query string keeps its trailing '&': split on '&' it gives back one parameter
   * per key, in order, and then an empty field — provided no encoded key contains '&'.
   */
  lemma KeysQueryReadBack(param: string, keys: seq<Value>, enc: string -> string)
    requires keys != []
    requires '&' !in param
    requires forall i | 0 <= i < |keys| :: '&' !in enc(JsString(keys[i]))
    ensures Split(Terminated(KeyParams(param, keys, enc), "&"), '&') == KeyParams(param, keys, enc) + [""]
  {
    var params := KeyParams(param, keys, enc);
    forall i | 0 <= i < |params| ensures '&' !in params[i] {
      assert params[i] == param + "=" + enc(JsString(keys[i]));
    }
    TerminatedIsJoinThenSep(params, "&");
    JoinAppend(params, "", "&");
    assert JoinWith(params, "&") + "&" + "" == JoinWith(params, "&") + "&";
    var all := params + [""];
    forall i | 0 <= i < |all| ensures '&' !in all[i] {
      if i < |params| { assert all[i] == params[i]; }
    }
    SplitJoin(all, '&');
  }

  /** No keys, no parameters: the reference ends in `/keys?`. */
  lemma NoKeysNoQuery(param: string, enc: string -> string)
    ensures Terminated(KeyParams(param, [], enc), "&") == ""
  {
  }

  /** The reference `get` and `getMatches` resolve: the keys path followed by the query string. */
  function KeysRef(b: CloudBucket, queryString: string): string {
    "/sites/" + JsString(b.siteID) + "/buckets/" + b.bucketName + "/keys?" + queryString
  }

  lemma KeysRefIsKeysPath(b: CloudBucket, queryString: string)
    ensures KeysRef(b, queryString) == Path(SiteKeys(JsString(b.siteID), b.bucketName)) + "?" + queryString
  {
    var p := "/sites/" + JsString(b.siteID) + "/buckets/" + b.bucketName;
    assert "/keys?" == "/keys" + "?";
    assert KeysRef(b, queryString) == p + "/keys?" + queryString;
  }

  /** The request of `bucket.get(key)`: GET the values of the keys. */
  function CloudGetRequest(b: CloudBucket, key: Value, enc: string -> string, k: nat): (r: Result<Request, string>)
    requires k < RandomDenominator
    ensures r.Success? <==> ServerAsWritten(b.serverURI, k).Some?
    ensures r.Success? ==> r.value.verb == GET && r.value.body == None
                           && r.value.ref == KeysRef(b, Terminated(KeyParams("key", KeyQuery(key), enc), "&"))
  {
    At(b.serverURI, k, GET, KeysRef(b, Terminated(KeyParams("key", KeyQuery(key), enc), "&")), None)
  }

  /** The request of `bucket.getMatches(key)`: GET the entries under the key prefixes. */
  function CloudMatchesRequest(b: CloudBucket, key: Value, enc: string -> string, k: nat): (r: Result<Request, string>)
    requires k < RandomDenominator
    ensures r.Success? <==> ServerAsWritten(b.serverURI, k).Some?
    ensures r.Success? ==> r.value.verb == GET && r.value.body == None
                           && r.value.ref == KeysRef(b, Terminated(KeyParams("prefix", KeyQuery(key), enc), "&"))
  {
    At(b.serverURI, k, GET, KeysRef(b, Terminated(KeyParams("prefix", KeyQuery(key), enc), "&")), None)
  }

  // ---------------------------------------------------------------- answers

  /**
   * What one entry of a `get` answer becomes: its `prefix` removed, its value filled in
   * by the sibling rule, and null in place of an entry whose siblings are null or missing.
   */
  function ShapeEntry(props: map<string, Value>): (v: Value)
    ensures v == Null <==> Nullish(Prop(props, "siblings"))
    ensures v != Null ==> v.Obj? && "prefix" !in v.fields && ValueConsistent(v.fields)
    ensures v != Null ==> forall k | k in props && k != "prefix" && k != "value" :: k in v.fields && v.fields[k] == props[k]
    ensures v != Null ==> v.fields == FillIn(props - {"prefix"})
  {
    var stripped := props - {"prefix"};
    assert Prop(stripped, "siblings") == Prop(props, "siblings");
    if Nullish(Prop(FillIn(stripped), "siblings")) then Null else Obj(FillIn(stripped))
  }

  /** The properties of the entries of a response, in order. */
  function PropsOf(entries: seq<JsObject>): (ps: seq<map<string, Value>>)
    reads set i | 0 <= i < |entries| :: entries[i]
    ensures |ps| == |entries| && forall i | 0 <= i < |entries| :: ps[i] == entries[i].props
  {
    if entries == [] then [] else [entries[0].props] + PropsOf(entries[1..])
  }

  /** The mapped answer of `get`: one shaped entry per entry, in order. */
  function ShapeAll(ps: seq<map<string, Value>>): (vs: seq<Value>)
    ensures |vs| == |ps| && forall i | 0 <= i < |ps| :: vs[i] == ShapeEntry(ps[i])
  {
    seq(|ps|, i requires 0 <= i < |ps| => ShapeEntry(ps[i]))
  }

  /** What a JS reference to a response entry shows: null, or the entry's current properties. */
  function Snapshot(o: JsObject?): Value
    reads o
  {
    if o == null then Null else Obj(o.props)
  }

  /** `responseBody.map(...)` in `get`: strip, fill in and null out every entry, in place. */
  method ShapeEntries(responseBody: seq<JsObject>) returns (shaped: seq<Value>)
    requires Distinct(responseBody)
    modifies Refs(responseBody)
    ensures shaped == ShapeAll(old(PropsOf(responseBody)))
    ensures forall i | 0 <= i < |responseBody| :: responseBody[i].props == FillIn(old(responseBody[i].props) - {"prefix"})
  {
    shaped := [];
    var i := 0;
    while i < |responseBody|
      invariant 0 <= i <= |responseBody|
      invariant |shaped| == i
      invariant forall j | 0 <= j < i :: shaped[j] == ShapeEntry(old(responseBody[j].props))
      invariant forall j | 0 <= j < i :: responseBody[j].props == FillIn(old(responseBody[j].props) - {"prefix"})
      invariant forall j | i <= j < |responseBody| :: responseBody[j].props == old(responseBody[j].props)
    {
      var response := responseBody[i];
      response.props := response.props - {"prefix"};
      FillInDBObjectValue(response);
      if Nullish(Prop(response.props, "siblings")) {
        shaped := shaped + [Null];
      } else {
        shaped := shaped + [Obj(response.props)];
      }
      i := i + 1;
    }
  }

  /**
   * `bucket.get(key)` on the cluster. On 200 each entry is changed in place (`delete
   * response.prefix`, then the sibling rule) and the promise resolves with the mapped
   * list, or its first entry for a scalar key. A missing server rejects before sending.
   */
  method CloudGet(b: CloudBucket, key: Value, enc: string -> string, k: nat, res: HttpResult<seq<JsObject>>)
    returns (req: Result<Request, string>, outcome: Outcome<Fetched<Value>, seq<JsObject>>)
    requires k < RandomDenominator
    requires res.Response? ==> Distinct(res.body)
    modifies if res.Response? then Refs(res.body) else {}
    ensures req == CloudGetRequest(b, key, enc, k)
    ensures req.Failure? ==> outcome == Rejected(Thrown(NoServer))
    ensures req.Success? && !(res.Response? && res.status == 200) ==> outcome == Rejected(Settle(res).reason)
    ensures req.Success? && res.Response? && res.status == 200 ==>
              && outcome == Resolved(Answer(key, ShapeAll(old(PropsOf(res.body)))))
              && forall i | 0 <= i < |res.body| :: res.body[i].props == FillIn(old(res.body[i].props) - {"prefix"})
    ensures res.Response? && !(req.Success? && res.status == 200) ==>
              forall i | 0 <= i < |res.body| :: res.body[i].props == old(res.body[i].props)
  {
    var queryString := KeysQueryString("key", KeyQuery(key), enc);
    req := At(b.serverURI, k, GET, KeysRef(b, queryString), None);
    if req.Failure? {
      outcome := Rejected(Thrown(req.error));
      return;
    }
    match res
    case TransportError(e) =>
      outcome := Rejected(Transport(e));
    case Response(status, responseBody) =>
      if status != 200 {
        outcome := Rejected(StatusBody(responseBody));
        return;
      }
      var shaped := ShapeEntries(responseBody);
      outcome := Resolved(Answer(key, shaped));
  }

  /**
   * `bucket.getMatches(key, next)` on the cluster. On 200 every entry first gets its
   * value filled in; then `next` is called once per entry, in response order, so every
   * delivered entry already carries its value; the promise then resolves with nothing.
   */
  method CloudGetMatches(b: CloudBucket, key: Value, enc: string -> string, k: nat, res: HttpResult<seq<JsObject?>>)
    returns (req: Result<Request, string>, delivered: seq<Value>, outcome: Outcome<Value, seq<JsObject?>>)
    requires k < RandomDenominator
    requires res.Response? ==> Distinct(res.body)
    modifies if res.Response? then Refs(res.body) else {}
    ensures req == CloudMatchesRequest(b, key, enc, k)
    ensures outcome == Completed(Call(req, res))
    ensures req.Success? && res.Response? && res.status == 200 ==>
              && |delivered| == |res.body|
              && forall i | 0 <= i < |res.body| ::
                   delivered[i] == (if res.body[i] == null then Null else Obj(FillIn(old(res.body[i].props))))
    ensures !(req.Success? && res.Response? && res.status == 200) ==> delivered == []
    ensures res.Response? && !(req.Success? && res.status == 200) ==>
              forall i | 0 <= i < |res.body| && res.body[i] != null :: res.body[i].props == old(res.body[i].props)
  {
    var queryString := KeysQueryString("prefix", KeyQuery(key), enc);
    req := At(b.serverURI, k, GET, KeysRef(b, queryString), None);
    delivered := [];
    outcome := Completed(Call(req, res));
    if req.Failure? || !res.Response? || res.status != 200 {
      return;
    }
    var responseBody := res.body;
    FillInAll(responseBody);
    var i := 0;
    while i < |responseBody|
      invariant 0 <= i <= |responseBody|
      invariant |delivered| == i
      invariant forall j | 0 <= j < i :: delivered[j] == Snapshot(responseBody[j])
    {
      delivered := delivered + [Snapshot(responseBody[i])];
      i := i + 1;
    }
  }
}
