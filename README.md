# devicedb-node client, modelled in Dafny

This project models the client library of DeviceDB, a distributed key-value database reached over a REST API. It covers two files:
- `src/client.js`, the client of one DeviceDB node;
- `src/cloud-client.js`, the client of the cloud cluster.

The model covers the buckets of both clients (`put`, `delete`, `batch`, `get`, `getMatches`), and `getMerkleRoot` of the node client. It also covers:
- the peer endpoints of the node client;
- the event log (`history.log`, `query`, `purge`) and the alert log (`raiseAlert`, `lowerAlert`);
- the cluster's relay and site endpoints, `site()`, and the choice of a server among several cloud URIs;
- the two line streams: the three-line key-match stream of `getMatches`, and the one-event-per-line history stream.

Every call builds one HTTP request. The model represents a request as a `Request` value holding:
- the method;
- the base URI and the reference resolved against it (`url.resolve(base, ref)`);
- a suffix appended after resolution;
- whether the body is JSON;
- the body itself.

The transport's answer enters as an `HttpResult` argument. `Settle` classifies it the way every response callback does:
- a transport error rejects with that error;
- a status other than 200 rejects with the body;
- 200 resolves.

Validation failures reject before anything is sent; `Call` models this. Other standard functions are parameters:
- `encodeURIComponent` is a function argument `enc`;
- `JSON.parse` is a function argument `parse` returning a value or `Malformed`.

Modules and files:

| file | module | contents |
|---|---|---|
| wrappers.dfy | Wrappers | `Option`, `Result` |
| text.dfy | Text | `join`, the `s += p + sep` loops, `split`, and how they relate |
| js.dfy | Js | JavaScript values, `String(v)`, `trim`, and a mutable object `JsObject` |
| http.dfy | Http | requests, responses, promise outcomes, stream deliveries |
| routes.dfy | Routes | the node's endpoints, their paths, and the router that reads a path back |
| siblings.dfy | Siblings | `_fillInDBObjectValue` and the invariant it establishes |
| ops.dfy | Ops | batch operations for `put`/`delete`, key wrapping and unwrapping |
| matchstream.dfy | MatchStream | the key-match line stream, as a class proved against a transition function |
| historystream.dfy | HistoryStream | the history line stream |
| history.dfy | History | `encodeGroups`, `history`, `alertLog` |
| client.dfy | Client | `DeviceDB`, its wiring and peers, the node `bucket` |
| cloud.dfy | Cloud | the cluster client: server choice, relays, sites, cloud `bucket` |

Objects that the source changes in place are classes with a `props` map:
- response entries that get a `value` filled in;
- the event whose `groups` `log` overwrites;
- the stored object of a match line.

Two more pieces of state are modelled the same way. The closure variables of `getMatches` are the fields of `KeyMatchStream`. The `options` object that the `DeviceDB` constructor writes to is `ClientOptions`. Configuration objects that are never changed after construction are datatypes: `bucket`, `history`, `alertLog`, `site`, and the `DeviceDB` objects.

## Model

| member | source | states |
|---|---|---|
| Siblings.FillIn | src/client.js:517-532 | When `siblings` is an array, `value` is its sole element if it has exactly one, else null. Any other object is unchanged. Only `value` is added or overwritten. |
| Siblings.FillInFixesExactlyResolved | src/client.js:517-532 | Filling in leaves an object unchanged exactly when it already satisfies the sibling/value invariant. |
| Siblings.FillInIdempotent | src/cloud-client.js:232-247 | Filling in twice is the same as filling in once. |
| Siblings.FillInDBObjectValue | src/client.js:517-532 | A null reference is left alone. Otherwise the object's properties become their filled-in form, in place. |
| Siblings.FillInAll | src/client.js:558-560 | Every non-null entry of a response is filled in, and no other object is touched. |
| Ops.ContextOrEmpty | src/client.js:461 | A falsy context is sent as the empty string; any other context is sent unchanged. |
| Ops.PutOp | src/client.js:455-464 | A put operation is well formed: its keys are exactly type, key, value and context, and it carries the given key and value. |
| Ops.DeleteOp | src/client.js:466-474 | A delete operation is well formed, carries the key, and has no `value` property. |
| Ops.KeyQuery | src/client.js:535-542 | An array key is sent as it is; any other key is wrapped as a one-element list. |
| Ops.AnswerUnwrapsQuery | src/client.js:562-567 | When the server answers one entry per queried key, a scalar key gets exactly that entry and an array key gets the whole list. |
| Http.Settle | src/client.js:96-106 | A call resolves iff the response has status 200, and then resolves with the body. A transport error rejects with that error; any other status rejects with the body. |
| Http.RejectedBeforeSending | src/client.js:255-266 | A call that fails validation rejects with its message whatever the network would have answered. |
| Js.TrimEmptyIffBlank | src/client.js:181 | `s.trim() == ''` exactly when every character of `s` is JavaScript white space or a line terminator. |
| Routes.RouteInvertsRef | src/client.js:476-631 | When no bucket name, peer ID, event source or type contains '/', every method and reference the node client builds reads back as the endpoint it was built for: bucket batch, merkle root, values and matches, peers, and events. The claim is about the reference string before `url.resolve`. |
| Routes.RouteAcceptsOnlyRefs | src/client.js:83-146 | The router accepts only the methods and paths that some endpoint produces. |
| Routes.RequestsIdentifyEndpoints | src/client.js:83-146 | When no segment contains '/', two different operations never go out with the same method and reference. The claim is about the reference string before `url.resolve`. |
| Routes.SlashInSegmentsCollide | src/client.js:284 | Without the no-'/' condition, `log` of source "a/b" and type "c" and `log` of source "a" and type "b/c" both PUT `/events/a/b/c`. |
| MatchStream.StoredObject | src/client.js:605-609 | A siblings line is accepted iff it parses to an object whose `siblings` is an array. A malformed line fails with `SyntaxError`, null with `TypeError`, and any other value without an array `siblings` with `SiblingsNotArray`. |
| MatchStream.Step | src/client.js:594-627 | The state cycles prefix → key → siblings → prefix, and the accumulator holds exactly the fields read so far. A bad siblings line delivers one error and leaves the machine unchanged. A good one delivers one record and returns to the start with an empty accumulator. |
| MatchStream.RunAppend | src/client.js:625-627 | Feeding `a + b` is feeding `a`, then feeding `b` to the machine `a` left behind. |
| MatchStream.RunIsRecords | src/client.js:594-627 | Feeding well-formed groups of three lines from the start delivers exactly the reference records and ends at the start. |
| MatchStream.RunDeliversOneRecordPerGroup | src/client.js:594-627 | After 3n well-formed lines exactly n records have been delivered. Record i has line 3i as prefix, line 3i+1 as key, and siblings/value/context from the object on line 3i+2. |
| MatchStream.RunDeliversResolvedRecords | src/client.js:611-617 | Every delivered record has exactly the five fields and satisfies the sibling/value invariant. |
| MatchStream.OneSiblingExample | src/client.js:594-622 | The lines `p`, `k`, `{"siblings":["v"],"context":"c"}` deliver the single record with prefix p, key k, siblings ["v"], value "v" and context "c". |
| MatchStream.KeyMatchStream.Feed | src/client.js:596-626 | One call of `parseNext` updates the closure state and the deliveries exactly as `Step` says, and keeps the accumulator invariant. |
| MatchStream.KeyMatchStream.FeedAll | src/client.js:625-627 | Feeding lines one by one ends where `Run` says and appends exactly its deliveries. |
| HistoryStream.DeliveriesFollowEventLines | src/client.js:353-361 | Blank lines deliver nothing. Every other line delivers exactly one event, or one parse error, and the deliveries keep line order. |
| HistoryStream.DeliveriesAppend | src/client.js:353-361 | The consumer keeps no state between lines: the deliveries of a body are the concatenated deliveries of its pieces. |
| History.EncodeGroups | src/client.js:211-223 | No groups give `''`. Otherwise the result is `'&'` followed by one `'&group=' + enc(g)` per group, in order. |
| History.GroupsReadBack | src/client.js:211-223 | Split on '&', the groups suffix gives two empty fields, then one `group=` field per group in order, provided no encoded group contains '&'. |
| History.LogRequest | src/client.js:255-284 | A log request fails exactly when `source` or `type` is not a non-empty string or a group is not a string. The first failing check names the error: "event.source is empty", then "event.type is empty", then the groups error. A valid event is PUT to `/events/{source}/{type}`, suffixed with `?category=` plus the encoded category and the groups, with `data` as the body. |
| History.Log | src/client.js:255-299 | A null event is rejected with "No event specified". Otherwise the result is `LogRequest`. A missing or non-array `groups` is set to `[]` in place, but only once source and type have passed. |
| History.AlertRequest | src/client.js:180-208 | A name that is not a string, or is blank after trimming, is rejected. A level that is not a non-empty string is rejected by `log`. Otherwise the alert is PUT to `/events/{name}/{level}` under the alert log's category, with body `{status, metadata}`. |
| History.RaiseAlert | src/client.js:180-193 | Logs the alert with status true. |
| History.LowerAlert | src/client.js:195-208 | Logs the alert with status false. |
| History.QueryString | src/client.js:302-340 | The history query string is the `source=` entries in order, then limit, sortOrder, data, maxAge, afterTime and beforeTime when present, joined by '&'. |
| History.PurgeString | src/client.js:384-404 | The purge query string is maxAge, afterTime and beforeTime when present, joined by '&'. |
| History.Query | src/client.js:301-381 | GET `/events?` plus the query string. The history stream delivers the response lines, and the promise resolves with nothing on 200. |
| History.Purge | src/client.js:383-422 | DELETE `/events?` plus the purge query string. |
| History.NonObjectQueryIsEmpty | src/client.js:304-306 | A null, non-object or array query gives an empty query string, so the URI ends in `/events?`. |
| History.QueryReadBack | src/client.js:308-340 | Split on '&', the query string gives the parameters back in order, provided no value contains '&'. |
| History.QueryHasNoTrailingSeparator | src/client.js:338-340 | The query string never ends in '&' unless its last value does. |
| History.PurgeIsQueryOfTimeBounds | src/client.js:386-404 | The purge parameters are the history-query parameters of the query restricted to its three time bounds. |
| History.PurgeIgnoresOtherFields | src/client.js:386-404 | Two purge queries that agree on the time bounds build the same string. |
| History.QueryExample | src/client.js:308-316 | `{limit: 5, sources: ['a', 'b']}` builds `source=a&source=b&limit=5`. |
| History.UnencodedValuesCollide | src/client.js:308-316 | Values are not percent-encoded, so `{sources: ['a&limit=1']}` and `{sources: ['a'], limit: 1}` build the same query string. |
| Client.NewDeviceDB | src/client.js:28-55 | Wires buckets lww, default, cloud and local to the client's URI, with `shared` the same bucket as `default`. The history logs under `events` and the alert log under `alerts`. `options.category` is left at `alerts`. |
| Client.AlertsAreLoggedUnderAlerts | src/client.js:51-54 | On a constructed client, history entries go out under `?category=` + enc('events') and alerts under `?category=` + enc('alerts'). |
| Client.BatchRequest | src/client.js:496-503 | `batch` POSTs the operations as JSON to `/{bucket}/batch` on the client's node. |
| Client.PutRequest | src/client.js:455-464 | `put` POSTs to the bucket's server a batch of exactly one well-formed put carrying key, value, and the context or `''`. |
| Client.DeleteRequest | src/client.js:466-474 | `delete` POSTs to the bucket's server a batch of exactly one well-formed delete, with no value. |
| Client.MerkleRootRequest | src/client.js:476-481 | `getMerkleRoot` is a GET of `/{bucket}/merkleRoot`. |
| Client.ValuesRequest | src/client.js:534-549 | `get` POSTs the key list to `/{bucket}/values`: an array key as it is, a scalar key wrapped. |
| Client.MatchesRequest | src/client.js:573-634 | `getMatches` POSTs the key list to `/{bucket}/matches`. |
| Client.Get | src/client.js:534-571 | On 200 every non-null entry is filled in, in place, and the result is the list for an array key or its first entry otherwise. Other outcomes reject as `Settle` says and touch no entry. |
| Client.GetResolvesConsistentEntries | src/client.js:558-567 | A scalar key answered with one entry resolves with that entry filled in, and every filled entry satisfies the invariant. |
| Client.GetMatches | src/client.js:573-649 | The response lines go through a fresh key-match stream, whose deliveries are `Run` from the start. The promise resolves with nothing on 200. |
| Client.PeerPort | src/client.js:94 | The peer port is the given port, or 443 when it is missing or 0, and is always positive. |
| Client.AddPeerRequest | src/client.js:83-96 | PUT `/peers/{id}` with body exactly `{id, host, port}`. |
| Client.RemovePeerRequest | src/client.js:110-116 | DELETE `/peers/{id}`. |
| Client.ListPeersRequest | src/client.js:130-146 | GET `/peers`. |
| Client.TopLevelCallsUseDefaultBucket | src/client.js:150-172 | The bucket calls of a `DeviceDB` object go to the `default` bucket, which is also `shared`. |
| Cloud.LeadingDigit | src/cloud-client.js:33 | The first significant digit of a ratio below one is between 1 and 9. |
| Cloud.LeadingDigitIsFirstDigit | src/cloud-client.js:33 | The digit is the first significant digit of the ratio: scaled by some power of ten, the ratio lies between the digit and the next integer. |
| Cloud.ParseIntIndex | src/cloud-client.js:33 | `parseInt(len * Math.random())`: 0 for a zero product, the floor of the product from 1e-6 on, and the product's leading digit below 1e-6. |
| Cloud.ServerAsWritten | src/cloud-client.js:28-34 | `_server` as written: a single URI is returned as it is; a pool yields an entry exactly when the `parseInt` index is below its length, and that entry is one of its URIs. |
| Cloud.ServerAsWrittenMisses | src/cloud-client.js:33 | For a one-URI pool and `Math.random()` = 2^-21, the index is 4: the entry read is `undefined`. |
| Cloud.SingleUriPoolMissesSmallDraws | src/cloud-client.js:182-188 | For a one-URI pool, every non-zero random value below 1e-6 reads past the end. |
| Cloud.ServerAsWrittenInBoundsFromTen | src/cloud-client.js:28-34 | As written, pools of ten or more URIs always get an existing entry. |
| Cloud.FloorIndexInBounds | src/cloud-client.js:182-188 | `floor(len * Math.random())` is below `len`. |
| Cloud.ServerAsWrittenAgrees | src/cloud-client.js:182-188 | When the product of pool size and random value is zero or at least 1e-6, the choice as written is the corrected one. |
| Cloud.Server | src/cloud-client.js:28-34 | The corrected `_server` of the finding below, with the floor index: a single URI is returned as it is, a non-empty pool always yields one of its URIs, and an empty pool yields nothing. |
| Cloud.EveryServerIsPicked | src/cloud-client.js:28-34 | Every URI of a pool is chosen by some random value. |
| Cloud.At | src/cloud-client.js:37-53 | A call sends its request to the server `_server` picks as written, with the `parseInt` index. When that index is past the end of the pool, `url.resolve` throws, so the promise rejects with a TypeError before anything is sent. |
| Cloud.PathIsSegments | src/cloud-client.js:39-120 | Each cloud path is its segments, each preceded by '/'. |
| Cloud.RouteInvertsPath | src/cloud-client.js:36-135 | When no relay, site or bucket ID contains '/', every relay, site, batches and keys path reads back as its target. |
| Cloud.PathsIdentifyTargets | src/cloud-client.js:36-135 | When no relay, site or bucket ID contains '/', different targets never share a path. The claim is about the reference string before `url.resolve`. |
| Cloud.SlashInSegmentsCollide | src/cloud-client.js:100 | Without the no-'/' condition, the site ID "s/buckets/b/keys" gives the same path as the keys of bucket b of site s. |
| Cloud.AddRelayRequest | src/cloud-client.js:36-41 | PUT `/relays/{id}`. The request is sent only when the as-written server choice finds a URI; otherwise the call rejects with a TypeError. |
| Cloud.RemoveRelayRequest | src/cloud-client.js:56-61 | DELETE `/relays/{id}`. The request is sent only when the as-written server choice finds a URI; otherwise the call rejects with a TypeError. |
| Cloud.MoveRelayRequest | src/cloud-client.js:76-82 | PATCH `/relays/{id}` with body `{site: siteID}`. The request is sent only when the as-written server choice finds a URI; otherwise the call rejects with a TypeError. |
| Cloud.AddSiteRequest | src/cloud-client.js:97-102 | PUT `/sites/{id}`. The request is sent only when the as-written server choice finds a URI; otherwise the call rejects with a TypeError. |
| Cloud.RemoveSiteRequest | src/cloud-client.js:117-122 | DELETE `/sites/{id}`. The request is sent only when the as-written server choice finds a URI; otherwise the call rejects with a TypeError. |
| Cloud.SiteOf | src/cloud-client.js:137-152 | A site has buckets lww, default, cloud and local, with `shared` = `default`, all on the client's URIs and for that site. |
| Cloud.CloudBatchRequest | src/cloud-client.js:211-217 | POST the operations to `/sites/{siteID}/buckets/{bucket}/batches`. The request is sent only when the as-written server choice finds a URI; otherwise the call rejects with a TypeError. |
| Cloud.CloudPutRequest | src/cloud-client.js:190-199 | A batch of exactly one well-formed put. The request is sent only when the as-written server choice finds a URI; otherwise the call rejects with a TypeError. |
| Cloud.CloudDeleteRequest | src/cloud-client.js:201-209 | A batch of exactly one well-formed delete, with no value. The request is sent only when the as-written server choice finds a URI; otherwise the call rejects with a TypeError. |
| Cloud.KeysQueryString | src/cloud-client.js:259-263 | One `key=<enc k>&` per key, in input order, keeping the trailing '&'. |
| Cloud.KeysQueryReadBack | src/cloud-client.js:314-318 | Split on '&', the string gives one parameter per key in order, then an empty field, provided no encoded key contains '&'. |
| Cloud.NoKeysNoQuery | src/cloud-client.js:259-263 | No keys give an empty query string. |
| Cloud.KeysRefIsKeysPath | src/cloud-client.js:267 | The reference of `get` and `getMatches` is the keys path, then '?', then the query string. |
| Cloud.CloudGetRequest | src/cloud-client.js:249-269 | GET the keys path with `key=` parameters. The request is sent only when the as-written server choice finds a URI; otherwise the call rejects with a TypeError. |
| Cloud.CloudMatchesRequest | src/cloud-client.js:304-335 | GET the keys path with `prefix=` parameters. The request is sent only when the as-written server choice finds a URI; otherwise the call rejects with a TypeError. |
| Cloud.ShapeEntry | src/cloud-client.js:281-291 | A mapped entry is null exactly when its siblings are null or missing. Otherwise its fields are exactly those of the entry without `prefix`, filled in by the sibling rule: no `prefix`, the invariant holds, and every other field is kept. |
| Cloud.ShapeAll | src/cloud-client.js:281-291 | The mapping keeps the length and the order of the answer. |
| Cloud.ShapeEntries | src/cloud-client.js:281-291 | The in-place loop deletes `prefix` and fills in every entry, and returns the mapped answer. |
| Cloud.CloudGet | src/cloud-client.js:249-302 | On 200 the entries are changed in place and the promise resolves with the mapped list, or its first entry for a scalar key. A missing server rejects before sending; other outcomes reject as `Settle` says. |
| Cloud.CloudGetMatches | src/cloud-client.js:304-356 | On 200 `next` receives every entry once, in response order, each already filled in; then the promise resolves with nothing. Otherwise nothing is delivered and nothing changes. |

## Left out

- The transport is not modelled: the `request` library, HTTP/HTTPS agents, keep-alive, the socket limit, `_newRequestOptions` and the no-op `checkServerIdentity`. Each call's response is an argument.
- `url.parse` is not modelled. `addPeer` receives the host name and the numeric port that it would extract.
- `url.resolve` is not modelled. Requests keep the base and the reference separately.
- `JSON.parse` and `JSON.stringify` are not modelled. Parsing is a function argument; a body to be stringified is kept as a value.
- The `split` module's chunking and the `.pipe(...).on('error')` wiring are not modelled. The body is a list of lines, and every line is fed to the consumer. A stream that stops after its first error would deliver a prefix of what the model delivers.
- The default `console` callbacks when `next` is not a function are not modelled, because they only produce output.
- `requiresAuth` is not modelled; it always resolves to false.
- `encodeKey` and `decodeKey` are not modelled; they wrap Node's `Buffer` base64 conversion.
- `createClient` and the module export are not modelled.
- src/repl.js is not part of this model.
- Numbers are integers. Floating-point values in queries, ports and bodies are not represented, and neither is `String()` of a non-integer.
- A response entry of the cluster `get` that is null is not modelled, since `delete response.prefix` throws outside the promise. A non-array response body to `get` is not modelled either.
- Cloud.ParseIntIndex: the product `len * Math.random()` is taken exactly. Double rounding is not modelled, nor `String()`'s shortest round-trip digits, which can raise the leading digit of a product just below a digit boundary. Products of 1e21 and above are not modelled either.
- Routes.RouteInvertsRef, Routes.RequestsIdentifyEndpoints, Cloud.RouteInvertsPath and Cloud.PathsIdentifyTargets are about the reference string. `url.resolve` (section 5.2 of RFC 3986) treats '?', '#' and the dot segments '.' and '..' specially. A segment holding one of them can therefore reach a different path on the wire: for example, a bucket named "peers?" sends its merkle-root GET to `/peers`.
- Cloud.Server and the cloud requests: a `serverURI` that is neither a string nor an array of strings is not modelled.

## Findings

| source | as written | input that shows it | evidently intended | confidence | as-written member | corrected member |
|---|---|---|---|---|---|---|
| src/cloud-client.js:33 | `parseInt(len * Math.random())` turns the product into a string first. Below 1e-6 that string is in exponent notation, and `parseInt` returns its leading digit. | One URI and `Math.random()` = 2^-21 ≈ 4.77e-7 give index 4. `serverURI[4]` is `undefined`, so `url.resolve` throws and the call rejects. | `Math.floor(len * Math.random())`, which always picks an existing URI. | not executed | Cloud.ServerAsWrittenMisses | Cloud.Server |

The cloud requests (`Cloud.At` and every request built on it) choose the server as written, so they model the rejection this finding describes. `Cloud.Server` is the corrected choice. `Cloud.ServerAsWrittenAgrees` shows the two agree whenever the product is zero or at least 1e-6. `Cloud.ServerAsWrittenInBoundsFromTen` shows that pools of ten or more URIs never miss.
