/**
 * The event log of src/client.js: `history` (`log`, `query`, `purge`), the
 * `encodeGroups` helper and `alertLog` (`raiseAlert`, `lowerAlert`), which records
 * alerts as events in the `alerts` category.
 */
module History {

  import opened Wrappers
  import opened Text
  import opened Js
  import opened Http
  import opened Routes
  import HistoryStream

  /** A `history` object: the server URI and the category its events are logged under. */
  datatype History = History(serverURI: string, category: string)

  /** An `alertLog` object: a `history` whose category is `alerts`. */
  datatype AlertLog = AlertLog(history: History)

  const NoEvent := "No event specified"
  const EmptySource := "event.source is empty"
  const EmptyType := "event.type is empty"
  const BadGroups := "event.groups is not a valid string array"
  const InvalidAlertName := "Invalid alert name (argument 1) specified"

  // ---------------------------------------------------------------- encodeGroups

  /** The `group=<encoded group>` parameters, one per group, in order. */
  function GroupParams(groups: seq<string>, enc: string -> string): (r: seq<string>)
    ensures |r| == |groups|
  {
    seq(|groups|, i requires 0 <= i < |groups| => "group=" + enc(groups[i]))
  }

  /** What `encodeGroups` returns: '' without groups, else '&' and one '&group=...' per group. */
  function GroupsSuffix(groups: seq<string>, enc: string -> string): string {
    if groups == [] then "" else "&&" + JoinWith(GroupParams(groups, enc), "&")
  }

  /** `encodeGroups(groups)`; `enc` is `encodeURIComponent`. */
  method EncodeGroups(groups: seq<string>, enc: string -> string) returns (query: string)
    ensures query == GroupsSuffix(groups, enc)
  {
    if |groups| == 0 {
      return "";
    }
    ghost var params := GroupParams(groups, enc);
    query := "&";
    var i := 0;
    while i < |groups|
      invariant 0 <= i <= |groups|
      invariant query == "&" + Prefixed(params[..i], "&")
    {
      PrefixedAppend(params[..i], params[i], "&");
      assert params[..i + 1] == params[..i] + [params[i]];
      assert params[i] == "group=" + enc(groups[i]);
      assert "&group=" == "&" + "group=";
      query := query + "&group=" + enc(groups[i]);
      i := i + 1;
    }
    assert params[..i] == params;
    PrefixedIsSepThenJoin(params, "&");
    assert "&&" == "&" + "&";
  }

  /**
   * A server splitting the suffix on '&' finds two empty fields and then one
   * `group=` parameter per group, in order — provided the encoder never emits '&'.
   */
  lemma GroupsReadBack(groups: seq<string>, enc: string -> string)
    requires groups != []
    requires forall i | 0 <= i < |groups| :: '&' !in enc(groups[i])
    ensures Split(GroupsSuffix(groups, enc), '&') == ["", ""] + GroupParams(groups, enc)
  {
    var params := GroupParams(groups, enc);
    forall i | 0 <= i < |params| ensures '&' !in params[i] {
      assert params[i] == "group=" + enc(groups[i]);
    }
    var joined := JoinWith(params, "&");
    SplitJoin(params, '&');
    SplitAtFirstSeparator("", joined, '&');
    assert "" + "&" + joined == "&" + joined;
    SplitAtFirstSeparator("", "&" + joined, '&');
    assert "" + "&" + ("&" + joined) == GroupsSuffix(groups, enc);
  }

  // ---------------------------------------------------------------- log

  predicate NonEmptyString(v: Value) {
    v.Str? && |v.s| > 0
  }

  predicate AllStrings(items: seq<Value>) {
    forall i | 0 <= i < |items| :: items[i].Str?
  }

  function Strings(items: seq<Value>): (r: seq<string>)
    requires AllStrings(items)
    ensures |r| == |items| && forall i | 0 <= i < |items| :: r[i] == items[i].s
  {
    seq(|items|, i requires 0 <= i < |items| => items[i].s)
  }

  /** `event.groups` after `log` has replaced a missing or non-array value by `[ ]`. */
  function GroupItems(props: map<string, Value>): seq<Value> {
    match Prop(props, "groups")
    case Arr(items) => items
    case _ => []
  }

  /**
   * What `log` does with a non-null event: reject with the first check that fails,
   * else PUT `/events/{source}/{type}?category=<enc category>` followed by the groups,
   * with `JSON.stringify(event.data)` as the body.
   */
  function LogRequest(h: History, props: map<string, Value>, enc: string -> string): (r: Result<Request, string>)
    ensures r.Failure? <==>
              !NonEmptyString(Prop(props, "source")) || !NonEmptyString(Prop(props, "type"))
              || !AllStrings(GroupItems(props))
    ensures !NonEmptyString(Prop(props, "source")) ==> r == Failure(EmptySource)
    ensures NonEmptyString(Prop(props, "source")) && !NonEmptyString(Prop(props, "type")) ==> r == Failure(EmptyType)
    ensures (NonEmptyString(Prop(props, "source")) && NonEmptyString(Prop(props, "type"))
             && !AllStrings(GroupItems(props))) ==> r == Failure(BadGroups)
    ensures r.Success? ==>
              && r.value.verb == Verb(LogEvent(Prop(props, "source").s, Prop(props, "type").s))
              && r.value.ref == Ref(LogEvent(Prop(props, "source").s, Prop(props, "type").s))
              && r.value.base == h.serverURI
              && r.value.suffix == "?category=" + enc(h.category) + GroupsSuffix(Strings(GroupItems(props)), enc)
              && r.value.body == Some(Prop(props, "data")) && !r.value.json
  {
    var source, kind := Prop(props, "source"), Prop(props, "type");
    if !NonEmptyString(source) then Failure(EmptySource)
    else if !NonEmptyString(kind) then Failure(EmptyType)
    else if !AllStrings(GroupItems(props)) then Failure(BadGroups)
    else
      Success(Request(PUT, h.serverURI, "/events/" + source.s + "/" + kind.s,
                      "?category=" + enc(h.category) + GroupsSuffix(Strings(GroupItems(props)), enc),
                      false, Some(Prop(props, "data"))))
  }

  /**
   * `history.log(event)`. A null or non-object event is modelled as a null reference.
   * An event that passes the source and type checks has a non-array `groups` replaced
   * by `[ ]` in place, before the groups are checked.
   */
  method Log(h: History, event: JsObject?, enc: string -> string) returns (r: Result<Request, string>)
    modifies event
    ensures event == null ==> r == Failure(NoEvent)
    ensures event != null ==> r == LogRequest(h, old(event.props), enc)
    ensures event != null ==>
              event.props == (if NonEmptyString(Prop(old(event.props), "source"))
                                 && NonEmptyString(Prop(old(event.props), "type"))
                                 && !Prop(old(event.props), "groups").Arr?
                              then old(event.props)["groups" := Arr([])]
                              else old(event.props))
  {
    if event == null {
      return Failure(NoEvent);
    }
    var source := Prop(event.props, "source");
    if !source.Str? || |source.s| == 0 {
      return Failure(EmptySource);
    }
    var kind := Prop(event.props, "type");
    if !kind.Str? || |kind.s| == 0 {
      return Failure(EmptyType);
    }
    if !Prop(event.props, "groups").Arr? {
      event.props := event.props["groups" := Arr([])];
    }
    var groups := Prop(event.props, "groups").items;
    assert groups == GroupItems(old(event.props));
    var i := 0;
    while i < |groups|
      invariant 0 <= i <= |groups|
      invariant forall j | 0 <= j < i :: groups[j].Str?
    {
      if !groups[i].Str? {
        return Failure(BadGroups);
      }
      i := i + 1;
    }
    var suffix := EncodeGroups(Strings(groups), enc);
    r := Success(Request(PUT, h.serverURI, "/events/" + source.s + "/" + kind.s,
                         "?category=" + enc(h.category) + suffix, false, Some(Prop(event.props, "data"))));
  }

  // ---------------------------------------------------------------- alerts

  /** The event an alert is logged as: source = name, type = level, data = {status, metadata}. */
  function AlertEvent(name: Value, level: Value, metadata: Value, status: bool): map<string, Value> {
    map["source" := name, "type" := level,
        "data" := Obj(map["status" := Bool(status), "metadata" := metadata])]
  }

  /**
   * What `raiseAlert` (status true) and `lowerAlert` (status false) do: reject a name
   * that is not a string or is blank, else log the alert event, which rejects a level
   * that is not a non-empty string.
   */
  function AlertRequest(a: AlertLog, name: Value, level: Value, metadata: Value, status: bool,
                        enc: string -> string): (r: Result<Request, string>)
    ensures !(name.Str? && !IsBlank(name.s)) ==> r == Failure(InvalidAlertName)
    ensures name.Str? && !IsBlank(name.s) && !NonEmptyString(level) ==> r == Failure(EmptyType)
    ensures name.Str? && !IsBlank(name.s) && NonEmptyString(level) ==>
              r == Success(Request(PUT, a.history.serverURI, Ref(LogEvent(name.s, level.s)),
                                   "?category=" + enc(a.history.category), false,
                                   Some(Obj(map["status" := Bool(status), "metadata" := metadata]))))
  {
    if !name.Str? || IsBlank(name.s) then Failure(InvalidAlertName)
    else
      assert |name.s| > 0;
      var event := AlertEvent(name, level, metadata, status);
      assert Prop(event, "source") == name && Prop(event, "type") == level;
      assert GroupItems(event) == [] && Strings([]) == [];
      assert GroupsSuffix([], enc) == "";
      assert "?category=" + enc(a.history.category) + "" == "?category=" + enc(a.history.category);
      assert Prop(event, "data") == Obj(map["status" := Bool(status), "metadata" := metadata]);
      LogRequest(a.history, AlertEvent(name, level, metadata, status), enc)
  }

  method LogAlert(a: AlertLog, name: Value, level: Value, metadata: Value, status: bool,
                  enc: string -> string) returns (r: Result<Request, string>)
    ensures r == AlertRequest(a, name, level, metadata, status, enc)
  {
    if !name.Str? || Trim(name.s) == "" {
      TrimEmptyIffBlank(if name.Str? then name.s else "");
      return Failure(InvalidAlertName);
    }
    TrimEmptyIffBlank(name.s);
    var event := new JsObject(AlertEvent(name, level, metadata, status));
    r := Log(a.history, event, enc);
  }

  /** `alertLog.raiseAlert(name, level, metadata)`. */
  method RaiseAlert(a: AlertLog, name: Value, level: Value, metadata: Value, enc: string -> string)
    returns (r: Result<Request, string>)
    ensures r == AlertRequest(a, name, level, metadata, true, enc)
  {
    r := LogAlert(a, name, level, metadata, true, enc);
  }

  /** `alertLog.lowerAlert(name, level, metadata)`. */
  method LowerAlert(a: AlertLog, name: Value, level: Value, metadata: Value, enc: string -> string)
    returns (r: Result<Request, string>)
    ensures r == AlertRequest(a, name, level, metadata, false, enc)
  {
    r := LogAlert(a, name, level, metadata, false, enc);
  }

  // ---------------------------------------------------------------- query and purge

  /** `name=<value>` when the object has the property `name` (even if its value is undefined). */
  function Param(fields: map<string, Value>, name: string): seq<string> {
    if name in fields then [name + "=" + JsString(fields[name])] else []
  }

  /** One `source=<s>` per element of an array `sources`, values not percent-encoded. */
  function SourceParams(fields: map<string, Value>): seq<string> {
    match Prop(fields, "sources")
    case Arr(items) => seq(|items|, i requires 0 <= i < |items| => "source=" + JsString(items[i]))
    case _ => []
  }

  /** The fields of a query argument: none for null, an array or a non-object. */
  function QueryFields(q: Value): map<string, Value> {
    if q.Obj? then q.fields else map[]
  }

  /** The parameters of a history query, in the source's fixed order. */
  function QueryParams(q: Value): seq<string> {
    var f := QueryFields(q);
    SourceParams(f) + Param(f, "limit") + Param(f, "sortOrder") + Param(f, "data")
    + Param(f, "maxAge") + Param(f, "afterTime") + Param(f, "beforeTime")
  }

  /** The parameters of a purge: only the three time bounds, in order. */
  function PurgeParams(q: Value): seq<string> {
    var f := QueryFields(q);
    Param(f, "maxAge") + Param(f, "afterTime") + Param(f, "beforeTime")
  }

  /** `if (name in q) queryString += name + '=' + q[name] + '&'`. */
  method AppendParam(queryString: string, fields: map<string, Value>, name: string) returns (r: string)
    ensures r == queryString + Terminated(Param(fields, name), "&")
  {
    r := queryString;
    if name in fields {
      r := r + name + "=" + JsString(fields[name]) + "&";
    }
  }

  /** `if (queryString.endsWith('&')) queryString = queryString.substring(0, length - 1)`. */
  method DropTrailingSeparator(queryString: string, ghost params: seq<string>) returns (r: string)
    requires queryString == Terminated(params, "&")
    ensures r == JoinWith(params, "&")
  {
    r := queryString;
    if |r| > 0 && r[|r| - 1] == '&' {
      r := r[..|r| - 1];
    }
    if params != [] {
      TerminatedIsJoinThenSep(params, "&");
    }
  }

  /** The query string `history.query` builds: the parameters joined by '&'. */
  method QueryString(historyQuery: Value) returns (queryString: string)
    ensures queryString == JoinWith(QueryParams(historyQuery), "&")
  {
    var f := QueryFields(historyQuery);
    queryString := "";
    var sources := Prop(f, "sources");
    if sources.Arr? {
      var i := 0;
      while i < |sources.items|
        invariant 0 <= i <= |sources.items|
        invariant queryString == Terminated(SourceParams(f)[..i], "&")
      {
        TerminatedAppend(SourceParams(f)[..i], SourceParams(f)[i], "&");
        assert SourceParams(f)[..i + 1] == SourceParams(f)[..i] + [SourceParams(f)[i]];
        queryString := queryString + "source=" + JsString(sources.items[i]) + "&";
        i := i + 1;
      }
      assert SourceParams(f)[..i] == SourceParams(f);
    }
    ghost var done := SourceParams(f);
    assert queryString == Terminated(done, "&");
    queryString := AppendParam(queryString, f, "limit");
    TerminatedConcat(done, Param(f, "limit"), "&");
    done := done + Param(f, "limit");
    queryString := AppendParam(queryString, f, "sortOrder");
    TerminatedConcat(done, Param(f, "sortOrder"), "&");
    done := done + Param(f, "sortOrder");
    queryString := AppendParam(queryString, f, "data");
    TerminatedConcat(done, Param(f, "data"), "&");
    done := done + Param(f, "data");
    queryString := AppendParam(queryString, f, "maxAge");
    TerminatedConcat(done, Param(f, "maxAge"), "&");
    done := done + Param(f, "maxAge");
    queryString := AppendParam(queryString, f, "afterTime");
    TerminatedConcat(done, Param(f, "afterTime"), "&");
    done := done + Param(f, "afterTime");
    queryString := AppendParam(queryString, f, "beforeTime");
    TerminatedConcat(done, Param(f, "beforeTime"), "&");
    done := done + Param(f, "beforeTime");
    queryString := DropTrailingSeparator(queryString, done);
  }

  /** The query string `history.purge` builds: the time bounds joined by '&'. */
  method PurgeString(purgeQuery: Value) returns (queryString: string)
    ensures queryString == JoinWith(PurgeParams(purgeQuery), "&")
  {
    var f := QueryFields(purgeQuery);
    queryString := AppendParam("", f, "maxAge");
    ghost var done := Param(f, "maxAge");
    assert queryString == Terminated(done, "&");
    queryString := AppendParam(queryString, f, "afterTime");
    TerminatedConcat(done, Param(f, "afterTime"), "&");
    done := done + Param(f, "afterTime");
    queryString := AppendParam(queryString, f, "beforeTime");
    TerminatedConcat(done, Param(f, "beforeTime"), "&");
    done := done + Param(f, "beforeTime");
    queryString := DropTrailingSeparator(queryString, done);
  }

  /**
   * `history.query(historyQuery, next)`: GET `/events?<query string>`; every line of the
   * response body is handed to `next` as the event stream consumer says; the promise
   * settles on the response.
   */
  method Query(h: History, historyQuery: Value, lines: seq<string>, parse: string -> Parsed,
               res: HttpResult<Value>)
    returns (req: Request, delivered: seq<Delivery<Value>>, outcome: Outcome<Value, Value>)
    ensures req == Request(Verb(QueryEvents), h.serverURI, Ref(QueryEvents), "?" + JoinWith(QueryParams(historyQuery), "&"), false, None)
    ensures delivered == HistoryStream.Deliveries(lines, parse)
    ensures outcome == Completed(Settle(res))
  {
    var queryString := QueryString(historyQuery);
    req := Request(GET, h.serverURI, "/events", "?" + queryString, false, None);
    delivered := HistoryStream.Deliveries(lines, parse);
    outcome := Completed(Settle(res));
  }

  /** `history.purge(purgeQuery)`: DELETE `/events?<time bounds>`. */
  method Purge(h: History, purgeQuery: Value, res: HttpResult<Value>)
    returns (req: Request, outcome: Outcome<Value, Value>)
    ensures req == Request(Verb(PurgeEvents), h.serverURI, Ref(PurgeEvents), "?" + JoinWith(PurgeParams(purgeQuery), "&"), false, None)
    ensures outcome == Completed(Settle(res))
  {
    var queryString := PurgeString(purgeQuery);
    req := Request(DELETE, h.serverURI, "/events", "?" + queryString, false, None);
    outcome := Completed(Settle(res));
  }

  // ---------------------------------------------------------------- properties of the query strings

  /** A null, non-object or array query has no parameters: the URI is `/events?`. */
  lemma NonObjectQueryIsEmpty(q: Value)
    requires !q.Obj?
    ensures JoinWith(QueryParams(q), "&") == "" && JoinWith(PurgeParams(q), "&") == ""
  {
  }

  /**
   * A server splitting the query string on '&' gets the parameters back in order,
   * provided no value contains '&' (values are not percent-encoded).
   */
  lemma QueryReadBack(q: Value)
    requires QueryParams(q) != []
    requires forall i | 0 <= i < |QueryParams(q)| :: '&' !in QueryParams(q)[i]
    ensures Split(JoinWith(QueryParams(q), "&"), '&') == QueryParams(q)
  {
    SplitJoin(QueryParams(q), '&');
  }

  /** Unless the last value itself ends in '&', the query string never ends in '&'. */
  lemma QueryHasNoTrailingSeparator(q: Value)
    requires QueryParams(q) != []
    requires var last := QueryParams(q)[|QueryParams(q)| - 1]; last[|last| - 1] != '&'
    ensures var s := JoinWith(QueryParams(q), "&"); s != "" && s[|s| - 1] != '&'
  {
    JoinEndsWithLastChar(QueryParams(q), "&");
  }

  /** The purge string is the history query string of the query restricted to its time bounds. */
  lemma PurgeIsQueryOfTimeBounds(q: Value)
    ensures PurgeParams(q) == QueryParams(Obj(map k | k in QueryFields(q) && k in {"maxAge", "afterTime", "beforeTime"} :: QueryFields(q)[k]))
  {
    var r := Obj(map k | k in QueryFields(q) && k in {"maxAge", "afterTime", "beforeTime"} :: QueryFields(q)[k]);
    assert "sources" !in r.fields && "limit" !in r.fields && "sortOrder" !in r.fields && "data" !in r.fields;
    assert SourceParams(r.fields) == [];
  }

  /** Two purge queries that agree on the three time bounds build the same purge string. */
  lemma PurgeIgnoresOtherFields(q1: Value, q2: Value)
    requires q1.Obj? && q2.Obj?
    requires forall k | k in {"maxAge", "afterTime", "beforeTime"} ::
               (k in q1.fields <==> k in q2.fields) && (k in q1.fields ==> q1.fields[k] == q2.fields[k])
    ensures PurgeParams(q1) == PurgeParams(q2)
  {
    assert Param(q1.fields, "maxAge") == Param(q2.fields, "maxAge");
    assert Param(q1.fields, "afterTime") == Param(q2.fields, "afterTime");
    assert Param(q1.fields, "beforeTime") == Param(q2.fields, "beforeTime");
  }

  const ExampleQuery: map<string, Value> := map["limit" := Num(5), "sources" := Arr([Str("a"), Str("b")])]

  lemma ExampleSources()
    ensures SourceParams(ExampleQuery) == ["source=a", "source=b"]
  {
    var f := ExampleQuery;
    assert Prop(f, "sources") == Arr([Str("a"), Str("b")]);
    assert JsString(Str("a")) == "a" && JsString(Str("b")) == "b";
    assert "source=" + "a" == "source=a" && "source=" + "b" == "source=b";
    assert SourceParams(f)[0] == "source=a" && SourceParams(f)[1] == "source=b";
  }

  lemma ExampleParams()
    ensures QueryParams(Obj(ExampleQuery)) == ["source=a", "source=b", "limit=5"]
  {
    var f := ExampleQuery;
    ExampleSources();
    assert QueryFields(Obj(f)) == f;
    assert JsString(Num(5)) == "5";
    assert f["limit"] == Num(5) && "limit" + "=" + "5" == "limit=5";
    assert Param(f, "limit") == ["limit=5"];
    assert Param(f, "sortOrder") == [] && Param(f, "data") == [] && Param(f, "maxAge") == [];
    assert Param(f, "afterTime") == [] && Param(f, "beforeTime") == [];
  }

  /** `{limit: 5, sources: ['a', 'b']}` builds `source=a&source=b&limit=5`. */
  lemma QueryExample()
    ensures JoinWith(QueryParams(Obj(ExampleQuery)), "&") == "source=a&source=b&limit=5"
  {
    ExampleParams();
    JoinThree("source=a", "source=b", "limit=5", "&");
    ExampleString();
  }

  lemma ExampleString()
    ensures "source=a" + "&" + "source=b" + "&" + "limit=5" == "source=a&source=b&limit=5"
  {
  }

  /**
   * Values are not percent-encoded, so a source containing '&' is indistinguishable
   * from an extra parameter: `{sources: ['a&limit=1']}` and `{sources: ['a'], limit: 1}`
   * build the same query string.
   */
  lemma UnencodedValuesCollide()
    ensures JoinWith(QueryParams(Obj(map["sources" := Arr([Str("a&limit=1")])])), "&")
            == JoinWith(QueryParams(Obj(map["sources" := Arr([Str("a")]), "limit" := Num(1)])), "&")
  {
    var f1 := map["sources" := Arr([Str("a&limit=1")])];
    var f2 := map["sources" := Arr([Str("a")]), "limit" := Num(1)];
    assert Prop(f1, "sources") == Arr([Str("a&limit=1")]);
    assert Prop(f2, "sources") == Arr([Str("a")]);
    assert JsString(Str("a&limit=1")) == "a&limit=1" && JsString(Str("a")) == "a";
    assert "source=" + "a&limit=1" == "source=a&limit=1" && "source=" + "a" == "source=a";
    assert SourceParams(f1)[0] == "source=a&limit=1" && SourceParams(f2)[0] == "source=a";
    assert SourceParams(f1) == ["source=a&limit=1"];
    assert SourceParams(f2) == ["source=a"];
    assert JsString(Num(1)) == "1";
    assert f2["limit"] == Num(1) && "limit" + "=" + "1" == "limit=1";
    assert Param(f2, "limit") == ["limit=1"];
    assert QueryParams(Obj(f1)) == ["source=a&limit=1"];
    assert QueryParams(Obj(f2)) == ["source=a", "limit=1"];
  }
}
