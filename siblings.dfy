/**
 * Sibling resolution (`_fillInDBObjectValue`, identical in src/client.js and
 * src/cloud-client.js). A stored object carries the list of concurrent values
 * (`siblings`) the replicas hold; exactly one sibling is exposed as `value`, any other
 * count exposes `value = null`: a conflict the application must resolve itself.
 */
module Siblings {

  import opened Js

  /**
   * The invariant of a database object: when `siblings` is an array, `value` is present
   * and is the sole sibling if there is exactly one, null otherwise.
   */
  predicate ValueConsistent(props: map<string, Value>) {
    match Prop(props, "siblings")
    case Arr(s) =>
      && "value" in props
      && (|s| == 1 ==> props["value"] == s[0])
      && (|s| != 1 ==> props["value"] == Null)
    case _ => true
  }

  /** The properties of an object after `_fillInDBObjectValue` has run on it. */
  function FillIn(props: map<string, Value>): (r: map<string, Value>)
    ensures ValueConsistent(r)
    ensures !Prop(props, "siblings").Arr? ==> r == props
    ensures r.Keys == props.Keys + (if Prop(props, "siblings").Arr? then {"value"} else {})
    ensures forall k | k in props && k != "value" :: r[k] == props[k]
  {
    match Prop(props, "siblings")
    case Arr(s) => props["value" := if |s| == 1 then s[0] else Null]
    case _ => props
  }

  /** Filling in changes nothing exactly on objects that already satisfy the invariant. */
  lemma FillInFixesExactlyResolved(props: map<string, Value>)
    ensures FillIn(props) == props <==> ValueConsistent(props)
  {
    if ValueConsistent(props) && Prop(props, "siblings").Arr? {
      assert FillIn(props)["value"] == props["value"];
      assert FillIn(props) == props;
    }
  }

  /** Running the resolution twice is the same as running it once. */
  lemma FillInIdempotent(props: map<string, Value>)
    ensures FillIn(FillIn(props)) == FillIn(props)
  {
    FillInFixesExactlyResolved(FillIn(props));
  }

  /**
   * `_fillInDBObjectValue(dbobject)`: a null object is left alone, an object whose
   * `siblings` is not an array is left unchanged, otherwise `value` is overwritten.
   */
  method FillInDBObjectValue(dbobject: JsObject?)
    modifies dbobject
    ensures dbobject != null ==> dbobject.props == FillIn(old(dbobject.props))
  {
    if dbobject == null {
      return;
    }
    var siblings := Prop(dbobject.props, "siblings");
    if !siblings.Arr? {
      return;
    }
    if |siblings.items| == 1 {
      dbobject.props := dbobject.props["value" := siblings.items[0]];
    } else {
      dbobject.props := dbobject.props["value" := Null];
    }
  }

  /** `for (let response of responseBody) this._fillInDBObjectValue(response)`. */
  method FillInAll(responses: seq<JsObject?>)
    requires Distinct(responses)
    modifies Refs(responses)
    ensures forall i | 0 <= i < |responses| && responses[i] != null ::
              responses[i].props == FillIn(old(responses[i].props))
  {
    var i := 0;
    while i < |responses|
      invariant 0 <= i <= |responses|
      invariant forall j | 0 <= j < i && responses[j] != null ::
                  responses[j].props == FillIn(old(responses[j].props))
      invariant forall j | i <= j < |responses| && responses[j] != null ::
                  responses[j].props == old(responses[j].props)
    {
      FillInDBObjectValue(responses[i]);
      i := i + 1;
    }
  }
}
