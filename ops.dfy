/**
 * The pieces `bucket` shares between src/client.js and src/cloud-client.js: the
 * one-operation batches that `put` and `delete` send, and the wrapping of a scalar key
 * into a one-key query whose answer is unwrapped again.
 */
module Ops {

  import opened Js

  /** `context || ''`: a falsy causal context is sent as the empty string. */
  function ContextOrEmpty(context: Value): (c: Value)
    ensures Falsy(context) ==> c == Str("")
    ensures !Falsy(context) ==> c == context
  {
    if Falsy(context) then Str("") else context
  }

  /**
   * A batch operation of the data model: `{type: 'put', key, value, context}` or
   * `{type: 'delete', key, context}` with no value, and a context that is the empty
   * string whenever it is falsy.
   */
  predicate WellFormedOp(op: Value) {
    && op.Obj?
    && "type" in op.fields && "context" in op.fields
    && (op.fields["type"] == Str("put") ==> op.fields.Keys == {"type", "key", "value", "context"})
    && (op.fields["type"] == Str("delete") ==> op.fields.Keys == {"type", "key", "context"})
    && (op.fields["type"] == Str("put") || op.fields["type"] == Str("delete"))
    && (Falsy(op.fields["context"]) ==> op.fields["context"] == Str(""))
  }

  /** The operation `put(key, value, context)` batches. */
  function PutOp(key: Value, value: Value, context: Value): (op: Value)
    ensures WellFormedOp(op) && op.fields["type"] == Str("put")
    ensures op.fields["key"] == key && op.fields["value"] == value
    ensures !Falsy(context) ==> op.fields["context"] == context
  {
    Obj(map["type" := Str("put"), "key" := key, "value" := value, "context" := ContextOrEmpty(context)])
  }

  /** The operation `delete(key, context)` batches: it carries no value. */
  function DeleteOp(key: Value, context: Value): (op: Value)
    ensures WellFormedOp(op) && op.fields["type"] == Str("delete")
    ensures op.fields["key"] == key && "value" !in op.fields
    ensures !Falsy(context) ==> op.fields["context"] == context
  {
    Obj(map["type" := Str("delete"), "key" := key, "context" := ContextOrEmpty(context)])
  }

  /** The keys sent for `get(key)` / `getMatches(key)`: an array as it is, anything else wrapped. */
  function KeyQuery(key: Value): (query: seq<Value>)
    ensures key.Arr? ==> query == key.items
    ensures !key.Arr? ==> query == [key]
  {
    if key.Arr? then key.items else [key]
  }

  /** What `get` resolves with: the whole answer, its first entry, or undefined for an empty answer. */
  datatype Fetched<E> = Whole(entries: seq<E>) | Single(entry: E) | Absent

  /** `Array.isArray(key) ? resolve(responseBody) : resolve(responseBody[0])`. */
  function Answer<E>(key: Value, responseBody: seq<E>): Fetched<E> {
    if key.Arr? then Whole(responseBody)
    else if responseBody != [] then Single(responseBody[0])
    else Absent
  }

  /**
   * When the server answers one entry per queried key, a scalar key gets back exactly
   * the entry for that key and an array of keys gets back the list, in query order.
   */
  lemma AnswerUnwrapsQuery<E>(key: Value, responseBody: seq<E>)
    requires |responseBody| == |KeyQuery(key)|
    ensures !key.Arr? ==> Answer(key, responseBody) == Single(responseBody[0]) && |responseBody| == 1
    ensures key.Arr? ==> Answer(key, responseBody) == Whole(responseBody) && |responseBody| == |key.items|
  {
  }
}
