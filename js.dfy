/**
 * The JavaScript values the client handles: values received from or sent to the
 * server (JSON), the string conversion the source applies with `+`, and the
 * objects that the source mutates in place.
 */
module Js {

  import opened Text

  /** A JavaScript value. Numbers are modelled as integers. */
  datatype Value =
    | Undefined
    | Null
    | Bool(b: bool)
    | Num(n: int)
    | Str(s: string)
    | Arr(items: seq<Value>)
    | Obj(fields: map<string, Value>)

  /** Reading property `k` of an object: a missing property reads as undefined. */
  function Prop(fields: map<string, Value>, k: string): (v: Value)
    ensures k !in fields ==> v == Undefined
    ensures k in fields ==> v == fields[k]
  {
    if k in fields then fields[k] else Undefined
  }

  /** `v == null` with loose equality: true for null and for undefined. */
  predicate Nullish(v: Value) {
    v.Null? || v.Undefined?
  }

  /** The values that `x || y` replaces by `y`. */
  predicate Falsy(v: Value) {
    v.Undefined? || v.Null? || v == Bool(false) || v == Num(0) || v == Str("")
  }

  function DigitChar(d: nat): char
    requires d < 10
  {
    "0123456789"[d]
  }

  /** Decimal notation of a natural number, without leading zeros. */
  function NatToString(n: nat): (s: string)
    ensures |s| >= 1
    ensures forall i | 0 <= i < |s| :: '0' <= s[i] <= '9'
  {
    if n < 10 then [DigitChar(n)] else NatToString(n / 10) + [DigitChar(n % 10)]
  }

  /** `String(v)`: the conversion applied when a value is concatenated to a string. */
  function JsString(v: Value): string {
    match v
    case Undefined => "undefined"
    case Null => "null"
    case Bool(b) => if b then "true" else "false"
    case Num(n) => if n < 0 then "-" + NatToString(-n) else NatToString(n)
    case Str(s) => s
    case Arr(items) =>
      // Array.prototype.toString joins the elements with commas; null and undefined become ''
      JoinWith(seq(|items|, i requires 0 <= i < |items| =>
                 if Nullish(items[i]) then "" else JsString(items[i])), ",")
    case Obj(_) => "[object Object]"
  }

  /** The characters `String.prototype.trim` removes: WhiteSpace and LineTerminator. */
  predicate IsWhitespace(c: char) {
    c == '\t' || c == '\n' || c == '\U{000B}' || c == '\U{000C}' || c == '\r' || c == ' '
    || c == '\U{00A0}' || c == '\U{1680}' || ('\U{2000}' <= c <= '\U{200A}')
    || c == '\U{2028}' || c == '\U{2029}' || c == '\U{202F}' || c == '\U{205F}'
    || c == '\U{3000}' || c == '\U{FEFF}'
  }

  predicate IsBlank(s: string) {
    forall i | 0 <= i < |s| :: IsWhitespace(s[i])
  }

  function TrimStart(s: string): string {
    if s != [] && IsWhitespace(s[0]) then TrimStart(s[1..]) else s
  }

  function TrimEnd(s: string): string {
    if s != [] && IsWhitespace(s[|s| - 1]) then TrimEnd(s[..|s| - 1]) else s
  }

  /** `s.trim()`. */
  function Trim(s: string): string {
    TrimEnd(TrimStart(s))
  }

  lemma {:induction false} TrimStartEmptyIffBlank(s: string)
    ensures TrimStart(s) == "" <==> IsBlank(s)
  {
    if s != [] && IsWhitespace(s[0]) {
      TrimStartEmptyIffBlank(s[1..]);
      if IsBlank(s[1..]) {
        forall i | 0 <= i < |s| ensures IsWhitespace(s[i]) {
          if i > 0 { assert s[i] == s[1..][i - 1]; }
        }
      }
    }
  }

  lemma {:induction false} TrimEndOnlyEmptiesEmpty(s: string)
    ensures TrimEnd(s) == "" <==> IsBlank(s)
  {
    if s != [] && IsWhitespace(s[|s| - 1]) {
      var t := s[..|s| - 1];
      TrimEndOnlyEmptiesEmpty(t);
      if IsBlank(t) {
        forall i | 0 <= i < |s| ensures IsWhitespace(s[i]) {
          if i < |s| - 1 { assert s[i] == t[i]; }
        }
      } else {
        var i :| 0 <= i < |t| && !IsWhitespace(t[i]);
        assert s[i] == t[i];
      }
    }
  }

  /** `s.trim() == ''` holds exactly when every character of `s` is whitespace. */
  lemma TrimEmptyIffBlank(s: string)
    ensures Trim(s) == "" <==> IsBlank(s)
  {
    TrimStartEmptyIffBlank(s);
    TrimEndOnlyEmptiesEmpty(TrimStart(s));
    if TrimStart(s) == "" {
      assert TrimEnd("") == "";
    } else {
      assert !IsBlank(TrimStart(s)) by { TrimStartBlankKeepsBlank(s); }
    }
  }

  lemma {:induction false} TrimStartBlankKeepsBlank(s: string)
    ensures IsBlank(TrimStart(s)) ==> TrimStart(s) == ""
  {
    if s != [] && IsWhitespace(s[0]) {
      TrimStartBlankKeepsBlank(s[1..]);
    }
  }

  /** The result of `JSON.parse(line)`: a value, or a SyntaxError for malformed text. */
  datatype Parsed = Parsed(v: Value) | Malformed

  /**
   * A JavaScript object that the source updates in place (`o.value = ...`,
   * `delete o.prefix`, `event.groups = [ ]`).
   */
  class JsObject {
    var props: map<string, Value>

    constructor (props: map<string, Value>)
      ensures this.props == props
    {
      this.props := props;
    }
  }

  /** The objects referenced by a sequence of possibly-null references. */
  function Refs(rs: seq<JsObject?>): set<JsObject> {
    set i | 0 <= i < |rs| && rs[i] != null :: rs[i]
  }

  /** No object occurs twice, as for the elements of a freshly parsed JSON array. */
  predicate Distinct(rs: seq<JsObject?>) {
    forall i, j | 0 <= i < j < |rs| && rs[i] != null :: rs[i] != rs[j]
  }
}
