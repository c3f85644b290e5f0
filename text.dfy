/**
 * String assembly as the source does it for URIs and query strings: joining with a
 * separator, appending a separator after every part (the `+= x + '&'` loops), and
 * `String.prototype.split`, which is how a server reads such a string back.
 */
module Text {

  /** `parts.join(sep)`. */
  function JoinWith(parts: seq<string>, sep: string): string {
    if parts == [] then ""
    else if |parts| == 1 then parts[0]
    else parts[0] + sep + JoinWith(parts[1..], sep)
  }

  /** Every part followed by `sep`: what `for (p of parts) s += p + sep` leaves in `s`. */
  function Terminated(parts: seq<string>, sep: string): string {
    if parts == [] then "" else parts[0] + sep + Terminated(parts[1..], sep)
  }

  /** Every part preceded by `sep`: what `for (p of parts) s += sep + p` leaves in `s`. */
  function Prefixed(parts: seq<string>, sep: string): string {
    if parts == [] then "" else sep + parts[0] + Prefixed(parts[1..], sep)
  }

  /** `s.split(c)` for a one-character separator. */
  function Split(s: string, c: char): (r: seq<string>)
    ensures |r| >= 1
    decreases |s|
  {
    if s == [] then [""]
    else if s[0] == c then [""] + Split(s[1..], c)
    else
      var t := Split(s[1..], c);
      [[s[0]] + t[0]] + t[1..]
  }

  lemma {:induction false} TerminatedAppend(parts: seq<string>, x: string, sep: string)
    ensures Terminated(parts + [x], sep) == Terminated(parts, sep) + x + sep
  {
    if parts != [] {
      assert (parts + [x])[1..] == parts[1..] + [x];
      TerminatedAppend(parts[1..], x, sep);
    }
  }

  lemma {:induction false} PrefixedAppend(parts: seq<string>, x: string, sep: string)
    ensures Prefixed(parts + [x], sep) == Prefixed(parts, sep) + sep + x
  {
    if parts != [] {
      assert (parts + [x])[1..] == parts[1..] + [x];
      PrefixedAppend(parts[1..], x, sep);
    }
  }

  /** Appending a separator after every part is the join followed by one more separator. */
  lemma {:induction false} TerminatedIsJoinThenSep(parts: seq<string>, sep: string)
    requires parts != []
    ensures Terminated(parts, sep) == JoinWith(parts, sep) + sep
  {
    if |parts| > 1 {
      TerminatedIsJoinThenSep(parts[1..], sep);
    }
  }

  /** Putting a separator before every part is one separator followed by the join. */
  lemma {:induction false} PrefixedIsSepThenJoin(parts: seq<string>, sep: string)
    requires parts != []
    ensures Prefixed(parts, sep) == sep + JoinWith(parts, sep)
  {
    if |parts| > 1 {
      PrefixedIsSepThenJoin(parts[1..], sep);
    }
  }

  /** A join ends with its last part. */
  lemma {:induction false} JoinEndsWithLast(parts: seq<string>, sep: string)
    requires parts != []
    ensures |JoinWith(parts, sep)| >= |parts[|parts| - 1]|
    ensures JoinWith(parts, sep)[|JoinWith(parts, sep)| - |parts[|parts| - 1]|..] == parts[|parts| - 1]
  {
    if |parts| > 1 {
      JoinEndsWithLast(parts[1..], sep);
    }
  }

  lemma {:induction false} SplitNoSeparator(p: string, c: char)
    requires c !in p
    ensures Split(p, c) == [p]
    decreases |p|
  {
    if p != [] {
      assert p[0] in p;
      SplitNoSeparator(p[1..], c);
      assert [p[0]] + p[1..] == p;
    }
  }

  lemma {:induction false} SplitAtFirstSeparator(p: string, rest: string, c: char)
    requires c !in p
    ensures Split(p + [c] + rest, c) == [p] + Split(rest, c)
    decreases |p|
  {
    var s := p + [c] + rest;
    if p == [] {
      assert s[1..] == rest;
    } else {
      assert s[1..] == p[1..] + [c] + rest;
      SplitAtFirstSeparator(p[1..], rest, c);
      assert [p[0]] + p[1..] == p;
    }
  }

  /**
   * Splitting a join on its one-character separator gives the parts back, provided no
   * part contains the separator.
   */
  lemma {:induction false} SplitJoin(parts: seq<string>, c: char)
    requires parts != []
    requires forall i | 0 <= i < |parts| :: c !in parts[i]
    ensures Split(JoinWith(parts, [c]), c) == parts
  {
    if |parts| == 1 {
      SplitNoSeparator(parts[0], c);
    } else {
      SplitJoin(parts[1..], c);
      SplitAtFirstSeparator(parts[0], JoinWith(parts[1..], [c]), c);
      assert [parts[0]] + parts[1..] == parts;
    }
  }

  lemma {:induction false} TerminatedConcat(a: seq<string>, b: seq<string>, sep: string)
    ensures Terminated(a + b, sep) == Terminated(a, sep) + Terminated(b, sep)
  {
    if a == [] {
      assert a + b == b;
    } else {
      assert (a + b)[1..] == a[1..] + b;
      TerminatedConcat(a[1..], b, sep);
    }
  }

  /**
   * A path built by putting '/' before every segment splits back into an empty first
   * field and the segments, provided no segment contains '/'.
   */
  lemma SplitPath(segments: seq<string>)
    requires segments != []
    requires forall i | 0 <= i < |segments| :: '/' !in segments[i]
    ensures Split(Prefixed(segments, "/"), '/') == [""] + segments
  {
    PrefixedIsSepThenJoin(segments, "/");
    SplitJoin(segments, '/');
    SplitAtFirstSeparator("", JoinWith(segments, "/"), '/');
    assert "" + "/" + JoinWith(segments, "/") == "/" + JoinWith(segments, "/");
  }

  /** `Prefixed` spelled out for paths of up to three segments. */
  lemma PrefixedShort(a: string, b: string, c: string, sep: string)
    ensures Prefixed([a], sep) == sep + a
    ensures Prefixed([a, b], sep) == sep + a + sep + b
    ensures Prefixed([a, b, c], sep) == sep + a + sep + b + sep + c
  {
    assert [a][1..] == [] && [b][1..] == [] && [c][1..] == [];
    assert Prefixed([c], sep) == sep + c;
    assert Prefixed([b], sep) == sep + b;
    assert [b, c][1..] == [c];
    assert Prefixed([b, c], sep) == sep + b + (sep + c);
    assert [a, b][1..] == [b];
    assert [a, b, c][1..] == [b, c];
    assert Prefixed([a, b, c], sep) == sep + a + (sep + b + (sep + c));
  }

  lemma {:induction false} JoinAppend(parts: seq<string>, x: string, sep: string)
    requires parts != []
    ensures JoinWith(parts + [x], sep) == JoinWith(parts, sep) + sep + x
  {
    if |parts| == 1 {
      assert (parts + [x])[1..] == [x];
    } else {
      assert (parts + [x])[1..] == parts[1..] + [x];
      JoinAppend(parts[1..], x, sep);
    }
  }

  /** A join whose last part is not empty ends with the last character of that part. */
  lemma JoinEndsWithLastChar(parts: seq<string>, sep: string)
    requires parts != [] && parts[|parts| - 1] != ""
    ensures JoinWith(parts, sep) != ""
    ensures JoinWith(parts, sep)[|JoinWith(parts, sep)| - 1] == parts[|parts| - 1][|parts[|parts| - 1]| - 1]
  {
    var last := parts[|parts| - 1];
    JoinEndsWithLast(parts, sep);
    var s := JoinWith(parts, sep);
    assert s[|s| - 1] == s[|s| - |last|..][|last| - 1];
  }

  lemma JoinThree(a: string, b: string, c: string, sep: string)
    ensures JoinWith([a, b, c], sep) == a + sep + b + sep + c
  {
    assert [a, b, c][1..] == [b, c];
    assert [b, c][1..] == [c];
    assert JoinWith([c], sep) == c;
    assert JoinWith([b, c], sep) == b + sep + c;
    assert JoinWith([a, b, c], sep) == a + sep + (b + sep + c);
  }

  /** `"/" + a + "/b"` is the path of the segments a and b; `ab` carries the literal `"/b"`. */
  lemma TwoSegmentPath(a: string, b: string, ab: string)
    requires ab == "/" + b
    ensures "/" + a + ab == Prefixed([a, b], "/")
  {
    PrefixedShort(a, b, "", "/");
  }

  /** `"/name/" + rest` is the path of the segments name and rest. */
  lemma NamedPath(name: string, rest: string, nameSlash: string)
    requires nameSlash == "/" + name + "/"
    ensures nameSlash + rest == Prefixed([name, rest], "/")
  {
    PrefixedShort(name, rest, "", "/");
  }
}
