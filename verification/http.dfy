/** The outbound request as the HTTP library receives it, and its path
    string read as a list of `/`-separated segments. Dot-segment removal by
    URL parsing is not modelled. */
module Http {
  import opened Results
  import opened Js

  datatype Method = GET | POST | PUT | DELETE

  /** One call into the HTTP library: the verb, path relative to the configured
      base URL, query parameters (`params`) and JSON body (`data`), both still
      as JavaScript values; serialising them is the library's business. */
  datatype HttpRequest = HttpRequest(
    verb: Method,
    path: string,
    params: map<string, JsValue>,
    body: Option<JsValue>)

  /** A field of an object body; undefined when absent. */
  function BodyField(r: HttpRequest, key: string): JsValue {
    if r.body.Some? && r.body.value.Obj? && key in r.body.value.fields
    then r.body.value.fields[key] else Undefined
  }

  /** The keys of an object body; empty when there is none. */
  function BodyKeys(r: HttpRequest): set<string> {
    if r.body.Some? && r.body.value.Obj? then r.body.value.fields.Keys else {}
  }

  /** A path written as `/` followed by the segments joined with `/`. */
  function Path(segs: seq<string>): string
    decreases |segs|
  {
    if |segs| == 0 then "" else "/" + segs[0] + Path(segs[1..])
  }

  /** Splits a string at every `/`. */
  function Split(s: string): (parts: seq<string>)
    ensures |parts| >= 1
    decreases |s|
  {
    if |s| == 0 then [""]
    else
      var rest := Split(s[1..]);
      if s[0] == '/' then [""] + rest else [[s[0]] + rest[0]] + rest[1..]
  }

  /** The segments of an absolute path string. */
  function Segments(path: string): seq<string> {
    if |path| > 0 && path[0] == '/' then Split(path[1..]) else Split(path)
  }

  /** The segments of each piece, in order. */
  function SplitAll(pieces: seq<string>): seq<string>
    decreases |pieces|
  {
    if |pieces| == 0 then [] else Split(pieces[0]) + SplitAll(pieces[1..])
  }

  lemma {:induction false} SplitWithoutSlash(s: string)
    requires '/' !in s
    ensures Split(s) == [s]
    decreases |s|
  {
    if |s| > 0 {
      assert s[1..] == [] || '/' !in s[1..];
      SplitWithoutSlash(s[1..]);
      assert [s[0]] + s[1..] == s;
    }
  }

  lemma {:induction false} SplitAtSlash(x: string, y: string)
    ensures Split(x + "/" + y) == Split(x) + Split(y)
    decreases |x|
  {
    if |x| == 0 {
      assert x + "/" + y == "/" + y;
      assert ("/" + y)[1..] == y;
    } else {
      var s := x + "/" + y;
      assert s[1..] == x[1..] + "/" + y;
      SplitAtSlash(x[1..], y);
    }
  }

  lemma {:induction false} SplitBeforePath(head: string, rest: seq<string>)
    ensures Split(head + Path(rest)) == Split(head) + SplitAll(rest)
    decreases |rest|
  {
    if |rest| == 0 {
      assert head + Path(rest) == head;
    } else {
      assert head + Path(rest) == head + "/" + (rest[0] + Path(rest[1..]));
      SplitAtSlash(head, rest[0] + Path(rest[1..]));
      SplitBeforePath(rest[0], rest[1..]);
    }
  }

  /** A built path reads back as the segments of its pieces: a piece holding
      a `/` turns into several segments. */
  lemma SegmentsOfPath(pieces: seq<string>)
    requires |pieces| > 0
    ensures Segments(Path(pieces)) == SplitAll(pieces)
  {
    var tail := pieces[0] + Path(pieces[1..]);
    assert Path(pieces) == "/" + tail;
    assert ("/" + tail)[0] == '/' && ("/" + tail)[1..] == tail;
    SplitBeforePath(pieces[0], pieces[1..]);
  }

  lemma {:induction false} SplitAllWithoutSlash(pieces: seq<string>)
    requires forall i :: 0 <= i < |pieces| ==> '/' !in pieces[i]
    ensures SplitAll(pieces) == pieces
    decreases |pieces|
  {
    if |pieces| > 0 {
      SplitWithoutSlash(pieces[0]);
      SplitAllWithoutSlash(pieces[1..]);
    }
  }

  lemma {:induction false} SplitAllAppend(a: seq<string>, b: seq<string>)
    ensures SplitAll(a + b) == SplitAll(a) + SplitAll(b)
    decreases |a|
  {
    if |a| > 0 {
      assert (a + b)[1..] == a[1..] + b;
      SplitAllAppend(a[1..], b);
    } else {
      assert a + b == b;
    }
  }

  /** When no piece holds a `/`, the path string reads back as exactly the pieces. */
  lemma SegmentsOfPlainPath(pieces: seq<string>)
    requires |pieces| > 0
    requires forall i :: 0 <= i < |pieces| ==> '/' !in pieces[i]
    ensures Segments(Path(pieces)) == pieces
  {
    SegmentsOfPath(pieces);
    SplitAllWithoutSlash(pieces);
  }
}
