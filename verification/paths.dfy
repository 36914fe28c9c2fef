/**
 Request paths as '/'-separated segments.

 The reconcilers build every request path by concatenating fixed words,
 identifiers and '/' (`"upstreams/" + upstream + "/targets/" + id`). This
 module gives the reading of such a path back into its segments, so that the
 resource a request addresses can be stated and proved, not just spelled.
 */
module Paths {

  /** True iff `s` contains no '/', i.e. it is a single path segment. */
  predicate Plain(s: string) {
    '/' !in s
  }

  /** The path whose segments are `segments`, separated by '/'. */
  function Join(segments: seq<string>): string
    requires |segments| > 0
    decreases |segments|
  {
    if |segments| == 1 then segments[0]
    else segments[0] + "/" + Join(segments[1..])
  }

  /** Cuts a path at every '/': the segments it was joined from. */
  function Split(path: string): (segments: seq<string>)
    ensures |segments| > 0
    ensures forall i :: 0 <= i < |segments| ==> Plain(segments[i])
    ensures Join(segments) == path
    decreases |path|
  {
    if |path| == 0 then [""]
    else if path[0] == '/' then
      var rest := Split(path[1..]);
      assert ([""] + rest)[1..] == rest;
      [""] + rest
    else
      var rest := Split(path[1..]);
      var head := [path[0]] + rest[0];
      assert path == [path[0]] + path[1..];
      if |rest| == 1 then [head]
      else
        assert ([head] + rest[1..])[1..] == rest[1..];
        assert Join(rest) == rest[0] + "/" + Join(rest[1..]);
        assert head + "/" + Join(rest[1..]) == [path[0]] + (rest[0] + "/" + Join(rest[1..]));
        [head] + rest[1..]
  }

  /** A single segment splits into itself. */
  lemma {:induction false} SplitPlain(s: string)
    requires Plain(s)
    ensures Split(s) == [s]
    decreases |s|
  {
    if |s| > 0 {
      SplitPlain(s[1..]);
      assert [s[0]] + s[1..] == s;
    }
  }

  /** Splitting stops at the first '/' after a plain segment. */
  lemma {:induction false} SplitAfterSegment(s: string, rest: string)
    requires Plain(s)
    ensures Split(s + "/" + rest) == [s] + Split(rest)
    decreases |s|
  {
    var path := s + "/" + rest;
    if |s| == 0 {
      assert path == "/" + rest;
      assert path[1..] == rest;
    } else {
      assert path[0] == s[0];
      assert path[1..] == s[1..] + "/" + rest;
      SplitAfterSegment(s[1..], rest);
      assert [s[0]] + s[1..] == s;
    }
  }

  /** Splitting a joined path gives back its segments when none contains '/'. */
  lemma {:induction false} SplitJoin(segments: seq<string>)
    requires |segments| > 0
    requires forall i :: 0 <= i < |segments| ==> Plain(segments[i])
    ensures Split(Join(segments)) == segments
    decreases |segments|
  {
    if |segments| == 1 {
      SplitPlain(segments[0]);
    } else {
      assert Plain(segments[0]);
      SplitJoin(segments[1..]);
      SplitAfterSegment(segments[0], Join(segments[1..]));
      assert [segments[0]] + segments[1..] == segments;
    }
  }
}
