/**
 * The constant-path tokenizer that `Module#const_get`, `const_defined?` and
 * `const_source_location` share (object.c): it splits `"A::B::C"` into its
 * segments, notes whether a leading `::` moves the lookup root to `Object`,
 * and stops with "wrong constant name" at an empty path, an empty segment,
 * a `:` not followed by `:`, or a `::` with nothing after it.
 *
 * The three callers interleave the lookup of each segment with the
 * tokenizing; the tokens here are the segments in the order the callers
 * look them up, and `wrongName` says whether the path went wrong after the
 * last of them.
 */
module ConstPath {
  import opened Text

  /** The outcome of tokenizing a path. */
  datatype ConstPathTokens = ConstPathTokens(fromObject: bool, segments: seq<string>, wrongName: bool)

  /**
   * The segments of `path` from position `p`, where a segment should start:
   * the text up to the next `:`, which must be non-empty, and then either
   * the end or `::` followed by at least one more character and the
   * segments after it.
   */
  function SegmentsFrom(path: string, p: nat): (r: (seq<string>, bool))
    requires p < |path|
    decreases |path| - p
  {
    var q := FindCharFrom(path, ':', p);
    if q == p then ([], true)
    else if q == |path| then ([path[p..]], false)
    else if q + 2 >= |path| || path[q + 1] != ':' then ([], true)
    else
      var rest := SegmentsFrom(path, q + 2);
      ([path[p..q]] + rest.0, rest.1)
  }

  /** Whether a path starts with the `::` that switches the root to `Object`: only with more text after it. */
  predicate FromObject(path: string) {
    |path| > 2 && path[0] == ':' && path[1] == ':'
  }

  /** What the tokenizer yields for a path. */
  function ConstPathSpec(path: string): ConstPathTokens {
    if |path| == 0 || path[0] == '\0' then ConstPathTokens(false, [], true)
    else
      var r := SegmentsFrom(path, if FromObject(path) then 2 else 0);
      ConstPathTokens(FromObject(path), r.0, r.1)
  }

  /** The inner loop: advance from `pbeg` to the next `:` or the end of the path. */
  method SkipSegment(path: string, pbeg: nat) returns (p: nat)
    requires pbeg <= |path|
    ensures p == FindCharFrom(path, ':', pbeg)
  {
    p := pbeg;
    while p < |path| && path[p] != ':'
      invariant pbeg <= p <= FindCharFrom(path, ':', pbeg)
    {
      p := p + 1;
    }
  }

  /**
   * One round of the tokenizer loop from the segment start `pbeg`: skip to
   * the next `:`, refuse an empty segment or a `:` that does not start a
   * `::` with text after it, and otherwise step past the `::`. The
   * segment read is the first of `SegmentsFrom(path, pbeg)`, and the rest
   * of them start at `next`.
   */
  method TakeSegment(path: string, pbeg: nat) returns (next: nat, segment: string, wrong: bool)
    requires pbeg < |path|
    ensures wrong ==> SegmentsFrom(path, pbeg) == ([], true)
    ensures !wrong ==> pbeg < next <= |path|
    ensures !wrong && next == |path| ==> SegmentsFrom(path, pbeg) == ([segment], false)
    ensures !wrong && next < |path| ==>
      SegmentsFrom(path, pbeg) == ([segment] + SegmentsFrom(path, next).0, SegmentsFrom(path, next).1)
  {
    var p := SkipSegment(path, pbeg);
    if pbeg == p {
      return p, [], true;
    }
    segment := path[pbeg..p];
    if p < |path| && path[p] == ':' {
      if p + 2 >= |path| || path[p + 1] != ':' {
        return p, segment, true;
      }
      return p + 2, segment, false;
    }
    assert segment == path[pbeg..];
    return p, segment, false;
  }

  /**
   * The tokenizer loop of `rb_mod_const_get`, `rb_mod_const_defined` and
   * `rb_mod_const_source_location`: an empty path or one starting with NUL
   * is a wrong name, a leading `::` with text after it moves the root to
   * `Object`, and then segments are read until the end or a wrong name.
   */
  method TokenizeConstPath(path: string) returns (r: ConstPathTokens)
    ensures r == ConstPathSpec(path)
  {
    var p := 0;
    var pend := |path|;
    if p >= pend || path[p] == '\0' {
      return ConstPathTokens(false, [], true);
    }
    var fromObject := false;
    if p + 2 < pend && path[p] == ':' && path[p + 1] == ':' {
      fromObject := true;
      p := p + 2;
    }
    ghost var whole := SegmentsFrom(path, p);
    var segments: seq<string> := [];
    assert segments + whole.0 == whole.0;
    while p < pend
      invariant p <= pend
      invariant p < pend ==> whole == (segments + SegmentsFrom(path, p).0, SegmentsFrom(path, p).1)
      invariant p == pend ==> whole == (segments, false)
      decreases pend - p
    {
      var next, segment, wrong := TakeSegment(path, p);
      if wrong {
        return ConstPathTokens(fromObject, segments, true);
      }
      if next < pend {
        assert segments + [segment] + SegmentsFrom(path, next).0 == segments + ([segment] + SegmentsFrom(path, next).0);
      }
      segments := segments + [segment];
      p := next;
    }
    return ConstPathTokens(fromObject, segments, false);
  }

  // ---------------------------------------------------------------------
  // Rendering

  /** A segment the tokenizer can return: non-empty and free of `:`. */
  predicate ValidSegment(seg: string) {
    |seg| > 0 && ':' !in seg
  }

  /** The segments joined with `::`. */
  function Join(segments: seq<string>): string
    requires |segments| > 0
  {
    if |segments| == 1 then segments[0] else segments[0] + "::" + Join(segments[1..])
  }

  /** The path a lookup from `Object` (or not) through `segments` is written as. */
  function Render(fromObject: bool, segments: seq<string>): string
    requires |segments| > 0
  {
    (if fromObject then "::" else "") + Join(segments)
  }

  /** Tokenizing inside `a + b` from a position in `b` is tokenizing `b`. */
  lemma {:induction false} SegmentsFromShift(a: string, b: string, k: nat)
    requires k < |b|
    ensures SegmentsFrom(a + b, |a| + k) == SegmentsFrom(b, k)
    decreases |b| - k
  {
    var s := a + b;
    FindCharFromShift(a, b, ':', k);
    var q := FindCharFrom(b, ':', k);
    assert FindCharFrom(s, ':', |a| + k) == |a| + q;
    if q == k {
      assert SegmentsFrom(s, |a| + k) == ([], true) == SegmentsFrom(b, k);
    } else if q == |b| {
      assert s[|a| + k..] == b[k..];
      assert SegmentsFrom(s, |a| + k) == ([b[k..]], false) == SegmentsFrom(b, k);
    } else if q + 2 >= |b| || b[q + 1] != ':' {
      assert q + 1 < |b| ==> s[|a| + q + 1] == b[q + 1];
      assert SegmentsFrom(s, |a| + k) == ([], true) == SegmentsFrom(b, k);
    } else {
      assert s[|a| + q + 1] == b[q + 1];
      assert s[|a| + k..|a| + q] == b[k..q];
      SegmentsFromShift(a, b, q + 2);
      var rest := SegmentsFrom(b, q + 2);
      assert SegmentsFrom(s, |a| + k) == ([b[k..q]] + rest.0, rest.1) == SegmentsFrom(b, k);
    }
  }

  lemma {:induction false} SegmentsOfJoin(segments: seq<string>)
    requires |segments| > 0
    requires forall i :: 0 <= i < |segments| ==> ValidSegment(segments[i])
    ensures |Join(segments)| > 0 && SegmentsFrom(Join(segments), 0) == (segments, false)
  {
    var s := Join(segments);
    if |segments| == 1 {
      FindCharFromUnique(s, ':', 0, |s|);
      assert segments == [s];
    } else {
      var seg, rest := segments[0], Join(segments[1..]);
      SegmentsOfJoin(segments[1..]);
      var a := seg + "::";
      assert s == a + rest;
      assert s[|seg|] == ':' && s[|seg| + 1] == ':';
      forall i | 0 <= i < |seg|
        ensures s[i] != ':'
      {
        assert s[i] == seg[i];
      }
      FindCharFromUnique(s, ':', 0, |seg|);
      SegmentsFromShift(a, rest, 0);
      assert s[0..|seg|] == seg;
      assert [seg] + segments[1..] == segments;
    }
  }

  /** The text from `p` up to the next `:` holds no `:`. */
  lemma SegmentHasNoColon(s: string, p: nat)
    requires p <= |s|
    ensures ':' !in s[p..FindCharFrom(s, ':', p)]
  {
    var q := FindCharFrom(s, ':', p);
    forall i | 0 <= i < q - p
      ensures s[p..q][i] != ':'
    {
      assert s[p..q][i] == s[p + i];
    }
  }

  lemma {:induction false} JoinOfSegments(s: string, p: nat)
    requires p < |s| && !SegmentsFrom(s, p).1
    ensures |SegmentsFrom(s, p).0| > 0
    ensures forall i :: 0 <= i < |SegmentsFrom(s, p).0| ==> ValidSegment(SegmentsFrom(s, p).0[i])
    ensures Join(SegmentsFrom(s, p).0) == s[p..]
    decreases |s| - p
  {
    var q := FindCharFrom(s, ':', p);
    var segs := SegmentsFrom(s, p).0;
    SegmentHasNoColon(s, p);
    if q < |s| {
      var rest := SegmentsFrom(s, q + 2).0;
      JoinOfSegments(s, q + 2);
      assert segs == [s[p..q]] + rest;
      assert segs[1..] == rest;
      assert Join(segs) == s[p..q] + "::" + Join(rest);
      assert s[p..] == s[p..q] + "::" + s[q + 2..];
    } else {
      assert segs == [s[p..]];
    }
  }

  /** A path with a leading `::` tokenizes into a lookup from `Object` through its segments. */
  lemma TokenizeRenderFromObject(segments: seq<string>)
    requires |segments| > 0
    requires forall i :: 0 <= i < |segments| ==> ValidSegment(segments[i])
    ensures ConstPathSpec("::" + Join(segments)) == ConstPathTokens(true, segments, false)
  {
    SegmentsOfJoin(segments);
    SegmentsFromShift("::", Join(segments), 0);
  }

  /** The first character of a rendering without a leading `::` is its first segment's. */
  lemma JoinStartsWithFirstSegment(segments: seq<string>)
    requires |segments| > 0 && |segments[0]| > 0
    ensures |Join(segments)| > 0 && Join(segments)[0] == segments[0][0]
  {
    if |segments| > 1 {
      assert Join(segments) == segments[0] + ("::" + Join(segments[1..]));
    }
  }

  /**
   * Every path written as segments joined by `::`, with or without a
   * leading `::`, tokenizes back into exactly those segments and that root.
   */
  lemma TokenizeRender(fromObject: bool, segments: seq<string>)
    requires |segments| > 0
    requires forall i :: 0 <= i < |segments| ==> ValidSegment(segments[i])
    requires !fromObject ==> |segments[0]| > 0 && segments[0][0] != '\0'
    ensures ConstPathSpec(Render(fromObject, segments)) == ConstPathTokens(fromObject, segments, false)
  {
    if fromObject {
      TokenizeRenderFromObject(segments);
    } else {
      SegmentsOfJoin(segments);
      JoinStartsWithFirstSegment(segments);
      assert Render(fromObject, segments) == Join(segments);
    }
  }

  /** Conversely, every path the tokenizer accepts is such a rendering of what it returns. */
  lemma AcceptedPathIsRendered(path: string)
    requires !ConstPathSpec(path).wrongName
    ensures var r := ConstPathSpec(path);
      && |r.segments| > 0
      && (forall i :: 0 <= i < |r.segments| ==> ValidSegment(r.segments[i]))
      && path == Render(r.fromObject, r.segments)
  {
    var start := if FromObject(path) then 2 else 0;
    JoinOfSegments(path, start);
    assert path == path[..start] + path[start..];
    if FromObject(path) {
      assert path[..start] == "::";
    }
  }

  /** Paths the tokenizer refuses, and the segments it reads before refusing. */
  lemma WrongNames()
    ensures ConstPathSpec("").wrongName
    ensures ConstPathSpec("A::").wrongName && ConstPathSpec("A::").segments == []
    ensures ConstPathSpec("A:B").wrongName
    ensures ConstPathSpec("::").wrongName
    ensures ConstPathSpec("A::::B").wrongName && ConstPathSpec("A::::B").segments == ["A"]
  {
    FindCharFromUnique("A::", ':', 0, 1);
    FindCharFromUnique("A:B", ':', 0, 1);
    FindCharFromUnique("::", ':', 0, 0);
    FindCharFromUnique("A::::B", ':', 0, 1);
    FindCharFromUnique("A::::B", ':', 3, 3);
    assert "A::::B"[0..1] == "A" && ["A"] + [] == ["A"];
  }
}
