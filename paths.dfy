/**
 * Route paths as the navigation composable reads them: split on `/`,
 * empty pieces dropped, and rebuilt one `/segment` at a time.
 */
module Paths {

  /** Whether `s` begins with `prefix` (`String.prototype.startsWith`). */
  predicate StartsWith(s: string, prefix: string)
  {
    |prefix| <= |s| && s[..|prefix|] == prefix
  }

  /** A prefix of a prefix is a prefix. */
  lemma StartsWithTransitive(s: string, middle: string, prefix: string)
    requires StartsWith(s, middle) && StartsWith(middle, prefix)
    ensures StartsWith(s, prefix)
  {
    assert s[..|prefix|] == s[..|middle|][..|prefix|];
  }

  /** Whether `part` occurs somewhere in `s` (`String.prototype.includes`); the empty string occurs everywhere. */
  predicate Includes(s: string, part: string)
  {
    exists i :: 0 <= i <= |s| && OccursAt(s, part, i)
  }

  predicate OccursAt(s: string, part: string, i: nat)
  {
    i + |part| <= |s| && s[i..i + |part|] == part
  }

  /** The pieces of `s` between separators (`s.split('/')`): never empty, one more than the number of `/`. */
  function Split(s: string): (parts: seq<string>)
    ensures |parts| >= 1
    ensures forall j :: 0 <= j < |parts| ==> '/' !in parts[j]
    decreases |s|
  {
    if s == [] then [""]
    else
      var rest := Split(s[1..]);
      if s[0] == '/' then [""] + rest
      else [[s[0]] + rest[0]] + rest[1..]
  }

  /** The pieces joined back with `/` in between. */
  function Join(parts: seq<string>): string
    requires |parts| >= 1
  {
    if |parts| == 1 then parts[0] else parts[0] + "/" + Join(parts[1..])
  }

  /** Splitting loses nothing: joining the pieces gives back the path. */
  lemma {:induction false} JoinSplit(s: string)
    ensures Join(Split(s)) == s
    decreases |s|
  {
    if s != [] {
      JoinSplit(s[1..]);
      var rest := Split(s[1..]);
      if s[0] == '/' {
        assert s == [s[0]] + s[1..];
      } else {
        if |rest| == 1 {
          assert s == [s[0]] + s[1..];
        } else {
          assert Join(rest) == rest[0] + "/" + Join(rest[1..]);
          var parts := [[s[0]] + rest[0]] + rest[1..];
          assert parts[1..] == rest[1..];
          assert s == [s[0]] + s[1..];
        }
      }
    }
  }

  /** A separator splits exactly where it stands. */
  lemma {:induction false} SplitAround(a: string, b: string)
    ensures Split(a + "/" + b) == Split(a) + Split(b)
    decreases |a|
  {
    if a == [] {
      assert a + "/" + b == ['/'] + b;
      assert (a + "/" + b)[1..] == b;
    } else {
      assert (a + "/" + b)[0] == a[0];
      assert (a + "/" + b)[1..] == a[1..] + "/" + b;
      SplitAround(a[1..], b);
    }
  }

  /** The non-empty pieces, in order (`filter(Boolean)`). */
  function NonEmpty(parts: seq<string>): (kept: seq<string>)
    ensures forall j :: 0 <= j < |kept| ==> kept[j] != "" && kept[j] in parts
    ensures |kept| <= |parts|
  {
    if parts == [] then []
    else if parts[0] == "" then NonEmpty(parts[1..])
    else [parts[0]] + NonEmpty(parts[1..])
  }

  lemma {:induction false} NonEmptyAppend(xs: seq<string>, ys: seq<string>)
    ensures NonEmpty(xs + ys) == NonEmpty(xs) + NonEmpty(ys)
  {
    if xs == [] {
      assert xs + ys == ys;
    } else {
      assert (xs + ys)[0] == xs[0];
      assert (xs + ys)[1..] == xs[1..] + ys;
      NonEmptyAppend(xs[1..], ys);
      if xs[0] != "" {
        assert NonEmpty(xs + ys) == [xs[0]] + (NonEmpty(xs[1..]) + NonEmpty(ys));
      }
    }
  }

  /** A part is kept exactly when it is a non-empty part of the input. */
  lemma {:induction false} NonEmptyMembers(parts: seq<string>, part: string)
    ensures part in NonEmpty(parts) <==> part in parts && part != ""
  {
    if parts != [] {
      NonEmptyMembers(parts[1..], part);
      assert parts == [parts[0]] + parts[1..];
    }
  }

  /** Parts that are all non-empty are kept as they are, in their order. */
  lemma {:induction false} NonEmptyKeepsOrder(parts: seq<string>)
    requires forall j :: 0 <= j < |parts| ==> parts[j] != ""
    ensures NonEmpty(parts) == parts
  {
    if parts != [] {
      NonEmptyKeepsOrder(parts[1..]);
      assert [parts[0]] + parts[1..] == parts;
    }
  }

  /** The segments of a route path: its non-empty `/`-separated pieces. */
  function Segments(path: string): (segments: seq<string>)
    ensures forall j :: 0 <= j < |segments| ==> segments[j] != "" && '/' !in segments[j]
  {
    NonEmpty(Split(path))
  }

  /** Whether `segment` could be one piece of a path: non-empty and without a separator. */
  predicate IsSegment(segment: string)
  {
    segment != "" && '/' !in segment
  }

  /** `"/" + s1 + "/" + s2 + ...`: the path the segments are accumulated into. */
  function PathOf(segments: seq<string>): (path: string)
    ensures segments == [] <==> path == ""
  {
    if segments == [] then "" else PathOf(segments[..|segments| - 1]) + "/" + segments[|segments| - 1]
  }

  /** One more segment adds `/` and that segment to the path. */
  lemma PathOfStep(segments: seq<string>, k: nat)
    requires k < |segments|
    ensures PathOf(segments[..k + 1]) == PathOf(segments[..k]) + "/" + segments[k]
  {
    assert segments[..k + 1][..k] == segments[..k];
  }

  lemma SplitOfSegment(segment: string)
    requires '/' !in segment
    ensures Split(segment) == [segment]
    decreases |segment|
  {
    if segment != [] {
      SplitOfSegment(segment[1..]);
      assert segment == [segment[0]] + segment[1..];
    }
  }

  /** Accumulating segments and splitting again gives the same segments back. */
  lemma {:induction false} SegmentsOfPathOf(segments: seq<string>)
    requires forall j :: 0 <= j < |segments| ==> IsSegment(segments[j])
    ensures Segments(PathOf(segments)) == segments
  {
    if segments != [] {
      var init, last := segments[..|segments| - 1], segments[|segments| - 1];
      assert Segments(PathOf(init)) == init by {
        SegmentsOfPathOf(init);
      }
      assert Split(PathOf(segments)) == Split(PathOf(init)) + [last] by {
        assert PathOf(segments) == PathOf(init) + "/" + last;
        SplitAround(PathOf(init), last);
        SplitOfSegment(last);
      }
      assert NonEmpty(Split(PathOf(init)) + [last]) == init + NonEmpty([last]) by {
        NonEmptyAppend(Split(PathOf(init)), [last]);
      }
      assert NonEmpty([last]) == [last];
      assert segments == init + [last];
    }
  }

  /** Trailing and doubled separators are ignored. */
  lemma ExtraSeparatorsIgnored(a: string, b: string)
    ensures Segments(a + "/") == Segments(a)
    ensures Segments(a + "//" + b) == Segments(a + "/" + b)
  {
    SplitAround(a, "");
    assert a + "/" == a + "/" + "";
    NonEmptyAppend(Split(a), [""]);
    assert NonEmpty([""]) == [];
    assert a + "//" + b == a + "/" + ("/" + b);
    SplitAround(a, "/" + b);
    SplitAround("", b);
    assert "" + "/" + b == "/" + b;
    SplitAround(a, b);
    NonEmptyAppend(Split(a), Split("/" + b));
    NonEmptyAppend([""], Split(b));
    NonEmptyAppend(Split(a), Split(b));
  }

  /** The path of a prefix of the segments is a prefix of the path of them all. */
  lemma {:induction false} PathOfPrefix(segments: seq<string>, k: nat)
    requires k <= |segments|
    ensures StartsWith(PathOf(segments), PathOf(segments[..k]))
    decreases |segments|
  {
    if k < |segments| {
      var init := segments[..|segments| - 1];
      PathOfPrefix(init, k);
      assert init[..k] == segments[..k];
    } else {
      assert segments[..k] == segments;
    }
  }
}
