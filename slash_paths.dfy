/**
 * Strings joined with '/', as `fmt.Sprintf("%s/%s", a, b)` builds them, and their
 * '/'-separated segments, as `strings.Split(s, "/")` takes them apart. The resource
 * builds the repository path, the GitLab project id and the job URL this way; the
 * lemmas here say that the pieces can be read back from the joined string. The resource
 * never joins a list itself: `Join` is here only as the inverse that shows `Segments`
 * loses nothing.
 */
module SlashPaths {

  /** `fmt.Sprintf("%s/%s", a, b)` for two strings. */
  function Slash(a: string, b: string): string
  {
    a + "/" + b
  }

  /** A string with no '/' in it: one segment of a path. */
  predicate Plain(s: string)
  {
    '/' !in s
  }

  /** The '/'-separated segments of `s`, as `strings.Split(s, "/")` returns them: never empty. */
  function Segments(s: string): (parts: seq<string>)
    ensures |parts| >= 1
    decreases |s|
  {
    if s == [] then [""]
    else if s[0] == '/' then [""] + Segments(s[1..])
    else
      var rest := Segments(s[1..]);
      [[s[0]] + rest[0]] + rest[1..]
  }

  /** The segments joined with '/' between neighbours, as `strings.Join(parts, "/")`. */
  function Join(parts: seq<string>): string
  {
    if |parts| == 0 then ""
    else if |parts| == 1 then parts[0]
    else Slash(parts[0], Join(parts[1..]))
  }

  /** A string without '/' is a single segment. */
  lemma {:induction false} SegmentsOfPlain(s: string)
    requires Plain(s)
    ensures Segments(s) == [s]
    decreases |s|
  {
    if s != [] {
      assert Plain(s[1..]) by {
        forall k | 0 <= k < |s[1..]| ensures s[1..][k] != '/' {
          assert s[1..][k] == s[k + 1];
        }
      }
      SegmentsOfPlain(s[1..]);
      assert [s[0]] + s[1..] == s;
    }
  }

  /** A leading '/' starts a new, empty first segment. */
  lemma SegmentsOfLeadingSlash(s: string)
    requires s != [] && s[0] == '/'
    ensures Segments(s) == [""] + Segments(s[1..])
  {
  }

  /** Any other leading character belongs to the first segment. */
  lemma SegmentsOfLeadingChar(s: string)
    requires s != [] && s[0] != '/'
    ensures Segments(s) == [[s[0]] + Segments(s[1..])[0]] + Segments(s[1..])[1..]
  {
  }

  /** Joining two strings with '/' concatenates their segment lists. */
  lemma {:induction false} SegmentsOfSlash(a: string, b: string)
    ensures Segments(Slash(a, b)) == Segments(a) + Segments(b)
    decreases |a|
  {
    var s := Slash(a, b);
    if a == [] {
      assert s[0] == '/' && s[1..] == b;
      SegmentsOfLeadingSlash(s);
    } else {
      assert s[0] == a[0] && s[1..] == Slash(a[1..], b);
      SegmentsOfSlash(a[1..], b);
      var rest := Segments(a[1..]);
      if a[0] == '/' {
        SegmentsOfLeadingSlash(s);
        SegmentsOfLeadingSlash(a);
      } else {
        SegmentsOfLeadingChar(s);
        SegmentsOfLeadingChar(a);
        assert (rest + Segments(b))[1..] == rest[1..] + Segments(b);
      }
    }
  }

  /** Join undoes Segments: splitting loses nothing. */
  lemma {:induction false} JoinSegments(s: string)
    ensures Join(Segments(s)) == s
    decreases |s|
  {
    if s != [] {
      JoinSegments(s[1..]);
      var rest := Segments(s[1..]);
      if s[0] == '/' {
        assert Segments(s)[1..] == rest;
        assert Join(Segments(s)) == Slash("", s[1..]);
        assert Slash("", s[1..]) == [s[0]] + s[1..];
      } else if |rest| == 1 {
        assert Join(Segments(s)) == [s[0]] + rest[0];
        assert [s[0]] + s[1..] == s;
      } else {
        assert Segments(s)[1..] == rest[1..];
        assert Join(rest) == Slash(rest[0], Join(rest[1..]));
        assert Join(Segments(s)) == Slash([s[0]] + rest[0], Join(rest[1..]));
        assert [s[0]] + s[1..] == s;
      }
    }
  }

  /** Segments undoes Join when no part contains '/': the parts are read back exactly. */
  lemma {:induction false} SegmentsOfJoin(parts: seq<string>)
    requires |parts| >= 1
    requires forall i :: 0 <= i < |parts| ==> Plain(parts[i])
    ensures Segments(Join(parts)) == parts
    decreases |parts|
  {
    SegmentsOfPlain(parts[0]);
    if |parts| > 1 {
      SegmentsOfJoin(parts[1..]);
      SegmentsOfSlash(parts[0], Join(parts[1..]));
      assert [parts[0]] + parts[1..] == parts;
    }
  }
}
