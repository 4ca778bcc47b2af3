/**
 * What it means for a catalog path to stay under the project root, and which
 * directories a path needs before its file can be written.
 */
module Paths {

  /** A `..` segment starts at index i of p. */
  predicate DotDotAt(p: string, i: nat)
  {
    && i + 2 <= |p|
    && p[i] == '.' && p[i + 1] == '.'
    && (i == 0 || p[i - 1] == '/')
    && (i + 2 == |p| || p[i + 2] == '/')
  }

  /** A non-empty path with no leading `/` and no `..` segment: joined to a
      root, it names a file under that root. */
  predicate IsRelative(p: string)
  {
    |p| > 0 && p[0] != '/' && forall i: nat :: i < |p| ==> !DotDotAt(p, i)
  }

  /** One path component that neither is `..` nor contains a separator. */
  predicate PlainSegment(s: string)
  {
    s != "" && s != ".." && '/' !in s
  }

  /** The directories that must exist before p can be written: every prefix
      of p that ends just before a separator. */
  function ParentDirs(p: string): set<string>
  {
    set i | 0 < i < |p| && p[i] == '/' :: p[..i]
  }

  /** The paths of the directories ds once they are placed under directory s. */
  function Under(s: string, ds: set<string>): set<string>
  {
    set d | d in ds :: s + "/" + d
  }

  lemma SegmentIsRelative(s: string)
    requires PlainSegment(s)
    ensures IsRelative(s)
  {
    forall i: nat | i < |s| ensures !DotDotAt(s, i) {
      if i > 0 { assert s[i - 1] in s; }
      if i + 2 < |s| { assert s[i + 2] in s; }
      assert |s| == 2 ==> s == [s[0], s[1]];
    }
  }

  lemma ConsIsRelative(s: string, q: string)
    requires PlainSegment(s) && IsRelative(q)
    ensures IsRelative(s + "/" + q)
  {
    var p := s + "/" + q;
    forall i: nat | i < |p| ensures !DotDotAt(p, i) {
      if i < |s| {
        if i > 0 { assert s[i - 1] in s; }
        if i + 2 < |s| { assert s[i + 2] in s; }
        assert p[|s|] == '/';
        assert |s| == 2 ==> s == [s[0], s[1]];
      } else if i > |s| {
        assert !DotDotAt(q, i - |s| - 1);
      }
    }
  }

  lemma SegmentHasNoParents(s: string)
    requires '/' !in s
    ensures ParentDirs(s) == {}
  {
    forall i | 0 < i < |s| ensures s[i] != '/' {
      assert s[i] in s;
    }
  }

  /** Putting q under directory s adds s itself to the directories needed. */
  lemma ConsParentDirs(s: string, q: string)
    requires s != "" && '/' !in s && (|q| > 0 ==> q[0] != '/')
    ensures ParentDirs(s + "/" + q) == {s} + Under(s, ParentDirs(q))
  {
    var p := s + "/" + q;
    forall k | 0 <= k < |s| ensures p[k] != '/' {
      assert s[k] in s;
    }
    forall d | d in ParentDirs(p) ensures d == s || d in Under(s, ParentDirs(q)) {
      var i :| 0 < i < |p| && p[i] == '/' && d == p[..i];
      if i == |s| {
        assert p[..i] == s;
      } else {
        var j := i - |s| - 1;
        assert q[j] == '/';
        assert q[..j] in ParentDirs(q);
        assert d == s + "/" + q[..j];
      }
    }
    assert p[|s|] == '/' && p[..|s|] == s;
    assert s in ParentDirs(p);
    forall e | e in ParentDirs(q) ensures s + "/" + e in ParentDirs(p) {
      var j :| 0 < j < |q| && q[j] == '/' && e == q[..j];
      var i := |s| + 1 + j;
      assert p[i] == '/' && p[..i] == s + "/" + e;
    }
  }

  lemma UnderOne(s: string, d: string)
    ensures Under(s, {d}) == {s + "/" + d}
  {
  }

  /** A file directly inside one directory. */
  lemma TwoSegments(a: string, b: string)
    requires PlainSegment(a) && PlainSegment(b)
    ensures IsRelative(a + "/" + b)
    ensures ParentDirs(a + "/" + b) == {a}
  {
    SegmentIsRelative(b);
    ConsIsRelative(a, b);
    SegmentHasNoParents(b);
    ConsParentDirs(a, b);
  }

  /** A file two directories deep. */
  lemma ThreeSegments(a: string, b: string, c: string)
    requires PlainSegment(a) && PlainSegment(b) && PlainSegment(c)
    ensures IsRelative(a + "/" + b + "/" + c)
    ensures ParentDirs(a + "/" + b + "/" + c) == {a, a + "/" + b}
  {
    TwoSegments(b, c);
    ConsIsRelative(a, b + "/" + c);
    ConsParentDirs(a, b + "/" + c);
    UnderOne(a, b);
    assert a + "/" + b + "/" + c == a + "/" + (b + "/" + c);
  }
}
