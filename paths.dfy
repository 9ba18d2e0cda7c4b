// Enrichment field paths. The search service writes a path as a slash string
// ("/document/pages/*"); the model keeps it as its list of segments
// (["document", "pages", "*"]), so that "p is an enclosing scope of q" is the
// sequence-prefix relation p <= q. Render gives back the string form and Parse
// reads it; the two are proved inverse, so nothing is lost by working on segments.
module Paths {
  import opened Common

  type Path = seq<string>

  /** The wildcard segment: "for each element of the collection above". */
  const Wildcard: string := "*"

  /** No segment contains the separator, so the path has one string form. */
  predicate WellFormed(p: Path) {
    forall i :: 0 <= i < |p| ==> '/' !in p[i]
  }

  /** The slash form: every segment preceded by "/". */
  function Render(p: Path): string {
    if p == [] then "" else "/" + p[0] + Render(p[1..])
  }

  /** Cuts a string at every "/". */
  function Split(t: string): (r: seq<string>)
    ensures |r| >= 1
    ensures WellFormed(r)
  {
    if t == [] then [""]
    else if t[0] == '/' then [""] + Split(t[1..])
    else
      var rest := Split(t[1..]);
      [[t[0]] + rest[0]] + rest[1..]
  }

  /** Reads a slash form: the empty string is the empty path; anything else must start with "/". */
  function Parse(s: string): (r: Option<Path>)
    ensures r.Some? ==> WellFormed(r.value)
  {
    if s == [] then Some([])
    else if s[0] != '/' then None
    else Some(Split(s[1..]))
  }

  lemma {:induction false} SplitSegmentFirst(a: string, rest: string)
    requires '/' !in a
    ensures Split(a + rest) == [a + Split(rest)[0]] + Split(rest)[1..]
  {
    if a != [] {
      assert (a + rest)[0] == a[0];
      assert (a + rest)[1..] == a[1..] + rest;
      SplitSegmentFirst(a[1..], rest);
      assert [a[0]] + (a[1..] + Split(rest)[0]) == a + Split(rest)[0];
    } else {
      assert a + rest == rest;
      assert Split(rest) == [Split(rest)[0]] + Split(rest)[1..];
      assert a + Split(rest)[0] == Split(rest)[0];
    }
  }

  lemma SplitAtSeparator(a: string, t: string)
    requires '/' !in a
    ensures Split(a + "/" + t) == [a] + Split(t)
  {
    assert a + "/" + t == a + ("/" + t);
    SplitSegmentFirst(a, "/" + t);
    assert ("/" + t)[1..] == t;
    assert Split("/" + t) == [""] + Split(t);
    assert a + "" == a;
  }

  lemma SplitNoSeparator(a: string)
    requires '/' !in a
    ensures Split(a) == [a]
  {
    SplitSegmentFirst(a, "");
    assert a + "" == a;
  }

  /** Rendering a well-formed path and reading it back gives the path again. */
  lemma {:induction false} ParseRender(p: Path)
    requires WellFormed(p)
    ensures Parse(Render(p)) == Some(p)
  {
    if p != [] {
      var a, rest := p[0], p[1..];
      assert WellFormed(rest) by {
        forall i | 0 <= i < |rest| ensures '/' !in rest[i] { assert rest[i] == p[i + 1]; }
      }
      assert Render(p) == "/" + a + Render(rest);
      assert Render(p)[1..] == a + Render(rest);
      assert Render(p) != [] && Render(p)[0] == '/';
      if rest == [] {
        SplitNoSeparator(a);
        assert a + Render(rest) == a;
        assert p == [a];
      } else {
        ParseRender(rest);
        var tail := Render(rest)[1..];
        assert Render(rest) == "/" + tail;
        assert Split(tail) == rest;
        assert a + Render(rest) == a + "/" + tail;
        SplitAtSeparator(a, tail);
        assert [a] + rest == p;
      }
    }
  }

  lemma {:induction false} RenderSplit(t: string)
    ensures Render(Split(t)) == "/" + t
  {
    if t == [] {
      assert Render([""]) == "/" + "" + Render([]);
    } else if t[0] == '/' {
      var r := Split(t[1..]);
      RenderSplit(t[1..]);
      assert ([""] + r)[1..] == r;
      assert Render([""] + r) == "/" + "" + Render(r);
      assert "/" + "" + ("/" + t[1..]) == "/" + t;
    } else {
      var r := Split(t[1..]);
      RenderSplit(t[1..]);
      var s := [[t[0]] + r[0]] + r[1..];
      assert s[1..] == r[1..];
      assert Render(s) == "/" + ([t[0]] + r[0]) + Render(r[1..]);
      assert Render(r) == "/" + r[0] + Render(r[1..]);
      assert ("/" + t[1..])[1..] == t[1..];
      assert ("/" + r[0] + Render(r[1..]))[1..] == r[0] + Render(r[1..]);
      assert [t[0]] + t[1..] == t;
    }
  }

  /** Every string Parse accepts is the rendering of the path it yields. */
  lemma RenderParse(s: string)
    requires Parse(s).Some?
    ensures Render(Parse(s).value) == s
  {
    if s != [] {
      RenderSplit(s[1..]);
      assert "/" + s[1..] == s;
    }
  }

  /** Two well-formed paths with the same slash form are the same path. */
  lemma RenderInjective(p: Path, q: Path)
    requires WellFormed(p) && WellFormed(q)
    requires Render(p) == Render(q)
    ensures p == q
  {
    ParseRender(p);
    ParseRender(q);
  }

  /** Rendering distributes over concatenation of paths. */
  lemma {:induction false} RenderAppend(p: Path, q: Path)
    ensures Render(p + q) == Render(p) + Render(q)
  {
    if p != [] {
      assert (p + q)[0] == p[0];
      assert (p + q)[1..] == p[1..] + q;
      RenderAppend(p[1..], q);
    } else {
      assert p + q == q;
    }
  }

  /** An enclosing scope in segments is a prefix of the slash form too. */
  lemma PrefixRendersAsPrefix(p: Path, q: Path)
    requires p <= q
    ensures Render(p) <= Render(q)
  {
    assert q == p + q[|p|..];
    RenderAppend(p, q[|p|..]);
  }
}
