/** Lines of a payload: trimming the whole changes no line's content and loses only blank lines. */
module Lines {
  import opened Text

  /** How many lines hold more than white space. */
  function NonBlank(lines: seq<string>): nat {
    if lines == [] then 0 else NonBlank(lines[..|lines| - 1]) + (if Trim(lines[|lines| - 1]) == "" then 0 else 1)
  }

  lemma {:induction false} NonBlankConcat(a: seq<string>, b: seq<string>)
    ensures NonBlank(a + b) == NonBlank(a) + NonBlank(b)
    decreases |b|
  {
    if b == [] {
      assert a + b == a;
    } else {
      var n := |b| - 1;
      assert (a + b)[..|a + b| - 1] == a + b[..n];
      NonBlankConcat(a, b[..n]);
    }
  }

  lemma NonBlankOne(x: string)
    ensures NonBlank([x]) == if Trim(x) == "" then 0 else 1
  {
    assert [x][..0] == [];
  }

  function Last(xs: seq<string>): string
    requires xs != []
  {
    xs[|xs| - 1]
  }

  function Front(xs: seq<string>): seq<string>
    requires xs != []
  {
    xs[..|xs| - 1]
  }

  /** Where two texts meet, the last line of the one and the first of the other become one. */
  lemma {:induction false} SplitConcat(a: string, b: string, c: char)
    ensures Split(a + b, c) == Front(Split(a, c)) + [Last(Split(a, c)) + Split(b, c)[0]] + Split(b, c)[1..]
    decreases |a|
  {
    CutShorter(a, c);
    var (x, y, found) := Cut(a, c);
    if found {
      assert a + b == x + [c] + (y + b);
      CutAt(x, c, y + b);
      SplitConcat(y, b, c);
    } else {
      SplitFirst(a, b, c);
    }
  }

  lemma SplitFirst(a: string, b: string, c: char)
    requires c !in a
    ensures Split(a, c) == [a]
    ensures Split(a + b, c) == [a + Split(b, c)[0]] + Split(b, c)[1..]
  {
    CutMiss(a, c);
    CutShorter(b, c);
    var (x, y, found) := Cut(b, c);
    if found {
      assert a + b == a + x + [c] + y;
      CutAt(a + x, c, y);
    } else {
      CutMiss(a + b, c);
    }
  }

  // ---- one white space character ----

  /** The bytes of one white space character. */
  predicate Space(w: string) { w != "" && LeadSpace(w) == |w| }

  lemma SpaceBytes(w: string, x: string)
    requires Space(w)
    ensures LeadSpace(w + x) == |w| && (w + x)[|w|..] == x
    ensures TrailSpace(x + w) == |w| && (x + w)[..|x|] == x
  {
    assert (w + x)[0] == w[0];
    assert |w| > 1 ==> (w + x)[1] == w[1] && (x + w)[|x| + 1] == w[1];
    assert |w| > 2 ==> (w + x)[2] == w[2] && (x + w)[|x| + 2] == w[2];
    assert (x + w)[|x|] == w[0];
  }

  /** Reading from the left, `w` at the end is never taken for the rest of an earlier character. */
  lemma NoOverlap(x: string, w: string)
    requires x != "" && Space(w)
    ensures LeadSpace(x + w) == LeadSpace(x)
  {
    var s := x + w;
    assert s[0] == x[0];
    assert |x| == 1 ==> s[1] == w[0];
    assert |x| == 2 ==> s[2] == w[0];
    assert |x| > 1 ==> s[1] == x[1];
    assert |x| > 2 ==> s[2] == x[2];
  }

  lemma {:induction false} TrimLeftAppend(x: string, w: string)
    requires Space(w)
    ensures TrimLeft(x + w) == if TrimLeft(x) == "" then "" else TrimLeft(x) + w
    decreases |x|
  {
    if x == "" {
      SpaceBytes(w, "");
      assert x + w == w && w + "" == w;
    } else {
      NoOverlap(x, w);
      var k := LeadSpace(x);
      if k != 0 {
        assert (x + w)[k..] == x[k..] + w;
        TrimLeftAppend(x[k..], w);
      }
    }
  }

  /** White space around a text does not change what is left of it. */
  lemma TrimSpace(x: string, w: string)
    requires Space(w)
    ensures Trim(w + x) == Trim(x) && Trim(x + w) == Trim(x)
  {
    SpaceBytes(w, x);
    TrimLeftAppend(x, w);
    if TrimLeft(x) != "" {
      SpaceBytes(w, TrimLeft(x));
    }
  }

  // ---- the lines of a trimmed text ----

  lemma SpaceLines(w: string)
    requires Space(w)
    ensures Split(w, '\n') == if w == "\n" then ["", ""] else [w]
  {
    if w == "\n" {
      assert w == "" + ['\n'] + "";
      CutAt("", '\n', "");
      CutMiss("", '\n');
    } else {
      assert '\n' !in w;
      CutMiss(w, '\n');
    }
  }

  lemma BlankLine()
    ensures NonBlank([""]) == 0
  {
    NonBlankOne("");
    TrimmedIsFixed("");
  }

  /** White space joined to a line does not change whether it is blank. */
  lemma SpacedLine(x: string, w: string)
    requires Space(w)
    ensures NonBlank([w + x]) == NonBlank([x]) && NonBlank([x + w]) == NonBlank([x])
  {
    TrimSpace(x, w);
    NonBlankOne(x);
    NonBlankOne(w + x);
    NonBlankOne(x + w);
  }

  lemma LeadingBreak(s: string)
    ensures NonBlank(Split("\n" + s, '\n')) == NonBlank(Split(s, '\n'))
  {
    var l := Split(s, '\n');
    SplitConcat("\n", s, '\n');
    SpaceLines("\n");
    assert "" + l[0] == l[0] && Front(["", ""]) == [""];
    assert l == [l[0]] + l[1..];
    assert Split("\n" + s, '\n') == [""] + l;
    NonBlankConcat([""], l);
    BlankLine();
  }

  /** Exchanging one line for another that is as blank. */
  lemma Exchanged(f: seq<string>, x: string, y: string, g: seq<string>)
    requires NonBlank([x]) == NonBlank([y])
    ensures NonBlank(f + [x] + g) == NonBlank(f + [y] + g)
  {
    NonBlankConcat(f + [x], g);
    NonBlankConcat(f + [y], g);
    NonBlankConcat(f, [x]);
    NonBlankConcat(f, [y]);
  }

  lemma LeadingOther(w: string, s: string)
    requires Space(w) && w != "\n"
    ensures NonBlank(Split(w + s, '\n')) == NonBlank(Split(s, '\n'))
  {
    SplitConcat(w, s, '\n');
    SpaceLines(w);
    assert Front([w]) == [] && Last([w]) == w;
    FirstLineSpaced(Split(s, '\n'), w, Split(w + s, '\n'));
  }

  lemma FirstLineSpaced(l: seq<string>, w: string, m: seq<string>)
    requires Space(w) && l != [] && m == [] + [w + l[0]] + l[1..]
    ensures NonBlank(m) == NonBlank(l)
  {
    SpacedLine(l[0], w);
    Exchanged([], l[0], w + l[0], l[1..]);
    assert l == [] + [l[0]] + l[1..];
  }

  lemma TrailingBreak(s: string)
    ensures NonBlank(Split(s + "\n", '\n')) == NonBlank(Split(s, '\n'))
  {
    var l := Split(s, '\n');
    SplitConcat(s, "\n", '\n');
    SpaceLines("\n");
    assert Last(l) + "" == Last(l) && ["", ""][1..] == [""];
    assert l == Front(l) + [Last(l)];
    assert Split(s + "\n", '\n') == l + [""];
    NonBlankConcat(l, [""]);
    BlankLine();
  }

  lemma TrailingOther(s: string, w: string)
    requires Space(w) && w != "\n"
    ensures NonBlank(Split(s + w, '\n')) == NonBlank(Split(s, '\n'))
  {
    SplitConcat(s, w, '\n');
    SpaceLines(w);
    LastLineSpaced(Split(s, '\n'), w, Split(s + w, '\n'));
  }

  lemma LastLineSpaced(l: seq<string>, w: string, m: seq<string>)
    requires Space(w) && l != [] && m == Front(l) + [Last(l) + w] + [w][1..]
    ensures NonBlank(m) == NonBlank(l)
  {
    SpacedLine(Last(l), w);
    Exchanged(Front(l), Last(l), Last(l) + w, []);
    assert [w][1..] == [];
    assert l == Front(l) + [Last(l)] + [];
  }

  lemma {:induction false} TrimLeftLines(s: string)
    ensures NonBlank(Split(TrimLeft(s), '\n')) == NonBlank(Split(s, '\n'))
    decreases |s|
  {
    var k := LeadSpace(s);
    if k == 0 {
    } else {
      var w := s[..k];
      assert s == w + s[k..];
      assert Space(w);
      if w == "\n" {
        LeadingBreak(s[k..]);
      } else {
        LeadingOther(w, s[k..]);
      }
      TrimLeftLines(s[k..]);
    }
  }

  lemma {:induction false} TrimRightLines(s: string)
    ensures NonBlank(Split(TrimRight(s), '\n')) == NonBlank(Split(s, '\n'))
    decreases |s|
  {
    var k := |s| - TrailSpace(s);
    if k == |s| {
    } else {
      var w := s[k..];
      assert s == s[..k] + w;
      assert Space(w);
      if w == "\n" {
        TrailingBreak(s[..k]);
      } else {
        TrailingOther(s[..k], w);
      }
      TrimRightLines(s[..k]);
    }
  }

  /** Trimming a payload keeps the number of its non-blank lines. */
  lemma TrimKeepsLines(s: string)
    ensures NonBlank(Split(Trim(s), '\n')) == NonBlank(Split(s, '\n'))
  {
    TrimLeftLines(s);
    TrimRightLines(TrimLeft(s));
  }
}
