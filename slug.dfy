/** The canonical-URL slug of a page title: `title.toLowerCase()` followed by
    `.replace(/\s+/g, '-')`, restricted to ASCII letters and ASCII whitespace. */
module Slug {
  import opened Strings

  /** The ASCII characters matched by the regular-expression class `\s`. */
  predicate IsSpace(c: char)
  {
    c == ' ' || c == '\t' || c == '\n' || c == '\U{000B}' || c == '\U{000C}' || c == '\r'
  }

  predicate IsUpper(c: char)
  {
    'A' <= c <= 'Z'
  }

  predicate NoSpace(s: String)
  {
    forall i :: 0 <= i < |s| ==> !IsSpace(s[i])
  }

  predicate NoUpper(s: String)
  {
    forall i :: 0 <= i < |s| ==> !IsUpper(s[i])
  }

  /** `s` is empty or its first character is not whitespace. */
  predicate StartsSolid(s: String)
  {
    s == [] || !IsSpace(s[0])
  }

  /** `s` is empty or its last character is not whitespace. */
  predicate EndsSolid(s: String)
  {
    s == [] || !IsSpace(s[|s| - 1])
  }

  function LowerChar(c: char): (d: char)
    ensures !IsUpper(d)
    ensures IsUpper(c) ==> d as int == c as int + 32
    ensures !IsUpper(c) ==> d == c
  {
    if IsUpper(c) then (c as int + 32) as char else c
  }

  /** `toLowerCase` on ASCII letters; every other character is kept. */
  function Lower(s: String): (r: String)
    ensures |r| == |s|
    ensures forall i :: 0 <= i < |s| ==> r[i] == LowerChar(s[i])
  {
    if s == [] then [] else [LowerChar(s[0])] + Lower(s[1..])
  }

  /** What is left of `s` after its leading whitespace run. */
  function DropRun(s: String): (r: String)
    ensures |r| <= |s|
    ensures StartsSolid(r)
    ensures NoUpper(s) ==> NoUpper(r)
    decreases |s|
  {
    if s != [] && IsSpace(s[0]) then DropRun(s[1..]) else s
  }

  /** `replace(/\s+/g, '-')`: every maximal whitespace run becomes one `-`. */
  function CollapseRuns(s: String): (r: String)
    ensures |r| <= |s|
    decreases |s|
  {
    if s == [] then []
    else if IsSpace(s[0]) then "-" + CollapseRuns(DropRun(s))
    else [s[0]] + CollapseRuns(s[1..])
  }

  /** The slug of a title, as used in the canonical link of a page. */
  function Slugify(title: String): (r: String)
    ensures NoSpace(r) && NoUpper(r)
    ensures |r| <= |title|
  {
    CollapseRunsClean(Lower(title));
    CollapseRuns(Lower(title))
  }

  /** The run replacement leaves no whitespace and adds no upper-case letter. */
  lemma {:induction false} CollapseRunsClean(s: String)
    ensures NoSpace(CollapseRuns(s))
    ensures NoUpper(s) ==> NoUpper(CollapseRuns(s))
    decreases |s|
  {
    if s != [] {
      if IsSpace(s[0]) {
        CollapseRunsClean(DropRun(s));
      } else {
        CollapseRunsClean(s[1..]);
      }
    }
  }

  /** Text without whitespace passes through the run replacement unchanged. */
  lemma {:induction false} CollapseRunsNoSpace(s: String)
    requires NoSpace(s)
    ensures CollapseRuns(s) == s
    decreases |s|
  {
    if s != [] {
      CollapseRunsNoSpace(s[1..]);
    }
  }

  predicate AllSpace(w: String)
  {
    forall i :: 0 <= i < |w| ==> IsSpace(w[i])
  }

  /** A run of whitespace `w` that is maximal (the text before it does not end
      in whitespace, the text after it does not start with whitespace) turns
      into exactly one `-`, and the text around it is treated independently. */
  lemma {:induction false} CollapseRunsSplit(x: String, w: String, y: String)
    requires EndsSolid(x) && StartsSolid(y)
    requires w != [] && AllSpace(w)
    ensures CollapseRuns(x + w + y) == CollapseRuns(x) + "-" + CollapseRuns(y)
  {
    SplitAt(x, w, y);
    assert x + w + y == x + (w + y);
  }

  lemma {:induction false} SplitAt(x: String, w: String, y: String)
    requires EndsSolid(x) && StartsSolid(y)
    requires w != [] && AllSpace(w)
    ensures CollapseRuns(x + (w + y)) == CollapseRuns(x) + "-" + CollapseRuns(y)
    decreases |x|
  {
    if x == [] {
      DropRunPrefix(w, y);
      LeadingRunCollapses(w + y);
      assert x + (w + y) == w + y;
    } else if IsSpace(x[0]) {
      DropRunKeepsSolidEnd(x);
      SplitAt(DropRun(x), w, y);
      SplitAfterLeadingRun(x, w + y, CollapseRuns(y));
    } else {
      SplitAt(x[1..], w, y);
      SplitAfterSolidChar(x, w + y, CollapseRuns(y));
    }
  }

  lemma {:induction false} SplitAfterLeadingRun(x: String, t: String, cy: String)
    requires x != [] && IsSpace(x[0]) && DropRun(x) != []
    requires CollapseRuns(DropRun(x) + t) == CollapseRuns(DropRun(x)) + "-" + cy
    ensures CollapseRuns(x + t) == CollapseRuns(x) + "-" + cy
  {
    var c := CollapseRuns(DropRun(x));
    assert (x + t)[0] == x[0];
    LeadingRunCollapses(x + t);
    DropRunAppend(x, t);
    LeadingRunCollapses(x);
    assert "-" + (c + "-" + cy) == ("-" + c) + "-" + cy;
  }

  lemma {:induction false} SplitAfterSolidChar(x: String, t: String, cy: String)
    requires x != [] && !IsSpace(x[0])
    requires CollapseRuns(x[1..] + t) == CollapseRuns(x[1..]) + "-" + cy
    ensures CollapseRuns(x + t) == CollapseRuns(x) + "-" + cy
  {
    var c := CollapseRuns(x[1..]);
    TailSplice(x, t);
    SolidHeadCollapses(x);
    assert [x[0]] + (c + "-" + cy) == ([x[0]] + c) + "-" + cy;
  }

  lemma LeadingRunCollapses(s: String)
    requires s != [] && IsSpace(s[0])
    ensures CollapseRuns(s) == "-" + CollapseRuns(DropRun(s))
  {
  }

  lemma SolidHeadCollapses(x: String)
    requires x != [] && !IsSpace(x[0])
    ensures CollapseRuns(x) == [x[0]] + CollapseRuns(x[1..])
  {
  }

  lemma {:induction false} TailSplice(x: String, t: String)
    requires x != [] && !IsSpace(x[0])
    ensures CollapseRuns(x + t) == [x[0]] + CollapseRuns(x[1..] + t)
  {
    assert (x + t)[0] == x[0];
    assert (x + t)[1..] == x[1..] + t;
  }

  /** A string that ends solid keeps a non-empty, solid-ended rest. */
  lemma {:induction false} DropRunKeepsSolidEnd(x: String)
    requires x != [] && EndsSolid(x)
    ensures DropRun(x) != [] && EndsSolid(DropRun(x))
    decreases |x|
  {
    if IsSpace(x[0]) {
      assert x[1..][|x| - 2] == x[|x| - 1];
      DropRunKeepsSolidEnd(x[1..]);
    }
  }

  /** Text appended after a non-blank string does not change its leading run. */
  lemma {:induction false} DropRunAppend(x: String, t: String)
    requires DropRun(x) != []
    ensures DropRun(x + t) == DropRun(x) + t
    decreases |x|
  {
    if IsSpace(x[0]) {
      assert (x + t)[1..] == x[1..] + t;
      DropRunAppend(x[1..], t);
    }
  }

  /** Dropping a whitespace run `w` in front of text that starts solid. */
  lemma DropRunPrefix(w: String, y: String)
    requires AllSpace(w)
    requires StartsSolid(y)
    ensures DropRun(w + y) == y
    decreases |w|
  {
    if w != [] {
      assert (w + y)[1..] == w[1..] + y;
      DropRunPrefix(w[1..], y);
    }
  }

  /** A slug is its own slug. */
  lemma SlugifyIdempotent(title: String)
    ensures Slugify(Slugify(title)) == Slugify(title)
  {
    var r := Slugify(title);
    assert Lower(r) == r;
    CollapseRunsNoSpace(r);
  }
}
