/** The string primitives the script relies on: `String.prototype.includes`,
    the first-occurrence search behind it, and `String.prototype.replace`
    called with a string pattern (which replaces only the first match).
    Strings are sequences of characters. */
module Strings {
  import opened Wrappers

  type String = seq<char>

  /** `pat` occurs in `s` starting at index `i`. */
  predicate OccursAt(s: String, pat: String, i: int)
  {
    0 <= i && i + |pat| <= |s| && s[i..i + |pat|] == pat
  }

  /** `i` is the first index at which `pat` occurs in `s`. */
  predicate IsFirstOccurrence(s: String, pat: String, i: int)
  {
    OccursAt(s, pat, i) && forall k :: 0 <= k < i ==> !OccursAt(s, pat, k)
  }

  /** The first index at or after `from` where `pat` occurs in `s`, if any. */
  function FindFrom(s: String, pat: String, from: nat): (r: Option<nat>)
    ensures r.Some? ==> from <= r.value && OccursAt(s, pat, r.value)
    ensures r.Some? ==> forall k :: from <= k < r.value ==> !OccursAt(s, pat, k)
    ensures r.None? ==> forall k :: from <= k ==> !OccursAt(s, pat, k)
    decreases |s| - from
  {
    if from + |pat| > |s| then None
    else if s[from..from + |pat|] == pat then Some(from)
    else FindFrom(s, pat, from + 1)
  }

  /** The first occurrence of `pat` in `s` (`String.prototype.indexOf`). */
  function IndexOf(s: String, pat: String): (r: Option<nat>)
    ensures r.Some? ==> IsFirstOccurrence(s, pat, r.value)
    ensures r.None? <==> forall k :: !OccursAt(s, pat, k)
  {
    FindFrom(s, pat, 0)
  }

  /** `String.prototype.includes`. */
  function Contains(s: String, pat: String): (b: bool)
    ensures b <==> exists k :: OccursAt(s, pat, k)
  {
    IndexOf(s, pat).Some?
  }

  /** `s.replace(pat, rep)` with a string pattern and a replacement free of
      special `$` patterns: only the first occurrence is replaced. */
  function ReplaceFirst(s: String, pat: String, rep: String): (r: String)
    ensures (forall k :: !OccursAt(s, pat, k)) ==> r == s
    ensures forall i :: IsFirstOccurrence(s, pat, i) ==>
              r == s[..i] + rep + s[i + |pat|..]
  {
    match IndexOf(s, pat)
    case None => s
    case Some(i) => s[..i] + rep + s[i + |pat|..]
  }

  /** The patterns of `ps` occur in `s` one after another, without overlap. */
  ghost predicate AppearInOrder(s: String, ps: seq<String>)
    decreases |ps|
  {
    ps == [] ||
    exists i :: OccursAt(s, ps[0], i) && AppearInOrder(s[i + |ps[0]|..], ps[1..])
  }

  lemma OccursIn(a: String, p: String, b: String)
    ensures OccursAt(a + p + b, p, |a|)
  {
    assert (a + p + b)[|a|..|a| + |p|] == p;
  }

  lemma OccursShifted(a: String, s: String, b: String, p: String, i: int)
    requires OccursAt(s, p, i)
    ensures OccursAt(a + s + b, p, |a| + i)
  {
    assert (a + s + b)[|a| + i..|a| + i + |p|] == s[i..i + |p|];
  }

  /** Text added before and after a string keeps patterns in order. */
  lemma {:induction false} AppearInOrderWidened(a: String, s: String, b: String, ps: seq<String>)
    requires AppearInOrder(s, ps)
    ensures AppearInOrder(a + s + b, ps)
    decreases |ps|
  {
    if ps != [] {
      var i :| OccursAt(s, ps[0], i) && AppearInOrder(s[i + |ps[0]|..], ps[1..]);
      var rest := s[i + |ps[0]|..];
      AppearInOrderWidened([], rest, b, ps[1..]);
      OccursShifted(a, s, b, ps[0], i);
      assert (a + s + b)[|a| + i + |ps[0]|..] == [] + rest + b;
    }
  }

  /** A pattern followed by text in which the rest appear in order. */
  lemma AppearInOrderCons(a: String, p: String, b: String, ps: seq<String>)
    requires AppearInOrder(b, ps)
    ensures AppearInOrder(a + p + b, [p] + ps)
  {
    OccursIn(a, p, b);
    assert (a + p + b)[|a| + |p|..] == b;
    assert ([p] + ps)[0] == p && ([p] + ps)[1..] == ps;
  }

  /** A string of its own appears, in order, in any text that contains it. */
  lemma AppearInOrderOne(a: String, p: String, b: String)
    ensures AppearInOrder(a + p + b, [p])
  {
    AppearInOrderCons(a, p, b, []);
    assert [p] + [] == [p];
  }

  /** Two texts, each holding its patterns in order, hold them all in order
      when put one after the other. */
  lemma {:induction false} AppearInOrderConcat(s: String, t: String, ps: seq<String>, qs: seq<String>)
    requires AppearInOrder(s, ps) && AppearInOrder(t, qs)
    ensures AppearInOrder(s + t, ps + qs)
    decreases |ps|
  {
    if ps == [] {
      AppearInOrderPrepend(s, t, qs);
      assert ps + qs == qs;
    } else {
      var i :| OccursAt(s, ps[0], i) && AppearInOrder(s[i + |ps[0]|..], ps[1..]);
      AppearInOrderConcat(s[i + |ps[0]|..], t, ps[1..], qs);
      ConcatStep(s, t, ps[0], i, ps[1..] + qs);
      assert [ps[0]] + (ps[1..] + qs) == ps + qs;
    }
  }

  /** Text put in front keeps patterns in order. */
  lemma AppearInOrderPrepend(s: String, t: String, qs: seq<String>)
    requires AppearInOrder(t, qs)
    ensures AppearInOrder(s + t, qs)
  {
    AppearInOrderWidened(s, t, [], qs);
    assert s + t + [] == s + t;
  }

  lemma ConcatStep(s: String, t: String, p: String, i: int, rs: seq<String>)
    requires OccursAt(s, p, i)
    requires AppearInOrder(s[i + |p|..] + t, rs)
    ensures AppearInOrder(s + t, [p] + rs)
  {
    OccursShifted([], s, t, p, i);
    assert [] + s + t == s + t;
    assert (s + t)[i + |p|..] == s[i + |p|..] + t;
    assert ([p] + rs)[0] == p && ([p] + rs)[1..] == rs;
  }

  /** Text appended at the end keeps patterns in order. */
  lemma AppearInOrderExtend(s: String, t: String, ps: seq<String>)
    requires AppearInOrder(s, ps)
    ensures AppearInOrder(s + t, ps)
  {
    AppearInOrderWidened([], s, t, ps);
    assert [] + s + t == s + t;
  }

  /** Appending a piece that holds one more pattern extends the order by it. */
  lemma AppearInOrderSnoc(s: String, a: String, p: String, b: String, ps: seq<String>)
    requires AppearInOrder(s, ps)
    ensures AppearInOrder(s + (a + p + b), ps + [p])
  {
    AppearInOrderOne(a, p, b);
    AppearInOrderConcat(s, a + p + b, ps, [p]);
  }

  /** An occurrence inside an occurrence. */
  lemma OccursWithin(s: String, p: String, q: String, i: int, j: int)
    requires OccursAt(s, p, i) && OccursAt(p, q, j)
    ensures OccursAt(s, q, i + j)
  {
    forall k | 0 <= k < |q|
      ensures s[i + j + k] == q[k]
    {
      assert q[k] == p[j + k] == s[i..i + |p|][j + k];
    }
    assert s[i + j..i + j + |q|] == q;
  }

  /** Text framed by an opening and a closing keeps its patterns in order,
      starts with the opening and ends with the closing. */
  lemma Framed(a: String, m: String, b: String, c: String, ps: seq<String>)
    requires AppearInOrder(m, ps)
    ensures AppearInOrder(a + m + b + c, ps)
    ensures (a + m + b + c)[..|a|] == a
    ensures (a + m + b + c)[|a + m + b + c| - |c|..] == c
  {
    AppearInOrderWidened(a, m, b + c, ps);
    assert a + m + (b + c) == a + m + b + c;
  }

  /** The same, without an opening. */
  lemma FramedRight(m: String, b: String, c: String, ps: seq<String>)
    requires AppearInOrder(m, ps)
    ensures AppearInOrder(m + b + c, ps)
    ensures (m + b + c)[|m + b + c| - |c|..] == c
  {
    Framed([], m, b, c, ps);
    assert [] + m + b + c == m + b + c;
  }
}
