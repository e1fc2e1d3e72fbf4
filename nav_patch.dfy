/** The navigation patch of `ensureNavLinks`: an existing `index.html` that
    does not yet link to the privacy page gets links to the three policy
    pages, inserted before the first `</nav>`, else as a new `<nav>` before the
    first `</header>`, else in a footer appended to the end. */
module NavPatch {
  import opened Wrappers
  import opened Strings
  import opened Shell

  /** A page that contains this text is taken to link to the policies already. */
  const Marker: String := "privacy.html"
  const NavClose: String := "</nav>"
  const HeaderClose: String := "</header>"

  /** The three policy links, in the order every patch inserts them. */
  function PolicyLinks(basePath: String): seq<String>
  {
    [PrivacyLink(basePath), TermsLink(basePath), ReturnsLink(basePath)]
  }

  /** The three link lines; `sep` ends the first two links inside the footer. */
  function LinkLines(basePath: String, sep: String): String
  {
    Line("  " + PrivacyLink(basePath) + sep) +
    Line("  " + TermsLink(basePath) + sep) +
    "  " + ReturnsLink(basePath)
  }

  /** What replaces the first `</nav>`: the three links, then the closing
      tag again, so the page keeps its `</nav>`. */
  function NavBlock(basePath: String): (r: String)
    ensures AppearInOrder(r, PolicyLinks(basePath))
    ensures |r| > |NavClose| && r[|r| - |NavClose|..] == NavClose
  {
    LinkLinesInOrder(basePath, "");
    FramedRight(LinkLines(basePath, ""), "\n", NavClose, PolicyLinks(basePath));
    LinkLines(basePath, "") + "\n" + NavClose
  }

  /** The opening of the navigation block the header branch inserts. */
  const NavOpen: String := "<nav style=\"margin-top:8px\">\n"

  /** What replaces the first `</header>` when there is no `</nav>`: a new
      navigation block holding the three links, then the closing tag again. */
  function HeaderBlock(basePath: String): (r: String)
    ensures AppearInOrder(r, PolicyLinks(basePath))
    ensures |r| > |NavOpen| + |HeaderClose| && r[..|NavOpen|] == NavOpen
    ensures r[|r| - |HeaderClose|..] == HeaderClose
  {
    LinkLinesInOrder(basePath, "");
    Framed(NavOpen, LinkLines(basePath, ""), "\n</nav>\n", HeaderClose, PolicyLinks(basePath));
    NavOpen + LinkLines(basePath, "") + "\n</nav>\n" + HeaderClose
  }

  /** The opening and the closing of the footer block. */
  const FooterOpen: String := "\n<footer style=\"padding:16px;text-align:center\">\n"
  const FooterClose: String := "</footer>\n"

  /** What is appended when the page has neither closing tag: a footer
      holding the three links, separated by middle dots. */
  function FooterBlock(basePath: String): (r: String)
    ensures AppearInOrder(r, PolicyLinks(basePath))
    ensures |r| > |FooterOpen| + |FooterClose| && r[..|FooterOpen|] == FooterOpen
    ensures r[|r| - |FooterClose|..] == FooterClose
  {
    LinkLinesInOrder(basePath, " \U{00B7} ");
    Framed(FooterOpen, LinkLines(basePath, " \U{00B7} "), "\n", FooterClose, PolicyLinks(basePath));
    FooterOpen + LinkLines(basePath, " \U{00B7} ") + "\n" + FooterClose
  }

  /** The patched page, or the page itself when it already links to the
      privacy page. A page without the marker always grows and afterwards
      shows the links to the privacy, terms and returns pages, in that order;
      every result contains the marker. `String.prototype.replace` would
      expand `$` patterns in the replacement text; a base path without `$`
      rules them out. */
  function PatchIndex(html: String, basePath: String): (r: String)
    requires '$' !in basePath
    ensures !Contains(html, Marker) ==> |r| > |html| && AppearInOrder(r, PolicyLinks(basePath))
    ensures Contains(r, Marker)
  {
    if Contains(html, Marker) then html
    else if Contains(html, NavClose) then
      var r := ReplaceFirst(html, NavClose, NavBlock(basePath));
      SpliceShowsLinks(html, NavClose, NavBlock(basePath), basePath);
      LinksShowMarker(r, basePath);
      r
    else if Contains(html, HeaderClose) then
      var r := ReplaceFirst(html, HeaderClose, HeaderBlock(basePath));
      SpliceShowsLinks(html, HeaderClose, HeaderBlock(basePath), basePath);
      LinksShowMarker(r, basePath);
      r
    else
      var r := html + FooterBlock(basePath);
      AppearInOrderWidened(html, FooterBlock(basePath), [], PolicyLinks(basePath));
      assert html + FooterBlock(basePath) + [] == r;
      LinksShowMarker(r, basePath);
      r
  }

  /** The report `ensureNavLinks` prints for each outcome. A failed write is
      caught by the same handler as a missing file, so it reports NotFound. */
  datatype Status = Updated | AlreadyLinked | NotFound

  /** `ensureNavLinks`: given the contents of `index.html` (None when the file
      cannot be read) and whether writing the file back succeeds, the
      contents it writes, if any, and the status it reports. */
  method EnsureNavLinks(index: Option<String>, basePath: String, writeSucceeds: bool)
    returns (written: Option<String>, status: Status)
    requires '$' !in basePath
    ensures index.None? ==> written.None? && status == NotFound
    ensures index.Some? && Contains(index.value, Marker) ==> written.None? && status == AlreadyLinked
    ensures index.Some? && !Contains(index.value, Marker) ==>
              written == Some(PatchIndex(index.value, basePath)) &&
              status == (if writeSucceeds then Updated else NotFound)
    ensures written.Some? ==> |written.value| > |index.value| && Contains(written.value, Marker)
  {
    match index {
      case None =>
        written, status := None, NotFound;
      case Some(text) =>
        var html := text;
        if !Contains(html, Marker) {
          if Contains(html, NavClose) {
            html := ReplaceFirst(html, NavClose, NavBlock(basePath));
          } else if Contains(html, HeaderClose) {
            html := ReplaceFirst(html, HeaderClose, HeaderBlock(basePath));
          } else {
            html := html + FooterBlock(basePath);
          }
          assert html == PatchIndex(text, basePath);
          written := Some(html);
          status := if writeSucceeds then Updated else NotFound;
        } else {
          written, status := None, AlreadyLinked;
        }
    }
  }

  /** A page that already mentions `privacy.html` is left exactly as it is. */
  lemma PatchLeavesLinkedPage(html: String, basePath: String, k: int)
    requires '$' !in basePath
    requires OccursAt(html, Marker, k)
    ensures PatchIndex(html, basePath) == html
  {
  }

  /** Without the marker, the links go in before the first `</nav>`, whether or
      not the page also has a `</header>`; the rest of the page is kept. */
  lemma PatchBeforeFirstNavClose(html: String, basePath: String, i: int)
    requires '$' !in basePath
    requires forall k :: !OccursAt(html, Marker, k)
    requires IsFirstOccurrence(html, NavClose, i)
    ensures PatchIndex(html, basePath) == html[..i] + NavBlock(basePath) + html[i + |NavClose|..]
  {
  }

  /** Without the marker and without `</nav>`, a new navigation block goes in
      before the first `</header>`; the rest of the page is kept. */
  lemma PatchBeforeFirstHeaderClose(html: String, basePath: String, i: int)
    requires '$' !in basePath
    requires forall k :: !OccursAt(html, Marker, k)
    requires forall k :: !OccursAt(html, NavClose, k)
    requires IsFirstOccurrence(html, HeaderClose, i)
    ensures PatchIndex(html, basePath) == html[..i] + HeaderBlock(basePath) + html[i + |HeaderClose|..]
  {
  }

  /** With none of the three texts, the page is kept as a prefix and exactly
      one footer block follows it. */
  lemma PatchAppendsFooter(html: String, basePath: String)
    requires '$' !in basePath
    requires forall k :: !OccursAt(html, Marker, k)
    requires forall k :: !OccursAt(html, NavClose, k)
    requires forall k :: !OccursAt(html, HeaderClose, k)
    ensures var r := PatchIndex(html, basePath);
            |r| == |html| + |FooterBlock(basePath)| && r[..|html|] == html && r[|html|..] == FooterBlock(basePath)
  {
  }

  /** Splicing a block that shows the links in order, in place of the first
      occurrence of a shorter pattern, makes the page grow and show them too. */
  lemma SpliceShowsLinks(html: String, pat: String, block: String, basePath: String)
    requires Contains(html, pat) && |block| > |pat|
    requires AppearInOrder(block, PolicyLinks(basePath))
    ensures |ReplaceFirst(html, pat, block)| > |html|
    ensures AppearInOrder(ReplaceFirst(html, pat, block), PolicyLinks(basePath))
  {
    var i := IndexOf(html, pat).value;
    AppearInOrderWidened(html[..i], block, html[i + |pat|..], PolicyLinks(basePath));
  }

  /** A page showing the policy links mentions `privacy.html`. */
  lemma LinksShowMarker(s: String, basePath: String)
    requires AppearInOrder(s, PolicyLinks(basePath))
    ensures Contains(s, Marker)
  {
    var ps := PolicyLinks(basePath);
    var i :| OccursAt(s, ps[0], i) && AppearInOrder(s[i + |ps[0]|..], ps[1..]);
    MarkerInPrivacyLink(basePath);
    OccursWithin(s, PrivacyLink(basePath), Marker, i, 10 + |basePath|);
  }

  /** Patching twice is the same as patching once. */
  lemma PatchIdempotent(html: String, basePath: String)
    requires '$' !in basePath
    ensures PatchIndex(PatchIndex(html, basePath), basePath) == PatchIndex(html, basePath)
  {
  }

  lemma MarkerInPrivacyLink(basePath: String)
    ensures OccursAt(PrivacyLink(basePath), Marker, 10 + |basePath|)
  {
    OccursIn("<a href=\"" + basePath + "/", Marker, "\">Privacy</a>");
    assert PrivacyLink(basePath) == "<a href=\"" + basePath + "/" + Marker + "\">Privacy</a>";
  }

  lemma LinkLinesInOrder(basePath: String, sep: String)
    ensures AppearInOrder(LinkLines(basePath, sep), PolicyLinks(basePath))
  {
    ThreeLines(PrivacyLink(basePath), TermsLink(basePath), ReturnsLink(basePath), sep);
  }

  /** The shape of the link lines, with the links left abstract. */
  lemma ThreeLines(p: String, t: String, r: String, sep: String)
    ensures AppearInOrder(Line("  " + p + sep) + Line("  " + t + sep) + "  " + r, [p, t, r])
  {
    AppearInOrderOne("  ", p, sep + "\n");
    assert "  " + p + (sep + "\n") == Line("  " + p + sep);
    AppearInOrderOne("  ", t, sep + "\n");
    assert "  " + t + (sep + "\n") == Line("  " + t + sep);
    AppearInOrderConcat(Line("  " + p + sep), Line("  " + t + sep), [p], [t]);
    assert [p] + [t] == [p, t];
    AppearInOrderOne("  ", r, []);
    assert "  " + r + [] == "  " + r;
    AppearInOrderConcat(Line("  " + p + sep) + Line("  " + t + sep), "  " + r, [p, t], [r]);
    assert [p, t] + [r] == [p, t, r];
    assert Line("  " + p + sep) + Line("  " + t + sep) + "  " + r
        == (Line("  " + p + sep) + Line("  " + t + sep)) + ("  " + r);
  }
}
