/** The page shell `htmlShell(title, body)` that wraps every generated policy
    page: a fixed head with the title, description, canonical link and inline
    style, a four-link navigation bar, the title as heading followed by the
    body, a last-updated line and a copyright footer. The two dates the
    source computes from the clock are passed in as text. */
module Shell {
  import opened Strings
  import Slug

  /** The configuration fields the shell reads. */
  datatype SiteConfig = SiteConfig(
    brandName: String,
    storeUrl: String,
    themeBg: String,
    themeFg: String,
    basePath: String)

  /** One line of the template: its text and the line break after it. */
  function Line(s: String): String
  {
    s + "\n"
  }

  /** A link to `page` under the site's base path. */
  function Anchor(basePath: String, page: String, text: String): String
  {
    "<a href=\"" + basePath + "/" + page + "\">" + text + "</a>"
  }

  function HomeLink(basePath: String): String { Anchor(basePath, "", "Home") }
  function PrivacyLink(basePath: String): String { Anchor(basePath, "privacy.html", "Privacy") }
  function TermsLink(basePath: String): String { Anchor(basePath, "terms.html", "Terms") }
  function ReturnsLink(basePath: String): String { Anchor(basePath, "returns.html", "Returns") }

  /** The canonical address of a page: the store URL, the title's slug and `.html`. */
  function CanonicalHref(storeUrl: String, title: String): (r: String)
    ensures |r| == |storeUrl| + |Slug.Slugify(title)| + 5
    ensures r[..|storeUrl|] == storeUrl && r[|r| - 5..] == ".html"
    ensures r[|storeUrl|..|r| - 5] == Slug.Slugify(title)
    ensures Slug.NoSpace(r[|storeUrl|..|r| - 5]) && Slug.NoUpper(r[|storeUrl|..|r| - 5])
  {
    var r := storeUrl + Slug.Slugify(title) + ".html";
    assert r[|storeUrl|..|r| - 5] == Slug.Slugify(title);
    r
  }

  function TitleElement(title: String, brandName: String): String
  {
    "<title>" + title + " \U{00B7} " + brandName + "</title>"
  }

  function CanonicalLink(storeUrl: String, title: String): String
  {
    "<link rel=\"canonical\" href=\"" + CanonicalHref(storeUrl, title) + "\">"
  }

  function Heading(title: String): String
  {
    "<h1>" + title + "</h1>"
  }

  function HeadOpen(): String
  {
    Line("<!doctype html>") +
    Line("<html lang=\"en\">") +
    Line("<head>") +
    Line("  <meta charset=\"utf-8\" />") +
    Line("  <meta name=\"viewport\" content=\"width=device-width,initial-scale=1\" />")
  }

  function StyleBlock(themeBg: String, themeFg: String): String
  {
    Line("  <style>") +
    Line("    :root{--bg:" + themeBg + ";--fg:" + themeFg + ";--link:#0a66c2}") +
    Line("    html,body{margin:0;padding:0;background:var(--bg);color:var(--fg);font:16px/1.6 ui-sans-serif,system-ui,-apple-system,Segoe UI,Roboto,Helvetica,Arial}") +
    Line("    header,main,footer{max-width:920px;margin:0 auto;padding:24px}") +
    Line("    header a{color:var(--link);text-decoration:none;margin-right:12px}") +
    Line("    h1{font-size:28px;margin:8px 0 16px}") +
    Line("    h2{margin:24px 0 8px;font-size:20px}") +
    Line("    p,li{max-width:80ch}") +
    Line("    .muted{opacity:.7;font-size:14px}") +
    Line("    .card{background:#fff;border-radius:14px;box-shadow:0 6px 20px rgba(0,0,0,.08);padding:20px}") +
    Line("    a{color:var(--link)}") +
    Line("  </style>")
  }

  function ShellHead(cfg: SiteConfig, title: String): String
  {
    HeadOpen() +
    Line("  " + TitleElement(title, cfg.brandName)) +
    Line("  <meta name=\"description\" content=\"" + title + " for " + cfg.brandName + "\" />") +
    Line("  " + CanonicalLink(cfg.storeUrl, title)) +
    StyleBlock(cfg.themeBg, cfg.themeFg) +
    Line("</head>") +
    Line("<body>")
  }

  function ShellNav(basePath: String): String
  {
    Line("  <header>") +
    Line("    <nav>") +
    Line("      " + HomeLink(basePath)) +
    Line("      " + PrivacyLink(basePath)) +
    Line("      " + TermsLink(basePath)) +
    Line("      " + ReturnsLink(basePath)) +
    Line("    </nav>") +
    Line("  </header>")
  }

  /** The heading followed by the body, exactly as the body was given. */
  function HeadingAndBody(title: String, body: String): String
  {
    Heading(title) + "\n    " + body
  }

  function LastUpdated(lastUpdated: String): String
  {
    "<p class=\"muted\">Last updated: " + lastUpdated + "</p>"
  }

  function ShellMain(title: String, body: String, lastUpdated: String): String
  {
    Line("  <main class=\"card\">") +
    Line("    " + HeadingAndBody(title, body)) +
    Line("    " + LastUpdated(lastUpdated)) +
    Line("  </main>")
  }

  function ShellFooter(brandName: String, year: String): String
  {
    Line("  <footer>") +
    Line("    <p class=\"muted\">\U{00A9} " + year + " " + brandName + ". All rights reserved.</p>") +
    Line("  </footer>") +
    Line("</body>") +
    "</html>"
  }

  /** `htmlShell(title, body)`, with today's long date and year given as text.
      Every page shows, in this order: the title with the brand in the
      `<title>` element, the canonical link, the four navigation links Home,
      Privacy, Terms and Returns, the title as `<h1>` immediately followed by
      the body exactly as given, and the last-updated line. */
  function HtmlShell(cfg: SiteConfig, title: String, body: String, lastUpdated: String, year: String): (r: String)
    ensures AppearInOrder(r, HeadLandmarks(cfg, title) + NavLinks(cfg.basePath) + MainLandmarks(title, body, lastUpdated))
  {
    HeadOrder(cfg, title);
    NavOrder(cfg.basePath);
    MainOrder(title, body, lastUpdated);
    ThreePartsInOrder(ShellHead(cfg, title), ShellNav(cfg.basePath), ShellMain(title, body, lastUpdated),
      ShellFooter(cfg.brandName, year),
      HeadLandmarks(cfg, title), NavLinks(cfg.basePath), MainLandmarks(title, body, lastUpdated));
    ShellHead(cfg, title) + ShellNav(cfg.basePath) + ShellMain(title, body, lastUpdated) + ShellFooter(cfg.brandName, year)
  }

  /** What the head is built to show, in order. */
  function HeadLandmarks(cfg: SiteConfig, title: String): seq<String>
  {
    [TitleElement(title, cfg.brandName), CanonicalLink(cfg.storeUrl, title)]
  }

  /** The four links of the navigation bar, in order. */
  function NavLinks(basePath: String): seq<String>
  {
    [HomeLink(basePath), PrivacyLink(basePath), TermsLink(basePath), ReturnsLink(basePath)]
  }

  /** What the main card is built to show, in order. */
  function MainLandmarks(title: String, body: String, lastUpdated: String): seq<String>
  {
    [HeadingAndBody(title, body), LastUpdated(lastUpdated)]
  }

  /** The head shows the title element, then the canonical link. */
  lemma HeadOrder(cfg: SiteConfig, title: String)
    ensures AppearInOrder(ShellHead(cfg, title), HeadLandmarks(cfg, title))
  {
    TwoIndentedLines(HeadOpen(), TitleElement(title, cfg.brandName),
      Line("  <meta name=\"description\" content=\"" + title + " for " + cfg.brandName + "\" />"),
      CanonicalLink(cfg.storeUrl, title),
      StyleBlock(cfg.themeBg, cfg.themeFg), Line("</head>"), Line("<body>"));
  }

  /** The shape of the head, with its fixed text left abstract. */
  lemma TwoIndentedLines(h: String, t: String, d: String, c: String, x: String, y: String, z: String)
    ensures AppearInOrder(h + Line("  " + t) + d + Line("  " + c) + x + y + z, [t, c])
  {
    assert AppearInOrder(h, []);
    AppearInOrderSnoc(h, "  ", t, "\n", []);
    assert [] + [t] == [t];
    var s1 := h + Line("  " + t);
    AppearInOrderExtend(s1, d, [t]);
    AppearInOrderSnoc(s1 + d, "  ", c, "\n", [t]);
    assert [t] + [c] == [t, c];
    var s3 := s1 + d + Line("  " + c);
    AppearInOrderExtend(s3, x, [t, c]);
    AppearInOrderExtend(s3 + x, y, [t, c]);
    AppearInOrderExtend(s3 + x + y, z, [t, c]);
  }

  /** The navigation bar shows Home, Privacy, Terms and Returns, in that order. */
  lemma NavOrder(basePath: String)
    ensures AppearInOrder(ShellNav(basePath), NavLinks(basePath))
  {
    FourIndentedLines(Line("  <header>") + Line("    <nav>"), "      ",
      HomeLink(basePath), PrivacyLink(basePath), TermsLink(basePath), ReturnsLink(basePath),
      Line("    </nav>"), Line("  </header>"));
  }

  /** The shape of the navigation bar, with its fixed text left abstract. */
  lemma FourIndentedLines(h: String, ind: String, a: String, b: String, c: String, d: String, y: String, z: String)
    ensures AppearInOrder(h + Line(ind + a) + Line(ind + b) + Line(ind + c) + Line(ind + d) + y + z, [a, b, c, d])
  {
    assert AppearInOrder(h, []);
    AppearInOrderSnoc(h, ind, a, "\n", []);
    assert [] + [a] == [a];
    var s1 := h + Line(ind + a);
    AppearInOrderSnoc(s1, ind, b, "\n", [a]);
    assert [a] + [b] == [a, b];
    var s2 := s1 + Line(ind + b);
    AppearInOrderSnoc(s2, ind, c, "\n", [a, b]);
    assert [a, b] + [c] == [a, b, c];
    var s3 := s2 + Line(ind + c);
    AppearInOrderSnoc(s3, ind, d, "\n", [a, b, c]);
    assert [a, b, c] + [d] == [a, b, c, d];
    var s4 := s3 + Line(ind + d);
    AppearInOrderExtend(s4, y, [a, b, c, d]);
    AppearInOrderExtend(s4 + y, z, [a, b, c, d]);
  }

  /** The main card shows the heading with the body right after it, then the
      last-updated line. */
  lemma MainOrder(title: String, body: String, lastUpdated: String)
    ensures AppearInOrder(ShellMain(title, body, lastUpdated), MainLandmarks(title, body, lastUpdated))
  {
    var hb := HeadingAndBody(title, body);
    var lu := LastUpdated(lastUpdated);
    var s0 := Line("  <main class=\"card\">");
    assert AppearInOrder(s0, []);
    AppearInOrderSnoc(s0, "    ", hb, "\n", []);
    assert [] + [hb] == [hb];
    AppearInOrderSnoc(s0 + Line("    " + hb), "    ", lu, "\n", [hb]);
    assert [hb] + [lu] == [hb, lu];
    AppearInOrderExtend(s0 + Line("    " + hb) + Line("    " + lu), Line("  </main>"), [hb, lu]);
  }

  lemma ThreePartsInOrder(h: String, n: String, m: String, f: String, hs: seq<String>, ns: seq<String>, ms: seq<String>)
    requires AppearInOrder(h, hs) && AppearInOrder(n, ns) && AppearInOrder(m, ms)
    ensures AppearInOrder(h + n + m + f, hs + ns + ms)
  {
    AppearInOrderConcat(h, n, hs, ns);
    AppearInOrderConcat(h + n, m, hs + ns, ms);
    AppearInOrderExtend(h + n + m, f, hs + ns + ms);
  }
}
