# Policy page generator: navigation patch, slug and page shell

This project models the string logic of `scripts/generate-policies.mjs`, a
script that generates a store's privacy, terms and returns pages and then
makes sure the site's `index.html` links to them.

Three pieces are modelled:

- **Navigation patch** (`ensureNavLinks`). If the page already contains
  `privacy.html`, it is left alone. Otherwise the three policy links go in
  before the first `</nav>`. Failing that, a new `<nav>` block goes in before
  the first `</header>`. Failing that, a footer with the links is appended.
  `NavPatch.PatchIndex` is the patch as a pure function on the page text.
  `NavPatch.EnsureNavLinks` is the script's routine. It takes the file contents
  (`None` when the file cannot be read) and whether writing it back succeeds.
  It returns what it writes, if anything, with the status the script reports.
  A failed write is caught by the same handler as a missing file, so it is
  reported as not found.
- **Canonical slug** (the `canonical` link of the shell). The title is
  lower-cased and every maximal run of whitespace becomes one `-`.
- **Page shell** (`htmlShell`). It is a fixed template around the title and the
  body. The long date and the year are taken as text parameters.

Modules: `Wrappers` (Option), `Strings` (`includes`, first-occurrence search,
`replace` with a string pattern, ordered occurrence), `Slug`, `Shell` and
`NavPatch`.

## Model

| member | source | states |
|---|---|---|
| `Strings.FindFrom` | scripts/generate-policies.mjs:129-132 | the result is the first index at or after the start where the pattern occurs, or none when it occurs nowhere there |
| `Strings.IndexOf` | scripts/generate-policies.mjs:133-134 | a found index is the first occurrence; nothing is found exactly when the pattern occurs nowhere |
| `Strings.Contains` | scripts/generate-policies.mjs:129-140 | `includes` is true exactly when the pattern occurs at some index |
| `Strings.ReplaceFirst` | scripts/generate-policies.mjs:133-149 | `replace` with a string pattern splices the replacement in at the first occurrence only and keeps the text before and after it; without an occurrence the text is unchanged |
| `Slug.Lower` | scripts/generate-policies.mjs:23 | lower-casing keeps the length and maps each character through ASCII lower-casing |
| `Slug.CollapseRuns` | scripts/generate-policies.mjs:23 | the whitespace-run replacement never makes the text longer |
| `Slug.CollapseRunsClean` | scripts/generate-policies.mjs:23 | the replacement leaves no whitespace and adds no upper-case letter |
| `Slug.CollapseRunsNoSpace` | scripts/generate-policies.mjs:23 | text without whitespace is left unchanged |
| `Slug.CollapseRunsSplit` | scripts/generate-policies.mjs:23 | a maximal whitespace run becomes exactly one `-`, and the text on either side is replaced independently |
| `Slug.Slugify` | scripts/generate-policies.mjs:23 | a slug has no whitespace and no upper-case ASCII letter, and is no longer than the title |
| `Slug.SlugifyIdempotent` | scripts/generate-policies.mjs:23 | the slug of a slug is the slug itself |
| `Shell.CanonicalHref` | scripts/generate-policies.mjs:23 | the canonical address is the store URL, then exactly the slug of the title, then `.html`; the slug part has no whitespace and no upper case |
| `Shell.HeadOrder` | scripts/generate-policies.mjs:21-23 | the head shows `<title>` with the title and ` · brand`, then the canonical link |
| `Shell.NavOrder` | scripts/generate-policies.mjs:38-45 | the navigation bar has the Home, Privacy, Terms and Returns links, in that order |
| `Shell.MainOrder` | scripts/generate-policies.mjs:46-50 | the `<h1>` title is followed right away by the body exactly as given, then by the last-updated line |
| `Shell.HtmlShell` | scripts/generate-policies.mjs:16-55 | a page shows the title element, the canonical link, the four navigation links, the heading with the body, and the last-updated line, in that order |
| `NavPatch.NavBlock` | scripts/generate-policies.mjs:135-138 | the text put in place of `</nav>` shows the privacy, terms and returns links in that order and ends with `</nav>` again |
| `NavPatch.HeaderBlock` | scripts/generate-policies.mjs:143-148 | the text put in place of `</header>` opens a `<nav style="margin-top:8px">` block, shows the three links in order and ends with `</header>` again |
| `NavPatch.FooterBlock` | scripts/generate-policies.mjs:151-155 | the appended text opens the centred `<footer>`, shows the three links in order and ends with `</footer>` and a line break |
| `NavPatch.PatchIndex` | scripts/generate-policies.mjs:129-156 | a page without `privacy.html` always grows and then shows the privacy, terms and returns links in that order; every result contains `privacy.html` |
| `NavPatch.EnsureNavLinks` | scripts/generate-policies.mjs:124-165 | a missing file gives no write and NotFound; a page with the marker gives no write and AlreadyLinked; any other page is written patched, longer than before and containing the marker, reported as Updated if the write succeeds and as NotFound if it fails |
| `NavPatch.PatchLeavesLinkedPage` | scripts/generate-policies.mjs:129-130 | a page that contains `privacy.html` anywhere is returned unchanged |
| `NavPatch.PatchBeforeFirstNavClose` | scripts/generate-policies.mjs:132-139 | without the marker, the first `</nav>` is replaced by the three links and `</nav>`, whether or not `</header>` occurs; the rest of the page is kept |
| `NavPatch.PatchBeforeFirstHeaderClose` | scripts/generate-policies.mjs:140-149 | without the marker and without `</nav>`, the first `</header>` is replaced by a new `<nav style="margin-top:8px">` block and `</header>`; the rest is kept |
| `NavPatch.PatchAppendsFooter` | scripts/generate-policies.mjs:150-155 | with none of the three texts, the page is a prefix of the result and exactly one footer block follows it |
| `NavPatch.PatchIdempotent` | scripts/generate-policies.mjs:129-157 | patching a patched page changes nothing |

## Left out

- The call to the text-generation service and its output (lines 13 and 112-118) are not modelled. It is a network call, and the generated body is opaque. The shell takes the body as a parameter.
- File reads and writes, JSON parsing of the configuration and the API key from the environment are not modelled. `EnsureNavLinks` takes the file contents as an `Option` and returns what would be written. The configuration is the `Shell.SiteConfig` record, holding only the fields the shell and the patch read.
- The long US date and the year (lines 49 and 52) come from the clock and the locale library. They are text parameters of `Shell.HtmlShell`.
- The prompt texts (`baseInstructions`, `directives`), the console messages and the sequential loop over the directives (lines 58-110 and 167-169) are not modelled. The message choice is the `NavPatch.Status` result.
- NavPatch.EnsureNavLinks: of the errors the script's `try` block catches (lines 127-164), only a missing or unreadable file (`None`) and a failed write (`writeSucceeds` false) are modelled. Both are reported as not found, as the script does. The model does not say what a failed write leaves on disk.
- NavPatch.PatchIndex requires a base path without `$`. With such a base path, JavaScript's `replace` special patterns (`$&`, `` $` ``, `$'`, `$$`) cannot occur in the replacement text, so the replacement is literal. The model does not expand those patterns.
- Slug.Lower lowers only ASCII letters. `toLowerCase` also lowers non-ASCII letters, and the model leaves those unchanged.
- Slug.IsSpace covers only ASCII whitespace. The `\s` class also matches non-ASCII spaces such as U+00A0 and U+2028, which the model treats as ordinary characters.
- Strings are sequences of Unicode characters, whereas JavaScript strings are UTF-16 code units. This makes no difference to the searches here, because every pattern is ASCII.
- No HTML escaping happens in the source, and none is modelled. The title, the body and the configuration values go into the page verbatim.
