/**
 * The export helpers of lib/export-utils.ts: the stand-alone HTML page, the JSON export's
 * sections, metadata and statistics, the deployment file set and the sitemap.
 */
module ExportUtils {
  import opened Wrappers
  import opened Text

  datatype ExportFormat = Html | Markdown | Json

  datatype Theme = Light | Dark

  datatype ExportOptions = ExportOptions(
    format: ExportFormat,
    includeStyles: Option<bool>,
    includeScripts: Option<bool>,
    theme: Option<Theme>,
    title: Option<string>,
    description: Option<string>)

  /** The default argument `{ format: 'html' }`. */
  const DefaultOptions: ExportOptions := ExportOptions(Html, None, None, None, None, None)

  // ---------------------------------------------------------------------------------------------
  // generateHTMLDocument

  /** A theme-dependent CSS value: `theme === 'dark' ? dark : light`. */
  datatype ThemedValue = ThemedValue(dark: string, light: string)

  /** The stylesheet's text around its theme-dependent values, in document order. */
  const StyleText: seq<string> := [
    @"
    <style>
      body {
        font-family: -apple-system, BlinkMacSystemFont, 'Segoe UI', Roboto, sans-serif;
        line-height: 1.6;
        color: ",
    @";
        background: ",
    @";
        max-width: 800px;
        margin: 0 auto;
        padding: 2rem;
      }
      
      h1, h2, h3, h4, h5, h6 {
        color: ",
    @";
        margin-top: 2rem;
        margin-bottom: 1rem;
      }
      
      h1 { font-size: 2.5rem; border-bottom: 2px solid #007acc; padding-bottom: 0.5rem; }
      h2 { font-size: 2rem; border-bottom: 1px solid #007acc; padding-bottom: 0.3rem; }
      h3 { font-size: 1.5rem; }
      
      code {
        background: ",
    @";
        padding: 0.2rem 0.4rem;
        border-radius: 3px;
        font-family: 'Monaco', 'Menlo', 'Ubuntu Mono', monospace;
        font-size: 0.9em;
      }
      
      pre {
        background: ",
    @";
        padding: 1rem;
        border-radius: 6px;
        overflow-x: auto;
        border: 1px solid ",
    @";
      }
      
      pre code {
        background: none;
        padding: 0;
      }
      
      blockquote {
        border-left: 4px solid #007acc;
        margin: 1rem 0;
        padding-left: 1rem;
        color: ",
    @";
      }
      
      table {
        border-collapse: collapse;
        width: 100%;
        margin: 1rem 0;
      }
      
      th, td {
        border: 1px solid ",
    @";
        padding: 0.5rem;
        text-align: left;
      }
      
      th {
        background: ",
    @";
        font-weight: bold;
      }
      
      ul, ol {
        padding-left: 2rem;
      }
      
      li {
        margin: 0.5rem 0;
      }
      
      a {
        color: #007acc;
        text-decoration: none;
      }
      
      a:hover {
        text-decoration: underline;
      }
      
      .toc {
        background: ",
    @";
        padding: 1rem;
        border-radius: 6px;
        margin: 1rem 0;
        border: 1px solid ",
    @";
      }
      
      .toc ul {
        list-style: none;
        padding-left: 0;
      }
      
      .toc li {
        margin: 0.25rem 0;
      }
      
      .toc a {
        color: ",
    @";
      }
      
      @media print {
        body { max-width: none; }
        pre { white-space: pre-wrap; }
      }
    </style>
  "
  ]

  /** The stylesheet's theme-dependent values, in document order. */
  const ThemedValues: seq<ThemedValue> := [
    ThemedValue("#e5e5e5", "#333"),
    ThemedValue("#1a1a1a", "#ffffff"),
    ThemedValue("#ffffff", "#000000"),
    ThemedValue("#2d2d2d", "#f5f5f5"),
    ThemedValue("#2d2d2d", "#f5f5f5"),
    ThemedValue("#404040", "#e0e0e0"),
    ThemedValue("#b0b0b0", "#666"),
    ThemedValue("#404040", "#ddd"),
    ThemedValue("#2d2d2d", "#f5f5f5"),
    ThemedValue("#2d2d2d", "#f9f9f9"),
    ThemedValue("#404040", "#e0e0e0"),
    ThemedValue("#e5e5e5", "#333")
  ]

  function Pick(theme: Theme, v: ThemedValue): string
  {
    if theme == Dark then v.dark else v.light
  }

  /** The fixed pieces with the theme's values filled in between them. */
  function Interleave(theme: Theme, pieces: seq<string>, values: seq<ThemedValue>): string
    requires |pieces| == |values| + 1
  {
    if values == [] then pieces[0]
    else pieces[0] + Pick(theme, values[0]) + Interleave(theme, pieces[1..], values[1..])
  }

  /** The `<style>` block for a theme. */
  function Styles(theme: Theme): string
  {
    Interleave(theme, StyleText, ThemedValues)
  }

  /** The `<script>` block: smooth scrolling for anchor links and a copy button on each code block.
      It takes no input. */
  const Scripts: string := @"
    <script>
      // Add smooth scrolling for anchor links
      document.querySelectorAll('a[href^=""#""]').forEach(anchor => {
        anchor.addEventListener('click', function (e) {
          e.preventDefault();
          const target = document.querySelector(this.getAttribute('href'));
          if (target) {
            target.scrollIntoView({
              behavior: 'smooth',
              block: 'start'
            });
          }
        });
      });
      
      // Add copy button to code blocks
      document.querySelectorAll('pre').forEach(block => {
        const button = document.createElement('button');
        button.textContent = 'Copy';
        button.style.cssText = `
          position: absolute;
          top: 0.5rem;
          right: 0.5rem;
          background: #007acc;
          color: white;
          border: none;
          padding: 0.25rem 0.5rem;
          border-radius: 3px;
          cursor: pointer;
          font-size: 0.8rem;
        `;
        
        block.style.position = 'relative';
        block.appendChild(button);
        
        button.addEventListener('click', () => {
          const code = block.querySelector('code');
          if (code) {
            navigator.clipboard.writeText(code.textContent || '');
            button.textContent = 'Copied!';
            setTimeout(() => {
              button.textContent = 'Copy';
            }, 2000);
          }
        });
      });
    </script>
  "

  /** `const { title = 'Documentation', description = '', theme = 'light' } = options` */
  function TitleOf(options: ExportOptions): string
  {
    options.title.GetOr("Documentation")
  }

  function DescriptionOf(options: ExportOptions): string
  {
    options.description.GetOr("")
  }

  function ThemeOf(options: ExportOptions): Theme
  {
    options.theme.GetOr(Light)
  }

  const DocType: string := "<!DOCTYPE html>"

  /** The page from the doctype up to the title element. */
  const HtmlOpen: string :=
    "\n<html lang=\"en\">\n<head>\n  <meta charset=\"UTF-8\">\n"
    + "  <meta name=\"viewport\" content=\"width=device-width, initial-scale=1.0\">\n  "

  function TitleElement(options: ExportOptions): string
  {
    "<title>" + TitleOf(options) + "</title>"
  }

  /** The rest of the head, from the description to the opening of the content's `div`. */
  function HeadRest(options: ExportOptions): string
  {
    "\n  <meta name=\"description\" content=\"" + DescriptionOf(options) + "\">\n"
    + "  " + Styles(ThemeOf(options)) + "\n</head>\n<body>\n  <div class=\"markdown-content\">\n    "
  }

  /** Everything the page holds before the content. */
  function PageHead(options: ExportOptions): string
  {
    DocType + HtmlOpen + TitleElement(options) + HeadRest(options)
  }

  const PageTail: string := "\n  </div>\n  " + Scripts + "\n</body>\n</html>"

  /** `generateHTMLDocument(content, options)` */
  function HtmlDocument(content: string, options: ExportOptions): (r: string)
    ensures |r| == |PageHead(options)| + |content| + |PageTail|
    ensures StartsWith(r, PageHead(options))
    ensures r[|r| - |PageTail|..] == PageTail
  {
    Frame(PageHead(options), content, PageTail);
    PageHead(options) + content + PageTail
  }

  lemma Frame(a: string, x: string, b: string)
    ensures StartsWith(a + x + b, a) && (a + x + b)[|a + x + b| - |b|..] == b
  {
    assert (a + x + b)[..|a|] == a;
    assert (a + x + b)[|a + x + b| - |b|..] == b;
  }

  lemma Infix(a: string, x: string, b: string)
    ensures OccursAt(a + x + b, x, |a|)
  {
    assert (a + x + b)[|a|..|a| + |x|] == x;
  }

  lemma InfixNested(a: string, b: string, x: string, c: string, d: string, e: string)
    ensures OccursAt(a + b + x + c + d + e, x, |a| + |b|) && StartsWith(a + b + x + c + d + e, a)
  {
    var s := a + b + x + c + d + e;
    assert s[|a| + |b|..|a| + |b| + |x|] == x;
    assert s[..|a|] == a;
  }

  lemma Cancel(a: string, x: string, y: string, b: string)
    requires a + x + b == a + y + b
    ensures x == y
  {
    assert |x| == |y|;
    assert x == (a + x + b)[|a|..|a| + |x|];
    assert y == (a + y + b)[|a|..|a| + |y|];
  }

  /** The content is placed verbatim, without escaping, right after the page head, and the page
      starts with the doctype. */
  lemma HtmlEmbedsContent(content: string, options: ExportOptions)
    ensures OccursAt(HtmlDocument(content, options), content, |PageHead(options)|)
    ensures StartsWith(HtmlDocument(content, options), DocType)
  {
    Infix(PageHead(options), content, PageTail);
    InfixNested(DocType, HtmlOpen, TitleElement(options), HeadRest(options), content, PageTail);
  }

  /** Two different contents never give the same page: nothing of the content is dropped. */
  lemma HtmlContentInjective(c1: string, c2: string, options: ExportOptions)
    requires HtmlDocument(c1, options) == HtmlDocument(c2, options)
    ensures c1 == c2
  {
    Cancel(PageHead(options), c1, c2, PageTail);
  }

  /** The title element holds the title verbatim, "Documentation" when none is given. */
  lemma HtmlTitle(content: string, options: ExportOptions)
    ensures OccursAt(HtmlDocument(content, options), TitleElement(options), |DocType| + |HtmlOpen|)
    ensures options.title.None? ==> TitleOf(options) == "Documentation"
  {
    InfixNested(DocType, HtmlOpen, TitleElement(options), HeadRest(options), content, PageTail);
  }

  /** Only `'dark'` selects the dark palette; an absent theme is the light one. */
  lemma ThemeDefault(options: ExportOptions)
    ensures options.theme.None? ==> Styles(ThemeOf(options)) == Styles(Light)
    ensures forall i :: 0 <= i < |ThemedValues| ==>
      Pick(ThemeOf(options), ThemedValues[i]) == (if options.theme == Some(Dark) then ThemedValues[i].dark else ThemedValues[i].light)
  {
  }

  // ---------------------------------------------------------------------------------------------
  // exportToJSON

  datatype SectionKind = H1 | H2 | H3 | Plain

  datatype ExportSection = ExportSection(title: string, body: string, kind: SectionKind)

  datatype Stats = Stats(wordCount: nat, sectionCount: nat, characterCount: nat)

  /** The exported value before `JSON.stringify`. */
  datatype ExportData = ExportData(metadata: map<string, string>, content: seq<ExportSection>, stats: Stats)

  /** `parts.filter(section => section.trim())`: the pieces that are not blank, in order. */
  function NonBlank(parts: seq<string>): (r: seq<string>)
    ensures |r| <= |parts|
  {
    if parts == [] then []
    else (if IsBlank(parts[0]) then [] else [parts[0]]) + NonBlank(parts[1..])
  }

  /** `a` is `b` with some elements left out, the rest kept in their order. */
  ghost predicate Subsequence<T>(a: seq<T>, b: seq<T>)
    decreases |b|
  {
    if a == [] then true
    else if b == [] then false
    else (a[0] == b[0] && Subsequence(a[1..], b[1..])) || Subsequence(a, b[1..])
  }

  /** The filter keeps exactly the non-blank pieces, in their order. */
  lemma {:induction false} NonBlankSpec(parts: seq<string>)
    ensures forall s :: s in NonBlank(parts) <==> s in parts && !IsBlank(s)
    ensures Subsequence(NonBlank(parts), parts)
  {
    if parts != [] {
      NonBlankSpec(parts[1..]);
      var r := NonBlank(parts);
      if IsBlank(parts[0]) {
        assert r == NonBlank(parts[1..]);
      } else {
        assert r == [parts[0]] + NonBlank(parts[1..]);
        assert r[1..] == NonBlank(parts[1..]);
      }
      forall s | s in parts && !IsBlank(s)
        ensures s in r
      {
        if s != parts[0] {
          assert s in parts[1..];
        }
      }
    }
  }

  /** The end of the run of `#` starting at `i`. */
  function HashEnd(s: string, i: nat): (r: nat)
    requires i <= |s|
    ensures i <= r <= |s|
    ensures forall j :: i <= j < r ==> s[j] == '#'
    ensures r == |s| || s[r] != '#'
    decreases |s| - i
  {
    if i < |s| && s[i] == '#' then HashEnd(s, i + 1) else i
  }

  // `line.replace(/^#+\s*/, '')` on a line that starts with `#`: the text after the leading run of
  // `#` and the whitespace that follows it.
  function HeadingText(line: string): (title: string)
    requires StartsWith(line, "#")
    ensures |title| < |line| && title == line[|line| - |title|..]
    ensures forall j :: 0 <= j < HashEnd(line, 0) ==> line[j] == '#'
    ensures forall j :: HashEnd(line, 0) <= j < |line| - |title| ==> IsSpace(line[j])
    ensures title == [] || !IsSpace(title[0])
  {
    assert line[0] == '#';
    line[SkipSpaces(line, HashEnd(line, 0))..]
  }

  /** The section kind from the first line's prefix. */
  function KindOf(first: string): SectionKind
  {
    if StartsWith(first, "# ") then H1
    else if StartsWith(first, "## ") then H2
    else if StartsWith(first, "### ") then H3
    else Plain
  }

  /** The prefixes are exclusive, so each kind is chosen exactly when its own prefix is present. */
  lemma KindIff(first: string)
    ensures KindOf(first) == H1 <==> StartsWith(first, "# ")
    ensures KindOf(first) == H2 <==> StartsWith(first, "## ")
    ensures KindOf(first) == H3 <==> StartsWith(first, "### ")
    ensures KindOf(first) == Plain <==>
      !StartsWith(first, "# ") && !StartsWith(first, "## ") && !StartsWith(first, "### ")
  {
    if StartsWith(first, "## ") || StartsWith(first, "### ") {
      assert first[1] == '#';
      assert !StartsWith(first, "# ");
    }
    if StartsWith(first, "### ") {
      assert first[2] == '#';
      assert !StartsWith(first, "## ");
    }
  }

  /** One exported section: title from a `#` first line, body from the rest, kind from the prefix. */
  function ExportSectionOf(section: string): (r: ExportSection)
    ensures var first := Split(section, "\n")[0];
      && (StartsWith(first, "#") ==> r.title == HeadingText(first))
      && (!StartsWith(first, "#") ==> r.title == "")
      && r.kind == KindOf(first)
      && (|Split(section, "\n")| == 1 ==> first == section && r.body == [])
      && (|Split(section, "\n")| > 1 ==> StartsWith(section, first + "\n") && r.body == Trim(section[|first| + 1..]))
  {
    SectionLines(section);
    var lines := Split(section, "\n");
    var first := lines[0];
    var title := if StartsWith(first, "#") then HeadingText(first) else "";
    var body := Trim(Join(lines[1..], "\n"));
    ExportSection(title, body, KindOf(first))
  }

  /** The first line of a section is what precedes its first newline, and the remaining lines
      joined again are the text after that newline. */
  lemma SectionLines(section: string)
    ensures var lines := Split(section, "\n");
      && (|lines| == 1 ==> lines[0] == section)
      && (|lines| > 1 ==> StartsWith(section, lines[0] + "\n")
                          && Join(lines[1..], "\n") == section[|lines[0]| + 1..])
  {
    FindSpec(section, "\n", 0);
    match Find(section, "\n", 0)
    case None =>
    case Some(i) =>
      JoinSplit(section[i + 1..], "\n");
      assert section[..i + 1] == section[..i] + "\n";
  }

  /** The pieces of the content between blank-line separators that are kept as sections. */
  function ExportPieces(content: string): seq<string>
  {
    NonBlank(Split(content, "\n\n"))
  }

  /** The default metadata that the caller's own keys then override. */
  function DefaultMetadata(metadata: map<string, string>, now: string): map<string, string>
  {
    map["title" := OrDefault(metadata, "title", "Documentation"),
        "description" := OrDefault(metadata, "description", ""),
        "version" := OrDefault(metadata, "version", "1.0.0"),
        "lastUpdated" := now]
  }

  /** `metadata.key || fallback` */
  function OrDefault(metadata: map<string, string>, key: string, fallback: string): string
  {
    if key in metadata && metadata[key] != [] then metadata[key] else fallback
  }

  /** `exportToJSON(content, metadata)` before serialisation; `now` is `new Date().toISOString()`. */
  function ExportToJson(content: string, metadata: map<string, string>, now: string): (r: ExportData)
    ensures r.stats.sectionCount == |r.content| == |ExportPieces(content)|
    ensures r.stats.characterCount == |content|
    ensures r.stats.wordCount == |SplitWs(content)|
    ensures forall i :: 0 <= i < |r.content| ==> r.content[i] == ExportSectionOf(ExportPieces(content)[i])
    ensures r.metadata.Keys == metadata.Keys + {"title", "description", "version", "lastUpdated"}
    ensures forall key :: key in metadata ==> r.metadata[key] == metadata[key]
  {
    var pieces := ExportPieces(content);
    var sections := seq(|pieces|, i requires 0 <= i < |pieces| => ExportSectionOf(pieces[i]));
    ExportData(DefaultMetadata(metadata, now) + metadata, sections,
               Stats(|SplitWs(content)|, |pieces|, |content|))
  }

  /** The word count splits the untrimmed content on runs of whitespace: an empty document counts
      one word, and leading whitespace adds an empty piece. */
  lemma WordCountUntrimmed(metadata: map<string, string>, now: string)
    ensures ExportToJson("", metadata, now).stats.wordCount == 1
    ensures ExportToJson(" docs", metadata, now).stats.wordCount == 2
  {
    assert SplitWs(" docs") == [""] + SplitWs("docs");
    assert SplitWs("docs") == ["docs"];
  }

  /** Keys the caller leaves out take their defaults; a key the caller gives, even an empty one, is
      kept as given, so the `||` fallbacks never show through. */
  lemma MetadataDefaults(content: string, metadata: map<string, string>, now: string)
    ensures var m := ExportToJson(content, metadata, now).metadata;
      && ("title" !in metadata ==> m["title"] == "Documentation")
      && ("description" !in metadata ==> m["description"] == "")
      && ("version" !in metadata ==> m["version"] == "1.0.0")
      && ("lastUpdated" !in metadata ==> m["lastUpdated"] == now)
      && ("title" in metadata && metadata["title"] == [] ==> m["title"] == [])
  {
  }

  /** The sections are the non-blank pieces of the content, in order, and splitting lost nothing. */
  lemma ExportSectionsInOrder(content: string)
    ensures forall s :: s in ExportPieces(content) <==> s in Split(content, "\n\n") && !IsBlank(s)
    ensures Subsequence(ExportPieces(content), Split(content, "\n\n"))
    ensures Join(Split(content, "\n\n"), "\n\n") == content
  {
    NonBlankSpec(Split(content, "\n\n"));
    JoinSplit(content, "\n\n");
  }

  // ---------------------------------------------------------------------------------------------
  // generateDeploymentFiles

  const ReadmeText: string :=
    "# Documentation Site\n\nThis is an auto-generated documentation site.\n\n## Deployment\n\n"
    + "### Vercel\n1. Push to GitHub\n2. Connect repository to Vercel\n3. Deploy automatically\n\n"
    + "### Netlify\n1. Push to GitHub\n2. Connect repository to Netlify\n"
    + "3. Set build command: `echo \"Static site - no build needed\"`\n4. Set publish directory: `.`\n\n"
    + "### GitHub Pages\n1. Push to GitHub\n2. Go to repository settings\n3. Enable GitHub Pages\n"
    + "4. Select source branch\n\n## Customization\n\n"
    + "Edit the `index.html` file to customize styles and layout.\n"

  /** `JSON.stringify(packageJson, null, 2)` */
  const PackageJson: string :=
    "{\n  \"name\": \"documentation-site\",\n  \"version\": \"1.0.0\",\n"
    + "  \"description\": \"Auto-generated documentation site\",\n"
    + "  \"scripts\": {\n    \"start\": \"npx serve .\",\n    \"dev\": \"npx serve .\"\n  },\n"
    + "  \"dependencies\": {},\n  \"devDependencies\": {\n    \"serve\": \"^14.0.0\"\n  }\n}"

  /** `JSON.stringify(vercelJson, null, 2)` */
  const VercelJson: string :=
    "{\n  \"version\": 2,\n  \"builds\": [\n    {\n      \"src\": \"index.html\",\n"
    + "      \"use\": \"@vercel/static\"\n    }\n  ],\n  \"routes\": [\n    {\n"
    + "      \"src\": \"/(.*)\",\n      \"dest\": \"/index.html\"\n    }\n  ]\n}"

  /** The four files of a deployment, by name. */
  function FileSet(page: string, readme: string, package: string, vercel: string): (files: map<string, string>)
    ensures files.Keys == {"index.html", "README.md", "package.json", "vercel.json"}
    ensures files["index.html"] == page && files["README.md"] == readme
    ensures files["package.json"] == package && files["vercel.json"] == vercel
  {
    map["index.html" := page, "README.md" := readme, "package.json" := package, "vercel.json" := vercel]
  }

  /** `generateDeploymentFiles(content, options)` */
  function DeploymentFiles(content: string, options: ExportOptions): map<string, string>
  {
    FileSet(HtmlDocument(content, options), ReadmeText, PackageJson, VercelJson)
  }

  /** The deployment holds exactly four files: the page, which is the exported HTML document, and
      three fixed files that depend on neither the content nor the options. */
  lemma DeploymentFilesShape(content: string, options: ExportOptions)
    ensures DeploymentFiles(content, options).Keys == {"index.html", "README.md", "package.json", "vercel.json"}
    ensures DeploymentFiles(content, options)["index.html"] == HtmlDocument(content, options)
    ensures DeploymentFiles(content, options)["README.md"] == ReadmeText
    ensures DeploymentFiles(content, options)["package.json"] == PackageJson
    ensures DeploymentFiles(content, options)["vercel.json"] == VercelJson
  {
  }

  // ---------------------------------------------------------------------------------------------
  // generateSitemap

  const SitemapHead: string :=
    "<?xml version=\"1.0\" encoding=\"UTF-8\"?>\n<urlset xmlns=\"http://www.sitemaps.org/schemas/sitemap/0.9\">\n"

  function RootEntry(baseUrl: string): string
  {
    "  <url>\n    <loc>" + baseUrl + "</loc>\n    <changefreq>weekly</changefreq>\n"
    + "    <priority>1.0</priority>\n  </url>\n"
  }

  function SectionEntry(baseUrl: string, section: string): string
  {
    "  <url>\n    <loc>" + baseUrl + "#" + Anchor(section) + "</loc>\n    <changefreq>weekly</changefreq>\n"
    + "    <priority>0.8</priority>\n  </url>"
  }

  /** `generateSitemap(baseUrl, sections)` */
  function Sitemap(baseUrl: string, sections: seq<string>): string
  {
    var urls := seq(|sections|, i requires 0 <= i < |sections| => SectionEntry(baseUrl, sections[i]));
    SitemapHead + RootEntry(baseUrl) + Join(urls, "\n") + "\n</urlset>"
  }

  lemma Prefix2(a: string, b: string, c: string, d: string)
    ensures StartsWith(a + b + c + d, a + b)
  {
    assert (a + b + c + d)[..|a + b|] == a + b;
  }

  lemma PrefixThroughJoin(a: string, b: string, x: string, sep: string, rest: string, d: string)
    ensures StartsWith(a + b + (x + sep + rest) + d, a + b + x + sep)
  {
    assert (a + b + (x + sep + rest) + d)[..|a + b + x + sep|] == a + b + x + sep;
  }

  /** The base URL's own entry comes first, then one entry per section, in order. */
  lemma SitemapEntries(baseUrl: string, sections: seq<string>)
    ensures StartsWith(Sitemap(baseUrl, sections), SitemapHead + RootEntry(baseUrl))
    ensures sections == [] ==> Sitemap(baseUrl, sections) == SitemapHead + RootEntry(baseUrl) + "\n</urlset>"
    ensures |sections| == 1 ==>
      Sitemap(baseUrl, sections) == SitemapHead + RootEntry(baseUrl) + SectionEntry(baseUrl, sections[0]) + "\n</urlset>"
    ensures |sections| >= 2 ==>
      StartsWith(Sitemap(baseUrl, sections), SitemapHead + RootEntry(baseUrl) + SectionEntry(baseUrl, sections[0]) + "\n")
  {
    var urls := seq(|sections|, i requires 0 <= i < |sections| => SectionEntry(baseUrl, sections[i]));
    Prefix2(SitemapHead, RootEntry(baseUrl), Join(urls, "\n"), "\n</urlset>");
    if |sections| >= 2 {
      assert Join(urls, "\n") == urls[0] + "\n" + Join(urls[1..], "\n");
      PrefixThroughJoin(SitemapHead, RootEntry(baseUrl), urls[0], "\n", Join(urls[1..], "\n"), "\n</urlset>");
    }
  }

  /** Each section's link target is made only of `[a-z0-9-]`, without doubled dashes. */
  lemma SitemapAnchor(baseUrl: string, section: string)
    ensures var a := Anchor(section);
      && SectionEntry(baseUrl, section) == "  <url>\n    <loc>" + baseUrl + "#" + a + "</loc>\n    <changefreq>weekly</changefreq>\n"
                                           + "    <priority>0.8</priority>\n  </url>"
      && DashChars(a) && NoDoubleDash(a)
  {
    DashifyShape(ToLower(section));
  }
}
