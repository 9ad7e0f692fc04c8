/**
 * The SEO file generator: the sitemap (Sitemaps protocol 0.9), robots.txt
 * (RFC 9309), and the run that writes the five generated files.
 *
 * The current time enters as its ISO-8601 text. The manifest, the
 * organisation's JSON-LD and the metadata template are fixed texts with no
 * logic; they are parameters here. The disk is a `Disk` object whose writes to
 * some paths fail with a message.
 */
module GenerateSeoFiles {
  import opened Wrappers
  import opened Strings
  import opened Seqs
  import opened FileTree

  const SiteUrl := "https://immagina.io"

  /** A configured page. The priority is the text a template literal prints for the number (`1.0` prints as `1`). */
  datatype Page = Page(url: string, priority: string, changefreq: string)

  const Pages: seq<Page> := [
    Page("/", "1", "monthly"),
    Page("/#about", "0.8", "monthly"),
    Page("/#services", "0.8", "monthly"),
    Page("/#work", "0.9", "weekly"),
    Page("/#contact", "0.7", "yearly")
  ]

  // ---------------------------------------------------------------------------
  // Sitemap

  const XmlDeclaration := @"<?xml version=""1.0"" encoding=""UTF-8""?>"
  /** The namespace of version 0.9 of the Sitemaps protocol. */
  const SitemapNamespace := "http://www.sitemaps.org/schemas/sitemap/0.9"
  const UrlsetOpen := @"<urlset xmlns=""" + SitemapNamespace + @""">"
  const UrlsetClose := "</urlset>"
  const UrlOpen := "  <url>"
  const UrlClose := "  </url>"

  /** `toISOString().split('T')[0]`: the date part of the timestamp. */
  function Lastmod(iso: string): (d: string)
    ensures 'T' !in d && StartsWith(iso, d)
  {
    BeforeFirst(iso, 'T')
  }

  /** The six lines of one page's `<url>` element. */
  function UrlLines(siteUrl: string, page: Page, lastmod: string): (r: seq<string>)
    ensures |r| == 6 && r[0] == UrlOpen && r[5] == UrlClose
    ensures r[1] == "    <loc>" + siteUrl + page.url + "</loc>"
    ensures r[2] == "    <lastmod>" + lastmod + "</lastmod>"
    ensures r[3] == "    <changefreq>" + page.changefreq + "</changefreq>"
    ensures r[4] == "    <priority>" + page.priority + "</priority>"
  {
    [UrlOpen,
     "    <loc>" + siteUrl + page.url + "</loc>",
     "    <lastmod>" + lastmod + "</lastmod>",
     "    <changefreq>" + page.changefreq + "</changefreq>",
     "    <priority>" + page.priority + "</priority>",
     UrlClose]
  }

  /** One `<url>` element: the template's six lines. */
  function UrlEntry(siteUrl: string, page: Page, lastmod: string): string {
    Join(UrlLines(siteUrl, page, lastmod), "\n")
  }

  /** `pages.map(...)`: one element per page, in order. */
  function Entries(siteUrl: string, pages: seq<Page>, lastmod: string): (r: seq<string>)
    ensures |r| == |pages|
  {
    if pages == [] then []
    else Entries(siteUrl, pages[..|pages| - 1], lastmod) + [UrlEntry(siteUrl, pages[|pages| - 1], lastmod)]
  }

  /** `generateSitemap`: the four-line template whose third line is the joined elements. */
  function Sitemap(siteUrl: string, pages: seq<Page>, iso: string): string {
    Join([XmlDeclaration, UrlsetOpen, Join(Entries(siteUrl, pages, Lastmod(iso)), "\n"), UrlsetClose], "\n")
  }

  /** The lines of all `<url>` elements: six per page, the `i`-th page's at `6 * i`. */
  function PageLines(siteUrl: string, pages: seq<Page>, lastmod: string): (r: seq<string>)
    ensures |r| == 6 * |pages|
    ensures forall j :: 0 <= j < |r| ==> r[j] == UrlLines(siteUrl, pages[j / 6], lastmod)[j % 6]
  {
    if pages == [] then []
    else
      var init := PageLines(siteUrl, pages[..|pages| - 1], lastmod);
      var r := init + UrlLines(siteUrl, pages[|pages| - 1], lastmod);
      assert forall j :: |init| <= j < |r| ==> j / 6 == |pages| - 1 && j % 6 == j - |init|;
      r
  }

  /** The sitemap line by line: the XML declaration, the `urlset` element and one `<url>` element per page. */
  function SitemapLines(siteUrl: string, pages: seq<Page>, lastmod: string): (r: seq<string>)
    ensures |r| == 6 * |pages| + 3
    ensures r[0] == XmlDeclaration && r[1] == UrlsetOpen && r[|r| - 1] == UrlsetClose
    ensures forall j :: 0 <= j < 6 * |pages| ==> r[j + 2] == UrlLines(siteUrl, pages[j / 6], lastmod)[j % 6]
  {
    [XmlDeclaration, UrlsetOpen] + PageLines(siteUrl, pages, lastmod) + [UrlsetClose]
  }

  lemma {:induction false} EntriesLines(siteUrl: string, pages: seq<Page>, lastmod: string)
    requires |pages| >= 1
    ensures Join(Entries(siteUrl, pages, lastmod), "\n") == Join(PageLines(siteUrl, pages, lastmod), "\n")
  {
    var last := pages[|pages| - 1];
    var init := pages[..|pages| - 1];
    if |pages| > 1 {
      EntriesLines(siteUrl, init, lastmod);
      JoinAppend(Entries(siteUrl, init, lastmod), [UrlEntry(siteUrl, last, lastmod)], "\n");
      JoinAppend(PageLines(siteUrl, init, lastmod), UrlLines(siteUrl, last, lastmod), "\n");
    } else {
      assert Entries(siteUrl, pages, lastmod) == [UrlEntry(siteUrl, last, lastmod)];
      assert PageLines(siteUrl, pages, lastmod) == UrlLines(siteUrl, last, lastmod);
    }
  }

  predicate OneLine(s: string) {
    '\n' !in s
  }

  predicate PageOneLine(p: Page) {
    OneLine(p.url) && OneLine(p.priority) && OneLine(p.changefreq)
  }

  /** The sitemap text is its lines joined by line breaks. */
  lemma SitemapIsLines(siteUrl: string, pages: seq<Page>, lastmod: string, iso: string)
    requires |pages| >= 1 && lastmod == Lastmod(iso)
    ensures Sitemap(siteUrl, pages, iso) == Join(SitemapLines(siteUrl, pages, lastmod), "\n")
  {
    var body := PageLines(siteUrl, pages, lastmod);
    var j := Join(Entries(siteUrl, pages, lastmod), "\n");
    EntriesLines(siteUrl, pages, lastmod);
    assert [XmlDeclaration, UrlsetOpen, j, UrlsetClose] == [XmlDeclaration, UrlsetOpen] + [j, UrlsetClose];
    JoinAppend([XmlDeclaration, UrlsetOpen], [j, UrlsetClose], "\n");
    assert SitemapLines(siteUrl, pages, lastmod) == [XmlDeclaration, UrlsetOpen] + (body + [UrlsetClose]);
    JoinAppend([XmlDeclaration, UrlsetOpen], body + [UrlsetClose], "\n");
    JoinAppend(body, [UrlsetClose], "\n");
    assert Join([j, UrlsetClose], "\n") == j + "\n" + UrlsetClose;
  }

  lemma UrlLinesOneLine(siteUrl: string, page: Page, lastmod: string)
    requires OneLine(siteUrl) && OneLine(lastmod) && PageOneLine(page)
    ensures forall k :: 0 <= k < 6 ==> OneLine(UrlLines(siteUrl, page, lastmod)[k])
  {
  }

  lemma {:induction false} PageLinesOneLine(siteUrl: string, pages: seq<Page>, lastmod: string)
    requires OneLine(siteUrl) && OneLine(lastmod)
    requires forall i :: 0 <= i < |pages| ==> PageOneLine(pages[i])
    ensures forall k :: 0 <= k < |PageLines(siteUrl, pages, lastmod)| ==> OneLine(PageLines(siteUrl, pages, lastmod)[k])
  {
    if pages != [] {
      var init := pages[..|pages| - 1];
      PageLinesOneLine(siteUrl, init, lastmod);
      UrlLinesOneLine(siteUrl, pages[|pages| - 1], lastmod);
      assert PageLines(siteUrl, pages, lastmod) == PageLines(siteUrl, init, lastmod) + UrlLines(siteUrl, pages[|pages| - 1], lastmod);
    }
  }

  lemma SitemapLinesOneLine(siteUrl: string, pages: seq<Page>, lastmod: string)
    requires OneLine(siteUrl) && OneLine(lastmod)
    requires forall i :: 0 <= i < |pages| ==> PageOneLine(pages[i])
    ensures forall k :: 0 <= k < |SitemapLines(siteUrl, pages, lastmod)| ==> OneLine(SitemapLines(siteUrl, pages, lastmod)[k])
  {
    PageLinesOneLine(siteUrl, pages, lastmod);
    DeclarationOneLine();
    UrlsetOneLine();
  }

  lemma DeclarationOneLine()
    ensures OneLine(XmlDeclaration)
  {
  }

  lemma NamespaceOneLine()
    ensures OneLine(SitemapNamespace)
  {
  }

  lemma UrlsetOneLine()
    ensures OneLine(UrlsetOpen) && OneLine(UrlsetClose)
  {
    NamespaceOneLine();
  }

  /**
   * The sitemap text splits into exactly its lines when no configured value
   * holds a line break: the declaration, the `urlset` element with the 0.9
   * namespace, and the six lines of each page's `<url>` element in configured
   * order.
   */
  lemma SitemapSplitsIntoLines(siteUrl: string, pages: seq<Page>, iso: string)
    requires |pages| >= 1
    requires OneLine(siteUrl) && OneLine(iso)
    requires forall i :: 0 <= i < |pages| ==> PageOneLine(pages[i])
    ensures Split(Sitemap(siteUrl, pages, iso), '\n') == SitemapLines(siteUrl, pages, Lastmod(iso))
  {
    var lastmod := Lastmod(iso);
    assert OneLine(lastmod) by {
      assert forall i :: 0 <= i < |lastmod| ==> lastmod[i] == iso[i];
    }
    SitemapIsLines(siteUrl, pages, lastmod, iso);
    SitemapLinesOneLine(siteUrl, pages, lastmod);
    SplitJoin(SitemapLines(siteUrl, pages, lastmod), '\n');
  }

  predicate IsUrlOpen(line: string) {
    line == UrlOpen
  }

  lemma {:induction false} UrlOpensInPageLines(siteUrl: string, pages: seq<Page>, lastmod: string)
    ensures |Filter(PageLines(siteUrl, pages, lastmod), IsUrlOpen)| == |pages|
  {
    if pages != [] {
      var init := pages[..|pages| - 1];
      var ls := UrlLines(siteUrl, pages[|pages| - 1], lastmod);
      UrlOpensInPageLines(siteUrl, init, lastmod);
      FilterAppend(PageLines(siteUrl, init, lastmod), ls, IsUrlOpen);
      UrlLinesOneOpen(siteUrl, pages[|pages| - 1], lastmod);
    }
  }

  /** Of a page's six lines only the first opens a `<url>` element. */
  lemma UrlLinesOneOpen(siteUrl: string, page: Page, lastmod: string)
    ensures Filter(UrlLines(siteUrl, page, lastmod), IsUrlOpen) == [UrlOpen]
  {
    var ls := UrlLines(siteUrl, page, lastmod);
    forall k | 1 <= k < 6 ensures !IsUrlOpen(ls[k]) {
      if k < 5 {
        assert ls[k][2] == ' ' && UrlOpen[2] == '<';
      } else {
        assert |ls[k]| != |UrlOpen|;
      }
    }
    assert ls == [ls[0]] + ls[1..];
    FilterAppend([ls[0]], ls[1..], IsUrlOpen);
    FilterNone(ls[1..], IsUrlOpen);
  }

  /** The sitemap holds exactly one `<url>` element per configured page. */
  lemma OneUrlElementPerPage(siteUrl: string, pages: seq<Page>, lastmod: string)
    ensures |Filter(SitemapLines(siteUrl, pages, lastmod), IsUrlOpen)| == |pages|
  {
    var body := PageLines(siteUrl, pages, lastmod);
    UrlOpensInPageLines(siteUrl, pages, lastmod);
    FilterAppend([XmlDeclaration, UrlsetOpen], body, IsUrlOpen);
    FilterAppend([XmlDeclaration, UrlsetOpen] + body, [UrlsetClose], IsUrlOpen);
    FilterNone([XmlDeclaration, UrlsetOpen], IsUrlOpen);
    FilterNone([UrlsetClose], IsUrlOpen);
  }

  // ---------------------------------------------------------------------------
  // robots.txt

  const RobotsHelp := " https://www.robotstxt.org/robotstxt.html"

  /** The lines of the `generateRobots` template. */
  function RobotsTemplate(siteUrl: string): seq<string> {
    ["#" + RobotsHelp,
     "User-agent: *",
     "Allow: /",
     "Disallow: /api/",
     "Disallow: /admin/",
     "",
     "Sitemap: " + siteUrl + "/sitemap.xml"]
  }

  function Robots(siteUrl: string): string {
    Join(RobotsTemplate(siteUrl), "\n")
  }

  /** The lines of a robots.txt file, after the record syntax of section 2.2 of RFC 9309. */
  datatype RobotsLine =
    | Comment(text: string)
    | Blank
    | UserAgent(agent: string)
    | Allow(allowed: string)
    | Disallow(disallowed: string)
    | SitemapAt(url: string)

  const UserAgentKey := "User-agent: "
  const AllowKey := "Allow: "
  const DisallowKey := "Disallow: "
  const SitemapKey := "Sitemap: "

  function Render(l: RobotsLine): string {
    match l
    case Comment(t) => "#" + t
    case Blank => ""
    case UserAgent(a) => UserAgentKey + a
    case Allow(p) => AllowKey + p
    case Disallow(p) => DisallowKey + p
    case SitemapAt(u) => SitemapKey + u
  }

  function RenderAll(ls: seq<RobotsLine>): (r: seq<string>)
    ensures |r| == |ls|
    ensures forall i :: 0 <= i < |ls| ==> r[i] == Render(ls[i])
  {
    if ls == [] then [] else [Render(ls[0])] + RenderAll(ls[1..])
  }

  /** Reading one line back; `None` for a line none of the forms above writes. */
  function ParseLine(s: string): Option<RobotsLine> {
    if s == [] then Some(Blank)
    else if s[0] == '#' then Some(Comment(s[1..]))
    else if StartsWith(s, UserAgentKey) then Some(UserAgent(s[|UserAgentKey|..]))
    else if StartsWith(s, AllowKey) then Some(Allow(s[|AllowKey|..]))
    else if StartsWith(s, DisallowKey) then Some(Disallow(s[|DisallowKey|..]))
    else if StartsWith(s, SitemapKey) then Some(SitemapAt(s[|SitemapKey|..]))
    else None
  }

  /** Every written line reads back as itself. */
  lemma ParseRender(l: RobotsLine)
    ensures ParseLine(Render(l)) == Some(l)
  {
    var s := Render(l);
    match l
    case Comment(t) =>
      assert s[1..] == t;
    case Blank =>
    case UserAgent(a) =>
      assert s[..|UserAgentKey|] == UserAgentKey && s[|UserAgentKey|..] == a;
    case Allow(p) =>
      assert s[0] == 'A' && s[1] == 'l';
      assert s[..|AllowKey|] == AllowKey && s[|AllowKey|..] == p;
    case Disallow(p) =>
      assert s[0] == 'D';
      assert s[..|DisallowKey|] == DisallowKey && s[|DisallowKey|..] == p;
    case SitemapAt(u) =>
      assert s[0] == 'S';
      assert s[..|SitemapKey|] == SitemapKey && s[|SitemapKey|..] == u;
  }

  function ParseLines(ss: seq<string>): Option<seq<RobotsLine>> {
    if ss == [] then Some([])
    else match (ParseLine(ss[0]), ParseLines(ss[1..]))
      case (Some(l), Some(rest)) => Some([l] + rest)
      case _ => None
  }

  /** Reading a robots.txt text line by line. */
  function ParseRobots(text: string): Option<seq<RobotsLine>> {
    ParseLines(Split(text, '\n'))
  }

  /** Lines that each read back as a record read back as those records, in order. */
  lemma {:induction false} ParseLinesEach(ss: seq<string>, ls: seq<RobotsLine>)
    requires |ss| == |ls| && forall i :: 0 <= i < |ss| ==> ParseLine(ss[i]) == Some(ls[i])
    ensures ParseLines(ss) == Some(ls)
  {
    if ss != [] {
      ParseLinesEach(ss[1..], ls[1..]);
      assert [ls[0]] + ls[1..] == ls;
    }
  }

  lemma ParseLinesRender(ls: seq<RobotsLine>)
    ensures ParseLines(RenderAll(ls)) == Some(ls)
  {
    var ss := RenderAll(ls);
    forall i | 0 <= i < |ss|
      ensures ParseLine(ss[i]) == Some(ls[i])
    {
      ParseRender(ls[i]);
    }
    ParseLinesEach(ss, ls);
  }

  /** The records of the generated file: one `*` group, then the sitemap. */
  function RobotsFile(siteUrl: string): seq<RobotsLine> {
    [Comment(RobotsHelp),
     UserAgent("*"),
     Allow("/"),
     Disallow("/api/"),
     Disallow("/admin/"),
     Blank,
     SitemapAt(siteUrl + "/sitemap.xml")]
  }

  lemma RobotsRendered(siteUrl: string)
    ensures RobotsTemplate(siteUrl) == RenderAll(RobotsFile(siteUrl))
  {
    var t := RobotsTemplate(siteUrl);
    var r := RenderAll(RobotsFile(siteUrl));
    GroupRendered(siteUrl);
    SitemapRecordRendered(siteUrl);
    assert forall k :: 0 <= k < 7 ==> t[k] == r[k];
  }

  lemma GroupRendered(siteUrl: string)
    ensures forall k :: 0 <= k < 6 ==> RobotsTemplate(siteUrl)[k] == Render(RobotsFile(siteUrl)[k])
  {
    AgentRendered();
    RulesRendered();
  }

  lemma AgentRendered()
    ensures Render(UserAgent("*")) == "User-agent: *"
  {
  }

  lemma RulesRendered()
    ensures Render(Allow("/")) == "Allow: /"
    ensures Render(Disallow("/api/")) == "Disallow: /api/"
    ensures Render(Disallow("/admin/")) == "Disallow: /admin/"
  {
  }

  lemma SitemapRecordRendered(siteUrl: string)
    ensures Render(SitemapAt(siteUrl + "/sitemap.xml")) == "Sitemap: " + siteUrl + "/sitemap.xml"
  {
  }

  lemma RobotsTemplateOneLine(siteUrl: string)
    requires OneLine(siteUrl)
    ensures forall k :: 0 <= k < |RobotsTemplate(siteUrl)| ==> OneLine(RobotsTemplate(siteUrl)[k])
  {
    var t := RobotsTemplate(siteUrl);
    HelpOneLine();
    GroupOneLine();
    assert OneLine(t[6]);
  }

  lemma HelpOneLine()
    ensures OneLine("#" + RobotsHelp)
  {
  }

  lemma GroupOneLine()
    ensures OneLine("User-agent: *") && OneLine("Allow: /") && OneLine("Disallow: /api/")
    ensures OneLine("Disallow: /admin/") && OneLine("")
  {
  }

  /**
   * The generated robots.txt reads back as one group for every user agent
   * (allow `/`, disallow `/api/` and `/admin/`) followed by a `Sitemap:`
   * record naming the site's `/sitemap.xml`.
   */
  lemma RobotsParses(siteUrl: string)
    requires OneLine(siteUrl)
    ensures ParseRobots(Robots(siteUrl)) == Some(RobotsFile(siteUrl))
  {
    var t := RobotsTemplate(siteUrl);
    RobotsTemplateOneLine(siteUrl);
    SplitJoin(t, '\n');
    RobotsRendered(siteUrl);
    ParseLinesRender(RobotsFile(siteUrl));
  }

  /** An allow or disallow rule of a group. */
  datatype Rule = Rule(allow: bool, path: string)

  /** The rule a line states, if any. */
  function RuleOf(l: RobotsLine): seq<Rule> {
    match l
    case Allow(p) => [Rule(true, p)]
    case Disallow(p) => [Rule(false, p)]
    case _ => []
  }

  /** The rules of the lines from `i` on, in order. */
  function RulesFrom(ls: seq<RobotsLine>, i: nat): seq<Rule>
    requires i <= |ls|
    decreases |ls| - i
  {
    if i == |ls| then [] else RuleOf(ls[i]) + RulesFrom(ls, i + 1)
  }

  /** The rules of a file with a single group, in order. */
  function Rules(ls: seq<RobotsLine>): seq<Rule> {
    RulesFrom(ls, 0)
  }

  predicate Matches(r: Rule, path: string) {
    StartsWith(path, r.path)
  }

  /** The length of the longest rule of the given kind that matches `path`, or -1 when none does. */
  function LongestMatch(rules: seq<Rule>, allow: bool, path: string): (n: int)
    ensures n >= -1
    ensures n == -1 <==> forall i :: 0 <= i < |rules| && rules[i].allow == allow ==> !Matches(rules[i], path)
    ensures forall i :: 0 <= i < |rules| && rules[i].allow == allow && Matches(rules[i], path) ==> |rules[i].path| <= n
    ensures n >= 0 ==> exists i :: 0 <= i < |rules| && rules[i].allow == allow && Matches(rules[i], path) && |rules[i].path| == n
  {
    if rules == [] then -1
    else
      var rest := LongestMatch(rules[1..], allow, path);
      assert forall i :: 1 <= i < |rules| ==> rules[i] == rules[1..][i - 1];
      if rules[0].allow == allow && Matches(rules[0], path) && |rules[0].path| > rest then |rules[0].path|
      else rest
  }

  /**
   * Section 2.2.2 of RFC 9309: the most specific (longest) matching rule
   * decides, an allow rule wins a tie, and a path no rule matches is allowed.
   * The rules here hold no `*` or `$` special characters.
   */
  predicate Allowed(rules: seq<Rule>, path: string) {
    var deny := LongestMatch(rules, false, path);
    deny == -1 || LongestMatch(rules, true, path) >= deny
  }

  /** Allowing `/` and disallowing two longer prefixes blocks exactly the paths under those prefixes. */
  lemma AllowRootDisallowTwo(a: string, b: string, path: string)
    requires |a| > 1 && |b| > 1
    ensures var rules := [Rule(true, "/"), Rule(false, a), Rule(false, b)];
      Allowed(rules, path) <==> !StartsWith(path, a) && !StartsWith(path, b)
  {
    var rules := [Rule(true, "/"), Rule(false, a), Rule(false, b)];
    var allow := LongestMatch(rules, true, path);
    assert allow <= 1 by {
      if allow >= 0 {
        var i :| 0 <= i < |rules| && rules[i].allow && Matches(rules[i], path) && |rules[i].path| == allow;
        assert i == 0;
      }
    }
    if StartsWith(path, a) {
      assert Matches(rules[1], path);
    } else if StartsWith(path, b) {
      assert Matches(rules[2], path);
    }
  }

  /** Under the generated robots.txt a crawler may fetch every path except those under `/api/` and `/admin/`. */
  lemma RobotsPolicy(siteUrl: string, path: string)
    ensures Allowed(Rules(RobotsFile(siteUrl)), path) <==> !StartsWith(path, "/api/") && !StartsWith(path, "/admin/")
  {
    RobotsFileRules(siteUrl);
    AllowRootDisallowTwo("/api/", "/admin/", path);
  }

  /** The generated file's group allows `/` and disallows `/api/` and `/admin/`, in that order. */
  lemma RobotsFileRules(siteUrl: string)
    ensures Rules(RobotsFile(siteUrl)) == [Rule(true, "/"), Rule(false, "/api/"), Rule(false, "/admin/")]
  {
    var f := RobotsFile(siteUrl);
    assert RulesFrom(f, 5) == [] by {
      assert RulesFrom(f, 6) == [];
    }
    assert RulesFrom(f, 4) == [Rule(false, "/admin/")];
    assert RulesFrom(f, 3) == [Rule(false, "/api/"), Rule(false, "/admin/")];
    assert RulesFrom(f, 2) == [Rule(true, "/"), Rule(false, "/api/"), Rule(false, "/admin/")];
    assert RulesFrom(f, 0) == RulesFrom(f, 2);
  }

  // ---------------------------------------------------------------------------
  // Writing the files

  /** A file to generate: the name reported, its content and where it goes (from the repository root). */
  datatype SeoFile = SeoFile(name: string, content: string, path: Path)

  datatype Reported = Reported(name: string, path: Path)

  const PublicDir: Path := ["frontend", "public"]

  /** The five files, in the order they are written and reported. */
  function SeoFiles(sitemap: string, robots: string, manifest: string, structuredData: string, metaTemplate: string): (fs: seq<SeoFile>)
    ensures |fs| == 5
    ensures forall i :: 0 <= i < 5 ==> |fs[i].path| >= 1
  {
    [SeoFile("sitemap.xml", sitemap, PublicDir + ["sitemap.xml"]),
     SeoFile("robots.txt", robots, PublicDir + ["robots.txt"]),
     SeoFile("manifest.json", manifest, PublicDir + ["manifest.json"]),
     SeoFile("structured-data.json", structuredData, PublicDir + ["structured-data.json"]),
     SeoFile("metadata-template.js", metaTemplate, [".tmp", "metadata-template.js"])]
  }

  const SeoFileNames := ["sitemap.xml", "robots.txt", "manifest.json", "structured-data.json", "metadata-template.js"]

  function Reports(fs: seq<SeoFile>): (r: seq<Reported>)
    ensures |r| == |fs|
    ensures forall i :: 0 <= i < |fs| ==> r[i] == Reported(fs[i].name, fs[i].path)
  {
    if fs == [] then [] else [Reported(fs[0].name, fs[0].path)] + Reports(fs[1..])
  }

  function ReportedNames(r: seq<Reported>): (ns: seq<string>)
    ensures |ns| == |r|
    ensures forall i :: 0 <= i < |r| ==> ns[i] == r[i].name
  {
    if r == [] then [] else [r[0].name] + ReportedNames(r[1..])
  }

  /** The report names the files sitemap, robots, manifest, structured data and metadata template, in that order. */
  lemma ReportOrder(sitemap: string, robots: string, manifest: string, structuredData: string, metaTemplate: string)
    ensures ReportedNames(Reports(SeoFiles(sitemap, robots, manifest, structuredData, metaTemplate))) == SeoFileNames
  {
    var ns := ReportedNames(Reports(SeoFiles(sitemap, robots, manifest, structuredData, metaTemplate)));
    assert forall i :: 0 <= i < 5 ==> ns[i] == SeoFileNames[i];
  }

  function Parent(p: Path): Path
    requires |p| >= 1
  {
    p[..|p| - 1]
  }

  /** The directories `mkdirSync(d, { recursive: true })` makes exist: `d` and its ancestors, up to the root `[]`. */
  function Prefixes(d: Path): (r: set<Path>)
    ensures forall k :: 0 <= k <= |d| ==> d[..k] in r
    ensures forall q :: q in r ==> |q| <= |d| && q == d[..|q|]
  {
    if d == [] then {[]}
    else
      var init := d[..|d| - 1];
      var r := Prefixes(init) + {d};
      assert d[..|d|] == d;
      assert forall k :: 0 <= k < |d| ==> init[..k] == d[..k];
      assert forall q :: q in Prefixes(init) ==> q == init[..|q|] && init[..|q|] == d[..|q|];
      r
  }

  /** The index of the first file whose write fails, or `|fs|` when none does. */
  function FirstRefused(fs: seq<SeoFile>, refused: map<Path, string>): (k: nat)
    ensures k <= |fs|
    ensures forall i :: 0 <= i < k ==> fs[i].path !in refused
    ensures k < |fs| ==> fs[k].path in refused
  {
    if fs == [] then 0
    else if fs[0].path in refused then 0
    else 1 + FirstRefused(fs[1..], refused)
  }

  /** The files on disk after writing `fs` in order. */
  function Written(files: map<Path, string>, fs: seq<SeoFile>): map<Path, string> {
    if fs == [] then files
    else Written(files, fs[..|fs| - 1])[fs[|fs| - 1].path := fs[|fs| - 1].content]
  }

  /** Each path written holds the content of the last file written there; every other path is unchanged. */
  lemma {:induction false} WrittenContents(files: map<Path, string>, fs: seq<SeoFile>, p: Path)
    ensures (exists i :: 0 <= i < |fs| && fs[i].path == p) ==>
      p in Written(files, fs)
      && (exists i :: 0 <= i < |fs| && fs[i].path == p && Written(files, fs)[p] == fs[i].content
                   && (forall j :: i < j < |fs| ==> fs[j].path != p))
    ensures (forall i :: 0 <= i < |fs| ==> fs[i].path != p) ==>
      (p in Written(files, fs) <==> p in files) && (p in files ==> Written(files, fs)[p] == files[p])
  {
    if fs != [] {
      var n := |fs| - 1;
      var init := fs[..n];
      WrittenContents(files, init, p);
      assert forall i :: 0 <= i < |init| ==> init[i] == fs[i];
      if fs[n].path == p {
        assert Written(files, fs)[p] == fs[n].content;
      } else if exists i :: 0 <= i < |fs| && fs[i].path == p {
        var i :| 0 <= i < |fs| && fs[i].path == p;
        assert init[i].path == p;
        var k :| 0 <= k < |init| && init[k].path == p && Written(files, init)[p] == init[k].content
          && (forall j :: k < j < |init| ==> init[j].path != p);
        assert forall j :: k < j < |fs| ==> fs[j].path != p;
      }
    }
  }

  /** The directories after creating the missing parent of each file in `fs`. */
  function DirsAfter(dirs: set<Path>, fs: seq<SeoFile>): (r: set<Path>)
    requires forall i :: 0 <= i < |fs| ==> |fs[i].path| >= 1
    ensures dirs <= r
  {
    if fs == [] then dirs
    else
      var d := DirsAfter(dirs, fs[..|fs| - 1]);
      var parent := Parent(fs[|fs| - 1].path);
      if parent in d then d else d + Prefixes(parent)
  }

  /** After the loop, the directory of every file handled exists. */
  lemma {:induction false} ParentsExist(dirs: set<Path>, fs: seq<SeoFile>)
    requires forall i :: 0 <= i < |fs| ==> |fs[i].path| >= 1
    ensures forall i :: 0 <= i < |fs| ==> Parent(fs[i].path) in DirsAfter(dirs, fs)
  {
    if fs != [] {
      var init := fs[..|fs| - 1];
      ParentsExist(dirs, init);
      var parent := Parent(fs[|fs| - 1].path);
      assert parent[..|parent|] == parent;
      assert forall i :: 0 <= i < |init| ==> init[i] == fs[i];
    }
  }

  /** The disk: the files and directories that exist, and the paths whose write throws, with the message. */
  class Disk {
    var files: map<Path, string>
    var dirs: set<Path>
    const refused: map<Path, string>

    constructor(files0: map<Path, string>, dirs0: set<Path>, refused0: map<Path, string>)
      ensures files == files0 && dirs == dirs0 && refused == refused0
    {
      files := files0;
      dirs := dirs0;
      refused := refused0;
    }

    /** `if (!existsSync(dir)) mkdirSync(dir, { recursive: true })` */
    method EnsureDir(d: Path)
      modifies this
      ensures files == old(files)
      ensures dirs == if d in old(dirs) then old(dirs) else old(dirs) + Prefixes(d)
    {
      if d !in dirs {
        dirs := dirs + Prefixes(d);
      }
    }

    /** `writeFileSync`: the content lands at the path, or the write throws the path's message. */
    method WriteFile(p: Path, content: string) returns (error: Option<string>)
      modifies this
      ensures dirs == old(dirs)
      ensures p in refused ==> error == Some(refused[p]) && files == old(files)
      ensures p !in refused ==> error == None && files == old(files)[p := content]
    {
      if p in refused {
        return Some(refused[p]);
      }
      files := files[p := content];
      return None;
    }
  }

  /**
   * The `forEach` of `generateSEOFiles`: each file's directory is created if
   * missing, then the file written and reported. The first write that throws
   * ends the loop with its message; the files before it stay written.
   */
  method WriteFiles(disk: Disk, fs: seq<SeoFile>) returns (r: Result<seq<Reported>, string>)
    requires forall i :: 0 <= i < |fs| ==> |fs[i].path| >= 1
    modifies disk
    ensures var k := FirstRefused(fs, disk.refused);
      if k == |fs| then
        r == Success(Reports(fs))
        && disk.files == Written(old(disk.files), fs)
        && disk.dirs == DirsAfter(old(disk.dirs), fs)
      else
        r == Failure(disk.refused[fs[k].path])
        && disk.files == Written(old(disk.files), fs[..k])
        && disk.dirs == DirsAfter(old(disk.dirs), fs[..k + 1])
  {
    var results: seq<Reported> := [];
    ghost var k := FirstRefused(fs, disk.refused);
    var i := 0;
    while i < |fs|
      invariant i <= k
      invariant results == Reports(fs[..i])
      invariant disk.files == Written(old(disk.files), fs[..i])
      invariant disk.dirs == DirsAfter(old(disk.dirs), fs[..i])
    {
      SnocSteps(old(disk.files), old(disk.dirs), fs, i);
      disk.EnsureDir(Parent(fs[i].path));
      var error := disk.WriteFile(fs[i].path, fs[i].content);
      if error.Some? {
        assert k == i;
        return Failure(error.value);
      }
      results := results + [Reported(fs[i].name, fs[i].path)];
      i := i + 1;
    }
    assert fs[..i] == fs;
    return Success(results);
  }

  /** One more iteration of the loop: the map and the directories after the first `i + 1` files. */
  lemma SnocSteps(files: map<Path, string>, dirs: set<Path>, fs: seq<SeoFile>, i: nat)
    requires i < |fs| && forall j :: 0 <= j < |fs| ==> |fs[j].path| >= 1
    ensures Reports(fs[..i + 1]) == Reports(fs[..i]) + [Reported(fs[i].name, fs[i].path)]
    ensures Written(files, fs[..i + 1]) == Written(files, fs[..i])[fs[i].path := fs[i].content]
    ensures var d := DirsAfter(dirs, fs[..i]);
      DirsAfter(dirs, fs[..i + 1]) == if Parent(fs[i].path) in d then d else d + Prefixes(Parent(fs[i].path))
  {
    assert fs[..i + 1][..i] == fs[..i];
    ReportsSnoc(fs[..i + 1]);
  }

  lemma {:induction false} ReportsSnoc(fs: seq<SeoFile>)
    requires fs != []
    ensures Reports(fs) == Reports(fs[..|fs| - 1]) + [Reported(fs[|fs| - 1].name, fs[|fs| - 1].path)]
  {
    var r := Reports(fs[..|fs| - 1]) + [Reported(fs[|fs| - 1].name, fs[|fs| - 1].path)];
    assert forall i :: 0 <= i < |fs| ==> Reports(fs)[i] == r[i];
  }

  /**
   * `generateSEOFiles` and the CLI's exit: `success: true` with the five
   * reports in order when every write goes through, else `success: false`
   * with the first failure's message. Exit code 0 exactly on success.
   */
  method GenerateSeo(disk: Disk, iso: string, manifest: string, structuredData: string, metaTemplate: string)
    returns (r: Result<seq<Reported>, string>, exitCode: nat)
    modifies disk
    ensures var fs := SeoFiles(Sitemap(SiteUrl, Pages, iso), Robots(SiteUrl), manifest, structuredData, metaTemplate);
      (r.Success? <==> forall i :: 0 <= i < 5 ==> fs[i].path !in disk.refused)
      && (r.Success? ==> r.value == Reports(fs) && ReportedNames(r.value) == SeoFileNames
                         && disk.files == Written(old(disk.files), fs))
      && (r.Failure? ==> exists i :: 0 <= i < 5 && fs[i].path in disk.refused && r.error == disk.refused[fs[i].path])
    ensures exitCode == 0 <==> r.Success?
  {
    var sitemap := Sitemap(SiteUrl, Pages, iso);
    var robots := Robots(SiteUrl);
    var fs := SeoFiles(sitemap, robots, manifest, structuredData, metaTemplate);
    r := WriteFiles(disk, fs);
    ReportOrder(sitemap, robots, manifest, structuredData, metaTemplate);
    exitCode := if r.Success? then 0 else 1;
  }
}
