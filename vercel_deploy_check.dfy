/**
 * The Vercel pre-deploy check: eight independent checks of the frontend
 * (Next.js configuration, `.npmrc`, `vercel.json`, SEO files, the Three.js
 * hero component, `package.json`, stray console calls, the build) that raise
 * the two global flags `hasErrors` and `hasWarnings`; the script exits 1 when
 * an error was found.
 *
 * Each check is specified by a function giving the issues it reports, in
 * order, or `None` when it throws (a file it must read is missing or is a
 * directory, JSON that does not parse, a property read on `null` or
 * `undefined`). An exception escapes `main`, so it ends the script with exit
 * code 1.
 */
module VercelDeployCheck {
  import opened Wrappers
  import opened Strings
  import opened Json
  import opened FileTree
  import opened LineScan

  /** What reading a file yields: `existsSync` is false, its text, or a directory `readFileSync` throws on. */
  datatype FileRead = Missing | Text(content: string) | Unreadable

  function ReadText(root: Node, p: Path): (r: FileRead)
    ensures r.Missing? <==> !Exists(root, p)
  {
    match Lookup(root, p)
    case None => Missing
    case Some(File(_, content)) => Text(content)
    case Some(Dir(_)) => Unreadable
  }

  /** The build as `execSync('npm run build')` left it: it threw, or it took `tenths` tenths of a second. */
  datatype BuildOutcome = Threw | Completed(tenths: nat, nextExists: bool)

  /** What a check reports; an issue is either an error or a warning. */
  datatype Issue =
    | NextConfigMissing | BadOutput | TrailingSlash | Unoptimized
    | NpmrcMissing | NpmrcLacksLegacyPeerDeps
    | VercelJsonMissing | BuildCommandSet | OutputDirectorySet | FrameworkNotNext
    | SeoFileMissing(name: string)
    | HeroCanvasEnabled
    | NodeVersionMissing
    | ConsoleCalls(found: seq<Finding>)
    | BuildFailed | BuildTooFast(tenths: nat) | NextDirMissing
  {
    predicate IsError() {
      !(VercelJsonMissing? || SeoFileMissing? || HeroCanvasEnabled? || NodeVersionMissing? || ConsoleCalls?)
    }
  }

  predicate HasError(issues: seq<Issue>) {
    exists i :: 0 <= i < |issues| && issues[i].IsError()
  }

  predicate HasWarning(issues: seq<Issue>) {
    exists i :: 0 <= i < |issues| && !issues[i].IsError()
  }

  lemma HasAppend(a: seq<Issue>, b: seq<Issue>)
    ensures HasError(a + b) <==> HasError(a) || HasError(b)
    ensures HasWarning(a + b) <==> HasWarning(a) || HasWarning(b)
  {
    assert forall i :: 0 <= i < |a| ==> (a + b)[i] == a[i];
    assert forall i :: 0 <= i < |b| ==> (a + b)[|a| + i] == b[i];
  }

  // ---------------------------------------------------------------------------
  // Check 1: next.config.js

  predicate IsQuote(c: char) { c == '\'' || c == '"' }

  /** Where `\s*` starting at `i` stops. */
  function SkipWs(s: string, i: nat): (j: nat)
    requires i <= |s|
    ensures i <= j <= |s|
    ensures forall k :: i <= k < j ==> IsJsWhitespace(s[k])
    ensures j < |s| ==> !IsJsWhitespace(s[j])
    decreases |s| - i
  {
    if i == |s| || !IsJsWhitespace(s[i]) then i else SkipWs(s, i + 1)
  }

  /** /output:\s*['"](export|standalone)['"]/ matches at `i`. */
  predicate OutputAt(s: string, i: nat) {
    && OccursAt(s, "output:", i)
    && var j := SkipWs(s, i + 7);
       && j < |s| && IsQuote(s[j])
       && ((OccursAt(s, "export", j + 1) && j + 7 < |s| && IsQuote(s[j + 7]))
           || (OccursAt(s, "standalone", j + 1) && j + 11 < |s| && IsQuote(s[j + 11])))
  }

  /** /<key>\s*true/ matches at `i`, for `key` ending in a colon. */
  predicate FlagTrueAt(s: string, key: string, i: nat) {
    OccursAt(s, key, i) && OccursAt(s, "true", SkipWs(s, i + |key|))
  }

  predicate HasBadOutput(s: string) { exists i :: 0 <= i <= |s| && OutputAt(s, i) }
  predicate HasTrailingSlash(s: string) { exists i :: 0 <= i <= |s| && FlagTrueAt(s, "trailingSlash:", i) }
  predicate HasUnoptimized(s: string) { exists i :: 0 <= i <= |s| && FlagTrueAt(s, "unoptimized:", i) }

  /**
   * `checkNextConfig`: a missing file is an error; otherwise each of the three
   * patterns is checked on its own and every match is reported.
   */
  function NextConfigIssues(config: FileRead): (r: Option<seq<Issue>>)
    ensures r.None? <==> config.Unreadable?
    ensures r.Some? ==> !HasWarning(r.value)
    ensures r.Some? ==> (HasError(r.value) <==>
      config.Missing? || HasBadOutput(config.content) || HasTrailingSlash(config.content) || HasUnoptimized(config.content))
    ensures config.Text? ==>
      && (BadOutput in r.value <==> HasBadOutput(config.content))
      && (TrailingSlash in r.value <==> HasTrailingSlash(config.content))
      && (Unoptimized in r.value <==> HasUnoptimized(config.content))
  {
    match config
    case Missing =>
      assert [NextConfigMissing][0].IsError();
      Some([NextConfigMissing])
    case Unreadable => None
    case Text(c) => Some(PatternIssues(HasBadOutput(c), HasTrailingSlash(c), HasUnoptimized(c)))
  }

  /** The errors of the three configuration patterns, in the order they are checked, each when it matched. */
  function PatternIssues(badOutput: bool, trailingSlash: bool, unoptimized: bool): (r: seq<Issue>)
    ensures !HasWarning(r)
    ensures HasError(r) <==> badOutput || trailingSlash || unoptimized
    ensures BadOutput in r <==> badOutput
    ensures TrailingSlash in r <==> trailingSlash
    ensures Unoptimized in r <==> unoptimized
  {
    var r := (if badOutput then [BadOutput] else [])
      + (if trailingSlash then [TrailingSlash] else [])
      + (if unoptimized then [Unoptimized] else []);
    assert forall i :: 0 <= i < |r| ==> r[i].IsError();
    assert badOutput ==> r[0].IsError();
    assert trailingSlash ==> BadOutput in r || r[0] == TrailingSlash;
    assert unoptimized ==> r[|r| - 1] == Unoptimized;
    r
  }

  /** A configuration that sets `output: 'export'` anywhere is rejected. */
  lemma {:induction false} StaticExportRejected(a: string, b: string)
    ensures BadOutput in NextConfigIssues(Text(a + "output: 'export'" + b)).value
  {
    var s := a + "output: 'export'" + b;
    var i := |a|;
    assert s[i..i + 7] == "output:";
    assert s[i + 7] == ' ' && s[i + 8] == '\'';
    assert SkipWs(s, i + 8) == i + 8;
    assert SkipWs(s, i + 7) == i + 8;
    assert s[i + 9..i + 15] == "export";
    assert s[i + 15] == '\'';
    assert OutputAt(s, i);
  }

  /** A configuration that mentions none of the three keys passes this check. */
  lemma {:induction false} CleanConfigAccepted(c: string)
    requires !Contains(c, "output:") && !Contains(c, "trailingSlash:") && !Contains(c, "unoptimized:")
    ensures NextConfigIssues(Text(c)) == Some([])
  {
    forall i | 0 <= i <= |c| ensures !OutputAt(c, i) && !FlagTrueAt(c, "trailingSlash:", i) && !FlagTrueAt(c, "unoptimized:", i) {
      if OccursAt(c, "output:", i) { ContainsAt(c, "output:", i); }
      if OccursAt(c, "trailingSlash:", i) { ContainsAt(c, "trailingSlash:", i); }
      if OccursAt(c, "unoptimized:", i) { ContainsAt(c, "unoptimized:", i); }
    }
    assert !HasBadOutput(c) && !HasTrailingSlash(c) && !HasUnoptimized(c);
    assert NextConfigIssues(Text(c)) == Some([] + [] + []);
  }

  // ---------------------------------------------------------------------------
  // Check 2: .npmrc

  /** `checkNpmrc`: the file must exist and contain `legacy-peer-deps=true`. */
  function NpmrcIssues(npmrc: FileRead): (r: Option<seq<Issue>>)
    ensures r.None? <==> npmrc.Unreadable?
    ensures r.Some? ==> !HasWarning(r.value)
    ensures r.Some? ==> (HasError(r.value) <==> !(npmrc.Text? && Contains(npmrc.content, "legacy-peer-deps=true")))
  {
    match npmrc
    case Missing =>
      assert [NpmrcMissing][0].IsError();
      Some([NpmrcMissing])
    case Unreadable => None
    case Text(c) =>
      if Contains(c, "legacy-peer-deps=true") then Some([])
      else
        assert [NpmrcLacksLegacyPeerDeps][0].IsError();
        Some([NpmrcLacksLegacyPeerDeps])
  }

  // ---------------------------------------------------------------------------
  // Check 3: vercel.json

  /**
   * `checkVercelJson`: an absent file is only a warning; otherwise a truthy
   * `buildCommand`, a truthy `outputDirectory` and a `framework` other than
   * `"nextjs"` are each an error. `parse` is `JSON.parse` (`None` when it
   * throws); a top-level `null` makes the property reads throw.
   */
  function VercelJsonIssues(file: FileRead, parse: string -> Option<Value>): (r: Option<seq<Issue>>)
    ensures file.Missing? ==> r == Some([VercelJsonMissing])
    ensures r.None? <==> file.Unreadable? || (file.Text? && (parse(file.content).None? || parse(file.content) == Some(Null)))
    ensures r.Some? && file.Text? ==>
      var v := parse(file.content);
      && (BuildCommandSet in r.value <==> Truthy(Get(v, "buildCommand")))
      && (OutputDirectorySet in r.value <==> Truthy(Get(v, "outputDirectory")))
      && (FrameworkNotNext in r.value <==> !IsString(Get(v, "framework"), "nextjs"))
      && !HasWarning(r.value)
  {
    match file
    case Missing => Some([VercelJsonMissing])
    case Unreadable => None
    case Text(c) =>
      var v := parse(c);
      if v.None? || v.value.Null? then None
      else
        var r := (if Truthy(Get(v, "buildCommand")) then [BuildCommandSet] else [])
          + (if Truthy(Get(v, "outputDirectory")) then [OutputDirectorySet] else [])
          + (if !IsString(Get(v, "framework"), "nextjs") then [FrameworkNotNext] else []);
        assert forall i :: 0 <= i < |r| ==> r[i].IsError();
        Some(r)
  }

  // ---------------------------------------------------------------------------
  // Check 4: SEO files

  /** `checkSeoFiles`: one warning for each of robots.txt and sitemap.xml that is absent. */
  function SeoIssues(robotsTxt: bool, sitemapXml: bool): (r: seq<Issue>)
    ensures !HasError(r)
    ensures HasWarning(r) <==> !robotsTxt || !sitemapXml
    ensures |r| == (if robotsTxt then 0 else 1) + (if sitemapXml then 0 else 1)
  {
    var r := (if robotsTxt then [] else [SeoFileMissing("robots.txt")])
      + (if sitemapXml then [] else [SeoFileMissing("sitemap.xml")]);
    assert forall i :: 0 <= i < |r| ==> !r[i].IsError();
    assert |r| > 0 ==> !r[0].IsError();
    r
  }

  // ---------------------------------------------------------------------------
  // Check 5: Three.js hero component

  /**
   * `checkThreeJsComponents`: a component disabled by `return null` with the
   * `Temporarily disabled` marker passes; otherwise a `<Canvas` is a warning.
   * This check never reports an error.
   */
  function ThreeJsIssues(heroCanvas: FileRead): (r: Option<seq<Issue>>)
    ensures r.None? <==> heroCanvas.Unreadable?
    ensures r.Some? ==> !HasError(r.value)
    ensures r.Some? ==> (HasWarning(r.value) <==>
      heroCanvas.Text? && Contains(heroCanvas.content, "<Canvas")
      && !(Contains(heroCanvas.content, "return null") && Contains(heroCanvas.content, "Temporarily disabled")))
  {
    match heroCanvas
    case Missing => Some([])
    case Unreadable => None
    case Text(c) =>
      if Contains(c, "return null") && Contains(c, "Temporarily disabled") then Some([])
      else if Contains(c, "<Canvas") then
        assert ![HeroCanvasEnabled][0].IsError();
        Some([HeroCanvasEnabled])
      else Some([])
  }

  // ---------------------------------------------------------------------------
  // Check 8: package.json

  /**
   * `checkDependencies`: reading `dependencies.next` and the other versions
   * throws unless `package.json` exists, parses and has a `dependencies` value
   * other than `undefined`/`null`; a falsy `engines` or `engines.node` is a
   * warning. This check never reports an error.
   */
  function DependencyIssues(file: FileRead, parse: string -> Option<Value>): (r: Option<seq<Issue>>)
    ensures r.Some? <==>
      && file.Text? && parse(file.content).Some? && !parse(file.content).value.Null?
      && Dereferenceable(Get(parse(file.content), "dependencies"))
    ensures r.Some? ==> !HasError(r.value)
    ensures r.Some? ==> (HasWarning(r.value) <==>
      var engines := Get(parse(file.content), "engines");
      !(Truthy(engines) && Truthy(Get(engines, "node"))))
  {
    match file
    case Missing => None
    case Unreadable => None
    case Text(c) =>
      var pkg := parse(c);
      if pkg.None? || pkg.value.Null? then None
      else if !Dereferenceable(Get(pkg, "dependencies")) then None
      else
        var engines := Get(pkg, "engines");
        if Truthy(engines) && Truthy(Get(engines, "node")) then Some([])
        else
          assert ![NodeVersionMissing][0].IsError();
          Some([NodeVersionMissing])
  }

  // ---------------------------------------------------------------------------
  // Check 7: console calls

  const ExcludedDirs: set<Name> := {"node_modules", ".next", "out", ".vercel", ".git"}

  /** `['.js', '.jsx', '.ts', '.tsx'].some(ext => file.endsWith(ext))` */
  predicate IsSourceName(n: Name) {
    EndsWith(n, ".js") || EndsWith(n, ".jsx") || EndsWith(n, ".ts") || EndsWith(n, ".tsx")
  }

  /** /console\.(log|warn|error|debug|info)/ finds a match somewhere in the line. */
  predicate IsConsoleCall(line: string) {
    || Contains(line, "console.log") || Contains(line, "console.warn") || Contains(line, "console.error")
    || Contains(line, "console.debug") || Contains(line, "console.info")
  }

  /** The recursive `searchDirectory`, concatenating what each entry yields. */
  method SearchDirectory(entries: seq<Entry>, prefix: Path) returns (found: seq<Finding>)
    ensures found == FindingsOf(Walk(entries, prefix, ExcludedDirs, IsSourceName), IsConsoleCall)
    decreases entries
  {
    found := [];
    var i := 0;
    while i < |entries|
      invariant 0 <= i <= |entries|
      invariant found == FindingsOf(Walk(entries[..i], prefix, ExcludedDirs, IsSourceName), IsConsoleCall)
    {
      SearchStep(entries, i, prefix, ExcludedDirs, IsSourceName, IsConsoleCall);
      var more := SearchEntry(entries[i], prefix);
      found := found + more;
      i := i + 1;
    }
    assert entries[..|entries|] == entries;
  }

  /** One entry of the loop: a directory not skipped is searched, a source file scanned. */
  method SearchEntry(e: Entry, prefix: Path) returns (found: seq<Finding>)
    ensures found == FindingsOf(Walk([e], prefix, ExcludedDirs, IsSourceName), IsConsoleCall)
    decreases e
  {
    found := [];
    match e.node {
      case Dir(sub) =>
        DirContribution(e, prefix, ExcludedDirs, IsSourceName, IsConsoleCall);
        if e.name !in ExcludedDirs {
          found := SearchDirectory(sub, prefix + [e.name]);
        }
      case File(size, content) =>
        FileContribution(e, prefix, ExcludedDirs, IsSourceName, IsConsoleCall);
        if IsSourceName(e.name) {
          found := ScanLines(prefix + [e.name], Split(content, '\n'), IsConsoleCall);
        }
    }
  }

  /** `checkConsoleLogs` over the whole frontend: one warning carrying every finding. */
  function ConsoleIssues(root: Node): (r: Option<seq<Issue>>)
    ensures r.None? <==> root.File?
    ensures r.Some? ==> !HasError(r.value)
    ensures r.Some? ==> (HasWarning(r.value) <==> FindingsOf(Walk(root.entries, [], ExcludedDirs, IsSourceName), IsConsoleCall) != [])
  {
    match root
    case File(_, _) => None
    case Dir(entries) =>
      var found := FindingsOf(Walk(entries, [], ExcludedDirs, IsSourceName), IsConsoleCall);
      if found == [] then Some([])
      else
        assert ![ConsoleCalls(found)][0].IsError();
        Some([ConsoleCalls(found)])
  }

  /** What the console warning prints: the first five findings, then how many more there are. */
  function Listing(found: seq<Finding>): (r: (seq<Finding>, Option<nat>))
    ensures |r.0| <= 5 && |r.0| <= |found| && r.0 == found[..|r.0|]
    ensures |r.0| == |found| || |r.0| == 5
    ensures r.1.Some? <==> |found| > 5
    ensures r.1.Some? ==> |r.0| + r.1.value == |found|
  {
    if |found| > 5 then (found[..5], Some(|found| - 5)) else (found, None)
  }

  // ---------------------------------------------------------------------------
  // Check 6: build

  /**
   * `checkBuild`: an error when the build throws, when it took less than ten
   * seconds, or when no `.next` directory is left behind.
   */
  function BuildIssues(build: BuildOutcome): (r: seq<Issue>)
    ensures !HasWarning(r)
    ensures HasError(r) <==> build.Threw? || build.tenths < 100 || !build.nextExists
  {
    match build
    case Threw =>
      assert [BuildFailed][0].IsError();
      [BuildFailed]
    case Completed(tenths, nextExists) =>
      var r := (if tenths < 100 then [BuildTooFast(tenths)] else []) + (if nextExists then [] else [NextDirMissing]);
      assert forall i :: 0 <= i < |r| ==> r[i].IsError();
      assert |r| > 0 ==> r[0].IsError();
      r
  }

  // ---------------------------------------------------------------------------
  // main

  /** How a run ends: the frontend is absent, a check threw, or every check ran. */
  datatype RunResult = FrontendMissing | Crashed(issues: seq<Issue>) | Finished(issues: seq<Issue>)

  /** Runs one more check after the ones that produced `acc`. */
  function Then(acc: RunResult, next: Option<seq<Issue>>): (r: RunResult)
    ensures r.Finished? <==> acc.Finished? && next.Some?
    ensures r.Finished? ==> r.issues == acc.issues + next.value
  {
    match acc
    case Finished(issues) => if next.None? then Crashed(issues) else Finished(issues + next.value)
    case _ => acc
  }

  /** Runs the checks one after the other, stopping at the first that throws. */
  function Chain(results: seq<Option<seq<Issue>>>): RunResult {
    if results == [] then Finished([])
    else Then(Chain(results[..|results| - 1]), results[|results| - 1])
  }

  lemma {:induction false} ChainStep(results: seq<Option<seq<Issue>>>, k: nat)
    requires k < |results|
    ensures Chain(results[..k + 1]) == Then(Chain(results[..k]), results[k])
  {
    assert results[..k + 1][..k] == results[..k];
  }

  /**
   * A chain finishes exactly when no check throws, it never reports a missing
   * frontend, and a finished chain holds an error exactly when some check
   * reported one.
   */
  lemma {:induction false} ChainIff(results: seq<Option<seq<Issue>>>)
    ensures !Chain(results).FrontendMissing?
    ensures Chain(results).Finished? <==> forall k :: 0 <= k < |results| ==> results[k].Some?
    ensures Chain(results).Finished? ==>
      (HasError(Chain(results).issues) <==> exists k :: 0 <= k < |results| && HasError(results[k].value))
  {
    if results != [] {
      var init := results[..|results| - 1];
      var last := results[|results| - 1];
      ChainIff(init);
      assert forall k :: 0 <= k < |init| ==> init[k] == results[k];
      if Chain(results).Finished? {
        HasAppend(Chain(init).issues, last.value);
      }
    }
  }

  /** What the checks read from the frontend directory. */
  datatype Frontend = Frontend(
    nextConfig: FileRead, npmrc: FileRead, vercelJson: FileRead,
    robotsTxt: bool, sitemapXml: bool,
    heroCanvas: FileRead, packageJson: FileRead, tree: Node)

  function ReadFrontend(root: Node): (f: Frontend)
    ensures f.packageJson.Text? ==> root.Dir?
  {
    Frontend(
      ReadText(root, ["next.config.js"]), ReadText(root, [".npmrc"]), ReadText(root, ["vercel.json"]),
      Exists(root, ["public", "robots.txt"]), Exists(root, ["public", "sitemap.xml"]),
      ReadText(root, ["components", "HeroCanvas.jsx"]), ReadText(root, ["package.json"]), root)
  }

  /** The eight checks in the order `main` runs them. */
  function Checks(f: Frontend, parse: string -> Option<Value>, build: BuildOutcome): (r: seq<Option<seq<Issue>>>)
    ensures |r| == 8
  {
    [ NextConfigIssues(f.nextConfig),
      NpmrcIssues(f.npmrc),
      VercelJsonIssues(f.vercelJson, parse),
      Some(SeoIssues(f.robotsTxt, f.sitemapXml)),
      ThreeJsIssues(f.heroCanvas),
      DependencyIssues(f.packageJson, parse),
      ConsoleIssues(f.tree),
      Some(BuildIssues(build)) ]
  }

  lemma ChecksAt(f: Frontend, parse: string -> Option<Value>, build: BuildOutcome)
    ensures var rs := Checks(f, parse, build);
      && rs[0] == NextConfigIssues(f.nextConfig) && rs[1] == NpmrcIssues(f.npmrc)
      && rs[2] == VercelJsonIssues(f.vercelJson, parse) && rs[3] == Some(SeoIssues(f.robotsTxt, f.sitemapXml))
      && rs[4] == ThreeJsIssues(f.heroCanvas) && rs[5] == DependencyIssues(f.packageJson, parse)
      && rs[6] == ConsoleIssues(f.tree) && rs[7] == Some(BuildIssues(build))
  {
  }

  function Outcome(frontend: Option<Node>, parse: string -> Option<Value>, build: BuildOutcome): RunResult {
    if frontend.None? then FrontendMissing else Chain(Checks(ReadFrontend(frontend.value), parse, build))
  }

  function ExitCode(r: RunResult): nat {
    match r
    case FrontendMissing => 1
    case Crashed(_) => 1
    case Finished(issues) => if HasError(issues) then 1 else 0
  }

  /** The script exits 0 exactly when every check ran and none reported an error; warnings do not count. */
  lemma ExitZeroIff(r: RunResult)
    ensures ExitCode(r) == 0 <==> r.Finished? && !HasError(r.issues)
  {
  }

  /**
   * A zero exit status vouches for the deployment's essentials: `.npmrc`
   * enables legacy peer dependencies, the build ran for at least ten seconds
   * and produced `.next`, and `vercel.json`, when present, names the
   * `nextjs` framework.
   */
  lemma {:induction false} ZeroExitGuarantees(f: Frontend, parse: string -> Option<Value>, build: BuildOutcome)
    requires ExitCode(Chain(Checks(f, parse, build))) == 0
    ensures f.npmrc.Text? && Contains(f.npmrc.content, "legacy-peer-deps=true")
    ensures build.Completed? && build.tenths >= 100 && build.nextExists
    ensures f.vercelJson.Text? ==> NamesNextJs(parse(f.vercelJson.content))
  {
    var rs := Checks(f, parse, build);
    ChainClean(rs, 1);
    ChainClean(rs, 2);
    ChainClean(rs, 7);
    VercelJsonClean(f.vercelJson, parse);
  }

  /** A parsed `vercel.json` whose `framework` is the string `"nextjs"`. */
  predicate NamesNextJs(v: Option<Value>) {
    Dereferenceable(v) && IsString(Get(v, "framework"), "nextjs")
  }

  /** When the chain ends with exit code 0, the `k`-th check ran and reported no error. */
  lemma {:induction false} ChainClean(results: seq<Option<seq<Issue>>>, k: nat)
    requires ExitCode(Chain(results)) == 0 && k < |results|
    ensures results[k].Some? && !HasError(results[k].value)
  {
    ChainIff(results);
  }

  /** When the `k`-th check throws, the chain ends in a crash. */
  lemma {:induction false} ChainCrash(results: seq<Option<seq<Issue>>>, k: nat)
    requires k < |results| && results[k].None?
    ensures Chain(results).Crashed?
  {
    ChainIff(results);
  }

  lemma {:induction false} VercelJsonClean(file: FileRead, parse: string -> Option<Value>)
    requires VercelJsonIssues(file, parse).Some? && !HasError(VercelJsonIssues(file, parse).value)
    ensures file.Text? ==> NamesNextJs(parse(file.content))
  {
    var r := VercelJsonIssues(file, parse).value;
    assert FrameworkNotNext.IsError();
    assert FrameworkNotNext !in r;
  }

  // ---------------------------------------------------------------------------
  // The script's state

  /** The two module-level flags, with the issues reported so far. */
  class DeployChecker {
    var hasErrors: bool
    var hasWarnings: bool
    var issues: seq<Issue>

    /** Each flag is raised exactly when an issue of its kind has been reported. */
    predicate Valid()
      reads this
    {
      (hasErrors <==> HasError(issues)) && (hasWarnings <==> HasWarning(issues))
    }

    constructor()
      ensures Valid() && issues == [] && !hasErrors && !hasWarnings
    {
      hasErrors := false;
      hasWarnings := false;
      issues := [];
    }

    /** Appends the issues of one check and raises the flags they call for. */
    method Report(found: seq<Issue>)
      requires Valid()
      modifies this
      ensures Valid() && issues == old(issues) + found
    {
      HasAppend(issues, found);
      issues := issues + found;
      if HasError(found) {
        hasErrors := true;
      }
      if HasWarning(found) {
        hasWarnings := true;
      }
    }

    method CheckNextConfig(config: FileRead) returns (crashed: bool)
      requires Valid()
      modifies this
      ensures Valid()
      ensures crashed <==> NextConfigIssues(config).None?
      ensures !crashed ==> issues == old(issues) + NextConfigIssues(config).value
    {
      match config {
        case Missing =>
          Report([NextConfigMissing]);
          return false;
        case Unreadable =>
          return true;
        case Text(content) =>
          var badOutput, trailingSlash, unoptimized := HasBadOutput(content), HasTrailingSlash(content), HasUnoptimized(content);
          var found := [];
          if badOutput { found := found + [BadOutput]; }
          if trailingSlash { found := found + [TrailingSlash]; }
          if unoptimized { found := found + [Unoptimized]; }
          assert found == PatternIssues(badOutput, trailingSlash, unoptimized);
          Report(found);
          return false;
      }
    }

    method CheckNpmrc(npmrc: FileRead) returns (crashed: bool)
      requires Valid()
      modifies this
      ensures Valid()
      ensures crashed <==> NpmrcIssues(npmrc).None?
      ensures !crashed ==> issues == old(issues) + NpmrcIssues(npmrc).value
    {
      match npmrc {
        case Missing =>
          Report([NpmrcMissing]);
        case Unreadable =>
          return true;
        case Text(content) =>
          if !Contains(content, "legacy-peer-deps=true") {
            Report([NpmrcLacksLegacyPeerDeps]);
          }
      }
      return false;
    }

    method CheckVercelJson(file: FileRead, parse: string -> Option<Value>) returns (crashed: bool)
      requires Valid()
      modifies this
      ensures Valid()
      ensures crashed <==> VercelJsonIssues(file, parse).None?
      ensures !crashed ==> issues == old(issues) + VercelJsonIssues(file, parse).value
    {
      match file {
        case Missing =>
          Report([VercelJsonMissing]);
          return false;
        case Unreadable =>
          return true;
        case Text(content) =>
          var config := parse(content);
          if config.None? || config.value.Null? {
            return true;
          }
          var found := [];
          if Truthy(Get(config, "buildCommand")) { found := found + [BuildCommandSet]; }
          if Truthy(Get(config, "outputDirectory")) { found := found + [OutputDirectorySet]; }
          if !IsString(Get(config, "framework"), "nextjs") { found := found + [FrameworkNotNext]; }
          Report(found);
          return false;
      }
    }

    method CheckSeoFiles(robotsTxt: bool, sitemapXml: bool)
      requires Valid()
      modifies this
      ensures Valid() && issues == old(issues) + SeoIssues(robotsTxt, sitemapXml)
    {
      var found := [];
      if !robotsTxt { found := found + [SeoFileMissing("robots.txt")]; }
      if !sitemapXml { found := found + [SeoFileMissing("sitemap.xml")]; }
      Report(found);
    }

    method CheckThreeJsComponents(heroCanvas: FileRead) returns (crashed: bool)
      requires Valid()
      modifies this
      ensures Valid()
      ensures crashed <==> ThreeJsIssues(heroCanvas).None?
      ensures !crashed ==> issues == old(issues) + ThreeJsIssues(heroCanvas).value
    {
      match heroCanvas {
        case Missing =>
        case Unreadable =>
          return true;
        case Text(content) =>
          if Contains(content, "return null") && Contains(content, "Temporarily disabled") {
          } else if Contains(content, "<Canvas") {
            Report([HeroCanvasEnabled]);
          }
      }
      return false;
    }

    method CheckDependencies(file: FileRead, parse: string -> Option<Value>) returns (crashed: bool)
      requires Valid()
      modifies this
      ensures Valid()
      ensures crashed <==> DependencyIssues(file, parse).None?
      ensures !crashed ==> issues == old(issues) + DependencyIssues(file, parse).value
    {
      if !file.Text? {
        return true;
      }
      var packageJson := parse(file.content);
      if packageJson.None? || packageJson.value.Null? || !Dereferenceable(Get(packageJson, "dependencies")) {
        return true;
      }
      var engines := Get(packageJson, "engines");
      if !(Truthy(engines) && Truthy(Get(engines, "node"))) {
        Report([NodeVersionMissing]);
      }
      return false;
    }

    method CheckConsoleLogs(entries: seq<Entry>)
      requires Valid()
      modifies this
      ensures Valid() && issues == old(issues) + ConsoleIssues(Dir(entries)).value
    {
      var consoleLogs := SearchDirectory(entries, []);
      if |consoleLogs| > 0 {
        Report([ConsoleCalls(consoleLogs)]);
      } else {
        Report([]);
      }
    }

    method CheckBuild(build: BuildOutcome)
      requires Valid()
      modifies this
      ensures Valid() && issues == old(issues) + BuildIssues(build)
    {
      match build {
        case Threw =>
          Report([BuildFailed]);
        case Completed(tenths, nextExists) =>
          var found := [];
          if tenths < 100 { found := found + [BuildTooFast(tenths)]; }
          if !nextExists { found := found + [NextDirMissing]; }
          Report(found);
      }
    }

    /** Checks 1 to 3: the configuration files. */
    method RunConfigChecks(f: Frontend, parse: string -> Option<Value>, ghost rs: seq<Option<seq<Issue>>>)
      returns (crashed: bool)
      requires |rs| == 8 && rs[0] == NextConfigIssues(f.nextConfig) && rs[1] == NpmrcIssues(f.npmrc)
      requires rs[2] == VercelJsonIssues(f.vercelJson, parse)
      requires Valid() && issues == []
      modifies this
      ensures crashed ==> Chain(rs).Crashed?
      ensures !crashed ==> Valid() && Chain(rs[..3]) == Finished(issues)
    {
      assert Chain(rs[..0]) == Finished(issues);
      crashed := CheckNextConfig(f.nextConfig);
      if crashed { ChainCrash(rs, 0); return; }
      ChainStep(rs, 0);
      crashed := CheckNpmrc(f.npmrc);
      if crashed { ChainCrash(rs, 1); return; }
      ChainStep(rs, 1);
      crashed := CheckVercelJson(f.vercelJson, parse);
      if crashed { ChainCrash(rs, 2); return; }
      ChainStep(rs, 2);
    }

    /** Checks 4, 5 and 8: SEO files, the hero component and `package.json`. */
    method RunContentChecks(f: Frontend, parse: string -> Option<Value>, ghost rs: seq<Option<seq<Issue>>>)
      returns (crashed: bool)
      requires |rs| == 8 && rs[3] == Some(SeoIssues(f.robotsTxt, f.sitemapXml))
      requires rs[4] == ThreeJsIssues(f.heroCanvas) && rs[5] == DependencyIssues(f.packageJson, parse)
      requires f.packageJson.Text? ==> f.tree.Dir?
      requires Valid() && Chain(rs[..3]) == Finished(issues)
      modifies this
      ensures crashed ==> Chain(rs).Crashed?
      ensures !crashed ==> Valid() && Chain(rs[..6]) == Finished(issues) && f.tree.Dir?
    {
      CheckSeoFiles(f.robotsTxt, f.sitemapXml);
      ChainStep(rs, 3);
      crashed := CheckThreeJsComponents(f.heroCanvas);
      if crashed { ChainCrash(rs, 4); return; }
      ChainStep(rs, 4);
      crashed := CheckDependencies(f.packageJson, parse);
      if crashed { ChainCrash(rs, 5); return; }
      ChainStep(rs, 5);
    }

    /** `main`: the checks in order, then the exit code from `hasErrors`. */
    method Run(frontend: Option<Node>, parse: string -> Option<Value>, build: BuildOutcome) returns (exitCode: nat)
      requires Valid() && issues == []
      modifies this
      ensures exitCode == ExitCode(Outcome(frontend, parse, build))
      ensures Outcome(frontend, parse, build).Finished? ==>
        Valid() && issues == Outcome(frontend, parse, build).issues && exitCode == (if hasErrors then 1 else 0)
    {
      if frontend.None? {
        return 1;
      }
      var f := ReadFrontend(frontend.value);
      ghost var rs := Checks(f, parse, build);
      ChecksAt(f, parse, build);
      var crashed := RunConfigChecks(f, parse, rs);
      if crashed { return 1; }
      crashed := RunContentChecks(f, parse, rs);
      if crashed { return 1; }
      CheckConsoleLogs(f.tree.entries);
      ChainStep(rs, 6);
      CheckBuild(build);
      ChainStep(rs, 7);
      assert rs[..8] == rs;
      exitCode := if hasErrors then 1 else 0;
    }
  }
}
