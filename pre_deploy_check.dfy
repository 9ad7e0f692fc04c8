/**
 * The pre-deploy check runner: five checks (lint, production build, leftover
 * `console.log`/`console.error` calls, SEO metadata in the root layout, and the
 * critical images), each returning a pass/warning record, and a summary that
 * counts them. The run succeeds only when every check passed.
 *
 * The frontend directory is a `Node`; lint and build are subprocess results
 * given as booleans. A `readdirSync` or `readFileSync` that throws rejects the
 * runner's promise, which ends the process with exit code 1 (`Crashed`).
 */
module PreDeployCheck {
  import opened Wrappers
  import opened Strings
  import opened Seqs
  import opened FileTree
  import opened LineScan

  // ---------------------------------------------------------------------------
  // Check records

  /** The extra field of a check's record, besides `passed` and `warning`. */
  datatype Detail =
    | NoDetail
    | Error(message: string)
    | Findings(findings: seq<Finding>)
    | Issues(issues: seq<string>)
    | Missing(missing: seq<string>)

  datatype CheckResult = CheckResult(passed: bool, warning: bool, detail: Detail)

  /** `checkLint` and `checkBuild`: `npm run lint` / `npm run build` either succeeds or throws. */
  function CommandCheck(ok: bool, message: string): (r: CheckResult)
    ensures r.passed == ok && !r.warning
    ensures !ok ==> r.detail == Error(message)
  {
    if ok then CheckResult(true, false, NoDetail) else CheckResult(false, false, Error(message))
  }

  // ---------------------------------------------------------------------------
  // Check 3: console calls

  const SkippedDirs: set<Name> := {"node_modules", ".next"}

  /** `/\.(jsx?|tsx?)$/` */
  predicate IsSourceName(n: Name) {
    EndsWith(n, ".js") || EndsWith(n, ".jsx") || EndsWith(n, ".ts") || EndsWith(n, ".tsx")
  }

  /** A line whose trimmed text starts like a comment is skipped. */
  predicate IsComment(line: string) {
    StartsWith(Trim(line), "//") || StartsWith(Trim(line), "*")
  }

  /** Only `console.log` and `console.error` are looked for, outside comment lines. */
  predicate IsFlagged(line: string) {
    !IsComment(line) && (Contains(line, "console.log") || Contains(line, "console.error"))
  }

  /** A comment line never yields a finding, whatever it contains. */
  lemma CommentLineNotReported(file: Path, lines: seq<string>, i: nat)
    requires i < |lines| && IsComment(lines[i])
    ensures forall k :: 0 <= k < |LineFindings(file, lines, IsFlagged)| ==> LineFindings(file, lines, IsFlagged)[k].line != i + 1
  {
    LineFindingsSound(file, lines, IsFlagged);
  }

  /**
   * The recursive `findConsoleLogs`: a directory other than `node_modules` and
   * `.next` is searched, any other entry whose name ends in a JavaScript or
   * TypeScript extension is read line by line.
   */
  method FindConsoleLogs(entries: seq<Entry>, prefix: Path) returns (findings: seq<Finding>)
    ensures findings == FindingsOf(Walk(entries, prefix, SkippedDirs, IsSourceName), IsFlagged)
    decreases entries
  {
    findings := [];
    var i := 0;
    while i < |entries|
      invariant 0 <= i <= |entries|
      invariant findings == FindingsOf(Walk(entries[..i], prefix, SkippedDirs, IsSourceName), IsFlagged)
    {
      SearchStep(entries, i, prefix, SkippedDirs, IsSourceName, IsFlagged);
      var more := SearchEntry(entries[i], prefix);
      findings := findings + more;
      i := i + 1;
    }
    assert entries[..|entries|] == entries;
  }

  /** One entry of the loop: a directory not skipped is searched, a source file scanned. */
  method SearchEntry(e: Entry, prefix: Path) returns (found: seq<Finding>)
    ensures found == FindingsOf(Walk([e], prefix, SkippedDirs, IsSourceName), IsFlagged)
    decreases e
  {
    found := [];
    match e.node {
      case Dir(sub) =>
        DirContribution(e, prefix, SkippedDirs, IsSourceName, IsFlagged);
        if e.name !in SkippedDirs {
          found := FindConsoleLogs(sub, prefix + [e.name]);
        }
      case File(size, content) =>
        FileContribution(e, prefix, SkippedDirs, IsSourceName, IsFlagged);
        if IsSourceName(e.name) {
          found := ScanLines(prefix + [e.name], Split(content, '\n'), IsFlagged);
        }
    }
  }

  /** The entries of a directory of the frontend, or `None` when `readdirSync` would throw. */
  function SourceDir(frontend: Node, name: Name): (r: Option<seq<Entry>>)
    ensures r.Some? <==> Lookup(frontend, [name]).Some? && Lookup(frontend, [name]).value.Dir?
    ensures r.Some? ==> Lookup(frontend, [name]) == Some(Dir(r.value))
  {
    match Lookup(frontend, [name])
    case Some(Dir(entries)) => Some(entries)
    case _ => None
  }

  /** The findings below the frontend's directory `name`; `None` when it cannot be listed. */
  function FindingsUnder(frontend: Node, name: Name): Option<seq<Finding>> {
    match SourceDir(frontend, name)
    case None => None
    case Some(entries) => Some(FindingsOf(Walk(entries, [name], SkippedDirs, IsSourceName), IsFlagged))
  }

  lemma FindingsUnderBelow(frontend: Node, name: Name)
    requires FindingsUnder(frontend, name).Some?
    ensures forall k :: 0 <= k < |FindingsUnder(frontend, name).value| ==>
      Below(FindingsUnder(frontend, name).value[k].file, [name])
  {
    FindingsOfBelow(Walk(SourceDir(frontend, name).value, [name], SkippedDirs, IsSourceName), [name], IsFlagged);
  }

  /** The findings under `components`, then those under `app`; `None` when either directory cannot be listed. */
  function ConsoleFindings(frontend: Node): Option<seq<Finding>> {
    match (FindingsUnder(frontend, "components"), FindingsUnder(frontend, "app"))
    case (Some(c), Some(a)) => Some(c + a)
    case _ => None
  }

  /** Before `n` every finding is under `components`, from `n` on every finding is under `app`. */
  predicate CutAt(r: seq<Finding>, n: nat, first: Path, second: Path) {
    && n <= |r|
    && (forall k :: 0 <= k < n ==> Below(r[k].file, first))
    && (forall k :: n <= k < |r| ==> Below(r[k].file, second))
  }

  lemma CutAtJoin(c: seq<Finding>, a: seq<Finding>, first: Path, second: Path)
    requires forall k :: 0 <= k < |c| ==> Below(c[k].file, first)
    requires forall k :: 0 <= k < |a| ==> Below(a[k].file, second)
    ensures CutAt(c + a, |c|, first, second)
  {
    var r := c + a;
    assert forall k :: 0 <= k < |c| ==> r[k] == c[k];
    assert forall k :: |c| <= k < |r| ==> r[k] == a[k - |c|];
  }

  /** The findings under `components` come first, those under `app` after them. */
  lemma ComponentsBeforeApp(frontend: Node)
    requires ConsoleFindings(frontend).Some?
    ensures exists n: nat :: CutAt(ConsoleFindings(frontend).value, n, ["components"], ["app"])
  {
    FindingsUnderBelow(frontend, "components");
    FindingsUnderBelow(frontend, "app");
    var c := FindingsUnder(frontend, "components").value;
    var a := FindingsUnder(frontend, "app").value;
    CutAtJoin(c, a, ["components"], ["app"]);
  }

  /** `checkConsoleLogs`: passes with no findings, otherwise a warning carrying all of them. */
  function ConsoleResult(found: seq<Finding>): (r: CheckResult)
    ensures r.passed <==> found == []
    ensures r.warning <==> found != []
    ensures found != [] ==> r.detail == Findings(found)
  {
    if found == [] then CheckResult(true, false, NoDetail)
    else CheckResult(false, true, Findings(found))
  }

  /** Reading both directories and building the console check's record. */
  method CheckConsoleLogs(frontend: Node) returns (r: Option<CheckResult>)
    ensures r.None? <==> ConsoleFindings(frontend).None?
    ensures r.Some? ==> r.value == ConsoleResult(ConsoleFindings(frontend).value)
  {
    var components := SourceDir(frontend, "components");
    if components.None? {
      return None;
    }
    var fromComponents := FindConsoleLogs(components.value, ["components"]);
    var app := SourceDir(frontend, "app");
    if app.None? {
      return None;
    }
    var fromApp := FindConsoleLogs(app.value, ["app"]);
    return Some(ConsoleResult(fromComponents + fromApp));
  }

  // ---------------------------------------------------------------------------
  // Check 4: SEO metadata

  const MissingMetadata := "Missing metadata export"
  const MissingTitle := "Missing title in metadata"
  const MissingDescription := "Missing description in metadata"

  /** Position of each issue in the order the check looks for them. */
  function IssueRank(issue: string): nat {
    if issue == MissingMetadata then 0 else if issue == MissingTitle then 1 else 2
  }

  /** Three conditional pushes onto an empty list yield `LayoutIssues`. */
  lemma LayoutIssuesSteps(hasMetadata: bool, hasTitle: bool, hasDescription: bool,
                          first: seq<string>, second: seq<string>, third: seq<string>)
    requires first == if hasMetadata then [] else [MissingMetadata]
    requires second == if hasTitle then first else first + [MissingTitle]
    requires third == if hasDescription then second else second + [MissingDescription]
    ensures third == LayoutIssues(hasMetadata, hasTitle, hasDescription)
  {
    var a := if hasMetadata then [] else [MissingMetadata];
    var b: seq<string> := if hasTitle then [] else [MissingTitle];
    var c: seq<string> := if hasDescription then [] else [MissingDescription];
    assert second == a + b;
    assert third == a + b + c;
  }

  /** The issues found in the root layout's text, in the order they are looked for. */
  function SeoIssues(content: string): (issues: seq<string>)
    ensures MissingMetadata in issues <==> !Contains(content, "export const metadata")
    ensures MissingTitle in issues <==> !Contains(content, "title")
    ensures MissingDescription in issues <==> !Contains(content, "description")
    ensures forall i :: 0 <= i < |issues| ==> issues[i] in {MissingMetadata, MissingTitle, MissingDescription}
    ensures forall i, j :: 0 <= i < j < |issues| ==> IssueRank(issues[i]) < IssueRank(issues[j])
  {
    LayoutIssues(Contains(content, "export const metadata"), Contains(content, "title"), Contains(content, "description"))
  }

  /** The issues for the outcomes of the three `includes` tests, in the order they are made. */
  function LayoutIssues(hasMetadata: bool, hasTitle: bool, hasDescription: bool): (issues: seq<string>)
    ensures MissingMetadata in issues <==> !hasMetadata
    ensures MissingTitle in issues <==> !hasTitle
    ensures MissingDescription in issues <==> !hasDescription
    ensures forall i :: 0 <= i < |issues| ==> issues[i] in {MissingMetadata, MissingTitle, MissingDescription}
    ensures forall i, j :: 0 <= i < j < |issues| ==> IssueRank(issues[i]) < IssueRank(issues[j])
  {
    (if !hasMetadata then [MissingMetadata] else [])
      + (if !hasTitle then [MissingTitle] else [])
      + (if !hasDescription then [MissingDescription] else [])
  }

  /**
   * `checkSEOMetadata` for what `app/layout.js` is: a missing layout fails
   * without a warning, a directory makes `readFileSync` throw (`None`), and a
   * file passes when it has no issues and is a warning otherwise.
   */
  function SeoResult(layout: Option<Node>): (r: Option<CheckResult>)
    ensures r.None? <==> layout.Some? && layout.value.Dir?
    ensures layout.None? ==> r == Some(CheckResult(false, false, NoDetail))
    ensures layout.Some? && layout.value.File? ==>
      r.Some? && (r.value.passed <==> SeoIssues(layout.value.content) == [])
      && r.value.warning == !r.value.passed
  {
    match layout
    case None => Some(CheckResult(false, false, NoDetail))
    case Some(Dir(_)) => None
    case Some(File(_, content)) =>
      var issues := SeoIssues(content);
      if issues == [] then Some(CheckResult(true, false, NoDetail))
      else Some(CheckResult(false, true, Issues(issues)))
  }

  const LayoutPath: Path := ["app", "layout.js"]

  /** The three `includes` tests, each pushing its issue. */
  method CheckSeoMetadata(frontend: Node) returns (r: Option<CheckResult>)
    ensures r == SeoResult(Lookup(frontend, LayoutPath))
  {
    var layout := Lookup(frontend, LayoutPath);
    if layout.None? {
      return Some(CheckResult(false, false, NoDetail));
    }
    if layout.value.Dir? {
      return None;
    }
    var content := layout.value.content;
    var hasMetadata, hasTitle, hasDescription :=
      Contains(content, "export const metadata"), Contains(content, "title"), Contains(content, "description");
    var issues := [];
    if !hasMetadata {
      issues := issues + [MissingMetadata];
    }
    ghost var first := issues;
    if !hasTitle {
      issues := issues + [MissingTitle];
    }
    ghost var second := issues;
    if !hasDescription {
      issues := issues + [MissingDescription];
    }
    LayoutIssuesSteps(hasMetadata, hasTitle, hasDescription, first, second, issues);
    if |issues| == 0 {
      return Some(CheckResult(true, false, NoDetail));
    }
    return Some(CheckResult(false, true, Issues(issues)));
  }

  // ---------------------------------------------------------------------------
  // Check 5: critical assets

  const CriticalAssets: seq<string> := ["images/hero-vr-glass.png", "images/branding-image.png"]

  /** `path.join(FRONTEND_DIR, 'public', asset)`, below the frontend directory. */
  function AssetPath(asset: string): Path {
    ["public"] + Split(asset, '/')
  }

  function IsMissing(frontend: Node): string -> bool {
    asset => !Exists(frontend, AssetPath(asset))
  }

  /** The assets of the list that do not exist, in list order. */
  function MissingAssets(frontend: Node, assets: seq<string>): (missing: seq<string>)
    ensures forall i :: 0 <= i < |missing| ==> missing[i] in assets && !Exists(frontend, AssetPath(missing[i]))
    ensures forall i :: 0 <= i < |assets| && !Exists(frontend, AssetPath(assets[i])) ==> assets[i] in missing
  {
    Filter(assets, IsMissing(frontend))
  }

  function AssetsResult(missing: seq<string>): (r: CheckResult)
    ensures r.passed <==> missing == []
    ensures !r.warning
    ensures missing != [] ==> r.detail == Missing(missing)
  {
    if missing == [] then CheckResult(true, false, NoDetail)
    else CheckResult(false, false, Missing(missing))
  }

  /** `checkCriticalAssets`: the `forEach` pushing each asset that does not exist. */
  method CheckCriticalAssets(frontend: Node, assets: seq<string>) returns (r: CheckResult)
    ensures r == AssetsResult(MissingAssets(frontend, assets))
  {
    var missing := [];
    var i := 0;
    while i < |assets|
      invariant 0 <= i <= |assets|
      invariant missing == Filter(assets[..i], IsMissing(frontend))
    {
      var asset := assets[i];
      var gone := IsMissing(frontend)(asset);
      FilterSnoc(assets, i, IsMissing(frontend));
      if gone {
        missing := missing + [asset];
      }
      i := i + 1;
    }
    assert assets[..i] == assets;
    return AssetsResult(missing);
  }

  // ---------------------------------------------------------------------------
  // Summary and exit status

  datatype Summary = Summary(passed: nat, total: nat, warnings: nat)

  function Passed(r: CheckResult): bool { r.passed }
  function Warned(r: CheckResult): bool { r.warning }

  /** The counts of passed and warning records among all of them. */
  function Summarize(results: seq<CheckResult>): (s: Summary)
    ensures s.total == |results|
    ensures s.passed <= s.total && s.warnings <= s.total
  {
    Summary(|Filter(results, Passed)|, |results|, |Filter(results, Warned)|)
  }

  /** All checks passed exactly when the passed count reaches the total. */
  lemma AllPassedIff(results: seq<CheckResult>)
    ensures Summarize(results).passed == Summarize(results).total
      <==> forall i :: 0 <= i < |results| ==> results[i].passed
  {
    FilterKeepsAll(results, Passed);
  }

  /** When no warning record has passed, one warning is enough to fail the run. */
  lemma WarningFails(results: seq<CheckResult>)
    requires forall i :: 0 <= i < |results| ==> results[i].warning ==> !results[i].passed
    requires Summarize(results).warnings > 0
    ensures Summarize(results).passed < Summarize(results).total
  {
    var w := Filter(results, Warned);
    assert w[0] in results && Warned(w[0]);
    AllPassedIff(results);
  }

  datatype Outcome = Crashed | Completed(success: bool, results: seq<CheckResult>, summary: Summary)

  /**
   * The runner once each check's input is known: the console findings (`None`
   * when a directory cannot be listed), the SEO record (`None` when the layout
   * cannot be read) and the missing critical assets.
   */
  function Combine(lintOk: bool, buildOk: bool, console: Option<seq<Finding>>, seo: Option<CheckResult>, missing: seq<string>): (o: Outcome)
    ensures o.Crashed? <==> console.None? || seo.None?
    ensures o.Completed? ==> |o.results| == 5 && o.summary == Summarize(o.results)
    ensures o.Completed? ==> (o.success <==> o.summary.passed == o.summary.total)
  {
    if console.None? || seo.None? then Crashed
    else
      var results := [
        CommandCheck(lintOk, "Lint errors found"),
        CommandCheck(buildOk, "Build errors"),
        ConsoleResult(console.value),
        seo.value,
        AssetsResult(missing)
      ];
      var summary := Summarize(results);
      Completed(summary.passed == summary.total, results, summary)
  }

  /** `runPreDeployChecks` over the frontend directory, with the lint and build outcomes given. */
  function PreDeploy(frontend: Node, lintOk: bool, buildOk: bool): Outcome {
    Combine(lintOk, buildOk, ConsoleFindings(frontend), SeoResult(Lookup(frontend, LayoutPath)),
      MissingAssets(frontend, CriticalAssets))
  }

  /** `process.exit(result.success ? 0 : 1)`, and 1 for a rejected promise. */
  function ExitCode(o: Outcome): (code: nat)
    ensures code <= 1
  {
    if o.Completed? && o.success then 0 else 1
  }

  /** Exit 0 exactly when every one of the five checks passed. */
  lemma CombineExitZeroIff(lintOk: bool, buildOk: bool, console: Option<seq<Finding>>, seo: Option<CheckResult>, missing: seq<string>)
    ensures ExitCode(Combine(lintOk, buildOk, console, seo, missing)) == 0 <==>
      lintOk && buildOk && console == Some([]) && seo.Some? && seo.value.passed && missing == []
  {
    var o := Combine(lintOk, buildOk, console, seo, missing);
    if o.Completed? {
      AllPassedIff(o.results);
      assert o.results[0].passed == lintOk;
      assert o.results[1].passed == buildOk;
      assert o.results[2].passed <==> console.value == [];
      assert o.results[3].passed == seo.value.passed;
      assert o.results[4].passed <==> missing == [];
    }
  }

  /**
   * The run exits 0 exactly when lint and build succeed, no console call is
   * left, the root layout exists with its metadata export, title and
   * description, and both critical images exist.
   */
  lemma ExitZeroIff(frontend: Node, lintOk: bool, buildOk: bool)
    ensures ExitCode(PreDeploy(frontend, lintOk, buildOk)) == 0 <==>
      && lintOk && buildOk
      && ConsoleFindings(frontend) == Some([])
      && Lookup(frontend, LayoutPath).Some? && Lookup(frontend, LayoutPath).value.File?
      && SeoIssues(Lookup(frontend, LayoutPath).value.content) == []
      && MissingAssets(frontend, CriticalAssets) == []
  {
    CombineExitZeroIff(lintOk, buildOk, ConsoleFindings(frontend), SeoResult(Lookup(frontend, LayoutPath)),
      MissingAssets(frontend, CriticalAssets));
  }

  /** A check that warns has not passed, so a completed run with a warning is unsuccessful. */
  lemma WarningsFailRun(lintOk: bool, buildOk: bool, console: Option<seq<Finding>>, layout: Option<Node>, missing: seq<string>)
    requires Combine(lintOk, buildOk, console, SeoResult(layout), missing).Completed?
    requires Combine(lintOk, buildOk, console, SeoResult(layout), missing).summary.warnings > 0
    ensures !Combine(lintOk, buildOk, console, SeoResult(layout), missing).success
  {
    var o := Combine(lintOk, buildOk, console, SeoResult(layout), missing);
    WarningFails(o.results);
  }

  /** The runner: the five checks in order, then the summary. */
  method RunPreDeployChecks(frontend: Node, lintOk: bool, buildOk: bool) returns (o: Outcome)
    ensures o == PreDeploy(frontend, lintOk, buildOk)
  {
    var lint := CommandCheck(lintOk, "Lint errors found");
    var build := CommandCheck(buildOk, "Build errors");
    var console := CheckConsoleLogs(frontend);
    if console.None? {
      return Crashed;
    }
    var seo := CheckSeoMetadata(frontend);
    if seo.None? {
      return Crashed;
    }
    var assets := CheckCriticalAssets(frontend, CriticalAssets);
    var results := [lint, build, console.value, seo.value, assets];
    var summary := Summarize(results);
    return Completed(summary.passed == summary.total, results, summary);
  }
}
