# immagina.io command-line scripts, modelled in Dafny

This project models the logic of the maintenance scripts that sit next to the
immagina.io marketing site: the checks run before a Vercel deployment, the
image and asset tools, the backup, SEO and component generators, the
Lighthouse history, and the server-side loader of the blog index. It proves
that each model does what its script promises. Each script has its own module:

- `AssetAudit` (`execution/audit_assets.js`): extracts the `src=` image references from the frontend sources. It splits the distinct references into found and missing against `public/images`, lists the unused images, and derives the exit code.
- `VercelDeployCheck` (`execution/vercel_deploy_check.js`): runs eight checks over the frontend, which raise the `hasErrors`/`hasWarnings` flags. The flags are the fields of the `DeployChecker` class, and the exit code follows from them.
- `PreDeployCheck` (`execution/pre_deploy_check.js`): runs five checks, each returning a pass/warning record, then the summary and the overall verdict.
- `PerformanceMonitor` (`execution/performance_monitor.js`): score bands, the overall assessment, the twenty-entry history file (the `HistoryFile` class) and the trend between the two newest audits.
- `GenerateComponent` (`execution/generate_component.js`): name validation, the template choice and the no-overwrite rule of the component generator (the `ComponentsDir` class).
- `BackupProject` (`execution/backup_project.js`): options, backup name, project statistics, the copy with exclusions, the reported path and the listing of earlier backups.
- `CompressAllImages` (`execution/compress_all_images.js`): options, the recursive image listing, the per-image rules and the counters of the batch compressor.
- `GenerateSeoFiles` (`execution/generate_seo_files.js`): the sitemap (Sitemaps protocol 0.9), robots.txt (RFC 9309) and the run that writes the five files (the `Disk` class).
- `BlogPosts` (`frontend/app/blog/page.jsx`): `getBlogPosts`, which gives slugs, front-matter merge and newest-first order.
- `ExampleScript` (`execution/example_script.js`): input validation, `Number` conversion of the second argument, and `main`.

Shared modules:

- `Wrappers`: `Option` and `Result`.
- `Seqs`: filters and their counts.
- `Sorting`: the stable descending sort that `Array.prototype.sort` performs with a key comparator.
- `Strings`: JavaScript's `indexOf`, `includes`, `replace` with a string pattern, `trim`, `split` on one character, and decimal rendering.
- `Json`: parsed JSON values, truthiness and property access.
- `FileTree`: the directory tree and the recursive `readdirSync`/`statSync` walk.
- `LineScan`: the line-by-line console-call scan.

The file system is a tree of named entries in listing order. Subprocesses
(`npm run build`, `npm run lint`, Lighthouse, `tar`, sharp) are represented by
their outcomes. JSON, front-matter and date parsing are function parameters,
except for the performance history, which is stored as already parsed entries.
The clock enters as ISO-8601 text. A JavaScript exception that escapes is
modelled as `None` or an explicit crash outcome, except for a malformed
history file (see "Left out").

## Model

| member | source | states |
|---|---|---|
| AssetAudit.RunLength | execution/audit_assets.js:30 | the `[^"'}]+` run from a position: every character in it is not a closing quote or brace, and it ends at the end of the text or at a closing character |
| AssetAudit.MatchAt | execution/audit_assets.js:30 | the result is a match of `src=["'{]([^"'}]+)["'}]` at the position (`PatternAt`: `src=`, an opening quote or brace, a non-empty value free of closing characters, a closing one, and the end just past it); every match there is the result, so `None` means the pattern does not match there |
| AssetAudit.PatternRun | execution/audit_assets.js:30 | the value of any match is exactly the run of characters outside `["'}]` after the opening character |
| AssetAudit.SrcValuesFrom | execution/audit_assets.js:30-33 | definition: the values of successive `exec` matches, each search resuming where the previous match ended; `ExecStep` and `NoSrcNoValues` state its properties |
| AssetAudit.Normalize | execution/audit_assets.js:37 | definition: the first `/images/`, then the first `images/`, removed; `ExtractsEmbeddedName` states what it gives for `/images/<name>` |
| AssetAudit.LocalImages | execution/audit_assets.js:36-37 | keeping only values that name local images never adds references |
| AssetAudit.LocalImagesKeptNormalised | execution/audit_assets.js:36-37 | the references are exactly the values that name local images, each with its `images/` prefix removed, in source order and with repetitions |
| AssetAudit.ImageReferences | execution/audit_assets.js:26-42 | definition: the normalised local-image values of all matches, in order; `ExtractImageReferences`, `NoSrcNoReferences` and `ExtractsEmbeddedName` state its properties |
| AssetAudit.ExtractImageReferences | execution/audit_assets.js:26-42 | the `exec` loop returns exactly the local-image values of all matches, normalised, in text order |
| AssetAudit.LocalImageSrcIff | execution/audit_assets.js:36 | the `startsWith('/images/')` test adds nothing: a value is kept exactly when it contains `images/` |
| AssetAudit.NoSrcNoReferences | execution/audit_assets.js:26-42 | text with no `src=` yields no references |
| AssetAudit.ExtractsEmbeddedName | execution/audit_assets.js:30-37 | `src="/images/<name>"` yields exactly `[<name>]` when the name has no quote, brace or `images/` |
| AssetAudit.ScanDirectory | execution/audit_assets.js:47-65 | the scan appends the depth-first walk to the list; each listed file has a `.js/.jsx/.ts/.tsx` name and no `node_modules` or `.next` directory on its path |
| AssetAudit.ExistingAssets | execution/audit_assets.js:70-77 | no images directory gives no assets; listing a file fails; otherwise a name is listed exactly when the directory holds it and it has an image extension |
| AssetAudit.ByFile | execution/audit_assets.js:96-105 | `referencesByFile` has at most one entry per file |
| AssetAudit.ByFileSound | execution/audit_assets.js:96-105 | every entry of `referencesByFile` carries the non-empty references of one of the files |
| AssetAudit.ByFileComplete | execution/audit_assets.js:96-105 | every file with a reference has an entry |
| AssetAudit.AllRefs | execution/audit_assets.js:93-103 | `allReferences` holds no value twice |
| AssetAudit.AllRefsIff | execution/audit_assets.js:93-105 | a value is in `allReferences` exactly when some file references it |
| AssetAudit.CollectReferences | execution/audit_assets.js:96-105 | the `forEach` over the files builds exactly `ByFile` and `AllRefs` |
| AssetAudit.SplitFound | execution/audit_assets.js:111-120 | found is the references in the listing, missing the others, both in `allReferences` order |
| AssetAudit.Reconcile | execution/audit_assets.js:111-137 | total references and total assets are the two lengths; found, missing and unused hold exactly the references in the listing, the references not in it and the images not referenced |
| AssetAudit.ReconcileCounts | execution/audit_assets.js:126-133 | found plus missing equals total references; with distinct image names, found plus unused equals total assets |
| AssetAudit.NothingMissingIff | execution/audit_assets.js:114-133 | the missing count is zero exactly when every reference is in the listing |
| AssetAudit.NoImagesDirectory | execution/audit_assets.js:70-123 | without an images directory every reference is missing and nothing is found or unused |
| AssetAudit.SourceDir | execution/audit_assets.js:48 | a scan root succeeds exactly when the name is a directory of the frontend |
| AssetAudit.Audit | execution/audit_assets.js:82-195 | the audit succeeds exactly when `components` and `app` are directories and the images listing does not fail |
| AssetAudit.AuditAssets | execution/audit_assets.js:82-195 | the step-by-step audit returns exactly `Audit` of the frontend |
| AssetAudit.BuildReport | execution/audit_assets.js:108-137 | the report built step by step is exactly `Reconcile` of the collected references and the listing |
| AssetAudit.ExitCode | execution/audit_assets.js:198-209 | the exit code is 0 or 1; `ExitZeroIff` states when it is 0 |
| AssetAudit.ExitZeroIff | execution/audit_assets.js:198-209 | the exit code is 0 exactly when the audit ran and every image any source file references is listed |
| VercelDeployCheck.ReadText | execution/vercel_deploy_check.js:65-71 | a file reads as missing exactly when nothing exists at its path; a directory there is unreadable |
| VercelDeployCheck.HasAppend | execution/vercel_deploy_check.js:54-55 | the issues of two checks together hold an error (a warning) exactly when one of them does, so the flags can be raised check by check |
| VercelDeployCheck.SkipWs | execution/vercel_deploy_check.js:75-77 | `\s*` consumes exactly the white space after a position and stops at the first other character |
| VercelDeployCheck.NextConfigIssues | execution/vercel_deploy_check.js:60-102 | check 1 throws only on an unreadable file; it reports an error exactly when the file is missing or one of the three bad patterns occurs, one issue per pattern found, and never a warning |
| VercelDeployCheck.PatternIssues | execution/vercel_deploy_check.js:80-86 | the bad-pattern loop reports each pattern's issue exactly when that pattern matched, and an error exactly when one did |
| VercelDeployCheck.StaticExportRejected | execution/vercel_deploy_check.js:75 | a configuration containing `output: 'export'` anywhere is reported as a bad `output` |
| VercelDeployCheck.CleanConfigAccepted | execution/vercel_deploy_check.js:74-101 | a configuration mentioning none of `output:`, `trailingSlash:`, `unoptimized:` passes check 1 with no issue |
| VercelDeployCheck.NpmrcIssues | execution/vercel_deploy_check.js:107-127 | check 2 reports an error exactly unless `.npmrc` exists and contains `legacy-peer-deps=true`, never a warning, and throws only on an unreadable file |
| VercelDeployCheck.VercelJsonIssues | execution/vercel_deploy_check.js:132-162 | a missing `vercel.json` is one warning; unreadable or unparsable text, or `null`, throws; otherwise a set `buildCommand`, a set `outputDirectory` and a `framework` other than `"nextjs"` are each reported exactly when they hold, and no warning is added |
| VercelDeployCheck.SeoIssues | execution/vercel_deploy_check.js:167-184 | check 4 warns once per missing file among `robots.txt` and `sitemap.xml` and never reports an error |
| VercelDeployCheck.ThreeJsIssues | execution/vercel_deploy_check.js:189-209 | check 5 warns exactly when `HeroCanvas.jsx` contains `<Canvas` and is not marked as disabled, never errs, and throws only on an unreadable file |
| VercelDeployCheck.DependencyIssues | execution/vercel_deploy_check.js:317-345 | check 8 completes exactly when `package.json` reads and parses to an object whose `dependencies` can be dereferenced; it then warns exactly when `engines.node` is not set, and never errs |
| VercelDeployCheck.IsConsoleCall | execution/vercel_deploy_check.js:284 | definition: `console.` followed by `log`, `warn`, `error`, `debug` or `info` occurs somewhere in the line; `SearchDirectory` and `ConsoleIssues` state what it flags |
| VercelDeployCheck.SearchDirectory | execution/vercel_deploy_check.js:267-296 | `searchDirectory` returns exactly the console-call lines of the `.js`/`.jsx`/`.ts`/`.tsx` files below the directory, skipping the excluded directory names, in listing order |
| VercelDeployCheck.SearchEntry | execution/vercel_deploy_check.js:271-293 | one directory entry contributes the findings below it, or nothing when its name is excluded, and a file entry its findings when its extension is searched |
| VercelDeployCheck.ConsoleIssues | execution/vercel_deploy_check.js:261-312 | check 7 warns exactly when the search finds some console call, and never errs |
| VercelDeployCheck.Listing | execution/vercel_deploy_check.js:300-307 | the report lists the first five findings (all of them when fewer) and, when there are more than five, the count of the rest, which together make up the total |
| VercelDeployCheck.BuildIssues | execution/vercel_deploy_check.js:214-256 | check 6 reports an error exactly when the build throws, takes under ten seconds or leaves no `.next` directory, never a warning |
| VercelDeployCheck.Checks | execution/vercel_deploy_check.js:361-369 | there are eight checks; `ChecksAt` states which check sits at each position |
| VercelDeployCheck.ChecksAt | execution/vercel_deploy_check.js:361-369 | the eight checks in the order `main` runs them: `next.config.js`, `.npmrc`, `vercel.json`, SEO files, Three.js, dependencies, console calls, then the build |
| VercelDeployCheck.Then | execution/vercel_deploy_check.js:361-369 | a run continues only while every check so far completed, and its issues are those of the earlier checks followed by the next one's |
| VercelDeployCheck.ChainIff | execution/vercel_deploy_check.js:361-369 | the run finishes exactly when no check throws, and a finished run holds an error exactly when some check reported one |
| VercelDeployCheck.Outcome | execution/vercel_deploy_check.js:350-390 | definition: a missing frontend directory, or the chain of the eight checks; `ChainIff`, `ChainCrash` and `ChainClean` state its properties |
| VercelDeployCheck.ExitCode | execution/vercel_deploy_check.js:356-389 | definition: 1 for a missing frontend, a crash or an error, 0 otherwise; `ExitZeroIff` states when it is 0 |
| VercelDeployCheck.ExitZeroIff | execution/vercel_deploy_check.js:356-389 | the script exits 0 exactly when every check ran and none reported an error; warnings alone still exit 0 |
| VercelDeployCheck.ZeroExitGuarantees | execution/vercel_deploy_check.js:350-390 | a zero exit status vouches that `.npmrc` enables legacy peer dependencies, the build completed in at least ten seconds with `.next` present, and an existing `vercel.json` names the `nextjs` framework |
| VercelDeployCheck.ChainClean | execution/vercel_deploy_check.js:374-377 | with exit code 0, every check ran and reported no error |
| VercelDeployCheck.ChainCrash | execution/vercel_deploy_check.js:361-369 | a check that throws ends the run with a crash |
| VercelDeployCheck.VercelJsonClean | execution/vercel_deploy_check.js:156-158 | when check 3 completes without an error, an existing `vercel.json` names the `nextjs` framework |
| VercelDeployCheck.DeployChecker.constructor | execution/vercel_deploy_check.js:54-55 | both flags start lowered, with no issue reported |
| VercelDeployCheck.DeployChecker.Report | execution/vercel_deploy_check.js:54-55 | reporting appends the issues and keeps each flag raised exactly when an issue of its kind has been reported |
| VercelDeployCheck.DeployChecker.CheckNextConfig | execution/vercel_deploy_check.js:60-102 | `checkNextConfig` throws exactly when check 1 does and otherwise reports exactly its issues, keeping the flags in step |
| VercelDeployCheck.DeployChecker.CheckNpmrc | execution/vercel_deploy_check.js:107-127 | `checkNpmrc` throws exactly when check 2 does and otherwise reports exactly its issues |
| VercelDeployCheck.DeployChecker.CheckVercelJson | execution/vercel_deploy_check.js:132-162 | `checkVercelJson` throws exactly when reading or parsing fails and otherwise reports exactly check 3's issues |
| VercelDeployCheck.DeployChecker.CheckSeoFiles | execution/vercel_deploy_check.js:167-184 | `checkSeoFiles` reports exactly check 4's warnings |
| VercelDeployCheck.DeployChecker.CheckThreeJsComponents | execution/vercel_deploy_check.js:189-209 | `checkThreeJsComponents` throws exactly when check 5 does and otherwise reports exactly its issues |
| VercelDeployCheck.DeployChecker.CheckDependencies | execution/vercel_deploy_check.js:317-345 | `checkDependencies` throws exactly when check 8 does and otherwise reports exactly its issues |
| VercelDeployCheck.DeployChecker.CheckConsoleLogs | execution/vercel_deploy_check.js:261-312 | `checkConsoleLogs` reports exactly check 7's issues |
| VercelDeployCheck.DeployChecker.CheckBuild | execution/vercel_deploy_check.js:214-256 | `checkBuild` reports exactly check 6's issues |
| VercelDeployCheck.DeployChecker.RunConfigChecks | execution/vercel_deploy_check.js:362-364 | checks 1 to 3 either crash the run or leave the reported issues equal to what the first three checks produce |
| VercelDeployCheck.DeployChecker.RunContentChecks | execution/vercel_deploy_check.js:365-367 | the next three checks either crash the run or extend the reported issues to what the first six checks produce |
| VercelDeployCheck.DeployChecker.Run | execution/vercel_deploy_check.js:350-390 | `main` returns the exit code of the modelled run, and a finished run leaves exactly its issues reported with `hasErrors` deciding the exit code |
| PreDeployCheck.CommandCheck | execution/pre_deploy_check.js:44-75 | lint or build passes exactly when the command succeeds, never warns, and carries its message on failure |
| PreDeployCheck.IsComment | execution/pre_deploy_check.js:99-100 | definition: the trimmed line starts with `//` or `*`; `CommentLineNotReported` states that such a line is never reported |
| PreDeployCheck.IsFlagged | execution/pre_deploy_check.js:99-103 | definition: not a comment line, and containing `console.log` or `console.error`; `LineFindingsSound` and `LineFindingsComplete` state that exactly these lines are reported |
| PreDeployCheck.CommentLineNotReported | execution/pre_deploy_check.js:97-101 | a line whose trimmed text starts with `//` or `*` never yields a finding, whatever it contains |
| PreDeployCheck.FindConsoleLogs | execution/pre_deploy_check.js:83-115 | the recursive search returns the findings of every source file outside `node_modules` and `.next`, file by file in listing order |
| PreDeployCheck.SearchEntry | execution/pre_deploy_check.js:87-112 | one entry contributes the findings of the directory below it, of the source file it is, or nothing |
| PreDeployCheck.SourceDir | execution/pre_deploy_check.js:84 | a directory can be listed exactly when it exists as a directory of the frontend |
| PreDeployCheck.FindingsUnderBelow | execution/pre_deploy_check.js:105 | every finding's path lies below the directory searched |
| PreDeployCheck.ComponentsBeforeApp | execution/pre_deploy_check.js:117-120 | the findings under `components` come first, those under `app` after them |
| PreDeployCheck.ConsoleResult | execution/pre_deploy_check.js:122-131 | passes exactly with no findings, warns exactly with some, and then carries all of them |
| PreDeployCheck.CheckConsoleLogs | execution/pre_deploy_check.js:80-132 | the record is built from the findings of both directories, and the check throws exactly when either cannot be listed |
| PreDeployCheck.LayoutIssues | execution/pre_deploy_check.js:148-160 | each issue is listed exactly when its test fails, nothing else is listed, and they keep the order metadata, title, description |
| PreDeployCheck.SeoIssues | execution/pre_deploy_check.js:148-160 | `Missing metadata export`, `Missing title` and `Missing description` are listed exactly when the layout lacks `export const metadata`, `title` and `description`, in that order |
| PreDeployCheck.SeoResult | execution/pre_deploy_check.js:137-170 | a missing layout fails without warning, a directory throws, a file passes exactly without issues and warns otherwise |
| PreDeployCheck.CheckSeoMetadata | execution/pre_deploy_check.js:137-170 | the three conditional pushes give exactly `SeoResult` of the layout |
| PreDeployCheck.MissingAssets | execution/pre_deploy_check.js:178-190 | an asset is reported missing exactly when it is in the list and does not exist under `public` |
| PreDeployCheck.AssetsResult | execution/pre_deploy_check.js:192-199 | passes exactly when nothing is missing, never warns, and carries the missing assets |
| PreDeployCheck.CheckCriticalAssets | execution/pre_deploy_check.js:175-200 | the `forEach` gives exactly the record for the missing assets |
| PreDeployCheck.Summarize | execution/pre_deploy_check.js:221-223 | the total is the number of checks, and passed and warnings never exceed it |
| PreDeployCheck.AllPassedIff | execution/pre_deploy_check.js:221-231 | the passed count reaches the total exactly when every check passed |
| PreDeployCheck.WarningFails | execution/pre_deploy_check.js:221-231 | when no warning record has passed, one warning makes the run fail |
| PreDeployCheck.Combine | execution/pre_deploy_check.js:205-244 | the run crashes exactly when a directory or the layout cannot be read; otherwise five records, their summary, success exactly when all passed |
| PreDeployCheck.CombineExitZeroIff | execution/pre_deploy_check.js:205-251 | exit 0 exactly when lint and build succeed, no finding is left, the SEO record passed and nothing is missing |
| PreDeployCheck.ExitZeroIff | execution/pre_deploy_check.js:205-251 | exit 0 exactly when lint and build succeed, no console call is left, the layout exists as a file without issues and both critical images exist |
| PreDeployCheck.WarningsFailRun | execution/pre_deploy_check.js:221-236 | a completed run with a warning is unsuccessful |
| PreDeployCheck.PreDeploy | execution/pre_deploy_check.js:205-244 | definition: the five checks combined; `ExitZeroIff` and `WarningsFailRun` state its properties |
| PreDeployCheck.ExitCode | execution/pre_deploy_check.js:246-251 | the exit code is 0 or 1; `ExitZeroIff` states when it is 0 |
| PreDeployCheck.RunPreDeployChecks | execution/pre_deploy_check.js:205-244 | the runner's step-by-step result is exactly `PreDeploy` of the frontend |
| LineScan.LineFindings | execution/pre_deploy_check.js:97-110 | definition: one finding per flagged line, in line order; `LineFindingsSound`, `LineFindingsComplete` and `LineFindingsOrdered` state its properties |
| LineScan.LineFindingsSound | execution/pre_deploy_check.js:97-110 | every finding names the file, a line number within it and that line's trimmed text, and the line is one the check flags |
| LineScan.LineFindingsOrdered | execution/pre_deploy_check.js:97-110 | findings follow the order of the lines |
| LineScan.LineFindingsComplete | execution/pre_deploy_check.js:97-110 | every flagged line yields a finding with its 1-based number and trimmed text |
| LineScan.ScanLines | execution/vercel_deploy_check.js:283-291 | the loop over a file's lines returns exactly its line findings |
| LineScan.FindingsOfAppend | execution/pre_deploy_check.js:87-114 | the findings of two lists of files are those of the first followed by those of the second |
| LineScan.FindingsOfBelow | execution/pre_deploy_check.js:105 | the findings of files below a directory all lie below it |
| PerformanceMonitor.ScoreColor | execution/performance_monitor.js:39-43 | green exactly from 90, yellow exactly from 50 below 90, red exactly below 50 |
| PerformanceMonitor.ScoreMark | execution/performance_monitor.js:48-52 | the emoji follows the same bands as the colour |
| PerformanceMonitor.Average | execution/performance_monitor.js:140-142 | the rounded mean is the integer nearest to a quarter of the sum, halves rounded up |
| PerformanceMonitor.Assess | execution/performance_monitor.js:144-150 | excellent exactly when the four scores sum to at least 358, good exactly from 278 below 358, otherwise needs work |
| PerformanceMonitor.TargetUrl | execution/performance_monitor.js:219 | a missing or empty URL falls back to `http://localhost:3000`, any other is kept |
| PerformanceMonitor.Appended | execution/performance_monitor.js:168-177 | the new history ends with the new entry, preceded by the newest old entries, twenty at most |
| PerformanceMonitor.PreviousKept | execution/performance_monitor.js:168-177 | after a save on a non-empty history, the newest old entry sits just before the new one |
| PerformanceMonitor.ArrowOf | execution/performance_monitor.js:207 | up exactly for a rise, down exactly for a fall, flat for no change |
| PerformanceMonitor.LineFor | execution/performance_monitor.js:205-211 | a trend line carries the category, the latest minus the previous score, and that difference's arrow |
| PerformanceMonitor.Trend | execution/performance_monitor.js:185-212 | no lines with fewer than two entries, else one per category |
| PerformanceMonitor.TrendAfterSave | execution/performance_monitor.js:228-231 | after saving on top of an earlier entry, the four trend lines compare the new scores with the newest earlier ones, in category order |
| PerformanceMonitor.HistoryFile.SaveHistoricalData | execution/performance_monitor.js:158-180 | a failed audit changes nothing; a successful one leaves the history appended and trimmed to twenty |
| PerformanceMonitor.HistoryFile.ShowTrend | execution/performance_monitor.js:185-212 | the `forEach` over the categories yields exactly the trend of the stored history |
| PerformanceMonitor.Monitor | execution/performance_monitor.js:217-243 | exit code 0 exactly for a successful audit; a failed one leaves the history alone and shows no trend; a successful one is saved, then its trend shown |
| GenerateComponent.ValidateName | execution/generate_component.js:186-196 | a name is accepted exactly when it matches `^[A-Z][a-zA-Z0-9]*$`; a missing or empty name gets the "required" message, any other rejected name the PascalCase message |
| GenerateComponent.TemplateFor | execution/generate_component.js:24-181 | a type names a template exactly when it is one of the object's own keys `section`, `card`, `interactive` |
| GenerateComponent.InheritedKeyPassesTypeCheck | execution/generate_component.js:210-215 | as written, `toString` passes the `!TEMPLATES[type]` test although it names no template |
| GenerateComponent.Template | execution/generate_component.js:24-181 | definition: each template's text around the component name; `TemplateDeclaresComponent` states its property |
| GenerateComponent.TemplateDeclaresComponent | execution/generate_component.js:24-181 | every template, right after its imports, declares `export default function <name>(` |
| GenerateComponent.Generate | execution/generate_component.js:201-257 | success exactly when the name is valid, the type names a template and `<name>.jsx` does not exist yet; name errors come first, then the type error; the file is `frontend/components/<name>.jsx` |
| GenerateComponent.ComponentsDir.GenerateComponent | execution/generate_component.js:201-257 | the result is `Generate` of the old listing; the directory exists afterwards once name and type passed; a failure writes nothing, a success adds exactly the new file with the template text |
| GenerateComponent.ComponentsDir.Cli | execution/generate_component.js:259-278 | without a name the exit code is 1 and nothing changes; a missing or empty type means `section`; exit 0 exactly when generation succeeds, which never overwrites a file |
| BackupProject.NameValue | execution/backup_project.js:45-46 | the name taken from `--name=...` is the text after the flag up to the next `=` |
| BackupProject.CompressIff | execution/backup_project.js:37-53 | compression is off exactly when `--no-compress` is among the arguments |
| BackupProject.NoNameArg | execution/backup_project.js:37-53 | without a `--name=` argument the name stays null |
| BackupProject.LastNameWins | execution/backup_project.js:44-50 | the last `--name=` argument decides the name |
| BackupProject.ParseArgs | execution/backup_project.js:37-53 | the `forEach` over the arguments yields exactly the options of the left-to-right fold |
| BackupProject.Dashed | execution/backup_project.js:60 | every `:` and `.` becomes `-`, every other character stays, the length is kept |
| BackupProject.Timestamp | execution/backup_project.js:59-62 | the timestamp has the ISO text's length and no `:` or `.`; it is the dashed text with its first `T` made `_` |
| BackupProject.BackupName | execution/backup_project.js:58-67 | a non-empty custom name, else `immagina-backup`, then `_` and the timestamp |
| BackupProject.CountedOutsideSkipped | execution/backup_project.js:83-87 | no counted file lies inside `node_modules`, `.next`, `.git`, `backups` or `.tmp` at any depth |
| BackupProject.ProjectStats.Scan | execution/backup_project.js:76-94 | the counters grow by the number and the total size of the files outside skipped directories |
| BackupProject.GetProjectStats | execution/backup_project.js:72-99 | the file count and total size are those of every file outside skipped directories |
| BackupProject.ByteUnit | execution/backup_project.js:104-108 | bytes below 1024, kilobytes below 1024 * 1024, megabytes from there on |
| BackupProject.ShouldExcludeAsWritten | execution/backup_project.js:148-153 | definition: `excludePatterns.some` as written, stopping at the first match or the first `RegExp` that throws; `LogPatternThrows` states what it does with `*.log` |
| BackupProject.PatternExcludes | execution/backup_project.js:148-153 | definition: one pattern read as an ignore-list entry (directory, `*` suffix or exact name); `DirectoryPattern` and `ShouldExclude` state its properties |
| BackupProject.LogPatternThrows | execution/backup_project.js:148-153 | as written, an entry the first six patterns let through and not named `*.log` reaches `new RegExp('*.log')`, which throws |
| BackupProject.DirectoryPattern | execution/backup_project.js:149-150 | a pattern ending in `/` excludes exactly the directory with that name |
| BackupProject.ShouldExclude | execution/backup_project.js:148-153 | an entry is excluded exactly when some pattern excludes it |
| BackupProject.CopiedFiles | execution/backup_project.js:135-168 | definition: the files below the source that no pattern excludes, in listing order; `CopyDirectory` and `ExcludedNotCopied` state its properties |
| BackupProject.ExcludedNotCopied | execution/backup_project.js:155-157 | an excluded entry contributes nothing: the copy is the same as without it |
| BackupProject.CopyDirectory | execution/backup_project.js:135-168 | the returned count is the number of files below the source that no pattern excludes |
| BackupProject.FinalName | execution/backup_project.js:295-320 | definition: the archive name only after `tar` succeeded, else the directory name; `FinalNameExists` states its property |
| BackupProject.FinalNameAsWritten | execution/backup_project.js:295-320 | definition: as written, `archivePath` when it is set, else `backupPath`; `FailedTarReportsMissingArchive` states what it reports for a failed `tar` |
| BackupProject.FinalNameExists | execution/backup_project.js:295-320 | with `archivePath` set only after `tar` succeeds, the reported name always names what is in the backups directory |
| BackupProject.FailedTarReportsMissingArchive | execution/backup_project.js:299-321 | as written, a failed `tar` that leaves no archive makes the run report an archive that does not exist, though the uncompressed copy is there |
| BackupProject.AllBackups | execution/backup_project.js:332-342 | the listed backups are a permutation of the entries starting with `immagina-backup`, newest modification time first; entries with the same time keep their directory order |
| BackupProject.ListingShown | execution/backup_project.js:344-355 | the list is printed for more than one backup, the cleanup tip for more than five, and the tip only with the list |
| CompressAllImages.ParseIntDecimal | execution/compress_all_images.js:46 | `parseInt` reads a number written in decimal back as itself, whatever non-digit text follows it |
| CompressAllImages.ParseInt | execution/compress_all_images.js:46 | definition: `parseInt` without radix (white space, sign, `0x`, longest digit run, `None` for NaN); `ParseIntDecimal` states its round trip |
| CompressAllImages.QualityValue | execution/compress_all_images.js:45-46 | the quality is `parseInt` of the text after the flag up to the next `=` |
| CompressAllImages.WebpIff | execution/compress_all_images.js:36-55 | WebP copies are on exactly when `--webp` is among the arguments |
| CompressAllImages.SkipLargeIff | execution/compress_all_images.js:36-55 | skipping is on exactly when `--skip-large` is among the arguments |
| CompressAllImages.DefaultQuality | execution/compress_all_images.js:38-43 | without a `--quality=` argument the quality stays 80 |
| CompressAllImages.LastQualityWins | execution/compress_all_images.js:44-52 | the last `--quality=` argument decides the quality |
| CompressAllImages.ParseArgs | execution/compress_all_images.js:36-55 | the `forEach` over the arguments yields exactly the options of the left-to-right fold |
| CompressAllImages.GetImages | execution/compress_all_images.js:60-75 | the listing is the depth-first walk keeping `.png/.jpg/.jpeg` names in any case, with no directory excluded |
| CompressAllImages.SubdirectoryImagesListed | execution/compress_all_images.js:67-68 | every image inside a subdirectory is listed |
| CompressAllImages.TargetWidth | execution/compress_all_images.js:101-103 | images wider than 2000 pixels are resized to 2000, narrower ones keep their width |
| CompressAllImages.LastIndexOf | execution/compress_all_images.js:105 | the position returned holds the character and no later position does; -1 when there is none |
| CompressAllImages.Extname | execution/compress_all_images.js:105 | the extension is empty or starts with `.` and ends the name |
| CompressAllImages.FormatOfPng | execution/compress_all_images.js:105-124 | a file is re-encoded as PNG exactly when its name ends in `.png` in any case after at least one character; every other image is re-encoded as JPEG |
| CompressAllImages.PngExtension | execution/compress_all_images.js:105-109 | a name ending in `.png` in any case after something has the extension `.png` |
| CompressAllImages.PngExtensionLong | execution/compress_all_images.js:105-109 | a name whose extension is `.png` has something before the extension |
| CompressAllImages.PngExtensionEnds | execution/compress_all_images.js:105-109 | a name whose extension is `.png` in any case ends in `.png` in any case |
| CompressAllImages.JobFor | execution/compress_all_images.js:100-139 | the job writes the image at the width capped at 2000 pixels (unchanged below it), as PNG exactly for `.png` names, with the chosen quality; a WebP copy is written exactly under `--webp`, named by `WebpName` for an image name (so ending in `.webp`) and unchanged otherwise |
| CompressAllImages.WebpName | execution/compress_all_images.js:137 | the WebP name ends in `.webp` and keeps the name up to the replaced image extension |
| CompressAllImages.CompressImage | execution/compress_all_images.js:87-158 | skipped exactly when `--skip-large` is on and the file is under 500 KiB; failed exactly when not skipped and reading the width or writing the job throws; otherwise compressed from the old size to the size of the written job, whose width and format are those of `JobFor`, reporting a WebP path exactly under `--webp` |
| CompressAllImages.Results | execution/compress_all_images.js:192-198 | one result per listed image, each that image's `compressImage` |
| CompressAllImages.Tally | execution/compress_all_images.js:186-227 | `skipped`, `errors` and `processed` are the numbers of skipped, failed and compressed results, which add up to the number of results; the two size totals add up the old and the new sizes of the compressed results only |
| CompressAllImages.AllSmallAllSkipped | execution/compress_all_images.js:93-95 | with `--skip-large` and every image under 500 KiB, every image is skipped and the size totals stay 0 |
| CompressAllImages.CountResult | execution/compress_all_images.js:199-213 | the loop body's update for one result is exactly one step of the tally: the counter of its kind goes up, and only a compressed image adds its old and new sizes |
| CompressAllImages.TallyImages | execution/compress_all_images.js:186-227 | the loop leaves the five counters at the tally of the results, so each counter counts its own kind of result and the sizes come from compressed images only |
| CompressAllImages.CompressAll | execution/compress_all_images.js:163-259 | definition of the run over the images directory: missing, unreadable, empty, or the tally of every listed image; `ExitZeroIff`, `DoneCountsEveryImage` and `AllSmallAllSkipped` state its properties |
| CompressAllImages.CompressAllImages | execution/compress_all_images.js:163-259 | the run is missing directory, crash, no images, or the tally of every listed image |
| CompressAllImages.ExitZeroIff | execution/compress_all_images.js:271-273 | the exit code is 0 exactly when the images directory exists as a directory |
| CompressAllImages.DoneCountsEveryImage | execution/compress_all_images.js:179-227 | a completed run counts every listed image exactly once and lists at least one |
| GenerateSeoFiles.Lastmod | execution/generate_seo_files.js:50 | the `lastmod` date holds no `T` and begins the ISO timestamp |
| GenerateSeoFiles.UrlLines | execution/generate_seo_files.js:51-56 | a page's `<url>` element is six lines: open, `loc` of site URL plus page URL, `lastmod`, `changefreq`, `priority`, close |
| GenerateSeoFiles.Entries | execution/generate_seo_files.js:49-57 | one element per configured page |
| GenerateSeoFiles.PageLines | execution/generate_seo_files.js:49-57 | six lines per page, the page's lines in configured order |
| GenerateSeoFiles.SitemapLines | execution/generate_seo_files.js:59-62 | the sitemap's lines: the XML declaration, the `urlset` element with the 0.9 namespace, six lines per page, the closing `urlset` |
| GenerateSeoFiles.Sitemap | execution/generate_seo_files.js:46-65 | definition: the four-line template joined by line breaks; `SitemapIsLines` and `SitemapSplitsIntoLines` state its properties |
| GenerateSeoFiles.SitemapIsLines | execution/generate_seo_files.js:46-65 | the generated sitemap text is those lines joined by line breaks |
| GenerateSeoFiles.SitemapSplitsIntoLines | execution/generate_seo_files.js:46-65 | when no configured value holds a line break, splitting the sitemap at line breaks gives back exactly its lines |
| GenerateSeoFiles.OneUrlElementPerPage | execution/generate_seo_files.js:46-65 | the sitemap opens exactly one `<url>` element per configured page |
| GenerateSeoFiles.ParseRender | execution/generate_seo_files.js:73-79 | every robots.txt record written reads back as itself |
| GenerateSeoFiles.ParseLinesRender | execution/generate_seo_files.js:73-79 | a sequence of written records reads back as the same records in order |
| GenerateSeoFiles.Robots | execution/generate_seo_files.js:70-80 | definition: the seven template lines joined by line breaks; `RobotsParses` and `RobotsPolicy` state its properties |
| GenerateSeoFiles.RobotsRendered | execution/generate_seo_files.js:73-79 | the template's seven lines are the rendering of a comment, a `*` group of one allow and two disallow rules, a blank line and a `Sitemap:` record |
| GenerateSeoFiles.RobotsParses | execution/generate_seo_files.js:70-80 | the generated robots.txt reads back as that record sequence |
| GenerateSeoFiles.LongestMatch | execution/generate_seo_files.js:75-77 | the length of the longest matching rule of a kind, -1 exactly when none matches |
| GenerateSeoFiles.AllowRootDisallowTwo | execution/generate_seo_files.js:75-77 | with `Allow: /` and two longer disallowed prefixes, a path may be fetched exactly when it lies under neither prefix |
| GenerateSeoFiles.RobotsFileRules | execution/generate_seo_files.js:74-77 | the generated group allows `/` and disallows `/api/` and `/admin/`, in that order |
| GenerateSeoFiles.RobotsPolicy | execution/generate_seo_files.js:70-80 | under the generated robots.txt every path may be fetched except those under `/api/` and `/admin/` |
| GenerateSeoFiles.SeoFiles | execution/generate_seo_files.js:218-244 | five files, each with a directory to be created |
| GenerateSeoFiles.ReportOrder | execution/generate_seo_files.js:218-244 | the report names sitemap, robots, manifest, structured data and metadata template, in that order |
| GenerateSeoFiles.Prefixes | execution/generate_seo_files.js:251-253 | a recursive `mkdirSync` makes the directory and every ancestor exist, and nothing else |
| GenerateSeoFiles.FirstRefused | execution/generate_seo_files.js:248-260 | every write before the returned index goes through and the write at it throws |
| GenerateSeoFiles.WrittenContents | execution/generate_seo_files.js:256 | after the writes, a written path holds the content of the last write to it and every other path is unchanged |
| GenerateSeoFiles.ParentsExist | execution/generate_seo_files.js:249-253 | after the loop the directory of every file handled exists |
| GenerateSeoFiles.Disk.EnsureDir | execution/generate_seo_files.js:250-253 | a missing directory is created with its ancestors; files do not change |
| GenerateSeoFiles.Disk.WriteFile | execution/generate_seo_files.js:256 | a refused path throws its message and changes nothing; any other path gets the content |
| GenerateSeoFiles.WriteFiles | execution/generate_seo_files.js:248-260 | all five reported and written when no write throws; otherwise the first throwing write's message, with the files before it written and its directory created |
| GenerateSeoFiles.GenerateSeo | execution/generate_seo_files.js:214-292 | success exactly when no write throws, then reporting the five files in order with their contents written; otherwise the message of a refused write; exit code 0 exactly on success |
| BlogPosts.Slug | frontend/app/blog/page.jsx:21 | a name without `.mdx` is its own slug; otherwise the slug is four characters shorter |
| BlogPosts.SlugOfMdxFile | frontend/app/blog/page.jsx:21 | the slug of `<stem>.mdx` is the stem when the stem holds no `.mdx` |
| BlogPosts.PostOf | frontend/app/blog/page.jsx:20-23 | the post has the front-matter keys plus `slug`; every front-matter field, a `slug` one included, overrides the derived slug |
| BlogPosts.Posts | frontend/app/blog/page.jsx:13-24 | reading fails exactly when some entry is a directory or has front matter that does not parse; otherwise one post per file, in listing order |
| BlogPosts.GetBlogPosts | frontend/app/blog/page.jsx:8-27 | a missing directory gives no posts, a file in its place fails; otherwise the result is a permutation of the posts, sorted by date descending, and posts with the same sort key keep their listing order |
| BlogPosts.NewestFirst | frontend/app/blog/page.jsx:26 | with every date valid, each post's time is at least that of every post after it |
| BlogPosts.UndatedKeepOrder | frontend/app/blog/page.jsx:26 | with no valid date the comparator yields NaN throughout, and the posts stay in listing order (from the equal-key clause of `GetBlogPosts`) |
| ExampleScript.StringToNumber | execution/example_script.js:70 | definition: `Number` of a string (trimmed; empty is 0; `0x`/`0o`/`0b` literals; `Infinity`; decimals with exponent; NaN otherwise); `NumberOfDecimal`, `UnsignedDecimalOfDigits` and `BlankIsZero` state its properties |
| ExampleScript.NumberOfDecimal | execution/example_script.js:70 | `Number` of a natural number written in decimal is that number |
| ExampleScript.UnsignedDecimalOfDigits | execution/example_script.js:70 | a run of digits alone is a decimal literal with its decimal value |
| ExampleScript.BlankIsZero | execution/example_script.js:70 | `Number` of white space only, the empty text included, is 0 |
| ExampleScript.ValidationErrors | execution/example_script.js:24-39 | the param1 message is present exactly when param1 is not a non-empty string, the param2 message exactly when param2 is 0 or NaN, at most two messages and param1's first |
| ExampleScript.ValidateInputs | execution/example_script.js:24-39 | the two `push`es build exactly those errors, and the inputs are valid exactly when neither check fails |
| ExampleScript.ZeroAndEmptyRejected | execution/example_script.js:31-70 | a second argument of `0` or of empty text is rejected, since `Number` makes both 0 |
| ExampleScript.PositiveDecimalAccepted | execution/example_script.js:31-70 | a positive whole number in decimal is accepted as the second argument |
| ExampleScript.ResultText | execution/example_script.js:55 | the result starts with `Elaborato: <param1> con valore `, ends with the rendered number, and is exactly as long as the two together, so nothing else is in it |
| ExampleScript.Main | execution/example_script.js:67-98 | the outcome is invalid exactly when validation reports errors, carrying `Errori di validazione` and those errors; on success it carries both inputs and the result text |
| ExampleScript.Cli | execution/example_script.js:101-115 | the exit code is 0 exactly when two non-empty arguments are given and `main` succeeds |
| ExampleScript.CliFailsOnlyOnNumber | execution/example_script.js:101-115 | with two non-empty arguments, the run fails exactly when `Number` of the second is 0 or NaN |
| Strings.IndexOf | execution/audit_assets.js:36-37 | `indexOf` returns the first position where the pattern occurs, or -1 exactly when it occurs nowhere |
| Strings.ReplaceFirst | execution/audit_assets.js:37 | `replace` with a string pattern replaces only its first occurrence and leaves a text without it unchanged |
| Strings.ReplaceFirstOfPrefix | execution/audit_assets.js:36-37 | replacing the first occurrence of a prefix by nothing leaves the rest of the text |
| Strings.PrefixContained | execution/audit_assets.js:36 | a text that starts with a pattern contains it |
| Strings.LeadingWs | execution/pre_deploy_check.js:99 | the leading run counted by `trim` is white space and stops at the first other character |
| Strings.TrailingWs | execution/pre_deploy_check.js:99 | the trailing run counted by `trim` is white space and stops at the last other character |
| Strings.Trim | execution/pre_deploy_check.js:99 | `trim` returns a slice of the text that neither starts nor ends with white space and drops only white space around it |
| Strings.TrimmedLineKeepsText | execution/pre_deploy_check.js:107 | a line that neither starts nor ends with white space is unchanged by `trim` |
| Strings.FirstIndexOf | execution/pre_deploy_check.js:95 | the first position of a separator, or the length when the separator is absent |
| Strings.Split | execution/pre_deploy_check.js:95 | `split` on one character yields at least one piece and no piece contains the separator |
| Strings.BeforeFirst | execution/generate_seo_files.js:50 | `split(c)[0]` is the longest prefix without `c`, followed in the text by `c` when shorter |
| Strings.JoinSplit | execution/pre_deploy_check.js:95 | joining the pieces of a split with the separator gives back the text |
| Strings.SplitJoin | execution/generate_seo_files.js:50-75 | splitting a join of separator-free pieces gives back the pieces |
| Strings.LowerAscii | execution/compress_all_images.js:105 | `toLowerCase` on ASCII keeps the length and lower-cases each upper-case ASCII letter only |
| Strings.DigitRun | execution/compress_all_images.js:46 | the run of decimal digits at the start of a text stops at the first non-digit |
| Strings.NatToDecimal | execution/compress_all_images.js:46 | the decimal rendering of a number is a non-empty run of digits without a leading zero |
| Strings.DecimalRoundTrip | execution/compress_all_images.js:46 | reading back the decimal rendering of a number gives the number |
| Sorting.Insert | execution/backup_project.js:342 | inserting an element adds exactly that element to the multiset of the sequence |
| Sorting.InsertSorted | execution/backup_project.js:342 | insertion into a sequence sorted by descending key keeps it sorted |
| Sorting.InsertWithKey | execution/backup_project.js:342 | insertion puts the new element after those with its key and leaves the other keys' elements as they were |
| Sorting.SortDesc | frontend/app/blog/page.jsx:26 | the stable comparator sort returns the same elements in descending key order, with equal keys kept in input order |
| FileTree.Names | execution/audit_assets.js:75 | `readdirSync` lists one name per entry, in order |
| FileTree.Child | execution/vercel_deploy_check.js:63-65 | a directory has an entry of a name exactly when one of its entries carries it |
| FileTree.Walk | execution/audit_assets.js:47-65 | every file the walk collects lies strictly below the start, has a name the caller keeps, and was not reached through a skipped directory |
| FileTree.Scan | execution/audit_assets.js:47-65 | the hand-written recursive walk appends to its list exactly the files `Walk` collects, in listing order |
| FileTree.ScanEntry | execution/audit_assets.js:49-61 | one entry adds the files below it, or nothing for a skipped directory, or itself when it is a kept file |
| FileTree.WalkAppend | execution/audit_assets.js:49-61 | walking two lists of entries is walking the first, then the second |
| FileTree.TotalSizeAppend | execution/backup_project.js:76-97 | the total size of two lists of files is the sum of their sizes |
| Json.Get | execution/vercel_deploy_check.js:146-156 | property access on a parsed object yields the field when present and `undefined` otherwise |

## Left out

- Console output is not modelled: colours, headers, emoji and the exact wording of log lines. Only the messages returned in results are kept.
- Floating point is not modelled: `toFixed`, percentages, the KB/MB figures printed, and Lighthouse's `score * 100` rounding. Scores arrive as integers, and a build time as whole tenths of a second.
- `ExampleScript.StringToNumber` works on exact reals; it does not round to the nearest double. Rendering a number back to text (`${param2}`) is a parameter.
- Parsing JSON, gray-matter front matter and dates is not modelled: each is a parameter returning a value, or nothing when it throws, except for `history.json`, which is modelled as the parsed entries themselves.
- PerformanceMonitor.Monitor: `history.json` is held as parsed entries, never as text. When the file exists but is not valid JSON, `JSON.parse` throws in `saveHistoricalData` and the run ends with exit code 1. The model does not include that path: its exit code is 0 exactly when the audit succeeded.
- Subprocesses are outcomes given as input: `npm run build`, `npm run lint`, `npx lighthouse`, `tar`, and the sharp pipeline (metadata, resize, re-encode, rename).
- The clock is the ISO-8601 text of `toISOString`, or a build duration given as input; `Date.now` itself is not modelled.
- The contents of the generated manifest, JSON-LD and metadata template are fixed texts with no logic, so they are parameters.
- In the backup, writing the copied files and the `backup-metadata.json`/`README.md` files is left out. The copy is modelled by what it counts and what it excludes.
- Symbolic links, permission errors and a `statSync` that throws for another reason are left out. An entry is a file or a directory.
- The React rendering of the blog index is not modelled; only `getBlogPosts` is.
- The `processData` timer only delays its result, so it is left out.
- BlogPosts.GetBlogPosts: a post without a valid date sorts with time 0. In the source, the comparator returns NaN for any pair involving such a post, and the engine treats NaN as "equal". With dated and undated posts mixed, the source order is therefore engine-dependent. The model states newest-first order for fully dated lists (`NewestFirst`) and listing order for fully undated ones (`UndatedKeepOrder`).
- AssetAudit.Audit: writing the JSON report to `.tmp/asset-audit-report.json` (execution/audit_assets.js:172-180) is left out. When that write throws, the audit fails and the script exits with code 1; the model's audit does not fail that way.
- BackupProject: `copyDirectory` builds `new RegExp('*.log')` from the exclusion list. The code as written is modelled (`ShouldExcludeAsWritten`), and it throws; the rest of the model uses the evident meaning of the list, where a leading `*` matches a name suffix (see Findings).
- BackupProject: when compression fails, the final path is the uncompressed directory only if `archivePath` were still null. The code assigns `archivePath` before `tar` runs, so this model follows the code (see Findings).

## Findings

| source | as written | input that shows it | evidently intended | confidence | as-written member | corrected member |
|---|---|---|---|---|---|---|
| execution/generate_component.js:210-215 | `!TEMPLATES[type]` also accepts keys inherited from `Object.prototype` | type `toString`: the check passes and `TEMPLATES[type](name)` returns the object's text instead of a component | accept only `section`, `card` and `interactive` | not executed | GenerateComponent.InheritedKeyPassesTypeCheck | GenerateComponent.TemplateFor |
| execution/backup_project.js:148-153 | each name is matched against `new RegExp(pattern)`, and the pattern `*.log` (line 229) is not a valid regular expression | any entry that is not excluded by the first six patterns, such as a directory `frontend`: the constructor throws and the backup fails | `*.log` excludes names ending in `.log`; other patterns are exact names | not executed | BackupProject.LogPatternThrows | BackupProject.ShouldExclude |
| execution/backup_project.js:295-321 | `archivePath` is assigned before `tar` runs | `tar` fails without writing an archive: `archivePath` names a missing file, so `statSync` throws although the uncompressed copy exists | assign `archivePath` only after `tar` succeeds, so the uncompressed directory is reported | not executed | BackupProject.FailedTarReportsMissingArchive | BackupProject.FinalNameExists |
