/**
 * The project backup script: command-line options, the timestamped backup
 * name, the project statistics, the copy with exclusions, the path reported
 * at the end, and the listing of earlier backups.
 *
 * The project is the `FileTree` below the repository root. The clock enters
 * as the ISO-8601 text `toISOString` returns, `tar` as its outcome, and the
 * backups directory as a list of names with sizes and modification times.
 */
module BackupProject {
  import opened Wrappers
  import opened Strings
  import opened Seqs
  import opened Sorting
  import opened FileTree

  // ---------------------------------------------------------------------------
  // Options

  datatype Options = Options(name: Option<string>, compress: bool)

  const NameFlag := "--name="
  const NoCompressFlag := "--no-compress"

  /**
   * `arg.split('=')[1]` for an argument starting with `--name=`: the text
   * between the first `=` (the one in the flag) and the second.
   */
  function NameValue(arg: string): (v: string)
    requires StartsWith(arg, NameFlag)
    ensures v == BeforeFirst(arg[|NameFlag|..], '=')
  {
    assert forall i :: 0 <= i < 7 ==> arg[i] == NameFlag[i];
    assert arg[6] == '=';
    assert FirstIndexOf(arg, '=') == 6;
    SecondPart(arg, '=')
  }

  /** One iteration of the `forEach` over the arguments. */
  function Step(o: Options, arg: string): Options {
    if StartsWith(arg, NameFlag) then o.(name := Some(NameValue(arg)))
    else if arg == NoCompressFlag then o.(compress := false)
    else o
  }

  /** The options after the first `|args|` iterations, starting from `{name: null, compress: true}`. */
  function ParseOptions(args: seq<string>): Options {
    if args == [] then Options(None, true)
    else Step(ParseOptions(args[..|args| - 1]), args[|args| - 1])
  }

  /** One argument turns compression off exactly when it is `--no-compress`. */
  lemma StepCompress(o: Options, arg: string)
    ensures Step(o, arg).compress <==> o.compress && arg != NoCompressFlag
  {
    if arg == NoCompressFlag {
      assert !StartsWith(NoCompressFlag, NameFlag) by {
        assert NoCompressFlag[3] != NameFlag[3];
      }
    }
  }

  /** Compression is off exactly when `--no-compress` was given. */
  lemma {:induction false} CompressIff(args: seq<string>)
    ensures ParseOptions(args).compress <==> NoCompressFlag !in args
  {
    if args != [] {
      CompressIff(args[..|args| - 1]);
      StepCompress(ParseOptions(args[..|args| - 1]), args[|args| - 1]);
      InSnoc(args, NoCompressFlag);
    }
  }

  predicate IsNameArg(arg: string) {
    StartsWith(arg, NameFlag)
  }

  /** `i` is the last `--name=` argument. */
  predicate LastNameArg(args: seq<string>, i: nat) {
    i < |args| && IsNameArg(args[i]) && forall j :: i < j < |args| ==> !IsNameArg(args[j])
  }

  /** Without a `--name=` argument the name stays null. */
  lemma {:induction false} NoNameArg(args: seq<string>)
    requires forall j :: 0 <= j < |args| ==> !IsNameArg(args[j])
    ensures ParseOptions(args).name.None?
  {
    if args != [] {
      NoNameArg(args[..|args| - 1]);
    }
  }

  /** The last `--name=` argument wins. */
  lemma {:induction false} LastNameWins(args: seq<string>, i: nat)
    requires LastNameArg(args, i)
    ensures ParseOptions(args).name == Some(NameValue(args[i]))
  {
    var init := args[..|args| - 1];
    if i < |args| - 1 {
      assert init[i] == args[i];
      assert forall j :: i < j < |init| ==> init[j] == args[j];
      LastNameWins(init, i);
    }
  }

  /** `parseArgs`: the `forEach` updating `options`. */
  method ParseArgs(args: seq<string>) returns (options: Options)
    ensures options == ParseOptions(args)
  {
    options := Options(None, true);
    var i := 0;
    while i < |args|
      invariant 0 <= i <= |args|
      invariant options == ParseOptions(args[..i])
    {
      var arg := args[i];
      assert args[..i + 1][..i] == args[..i];
      if StartsWith(arg, NameFlag) {
        options := options.(name := Some(NameValue(arg)));
      } else if arg == NoCompressFlag {
        options := options.(compress := false);
      }
      i := i + 1;
    }
    assert args[..i] == args;
  }

  // ---------------------------------------------------------------------------
  // Backup name

  /** `replace(/[:.]/g, '-')` */
  function Dashed(s: string): (t: string)
    ensures |t| == |s|
    ensures forall i :: 0 <= i < |s| ==> t[i] == (if s[i] == ':' || s[i] == '.' then '-' else s[i])
  {
    seq(|s|, i requires 0 <= i < |s| => if s[i] == ':' || s[i] == '.' then '-' else s[i])
  }

  /**
   * The timestamp in a backup name: every `:` and `.` of the ISO time made a
   * `-`, then the first `T` made a `_`. The final `split('.')[0]` has no
   * `.` left to cut at, so it keeps the whole text.
   */
  function Timestamp(iso: string): (ts: string)
    ensures ':' !in ts && '.' !in ts
    ensures |ts| == |iso|
    ensures ts == ReplaceFirst(Dashed(iso), "T", "_")
  {
    var d := Dashed(iso);
    var u := ReplaceFirst(d, "T", "_");
    assert ':' !in u && '.' !in u by {
      if Contains(d, "T") {
        var k := IndexOf(d, "T");
        assert u == d[..k] + "_" + d[k + 1..];
        forall i | 0 <= i < |u| ensures u[i] != ':' && u[i] != '.' {
          if i > k {
            assert u[i] == d[i];
          }
        }
      }
    }
    var ts := BeforeFirst(u, '.');
    assert |ts| == |u|;
    ts
  }

  const DefaultPrefix := "immagina-backup"

  /** `getBackupName`: the custom name when it is truthy, else `immagina-backup`, then `_` and the timestamp. */
  function BackupName(custom: Option<string>, iso: string): (n: string)
    ensures custom.Some? && custom.value != "" ==> n == custom.value + "_" + Timestamp(iso)
    ensures custom.None? || custom.value == "" ==> n == DefaultPrefix + "_" + Timestamp(iso)
  {
    (if custom.Some? && custom.value != "" then custom.value else DefaultPrefix) + "_" + Timestamp(iso)
  }

  // ---------------------------------------------------------------------------
  // Project statistics

  const StatsSkipped: set<Name> := {"node_modules", ".next", ".git", "backups", ".tmp"}

  function AnyName(n: Name): bool { true }

  /** The files `getProjectStats` counts: every file not below a skipped directory. */
  function CountedFiles(entries: seq<Entry>): seq<Listed> {
    Walk(entries, [], StatsSkipped, AnyName)
  }

  /** A counted file never lies inside a skipped directory, at any depth. */
  lemma CountedOutsideSkipped(entries: seq<Entry>, i: nat)
    requires i < |CountedFiles(entries)|
    ensures forall k :: 0 <= k < |CountedFiles(entries)[i].path| - 1 ==> CountedFiles(entries)[i].path[k] !in StatsSkipped
  {
    var l := CountedFiles(entries)[i];
    assert l in CountedFiles(entries);
  }

  /** The closure counters of `getProjectStats`. */
  class ProjectStats {
    var totalSize: nat
    var fileCount: nat

    constructor()
      ensures totalSize == 0 && fileCount == 0
    {
      totalSize := 0;
      fileCount := 0;
    }

    /** The inner `scan`, adding every file outside skipped directories to the counters. */
    method Scan(entries: seq<Entry>, prefix: Path)
      modifies this
      ensures fileCount == old(fileCount) + |Walk(entries, prefix, StatsSkipped, AnyName)|
      ensures totalSize == old(totalSize) + TotalSize(Walk(entries, prefix, StatsSkipped, AnyName))
      decreases entries
    {
      var i := 0;
      while i < |entries|
        invariant 0 <= i <= |entries|
        invariant fileCount == old(fileCount) + |Walk(entries[..i], prefix, StatsSkipped, AnyName)|
        invariant totalSize == old(totalSize) + TotalSize(Walk(entries[..i], prefix, StatsSkipped, AnyName))
      {
        var e := entries[i];
        assert entries[..i + 1] == entries[..i] + [e];
        WalkAppend(entries[..i], [e], prefix, StatsSkipped, AnyName);
        var here := Walk([e], prefix, StatsSkipped, AnyName);
        TotalSizeAppend(Walk(entries[..i], prefix, StatsSkipped, AnyName), here);
        assert [e][1..] == [];
        match e.node {
          case Dir(sub) =>
            if e.name !in StatsSkipped {
              assert here == Walk(sub, prefix + [e.name], StatsSkipped, AnyName);
              Scan(sub, prefix + [e.name]);
            } else {
              assert here == [];
            }
          case File(size, _) =>
            assert TotalSize(here) == size;
            totalSize := totalSize + size;
            fileCount := fileCount + 1;
        }
        i := i + 1;
      }
      assert entries[..i] == entries;
    }
  }

  /** `getProjectStats` on the project root. */
  method GetProjectStats(root: seq<Entry>) returns (totalSize: nat, fileCount: nat)
    ensures fileCount == |CountedFiles(root)|
    ensures totalSize == TotalSize(CountedFiles(root))
  {
    var counters := new ProjectStats();
    counters.Scan(root, []);
    totalSize := counters.totalSize;
    fileCount := counters.fileCount;
  }

  // ---------------------------------------------------------------------------
  // Byte units

  datatype Unit = Bytes | Kilobytes | Megabytes

  /** The unit `formatBytes` prints with. */
  function ByteUnit(bytes: nat): (u: Unit)
    ensures u == Bytes <==> bytes < 1024
    ensures u == Kilobytes <==> 1024 <= bytes < 1024 * 1024
    ensures u == Megabytes <==> bytes >= 1024 * 1024
  {
    if bytes < 1024 then Bytes else if bytes < 1024 * 1024 then Kilobytes else Megabytes
  }

  // ---------------------------------------------------------------------------
  // Exclusions

  const ExcludePatterns: seq<string> := [
    "node_modules/", ".next/", ".git/", "backups/", ".tmp/", ".DS_Store", "*.log",
    ".env", ".env.local", ".vercel/", "coverage/", "dist/", "build/"
  ]

  /**
   * `name.match(new RegExp(pattern))` as a parameter: whether it matches, or
   * `None` when `new RegExp(pattern)` throws.
   */
  type RegexTest = (string, string) -> Option<bool>

  /** One pattern of the `some` as written; `None` when it throws. */
  function PatternExcludesAsWritten(pattern: string, e: Entry, regex: RegexTest): Option<bool> {
    if EndsWith(pattern, "/") then Some(e.name == pattern[..|pattern| - 1] && e.node.Dir?)
    else if e.name == pattern then Some(true)
    else regex(e.name, pattern)
  }

  /** `excludePatterns.some(...)` as written: stops at the first match or the first throw. */
  function ShouldExcludeAsWritten(patterns: seq<string>, e: Entry, regex: RegexTest): Option<bool> {
    if patterns == [] then Some(false)
    else
      match PatternExcludesAsWritten(patterns[0], e, regex)
      case None => None
      case Some(true) => Some(true)
      case Some(false) => ShouldExcludeAsWritten(patterns[1..], e, regex)
  }

  lemma {:induction false} ShouldExcludeAsWrittenAppend(a: seq<string>, b: seq<string>, e: Entry, regex: RegexTest)
    requires ShouldExcludeAsWritten(a, e, regex) == Some(false)
    ensures ShouldExcludeAsWritten(a + b, e, regex) == ShouldExcludeAsWritten(b, e, regex)
  {
    if a == [] {
      assert a + b == b;
    } else {
      assert (a + b)[0] == a[0];
      assert (a + b)[1..] == a[1..] + b;
      ShouldExcludeAsWrittenAppend(a[1..], b, e, regex);
    }
  }

  /**
   * `new RegExp('*.log')` throws (a quantifier with nothing to repeat), so an
   * entry that none of the six patterns before it excludes, and that is not
   * named `*.log` itself, makes `copyDirectory` throw.
   */
  lemma LogPatternThrows(e: Entry, regex: RegexTest)
    requires regex(e.name, "*.log").None?
    requires ShouldExcludeAsWritten(ExcludePatterns[..6], e, regex) == Some(false)
    requires e.name != "*.log"
    ensures ShouldExcludeAsWritten(ExcludePatterns, e, regex).None?
  {
    assert ExcludePatterns == ExcludePatterns[..6] + ExcludePatterns[6..];
    ShouldExcludeAsWrittenAppend(ExcludePatterns[..6], ExcludePatterns[6..], e, regex);
    assert ExcludePatterns[6..][0] == "*.log";
    assert !EndsWith("*.log", "/");
  }

  /**
   * One pattern as the ignore list means it: a trailing `/` names a directory,
   * a leading `*` matches a name suffix, anything else is an exact name.
   */
  function PatternExcludes(pattern: string, e: Entry): bool {
    if EndsWith(pattern, "/") then e.name == pattern[..|pattern| - 1] && e.node.Dir?
    else if StartsWith(pattern, "*") then EndsWith(e.name, pattern[1..])
    else e.name == pattern
  }

  /** A directory pattern excludes exactly the directory of that name. */
  lemma DirectoryPattern(pattern: string, e: Entry)
    requires EndsWith(pattern, "/")
    ensures PatternExcludes(pattern, e) <==> e.node.Dir? && e.name + "/" == pattern
  {
    assert pattern == pattern[..|pattern| - 1] + "/";
    if e.name + "/" == pattern {
      assert e.name == (e.name + "/")[..|pattern| - 1];
    }
  }

  /** `excludePatterns.some(...)`. */
  function ShouldExclude(patterns: seq<string>, e: Entry): (r: bool)
    ensures r <==> exists i :: 0 <= i < |patterns| && PatternExcludes(patterns[i], e)
  {
    if patterns == [] then false
    else
      var rest := ShouldExclude(patterns[1..], e);
      assert forall i :: 1 <= i < |patterns| ==> patterns[i] == patterns[1..][i - 1];
      PatternExcludes(patterns[0], e) || rest
  }

  /** The files `copyDirectory` copies, as paths below its source, in listing order. */
  function CopiedFiles(entries: seq<Entry>, prefix: Path, patterns: seq<string>): seq<Path>
    decreases entries
  {
    if entries == [] then []
    else
      var e := entries[0];
      var here :=
        if ShouldExclude(patterns, e) then []
        else match e.node
          case Dir(sub) => CopiedFiles(sub, prefix + [e.name], patterns)
          case File(_, _) => [prefix + [e.name]];
      here + CopiedFiles(entries[1..], prefix, patterns)
  }

  lemma {:induction false} CopiedFilesAppend(a: seq<Entry>, b: seq<Entry>, prefix: Path, patterns: seq<string>)
    ensures CopiedFiles(a + b, prefix, patterns) == CopiedFiles(a, prefix, patterns) + CopiedFiles(b, prefix, patterns)
  {
    if a == [] {
      assert a + b == b;
    } else {
      assert (a + b)[0] == a[0];
      assert (a + b)[1..] == a[1..] + b;
      CopiedFilesAppend(a[1..], b, prefix, patterns);
    }
  }

  lemma ExcludedCopiesNothing(e: Entry, prefix: Path, patterns: seq<string>)
    requires ShouldExclude(patterns, e)
    ensures CopiedFiles([e], prefix, patterns) == []
  {
    assert [e][1..] == [];
  }

  /** An excluded entry contributes nothing: the copy is the same as without it. */
  lemma ExcludedNotCopied(entries: seq<Entry>, i: nat, prefix: Path, patterns: seq<string>)
    requires i < |entries| && ShouldExclude(patterns, entries[i])
    ensures CopiedFiles(entries, prefix, patterns) == CopiedFiles(entries[..i] + entries[i + 1..], prefix, patterns)
  {
    var a := entries[..i];
    var x := entries[i];
    var b := entries[i + 1..];
    assert entries == a + ([x] + b);
    CopiedFilesAppend(a, [x] + b, prefix, patterns);
    CopiedFilesAppend([x], b, prefix, patterns);
    ExcludedCopiesNothing(x, prefix, patterns);
    CopiedFilesAppend(a, b, prefix, patterns);
  }

  /** `copyDirectory`: copies the entries that are not excluded and returns how many files it copied. */
  method CopyDirectory(entries: seq<Entry>, prefix: Path, patterns: seq<string>) returns (copiedFiles: nat)
    ensures copiedFiles == |CopiedFiles(entries, prefix, patterns)|
    decreases entries
  {
    copiedFiles := 0;
    var i := 0;
    while i < |entries|
      invariant 0 <= i <= |entries|
      invariant copiedFiles == |CopiedFiles(entries[..i], prefix, patterns)|
    {
      var e := entries[i];
      assert entries[..i + 1] == entries[..i] + [e];
      CopiedFilesAppend(entries[..i], [e], prefix, patterns);
      assert [e][1..] == [];
      if !ShouldExclude(patterns, e) {
        match e.node {
          case Dir(sub) =>
            var n := CopyDirectory(sub, prefix + [e.name], patterns);
            copiedFiles := copiedFiles + n;
          case File(_, _) =>
            copiedFiles := copiedFiles + 1;
        }
      }
      i := i + 1;
    }
    assert entries[..i] == entries;
  }

  // ---------------------------------------------------------------------------
  // Compression and the reported path

  datatype TarResult = TarOk | TarFailed

  function ArchiveName(backupName: string): string {
    backupName + ".tar.gz"
  }

  /**
   * The name in the backups directory that the run reports as written:
   * `archivePath || backupPath`. As written, `archivePath` is set before
   * `tar` runs, so a failed `tar` still reports the archive.
   */
  function FinalNameAsWritten(backupName: string, compress: bool, tar: TarResult): string {
    if compress then ArchiveName(backupName) else backupName
  }

  /** The reported name when `archivePath` is set only once `tar` has succeeded. */
  function FinalName(backupName: string, compress: bool, tar: TarResult): string {
    if compress && tar == TarOk then ArchiveName(backupName) else backupName
  }

  /**
   * What the run leaves in the backups directory: the archive alone after a
   * successful compression (the directory is removed), otherwise the
   * uncompressed directory, and with it whatever `tar` left behind.
   */
  function LeftBehind(backupName: string, compress: bool, tar: TarResult, partialArchive: bool): set<string> {
    if compress && tar == TarOk then {ArchiveName(backupName)}
    else if compress && partialArchive then {backupName, ArchiveName(backupName)}
    else {backupName}
  }

  /** The reported name always names what the run left behind. */
  lemma FinalNameExists(backupName: string, compress: bool, tar: TarResult, partialArchive: bool)
    ensures FinalName(backupName, compress, tar) in LeftBehind(backupName, compress, tar, partialArchive)
  {
  }

  /**
   * As written, a `tar` that fails without leaving an archive makes the run
   * report a name that does not exist, so `statSync` throws and the backup is
   * reported failed although the uncompressed copy is in place.
   */
  lemma FailedTarReportsMissingArchive(backupName: string)
    ensures FinalNameAsWritten(backupName, true, TarFailed) !in LeftBehind(backupName, true, TarFailed, false)
    ensures backupName in LeftBehind(backupName, true, TarFailed, false)
  {
    assert |ArchiveName(backupName)| != |backupName|;
  }

  // ---------------------------------------------------------------------------
  // Listing earlier backups

  datatype BackupEntry = BackupEntry(name: Name, size: nat, mtime: int)

  function IsDefaultBackup(e: BackupEntry): bool {
    StartsWith(e.name, DefaultPrefix)
  }

  function MTime(e: BackupEntry): int { e.mtime }

  /**
   * The backups listed at the end: the entries whose name starts with
   * `immagina-backup`, newest modification time first, entries with equal
   * times in directory order.
   */
  function AllBackups(entries: seq<BackupEntry>): (r: seq<BackupEntry>)
    ensures SortedDesc(r, MTime)
    ensures multiset(r) == multiset(Filter(entries, IsDefaultBackup))
    ensures forall k :: WithKey(r, MTime, k) == WithKey(Filter(entries, IsDefaultBackup), MTime, k)
    ensures forall i :: 0 <= i < |r| ==> IsDefaultBackup(r[i]) && r[i] in entries
    ensures forall i :: 0 <= i < |entries| && IsDefaultBackup(entries[i]) ==> entries[i] in r
  {
    var f := Filter(entries, IsDefaultBackup);
    var r := SortDesc(f, MTime);
    assert forall i :: 0 <= i < |r| ==> r[i] in f by {
      forall i | 0 <= i < |r| ensures r[i] in f {
        assert r[i] in multiset(r);
      }
    }
    assert forall i :: 0 <= i < |entries| && IsDefaultBackup(entries[i]) ==> entries[i] in r by {
      forall i | 0 <= i < |entries| && IsDefaultBackup(entries[i]) ensures entries[i] in r {
        assert entries[i] in multiset(f);
      }
    }
    r
  }

  /** The list is printed when there is more than one backup, with a cleanup tip beyond five. */
  function ListingShown(count: nat): (r: (bool, bool))
    ensures r.0 <==> count > 1
    ensures r.1 <==> count > 5
    ensures r.1 ==> r.0
  {
    (count > 1, count > 1 && count > 5)
  }
}
