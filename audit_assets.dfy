/**
 * The asset audit: collect the image paths the frontend sources mention in
 * `src=` attributes, compare the distinct ones with the files in
 * `public/images`, and report which are found, which are missing and which
 * images nobody references.
 */
module AssetAudit {
  import opened Wrappers
  import opened Strings
  import opened Seqs
  import opened FileTree

  // ---------------------------------------------------------------------------
  // The `src=` extractor: /src=["'{]([^"'}]+)["'}]/g

  predicate IsOpening(c: char) { c == '"' || c == '\'' || c == '{' }
  predicate IsClosing(c: char) { c == '"' || c == '\'' || c == '}' }

  /** How many characters from `j` on belong to the class `[^"'}]`. */
  function RunLength(s: string, j: nat): (n: nat)
    requires j <= |s|
    ensures j + n <= |s|
    ensures forall k :: j <= k < j + n ==> !IsClosing(s[k])
    ensures j + n == |s| || IsClosing(s[j + n])
    decreases |s| - j
  {
    if j == |s| || IsClosing(s[j]) then 0 else 1 + RunLength(s, j + 1)
  }

  /**
   * `/src=["'{]([^"'}]+)["'}]/` matches at position `i`, capturing `v` and
   * ending just before `e`.
   */
  predicate PatternAt(s: string, i: nat, v: string, e: nat) {
    && i + 6 + |v| == e <= |s|
    && OccursAt(s, "src=", i)
    && IsOpening(s[i + 4])
    && v != []
    && (forall k :: 0 <= k < |v| ==> !IsClosing(v[k]))
    && s[i + 5..e - 1] == v
    && IsClosing(s[e - 1])
  }

  /**
   * The regular expression tried at position `i`: the captured value and the
   * position just after the match. The greedy `[^"'}]+` stops at the first
   * quote or brace; giving characters back cannot help, since the closing
   * class only accepts quote or brace characters. So there is at most one
   * match at a position, and this is it.
   */
  function MatchAt(s: string, i: nat): (m: Option<(string, nat)>)
    requires i <= |s|
    ensures m.Some? ==> PatternAt(s, i, m.value.0, m.value.1)
    ensures forall v: string, e: nat :: PatternAt(s, i, v, e) ==> m == Some((v, e))
  {
    if i + 5 <= |s| && s[i..i + 4] == "src=" && IsOpening(s[i + 4]) then
      var n := RunLength(s, i + 5);
      assert forall v: string, e: nat :: PatternAt(s, i, v, e) ==> n == |v| && v == s[i + 5..i + 5 + n] by {
        forall v: string, e: nat | PatternAt(s, i, v, e) ensures n == |v| && v == s[i + 5..i + 5 + n] {
          PatternRun(s, i, v, e);
        }
      }
      if 1 <= n && i + 5 + n < |s| then Some((s[i + 5..i + 5 + n], i + 5 + n + 1)) else None
    else None
  }

  /** A match's value is exactly the run of non-closing characters after the opening one. */
  lemma PatternRun(s: string, i: nat, v: string, e: nat)
    requires PatternAt(s, i, v, e)
    ensures RunLength(s, i + 5) == |v|
  {
    forall k | i + 5 <= k < i + 5 + |v| ensures !IsClosing(s[k]) {
      assert s[k] == v[k - (i + 5)];
    }
    RunFrom(s, i + 5, |v|);
  }

  /**
   * The values successive `exec` calls capture from position `pos` on: each
   * search resumes where the previous match ended.
   */
  function SrcValuesFrom(s: string, pos: nat): (vs: seq<string>)
    requires pos <= |s|
    decreases |s| - pos
  {
    if pos == |s| then []
    else match MatchAt(s, pos)
      case Some((v, e)) => [v] + SrcValuesFrom(s, e)
      case None => SrcValuesFrom(s, pos + 1)
  }

  /** A `src` value refers to a local image: it starts with `/images/` or contains `images/`. */
  predicate IsLocalImageSrc(src: string) {
    StartsWith(src, "/images/") || Contains(src, "images/")
  }

  /** The image name kept for a `src` value: first `/images/`, then first `images/` removed. */
  function Normalize(src: string): string {
    ReplaceFirst(ReplaceFirst(src, "/images/", ""), "images/", "")
  }

  /** The kept values, normalised, in source order and with repetitions. */
  function LocalImages(values: seq<string>): (refs: seq<string>)
    ensures |refs| <= |values|
  {
    if values == [] then []
    else (if IsLocalImageSrc(values[0]) then [Normalize(values[0])] else []) + LocalImages(values[1..])
  }

  /**
   * The references are exactly the values that name local images, each
   * normalised, in source order and with repetitions kept.
   */
  lemma {:induction false} LocalImagesKeptNormalised(values: seq<string>)
    ensures LocalImages(values) == Map(Filter(values, IsLocalImageSrc), Normalize)
  {
    if values != [] {
      LocalImagesKeptNormalised(values[1..]);
      var head := if IsLocalImageSrc(values[0]) then [values[0]] else [];
      var rest := Filter(values[1..], IsLocalImageSrc);
      assert Filter(values, IsLocalImageSrc) == head + rest;
      MapAppend(head, rest, Normalize);
      assert Map(head, Normalize) == (if IsLocalImageSrc(values[0]) then [Normalize(values[0])] else []);
    }
  }

  /** What `extractImageReferences` returns for a file's text. */
  function ImageReferences(content: string): seq<string> {
    LocalImages(SrcValuesFrom(content, 0))
  }

  /** The `exec` loop of `extractImageReferences`. */
  method ExtractImageReferences(content: string) returns (references: seq<string>)
    ensures references == ImageReferences(content)
  {
    references := [];
    var last := 0;
    while last < |content|
      invariant 0 <= last <= |content|
      invariant references + LocalImages(SrcValuesFrom(content, last)) == ImageReferences(content)
      decreases |content| - last
    {
      ExecStep(content, last);
      match MatchAt(content, last) {
        case None =>
          last := last + 1;
        case Some((src, end)) =>
          var own := if IsLocalImageSrc(src) then [Normalize(src)] else [];
          ConcatAssoc(references, own, LocalImages(SrcValuesFrom(content, end)));
          if IsLocalImageSrc(src) {
            references := references + [Normalize(src)];
          } else {
            assert references + own == references;
          }
          last := end;
      }
    }
  }

  /** One `exec` call: the references from `pos` on, by what the expression matches at `pos`. */
  lemma ExecStep(s: string, pos: nat)
    requires pos < |s|
    ensures LocalImages(SrcValuesFrom(s, pos)) == match MatchAt(s, pos)
      case None => LocalImages(SrcValuesFrom(s, pos + 1))
      case Some((v, e)) => (if IsLocalImageSrc(v) then [Normalize(v)] else []) + LocalImages(SrcValuesFrom(s, e))
  {
    match MatchAt(s, pos)
    case None =>
    case Some((v, e)) =>
      LocalImagesCons(v, SrcValuesFrom(s, e));
  }

  lemma {:induction false} LocalImagesCons(v: string, vs: seq<string>)
    ensures LocalImages([v] + vs) == (if IsLocalImageSrc(v) then [Normalize(v)] else []) + LocalImages(vs)
  {
    assert ([v] + vs)[0] == v;
    assert ([v] + vs)[1..] == vs;
  }

  /** The `startsWith('/images/')` test adds nothing to `includes('images/')`. */
  lemma LocalImageSrcIff(src: string)
    ensures IsLocalImageSrc(src) <==> Contains(src, "images/")
  {
    if StartsWith(src, "/images/") {
      assert src[1..][..7] == "images/";
      PrefixContained(src[1..], "images/");
      ContainsInSuffix(src, 1, "images/");
    }
  }

  /** Text without any `src=` yields no references. */
  lemma {:induction false} NoSrcNoValues(s: string, pos: nat)
    requires pos <= |s|
    requires forall j :: pos <= j <= |s| ==> !OccursAt(s, "src=", j)
    ensures SrcValuesFrom(s, pos) == []
    decreases |s| - pos
  {
    if pos < |s| {
      NoSrcNoValues(s, pos + 1);
    }
  }

  lemma NoSrcNoReferences(content: string)
    requires !Contains(content, "src=")
    ensures ImageReferences(content) == []
  {
    NoSrcNoValues(content, 0);
  }

  /**
   * The round trip the extractor exists for: an attribute `src="/images/<n>"`
   * yields the bare image name `n`, provided `n` has no quote or brace and
   * does not itself contain `images/`.
   */
  lemma {:induction false} ExtractsEmbeddedName(n: string)
    requires n != []
    requires forall k :: 0 <= k < |n| ==> !IsClosing(n[k])
    requires !Contains(n, "images/")
    ensures ImageReferences("src=\"/images/" + n + "\"") == [n]
  {
    var src := "/images/" + n;
    var s := "src=\"" + src + "\"";
    assert s == "src=\"/images/" + n + "\"";
    assert forall k :: 0 <= k < |src| ==> !IsClosing(src[k]) by {
      forall k | 0 <= k < |src| ensures !IsClosing(src[k]) {
        if k >= 8 {
          assert src[k] == n[k - 8];
        }
      }
    }
    RunFrom(s, 5, |src|);
    assert s[5..5 + |src|] == src;
    assert MatchAt(s, 0) == Some((src, |s|));
    assert SrcValuesFrom(s, 0) == [src];
    ReplaceFirstOfPrefix("/images/", n);
    assert IsLocalImageSrc(src) by {
      PrefixContained(src, "/images/");
      assert StartsWith(src, "/images/");
    }
    assert Normalize(src) == n;
    LocalImagesCons(src, []);
  }

  lemma {:induction false} RunFrom(s: string, j: nat, n: nat)
    requires j + n < |s| && IsClosing(s[j + n])
    requires forall k :: j <= k < j + n ==> !IsClosing(s[k])
    ensures RunLength(s, j) == n
    decreases n
  {
    if n > 0 {
      RunFrom(s, j + 1, n - 1);
    }
  }

  // ---------------------------------------------------------------------------
  // Source files and image listing

  const SkippedDirs: set<Name> := {"node_modules", ".next"}

  /** /\.(jsx?|tsx?)$/ */
  predicate IsSourceName(n: Name) {
    EndsWith(n, ".js") || EndsWith(n, ".jsx") || EndsWith(n, ".ts") || EndsWith(n, ".tsx")
  }

  /** `scanDirectory`: the source files below a directory, depth first. */
  method ScanDirectory(entries: seq<Entry>, prefix: Path, fileList: seq<Listed>) returns (out: seq<Listed>)
    ensures out == fileList + Walk(entries, prefix, SkippedDirs, IsSourceName)
    ensures forall l :: l in out[|fileList|..] ==>
      IsSourceName(l.path[|l.path| - 1]) && forall k :: |prefix| <= k < |l.path| - 1 ==> l.path[k] !in SkippedDirs
  {
    out := Scan(entries, prefix, SkippedDirs, IsSourceName, fileList);
    assert out[|fileList|..] == Walk(entries, prefix, SkippedDirs, IsSourceName);
  }

  /** /\.(png|jpe?g|gif|svg|webp)$/i */
  predicate IsImageName(n: Name) {
    || EndsWithIgnoreCase(n, ".png") || EndsWithIgnoreCase(n, ".jpg") || EndsWithIgnoreCase(n, ".jpeg")
    || EndsWithIgnoreCase(n, ".gif") || EndsWithIgnoreCase(n, ".svg") || EndsWithIgnoreCase(n, ".webp")
  }

  datatype AuditError = NoSuchDirectory(path: Path) | NotADirectory(path: Path)

  /**
   * `getExistingAssets`: nothing when `public/images` is absent, otherwise the
   * image names it lists, in listing order. Listing a path that is a file
   * throws.
   */
  function ExistingAssets(images: Option<Node>): (r: Result<seq<Name>, AuditError>)
    ensures images.None? ==> r == Success([])
    ensures r.Failure? <==> images.Some? && images.value.File?
    ensures r.Success? && images.Some? ==>
      forall n :: n in r.value <==> n in Names(images.value.entries) && IsImageName(n)
  {
    match images
    case None => Success([])
    case Some(File(_, _)) => Failure(NotADirectory(ImagesPath))
    case Some(Dir(entries)) => Success(Filter(Names(entries), IsImageName))
  }

  lemma {:induction false} NamesNoDups(entries: seq<Entry>)
    requires WellFormed(entries)
    ensures NoDups(Names(entries))
  {
  }

  // ---------------------------------------------------------------------------
  // Reconciliation

  const ImagesPath: Path := ["public", "images"]

  /** One entry of `referencesByFile`: a path relative to the frontend and its references. */
  datatype FileRefs = FileRefs(path: Path, refs: seq<string>)

  /** `referencesByFile`, in insertion order: only files with at least one reference. */
  function ByFile(files: seq<Listed>): (r: seq<FileRefs>)
    ensures |r| <= |files|
  {
    if files == [] then []
    else
      var refs := ImageReferences(files[|files| - 1].content);
      ByFile(files[..|files| - 1]) + (if refs != [] then [FileRefs(files[|files| - 1].path, refs)] else [])
  }

  /** Every entry of `referencesByFile` holds the non-empty references of one of the files. */
  lemma {:induction false} ByFileSound(files: seq<Listed>)
    ensures forall e :: e in ByFile(files) ==>
      e.refs != [] && exists l :: l in files && l.path == e.path && e.refs == ImageReferences(l.content)
  {
    if files != [] {
      var init := files[..|files| - 1];
      var last := files[|files| - 1];
      ByFileSound(init);
      forall e | e in ByFile(files)
        ensures e.refs != [] && exists l :: l in files && l.path == e.path && e.refs == ImageReferences(l.content)
      {
        if e in ByFile(init) {
          var l :| l in init && l.path == e.path && e.refs == ImageReferences(l.content);
          assert l in files;
        } else {
          assert last in files;
        }
      }
    }
  }

  /** Every file that yields a reference has an entry in `referencesByFile`. */
  lemma {:induction false} ByFileComplete(files: seq<Listed>)
    ensures forall l :: l in files && ImageReferences(l.content) != [] ==>
      exists e :: e in ByFile(files) && e.path == l.path
  {
    if files != [] {
      var init := files[..|files| - 1];
      var last := files[|files| - 1];
      assert files == init + [last];
      ByFileComplete(init);
      var r := ByFile(files);
      forall l | l in files && ImageReferences(l.content) != []
        ensures exists e :: e in r && e.path == l.path
      {
        if l == last {
          assert r[|r| - 1].path == l.path;
        } else {
          assert l in init;
          var e :| e in ByFile(init) && e.path == l.path;
          assert e in r;
        }
      }
    }
  }

  /** `allReferences`: the distinct references of all files, in first-seen order. */
  function AllRefs(files: seq<Listed>): (r: seq<string>)
    ensures NoDups(r)
  {
    if files == [] then []
    else AddAll(AllRefs(files[..|files| - 1]), ImageReferences(files[|files| - 1].content))
  }

  /** `allReferences` holds a value exactly when some file references it. */
  lemma {:induction false} AllRefsIff(files: seq<Listed>)
    ensures forall x :: x in AllRefs(files) <==> exists l :: l in files && x in ImageReferences(l.content)
  {
    if files != [] {
      var init := files[..|files| - 1];
      var last := files[|files| - 1];
      assert files == init + [last];
      AllRefsIff(init);
      var r := AllRefs(files);
      forall x | x in r ensures exists l :: l in files && x in ImageReferences(l.content) {
        var i :| 0 <= i < |r| && r[i] == x;
        if x !in AllRefs(init) {
          assert x in ImageReferences(last.content);
          assert last in files;
        }
      }
      forall x | exists l :: l in files && x in ImageReferences(l.content) ensures x in r {
        var l :| l in files && x in ImageReferences(l.content);
        if l == last {
          var i :| 0 <= i < |ImageReferences(last.content)| && ImageReferences(last.content)[i] == x;
        } else {
          assert l in init;
          assert x in r[..|AllRefs(init)|];
        }
      }
    }
  }

  /** What the first `i + 1` files contribute, given what the first `i` contribute. */
  lemma CollectStep(files: seq<Listed>, i: nat)
    requires i < |files|
    ensures var refs := ImageReferences(files[i].content);
      && ByFile(files[..i + 1]) == ByFile(files[..i]) + (if refs != [] then [FileRefs(files[i].path, refs)] else [])
      && AllRefs(files[..i + 1]) == AddAll(AllRefs(files[..i]), refs)
  {
    var t := files[..i + 1];
    assert t[..|t| - 1] == files[..i];
    assert t[|t| - 1] == files[i];
  }

  /** The `forEach` over all files that fills `referencesByFile` and `allReferences`. */
  method CollectReferences(files: seq<Listed>) returns (byFile: seq<FileRefs>, allReferences: seq<string>)
    ensures byFile == ByFile(files) && allReferences == AllRefs(files)
  {
    byFile := [];
    allReferences := [];
    var i := 0;
    while i < |files|
      invariant 0 <= i <= |files|
      invariant byFile == ByFile(files[..i]) && allReferences == AllRefs(files[..i])
    {
      var refs := ExtractImageReferences(files[i].content);
      CollectStep(files, i);
      if |refs| > 0 {
        byFile := byFile + [FileRefs(files[i].path, refs)];
        allReferences := AddAll(allReferences, refs);
      } else {
        assert AddAll(allReferences, refs) == allReferences;
      }
      i := i + 1;
    }
    assert files[..|files|] == files;
  }

  /** `xs.includes(x)`, as a test on `x`. */
  function Among(xs: seq<string>): string -> bool {
    x => x in xs
  }

  /** `!xs.includes(x)`, as a test on `x`. */
  function NotAmong(xs: seq<string>): string -> bool {
    x => x !in xs
  }

  /** The `forEach` over `allReferences` that sorts each one into found or missing. */
  method SplitFound(allReferences: seq<string>, existing: seq<Name>) returns (found: seq<string>, missing: seq<string>)
    ensures found == Filter(allReferences, Among(existing))
    ensures missing == Filter(allReferences, NotAmong(existing))
  {
    found := [];
    missing := [];
    var i := 0;
    while i < |allReferences|
      invariant 0 <= i <= |allReferences|
      invariant found == Filter(allReferences[..i], Among(existing))
      invariant missing == Filter(allReferences[..i], NotAmong(existing))
    {
      FilterSnoc(allReferences, i, Among(existing));
      FilterSnoc(allReferences, i, NotAmong(existing));
      var ref := allReferences[i];
      if ref in existing {
        found := found + [ref];
      } else {
        missing := missing + [ref];
      }
      i := i + 1;
    }
    assert allReferences[..|allReferences|] == allReferences;
  }

  datatype Summary = Summary(totalReferences: nat, totalAssets: nat, missing: nat, unused: nat, found: nat)
  datatype Report = Report(summary: Summary, missingAssets: seq<string>, unusedAssets: seq<Name>,
                           foundAssets: seq<string>, referencesByFile: seq<FileRefs>)

  /** The report built from the collected references and the image listing. */
  function Reconcile(byFile: seq<FileRefs>, all: seq<string>, existing: seq<Name>): (rep: Report)
    ensures rep.summary.totalReferences == |all| && rep.summary.totalAssets == |existing|
    ensures forall x :: x in rep.foundAssets <==> x in all && x in existing
    ensures forall x :: x in rep.missingAssets <==> x in all && x !in existing
    ensures forall x :: x in rep.unusedAssets <==> x in existing && x !in all
  {
    var found := Filter(all, Among(existing));
    var missing := Filter(all, NotAmong(existing));
    var unused := Filter(existing, NotAmong(all));
    assert forall x :: x in all && x in existing ==> x in found by {
      forall x | x in all && x in existing ensures x in found {
        var i :| 0 <= i < |all| && all[i] == x;
      }
    }
    assert forall x :: x in all && x !in existing ==> x in missing by {
      forall x | x in all && x !in existing ensures x in missing {
        var i :| 0 <= i < |all| && all[i] == x;
      }
    }
    assert forall x :: x in existing && x !in all ==> x in unused by {
      forall x | x in existing && x !in all ensures x in unused {
        var i :| 0 <= i < |existing| && existing[i] == x;
      }
    }
    Report(Summary(|all|, |existing|, |missing|, |unused|, |found|), missing, unused, found, byFile)
  }

  /** The report's lists are the three filters, its counts their lengths. */
  lemma ReconcileParts(byFile: seq<FileRefs>, all: seq<string>, existing: seq<Name>)
    ensures var found := Filter(all, Among(existing));
      var missing := Filter(all, NotAmong(existing));
      var unused := Filter(existing, NotAmong(all));
      Reconcile(byFile, all, existing)
        == Report(Summary(|all|, |existing|, |missing|, |unused|, |found|), missing, unused, found, byFile)
  {
  }

  /**
   * The counts of the summary agree: every distinct reference is either found
   * or missing; and when the image names are distinct, every image is either
   * found or unused.
   */
  lemma {:induction false} ReconcileCounts(byFile: seq<FileRefs>, all: seq<string>, existing: seq<Name>)
    ensures var s := Reconcile(byFile, all, existing).summary;
      s.found + s.missing == s.totalReferences
    ensures NoDups(all) && NoDups(existing) ==>
      var s := Reconcile(byFile, all, existing).summary;
      s.found + s.unused == s.totalAssets
  {
    FilterSplitCount(all, Among(existing), NotAmong(existing));
    if NoDups(all) && NoDups(existing) {
      FilterCommonCount(all, existing, Among(existing), Among(all));
      FilterSplitCount(existing, Among(all), NotAmong(all));
    }
  }

  /** Nothing is missing exactly when every distinct reference is in the listing. */
  lemma {:induction false} NothingMissingIff(byFile: seq<FileRefs>, all: seq<string>, existing: seq<Name>)
    ensures Reconcile(byFile, all, existing).summary.missing == 0 <==> forall x :: x in all ==> x in existing
  {
    var rep := Reconcile(byFile, all, existing);
    if !(forall x :: x in all ==> x in existing) {
      var x :| x in all && x !in existing;
      assert x in rep.missingAssets;
    } else {
      FilterNone(all, NotAmong(existing));
    }
  }

  /** The directory a scan starts from, or the error `readdirSync` throws. */
  function SourceDir(frontend: Node, name: Name): (r: Result<seq<Entry>, AuditError>)
    ensures r.Success? <==> Lookup(frontend, [name]).Some? && Lookup(frontend, [name]).value.Dir?
  {
    match Lookup(frontend, [name])
    case None => Failure(NoSuchDirectory([name]))
    case Some(File(_, _)) => Failure(NotADirectory([name]))
    case Some(Dir(entries)) => Success(entries)
  }

  /** The files the audit reads, `components` first, then `app`. */
  function SourceFiles(components: seq<Entry>, app: seq<Entry>): seq<Listed> {
    Walk(components, ["components"], SkippedDirs, IsSourceName) + Walk(app, ["app"], SkippedDirs, IsSourceName)
  }

  /** The report `auditAssets` builds from the frontend directory. */
  function Audit(frontend: Node): (r: Result<Report, AuditError>)
    ensures r.Success? <==>
      SourceDir(frontend, "components").Success? && SourceDir(frontend, "app").Success?
      && ExistingAssets(Lookup(frontend, ImagesPath)).Success?
  {
    match SourceDir(frontend, "components")
    case Failure(e) => Failure(e)
    case Success(components) =>
      match SourceDir(frontend, "app")
      case Failure(e) => Failure(e)
      case Success(app) =>
        match ExistingAssets(Lookup(frontend, ImagesPath))
        case Failure(e) => Failure(e)
        case Success(existing) =>
          var files := SourceFiles(components, app);
          Success(Reconcile(ByFile(files), AllRefs(files), existing))
  }

  /** `auditAssets`, step by step. */
  method AuditAssets(frontend: Node) returns (r: Result<Report, AuditError>)
    ensures r == Audit(frontend)
  {
    var components := SourceDir(frontend, "components");
    if components.Failure? {
      return Failure(components.error);
    }
    var app := SourceDir(frontend, "app");
    if app.Failure? {
      return Failure(app.error);
    }
    var allFiles := ScanDirectory(components.value, ["components"], []);
    assert allFiles == Walk(components.value, ["components"], SkippedDirs, IsSourceName);
    var appFiles := ScanDirectory(app.value, ["app"], []);
    assert appFiles == Walk(app.value, ["app"], SkippedDirs, IsSourceName);
    allFiles := allFiles + appFiles;
    var byFile, all := CollectReferences(allFiles);
    var existing := ExistingAssets(Lookup(frontend, ImagesPath));
    if existing.Failure? {
      return Failure(existing.error);
    }
    var report := BuildReport(byFile, all, existing.value);
    r := Success(report);
  }

  /** The tail of `auditAssets`: sort the references, find the unused images, count. */
  method BuildReport(byFile: seq<FileRefs>, all: seq<string>, existing: seq<Name>) returns (report: Report)
    ensures report == Reconcile(byFile, all, existing)
  {
    var found, missing := SplitFound(all, existing);
    var unused := Filter(existing, NotAmong(all));
    ReconcileParts(byFile, all, existing);
    report := Report(Summary(|all|, |existing|, |missing|, |unused|, |found|), missing, unused, found, byFile);
  }

  /** Without a `public/images` directory every reference is missing and nothing is found or unused. */
  lemma {:induction false} NoImagesDirectory(byFile: seq<FileRefs>, all: seq<string>)
    ensures var rep := Reconcile(byFile, all, []);
      rep.missingAssets == all && rep.foundAssets == [] && rep.unusedAssets == []
  {
    FilterAll(all, NotAmong([]));
    FilterNone(all, Among([]));
  }

  // ---------------------------------------------------------------------------
  // Exit status

  /** The CLI's exit code: 1 when the audit failed or some asset is missing. */
  function ExitCode(r: Result<Report, AuditError>): (code: nat)
    ensures code <= 1
  {
    if r.Failure? || r.value.summary.missing > 0 then 1 else 0
  }

  /**
   * The script exits 0 exactly when the audit ran and every image some source
   * file references is listed in `public/images`.
   */
  lemma {:induction false} ExitZeroIff(frontend: Node)
    ensures ExitCode(Audit(frontend)) == 0 <==>
      && SourceDir(frontend, "components").Success? && SourceDir(frontend, "app").Success?
      && ExistingAssets(Lookup(frontend, ImagesPath)).Success?
      && var files := SourceFiles(SourceDir(frontend, "components").value, SourceDir(frontend, "app").value);
         forall l, x :: l in files && x in ImageReferences(l.content) ==>
           x in ExistingAssets(Lookup(frontend, ImagesPath)).value
  {
    if Audit(frontend).Success? {
      var files := SourceFiles(SourceDir(frontend, "components").value, SourceDir(frontend, "app").value);
      var existing := ExistingAssets(Lookup(frontend, ImagesPath)).value;
      NothingMissingIff(ByFile(files), AllRefs(files), existing);
      AllRefsIff(files);
    }
  }
}
