/**
 * The batch image compressor: command-line options, the recursive image
 * listing, the per-image skip/resize/WebP rules, and the counters of the main
 * loop.
 *
 * The images directory is a `FileTree` node. The sharp pipeline for one
 * image is an `Encoder` parameter in two steps: reading the image's width
 * (`metadata`), then writing it at the width, format and quality the script
 * chooses (resize, re-encoding, rename, optional WebP copy), which yields the
 * new size. Either step may throw a message instead.
 */
module CompressAllImages {
  import opened Wrappers
  import opened Strings
  import opened Seqs
  import opened FileTree

  // ---------------------------------------------------------------------------
  // parseInt

  /**
   * JavaScript's `parseInt(s)` with no radix: leading white space is skipped,
   * then an optional sign; `0x`/`0X` switches to hexadecimal; the longest run
   * of digits is read and anything after it ignored. `None` stands for NaN,
   * when no digit follows.
   */
  function ParseInt(s: string): Option<int> {
    var t := s[LeadingWs(s)..];
    var negative := |t| > 0 && t[0] == '-';
    var u := if |t| > 0 && (t[0] == '-' || t[0] == '+') then t[1..] else t;
    var magnitude: Option<nat> :=
      if |u| >= 2 && u[0] == '0' && (u[1] == 'x' || u[1] == 'X') then
        var k := RadixRun(u[2..], 16);
        if k == 0 then None else Some(RadixValue(u[2..][..k], 16))
      else
        var k := DigitRun(u);
        if k == 0 then None else Some(DecimalValue(u[..k]));
    match magnitude
    case None => None
    case Some(m) =>
      var v: int := m;
      Some(if negative then -v else v)
  }

  /**
   * A number written in decimal reads back as itself, whatever follows it
   * that is not a digit (except an `x` right after a lone `0`, which makes a
   * hexadecimal prefix).
   */
  lemma ParseIntDecimal(n: nat, rest: string)
    requires rest == [] || !IsDigit(rest[0])
    requires n == 0 ==> rest == [] || (rest[0] != 'x' && rest[0] != 'X')
    ensures ParseInt(NatToDecimal(n) + rest) == Some(n)
  {
    var d := NatToDecimal(n);
    var s := d + rest;
    assert s[0] == d[0] && IsDigit(s[0]);
    assert LeadingWs(s) == 0;
    assert s[LeadingWs(s)..] == s;
    assert !(|s| >= 2 && s[0] == '0' && (s[1] == 'x' || s[1] == 'X')) by {
      if |d| > 1 {
        assert s[0] != '0';
      } else if n == 0 && rest != [] {
        assert s[1] == rest[0];
      }
    }
    assert forall i :: 0 <= i < |d| ==> s[i] == d[i];
    assert DigitRun(s) == |d| by {
      DigitRunOfDigits(d, rest);
    }
    assert s[..|d|] == d;
    DecimalRoundTrip(n);
  }

  lemma {:induction false} DigitRunOfDigits(d: string, rest: string)
    requires forall i :: 0 <= i < |d| ==> IsDigit(d[i])
    requires rest == [] || !IsDigit(rest[0])
    ensures DigitRun(d + rest) == |d|
  {
    if |d| > 0 {
      assert (d + rest)[1..] == d[1..] + rest;
      DigitRunOfDigits(d[1..], rest);
    } else {
      assert d + rest == rest;
    }
  }

  // ---------------------------------------------------------------------------
  // Options

  /** The options; a `quality` of `None` is the NaN `parseInt` returns for a value without digits. */
  datatype Options = Options(quality: Option<int>, webp: bool, skipLarge: bool)

  const QualityFlag := "--quality="
  const WebpFlag := "--webp"
  const SkipLargeFlag := "--skip-large"

  predicate IsQualityArg(arg: string) {
    StartsWith(arg, QualityFlag)
  }

  /** `parseInt(arg.split('=')[1])`: the text between the flag's `=` and the next `=`. */
  function QualityValue(arg: string): (q: Option<int>)
    requires IsQualityArg(arg)
    ensures q == ParseInt(BeforeFirst(arg[|QualityFlag|..], '='))
  {
    assert forall i :: 0 <= i < 10 ==> arg[i] == QualityFlag[i];
    assert arg[9] == '=';
    assert FirstIndexOf(arg, '=') == 9;
    ParseInt(SecondPart(arg, '='))
  }

  function Step(o: Options, arg: string): Options {
    if IsQualityArg(arg) then o.(quality := QualityValue(arg))
    else if arg == WebpFlag then o.(webp := true)
    else if arg == SkipLargeFlag then o.(skipLarge := true)
    else o
  }

  /** The options after the arguments, from the defaults quality 80, no WebP, no skipping. */
  function ParseOptions(args: seq<string>): Options {
    if args == [] then Options(Some(80), false, false)
    else Step(ParseOptions(args[..|args| - 1]), args[|args| - 1])
  }

  /** One argument switches a flag on exactly when it is that flag. */
  lemma StepFlags(o: Options, arg: string)
    ensures Step(o, arg).webp <==> o.webp || arg == WebpFlag
    ensures Step(o, arg).skipLarge <==> o.skipLarge || arg == SkipLargeFlag
  {
    if arg == WebpFlag {
      assert !IsQualityArg(arg) by {
        assert |WebpFlag| < |QualityFlag|;
      }
    } else if arg == SkipLargeFlag {
      assert !IsQualityArg(arg) by {
        assert SkipLargeFlag[2] != QualityFlag[2];
      }
    }
  }

  /** The options after a non-empty argument list: those before its last argument, updated by that argument. */
  lemma ParseOptionsLast(args: seq<string>)
    requires args != []
    ensures ParseOptions(args).quality ==
      if IsQualityArg(args[|args| - 1]) then QualityValue(args[|args| - 1]) else ParseOptions(args[..|args| - 1]).quality
    ensures ParseOptions(args).webp <==> ParseOptions(args[..|args| - 1]).webp || args[|args| - 1] == WebpFlag
    ensures ParseOptions(args).skipLarge <==> ParseOptions(args[..|args| - 1]).skipLarge || args[|args| - 1] == SkipLargeFlag
  {
    StepFlags(ParseOptions(args[..|args| - 1]), args[|args| - 1]);
  }

  /** WebP copies are switched on exactly by `--webp`. */
  lemma {:induction false} WebpIff(args: seq<string>)
    ensures ParseOptions(args).webp <==> WebpFlag in args
  {
    if args != [] {
      var init := args[..|args| - 1];
      WebpIff(init);
      ParseOptionsLast(args);
      InSnoc(args, WebpFlag);
    }
  }

  /** Skipping is switched on exactly by `--skip-large`. */
  lemma {:induction false} SkipLargeIff(args: seq<string>)
    ensures ParseOptions(args).skipLarge <==> SkipLargeFlag in args
  {
    if args != [] {
      var init := args[..|args| - 1];
      SkipLargeIff(init);
      ParseOptionsLast(args);
      InSnoc(args, SkipLargeFlag);
    }
  }

  /** Without a `--quality=` argument the quality stays 80. */
  lemma {:induction false} DefaultQuality(args: seq<string>)
    requires forall j :: 0 <= j < |args| ==> !IsQualityArg(args[j])
    ensures ParseOptions(args).quality == Some(80)
  {
    if args != [] {
      DefaultQuality(args[..|args| - 1]);
      ParseOptionsLast(args);
    }
  }

  /** The last `--quality=` argument wins. */
  lemma {:induction false} LastQualityWins(args: seq<string>, i: nat)
    requires i < |args| && IsQualityArg(args[i])
    requires forall j :: i < j < |args| ==> !IsQualityArg(args[j])
    ensures ParseOptions(args).quality == QualityValue(args[i])
  {
    var init := args[..|args| - 1];
    ParseOptionsLast(args);
    if i < |args| - 1 {
      assert init[i] == args[i];
      assert forall j :: i < j < |init| ==> init[j] == args[j];
      LastQualityWins(init, i);
    }
  }

  /** `parseArgs`: the `forEach` updating `options`. */
  method ParseArgs(args: seq<string>) returns (options: Options)
    ensures options == ParseOptions(args)
  {
    options := Options(Some(80), false, false);
    var i := 0;
    while i < |args|
      invariant 0 <= i <= |args|
      invariant options == ParseOptions(args[..i])
    {
      var arg := args[i];
      assert args[..i + 1][..i] == args[..i];
      if StartsWith(arg, QualityFlag) {
        options := options.(quality := QualityValue(arg));
      } else if arg == WebpFlag {
        options := options.(webp := true);
      } else if arg == SkipLargeFlag {
        options := options.(skipLarge := true);
      }
      i := i + 1;
    }
    assert args[..i] == args;
  }

  // ---------------------------------------------------------------------------
  // Listing the images

  /** `/\.(png|jpe?g)$/i` */
  predicate IsImageName(n: Name) {
    EndsWithIgnoreCase(n, ".png") || EndsWithIgnoreCase(n, ".jpg") || EndsWithIgnoreCase(n, ".jpeg")
  }

  /** `getImages`: every image file at any depth, no directory excluded, appended in listing order. */
  method GetImages(entries: seq<Entry>) returns (images: seq<Listed>)
    ensures images == Walk(entries, [], {}, IsImageName)
  {
    images := Scan(entries, [], {}, IsImageName, []);
    assert [] + Walk(entries, [], {}, IsImageName) == Walk(entries, [], {}, IsImageName);
  }

  /** The walk of a directory lists, in place, the walk of each of its entries. */
  lemma WalkAround(entries: seq<Entry>, i: nat, prefix: Path, skip: set<Name>, keep: Name -> bool)
    requires i < |entries|
    ensures Walk(entries, prefix, skip, keep) ==
      Walk(entries[..i], prefix, skip, keep) + Walk([entries[i]], prefix, skip, keep) + Walk(entries[i + 1..], prefix, skip, keep)
  {
    assert entries == entries[..i] + ([entries[i]] + entries[i + 1..]);
    WalkAppend(entries[..i], [entries[i]] + entries[i + 1..], prefix, skip, keep);
    WalkAppend([entries[i]], entries[i + 1..], prefix, skip, keep);
  }

  /** Subdirectories are never excluded: every image inside one is listed. */
  lemma SubdirectoryImagesListed(entries: seq<Entry>, i: nat, prefix: Path)
    requires i < |entries| && entries[i].node.Dir?
    ensures forall l :: l in Walk(entries[i].node.entries, prefix + [entries[i].name], {}, IsImageName) ==>
      l in Walk(entries, prefix, {}, IsImageName)
  {
    WalkAround(entries, i, prefix, {}, IsImageName);
    assert [entries[i]][1..] == [];
  }

  // ---------------------------------------------------------------------------
  // One image

  const SkipBelow: nat := 500 * 1024

  /** With `--skip-large`, the files under 500 KiB are the ones skipped. */
  predicate Skips(options: Options, size: nat) {
    options.skipLarge && size < SkipBelow
  }

  const MaxWidth := 2000

  /** The width an image is re-encoded at: wider ones are resized to 2000 pixels. */
  function TargetWidth(width: int): (w: int)
    ensures w <= MaxWidth || w == width
    ensures width > MaxWidth ==> w == MaxWidth
    ensures width <= MaxWidth ==> w == width
  {
    if width > MaxWidth then MaxWidth else width
  }

  /** The position of the last `c` in `s`, or -1. */
  function LastIndexOf(s: string, c: char): (k: int)
    ensures -1 <= k < |s|
    ensures k >= 0 ==> s[k] == c
    ensures forall i :: k < i < |s| ==> s[i] != c
  {
    if |s| == 0 then -1
    else if s[|s| - 1] == c then |s| - 1
    else LastIndexOf(s[..|s| - 1], c)
  }

  /** `path.extname` of a file name: from the last dot, none for a name whose only dot leads it. */
  function Extname(n: Name): (e: string)
    ensures e == "" || (e[0] == '.' && EndsWith(n, e))
  {
    var k := LastIndexOf(n, '.');
    if k <= 0 then "" else n[k..]
  }

  datatype Format = Png | Jpeg

  /** PNG files are re-encoded as PNG, every other listed image as JPEG. */
  function FormatOf(n: Name): Format {
    if LowerAscii(Extname(n)) == ".png" then Png else Jpeg
  }

  /** Lower-casing commutes with taking a suffix. */
  lemma LowerAsciiSuffix(n: string, k: nat)
    requires k <= |n|
    ensures LowerAscii(n[k..]) == LowerAscii(n)[k..]
  {
    var a, b := LowerAscii(n[k..]), LowerAscii(n)[k..];
    assert |a| == |b|;
    forall i | 0 <= i < |a| ensures a[i] == b[i] {
      assert n[k..][i] == n[k + i];
    }
  }

  /** Only `.` lower-cases to `.`. */
  lemma LowerDot(c: char)
    ensures LowerChar(c) == '.' <==> c == '.'
  {
  }

  /** The last `c` is at `k` when `s[k]` is one and none follows it. */
  lemma LastIndexOfAt(s: string, c: char, k: nat)
    requires k < |s| && s[k] == c
    requires forall i :: k < i < |s| ==> s[i] != c
    ensures LastIndexOf(s, c) == k
  {
  }

  /** The characters of a `.png` ending: a dot, then three that are not. */
  lemma PngChars(t: string)
    requires EndsWith(t, ".png")
    ensures t[|t| - 4] == '.'
    ensures forall i :: |t| - 4 < i < |t| ==> t[i] != '.'
  {
    var k := |t| - 4;
    assert t[k..] == ".png";
    forall i | k <= i < |t| ensures t[i] == ".png"[i - k] {
      assert t[i] == t[k..][i - k];
    }
  }

  /** A name ending in `.png` in any case has a dot four from the end and none after it. */
  lemma PngSuffixDot(n: Name)
    requires EndsWith(LowerAscii(n), ".png")
    ensures n[|n| - 4] == '.'
    ensures forall i :: |n| - 4 < i < |n| ==> n[i] != '.'
  {
    PngChars(LowerAscii(n));
    LowerDot(n[|n| - 4]);
    LowerDot('.');
  }

  /** A name ending in `.png` in any case, after something, has `.png` as its extension. */
  lemma PngExtension(n: Name)
    requires |n| > 4 && EndsWith(LowerAscii(n), ".png")
    ensures FormatOf(n) == Png
  {
    var k := |n| - 4;
    PngSuffixDot(n);
    LastIndexOfAt(n, '.', k);
    assert Extname(n) == n[k..];
    LowerAsciiSuffix(n, k);
  }

  /** Where a non-empty extension starts. */
  lemma ExtnameStart(n: Name) returns (k: nat)
    requires Extname(n) != ""
    ensures 0 < k < |n| && Extname(n) == n[k..]
  {
    k := LastIndexOf(n, '.');
  }

  /** A name whose extension lower-cases to `x` ends in `x`, in any case, after something. */
  lemma ExtnameEnds(n: Name, x: string)
    requires x != "" && LowerAscii(Extname(n)) == x
    ensures |n| > |x| && EndsWith(LowerAscii(n), x)
  {
    var k := ExtnameStart(n);
    LowerAsciiSuffix(n, k);
  }

  /** A name with the extension `.png`, in any case, has something before it. */
  lemma PngExtensionLong(n: Name)
    requires FormatOf(n) == Png
    ensures |n| > 4
  {
    ExtnameEnds(n, ".png");
  }

  /** A name with the extension `.png`, in any case, ends in it. */
  lemma PngExtensionEnds(n: Name)
    requires FormatOf(n) == Png
    ensures EndsWith(LowerAscii(n), ".png")
  {
    ExtnameEnds(n, ".png");
  }

  /**
   * A name is re-encoded as PNG exactly when it ends in `.png` in any case and
   * something precedes that extension (`path.extname('.png')` is empty).
   */
  lemma FormatOfPng(n: Name)
    ensures FormatOf(n) == Png <==> |n| > 4 && EndsWith(LowerAscii(n), ".png")
  {
    if |n| > 4 && EndsWith(LowerAscii(n), ".png") {
      PngExtension(n);
    }
    if FormatOf(n) == Png {
      PngExtensionLong(n);
      PngExtensionEnds(n);
    }
  }

  /** The length of the extension the WebP rewrite replaces. */
  function ImageExtLength(n: Name): (k: nat)
    requires IsImageName(n)
    ensures k <= |n| && LowerAscii(n[|n| - k..]) in {".png", ".jpg", ".jpeg"}
  {
    var low := LowerAscii(n);
    if EndsWith(low, ".jpeg") then
      assert low[|n| - 5..] == LowerAscii(n[|n| - 5..]);
      5
    else
      assert low[|n| - 4..] == LowerAscii(n[|n| - 4..]);
      4
  }

  /**
   * `filePath.replace(/\.(png|jpe?g)$/i, '.webp')` on the file name: the
   * trailing extension, in any case, becomes `.webp`.
   */
  function WebpName(n: Name): (w: Name)
    requires IsImageName(n)
    ensures EndsWith(w, ".webp")
    ensures |w| >= 5 && w[..|w| - 5] == n[..|n| - ImageExtLength(n)]
  {
    var w := n[..|n| - ImageExtLength(n)] + ".webp";
    assert w[|w| - 5..] == ".webp";
    w
  }

  datatype ImageResult =
    | Skipped(originalSize: nat)
    | Failed(error: string)
    | Compressed(originalSize: nat, newSize: nat, webpPath: Option<Name>)

  /**
   * What sharp is asked to write: the image at a width, in a format and
   * quality, and, when `webp` holds a name, a WebP copy under that name
   * beside it.
   */
  datatype Job = Job(image: Listed, width: int, format: Format, quality: Option<int>, webp: Option<Name>)

  /**
   * The sharp pipeline for one image: `metadata` yields its width, `encode`
   * writes a job and yields the new size; each may throw a message instead.
   */
  datatype Encoder = Encoder(metadata: Listed -> Result<int, string>, encode: Job -> Result<nat, string>)

  /** The file name at the end of a listed path. */
  function FileName(image: Listed): Name {
    if image.path == [] then "" else image.path[|image.path| - 1]
  }

  /**
   * The job for an image of the given width: resized to at most 2000 pixels,
   * in its own format, with a WebP copy exactly under `--webp`. The WebP name
   * is the image's with its extension replaced; a name the pattern does not
   * match is left as it is, as `replace` leaves it.
   */
  function JobFor(image: Listed, options: Options, width: int): (j: Job)
    ensures j.image == image && j.quality == options.quality
    ensures j.width <= MaxWidth && (width <= MaxWidth ==> j.width == width)
    ensures j.format == Png <==> |FileName(image)| > 4 && EndsWith(LowerAscii(FileName(image)), ".png")
    ensures j.webp.Some? <==> options.webp
    ensures options.webp && IsImageName(FileName(image)) ==>
      (EndsWith(j.webp.value, ".webp") && j.webp == Some(WebpName(FileName(image))))
    ensures options.webp && !IsImageName(FileName(image)) ==> j.webp == Some(FileName(image))
  {
    FormatOfPng(FileName(image));
    var n := FileName(image);
    var webp := if !options.webp then None else if IsImageName(n) then Some(WebpName(n)) else Some(n);
    Job(image, TargetWidth(width), FormatOf(n), options.quality, webp)
  }

  /**
   * `compressImage`: skipped, failed (when reading the width or writing the
   * job throws), or compressed from its old size to the new one.
   */
  function CompressImage(image: Listed, options: Options, sharp: Encoder): (r: ImageResult)
    ensures r.Skipped? <==> Skips(options, image.size)
    ensures r.Failed? <==> (!Skips(options, image.size) &&
      (sharp.metadata(image).Failure? || sharp.encode(JobFor(image, options, sharp.metadata(image).value)).Failure?))
    ensures r.Compressed? ==> (r.originalSize == image.size
      && r.webpPath == JobFor(image, options, sharp.metadata(image).value).webp
      && (r.webpPath.Some? <==> options.webp)
      && r.newSize == sharp.encode(JobFor(image, options, sharp.metadata(image).value)).value)
  {
    if Skips(options, image.size) then Skipped(image.size)
    else match sharp.metadata(image)
      case Failure(message) => Failed(message)
      case Success(width) =>
        match sharp.encode(JobFor(image, options, width))
        case Failure(message) => Failed(message)
        case Success(newSize) => Compressed(image.size, newSize, JobFor(image, options, width).webp)
  }

  // ---------------------------------------------------------------------------
  // The main loop

  datatype Totals = Totals(processed: nat, skipped: nat, errors: nat, totalOriginalSize: nat, totalNewSize: nat)

  function Results(images: seq<Listed>, options: Options, encode: Encoder): (r: seq<ImageResult>)
    ensures |r| == |images|
    ensures forall i :: 0 <= i < |images| ==> r[i] == CompressImage(images[i], options, encode)
  {
    seq(|images|, i requires 0 <= i < |images| => CompressImage(images[i], options, encode))
  }

  predicate IsSkipped(r: ImageResult) { r.Skipped? }
  predicate IsFailed(r: ImageResult) { r.Failed? }
  predicate IsCompressed(r: ImageResult) { r.Compressed? }

  /** The original sizes of compressed results, added up. */
  function OriginalSizes(rs: seq<ImageResult>): nat
    requires forall i :: 0 <= i < |rs| ==> rs[i].Compressed?
  {
    if rs == [] then 0 else OriginalSizes(rs[..|rs| - 1]) + rs[|rs| - 1].originalSize
  }

  /** The new sizes of compressed results, added up. */
  function NewSizes(rs: seq<ImageResult>): nat
    requires forall i :: 0 <= i < |rs| ==> rs[i].Compressed?
  {
    if rs == [] then 0 else NewSizes(rs[..|rs| - 1]) + rs[|rs| - 1].newSize
  }

  /** Adding one result to the end adds it to the count of its own kind. */
  lemma CountSnoc(results: seq<ImageResult>, p: ImageResult -> bool)
    requires results != []
    ensures |Filter(results, p)|
      == |Filter(results[..|results| - 1], p)| + (if p(results[|results| - 1]) then 1 else 0)
  {
    var n := |results| - 1;
    assert results[..n + 1] == results;
    FilterSnoc(results, n, p);
  }

  lemma SizesOfSnoc(rs: seq<ImageResult>, x: ImageResult)
    requires forall i :: 0 <= i < |rs| ==> rs[i].Compressed?
    requires x.Compressed?
    ensures OriginalSizes(rs + [x]) == OriginalSizes(rs) + x.originalSize
    ensures NewSizes(rs + [x]) == NewSizes(rs) + x.newSize
  {
    assert (rs + [x])[..|rs|] == rs;
  }

  /** Adding one result to the end adds its sizes to the totals exactly when it is compressed. */
  lemma SizesSnoc(results: seq<ImageResult>)
    requires results != []
    ensures var n := |results| - 1; var last := results[n];
      OriginalSizes(Filter(results, IsCompressed))
        == OriginalSizes(Filter(results[..n], IsCompressed)) + (if last.Compressed? then last.originalSize else 0)
      && NewSizes(Filter(results, IsCompressed))
        == NewSizes(Filter(results[..n], IsCompressed)) + (if last.Compressed? then last.newSize else 0)
  {
    var n := |results| - 1;
    assert results[..n + 1] == results;
    FilterSnoc(results, n, IsCompressed);
    var before, after := Filter(results[..n], IsCompressed), Filter(results, IsCompressed);
    if results[n].Compressed? {
      assert after == before + [results[n]];
      SizesOfSnoc(before, results[n]);
    } else {
      assert after == before;
    }
  }

  lemma TallySnoc(results: seq<ImageResult>)
    requires results != []
    ensures var n := |results| - 1; var last := results[n];
      |Filter(results, IsSkipped)| == |Filter(results[..n], IsSkipped)| + (if last.Skipped? then 1 else 0)
      && |Filter(results, IsFailed)| == |Filter(results[..n], IsFailed)| + (if last.Failed? then 1 else 0)
      && |Filter(results, IsCompressed)| == |Filter(results[..n], IsCompressed)| + (if last.Compressed? then 1 else 0)
      && OriginalSizes(Filter(results, IsCompressed))
        == OriginalSizes(Filter(results[..n], IsCompressed)) + (if last.Compressed? then last.originalSize else 0)
      && NewSizes(Filter(results, IsCompressed))
        == NewSizes(Filter(results[..n], IsCompressed)) + (if last.Compressed? then last.newSize else 0)
  {
    CountSnoc(results, IsSkipped);
    CountSnoc(results, IsFailed);
    CountSnoc(results, IsCompressed);
    SizesSnoc(results);
  }

  /**
   * The counters after the results so far: each image is counted once, under
   * its own kind, and only compressed images add to the size totals.
   */
  function Tally(results: seq<ImageResult>): (t: Totals)
    ensures t.processed + t.skipped + t.errors == |results|
    ensures t.skipped == |Filter(results, IsSkipped)|
    ensures t.errors == |Filter(results, IsFailed)|
    ensures t.processed == |Filter(results, IsCompressed)|
    ensures t.totalOriginalSize == OriginalSizes(Filter(results, IsCompressed))
    ensures t.totalNewSize == NewSizes(Filter(results, IsCompressed))
  {
    if results == [] then Totals(0, 0, 0, 0, 0)
    else
      var n := |results| - 1;
      var t := Tally(results[..n]);
      var last := results[n];
      TallySnoc(results);
      Count(t, last)
  }

  /** The counters after one more result: its own counter goes up, and a compressed one adds its sizes. */
  function Count(t: Totals, r: ImageResult): Totals {
    match r
    case Skipped(_) => t.(skipped := t.skipped + 1)
    case Failed(_) => t.(errors := t.errors + 1)
    case Compressed(o, n, _) =>
      t.(processed := t.processed + 1, totalOriginalSize := t.totalOriginalSize + o, totalNewSize := t.totalNewSize + n)
  }

  lemma TallyStep(results: seq<ImageResult>, i: nat)
    requires i < |results|
    ensures Tally(results[..i + 1]) == Count(Tally(results[..i]), results[i])
  {
    assert results[..i + 1][..i] == results[..i];
  }

  /** Results that are all skips are counted as skips only, adding nothing to the size totals. */
  lemma {:induction false} AllSkippedTally(results: seq<ImageResult>)
    requires forall i :: 0 <= i < |results| ==> results[i].Skipped?
    ensures Tally(results) == Totals(0, |results|, 0, 0, 0)
  {
    if results != [] {
      AllSkippedTally(results[..|results| - 1]);
    }
  }

  /** With `--skip-large` and every image under 500 KiB, every image is skipped and nothing is processed. */
  lemma AllSmallAllSkipped(images: seq<Listed>, options: Options, encode: Encoder)
    requires options.skipLarge
    requires forall i :: 0 <= i < |images| ==> images[i].size < SkipBelow
    ensures Tally(Results(images, options, encode)) == Totals(0, |images|, 0, 0, 0)
  {
    AllSkippedTally(Results(images, options, encode));
  }

  datatype Run = DirectoryNotFound | Crashed | NoImages | Done(totals: Totals)

  /**
   * `compressAllImages` over what `frontend/public/images` is: missing, a file
   * (`readdirSync` throws), or a directory.
   */
  function CompressAll(imagesDir: Option<Node>, args: seq<string>, encode: Encoder): Run {
    match imagesDir
    case None => DirectoryNotFound
    case Some(File(_, _)) => Crashed
    case Some(Dir(entries)) =>
      var images := Walk(entries, [], {}, IsImageName);
      if images == [] then NoImages
      else Done(Tally(Results(images, ParseOptions(args), encode)))
  }

  /** The exit code: 0 exactly when the run returned `success: true`. */
  function ExitCode(r: Run): (code: nat)
    ensures code == 0 <==> r.NoImages? || r.Done?
  {
    if r.NoImages? || r.Done? then 0 else 1
  }

  /**
   * The script exits 0 exactly when the images directory exists and is a
   * directory: images that fail to compress are counted, not fatal.
   */
  lemma ExitZeroIff(imagesDir: Option<Node>, args: seq<string>, encode: Encoder)
    ensures ExitCode(CompressAll(imagesDir, args, encode)) == 0 <==> imagesDir.Some? && imagesDir.value.Dir?
  {
  }

  /** A completed run accounts for every listed image exactly once, and lists at least one. */
  lemma DoneCountsEveryImage(entries: seq<Entry>, args: seq<string>, encode: Encoder)
    requires CompressAll(Some(Dir(entries)), args, encode).Done?
    ensures var t := CompressAll(Some(Dir(entries)), args, encode).totals;
      t.processed + t.skipped + t.errors == |Walk(entries, [], {}, IsImageName)| > 0
  {
  }

  /** The loop body's `if`/`else` for one result: bump the counter of its kind; a compressed image also adds its sizes. */
  method CountResult(totals: Totals, result: ImageResult) returns (next: Totals)
    ensures next == Count(totals, result)
  {
    next := totals;
    match result {
      case Skipped(_) =>
        next := next.(skipped := next.skipped + 1);
      case Failed(_) =>
        next := next.(errors := next.errors + 1);
      case Compressed(o, n, _) =>
        next := next.(totalOriginalSize := next.totalOriginalSize + o, totalNewSize := next.totalNewSize + n);
        next := next.(processed := next.processed + 1);
    }
  }

  /** The loop over the images, updating the five counters. */
  method TallyImages(images: seq<Listed>, options: Options, encode: Encoder) returns (totals: Totals)
    ensures totals == Tally(Results(images, options, encode))
  {
    ghost var results := Results(images, options, encode);
    totals := Totals(0, 0, 0, 0, 0);
    var i := 0;
    assert results[..0] == [];
    while i < |images|
      invariant 0 <= i <= |images|
      invariant totals == Tally(results[..i])
    {
      var result := CompressImage(images[i], options, encode);
      assert result == results[i];
      TallyStep(results, i);
      totals := CountResult(totals, result);
      i := i + 1;
    }
    assert results[..i] == results;
  }

  /** `compressAllImages`: check the directory, list the images, compress each. */
  method CompressAllImages(imagesDir: Option<Node>, args: seq<string>, encode: Encoder) returns (r: Run)
    ensures r == CompressAll(imagesDir, args, encode)
  {
    var options := ParseArgs(args);
    if imagesDir.None? {
      return DirectoryNotFound;
    }
    if imagesDir.value.File? {
      return Crashed;
    }
    var images := GetImages(imagesDir.value.entries);
    if |images| == 0 {
      return NoImages;
    }
    var totals := TallyImages(images, options, encode);
    return Done(totals);
  }
}
