/**
 * The console-call scan both deployment checks perform: every source file
 * below a directory is split into lines, and each line a check's condition
 * accepts becomes a finding carrying the file's path, the 1-based line number
 * and the line's trimmed text. The condition (`flagged`), the directory names
 * skipped and the file names read are parameters; each check supplies its own.
 */
module LineScan {
  import opened Strings
  import opened FileTree

  /** A reported line: path relative to the searched directory, 1-based line, trimmed text. */
  datatype Finding = Finding(file: Path, line: nat, content: string)

  /** The findings for the lines of one file, in line order. */
  function LineFindings(file: Path, lines: seq<string>, flagged: string -> bool): seq<Finding> {
    if lines == [] then []
    else
      var last := lines[|lines| - 1];
      LineFindings(file, lines[..|lines| - 1], flagged)
        + (if flagged(last) then [Finding(file, |lines|, Trim(last))] else [])
  }

  /** A finding reports a flagged line, with the line's trimmed text. */
  predicate Reports(f: Finding, line: string, flagged: string -> bool) {
    flagged(line) && f.content == Trim(line)
  }

  /** Each finding is a flagged line of the file, with its 1-based number. */
  predicate FindingsSound(r: seq<Finding>, file: Path, lines: seq<string>, flagged: string -> bool) {
    forall k :: 0 <= k < |r| ==>
      r[k].file == file && 1 <= r[k].line <= |lines| && Reports(r[k], lines[r[k].line - 1], flagged)
  }

  /** The findings follow the order of the lines. */
  predicate FindingsOrdered(r: seq<Finding>) {
    forall a, b :: 0 <= a < b < |r| ==> r[a].line < r[b].line
  }

  /** Unfolds `LineFindings` once: the findings before the last line, then the last line's. */
  lemma LineFindingsSnoc(file: Path, lines: seq<string>, flagged: string -> bool)
    requires lines != []
    ensures var last := lines[|lines| - 1];
      LineFindings(file, lines, flagged) == LineFindings(file, lines[..|lines| - 1], flagged)
        + (if flagged(last) then [Finding(file, |lines|, Trim(last))] else [])
  {
  }

  lemma {:induction false} LineFindingsSound(file: Path, lines: seq<string>, flagged: string -> bool)
    ensures FindingsSound(LineFindings(file, lines, flagged), file, lines, flagged)
  {
    if lines != [] {
      var init := lines[..|lines| - 1];
      LineFindingsSound(file, init, flagged);
      LineFindingsSnoc(file, lines, flagged);
      var r0 := LineFindings(file, init, flagged);
      var r := LineFindings(file, lines, flagged);
      forall k | 0 <= k < |r|
        ensures r[k].file == file && 1 <= r[k].line <= |lines| && Reports(r[k], lines[r[k].line - 1], flagged)
      {
        if k < |r0| {
          assert r[k] == r0[k];
          assert init[r0[k].line - 1] == lines[r0[k].line - 1];
        }
      }
    }
  }

  lemma {:induction false} LineFindingsOrdered(file: Path, lines: seq<string>, flagged: string -> bool)
    ensures FindingsOrdered(LineFindings(file, lines, flagged))
  {
    if lines != [] {
      var init := lines[..|lines| - 1];
      LineFindingsOrdered(file, init, flagged);
      LineFindingsSound(file, init, flagged);
      LineFindingsSnoc(file, lines, flagged);
      var r0 := LineFindings(file, init, flagged);
      var r := LineFindings(file, lines, flagged);
      forall a, b | 0 <= a < b < |r| ensures r[a].line < r[b].line {
        assert r[a] == r0[a];
        if b < |r0| {
          assert r[b] == r0[b];
        }
      }
    }
  }

  /** No flagged line is missed. */
  lemma {:induction false} LineFindingsComplete(file: Path, lines: seq<string>, i: nat, flagged: string -> bool)
    requires i < |lines| && flagged(lines[i])
    ensures Finding(file, i + 1, Trim(lines[i])) in LineFindings(file, lines, flagged)
  {
    var init := lines[..|lines| - 1];
    LineFindingsSnoc(file, lines, flagged);
    if i < |init| {
      assert init[i] == lines[i];
      LineFindingsComplete(file, init, i, flagged);
    }
  }

  /** The `lines.forEach` over one file: a finding for each flagged line. */
  method ScanLines(file: Path, lines: seq<string>, flagged: string -> bool) returns (found: seq<Finding>)
    ensures found == LineFindings(file, lines, flagged)
  {
    found := [];
    var index := 0;
    while index < |lines|
      invariant 0 <= index <= |lines|
      invariant found == LineFindings(file, lines[..index], flagged)
    {
      assert lines[..index + 1][..index] == lines[..index];
      if flagged(lines[index]) {
        found := found + [Finding(file, index + 1, Trim(lines[index]))];
      }
      index := index + 1;
    }
    assert lines[..|lines|] == lines;
  }

  function FileFindings(l: Listed, flagged: string -> bool): seq<Finding> {
    LineFindings(l.path, Split(l.content, '\n'), flagged)
  }

  /** The findings of a sequence of files, file after file. */
  function FindingsOf(files: seq<Listed>, flagged: string -> bool): seq<Finding> {
    if files == [] then [] else FileFindings(files[0], flagged) + FindingsOf(files[1..], flagged)
  }

  lemma {:induction false} FindingsOfAppend(a: seq<Listed>, b: seq<Listed>, flagged: string -> bool)
    ensures FindingsOf(a + b, flagged) == FindingsOf(a, flagged) + FindingsOf(b, flagged)
  {
    if a == [] {
      assert a + b == b;
    } else {
      assert (a + b)[0] == a[0];
      assert (a + b)[1..] == a[1..] + b;
      FindingsOfAppend(a[1..], b, flagged);
    }
  }

  /** `p` lies strictly below the directory `prefix`. */
  predicate Below(p: Path, prefix: Path) {
    |p| > |prefix| && p[..|prefix|] == prefix
  }

  /** Every finding lies strictly below the directory `prefix`. */
  predicate AllBelow(r: seq<Finding>, prefix: Path) {
    forall k :: 0 <= k < |r| ==> Below(r[k].file, prefix)
  }

  lemma AllBelowAppend(a: seq<Finding>, b: seq<Finding>, prefix: Path)
    requires AllBelow(a, prefix) && AllBelow(b, prefix)
    ensures AllBelow(a + b, prefix)
  {
    forall k | 0 <= k < |a + b| ensures Below((a + b)[k].file, prefix) {
      if k < |a| {
        assert (a + b)[k] == a[k];
      } else {
        assert (a + b)[k] == b[k - |a|];
      }
    }
  }

  lemma FileFindingsBelow(l: Listed, prefix: Path, flagged: string -> bool)
    requires Below(l.path, prefix)
    ensures AllBelow(FileFindings(l, flagged), prefix)
  {
    LineFindingsSound(l.path, Split(l.content, '\n'), flagged);
  }

  /** Every finding of a list of files below `prefix` lies below `prefix`. */
  lemma {:induction false} FindingsOfBelow(files: seq<Listed>, prefix: Path, flagged: string -> bool)
    requires forall l :: l in files ==> Below(l.path, prefix)
    ensures AllBelow(FindingsOf(files, flagged), prefix)
  {
    if files != [] {
      assert files[0] in files;
      assert forall l :: l in files[1..] ==> l in files;
      FindingsOfBelow(files[1..], prefix, flagged);
      FileFindingsBelow(files[0], prefix, flagged);
      AllBelowAppend(FileFindings(files[0], flagged), FindingsOf(files[1..], flagged), prefix);
    }
  }

  /** What the walk collects from the first `i + 1` entries, given what it collects from the first `i`. */
  lemma SearchStep(entries: seq<Entry>, i: nat, prefix: Path, skip: set<Name>, keep: Name -> bool, flagged: string -> bool)
    requires i < |entries|
    ensures FindingsOf(Walk(entries[..i + 1], prefix, skip, keep), flagged)
      == FindingsOf(Walk(entries[..i], prefix, skip, keep), flagged)
         + FindingsOf(Walk([entries[i]], prefix, skip, keep), flagged)
  {
    assert entries[..i + 1] == entries[..i] + [entries[i]];
    WalkAppend(entries[..i], [entries[i]], prefix, skip, keep);
    FindingsOfAppend(Walk(entries[..i], prefix, skip, keep), Walk([entries[i]], prefix, skip, keep), flagged);
  }

  /** What a directory entry contributes: nothing when its name is skipped, else the findings below it. */
  lemma DirContribution(e: Entry, prefix: Path, skip: set<Name>, keep: Name -> bool, flagged: string -> bool)
    requires e.node.Dir?
    ensures FindingsOf(Walk([e], prefix, skip, keep), flagged) ==
      if e.name in skip then [] else FindingsOf(Walk(e.node.entries, prefix + [e.name], skip, keep), flagged)
  {
    assert [e][1..] == [];
    var w := Walk(e.node.entries, prefix + [e.name], skip, keep);
    FindingsOfAppend(w, [], flagged);
    assert w + [] == w;
  }

  /** What a file entry contributes: its findings when its name is kept, else nothing. */
  lemma FileContribution(e: Entry, prefix: Path, skip: set<Name>, keep: Name -> bool, flagged: string -> bool)
    requires e.node.File?
    ensures FindingsOf(Walk([e], prefix, skip, keep), flagged) ==
      if keep(e.name) then LineFindings(prefix + [e.name], Split(e.node.content, '\n'), flagged) else []
  {
    assert [e][1..] == [];
    var l := Listed(prefix + [e.name], e.node.size, e.node.content);
    assert FindingsOf([l], flagged) == FileFindings(l, flagged) by {
      assert [l][1..] == [];
      assert FileFindings(l, flagged) + [] == FileFindings(l, flagged);
    }
  }
}
