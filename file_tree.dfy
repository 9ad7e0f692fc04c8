/**
 * The file system as the scripts see it through `fs.readdirSync`,
 * `fs.statSync` and `fs.readFileSync`: a tree of named entries whose order in a
 * directory is the order `readdirSync` lists them in. Paths are sequences of
 * names, so `path.join` is concatenation and `path.relative` from an ancestor
 * is the remaining suffix.
 */
module FileTree {
  import opened Wrappers
  import opened Seqs

  type Name = string
  type Path = seq<Name>

  datatype Node = File(size: nat, content: string) | Dir(entries: seq<Entry>)
  datatype Entry = Entry(name: Name, node: Node)

  /** A file found by a walk: its path, its size and its text. */
  datatype Listed = Listed(path: Path, size: nat, content: string)

  /** Names are distinct within every directory, as on a real file system. */
  predicate WellFormed(entries: seq<Entry>)
    decreases entries
  {
    (forall i, j :: 0 <= i < j < |entries| ==> entries[i].name != entries[j].name)
    && forall i :: 0 <= i < |entries| ==>
         (entries[i].node.Dir? ==> WellFormed(entries[i].node.entries))
  }

  /** The names `readdirSync` lists for a directory, in order. */
  function Names(entries: seq<Entry>): (names: seq<Name>)
    ensures |names| == |entries|
    ensures forall i :: 0 <= i < |entries| ==> names[i] == entries[i].name
  {
    if entries == [] then [] else [entries[0].name] + Names(entries[1..])
  }

  /** The entry called `n`, if the directory has one. */
  function Child(entries: seq<Entry>, n: Name): (r: Option<Node>)
    ensures r.Some? <==> exists i :: 0 <= i < |entries| && entries[i].name == n
    ensures r.Some? ==> exists i :: 0 <= i < |entries| && entries[i].name == n && entries[i].node == r.value
  {
    if entries == [] then None
    else if entries[0].name == n then Some(entries[0].node)
    else
      var r := Child(entries[1..], n);
      assert forall i :: 0 <= i < |entries| - 1 ==> entries[1..][i] == entries[i + 1];
      r
  }

  /** The node at `p` below `node` (`fs.existsSync` holds when this is `Some`). */
  function Lookup(node: Node, p: Path): Option<Node>
    decreases p
  {
    if p == [] then Some(node)
    else match node
      case File(_, _) => None
      case Dir(entries) =>
        match Child(entries, p[0])
        case None => None
        case Some(c) => Lookup(c, p[1..])
  }

  predicate Exists(root: Node, p: Path) {
    Lookup(root, p).Some?
  }

  /**
   * The files a depth-first walk of a directory collects, in listing order.
   * A directory whose name is in `skip` is not entered; a file is collected
   * when `keep` accepts its name. Each collected path is `prefix` followed by
   * the names leading to the file.
   */
  function Walk(entries: seq<Entry>, prefix: Path, skip: set<Name>, keep: Name -> bool): (r: seq<Listed>)
    ensures forall l :: l in r ==> Collectable(l, prefix, skip, keep)
    decreases entries
  {
    if entries == [] then []
    else
      var e := entries[0];
      var here := match e.node
        case Dir(sub) => if e.name in skip then [] else Walk(sub, prefix + [e.name], skip, keep)
        case File(size, content) => if keep(e.name) then [Listed(prefix + [e.name], size, content)] else [];
      assert forall l :: l in here ==> Collectable(l, prefix, skip, keep) by {
        forall l | l in here ensures Collectable(l, prefix, skip, keep) {
          if e.node.Dir? {
            assert Collectable(l, prefix + [e.name], skip, keep);
            assert l.path[..|prefix|] == (l.path[..|prefix| + 1])[..|prefix|];
          }
        }
      }
      here + Walk(entries[1..], prefix, skip, keep)
  }

  /**
   * A path a walk from `prefix` may collect: it lies strictly below `prefix`,
   * its file name is accepted by `keep`, and no directory on the way down has a
   * name in `skip`.
   */
  predicate Collectable(l: Listed, prefix: Path, skip: set<Name>, keep: Name -> bool) {
    && |l.path| > |prefix|
    && l.path[..|prefix|] == prefix
    && keep(l.path[|l.path| - 1])
    && forall k :: |prefix| <= k < |l.path| - 1 ==> l.path[k] !in skip
  }

  /**
   * The recursive `readdirSync`/`statSync` walk the scripts write by hand,
   * appending each accepted file to the list it was given.
   */
  method Scan(entries: seq<Entry>, prefix: Path, skip: set<Name>, keep: Name -> bool, fileList: seq<Listed>)
    returns (out: seq<Listed>)
    ensures out == fileList + Walk(entries, prefix, skip, keep)
    decreases entries
  {
    out := fileList;
    var i := 0;
    while i < |entries|
      invariant 0 <= i <= |entries|
      invariant out == fileList + Walk(entries[..i], prefix, skip, keep)
    {
      WalkStep(entries, i, prefix, skip, keep);
      ConcatAssoc(fileList, Walk(entries[..i], prefix, skip, keep), Walk([entries[i]], prefix, skip, keep));
      out := ScanEntry(entries[i], prefix, skip, keep, out);
      i := i + 1;
    }
    assert entries[..|entries|] == entries;
  }

  /** One entry of the walk: a directory not skipped is entered, a kept file appended. */
  method ScanEntry(e: Entry, prefix: Path, skip: set<Name>, keep: Name -> bool, fileList: seq<Listed>)
    returns (out: seq<Listed>)
    ensures out == fileList + Walk([e], prefix, skip, keep)
    decreases e
  {
    WalkSingle(e, prefix, skip, keep);
    out := fileList;
    match e.node {
      case Dir(sub) =>
        if e.name !in skip {
          out := Scan(sub, prefix + [e.name], skip, keep, out);
        }
      case File(size, content) =>
        if keep(e.name) {
          out := out + [Listed(prefix + [e.name], size, content)];
        }
    }
  }

  /** What a single entry contributes to a walk. */
  lemma WalkSingle(e: Entry, prefix: Path, skip: set<Name>, keep: Name -> bool)
    ensures Walk([e], prefix, skip, keep) == match e.node
      case Dir(sub) => if e.name in skip then [] else Walk(sub, prefix + [e.name], skip, keep)
      case File(size, content) => if keep(e.name) then [Listed(prefix + [e.name], size, content)] else []
  {
    assert [e][1..] == [];
  }

  /** The walk of the first `i + 1` entries extends the walk of the first `i` by entry `i`'s part. */
  lemma WalkStep(entries: seq<Entry>, i: nat, prefix: Path, skip: set<Name>, keep: Name -> bool)
    requires i < |entries|
    ensures Walk(entries[..i + 1], prefix, skip, keep)
      == Walk(entries[..i], prefix, skip, keep) + Walk([entries[i]], prefix, skip, keep)
  {
    assert entries[..i + 1] == entries[..i] + [entries[i]];
    WalkAppend(entries[..i], [entries[i]], prefix, skip, keep);
  }

  /** Total size of the listed files. */
  function TotalSize(files: seq<Listed>): nat {
    if files == [] then 0 else files[0].size + TotalSize(files[1..])
  }

  lemma {:induction false} TotalSizeAppend(a: seq<Listed>, b: seq<Listed>)
    ensures TotalSize(a + b) == TotalSize(a) + TotalSize(b)
  {
    if a != [] {
      assert (a + b)[0] == a[0];
      assert (a + b)[1..] == a[1..] + b;
      TotalSizeAppend(a[1..], b);
    } else {
      assert a + b == b;
    }
  }

  lemma {:induction false} WalkAppend(a: seq<Entry>, b: seq<Entry>, prefix: Path, skip: set<Name>, keep: Name -> bool)
    ensures Walk(a + b, prefix, skip, keep) == Walk(a, prefix, skip, keep) + Walk(b, prefix, skip, keep)
  {
    if a != [] {
      assert (a + b)[0] == a[0];
      assert (a + b)[1..] == a[1..] + b;
      WalkAppend(a[1..], b, prefix, skip, keep);
    } else {
      assert a + b == b;
    }
  }
}
