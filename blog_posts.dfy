/**
 * The blog index's `getBlogPosts`: one post per file of `content/blog`, its
 * slug from the file name, its front-matter fields spread over it, newest date
 * first.
 *
 * Front-matter parsing (gray-matter) and date parsing (`new Date(...)`) are
 * parameters: the first yields a file's fields or nothing when it throws, the
 * second a date value's time in milliseconds or nothing for an invalid date.
 */
module BlogPosts {
  import opened Wrappers
  import opened Strings
  import opened Sorting
  import opened FileTree
  import opened Json

  /** A post object: its fields by name. */
  type Post = map<string, Value>

  type Frontmatter = string -> Option<map<string, Value>>
  type DateParser = Value -> Option<int>

  const Mdx := ".mdx"

  /** `filename.replace('.mdx', '')`: the first `.mdx` removed, wherever it is. */
  function Slug(filename: Name): (s: string)
    ensures !Contains(filename, Mdx) ==> s == filename
    ensures Contains(filename, Mdx) ==> |s| == |filename| - |Mdx|
  {
    ReplaceFirst(filename, Mdx, "")
  }

  /** `.mdx` cannot start within the last three characters before an appended `.mdx`: no proper prefix of it is a suffix. */
  lemma NoOverlap(stem: string, k: nat)
    requires |stem| - 4 < k < |stem|
    ensures !OccursAt(stem + Mdx, Mdx, k)
  {
    var s := stem + Mdx;
    assert s[|stem|] == '.';
    assert s[k..k + 4][|stem| - k] == s[|stem|];
  }

  /** The slug of `<stem>.mdx` is the stem, when the stem itself holds no `.mdx`. */
  lemma SlugOfMdxFile(stem: string)
    requires !Contains(stem, Mdx)
    ensures Slug(stem + Mdx) == stem
  {
    var s := stem + Mdx;
    assert OccursAt(s, Mdx, |stem|) by {
      assert s[|stem|..|stem| + 4] == Mdx;
    }
    var k := IndexOf(s, Mdx);
    assert k == |stem| by {
      if k < |stem| {
        if k + 4 <= |stem| {
          assert stem[k..k + 4] == s[k..k + 4];
          ContainsAt(stem, Mdx, k);
        } else {
          NoOverlap(stem, k);
        }
      }
    }
    assert s[..k] == stem;
  }

  /**
   * `{ slug, ...data }`: the derived slug, then every front-matter field,
   * which overrides it, a front-matter `slug` included.
   */
  function PostOf(filename: Name, data: map<string, Value>): (p: Post)
    ensures p.Keys == data.Keys + {"slug"}
    ensures forall k :: k in data ==> p[k] == data[k]
    ensures "slug" !in data ==> p["slug"] == Str(Slug(filename))
  {
    map["slug" := Str(Slug(filename))] + data
  }

  /** Reading the entry throws: it is a directory, or its front matter does not parse. */
  predicate Unreadable(e: Entry, frontmatter: Frontmatter) {
    e.node.Dir? || frontmatter(e.node.content).None?
  }

  /** The posts of the listed files, in listing order; nothing when reading an entry throws. */
  function Posts(entries: seq<Entry>, frontmatter: Frontmatter): (r: Option<seq<Post>>)
    ensures r.None? <==> exists i :: 0 <= i < |entries| && Unreadable(entries[i], frontmatter)
    ensures r.Some? ==> |r.value| == |entries| && forall i :: 0 <= i < |entries| ==>
      r.value[i] == PostOf(entries[i].name, frontmatter(entries[i].node.content).value)
  {
    if entries == [] then Some([])
    else
      var e := entries[0];
      var rest := Posts(entries[1..], frontmatter);
      assert forall i :: 1 <= i < |entries| ==> entries[1..][i - 1] == entries[i];
      if e.node.Dir? then None
      else match frontmatter(e.node.content)
        case None => None
        case Some(data) =>
          if rest.None? then None
          else Some([PostOf(e.name, data)] + rest.value)
  }

  /** A post's date as a time, when it has a valid one. */
  function TimeOf(p: Post, parse: DateParser): Option<int> {
    if "date" in p then parse(p["date"]) else None
  }

  predicate Dated(p: Post, parse: DateParser) {
    TimeOf(p, parse).Some?
  }

  /** The sort key: the post's time, 0 for a post without a valid date. */
  function DateKey(parse: DateParser): Post -> int {
    p => if Dated(p, parse) then TimeOf(p, parse).value else 0
  }

  /**
   * `getBlogPosts` over what `content/blog` is: missing (no posts), a file
   * (`readdirSync` throws), or a directory. `None` stands for a thrown error.
   */
  function GetBlogPosts(blogDir: Option<Node>, frontmatter: Frontmatter, parse: DateParser): (r: Option<seq<Post>>)
    ensures blogDir.None? ==> r == Some([])
    ensures blogDir.Some? && blogDir.value.File? ==> r.None?
    ensures blogDir.Some? && blogDir.value.Dir? ==>
      var posts := Posts(blogDir.value.entries, frontmatter);
      (r.Some? <==> posts.Some?)
      && (r.Some? ==> multiset(r.value) == multiset(posts.value) && SortedDesc(r.value, DateKey(parse)))
      && (r.Some? ==> forall k :: WithKey(r.value, DateKey(parse), k) == WithKey(posts.value, DateKey(parse), k))
  {
    match blogDir
    case None => Some([])
    case Some(File(_, _)) => None
    case Some(Dir(entries)) =>
      match Posts(entries, frontmatter)
      case None => None
      case Some(posts) => Some(SortDesc(posts, DateKey(parse)))
  }

  /** With every date valid, the sorted posts are newest first. */
  lemma NewestFirst(posts: seq<Post>, parse: DateParser)
    requires forall i :: 0 <= i < |posts| ==> Dated(posts[i], parse)
    ensures var r := SortDesc(posts, DateKey(parse));
      forall i, j :: 0 <= i < j < |r| ==>
        Dated(r[i], parse) && Dated(r[j], parse) && TimeOf(r[i], parse).value >= TimeOf(r[j], parse).value
  {
    var r := SortDesc(posts, DateKey(parse));
    forall i | 0 <= i < |r|
      ensures Dated(r[i], parse)
    {
      assert r[i] in multiset(posts);
    }
  }

  lemma {:induction false} WithKeyConstant<T>(s: seq<T>, key: T -> int, k: int)
    requires forall i :: 0 <= i < |s| ==> key(s[i]) == k
    ensures WithKey(s, key, k) == s
  {
    if s != [] {
      WithKeyConstant(s[1..], key, k);
    }
  }

  /**
   * With no valid date the comparator always yields NaN, which the sort
   * treats as equal: the posts stay in listing order.
   */
  lemma UndatedKeepOrder(blogDir: Option<Node>, frontmatter: Frontmatter, parse: DateParser)
    requires blogDir.Some? && blogDir.value.Dir?
    requires Posts(blogDir.value.entries, frontmatter).Some?
    requires var posts := Posts(blogDir.value.entries, frontmatter).value;
      forall i :: 0 <= i < |posts| ==> !Dated(posts[i], parse)
    ensures GetBlogPosts(blogDir, frontmatter, parse) == Posts(blogDir.value.entries, frontmatter)
  {
    var posts := Posts(blogDir.value.entries, frontmatter).value;
    var key := DateKey(parse);
    var r := GetBlogPosts(blogDir, frontmatter, parse).value;
    forall i | 0 <= i < |r|
      ensures key(r[i]) == 0
    {
      assert r[i] in multiset(posts);
    }
    WithKeyConstant(posts, key, 0);
    WithKeyConstant(r, key, 0);
  }
}
