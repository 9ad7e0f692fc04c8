/**
 * `Array.prototype.sort` with a comparator `(a, b) => key(b) - key(a)`, as the
 * backup listing (newest modification time first) and the blog index (newest
 * date first) use it. The sort JavaScript engines must provide is stable, so
 * the model is a stable insertion sort into descending key order.
 */
module Sorting {
  import opened Seqs

  ghost predicate SortedDesc<T>(s: seq<T>, key: T -> int) {
    forall i, j :: 0 <= i < j < |s| ==> key(s[i]) >= key(s[j])
  }

  /** The elements of key `k` among `[x]`: `x` itself when its key is `k`. */
  function Own<T>(x: T, key: T -> int, k: int): seq<T> {
    if key(x) == k then [x] else []
  }

  /** The elements of `s` whose key is `k`, in their order in `s`. */
  function WithKey<T>(s: seq<T>, key: T -> int, k: int): (r: seq<T>)
    ensures |r| <= |s|
  {
    if s == [] then []
    else Own(s[0], key, k) + WithKey(s[1..], key, k)
  }

  lemma {:induction false} WithKeyAppend<T>(a: seq<T>, b: seq<T>, key: T -> int, k: int)
    ensures WithKey(a + b, key, k) == WithKey(a, key, k) + WithKey(b, key, k)
  {
    if a == [] {
      assert a + b == b;
    } else {
      var head := Own(a[0], key, k);
      assert (a + b)[0] == a[0];
      assert (a + b)[1..] == a[1..] + b;
      assert WithKey(a + b, key, k) == head + WithKey(a[1..] + b, key, k);
      WithKeyAppend(a[1..], b, key, k);
      ConcatAssoc(head, WithKey(a[1..], key, k), WithKey(b, key, k));
    }
  }

  lemma {:induction false} WithKeyNone<T>(s: seq<T>, key: T -> int, k: int)
    requires forall i :: 0 <= i < |s| ==> key(s[i]) < k
    ensures WithKey(s, key, k) == []
  {
    if s != [] {
      WithKeyNone(s[1..], key, k);
    }
  }

  /**
   * Inserts `x` into a descending sequence after every element whose key is at
   * least `x`'s, so that `x` follows the elements with an equal key.
   */
  function Insert<T>(x: T, s: seq<T>, key: T -> int): (r: seq<T>)
    ensures multiset(r) == multiset(s) + multiset{x}
  {
    if s == [] then [x]
    else if key(s[0]) >= key(x) then
      assert s == [s[0]] + s[1..];
      [s[0]] + Insert(x, s[1..], key)
    else [x] + s
  }

  lemma {:induction false} InsertSorted<T>(x: T, s: seq<T>, key: T -> int)
    requires SortedDesc(s, key)
    ensures SortedDesc(Insert(x, s, key), key)
  {
    if s != [] && key(s[0]) >= key(x) {
      var rest := Insert(x, s[1..], key);
      InsertSorted(x, s[1..], key);
      forall i | 0 <= i < |rest| ensures key(rest[i]) <= key(s[0]) {
        assert rest[i] in multiset(rest);
        if rest[i] != x {
          assert rest[i] in multiset(s[1..]);
          var j :| 0 <= j < |s[1..]| && s[1..][j] == rest[i];
          assert s[j + 1] == rest[i];
        }
      }
    }
  }

  /** The tail of a descending sequence is descending, and no key in it exceeds the head's. */
  lemma SortedDescTail<T>(s: seq<T>, key: T -> int)
    requires s != [] && SortedDesc(s, key)
    ensures SortedDesc(s[1..], key)
    ensures forall i :: 0 <= i < |s| ==> key(s[i]) <= key(s[0])
  {
    forall i, j | 0 <= i < j < |s[1..]| ensures key(s[1..][i]) >= key(s[1..][j]) {
      assert s[1..][i] == s[i + 1] && s[1..][j] == s[j + 1];
    }
  }

  lemma WithKeySingle<T>(x: T, key: T -> int, k: int)
    ensures WithKey([x], key, k) == Own(x, key, k)
  {
    assert [x][1..] == [];
  }

  /** The recursive case of `InsertWithKey`: `x` goes after the head. */
  lemma InsertWithKeyAfterHead<T>(x: T, s: seq<T>, key: T -> int, k: int)
    requires s != [] && key(s[0]) >= key(x)
    requires WithKey(Insert(x, s[1..], key), key, k) == WithKey(s[1..], key, k) + Own(x, key, k)
    ensures WithKey(Insert(x, s, key), key, k) == WithKey(s, key, k) + Own(x, key, k)
  {
    var t := Insert(x, s, key);
    assert t[0] == s[0] && t[1..] == Insert(x, s[1..], key);
    ConcatAssoc(Own(s[0], key, k), WithKey(s[1..], key, k), Own(x, key, k));
  }

  /** The base case of `InsertWithKey`: `x` goes first, before keys all below its own. */
  lemma InsertWithKeyFirst<T>(x: T, s: seq<T>, key: T -> int, k: int)
    requires s == [] || key(s[0]) < key(x)
    requires forall i :: 0 <= i < |s| ==> key(s[i]) <= key(s[0])
    ensures WithKey(Insert(x, s, key), key, k) == WithKey(s, key, k) + Own(x, key, k)
  {
    assert Insert(x, s, key) == [x] + s;
    WithKeyAppend([x], s, key, k);
    WithKeySingle(x, key, k);
    if key(x) == k {
      WithKeyNone(s, key, k);
      assert WithKey(s, key, k) + [x] == [x];
    } else {
      assert [] + WithKey(s, key, k) == WithKey(s, key, k) + [];
    }
  }

  /** Inserting `x` adds it to the elements of its key, after them, and changes no other key's elements. */
  lemma {:induction false} InsertWithKey<T>(x: T, s: seq<T>, key: T -> int, k: int)
    requires SortedDesc(s, key)
    ensures WithKey(Insert(x, s, key), key, k) == WithKey(s, key, k) + Own(x, key, k)
  {
    if s != [] {
      SortedDescTail(s, key);
    }
    if s != [] && key(s[0]) >= key(x) {
      InsertWithKey(x, s[1..], key, k);
      InsertWithKeyAfterHead(x, s, key, k);
    } else {
      InsertWithKeyFirst(x, s, key, k);
    }
  }

  /**
   * The stable descending sort: the result is ordered by decreasing key, holds
   * the same elements, and elements with equal keys keep their input order.
   */
  function SortDesc<T>(s: seq<T>, key: T -> int): (r: seq<T>)
    ensures SortedDesc(r, key)
    ensures multiset(r) == multiset(s)
    ensures forall k :: WithKey(r, key, k) == WithKey(s, key, k)
  {
    if s == [] then []
    else
      var init := s[..|s| - 1];
      var last := s[|s| - 1];
      assert s == init + [last];
      var sortedInit := SortDesc(init, key);
      var r := Insert(last, sortedInit, key);
      InsertSorted(last, sortedInit, key);
      assert forall k :: WithKey(r, key, k) == WithKey(s, key, k) by {
        forall k ensures WithKey(r, key, k) == WithKey(s, key, k) {
          InsertWithKey(last, sortedInit, key, k);
          WithKeyAppend(init, [last], key, k);
        }
      }
      r
  }
}
