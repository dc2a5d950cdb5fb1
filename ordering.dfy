/** `ORDER BY` over a table: rows sorted by a lexicographic key in ascending or descending
  * direction. The last key component is the row id, which stands for insertion order
  * (`created_at`), so that ties between equal columns are resolved the same way every time. */
module Ordering {
  import opened Tables

  datatype Direction = Asc | Desc

  /** A sort key: up to three column values, then the row id. */
  datatype Key = Key(a: int, b: int, c: int, tie: int)

  predicate KeyLe(x: Key, y: Key) {
    x.a < y.a || (x.a == y.a && (x.b < y.b || (x.b == y.b && (x.c < y.c || (x.c == y.c && x.tie <= y.tie)))))
  }

  /** `x` may come before `y` in the given direction. */
  predicate Before(x: Key, y: Key, dir: Direction) {
    if dir == Asc then KeyLe(x, y) else KeyLe(y, x)
  }

  lemma BeforeTotal(x: Key, y: Key, z: Key, dir: Direction)
    ensures Before(x, y, dir) || Before(y, x, dir)
    ensures Before(x, y, dir) && Before(y, z, dir) ==> Before(x, z, dir)
  {
  }

  /** Every earlier row comes before every later row. */
  predicate SortedBy<T>(s: seq<T>, key: T -> Key, dir: Direction) {
    forall i, j :: 0 <= i < j < |s| ==> Before(key(s[i]), key(s[j]), dir)
  }

  /** `x` inserted into the sorted `s` in front of the first row it comes before. */
  function Insert<T>(x: T, s: seq<T>, key: T -> Key, dir: Direction): (r: seq<T>)
    requires SortedBy(s, key, dir)
    ensures multiset(r) == multiset(s) + multiset{x}
    ensures SortedBy(r, key, dir)
  {
    if s == [] then [x]
    else if Before(key(x), key(s[0]), dir) then
      assert forall j :: 0 < j < |s| ==> Before(key(x), key(s[j]), dir) by {
        forall j | 0 < j < |s| ensures Before(key(x), key(s[j]), dir) {
          BeforeTotal(key(x), key(s[0]), key(s[j]), dir);
        }
      }
      [x] + s
    else
      var rest := Insert(x, s[1..], key, dir);
      assert s == [s[0]] + s[1..];
      InsertHead(s[0], x, s[1..], rest, key, dir);
      [s[0]] + rest
  }

  /** The step of `Insert` that keeps the head: a head before `x` and before the rest of `s`
    * is before every row of the insertion. */
  lemma InsertHead<T>(h: T, x: T, tail: seq<T>, rest: seq<T>, key: T -> Key, dir: Direction)
    requires SortedBy([h] + tail, key, dir) && SortedBy(rest, key, dir)
    requires !Before(key(x), key(h), dir)
    requires multiset(rest) == multiset(tail) + multiset{x}
    ensures SortedBy([h] + rest, key, dir)
  {
    BeforeTotal(key(x), key(h), key(h), dir);
    forall j | 0 <= j < |rest| ensures Before(key(h), key(rest[j]), dir) {
      assert rest[j] in multiset(rest);
      if rest[j] == x {
        assert Before(key(h), key(x), dir);
      } else {
        assert rest[j] in multiset(tail);
        var k :| 0 <= k < |tail| && tail[k] == rest[j];
        assert ([h] + tail)[0] == h && ([h] + tail)[k + 1] == tail[k];
        assert Before(key(([h] + tail)[0]), key(([h] + tail)[k + 1]), dir);
      }
    }
    var t := [h] + rest;
    forall i, j | 0 <= i < j < |t| ensures Before(key(t[i]), key(t[j]), dir) {
      if i > 0 {
        assert t[i] == rest[i - 1] && t[j] == rest[j - 1];
      } else {
        assert t[j] == rest[j - 1];
      }
    }
  }

  /** Insertion sort: the rows of `s` in the order `key`/`dir` prescribes. */
  function SortBy<T>(s: seq<T>, key: T -> Key, dir: Direction): (r: seq<T>)
    ensures multiset(r) == multiset(s)
    ensures SortedBy(r, key, dir)
  {
    if s == [] then []
    else
      assert s == s[..|s| - 1] + [s[|s| - 1]];
      Insert(s[|s| - 1], SortBy(s[..|s| - 1], key, dir), key, dir)
  }

  /** A permutation keeps the length and the set of rows. */
  lemma PermutationMembers<T>(r: seq<T>, s: seq<T>)
    requires multiset(r) == multiset(s)
    ensures |r| == |s|
    ensures forall x :: x in r <==> x in s
  {
    assert |r| == |multiset(r)| == |multiset(s)| == |s|;
    forall x ensures x in r <==> x in s {
      assert x in r <==> x in multiset(r);
      assert x in s <==> x in multiset(s);
    }
  }

  /** The front of a sorted sequence (`LIMIT n`): every row left out comes after every row
    * kept. */
  lemma TakeIsTop<T>(r: seq<T>, n: nat, key: T -> Key, dir: Direction)
    requires SortedBy(r, key, dir) && n <= |r|
    ensures SortedBy(r[..n], key, dir)
    ensures forall i, j :: 0 <= i < n <= j < |r| ==> Before(key(r[i]), key(r[j]), dir)
  {
  }

  /** The sorted selection holds every selected row and nothing else. */
  lemma SortedRows<T>(s: seq<T>, p: T -> bool, key: T -> Key, dir: Direction)
    ensures forall i :: 0 <= i < |SortBy(Filter(s, p), key, dir)| ==>
              SortBy(Filter(s, p), key, dir)[i] in s && p(SortBy(Filter(s, p), key, dir)[i])
    ensures forall i :: 0 <= i < |s| && p(s[i]) ==> s[i] in SortBy(Filter(s, p), key, dir)
  {
    var f := Filter(s, p);
    var r := SortBy(f, key, dir);
    FilterMembers(s, p);
    PermutationMembers(r, f);
    forall i | 0 <= i < |r| ensures r[i] in s && p(r[i]) {
      assert r[i] in multiset(r);
      assert r[i] in f;
      var j :| 0 <= j < |f| && f[j] == r[i];
    }
  }

  /** A row of a sorted sequence that is not among its first `n` comes after each of them. */
  lemma LeftOutComesAfter<T>(r: seq<T>, n: nat, key: T -> Key, dir: Direction, x: T)
    requires SortedBy(r, key, dir) && n <= |r|
    requires x in r && x !in r[..n]
    ensures forall i :: 0 <= i < n ==> Before(key(r[i]), key(x), dir)
  {
    var j :| 0 <= j < |r| && r[j] == x;
    assert forall k :: 0 <= k < n ==> r[..n][k] == r[k];
  }
}
