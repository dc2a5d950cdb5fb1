/** Tables as sequences of rows in insertion order, and the query building blocks the models and
  * controllers use on them: `WHERE` as a filter, `SUM`/`reduce` as a sum, `COUNT`, and
  * `findOne` as the first matching row. */
module Tables {
  import opened Wrappers

  /** The rows of `s` that satisfy `p`, in their original order. */
  function Filter<T>(s: seq<T>, p: T -> bool): (r: seq<T>)
    ensures |r| <= |s|
  {
    if s == [] then [] else Filter(s[..|s| - 1], p) + (if p(s[|s| - 1]) then [s[|s| - 1]] else [])
  }

  /** The filtered table holds exactly the rows of `s` that satisfy `p`. */
  lemma {:induction false} FilterMembers<T>(s: seq<T>, p: T -> bool)
    ensures forall i :: 0 <= i < |Filter(s, p)| ==> Filter(s, p)[i] in s && p(Filter(s, p)[i])
    ensures forall i :: 0 <= i < |s| && p(s[i]) ==> s[i] in Filter(s, p)
  {
    if s != [] {
      var init := s[..|s| - 1];
      FilterMembers(init, p);
      var f := Filter(s, p);
      forall i | 0 <= i < |f| ensures f[i] in s && p(f[i]) {
        if i < |Filter(init, p)| {
          assert f[i] == Filter(init, p)[i];
          assert Filter(init, p)[i] in init;
        }
      }
      forall i | 0 <= i < |s| && p(s[i]) ensures s[i] in f {
        if i < |init| {
          assert s[i] == init[i];
        }
      }
    }
  }

  /** The sum of `f` over the rows of `s` (`reduce((a, x) => a + f(x), 0)`). */
  function Sum<T>(s: seq<T>, f: T -> int): int {
    if s == [] then 0 else Sum(s[..|s| - 1], f) + f(s[|s| - 1])
  }

  /** The number of rows of `s` that satisfy `p`. */
  function Count<T>(s: seq<T>, p: T -> bool): nat {
    if s == [] then 0 else Count(s[..|s| - 1], p) + (if p(s[|s| - 1]) then 1 else 0)
  }

  /** The first row of `s` that satisfies `p`: what `findOne({ where })` returns. */
  function FindFirst<T>(s: seq<T>, p: T -> bool): (r: Option<T>)
    ensures r.Some? ==> r.value in s && p(r.value)
    ensures r.None? <==> (forall i :: 0 <= i < |s| ==> !p(s[i]))
  {
    if s == [] then None else if p(s[0]) then Some(s[0]) else FindFirst(s[1..], p)
  }

  /** The position of the first row of `s` that satisfies `p`, or -1 when there is none. */
  function IndexWhere<T>(s: seq<T>, p: T -> bool): (r: int)
    ensures -1 <= r < |s|
    ensures r == -1 <==> (forall i :: 0 <= i < |s| ==> !p(s[i]))
    ensures r >= 0 ==> p(s[r]) && forall i :: 0 <= i < r ==> !p(s[i])
  {
    if s == [] then -1
    else if p(s[0]) then 0
    else var k := IndexWhere(s[1..], p); if k == -1 then -1 else k + 1
  }

  /** `FindFirst` returns the row at the position `IndexWhere` reports. */
  lemma {:induction false} FindFirstIsIndexWhere<T>(s: seq<T>, p: T -> bool)
    ensures FindFirst(s, p).Some? <==> IndexWhere(s, p) >= 0
    ensures FindFirst(s, p).Some? ==> FindFirst(s, p).value == s[IndexWhere(s, p)]
  {
    if s != [] && !p(s[0]) {
      FindFirstIsIndexWhere(s[1..], p);
    }
  }

  lemma {:induction false} FilterAppend<T>(a: seq<T>, b: seq<T>, p: T -> bool)
    ensures Filter(a + b, p) == Filter(a, p) + Filter(b, p)
    decreases |b|
  {
    if b == [] {
      assert a + b == a;
    } else {
      var c := b[..|b| - 1];
      assert (a + b)[..|a + b| - 1] == a + c;
      FilterAppend(a, c, p);
    }
  }

  lemma {:induction false} SumAppend<T>(a: seq<T>, b: seq<T>, f: T -> int)
    ensures Sum(a + b, f) == Sum(a, f) + Sum(b, f)
    decreases |b|
  {
    if b == [] {
      assert a + b == a;
    } else {
      var c := b[..|b| - 1];
      assert (a + b)[..|a + b| - 1] == a + c;
      SumAppend(a, c, f);
    }
  }

  /** The sum over a prefix grows by one row at a time: the step of a summing loop. */
  lemma SumPrefixStep<T>(s: seq<T>, i: int, f: T -> int)
    requires 0 <= i < |s|
    ensures Sum(s[..i + 1], f) == Sum(s[..i], f) + f(s[i])
  {
    assert s[..i + 1][..i] == s[..i];
  }

  lemma CountPrefixStep<T>(s: seq<T>, i: int, p: T -> bool)
    requires 0 <= i < |s|
    ensures Count(s[..i + 1], p) == Count(s[..i], p) + (if p(s[i]) then 1 else 0)
  {
    assert s[..i + 1][..i] == s[..i];
  }

  /** Summing over the rows that satisfy `p` is summing `f` where `p` holds and 0 elsewhere. */
  lemma {:induction false} SumFilter<T>(s: seq<T>, p: T -> bool, f: T -> int, g: T -> int)
    requires forall x :: g(x) == if p(x) then f(x) else 0
    ensures Sum(Filter(s, p), f) == Sum(s, g)
  {
    if s != [] {
      var init := s[..|s| - 1];
      var last := s[|s| - 1];
      SumFilter(init, p, f, g);
      SumAppend(Filter(init, p), if p(last) then [last] else [], f);
      assert Sum([last], f) == f(last) by {
        assert [last][..0] == [];
      }
    }
  }

  /** A sum splits over a partition of the rows: rows where `p` holds and rows where it fails. */
  lemma {:induction false} SumPartition<T>(s: seq<T>, p: T -> bool, q: T -> bool, f: T -> int)
    requires forall x :: q(x) == !p(x)
    ensures Sum(s, f) == Sum(Filter(s, p), f) + Sum(Filter(s, q), f)
  {
    if s != [] {
      var init := s[..|s| - 1];
      var last := s[|s| - 1];
      SumPartition(init, p, q, f);
      SumAppend(Filter(init, p), if p(last) then [last] else [], f);
      SumAppend(Filter(init, q), if q(last) then [last] else [], f);
      assert Sum([last], f) == f(last) by {
        assert [last][..0] == [];
      }
    }
  }

  /** A sum of non-negative terms is non-negative. */
  lemma {:induction false} SumNonNegative<T>(s: seq<T>, f: T -> int)
    requires forall i :: 0 <= i < |s| ==> f(s[i]) >= 0
    ensures Sum(s, f) >= 0
  {
    if s != [] {
      SumNonNegative(s[..|s| - 1], f);
    }
  }

  /** Rows that `p` rejects play no part in a filtered sum: only the rows it keeps matter. */
  lemma {:induction false} FilterIgnores<T>(a: seq<T>, x: T, p: T -> bool)
    requires !p(x)
    ensures Filter(a + [x], p) == Filter(a, p)
  {
    FilterAppend(a, [x], p);
    assert [x][..0] == [];
  }

  /** `Count` is the length of the filtered table. */
  lemma {:induction false} CountIsFilterLength<T>(s: seq<T>, p: T -> bool)
    ensures Count(s, p) == |Filter(s, p)|
  {
    if s != [] {
      CountIsFilterLength(s[..|s| - 1], p);
    }
  }

  /** Filtering twice is filtering once by the conjunction. */
  lemma {:induction false} FilterConj<T>(s: seq<T>, p: T -> bool, q: T -> bool, r: T -> bool)
    requires forall x :: r(x) == (p(x) && q(x))
    ensures Filter(Filter(s, p), q) == Filter(s, r)
  {
    if s != [] {
      var init := s[..|s| - 1];
      var last := s[|s| - 1];
      FilterConj(init, p, q, r);
      FilterAppend(Filter(init, p), if p(last) then [last] else [], q);
      if p(last) {
        assert Filter([last], q) == (if q(last) then [last] else []) by {
          assert [last][..0] == [];
        }
      }
    }
  }

  /** A filter every row passes keeps the whole table. */
  lemma {:induction false} FilterAll<T>(s: seq<T>, p: T -> bool)
    requires forall i :: 0 <= i < |s| ==> p(s[i])
    ensures Filter(s, p) == s
  {
    if s != [] {
      FilterAll(s[..|s| - 1], p);
    }
  }

  /** A weaker condition counts at least as many rows. */
  lemma {:induction false} CountMono<T>(s: seq<T>, p: T -> bool, q: T -> bool)
    requires forall i :: 0 <= i < |s| && p(s[i]) ==> q(s[i])
    ensures Count(s, p) <= Count(s, q)
  {
    if s != [] {
      CountMono(s[..|s| - 1], p, q);
    }
  }

  /** Replacing a row the filter rejects by another row it rejects leaves the filtered table as
    * it was. */
  lemma {:induction false} FilterReplaceRejected<T>(s: seq<T>, k: int, x: T, p: T -> bool)
    requires 0 <= k < |s| && !p(s[k]) && !p(x)
    ensures Filter(s[k := x], p) == Filter(s, p)
    decreases |s|
  {
    var t := s[k := x];
    var n := |s| - 1;
    if k == n {
      assert t[..n] == s[..n];
    } else {
      assert t[..n] == s[..n][k := x];
      FilterReplaceRejected(s[..n], k, x, p);
      assert t[n] == s[n];
    }
  }

  /** Two conditions that agree on every row of `s` filter it alike. */
  lemma {:induction false} FilterSameOn<T>(s: seq<T>, p: T -> bool, q: T -> bool)
    requires forall i :: 0 <= i < |s| ==> p(s[i]) == q(s[i])
    ensures Filter(s, p) == Filter(s, q)
  {
    if s != [] {
      FilterSameOn(s[..|s| - 1], p, q);
    }
  }
}
