/** The list logic of controllers/TransactionController.js: the `where` clause and the filters
  * echoed to the view, pagination, the page query, the statistics and the category lists. */
module TransactionQuery {
  import opened Wrappers
  import opened Arith
  import opened Text
  import opened Calendar
  import opened Forms
  import opened Entities
  import opened Tables
  import opened Ordering

  /** The query string of `GET /transactions` and `GET /transactions/export`. A date bound is
    * absent when the parameter is missing or empty. */
  datatype ListQuery = ListQuery(
    kind: Option<string>, category: Option<string>, search: Option<string>,
    dateFrom: Option<Date>, dateTo: Option<Date>,
    page: NumInput, limit: NumInput, orderBy: Option<string>, orderDir: Option<string>)

  /** The `where` object: the owner, the type, the category and search `LIKE` patterns (without
    * their `%`) and the date bounds. */
  datatype Where = Where(
    userId: nat, kind: Option<Kind>, categoryLike: Option<string>, searchLike: Option<string>,
    dateFrom: Option<Date>, dateTo: Option<Date>)

  /** What the database does with a `where`: `LIKE '%p%'` is a substring test, a `NULL`
    * description matches no pattern, and the date bounds are inclusive. */
  predicate Matches(w: Where, t: Transaction) {
    && t.userId == w.userId
    && (w.kind.Some? ==> t.kind == w.kind.value)
    && (w.categoryLike.Some? ==> IsSubstring(w.categoryLike.value, t.category))
    && (w.searchLike.Some? ==>
          (t.description.Some? && IsSubstring(w.searchLike.value, t.description.value))
          || IsSubstring(w.searchLike.value, t.category))
    && (w.dateFrom.Some? ==> DateLe(w.dateFrom.value, t.date))
    && (w.dateTo.Some? ==> DateLe(t.date, w.dateTo.value))
  }

  function MatchesWhere(w: Where): Transaction -> bool {
    t => Matches(w, t)
  }

  /** The `filters` object the list view echoes back. */
  datatype Filters = Filters(
    kind: Option<string>, category: Option<string>, search: Option<string>,
    dateFrom: Option<Date>, dateTo: Option<Date>)

  /** A text parameter that is present and not blank, trimmed (`v && v.trim()`): no condition
    * for an absent or all-blank parameter, and otherwise a non-empty slice of the parameter with
    * no white space at either end. */
  function TrimmedParam(v: Option<string>): (r: Option<string>)
    ensures r.None? <==> v.None? || forall i :: 0 <= i < |v.value| ==> IsSpace(v.value[i])
    ensures r.Some? ==> IsSubstring(r.value, v.value)
    ensures r.Some? ==> r.value != [] && !IsSpace(r.value[0]) && !IsSpace(r.value[|r.value| - 1])
  {
    if v.None? then None
    else
      TrimEmptyIff(v.value);
      TrimEndsNotSpace(v.value);
      TrimIsSubstring(v.value);
      if Trim(v.value) != [] then Some(Trim(v.value)) else None
  }

  /** The rows a list query selects, stated from the query alone: the user's own rows; of the
    * requested type only when the parameter is exactly `income` or `expense`; containing the
    * trimmed category; when searching, with the trimmed search text in the description or the
    * category; and between the date bounds, both included. */
  predicate Selected(q: ListQuery, withSearch: bool, userId: nat, t: Transaction) {
    && t.userId == userId
    && (q.kind == Some("income") ==> t.kind == Income)
    && (q.kind == Some("expense") ==> t.kind == Expense)
    && (q.category.Some? && Trim(q.category.value) != [] ==> IsSubstring(Trim(q.category.value), t.category))
    && (withSearch && q.search.Some? && Trim(q.search.value) != [] ==>
          (t.description.Some? && IsSubstring(Trim(q.search.value), t.description.value))
          || IsSubstring(Trim(q.search.value), t.category))
    && (q.dateFrom.Some? ==> DateLe(q.dateFrom.value, t.date))
    && (q.dateTo.Some? ==> DateLe(t.date, q.dateTo.value))
  }

  /** The filter construction of `index` (`withSearch`) and of `export` (no search filter):
    * starting from the owner, each present parameter adds its condition. The `where` is the one
    * `WhereOf` describes, and the echoed filters are the conditions applied. */
  method BuildWhere(userId: nat, q: ListQuery, withSearch: bool) returns (w: Where, f: Filters)
    ensures w == WhereOf(userId, q, withSearch)
    ensures f.kind.Some? <==> w.kind.Some?
    ensures f.kind.Some? ==> f.kind.value == KindName(w.kind.value)
    ensures f.category == w.categoryLike && f.search == w.searchLike
    ensures f.dateFrom == w.dateFrom && f.dateTo == w.dateTo
  {
    w := Where(userId, None, None, None, None, None);
    f := Filters(None, None, None, None, None);
    if q.kind.Some? && ParseKind(q.kind.value).Some? {
      w := w.(kind := ParseKind(q.kind.value));
      f := f.(kind := q.kind);
    }
    var category := TrimmedParam(q.category);
    if category.Some? {
      w := w.(categoryLike := category);
      f := f.(category := category);
    }
    var search := TrimmedParam(q.search);
    if withSearch && search.Some? {
      w := w.(searchLike := search);
      f := f.(search := search);
    }
    if q.dateFrom.Some? {
      w := w.(dateFrom := q.dateFrom);
      f := f.(dateFrom := q.dateFrom);
    }
    if q.dateTo.Some? {
      w := w.(dateTo := q.dateTo);
      f := f.(dateTo := q.dateTo);
    }
  }

  /** The type condition a `type` parameter adds: only for exactly `income` or `expense`. */
  function KindParam(v: Option<string>): (k: Option<Kind>)
    ensures k.Some? <==> v == Some("income") || v == Some("expense")
    ensures k.Some? ==> KindName(k.value) == v.value
  {
    if v.Some? then ParseKind(v.value) else None
  }

  /** The `where` the parameters of a list query build. */
  function WhereOf(userId: nat, q: ListQuery, withSearch: bool): Where {
    Where(userId, KindParam(q.kind), TrimmedParam(q.category),
          if withSearch then TrimmedParam(q.search) else None, q.dateFrom, q.dateTo)
  }

  /** The `where` a list query builds selects exactly the rows the query asks for. */
  lemma WhereSelects(userId: nat, q: ListQuery, withSearch: bool)
    ensures forall t :: Matches(WhereOf(userId, q, withSearch), t) <==> Selected(q, withSearch, userId, t)
  {
    var w := WhereOf(userId, q, withSearch);
    forall t ensures Matches(w, t) <==> Selected(q, withSearch, userId, t) {
      if q.kind == Some("income") {
        assert w.kind == Some(Income);
      } else if q.kind == Some("expense") {
        assert w.kind == Some(Expense);
      } else {
        assert w.kind == None;
      }
    }
  }

  /** `page`, `limit` and `offset`. */
  datatype Paging = Paging(page: int, limit: int, offset: int)

  /** `parseInt(page) || 1`, `parseInt(limit) || 10` and `(page - 1) * limit`. */
  function Paginate(page: NumInput, limit: NumInput): (p: Paging)
    ensures p.limit != 0 && p.page != 0
    ensures p.page == (if page.Given? && page.n != 0 then page.n else 1)
    ensures p.limit == (if limit.Given? && limit.n != 0 then limit.n else 10)
    ensures p.offset == (p.page - 1) * p.limit
  {
    var pg := ParseOr(page, 1);
    var lim := ParseOr(limit, 10);
    Paging(pg, lim, (pg - 1) * lim)
  }

  /** `Math.ceil(count / limit)`. */
  function TotalPages(count: nat, limit: int): (n: int)
    requires limit > 0
    ensures count == 0 ==> n == 0
    ensures count > 0 ==> limit * (n - 1) < count <= limit * n
  {
    CeilDiv(count, limit)
  }

  function Min(a: int, b: int): int {
    if a <= b then a else b
  }

  /** `LIMIT limit OFFSET offset` on the sorted rows: the `limit` rows from position `offset`
    * on, fewer when the table ends first. */
  function Window<T>(r: seq<T>, offset: nat, limit: nat): (w: seq<T>)
    ensures |w| == if offset >= |r| then 0 else Min(limit, |r| - offset)
    ensures forall i :: 0 <= i < |w| ==> offset + i < |r| && w[i] == r[offset + i]
  {
    if offset >= |r| then [] else r[offset..Min(offset + limit, |r|)]
  }

  /** Pages `1..n` of `r`, `limit` rows each, one after the other. */
  function Pages<T>(r: seq<T>, n: nat, limit: nat): seq<T> {
    if n == 0 then [] else Pages(r, n - 1, limit) + Window(r, (n - 1) * limit, limit)
  }

  /** The first `n` pages are the first `n * limit` rows. */
  lemma {:induction false} PagesPrefix<T>(r: seq<T>, n: nat, limit: nat)
    ensures Pages(r, n, limit) == r[..Min(n * limit, |r|)]
  {
    if n > 0 {
      PagesPrefix(r, n - 1, limit);
      assert (n - 1) * limit + limit == n * limit;
      assert (n - 1) * limit <= n * limit;
      var a := Min((n - 1) * limit, |r|);
      var b := Min(n * limit, |r|);
      assert r[..a] + r[a..b] == r[..b];
    }
  }

  /** Walking the pages `1..totalPages` shows every row once, in order. */
  lemma PagesCoverRows<T>(r: seq<T>, limit: nat)
    requires limit > 0
    ensures Pages(r, TotalPages(|r|, limit), limit) == r
  {
    PagesPrefix(r, TotalPages(|r|, limit), limit);
    assert r[..|r|] == r;
  }

  /** The `orderBy` columns the model sorts by: the date, the amount, the owner and the
    * creation order (`id`, and the creation time under its attribute name `createdAt` or its
    * column name `created_at`); ties in id order. */
  function OrderKey(column: string): Option<Transaction -> Key> {
    if column == "date" then Some((t: Transaction) => Key(t.date.year, t.date.month, t.date.day, t.id))
    else if column == "amount" then Some((t: Transaction) => Key(t.amount, 0, 0, t.id))
    else if column == "userId" || column == "user_id" then Some((t: Transaction) => Key(t.userId, 0, 0, t.id))
    else if column == "id" || column == "createdAt" || column == "created_at" then Some((t: Transaction) => Key(t.id, 0, 0, t.id))
    else None
  }

  /** The remaining columns, ordered by their text collation or by the update clock. */
  predicate TextColumn(column: string) {
    || column == "category" || column == "type" || column == "description"
    || column == "updatedAt" || column == "updated_at"
  }

  /** No text column is one the model sorts by. */
  lemma TextColumnUnsorted(column: string)
    ensures TextColumn(column) ==> OrderKey(column).None?
  {
  }

  /** `orderDir === "asc" ? "ASC" : "DESC"`. */
  function OrderDirection(v: Option<string>): (d: Direction)
    ensures d == Asc <==> v == Some("asc")
  {
    if v == Some("asc") then Asc else Desc
  }

  /** What `findAndCountAll` gives the list page: the count of matching rows and the page; a
    * negative limit or offset, or an unknown column, makes the database refuse the query; an
    * order on a text column or on `updatedAt` lies outside this model. */
  datatype Listing = Listed(count: nat, rows: seq<Transaction>) | QueryFailed | OrderOutsideModel

  function ListPage(txs: seq<Transaction>, w: Where, column: string, dir: Direction, limit: int, offset: int): (r: Listing)
    ensures r.Listed? <==> limit >= 0 && offset >= 0 && OrderKey(column).Some?
    ensures r.OrderOutsideModel? <==> limit >= 0 && offset >= 0 && TextColumn(column)
    ensures r.Listed? ==> r.count == |Filter(txs, MatchesWhere(w))| && |r.rows| <= limit
    ensures r.Listed? ==> exists s :: && multiset(s) == multiset(Filter(txs, MatchesWhere(w)))
                                     && SortedBy(s, OrderKey(column).value, dir)
                                     && r.rows == Window(s, offset, limit)
    ensures r.Listed? ==> forall i :: 0 <= i < |r.rows| ==> r.rows[i] in txs && Matches(w, r.rows[i])
    ensures r.Listed? ==> SortedBy(r.rows, OrderKey(column).value, dir)
  {
    TextColumnUnsorted(column);
    if limit < 0 || offset < 0 then QueryFailed
    else
      match OrderKey(column)
      case None => if TextColumn(column) then OrderOutsideModel else QueryFailed
      case Some(key) => Listed(|Filter(txs, MatchesWhere(w))|, SortedPage(txs, MatchesWhere(w), key, dir, offset, limit))
  }

  /** The page at `offset` of the rows `p` selects, sorted by `key`: `LIMIT` and `OFFSET` over
    * `ORDER BY`. */
  function SortedPage(txs: seq<Transaction>, p: Transaction -> bool, key: Transaction -> Key, dir: Direction,
                      offset: nat, limit: nat): (rows: seq<Transaction>)
    ensures |rows| <= limit
    ensures exists s :: multiset(s) == multiset(Filter(txs, p)) && SortedBy(s, key, dir) && rows == Window(s, offset, limit)
    ensures forall i :: 0 <= i < |rows| ==> rows[i] in txs && p(rows[i])
    ensures SortedBy(rows, key, dir)
  {
    var matching := Filter(txs, p);
    var sorted := SortBy(matching, key, dir);
    var rows := Window(sorted, offset, limit);
    FilterMembers(txs, p);
    PermutationMembers(sorted, matching);
    assert forall i :: 0 <= i < |rows| ==> rows[i] in sorted by {
      forall i | 0 <= i < |rows| ensures rows[i] in sorted {
        assert rows[i] == sorted[offset + i];
      }
    }
    assert SortedBy(rows, key, dir) by {
      forall i, j | 0 <= i < j < |rows| ensures Before(key(rows[i]), key(rows[j]), dir) {
        assert rows[i] == sorted[offset + i] && rows[j] == sorted[offset + j];
      }
    }
    rows
  }

  /** The object `getStats` returns. */
  datatype Stats = Stats(totalIncome: int, totalExpense: int, balance: int, transactionCount: nat)

  /** `Transaction.sum("amount", ...)` over the rows `w` selects. */
  function SumWhere(txs: seq<Transaction>, w: Where): int {
    Sum(Filter(txs, MatchesWhere(w)), Amount)
  }

  /** `getStats(userId, where)`: each sum sets its own `type` after the caller's conditions,
    * the count keeps them all; an empty sum counts as 0. */
  function GetStats(txs: seq<Transaction>, w: Where): (s: Stats)
    ensures s.totalIncome == SumWhere(txs, w.(kind := Some(Income)))
    ensures s.totalExpense == SumWhere(txs, w.(kind := Some(Expense)))
    ensures s.balance == s.totalIncome - s.totalExpense
    ensures s.transactionCount == |Filter(txs, MatchesWhere(w))|
  {
    var income := SumWhere(txs, w.(kind := Some(Income)));
    var expense := SumWhere(txs, w.(kind := Some(Expense)));
    CountIsFilterLength(txs, MatchesWhere(w));
    Stats(income, expense, income - expense, Count(txs, MatchesWhere(w)))
  }

  /** The sums ignore a type filter: filtering on income still reports the expense total. */
  lemma StatsIgnoreTypeFilter(txs: seq<Transaction>, w: Where, k: Option<Kind>)
    ensures GetStats(txs, w.(kind := k)).totalIncome == GetStats(txs, w).totalIncome
    ensures GetStats(txs, w.(kind := k)).totalExpense == GetStats(txs, w).totalExpense
  {
    assert w.(kind := k).(kind := Some(Income)) == w.(kind := Some(Income));
    assert w.(kind := k).(kind := Some(Expense)) == w.(kind := Some(Expense));
  }

  /** Without a type filter, income and expense split the matching rows: the balance is the
    * signed total of what the list shows. */
  lemma StatsSplitMatchingRows(txs: seq<Transaction>, w: Where)
    requires w.kind.None?
    ensures GetStats(txs, w).totalIncome + GetStats(txs, w).totalExpense == Sum(Filter(txs, MatchesWhere(w)), Amount)
  {
    var rows := Filter(txs, MatchesWhere(w));
    var isIncome := (t: Transaction) => t.kind == Income;
    var isExpense := (t: Transaction) => t.kind == Expense;
    SumPartition(rows, isIncome, isExpense, Amount);
    FilterConj(txs, MatchesWhere(w), isIncome, MatchesWhere(w.(kind := Some(Income))));
    FilterConj(txs, MatchesWhere(w), isExpense, MatchesWhere(w.(kind := Some(Expense))));
  }

  /** `[...new Set(s)]`: the first occurrence of every value, in order. */
  function Dedup<T(==, !new)>(s: seq<T>): (r: seq<T>)
    ensures forall x :: x in r <==> x in s
    ensures forall i, j :: 0 <= i < j < |r| ==> r[i] != r[j]
  {
    if s == [] then []
    else
      var r := Dedup(s[..|s| - 1]);
      assert forall x :: x in s <==> x in s[..|s| - 1] || x == s[|s| - 1] by {
        assert s == s[..|s| - 1] + [s[|s| - 1]];
      }
      if s[|s| - 1] in r then r else r + [s[|s| - 1]]
  }

  /** The `group: ["category", "type"]` rows of a user: each (category, type) pair once. */
  function CategoryGroups(txs: seq<Transaction>, userId: nat): (g: seq<(string, Kind)>)
    ensures forall c, k :: (c, k) in g <==> exists i :: 0 <= i < |txs| && txs[i].userId == userId
                                                      && txs[i].category == c && txs[i].kind == k
    ensures forall i, j :: 0 <= i < j < |g| ==> g[i] != g[j]
  {
    Dedup(OwnPairs(txs, userId))
  }

  /** The `(category, type)` pair of each of the user's rows, repeats included. */
  function OwnPairs(txs: seq<Transaction>, userId: nat): (pairs: seq<(string, Kind)>)
    ensures forall c, k :: (c, k) in pairs <==> exists i :: 0 <= i < |txs| && txs[i].userId == userId
                                                          && txs[i].category == c && txs[i].kind == k
  {
    var own := Filter(txs, (t: Transaction) => t.userId == userId);
    FilterMembers(txs, (t: Transaction) => t.userId == userId);
    var pairs := seq(|own|, i requires 0 <= i < |own| => (own[i].category, own[i].kind));
    assert forall c, k :: (c, k) in pairs <==> exists i :: 0 <= i < |txs| && txs[i].userId == userId
                                                         && txs[i].category == c && txs[i].kind == k by {
      forall c, k | (c, k) in pairs
        ensures exists i :: 0 <= i < |txs| && txs[i].userId == userId && txs[i].category == c && txs[i].kind == k
      {
        var j :| 0 <= j < |pairs| && pairs[j] == (c, k);
        var i :| 0 <= i < |txs| && txs[i] == own[j];
        assert txs[i].userId == userId && txs[i].category == c && txs[i].kind == k;
      }
      forall c, k | exists i :: 0 <= i < |txs| && txs[i].userId == userId && txs[i].category == c && txs[i].kind == k
        ensures (c, k) in pairs
      {
        var i :| 0 <= i < |txs| && txs[i].userId == userId && txs[i].category == c && txs[i].kind == k;
        var j :| 0 <= j < |own| && own[j] == txs[i];
        assert pairs[j] == (c, k);
      }
    }
    pairs
  }

  /** The categories of the groups of type `k`, in group order. */
  function NamesOfKind(g: seq<(string, Kind)>, k: Kind): (r: seq<string>)
    ensures forall c :: c in r <==> (c, k) in g
    ensures (forall i, j :: 0 <= i < j < |g| ==> g[i] != g[j]) ==> forall i, j :: 0 <= i < j < |r| ==> r[i] != r[j]
  {
    if g == [] then []
    else
      var init := g[..|g| - 1];
      var last := g[|g| - 1];
      var r := NamesOfKind(init, k);
      assert forall p :: p in g <==> p in init || p == last by {
        assert g == init + [last];
      }
      assert forall i, j :: 0 <= i < j < |init| ==> init[i] == g[i] && init[j] == g[j];
      if last.1 == k then
        assert (forall i, j :: 0 <= i < j < |g| ==> g[i] != g[j]) ==> last.0 !in r;
        r + [last.0]
      else r
  }

  /** The object `getCategories` returns. */
  datatype Categories = Categories(income: seq<string>, expense: seq<string>, all: seq<string>)

  /** `getCategories(userId)`: the income and the expense categories of the user's rows, each
    * once, and their union without repeats. */
  function GetCategories(txs: seq<Transaction>, userId: nat): (c: Categories)
    ensures forall x :: x in c.income <==> exists i :: 0 <= i < |txs| && txs[i].userId == userId
                                                     && txs[i].category == x && txs[i].kind == Income
    ensures forall x :: x in c.expense <==> exists i :: 0 <= i < |txs| && txs[i].userId == userId
                                                      && txs[i].category == x && txs[i].kind == Expense
    ensures forall x :: x in c.all <==> x in c.income || x in c.expense
    ensures forall i, j :: 0 <= i < j < |c.income| ==> c.income[i] != c.income[j]
    ensures forall i, j :: 0 <= i < j < |c.expense| ==> c.expense[i] != c.expense[j]
    ensures forall i, j :: 0 <= i < j < |c.all| ==> c.all[i] != c.all[j]
  {
    var g := CategoryGroups(txs, userId);
    var income := NamesOfKind(g, Income);
    var expense := NamesOfKind(g, Expense);
    Categories(income, expense, Dedup(income + expense))
  }

  /** `getCategoriesByType(type)`: a type other than `income` or `expense` is refused; otherwise
    * the categories of the user's rows of that type, each once. */
  function CategoriesByType(txs: seq<Transaction>, userId: nat, kind: string): (r: Option<seq<string>>)
    ensures r.None? <==> ParseKind(kind).None?
    ensures r.Some? ==> forall x :: x in r.value <==> exists i :: 0 <= i < |txs| && txs[i].userId == userId
                                                           && txs[i].category == x && txs[i].kind == ParseKind(kind).value
    ensures r.Some? ==> forall i, j :: 0 <= i < j < |r.value| ==> r.value[i] != r.value[j]
  {
    match ParseKind(kind)
    case None => None
    case Some(k) => Some(NamesOfKind(CategoryGroups(txs, userId), k))
  }
}
