/** The request handlers of controllers/TransactionController.js over the store: the list page,
  * creation, update, deletion and the CSV export. The session's user id is a parameter; the
  * express-validator verdict is the form predicate of module Validators. */
module TransactionController {
  import opened Wrappers
  import opened Arith
  import opened Calendar
  import opened Forms
  import opened Entities
  import opened Tables
  import opened Ordering
  import opened Store
  import opened TransactionModel
  import opened TransactionQuery
  import opened Validators
  import Csv

  /** The `this` a handler runs with. routes/transactions.js:54-70 register the methods of the
    * exported instance (controllers/TransactionController.js:456) without binding them, and a
    * class body is strict code, so Express calls them with `this` undefined. `Controller` is the
    * instance itself, as a bound method would see it. */
  datatype Receiver = Controller | Undefined

  /** The receiver every handler gets as the routes register it. */
  const Routed: Receiver := Undefined

  /** What `index` renders, or the redirect to the dashboard its `catch` performs when the
    * database refuses the query or `this.getStats` throws. */
  datatype IndexOutcome =
    | IndexPage(rows: seq<Transaction>, count: nat, stats: Stats, categories: Categories,
                page: int, totalPages: int, limit: int, filters: Filters, orderBy: string, orderDir: Direction)
    | IndexFailed
    | IndexOrderOutsideModel

  /** What `GET /transactions` answers for a query. With `this` undefined, the `this.getStats`
    * of line 75 throws after the query, and every request ends in the `catch`. With `this` bound,
    * the page is the requested window of the rows the filters select (search included), in the
    * requested order, with their count and page total, the statistics over the same `where` and
    * the user's categories; a limit or offset the database refuses, or an unknown column, is
    * the failed query. */
  function IndexOf(txs: seq<Transaction>, userId: nat, q: ListQuery, self: Receiver): (r: IndexOutcome)
    ensures self.Undefined? ==> r == IndexFailed
    ensures r.IndexFailed? <==> (self.Undefined? || Paginate(q.page, q.limit).limit < 0 || Paginate(q.page, q.limit).offset < 0
                                 || (OrderKey(OrderColumn(q)).None? && !TextColumn(OrderColumn(q))))
    ensures r.IndexOrderOutsideModel? <==> self.Controller? && Paginate(q.page, q.limit).limit > 0
                                            && Paginate(q.page, q.limit).offset >= 0 && TextColumn(OrderColumn(q))
    ensures r.IndexPage? ==> r.limit == Paginate(q.page, q.limit).limit > 0 && Paginate(q.page, q.limit).offset >= 0
    ensures r.IndexPage? ==> r.orderBy == OrderColumn(q) && r.orderDir == OrderDirection(q.orderDir)
                             && OrderKey(r.orderBy).Some?
    ensures r.IndexPage? ==> exists s :: && multiset(s) == multiset(Filter(txs, MatchesWhere(WhereOf(userId, q, true))))
                                         && SortedBy(s, OrderKey(r.orderBy).value, r.orderDir)
                                         && r.rows == Window(s, Paginate(q.page, q.limit).offset, r.limit)
    ensures r.IndexPage? ==> forall i :: 0 <= i < |r.rows| ==>
              r.rows[i] in txs && Matches(WhereOf(userId, q, true), r.rows[i])
    ensures r.IndexPage? ==> |r.rows| <= r.limit
    ensures r.IndexPage? ==> r.count == |Filter(txs, MatchesWhere(WhereOf(userId, q, true)))|
    ensures r.IndexPage? ==> r.page == Paginate(q.page, q.limit).page && r.totalPages == TotalPages(r.count, r.limit)
    ensures r.IndexPage? ==> r.stats == GetStats(txs, WhereOf(userId, q, true)) && r.categories == GetCategories(txs, userId)
    ensures r.IndexPage? ==> r.filters == EchoedFilters(WhereOf(userId, q, true))
  {
    var paging := Paginate(q.page, q.limit);
    var w := WhereOf(userId, q, true);
    var listing := ListPage(txs, w, OrderColumn(q), OrderDirection(q.orderDir), paging.limit, paging.offset);
    if listing.QueryFailed? || self.Undefined? then IndexFailed
    else if listing.OrderOutsideModel? then IndexOrderOutsideModel
    else
      IndexPage(listing.rows, listing.count, GetStats(txs, w), GetCategories(txs, userId), paging.page,
                TotalPages(listing.count, paging.limit), paging.limit, EchoedFilters(w),
                OrderColumn(q), OrderDirection(q.orderDir))
  }

  /** As the routes register it, the list page never renders: every request is redirected to
    * the dashboard with the loading error. */
  lemma RoutedIndexAlwaysFails(txs: seq<Transaction>, userId: nat, q: ListQuery)
    ensures IndexOf(txs, userId, q, Routed) == IndexFailed
  {
  }

  /** With `this` bound, a query with a positive page and limit and a sortable column renders
    * the page. */
  lemma BoundIndexRenders(txs: seq<Transaction>, userId: nat, q: ListQuery)
    requires Paginate(q.page, q.limit).limit > 0 && Paginate(q.page, q.limit).offset >= 0
    requires OrderKey(OrderColumn(q)).Some?
    ensures IndexOf(txs, userId, q, Controller).IndexPage?
  {
  }

  /** `orderBy || "date"`. */
  function OrderColumn(q: ListQuery): string {
    if Truthy(q.orderBy) then q.orderBy.value else "date"
  }

  /** The filters echoed for a `where`. */
  function EchoedFilters(w: Where): Filters {
    Filters(if w.kind.Some? then Some(KindName(w.kind.value)) else None,
            w.categoryLike, w.searchLike, w.dateFrom, w.dateTo)
  }

  /** `GET /transactions`, run with receiver `self`. */
  method Index(db: Db, userId: nat, q: ListQuery, self: Receiver) returns (r: IndexOutcome)
    requires db.Valid()
    ensures r == IndexOf(db.state.transactions, userId, q, self)
  {
    var paging := Paginate(q.page, q.limit);
    var w, filters := BuildWhere(userId, q, true);
    var orderBy := if Truthy(q.orderBy) then q.orderBy.value else "date";
    var orderDir := OrderDirection(q.orderDir);
    var txs := db.state.transactions;
    var listing := ListPage(txs, w, orderBy, orderDir, paging.limit, paging.offset);
    if listing.QueryFailed? {
      return IndexFailed;
    }
    if self.Undefined? {
      return IndexFailed;
    }
    if listing.OrderOutsideModel? {
      return IndexOrderOutsideModel;
    }
    var stats := GetStats(txs, w);
    var categories := GetCategories(txs, userId);
    r := IndexPage(listing.rows, listing.count, stats, categories, paging.page,
                   TotalPages(listing.count, paging.limit), paging.limit, filters, orderBy, orderDir);
  }

  /** The outcome of a create or an update. `TypeErrorCaught` is the `catch` reached when
    * `this.getCategories` throws on an undefined receiver: the generic error and the redirect
    * back to the form. */
  datatype SaveOutcome =
    | Saved(row: Transaction)
    | FormRejected(shown: Option<Transaction>)
    | TypeErrorCaught
    | NotFound
    | SaveFailed(error: StoreError)

  function FormKind(f: TransactionForm): Kind {
    if f.kind == Some("income") then Income else Expense
  }

  /** `description || null`. */
  function FormDescription(f: TransactionForm): Option<string> {
    if Truthy(f.description) then f.description else None
  }

  /** `POST /transactions`, run with receiver `self`: a rejected form creates nothing, and
    * re-renders the form only when `this` is bound (line 128 throws otherwise); an accepted form
    * creates the row with the final category, `description || null` and `date || today` for the
    * user. A final category that is `undefined` fails the `notNull` validation. */
  method StoreTransaction(db: Db, userId: nat, f: TransactionForm, today: Date, self: Receiver) returns (r: SaveOutcome)
    requires db.Valid()
    modifies db
    ensures db.Valid()
    ensures !TransactionFormValid(f) ==> db.state == old(db.state)
    ensures !TransactionFormValid(f) ==> r == if self.Controller? then FormRejected(None) else TypeErrorCaught
    ensures TransactionFormValid(f) && FinalCategory(f.category, f.newCategory).None? ==>
              r == SaveFailed(ValidationFailed) && db.state == old(db.state)
    ensures TransactionFormValid(f) && FinalCategory(f.category, f.newCategory).Some? ==>
              var s := CreateTransaction(old(db.state), userId, FormKind(f), f.amount.n,
                                         FinalCategory(f.category, f.newCategory).value,
                                         if f.date.Iso? then f.date.d else today, FormDescription(f));
              db.state == s.after && (r.Saved? <==> s.result.Ok?) && (r.Saved? ==> r.row == s.result.value)
  {
    if !TransactionFormValid(f) {
      return if self.Controller? then FormRejected(None) else TypeErrorCaught;
    }
    var category := FinalCategory(f.category, f.newCategory);
    if category.None? {
      return SaveFailed(ValidationFailed);
    }
    var date := if f.date.Iso? then f.date.d else today;
    var created := db.InsertTransaction(userId, FormKind(f), f.amount.n, category.value, date, FormDescription(f));
    r := if created.Ok? then Saved(created.value) else SaveFailed(created.error);
  }

  /** The transaction the edit form shows after a rejected update, as written: `findByPk`,
    * whoever owns the row. */
  function EditFormRowAsWritten(txs: seq<Transaction>, id: nat, userId: nat): Option<Transaction> {
    FindFirst(txs, (t: Transaction) => t.id == id)
  }

  /** The same row looked up as every other handler does, within the user's own rows. */
  function EditFormRow(txs: seq<Transaction>, id: nat, userId: nat): (r: Option<Transaction>)
    ensures r.Some? ==> r.value in txs && r.value.id == id && r.value.userId == userId
  {
    FindFirst(txs, (t: Transaction) => t.id == id && t.userId == userId)
  }

  /** As written, a rejected update of another user's transaction id shows that user's row. */
  lemma EditFormShowsForeignRow()
    ensures var t := Transaction(7, 2, Expense, 1250, "Loyer", Date(2024, 3, 1), None);
      EditFormRowAsWritten([t], 7, 1) == Some(t) && t.userId != 1
  {
  }

  /** Looked up within the user's rows, no other user's row is ever shown. */
  lemma {:induction false} EditFormShowsOwnRowsOnly(txs: seq<Transaction>, id: nat, userId: nat)
    ensures EditFormRow(txs, id, userId).None? || EditFormRow(txs, id, userId).value.userId == userId
    ensures (forall i :: 0 <= i < |txs| ==> txs[i].userId != userId) ==> EditFormRow(txs, id, userId).None?
  {
  }

  /** The update data of `PUT /transactions/:id`: every field but the category always given;
    * an `undefined` final category is dropped by Sequelize's `update` and the category kept. */
  function UpdateData(f: TransactionForm, current: Transaction): TransactionData
    requires f.amount.Given?
  {
    TransactionData(
      FinalCategory(f.category, f.newCategory), Some(FormKind(f)), Some(f.amount.n),
      Some(if f.date.Iso? then f.date.d else current.date), Some(FormDescription(f)))
  }

  /** `PUT /transactions/:id`, run with receiver `self`: a rejected form changes nothing, and
    * shows the user's row again only when `this` is bound (line 230 throws otherwise); an id the
    * user does not own changes nothing; otherwise the row gets the form's values. */
  method UpdateTransaction(db: Db, userId: nat, id: nat, f: TransactionForm, self: Receiver) returns (r: SaveOutcome)
    requires db.Valid()
    modifies db
    ensures db.Valid()
    ensures !TransactionFormValid(f) ==> db.state == old(db.state)
    ensures !TransactionFormValid(f) ==>
              r == if self.Controller? then FormRejected(EditFormRow(old(db.state).transactions, id, userId)) else TypeErrorCaught
    ensures TransactionFormValid(f) && old(db.FindOwnedTransaction(id, userId)).None? ==>
              r == NotFound && db.state == old(db.state)
    ensures TransactionFormValid(f) && old(db.FindOwnedTransaction(id, userId)).Some? ==>
              var current := old(db.FindOwnedTransaction(id, userId)).value;
              var s := SaveTransaction(old(db.state), CopyTransactionFields(current, UpdateData(f, current), TransactionFields));
              db.state == s.after && (r.Saved? <==> s.result.Ok?)
              && (r.Saved? ==> TransactionUpdateOf(r.row, current, UpdateData(f, current)))
  {
    if !TransactionFormValid(f) {
      return if self.Controller? then FormRejected(EditFormRow(db.state.transactions, id, userId)) else TypeErrorCaught;
    }
    var found := db.FindOwnedTransaction(id, userId);
    if found.None? {
      return NotFound;
    }
    var data := UpdateData(f, found.value);
    var instance := new TransactionInstance(found.value);
    CopyAllTransactionFields(found.value, data);
    var updated := instance.UpdateTransaction(data, db);
    r := if updated.Ok? then Saved(updated.value) else SaveFailed(updated.error);
  }

  /** `DELETE /transactions/:id`: the owned row with that id is removed, and nothing else. */
  method DestroyTransaction(db: Db, userId: nat, id: nat) returns (deleted: bool)
    requires db.Valid()
    modifies db
    ensures db.Valid()
    ensures deleted <==> old(db.FindOwnedTransaction(id, userId)).Some?
    ensures deleted ==> db.state == old(db.state).(transactions := Filter(old(db.state.transactions), IdIsNot(TransactionId, id)))
    ensures !deleted ==> db.state == old(db.state)
  {
    var found := db.FindOwnedTransaction(id, userId);
    if found.None? {
      return false;
    }
    var instance := new TransactionInstance(found.value);
    instance.DeleteTransaction(db);
    deleted := true;
  }

  /** The export's rows: the rows `w` selects, each as often as in the table, sorted on
    * `DateKey` newest first. */
  function ExportRows(txs: seq<Transaction>, w: Where): (r: seq<Transaction>)
    ensures multiset(r) == multiset(Filter(txs, MatchesWhere(w)))
    ensures forall i :: 0 <= i < |r| ==> r[i] in txs && Matches(w, r[i])
    ensures forall i :: 0 <= i < |txs| && Matches(w, txs[i]) ==> txs[i] in r
    ensures SortedBy(r, DateKey, Desc)
  {
    SortedRows(txs, MatchesWhere(w), DateKey, Desc);
    SortBy(Filter(txs, MatchesWhere(w)), DateKey, Desc)
  }

  /** `GET /transactions/export`: the rows the filters select (no search filter), newest
    * first, as the CSV text the handler writes, with the amount bare. */
  method Export(db: Db, userId: nat, q: ListQuery) returns (rows: seq<Transaction>, csv: string)
    ensures rows == ExportRows(db.state.transactions, WhereOf(userId, q, false))
    ensures csv == Csv.ExportAsWritten(rows)
  {
    var w, _ := BuildWhere(userId, q, false);
    rows := SortBy(Filter(db.state.transactions, MatchesWhere(w)), DateKey, Desc);
    csv := Csv.ExportAsWritten(rows);
  }
}
