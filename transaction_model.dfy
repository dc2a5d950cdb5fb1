/** models/Transaction.js: the whitelisted partial update of a transaction instance, its
  * deletion, and the class method `getTransactionsByUser`. */
module TransactionModel {
  import opened Wrappers
  import opened Calendar
  import opened Entities
  import opened Tables
  import opened Ordering
  import opened Store

  /** The attributes `updateTransaction` may copy, in the order of its `allowedFields`. */
  datatype TransactionField = CategoryField | TypeField | AmountField | DateField | DescriptionField

  const TransactionFields: seq<TransactionField> :=
    [CategoryField, TypeField, AmountField, DateField, DescriptionField]

  /** The argument of `updateTransaction`; an absent entry is `undefined`, and the description
    * may be set to `null`. */
  datatype TransactionData = TransactionData(
    category: Option<string>, kind: Option<Kind>, amount: Option<int>, date: Option<Date>,
    description: Option<Option<string>>)

  function CopyTransactionField(t: Transaction, data: TransactionData, f: TransactionField): Transaction {
    match f
    case CategoryField => if data.category.Some? then t.(category := data.category.value) else t
    case TypeField => if data.kind.Some? then t.(kind := data.kind.value) else t
    case AmountField => if data.amount.Some? then t.(amount := data.amount.value) else t
    case DateField => if data.date.Some? then t.(date := data.date.value) else t
    case DescriptionField => if data.description.Some? then t.(description := data.description.value) else t
  }

  function CopyTransactionFields(t: Transaction, data: TransactionData, fs: seq<TransactionField>): Transaction {
    if fs == [] then t
    else CopyTransactionField(CopyTransactionFields(t, data, fs[..|fs| - 1]), data, fs[|fs| - 1])
  }

  /** What `updateTransaction` promises: each allowed attribute takes the given value when there
    * is one and keeps its own otherwise; the id and the owner never change. */
  predicate TransactionUpdateOf(r: Transaction, t: Transaction, data: TransactionData) {
    && r.category == (if data.category.Some? then data.category.value else t.category)
    && r.kind == (if data.kind.Some? then data.kind.value else t.kind)
    && r.amount == (if data.amount.Some? then data.amount.value else t.amount)
    && r.date == (if data.date.Some? then data.date.value else t.date)
    && r.description == (if data.description.Some? then data.description.value else t.description)
    && r.id == t.id && r.userId == t.userId
  }

  /** Copying the five allowed fields is exactly the promised update. */
  lemma {:induction false} CopyAllTransactionFields(t: Transaction, data: TransactionData)
    ensures TransactionUpdateOf(CopyTransactionFields(t, data, TransactionFields), t, data)
  {
    var fs := TransactionFields;
    var t1 := CopyTransactionField(t, data, CategoryField);
    var t2 := CopyTransactionField(t1, data, TypeField);
    var t3 := CopyTransactionField(t2, data, AmountField);
    var t4 := CopyTransactionField(t3, data, DateField);
    assert CopyTransactionFields(t, data, fs[..1]) == t1 by { assert fs[..1][..0] == []; }
    assert CopyTransactionFields(t, data, fs[..2]) == t2 by { assert fs[..2][..1] == fs[..1]; }
    assert CopyTransactionFields(t, data, fs[..3]) == t3 by { assert fs[..3][..2] == fs[..2]; }
    assert CopyTransactionFields(t, data, fs[..4]) == t4 by { assert fs[..4][..3] == fs[..3]; }
    assert CopyTransactionFields(t, data, fs) == CopyTransactionField(t4, data, DescriptionField) by {
      assert fs[..|fs| - 1] == fs[..4];
    }
  }

  /** A transaction instance: the attribute values of one row, as read and as assigned since. */
  class TransactionInstance {
    var values: Transaction

    constructor (row: Transaction)
      ensures values == row
    {
      values := row;
    }

    /** `updateTransaction(transactionData)`, and Sequelize's own `update(values)`, which sets
      * the defined entries the same way: the allowed fields are copied one by one, then saved. */
    method UpdateTransaction(data: TransactionData, db: Db) returns (r: Result<Transaction, StoreError>)
      requires db.Valid()
      modifies this, db
      ensures db.Valid()
      ensures TransactionUpdateOf(values, old(values), data)
      ensures Step(r, db.state) == SaveTransaction(old(db.state), values)
    {
      var i := 0;
      while i < |TransactionFields|
        invariant 0 <= i <= |TransactionFields|
        invariant values == CopyTransactionFields(old(values), data, TransactionFields[..i])
        invariant db.state == old(db.state)
      {
        assert TransactionFields[..i + 1][..i] == TransactionFields[..i];
        values := CopyTransactionField(values, data, TransactionFields[i]);
        i := i + 1;
      }
      assert TransactionFields[..i] == TransactionFields;
      CopyAllTransactionFields(old(values), data);
      r := db.UpdateTransaction(values);
    }

    /** `deleteTransaction()` / `destroy()`: the row with this id leaves the table. */
    method DeleteTransaction(db: Db)
      requires db.Valid()
      modifies db
      ensures db.Valid()
      ensures db.state == old(db.state).(transactions := Filter(old(db.state.transactions), IdIsNot(TransactionId, values.id)))
    {
      db.DeleteTransaction(values.id);
    }
  }

  /** `ORDER BY date`, ties in creation order. */
  function DateKey(t: Transaction): Key {
    Key(t.date.year, t.date.month, t.date.day, t.id)
  }

  /** The query options a caller may pass; an absent entry leaves the default in place. */
  datatype FindOptions = FindOptions(where: Option<Transaction -> bool>, order: Option<Order>)

  /** One `order` entry: the sort key and its direction. */
  datatype Order = Order(key: Transaction -> Key, dir: Direction)

  function OwnedBy(userId: nat): Transaction -> bool {
    (t: Transaction) => t.userId == userId
  }

  /** `getTransactionsByUser(userId, options)`: the defaults `where: { userId }` and
    * `order: [["date", "DESC"]]`, each replaced by the caller's entry when there is one, because
    * the options are spread after them. */
  function GetTransactionsByUser(txs: seq<Transaction>, userId: nat, options: FindOptions): (r: seq<Transaction>)
    ensures multiset(r) == multiset(Filter(txs, if options.where.Some? then options.where.value else OwnedBy(userId)))
    ensures options.order.None? ==> SortedBy(r, DateKey, Desc)
    ensures options.order.Some? ==> SortedBy(r, options.order.value.key, options.order.value.dir)
  {
    var p := if options.where.Some? then options.where.value else OwnedBy(userId);
    var order := if options.order.Some? then options.order.value else Order(DateKey, Desc);
    SortBy(Filter(txs, p), order.key, order.dir)
  }

  /** With no options the result is exactly the user's transactions, newest first. */
  lemma DefaultListIsOwnRows(txs: seq<Transaction>, userId: nat)
    ensures var r := GetTransactionsByUser(txs, userId, FindOptions(None, None));
      && SortedBy(r, DateKey, Desc)
      && (forall i :: 0 <= i < |r| ==> r[i].userId == userId)
      && (forall i :: 0 <= i < |txs| && txs[i].userId == userId ==> txs[i] in r)
  {
    var r := GetTransactionsByUser(txs, userId, FindOptions(None, None));
    var f := Filter(txs, OwnedBy(userId));
    FilterMembers(txs, OwnedBy(userId));
    PermutationMembers(r, f);
    forall i | 0 <= i < |r| ensures r[i].userId == userId {
      assert r[i] in f;
    }
  }

  /** A caller's `where` replaces the owner scope outright: the rows come back whoever owns them. */
  lemma WhereOptionOverridesOwner(txs: seq<Transaction>, userId: nat, p: Transaction -> bool)
    ensures var r := GetTransactionsByUser(txs, userId, FindOptions(Some(p), None));
      forall i :: 0 <= i < |txs| && p(txs[i]) ==> txs[i] in r
  {
    var r := GetTransactionsByUser(txs, userId, FindOptions(Some(p), None));
    FilterMembers(txs, p);
    PermutationMembers(r, Filter(txs, p));
  }
}
