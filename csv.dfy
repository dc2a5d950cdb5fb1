/** The CSV text `GET /transactions/export` sends (controllers/TransactionController.js): a fixed
  * header line, then one line per transaction with the date, the French type kindText, the quoted
  * category and description, and the amount with a decimal comma. */
module Csv {
  import opened Wrappers
  import opened Calendar
  import opened Entities
  import opened Tables

  /** The column names of the header line. */
  const HeaderFields: seq<string> := ["Date", "Type", "Catégorie", "Description", "Montant"]

  /** `"Date,Type,Catégorie,Description,Montant"`. */
  const HeaderLine: string := Join(HeaderFields, ',')

  /** `parts.join(sep)`, and the template literals that put a separator between fields. */
  function Join(parts: seq<string>, sep: char): string {
    if parts == [] then "" else if |parts| == 1 then parts[0]
    else Join(parts[..|parts| - 1], sep) + [sep] + parts[|parts| - 1]
  }

  /** The decimal numeral of `n`. */
  function NatText(n: nat): (r: string)
    ensures |r| >= 1
    ensures forall i :: 0 <= i < |r| ==> '0' <= r[i] <= '9'
  {
    var d := ['0', '1', '2', '3', '4', '5', '6', '7', '8', '9'][n % 10];
    if n < 10 then [d] else NatText(n / 10) + [d]
  }

  /** A numeral padded to two digits, as the French date format and the cents print them. */
  function Pad2(n: nat): (r: string)
    ensures forall i :: 0 <= i < |r| ==> '0' <= r[i] <= '9'
  {
    if n < 10 then "0" + NatText(n) else NatText(n)
  }

  function IntText(n: int): (r: string)
    ensures forall i :: 0 <= i < |r| ==> r[i] == '-' || '0' <= r[i] <= '9'
  {
    if n < 0 then "-" + NatText(-n) else NatText(n)
  }

  /** `toLocaleDateString("fr-FR")`: `DD/MM/YYYY`. */
  function FrDate(d: Date): (r: string)
    ensures forall i :: 0 <= i < |r| ==> r[i] != ',' && r[i] != '"' && r[i] != '\n'
  {
    var day := if d.day >= 0 then d.day else 0;
    var month := if d.month >= 0 then d.month else 0;
    Pad2(day) + "/" + Pad2(month) + "/" + IntText(d.year)
  }

  /** The `DECIMAL(10,2)` value as the driver hands it over: `I.CC`. */
  function DecimalText(cents: int): (r: string)
    ensures forall i :: 0 <= i < |r| ==> r[i] == '-' || r[i] == '.' || '0' <= r[i] <= '9'
  {
    var sign := if cents < 0 then "-" else "";
    var m := if cents < 0 then -cents else cents;
    sign + NatText(m / 100) + "." + Pad2(m % 100)
  }

  /** `s.replace(a, b)` with a one-character pattern: only the first occurrence is replaced. */
  function ReplaceFirst(s: string, a: char, b: char): (r: string)
    ensures |r| == |s|
    ensures forall i :: 0 <= i < |s| ==> r[i] == (if s[i] == a && a !in s[..i] then b else s[i])
  {
    if s == [] then []
    else if s[0] == a then
      assert forall i :: 0 < i < |s| ==> s[..i][0] == a;
      [b] + s[1..]
    else
      var rest := ReplaceFirst(s[1..], a, b);
      assert forall i :: 1 <= i < |s| ==> s[..i] == [s[0]] + s[1..][..i - 1];
      [s[0]] + rest
  }

  /** `transaction.amount.toString().replace(".", ",")`. */
  function AmountText(cents: int): (r: string)
    ensures CountOf(r, ',') == 1
    ensures forall i :: 0 <= i < |r| ==> r[i] != '"' && r[i] != '\n'
  {
    var s := DecimalText(cents);
    var r := ReplaceFirst(s, '.', ',');
    DecimalHasOneDot(cents);
    ReplaceOnlyDot(s, r);
    r
  }

  /** The number of occurrences of `c` in `s`. */
  function CountOf(s: string, c: char): nat {
    if s == [] then 0 else (if s[0] == c then 1 else 0) + CountOf(s[1..], c)
  }

  lemma {:induction false} CountOfConcat(a: string, b: string, c: char)
    ensures CountOf(a + b, c) == CountOf(a, c) + CountOf(b, c)
  {
    if a == [] {
      assert a + b == b;
    } else {
      assert (a + b)[0] == a[0] && (a + b)[1..] == a[1..] + b;
      CountOfConcat(a[1..], b, c);
    }
  }

  lemma {:induction false} CountOfNone(s: string, c: char)
    requires forall i :: 0 <= i < |s| ==> s[i] != c
    ensures CountOf(s, c) == 0
  {
    if s != [] {
      assert s[0] != c;
      CountOfNone(s[1..], c);
    }
  }

  /** The decimal text holds exactly one point. */
  lemma DecimalHasOneDot(cents: int)
    ensures CountOf(DecimalText(cents), '.') == 1
  {
    var m := if cents < 0 then -cents else cents;
    var sign := if cents < 0 then "-" else "";
    CountOfNone(sign, '.');
    CountOfNone(NatText(m / 100), '.');
    CountOfNone(Pad2(m % 100), '.');
    CountOfConcat(sign, NatText(m / 100), '.');
    CountOfConcat(sign + NatText(m / 100), ".", '.');
    CountOfConcat(sign + NatText(m / 100) + ".", Pad2(m % 100), '.');
  }

  /** Replacing the only point of a text free of commas leaves exactly one comma. */
  lemma {:induction false} ReplaceOnlyDot(s: string, r: string)
    requires r == ReplaceFirst(s, '.', ',') && CountOf(s, '.') == 1
    requires forall i :: 0 <= i < |s| ==> s[i] != ',' && s[i] != '"' && s[i] != '\n'
    ensures CountOf(r, ',') == 1
    ensures forall i :: 0 <= i < |r| ==> r[i] != '"' && r[i] != '\n'
  {
    if s[0] == '.' {
      assert r == [','] + s[1..];
      CountOfNone(s[1..], ',');
    } else {
      ReplaceOnlyDot(s[1..], r[1..]);
    }
  }

  function KindLabel(k: Kind): string {
    if k == Income then "Revenu" else "Dépense"
  }

  /** `"${text}"`, without escaping of embedded quotes. */
  function Quoted(s: string): string {
    "\"" + s + "\""
  }

  function DescriptionText(d: Option<string>): string {
    if d.Some? then d.value else ""
  }

  /** The five fields of a row as written: the amount's decimal comma stands bare. */
  function RowFieldsAsWritten(t: Transaction): seq<string> {
    [FrDate(t.date), KindLabel(t.kind), Quoted(t.category), Quoted(DescriptionText(t.description)), AmountText(t.amount)]
  }

  /** The five fields of a row with the amount quoted like the text fields, so that its decimal
    * comma stays inside the fifth field. */
  function RowFields(t: Transaction): seq<string> {
    [FrDate(t.date), KindLabel(t.kind), Quoted(t.category), Quoted(DescriptionText(t.description)), Quoted(AmountText(t.amount))]
  }

  /** `${date},${type},${category},${description},${amount}`. */
  function CsvRowAsWritten(t: Transaction): string {
    Join(RowFieldsAsWritten(t), ',')
  }

  function CsvRow(t: Transaction): string {
    Join(RowFields(t), ',')
  }

  /** The whole export: the header line, a newline, then the rows joined by newlines. */
  function Export(txs: seq<Transaction>): string {
    HeaderLine + "\n" + Join(seq(|txs|, i requires 0 <= i < |txs| => CsvRow(txs[i])), '\n')
  }

  /** The same export with the rows as written. */
  function ExportAsWritten(txs: seq<Transaction>): string {
    HeaderLine + "\n" + Join(seq(|txs|, i requires 0 <= i < |txs| => CsvRowAsWritten(txs[i])), '\n')
  }

  /** The field separators of a CSV line: the commas outside double quotes, `quoted` telling
    * whether the line starts inside a quoted field. */
  function Separators(s: string, quoted: bool): nat {
    if s == [] then 0
    else if s[0] == '"' then Separators(s[1..], !quoted)
    else (if s[0] == ',' && !quoted then 1 else 0) + Separators(s[1..], quoted)
  }

  /** Whether the end of `s` lies inside a quoted field. */
  function QuotedAfter(s: string, quoted: bool): bool {
    if s == [] then quoted
    else if s[0] == '"' then QuotedAfter(s[1..], !quoted)
    else QuotedAfter(s[1..], quoted)
  }

  lemma {:induction false} SeparatorsConcat(a: string, b: string, quoted: bool)
    ensures Separators(a + b, quoted) == Separators(a, quoted) + Separators(b, QuotedAfter(a, quoted))
    ensures QuotedAfter(a + b, quoted) == QuotedAfter(b, QuotedAfter(a, quoted))
  {
    if a == [] {
      assert a + b == b;
    } else {
      assert (a + b)[1..] == a[1..] + b;
      assert (a + b)[0] == a[0];
      SeparatorsConcat(a[1..], b, if a[0] == '"' then !quoted else quoted);
    }
  }

  /** Text with no double quote neither opens nor closes a field; outside quotes its commas
    * are all separators. */
  lemma {:induction false} SeparatorsUnquoted(s: string, quoted: bool)
    requires forall i :: 0 <= i < |s| ==> s[i] != '"'
    ensures QuotedAfter(s, quoted) == quoted
    ensures Separators(s, quoted) == if quoted then 0 else CountOf(s, ',')
  {
    if s != [] {
      assert s[0] != '"';
      SeparatorsUnquoted(s[1..], quoted);
    }
  }

  /** A quoted field whose text holds no double quote adds no separator. */
  lemma QuotedField(s: string)
    requires forall i :: 0 <= i < |s| ==> s[i] != '"'
    ensures Separators(Quoted(s), false) == 0 && !QuotedAfter(Quoted(s), false)
  {
    SeparatorsConcat("\"", s, false);
    SeparatorsConcat("\"" + s, "\"", false);
    SeparatorsUnquoted(s, true);
  }

  function SeparatorsOf(s: string): int {
    Separators(s, false)
  }

  function NewlinesOf(s: string): int {
    CountOf(s, '\n')
  }

  /** A field that closes every quote it opens. */
  predicate Balanced(s: string) {
    !QuotedAfter(s, false)
  }

  /** Joining balanced fields with commas: one separator between each two, plus those inside
    * the fields. */
  lemma {:induction false} JoinSeparators(parts: seq<string>)
    requires forall k :: 0 <= k < |parts| ==> Balanced(parts[k])
    ensures Separators(Join(parts, ','), false) == (if parts == [] then 0 else |parts| - 1) + Sum(parts, SeparatorsOf)
    ensures !QuotedAfter(Join(parts, ','), false)
  {
    if |parts| == 1 {
      assert parts[..0] == [];
    } else if |parts| > 1 {
      var init := parts[..|parts| - 1];
      var last := parts[|parts| - 1];
      JoinSeparators(init);
      SeparatorsConcat(Join(init, ','), [','], false);
      SeparatorsConcat(Join(init, ',') + [','], last, false);
    }
  }

  /** Joining parts: the separator once between each two, plus the occurrences inside them. */
  lemma {:induction false} JoinCount(parts: seq<string>, sep: char, c: char)
    ensures CountOf(Join(parts, sep), c) ==
              (if parts == [] || sep != c then 0 else |parts| - 1) + Sum(parts, (p: string) => CountOf(p, c))
  {
    if |parts| == 1 {
      assert parts[..0] == [];
    } else if |parts| > 1 {
      var init := parts[..|parts| - 1];
      JoinCount(init, sep, c);
      CountOfConcat(Join(init, sep), [sep], c);
      CountOfConcat(Join(init, sep) + [sep], parts[|parts| - 1], c);
    }
  }

  /** A sum of terms that are all zero is zero. */
  lemma {:induction false} SumZero<T>(s: seq<T>, f: T -> int)
    requires forall k :: 0 <= k < |s| ==> f(s[k]) == 0
    ensures Sum(s, f) == 0
  {
    if s != [] {
      SumZero(s[..|s| - 1], f);
    }
  }

  /** The header names five columns: four separators, no newline. */
  lemma HeaderShape()
    ensures Separators(HeaderLine, false) == 4
    ensures CountOf(HeaderLine, '\n') == 0
  {
    forall k | 0 <= k < |HeaderFields| ensures Balanced(HeaderFields[k]) && SeparatorsOf(HeaderFields[k]) == 0
                                          && CountOf(HeaderFields[k], '\n') == 0 {
      var f := HeaderFields[k];
      assert forall i :: 0 <= i < |f| ==> f[i] != '"' && f[i] != ',' && f[i] != '\n';
      SeparatorsUnquoted(f, false);
      CountOfNone(f, ',');
      CountOfNone(f, '\n');
    }
    JoinSeparators(HeaderFields);
    SumZero(HeaderFields, SeparatorsOf);
    JoinCount(HeaderFields, ',', '\n');
    SumZero(HeaderFields, (p: string) => CountOf(p, '\n'));
  }

  /** A field with neither quote nor comma is balanced and adds no separator. */
  lemma PlainField(s: string)
    requires forall i :: 0 <= i < |s| ==> s[i] != '"' && s[i] != ','
    ensures Balanced(s) && SeparatorsOf(s) == 0
  {
    SeparatorsUnquoted(s, false);
    CountOfNone(s, ',');
  }

  lemma KindLabelPlain(k: Kind)
    ensures Balanced(KindLabel(k)) && SeparatorsOf(KindLabel(k)) == 0
  {
    var kindText := KindLabel(k);
    assert forall i :: 0 <= i < |kindText| ==> kindText[i] != '"' && kindText[i] != ',';
    PlainField(kindText);
  }

  lemma QuotedPlain(s: string)
    requires NoQuoteIn(s)
    ensures Balanced(Quoted(s)) && SeparatorsOf(Quoted(s)) == 0
  {
    QuotedField(s);
  }

  /** The date, the type and the two quoted text fields add no separator. */
  lemma LeadingFields(t: Transaction, fs: seq<string>)
    requires NoQuoteIn(t.category) && NoQuoteIn(DescriptionText(t.description))
    requires fs == RowFields(t) || fs == RowFieldsAsWritten(t)
    ensures forall k :: 0 <= k < 4 ==> Balanced(fs[k]) && SeparatorsOf(fs[k]) == 0
  {
    PlainField(FrDate(t.date));
    KindLabelPlain(t.kind);
    QuotedPlain(t.category);
    QuotedPlain(DescriptionText(t.description));
    assert fs[0] == FrDate(t.date) && fs[1] == KindLabel(t.kind);
    assert fs[2] == Quoted(t.category) && fs[3] == Quoted(DescriptionText(t.description));
  }

  predicate NoQuoteIn(s: string) {
    forall i :: 0 <= i < |s| ==> s[i] != '"'
  }

  /** As written, every row splits into six fields under a five-column header: the amount's
    * decimal comma is read as a separator. */
  lemma RowAsWrittenHasSixFields(t: Transaction)
    requires NoQuoteIn(t.category) && NoQuoteIn(DescriptionText(t.description))
    ensures Separators(CsvRowAsWritten(t), false) == 5
    ensures Separators(HeaderLine, false) == 4
  {
    var fs := RowFieldsAsWritten(t);
    LeadingFields(t, fs);
    SeparatorsUnquoted(fs[4], false);
    JoinSeparators(fs);
    SumZero(fs[..4], SeparatorsOf);
    assert fs[..5][..4] == fs[..4] && fs[..5] == fs;
    HeaderShape();
  }

  /** With the amount quoted every row has the header's five fields. */
  lemma RowHasFiveFields(t: Transaction)
    requires NoQuoteIn(t.category) && NoQuoteIn(DescriptionText(t.description))
    ensures Separators(CsvRow(t), false) == Separators(HeaderLine, false) == 4
  {
    var fs := RowFields(t);
    LeadingFields(t, fs);
    QuotedField(AmountText(t.amount));
    JoinSeparators(fs);
    SumZero(fs, SeparatorsOf);
    HeaderShape();
  }

  /** A row holds no newline when its text fields hold none, with the amount bare or quoted. */
  lemma RowNewlines(t: Transaction)
    requires CountOf(t.category, '\n') == 0 && CountOf(DescriptionText(t.description), '\n') == 0
    ensures CountOf(CsvRow(t), '\n') == 0
    ensures CountOf(CsvRowAsWritten(t), '\n') == 0
  {
    var fs := RowFields(t);
    forall k | 0 <= k < 5 ensures CountOf(fs[k], '\n') == 0 {
      if k == 0 || k == 1 {
        var kindText := KindLabel(t.kind);
        assert forall i :: 0 <= i < |kindText| ==> kindText[i] != '\n';
        CountOfNone(fs[k], '\n');
      } else {
        var inner := if k == 2 then t.category else if k == 3 then DescriptionText(t.description) else AmountText(t.amount);
        if k == 4 {
          CountOfNone(inner, '\n');
        }
        assert fs[k] == Quoted(inner);
        CountOfConcat("\"", inner, '\n');
        CountOfConcat("\"" + inner, "\"", '\n');
      }
    }
    JoinCount(fs, ',', '\n');
    SumZero(fs, (p: string) => CountOf(p, '\n'));
    var ws := RowFieldsAsWritten(t);
    forall k | 0 <= k < 5 ensures CountOf(ws[k], '\n') == 0 {
      if k < 4 {
        assert ws[k] == fs[k];
      } else {
        CountOfNone(ws[k], '\n');
      }
    }
    JoinCount(ws, ',', '\n');
    SumZero(ws, (p: string) => CountOf(p, '\n'));
  }

  /** The newlines of an export: the header's, then one between each two rows. */
  lemma {:induction false} LinesOf(rows: seq<string>)
    requires forall k :: 0 <= k < |rows| ==> CountOf(rows[k], '\n') == 0
    ensures CountOf(HeaderLine + "\n" + Join(rows, '\n'), '\n') == if rows == [] then 1 else |rows|
  {
    JoinCount(rows, '\n', '\n');
    SumZero(rows, (p: string) => CountOf(p, '\n'));
    HeaderShape();
    CountOfConcat(HeaderLine, "\n", '\n');
    CountOfConcat(HeaderLine + "\n", Join(rows, '\n'), '\n');
  }

  /** The export has one line per transaction after the header: as many newlines as rows (the
    * header's own when there is none), as long as no text field holds a newline. This holds of
    * the text as written and of the one with the amount quoted. */
  lemma ExportLines(txs: seq<Transaction>)
    requires forall k :: 0 <= k < |txs| ==> CountOf(txs[k].category, '\n') == 0
                                            && CountOf(DescriptionText(txs[k].description), '\n') == 0
    ensures CountOf(Export(txs), '\n') == if txs == [] then 1 else |txs|
    ensures CountOf(ExportAsWritten(txs), '\n') == if txs == [] then 1 else |txs|
  {
    var rows := seq(|txs|, i requires 0 <= i < |txs| => CsvRow(txs[i]));
    var written := seq(|txs|, i requires 0 <= i < |txs| => CsvRowAsWritten(txs[i]));
    forall k | 0 <= k < |txs| ensures CountOf(rows[k], '\n') == 0 && CountOf(written[k], '\n') == 0 {
      RowNewlines(txs[k]);
    }
    LinesOf(rows);
    LinesOf(written);
  }
}
