/** The values that arrive in a request body or query string, seen through the JavaScript
  * operations the handlers apply to them: truthiness, `parseFloat`/`parseInt`, comparisons that
  * are false for `NaN`, and the ISO 8601 date check. */
module Forms {
  import opened Wrappers
  import opened Calendar

  /** A text field is truthy when it is present and not the empty string. */
  predicate Truthy(v: Option<string>) {
    v.Some? && v.value != []
  }

  /** The number `parseFloat` or `parseInt` gives: `NaN` or a value. Amounts are integer cents,
    * month and year fields are integers. */
  datatype Num = NaN | Num(n: int)

  /** A numeric form field as the handlers see it: absent, the empty string, a string that does
    * not start with a number, or a numeral whose value is `n`. */
  datatype NumInput = Missing | Blank | Malformed | Given(n: int)

  /** Only the empty string and `undefined` are falsy among form strings (`"0"` is truthy). */
  predicate NumTruthy(v: NumInput) {
    v.Malformed? || v.Given?
  }

  /** `parseFloat(v)` / `parseInt(v)`: `NaN` unless the field holds a numeral. */
  function Parse(v: NumInput): (r: Num)
    ensures r.Num? <==> v.Given?
    ensures r.Num? ==> r.n == v.n
  {
    match v
    case Given(n) => Num(n)
    case _ => NaN
  }

  /** `x < k`, `x <= k`, `x > k` in JavaScript: false whenever `x` is `NaN`. */
  predicate Lt(x: Num, k: int) { x.Num? && x.n < k }
  predicate Le(x: Num, k: int) { x.Num? && x.n <= k }
  predicate Gt(x: Num, k: int) { x.Num? && x.n > k }

  /** `parseInt(v) || d`: the parsed value unless it is `NaN` or `0`. The result is never falsy
    * when the default is not, and it is either the numeral's value or the default. */
  function ParseOr(v: NumInput, d: int): (r: int)
    ensures d != 0 ==> r != 0
    ensures r == d || (v.Given? && r == v.n)
    ensures (v.Given? && v.n != 0) ==> r == v.n
    ensures !(v.Given? && v.n != 0) ==> r == d
  {
    if v.Given? && v.n != 0 then v.n else d
  }

  /** A date field: absent or empty, a string that is not an ISO 8601 date, or an ISO 8601 date
    * naming the day `d`. */
  datatype DateInput = NoDate | NotIso | Iso(d: Date)

  predicate DateTruthy(v: DateInput) {
    !v.NoDate?
  }
}
