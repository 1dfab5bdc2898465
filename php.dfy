/**
 * The loosely typed values the plugin's PHP code keeps in post meta, and the
 * casts it applies to them: `intval`/`(float)`, `absint`, `(bool)`, `empty`,
 * string interpolation and the `??` default.
 */
module Php {
  import opened Text

  /** A scalar stored in post meta. */
  datatype Value = Int(n: int) | Bool(b: bool) | Str(s: string)

  /**
   * The field names of a stored or posted option row: `months`,
   * `base_price`, `price_adjustment`, `is_selected`, `is_recommended`,
   * `description`, `name` and `miles`.
   */
  datatype Key = Months | BasePrice | PriceAdjustment | IsSelected | IsRecommended | Description | Name | Miles

  /** One stored option: an associative array from field name to scalar. */
  type Row = map<Key, Value>

  /** `intval` (and, with money in whole units, `(float)`). */
  function IntOf(v: Value): (n: int)
    ensures v.Int? ==> n == v.n
    ensures v.Bool? ==> n == (if v.b then 1 else 0)
  {
    match v
    case Int(n) => n
    case Bool(b) => if b then 1 else 0
    case Str(s) => IntVal(s)
  }

  /** `absint`: the magnitude of `intval`. */
  function Absint(v: Value): (n: nat)
    ensures n == IntOf(v) || n == -IntOf(v)
  {
    var i := IntOf(v);
    if i < 0 then -i else i
  }

  /** The `(bool)` cast; `empty` is its negation. */
  predicate Truthy(v: Value)
  {
    match v
    case Int(n) => n != 0
    case Bool(b) => b
    case Str(s) => !PhpEmpty(s)
  }

  /** A scalar in string context (`echo`, `esc_attr`, `esc_js`). */
  function StrOf(v: Value): (s: string)
    ensures v.Str? ==> s == v.s
    ensures v.Bool? ==> s == (if v.b then "1" else "")
  {
    match v
    case Int(n) => IntToString(n)
    case Bool(b) => if b then "1" else ""
    case Str(s) => s
  }

  /** `$row[key] ?? default`. */
  function Get(row: Row, key: Key, default: Value): (v: Value)
    ensures key in row ==> v == row[key]
    ensures key !in row ==> v == default
  {
    if key in row then row[key] else default
  }

  /**
   * Echoing an integer and reading the text back with `intval` gives the
   * integer again, and the text is `empty` exactly for zero.
   */
  lemma {:induction false} IntTextRoundTrip(n: int)
    ensures IntOf(Str(StrOf(Int(n)))) == n
    ensures Truthy(Str(StrOf(Int(n)))) <==> n != 0
  {
    IntValRoundTrip(n);
    IntValRoundTrip(0);
    assert IntToString(0) == "0";
  }
}
