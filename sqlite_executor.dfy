/**
 * The SQLite executor: serialisation overrides for booleans, decimals and
 * datetimes, the query-plan EXPLAIN prefix and the `?`-placeholder INSERT.
 */
module SqliteExecutor {
  import opened Wrappers
  import opened Models
  import opened Errors
  import opened Sql

  // ---------------------------------------------------------------- booleans

  /** `to_db_bool`: `None` stays `None`, anything else becomes 1 or 0 by truthiness. */
  function ToDbBool(v: Value): (r: Value)
    ensures r == Null <==> v == Null
    ensures r != Null ==> r.Int? && (r.i == 1 || r.i == 0)
    ensures r == Int(1) <==> Truthy(v)
  {
    if v == Null then Null else Int(if Truthy(v) then 1 else 0)
  }

  // ---------------------------------------------------------------- decimals

  function Pow10(n: nat): (p: nat)
    ensures p >= 1
  {
    if n == 0 then 1 else 10 * Pow10(n - 1)
  }

  /** The integer nearest to `a / m`, a tie going to the even one (the default ROUND_HALF_EVEN). */
  function RoundHalfEven(a: nat, m: nat): (q: nat)
    requires m >= 1
    ensures 2 * (a - q * m) <= m && 2 * (q * m - a) <= m
    ensures 2 * (a % m) != m ==> 2 * (a - q * m) < m && 2 * (q * m - a) < m
    ensures 2 * (a % m) == m ==> q % 2 == 0
  {
    var q0, r := a / m, a % m;
    assert a == q0 * m + r;
    if 2 * r < m then q0
    else if 2 * r > m then q0 + 1
    else if q0 % 2 == 0 then q0
    else q0 + 1
  }

  /**
   * `Decimal(coef * 10^exp).quantize(Decimal(quant))` where `quant` is `"1"`
   * for no decimal places and `"1."` followed by `places` zeros otherwise:
   * the result has exponent `-(places as int)`, is exact when no digit is lost, and is
   * otherwise within half a unit of the last place, ties to even.
   */
  function Quantize(coef: int, exp: int, places: nat): (q: Value)
    ensures q.Dec? && q.exp == -(places as int)
    ensures exp >= -(places as int) ==> q.coef == coef * Pow10(exp + places)
    ensures exp < -(places as int) ==>
              var m := Pow10(-(places as int) - exp);
              2 * (coef - q.coef * m) <= m && 2 * (q.coef * m - coef) <= m
  {
    if exp >= -(places as int) then Dec(coef * Pow10(exp + places), -(places as int))
    else
      var m := Pow10(-(places as int) - exp);
      if coef >= 0 then Dec(RoundHalfEven(coef, m), -(places as int))
      else
        var r: int := RoundHalfEven(-coef, m);
        assert (-r) * m == -(r * m);
        Dec(-r, -(places as int))
  }

  /** `Decimal.normalize()`: trailing zeros of the coefficient are moved into the exponent. */
  function Normalize(coef: int, exp: int): (n: Value)
    ensures n.Dec?
    ensures coef == 0 ==> n == Dec(0, 0)
    ensures coef != 0 ==> n.exp >= exp && n.coef * Pow10(n.exp - exp) == coef && n.coef % 10 != 0
    decreases if coef >= 0 then coef else -coef
  {
    if coef == 0 then Dec(0, 0)
    else if coef % 10 == 0 then
      var n := Normalize(coef / 10, exp + 1);
      assert n.coef * Pow10(n.exp - exp) == n.coef * Pow10(n.exp - (exp + 1)) * 10;
      n
    else Dec(coef, exp)
  }

  /** Decimal digits of a non-empty digit string. */
  predicate AllDigits(s: string)
  {
    forall i :: 0 <= i < |s| ==> '0' <= s[i] <= '9'
  }

  function DigitsValue(s: string): nat
    requires AllDigits(s)
  {
    if s == [] then 0 else DigitsValue(s[..|s| - 1]) * 10 + (s[|s| - 1] as int - '0' as int)
  }

  /** Index of the first `.` in `s`, or `|s|` when there is none. */
  function DotIndex(s: string): (k: nat)
    ensures k <= |s|
    ensures forall i :: 0 <= i < k ==> s[i] != '.'
    ensures k < |s| ==> s[k] == '.'
  {
    if s == [] then 0 else if s[0] == '.' then 0 else 1 + DotIndex(s[1..])
  }

  /** `Decimal(text)` for plain `[sign]digits[.digits]` text. */
  function ParseDecimal(s: string): Option<(int, int)>
  {
    var neg := |s| > 0 && s[0] == '-';
    var body := if |s| > 0 && (s[0] == '-' || s[0] == '+') then s[1..] else s;
    var k := DotIndex(body);
    var whole := body[..k];
    var frac := if k < |body| then body[k + 1..] else "";
    if |whole| + |frac| == 0 || !AllDigits(whole) || !AllDigits(frac) then None
    else
      assert AllDigits(whole + frac);
      var magnitude := DigitsValue(whole + frac);
      Some((if neg then -(magnitude as int) else magnitude, -|frac|))
  }

  /** `Decimal(value)` for the values a decimal attribute may hold. */
  function DecimalOf(v: Value): Option<(int, int)>
  {
    match v
    case Dec(c, e) => Some((c, e))
    case Int(i) => Some((i, 0))
    case Bool(b) => Some((if b then 1 else 0, 0))
    case Str(s) => ParseDecimal(s)
    case _ => None
  }

  /**
   * `to_db_decimal`: `None` stays `None`; otherwise the value quantised to
   * `places` decimal places, then normalised, so it never carries more than
   * `places` fractional digits.
   */
  function ToDbDecimal(places: nat, v: Value): (r: Result<Value, Error>)
    ensures v == Null ==> r == Ok(Null)
    ensures v != Null && DecimalOf(v).None? ==> r == Err(DecimalConversionError)
    ensures r.Ok? && v != Null ==> r.value.Dec? && r.value.exp >= -(places as int)
  {
    if v == Null then Ok(Null)
    else match DecimalOf(v)
      case None => Err(DecimalConversionError)
      case Some((c, e)) =>
        var q := Quantize(c, e, places);
        Ok(Normalize(q.coef, q.exp))
  }

  /** `coef * 10^exp` as a whole multiple of `10^target`. */
  function ScaledTo(coef: int, exp: int, target: int): int
    requires target <= exp
  {
    coef * Pow10(exp - target)
  }

  /**
   * A decimal that already fits `places` decimal places is stored with its
   * value unchanged: both are the same multiple of `10^-places`.
   */
  lemma DecimalKeptWhenItFits(places: nat, c: int, e: int)
    requires e >= -(places as int)
    ensures ToDbDecimal(places, Dec(c, e)).Ok?
    ensures var r := ToDbDecimal(places, Dec(c, e)).value;
            r.Dec? && r.exp >= -(places as int)
            && ScaledTo(r.coef, r.exp, -(places as int)) == ScaledTo(c, e, -(places as int))
  {
  }

  // --------------------------------------------------------------- datetimes

  function Digit(d: nat): char
    requires d < 10
  {
    ('0' as int + d) as char
  }

  /** `n` in decimal, left-padded with zeros to at least `width` digits (`"%0*d"`). */
  function Padded(n: nat, width: nat): string
    decreases width + n
  {
    if n < 10 && width <= 1 then [Digit(n)]
    else Padded(n / 10, if width > 0 then width - 1 else 0) + [Digit(n % 10)]
  }

  /** `str(datetime)`: `YYYY-MM-DD HH:MM:SS`, with `.ffffff` when there are microseconds. */
  function DateTimeText(t: DateTime): string
  {
    Padded(t.year, 4) + "-" + Padded(t.month, 2) + "-" + Padded(t.day, 2) + " "
    + Padded(t.hour, 2) + ":" + Padded(t.minute, 2) + ":" + Padded(t.second, 2)
    + (if t.microsecond != 0 then "." + Padded(t.microsecond, 6) else "")
  }

  /**
   * `to_db_datetime` as a value: what it returns and what it writes back to
   * the instance attribute, given the field's flags, the value passed in,
   * the attribute's current value and the clock reading `now`.
   */
  function DatetimeCoercion(autoNow: bool, autoNowAdd: bool, value: Value, current: Value, now: DateTime)
    : (c: Coerced<Error>)
    ensures c.writeBack.Some? <==> autoNow || (autoNowAdd && current == Null)
    ensures c.writeBack.Some? ==> c.writeBack == Some(Time(now)) && c.out == Ok(Str(DateTimeText(now)))
    ensures c.writeBack.None? ==> c.out == Ok(if value.Time? then Str(DateTimeText(value.dt)) else Null)
  {
    if autoNow then Coerced(Ok(Str(DateTimeText(now))), Some(Time(now)))
    else if autoNowAdd && current == Null then Coerced(Ok(Str(DateTimeText(now))), Some(Time(now)))
    else Coerced(Ok(if value.Time? then Str(DateTimeText(value.dt)) else Null), None)
  }

  /** With `auto_now` the value passed in and the current attribute play no part. */
  lemma AutoNowIgnoresValue(autoNowAdd: bool, v1: Value, c1: Value, v2: Value, c2: Value, now: DateTime)
    ensures DatetimeCoercion(true, autoNowAdd, v1, c1, now) == DatetimeCoercion(true, autoNowAdd, v2, c2, now)
  {
  }

  /**
   * `to_db_datetime`: serialises a datetime attribute; with `auto_now`, or
   * with `auto_now_add` on an attribute still `None`, it substitutes the
   * clock reading and stores it on the instance.
   */
  method ToDbDatetime(field: Field, value: Value, inst: Instance, now: DateTime) returns (r: Value)
    requires field.kind.DatetimeField?
    modifies inst
    ensures var c := DatetimeCoercion(field.kind.autoNow, field.kind.autoNowAdd, value,
                                      Get(old(inst.values), field.name), now);
            Ok(r) == c.out && inst.values == WriteBack(old(inst.values), field.name, c.writeBack)
    ensures inst.attached == old(inst.attached)
  {
    if field.kind.autoNow {
      inst.values := inst.values[field.name := Time(now)];
      return Str(DateTimeText(now));
    }
    if field.kind.autoNowAdd && Get(inst.values, field.name) == Null {
      inst.values := inst.values[field.name := Time(now)];
      return Str(DateTimeText(now));
    }
    if value.Time? {
      return Str(DateTimeText(value.dt));
    }
    return Null;
  }

  // ----------------------------------------------------------------- tables

  /** The entries of `TO_DB_OVERRIDE`. */
  datatype Override = BoolOverride | DecimalOverride | DatetimeOverride

  /** `TO_DB_OVERRIDE`: keyed by the exact field class. */
  function ToDbOverride(kind: FieldKind): (o: Option<Override>)
    ensures o.None? <==> kind.OtherField?
  {
    match kind
    case BooleanField => Some(BoolOverride)
    case DecimalField(_) => Some(DecimalOverride)
    case DatetimeField(_, _) => Some(DatetimeOverride)
    case OtherField(_) => None
  }

  const ExplainPrefix: string := "EXPLAIN QUERY PLAN"

  /** `_prepare_insert_statement`: one `?` parameter per column. */
  function PrepareInsertStatement(table: string, columns: seq<string>): (stmt: InsertStmt)
    ensures stmt.table == table && stmt.columns == columns
    ensures |stmt.placeholders| == |columns|
    ensures forall j :: 0 <= j < |stmt.placeholders| ==> stmt.placeholders[j] == "?"
  {
    InsertStmt(table, columns, seq(|columns|, _ => "?"))
  }
}
