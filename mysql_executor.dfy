/**
 * The MySQL executor: LIKE-based replacements for the six text filters, the
 * structured EXPLAIN prefix and the `%s`-placeholder INSERT statement.
 */
module MySQLExecutor {
  import opened Wrappers
  import opened Sql

  /** `mysql_contains`: `CAST(field AS CHAR) LIKE '%value%'`. */
  function MysqlContains(field: string, value: string): Criterion
  {
    Like(CastChar(FieldRef(field)), Text("%" + value + "%"))
  }

  /** `mysql_starts_with`: `CAST(field AS CHAR) LIKE 'value%'`. */
  function MysqlStartsWith(field: string, value: string): Criterion
  {
    Like(CastChar(FieldRef(field)), Text(value + "%"))
  }

  /** `mysql_ends_with`: `CAST(field AS CHAR) LIKE '%value'`. */
  function MysqlEndsWith(field: string, value: string): Criterion
  {
    Like(CastChar(FieldRef(field)), Text("%" + value))
  }

  /** `mysql_insensitive_contains`: both sides of the contains pattern upper-cased. */
  function MysqlInsensitiveContains(field: string, value: string): Criterion
  {
    Like(Upper(CastChar(FieldRef(field))), Upper(Text("%" + value + "%")))
  }

  /** `mysql_insensitive_starts_with`. */
  function MysqlInsensitiveStartsWith(field: string, value: string): Criterion
  {
    Like(Upper(CastChar(FieldRef(field))), Upper(Text(value + "%")))
  }

  /** `mysql_insensitive_ends_with`. */
  function MysqlInsensitiveEndsWith(field: string, value: string): Criterion
  {
    Like(Upper(CastChar(FieldRef(field))), Upper(Text("%" + value)))
  }

  /** `FILTER_FUNC_OVERRIDE`: the six text filters and nothing else. */
  function FilterFuncOverride(f: FilterFunc): Option<(string, string) -> Criterion>
  {
    match f
    case Contains => Some(MysqlContains)
    case StartsWith => Some(MysqlStartsWith)
    case EndsWith => Some(MysqlEndsWith)
    case InsensitiveContains => Some(MysqlInsensitiveContains)
    case InsensitiveStartsWith => Some(MysqlInsensitiveStartsWith)
    case InsensitiveEndsWith => Some(MysqlInsensitiveEndsWith)
    case OtherFilter(_) => None
  }

  const ExplainPrefix: string := "EXPLAIN FORMAT=JSON"

  /** `_prepare_insert_statement`: one `%s` parameter per column. */
  function PrepareInsertStatement(table: string, columns: seq<string>): (stmt: InsertStmt)
    ensures stmt.table == table && stmt.columns == columns
    ensures |stmt.placeholders| == |columns|
    ensures forall j :: 0 <= j < |stmt.placeholders| ==> stmt.placeholders[j] == "%s"
  {
    InsertStmt(table, columns, seq(|columns|, _ => "%s"))
  }

  /** What each text filter means on a column holding `x`, for a search value `v`. */
  predicate FilterMeaning(f: FilterFunc, v: string, x: string)
  {
    match f
    case Contains => IsSubstring(v, x)
    case StartsWith => IsPrefix(v, x)
    case EndsWith => IsSuffix(v, x)
    case InsensitiveContains => IsSubstring(UpperText(v), UpperText(x))
    case InsensitiveStartsWith => IsPrefix(UpperText(v), UpperText(x))
    case InsensitiveEndsWith => IsSuffix(UpperText(v), UpperText(x))
    case OtherFilter(_) => false
  }

  /** The cast column evaluates to the column's text, upper-cased under `Upper`. */
  lemma CastColumnText(field: string, x: string)
    ensures Eval(CastChar(FieldRef(field)), x) == x
    ensures Eval(Upper(CastChar(FieldRef(field))), x) == UpperText(x)
  {
    assert Eval(FieldRef(field), x) == x;
  }

  /** An upper-cased literal evaluates to the upper-cased text. */
  lemma UpperLiteralText(p: string, x: string)
    ensures Eval(Upper(Text(p)), x) == UpperText(p)
  {
    assert Eval(Text(p), x) == p;
  }

  /**
   * Each override selects exactly the rows its filter describes, as long as
   * the search value holds no LIKE wildcard and no backslash (MySQL's LIKE
   * escape character); for any other filter there is no override.
   */
  lemma OverrideMeaning(f: FilterFunc, field: string, v: string, x: string)
    requires NoLikeSpecials(v)
    ensures FilterFuncOverride(f).None? <==> f.OtherFilter?
    ensures FilterFuncOverride(f).Some? ==>
              (Holds(FilterFuncOverride(f).value(field, v), x) <==> FilterMeaning(f, v, x))
  {
    var u, ux := UpperText(v), UpperText(x);
    CastColumnText(field, x);
    UpperKeepsWildcards(v);
    assert UpperText("%") == "%";
    match f
    case Contains => ContainsPattern(v, x);
    case StartsWith =>
      StartsWithPattern(v, x);
    case EndsWith => EndsWithPattern(v, x);
    case InsensitiveContains =>
      UpperConcat("%" + v, "%");
      UpperConcat("%", v);
      UpperLiteralText("%" + v + "%", x);
      ContainsPattern(u, ux);
    case InsensitiveStartsWith =>
      UpperConcat(v, "%");
      UpperLiteralText(v + "%", x);
      StartsWithPattern(u, ux);
    case InsensitiveEndsWith =>
      UpperConcat("%", v);
      UpperLiteralText("%" + v, x);
      EndsWithPattern(u, ux);
    case OtherFilter(_) =>
  }

  /**
   * The search value is spliced into the pattern verbatim: a `%` in it makes
   * `contains` match every row, and a `_` makes `starts_with` match every
   * non-empty text.
   */
  lemma ValueIsNotEscaped(field: string, x: string)
    ensures Holds(MysqlContains(field, "%"), x)
    ensures Holds(MysqlStartsWith(field, "_"), x) <==> x != []
  {
    assert "%" + "%" + "%" == "%%%";
    PercentMatchesAll(x);
    if x != [] {
      PercentMatchesAll(x[1..]);
    }
    CastColumnText(field, x);
    assert "_%"[0] == '_' && "_%"[1..] == "%";
  }
}
