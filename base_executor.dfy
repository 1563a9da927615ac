/**
 * The backend-independent executor: the INSERT path with its process-wide
 * statement cache, value coercion through the backend's overrides, SELECT
 * into instances, and relation prefetching over a list of instances.
 * `Dialect` stands for the executor class in use: the base class or one of
 * the MySQL and SQLite subclasses, whose class attributes it selects.
 */
module BaseExecutor {
  import opened Wrappers
  import opened Models
  import opened Errors
  import opened Sql
  import opened Paths
  import opened Prefetch
  import MySQLExec = MySQLExecutor
  import SqliteExec = SqliteExecutor

  datatype Dialect = Base | MySQL | SQLite

  /** `EXPLAIN_PREFIX` of each executor class. */
  function ExplainPrefix(d: Dialect): string
  {
    match d
    case Base => "EXPLAIN"
    case MySQL => MySQLExec.ExplainPrefix
    case SQLite => SqliteExec.ExplainPrefix
  }

  /** The statement `execute_explain` sends: the prefix, one space, the query. */
  function ExplainSql(d: Dialect, query: string): (sql: string)
    ensures |sql| == |ExplainPrefix(d)| + 1 + |query|
    ensures sql[..|ExplainPrefix(d)|] == ExplainPrefix(d)
    ensures sql[|ExplainPrefix(d)|] == ' '
    ensures sql[|ExplainPrefix(d)| + 1..] == query
  {
    ExplainPrefix(d) + " " + query
  }

  /** `get_overridden_filter_func`: a lookup in the class's `FILTER_FUNC_OVERRIDE`. */
  function GetOverriddenFilterFunc(d: Dialect, f: FilterFunc): (r: Option<(string, string) -> Criterion>)
    ensures r.Some? <==> d == MySQL && !f.OtherFilter?
    ensures d == MySQL ==> r == MySQLExec.FilterFuncOverride(f)
  {
    if d == MySQL then MySQLExec.FilterFuncOverride(f) else None
  }

  /** `TO_DB_OVERRIDE` lookup by field class: only the SQLite executor has entries. */
  function ToDbOverride(d: Dialect, kind: FieldKind): (o: Option<SqliteExec.Override>)
    ensures o.Some? <==> d == SQLite && !kind.OtherField?
  {
    if d == SQLite then SqliteExec.ToDbOverride(kind) else None
  }

  /** `_prepare_insert_statement`: abstract in the base class. */
  function InsertStatement(d: Dialect, table: string, columns: seq<string>): (r: Result<InsertStmt, Error>)
    ensures r.Err? <==> d == Base
    ensures r.Err? ==> r.error == NotImplementedError
    ensures r.Ok? ==> r.value.table == table && r.value.columns == columns
                      && |r.value.placeholders| == |columns|
  {
    match d
    case Base => Err(NotImplementedError)
    case MySQL => Ok(MySQLExec.PrepareInsertStatement(table, columns))
    case SQLite => Ok(SqliteExec.PrepareInsertStatement(table, columns))
  }

  // ---------------------------------------------------------------------
  // Insert columns

  /** The non-generated field names of a projection, in projection order. */
  function RegularColumns(fieldsMap: map<string, Field>, proj: seq<(string, string)>): seq<string>
    requires forall i :: 0 <= i < |proj| ==> proj[i].0 in fieldsMap
    decreases |proj|
  {
    if proj == [] then []
    else
      var init, last := proj[..|proj| - 1], proj[|proj| - 1];
      RegularColumns(fieldsMap, init) + (if !fieldsMap[last.0].generated then [last.0] else [])
  }

  /** `fields_db_projection[name]`: the column of the first entry keyed `name`. */
  function DbColumn(proj: seq<(string, string)>, name: string): string
  {
    if proj == [] then "" else if proj[0].0 == name then proj[0].1 else DbColumn(proj[1..], name)
  }

  /** The position of the first projection entry keyed `name` (`|proj|` if none). */
  function KeyIndex(proj: seq<(string, string)>, name: string): (k: nat)
    ensures k <= |proj|
    ensures k < |proj| ==> proj[k].0 == name
    ensures forall i :: 0 <= i < k ==> proj[i].0 != name
  {
    if proj == [] then 0 else if proj[0].0 == name then 0 else 1 + KeyIndex(proj[1..], name)
  }

  /** The columns of the regular fields, in the same order. */
  function DbColumns(proj: seq<(string, string)>, regular: seq<string>): (cols: seq<string>)
    ensures |cols| == |regular|
    ensures forall j :: 0 <= j < |regular| ==> cols[j] == DbColumn(proj, regular[j])
  {
    seq(|regular|, j requires 0 <= j < |regular| => DbColumn(proj, regular[j]))
  }

  /** Each field is paired with the column the projection gives it. */
  lemma {:induction false} DbColumnIsProjected(proj: seq<(string, string)>, name: string)
    requires exists i :: 0 <= i < |proj| && proj[i].0 == name
    ensures (name, DbColumn(proj, name)) in proj
    ensures (name, DbColumn(proj, name)) == proj[KeyIndex(proj, name)]
    decreases |proj|
  {
    if proj[0].0 != name {
      var i :| 0 <= i < |proj| && proj[i].0 == name;
      assert proj[1..][i - 1].0 == name;
      DbColumnIsProjected(proj[1..], name);
    }
  }

  /** The regular columns of a projection prefix are its non-generated fields. */
  lemma {:induction false} RegularColumnsMembers(meta: ModelMeta, n: nat)
    requires meta.WellFormed()
    requires n <= |meta.fieldsDbProjection|
    ensures forall name :: name in RegularColumns(meta.fieldsMap, meta.fieldsDbProjection[..n]) <==>
              (exists i :: 0 <= i < n && meta.fieldsDbProjection[i].0 == name) && !meta.fieldsMap[name].generated
    decreases n
  {
    var p := meta.fieldsDbProjection;
    if n > 0 {
      RegularColumnsMembers(meta, n - 1);
      assert p[..n][..n - 1] == p[..n - 1];
      forall name | (exists i :: 0 <= i < n && p[i].0 == name) && !meta.fieldsMap[name].generated
        ensures name in RegularColumns(meta.fieldsMap, p[..n])
      {
        var i :| 0 <= i < n && p[i].0 == name;
        if i < n - 1 {
          assert exists i' :: 0 <= i' < n - 1 && p[i'].0 == name;
        }
      }
    }
  }

  /** `r` lists names at strictly increasing positions of `p`, all below `n`. */
  predicate InProjectionOrder(p: seq<(string, string)>, r: seq<string>, n: nat)
  {
    && (forall j :: 0 <= j < |r| ==> KeyIndex(p, r[j]) < n)
    && (forall j, j' :: 0 <= j < j' < |r| ==> KeyIndex(p, r[j]) < KeyIndex(p, r[j']))
  }

  /** The regular columns of a projection prefix keep projection order. */
  lemma {:induction false} RegularColumnsInOrder(meta: ModelMeta, q: seq<(string, string)>)
    requires meta.WellFormed()
    requires |q| <= |meta.fieldsDbProjection|
    requires forall i :: 0 <= i < |q| ==> q[i] == meta.fieldsDbProjection[i]
    ensures InProjectionOrder(meta.fieldsDbProjection, RegularColumns(meta.fieldsMap, q), |q|)
    decreases |q|
  {
    var p := meta.fieldsDbProjection;
    if q != [] {
      var n := |q|;
      var init, last := q[..n - 1], q[n - 1];
      RegularColumnsInOrder(meta, init);
      var ri := RegularColumns(meta.fieldsMap, init);
      var r := RegularColumns(meta.fieldsMap, q);
      assert r == ri + (if !meta.fieldsMap[last.0].generated then [last.0] else []);
      assert last == p[n - 1];
      assert forall i :: 0 <= i < n - 1 ==> p[i].0 != p[n - 1].0;
      KeyIndexIsFirst(p, last.0, n - 1);
      forall j | 0 <= j < |r| ensures KeyIndex(p, r[j]) < n && (j < |ri| ==> KeyIndex(p, r[j]) < n - 1) {
        if j < |ri| {
          assert r[j] == ri[j];
        } else {
          assert r[j] == last.0;
        }
      }
    }
  }

  /**
   * The regular columns are exactly the projection's non-generated fields,
   * each once, in projection order.
   */
  lemma RegularColumnsExact(meta: ModelMeta)
    requires meta.WellFormed()
    ensures forall name :: name in RegularColumns(meta.fieldsMap, meta.fieldsDbProjection) <==>
              (exists i :: 0 <= i < |meta.fieldsDbProjection| && meta.fieldsDbProjection[i].0 == name)
              && !meta.fieldsMap[name].generated
    ensures InProjectionOrder(meta.fieldsDbProjection, RegularColumns(meta.fieldsMap, meta.fieldsDbProjection),
                              |meta.fieldsDbProjection|)
  {
    var p := meta.fieldsDbProjection;
    RegularColumnsMembers(meta, |p|);
    RegularColumnsInOrder(meta, p);
    assert p[..|p|] == p;
  }

  /** `KeyIndex` is the first occurrence. */
  lemma {:induction false} KeyIndexIsFirst(p: seq<(string, string)>, n: string, k: nat)
    requires k < |p| && p[k].0 == n
    requires forall i :: 0 <= i < k ==> p[i].0 != n
    ensures KeyIndex(p, n) == k
    decreases k
  {
    if k > 0 {
      assert p[1..][k - 1].0 == n;
      KeyIndexIsFirst(p[1..], n, k - 1);
    }
  }

  /** What `_prepare_insert_columns` returns, and the statement built from it. */
  datatype InsertPlan = InsertPlan(regularColumns: seq<string>, columns: seq<string>, statement: InsertStmt)

  /** The plan an executor of dialect `d` builds for `meta`. */
  function PlanFor(d: Dialect, meta: ModelMeta): (r: Result<InsertPlan, Error>)
    requires meta.WellFormed()
    ensures r.Ok? ==> forall j :: 0 <= j < |r.value.regularColumns| ==> r.value.regularColumns[j] in meta.fieldsMap
  {
    PlanColumnsDeclared(meta);
    var regular := RegularColumns(meta.fieldsMap, meta.fieldsDbProjection);
    var columns := DbColumns(meta.fieldsDbProjection, regular);
    match InsertStatement(d, meta.table, columns)
    case Err(e) => Err(e)
    case Ok(stmt) => Ok(InsertPlan(regular, columns, stmt))
  }

  /** Every field of a plan is a declared field. */
  lemma PlanColumnsDeclared(meta: ModelMeta)
    requires meta.WellFormed()
    ensures forall j :: 0 <= j < |RegularColumns(meta.fieldsMap, meta.fieldsDbProjection)| ==>
              RegularColumns(meta.fieldsMap, meta.fieldsDbProjection)[j] in meta.fieldsMap
  {
    RegularColumnsExact(meta);
    var r := RegularColumns(meta.fieldsMap, meta.fieldsDbProjection);
    forall j | 0 <= j < |r| ensures r[j] in meta.fieldsMap {
      assert r[j] in r;
    }
  }

  /** The plan's columns pair up with its fields through the projection, one placeholder each. */
  predicate PlanMatches(meta: ModelMeta, p: InsertPlan)
  {
    && |p.columns| == |p.regularColumns| == |p.statement.placeholders|
    && p.statement.columns == p.columns && p.statement.table == meta.table
    && (forall j :: 0 <= j < |p.columns| ==> (p.regularColumns[j], p.columns[j]) in meta.fieldsDbProjection)
  }

  /**
   * A plan's statement inserts one placeholder per column, and the i-th
   * column is the projected column of the i-th regular field.
   */
  lemma PlanShape(d: Dialect, meta: ModelMeta)
    requires meta.WellFormed()
    ensures PlanFor(d, meta).Err? <==> d == Base
    ensures PlanFor(d, meta).Ok? ==> PlanMatches(meta, PlanFor(d, meta).value)
  {
    var proj := meta.fieldsDbProjection;
    RegularColumnsExact(meta);
    var r := RegularColumns(meta.fieldsMap, proj);
    forall j | 0 <= j < |r| ensures (r[j], DbColumn(proj, r[j])) in proj {
      assert r[j] in r;
      DbColumnIsProjected(proj, r[j]);
    }
  }

  // ---------------------------------------------------------------------
  // Insert values

  /**
   * A field's own `to_db_value(value, instance)`: given the field, the value
   * passed in and the current value of the field's own attribute, the value
   * to bind or the exception raised, and what it writes back to that
   * attribute, if anything.
   */
  type ToDbValue = (Field, Value, Value) -> Coerced<Error>

  /**
   * `_field_to_db` as a value: the backend's override for the field's class
   * if it has one, otherwise the field's own `to_db_value`, given as `conv`.
   * `current` is the attribute the field itself holds, which the SQLite
   * datetime override and `conv` consult and may overwrite.
   */
  function Coerce(d: Dialect, f: Field, value: Value, current: Value, now: DateTime, conv: ToDbValue)
    : (c: Coerced<Error>)
    ensures ToDbOverride(d, f.kind).None? ==> c == conv(f, value, current)
    ensures ToDbOverride(d, f.kind).Some? && c.writeBack.Some? ==> f.kind.DatetimeField?
    ensures ToDbOverride(d, f.kind).Some? && c.out.Err? ==>
              f.kind.DecimalField? && c.out.error == DecimalConversionError
  {
    match ToDbOverride(d, f.kind)
    case None => conv(f, value, current)
    case Some(BoolOverride) => Coerced(Ok(SqliteExec.ToDbBool(value)), None)
    case Some(DecimalOverride) => Coerced(SqliteExec.ToDbDecimal(f.kind.decimalPlaces, value), None)
    case Some(DatetimeOverride) =>
      SqliteExec.DatetimeCoercion(f.kind.autoNow, f.kind.autoNowAdd, value, current, now)
  }

  /**
   * `_prepare_insert_values` as a value: the coerced values in column order,
   * or the first error, together with the instance's attributes after the
   * write-backs made up to that point. A column that is not a declared field
   * raises `KeyError` at the `fields_map` lookup.
   */
  function InsertValues(d: Dialect, meta: ModelMeta, cols: seq<string>, vals: map<string, Value>,
                        now: DateTime, conv: ToDbValue): (Result<seq<Value>, Error>, map<string, Value>)
    decreases |cols|
  {
    if cols == [] then (Ok([]), vals)
    else if cols[0] !in meta.fieldsMap then (Err(KeyError(cols[0])), vals)
    else
      var f := meta.fieldsMap[cols[0]];
      var c := Coerce(d, f, Get(vals, cols[0]), Get(vals, f.name), now, conv);
      var vals' := WriteBack(vals, f.name, c.writeBack);
      if c.out.Err? then (Err(c.out.error), vals')
      else Prepend([c.out.value], InsertValues(d, meta, cols[1..], vals', now, conv))
  }

  /** Values already produced, in front of the outcome of the rest. */
  function Prepend(acc: seq<Value>, rest: (Result<seq<Value>, Error>, map<string, Value>))
    : (Result<seq<Value>, Error>, map<string, Value>)
  {
    (if rest.0.Ok? then Ok(acc + rest.0.value) else rest.0, rest.1)
  }

  /** `out` holds, column by column, the coercion of the attribute as it is in `vals`. */
  predicate CoercedFromOriginal(d: Dialect, meta: ModelMeta, cols: seq<string>, vals: map<string, Value>,
                                now: DateTime, conv: ToDbValue, out: seq<Value>)
  {
    && |out| == |cols|
    && forall j :: 0 <= j < |cols| ==>
         && cols[j] in meta.fieldsMap
         && Coerce(d, meta.fieldsMap[cols[j]], Get(vals, cols[j]), Get(vals, cols[j]), now, conv).out == Ok(out[j])
  }

  /**
   * With distinct columns and fields named as they are keyed, every insert
   * value is the coercion of the attribute as it was before the call: a
   * write-back only touches a column already serialised.
   */
  lemma {:induction false} InsertValuesUseOriginalAttributes(d: Dialect, meta: ModelMeta, cols: seq<string>,
                                                             vals: map<string, Value>, now: DateTime,
                                                             conv: ToDbValue)
    requires meta.WellFormed()
    requires forall j, j' :: 0 <= j < j' < |cols| ==> cols[j] != cols[j']
    ensures InsertValues(d, meta, cols, vals, now, conv).0.Ok? ==>
              CoercedFromOriginal(d, meta, cols, vals, now, conv, InsertValues(d, meta, cols, vals, now, conv).0.value)
    decreases |cols|
  {
    if cols != [] && cols[0] in meta.fieldsMap {
      var f := meta.fieldsMap[cols[0]];
      var c := Coerce(d, f, Get(vals, cols[0]), Get(vals, f.name), now, conv);
      var vals' := WriteBack(vals, f.name, c.writeBack);
      if c.out.Ok? {
        var rest := cols[1..];
        InsertValuesUseOriginalAttributes(d, meta, rest, vals', now, conv);
        forall j | 0 <= j < |rest| ensures Get(vals', rest[j]) == Get(vals, rest[j]) {
          assert rest[j] == cols[j + 1];
        }
        var (r, _) := InsertValues(d, meta, cols, vals, now, conv);
        if r.Ok? {
          var rr := InsertValues(d, meta, rest, vals', now, conv).0;
          assert r.value == [c.out.value] + rr.value;
          forall j | 0 <= j < |cols|
            ensures && cols[j] in meta.fieldsMap
                    && Coerce(d, meta.fieldsMap[cols[j]], Get(vals, cols[j]), Get(vals, cols[j]), now, conv).out
                       == Ok(r.value[j])
          {
            if j > 0 { assert cols[j] == rest[j - 1]; }
          }
        }
      }
    }
  }

  /**
   * The ways one column of an insert can raise `e`: it is not a declared
   * field; it is an SQLite decimal field whose value does not convert; or no
   * override applies and the field's own `to_db_value` raises `e`.
   */
  ghost predicate ColumnCanRaise(d: Dialect, meta: ModelMeta, col: string, e: Error, conv: ToDbValue)
  {
    if col !in meta.fieldsMap then e == KeyError(col)
    else
      var f := meta.fieldsMap[col];
      || (d == SQLite && f.kind.DecimalField? && e == DecimalConversionError)
      || (ToDbOverride(d, f.kind).None? && exists v, cur :: conv(f, v, cur).out == Err(e))
  }

  /**
   * An insert fails only with what one of its columns can raise: a missing
   * field, an unconvertible SQLite decimal, or the field's own serialiser.
   */
  lemma {:induction false} InsertValuesErrors(d: Dialect, meta: ModelMeta, cols: seq<string>,
                                              vals: map<string, Value>, now: DateTime, conv: ToDbValue)
    ensures InsertValues(d, meta, cols, vals, now, conv).0.Err? ==>
              exists j :: 0 <= j < |cols| &&
                ColumnCanRaise(d, meta, cols[j], InsertValues(d, meta, cols, vals, now, conv).0.error, conv)
    decreases |cols|
  {
    var r := InsertValues(d, meta, cols, vals, now, conv).0;
    if cols != [] && r.Err? {
      if cols[0] !in meta.fieldsMap {
        assert ColumnCanRaise(d, meta, cols[0], r.error, conv);
      } else {
        var f := meta.fieldsMap[cols[0]];
        var cur := Get(vals, f.name);
        var c := Coerce(d, f, Get(vals, cols[0]), cur, now, conv);
        var vals' := WriteBack(vals, f.name, c.writeBack);
        if c.out.Err? {
          if ToDbOverride(d, f.kind).None? {
            assert conv(f, Get(vals, cols[0]), cur).out == Err(r.error);
          }
          assert ColumnCanRaise(d, meta, cols[0], r.error, conv);
        } else {
          InsertValuesErrors(d, meta, cols[1..], vals', now, conv);
          var j :| 0 <= j < |cols[1..]| && ColumnCanRaise(d, meta, cols[1..][j], r.error, conv);
          assert cols[j + 1] == cols[1..][j];
        }
      }
    }
  }

  /**
   * With every column declared and a serialiser that never raises, an insert
   * fails only on SQLite, with an unconvertible decimal; on MySQL it succeeds.
   */
  lemma InsertValuesFailOnlyOnDecimal(d: Dialect, meta: ModelMeta, cols: seq<string>,
                                      vals: map<string, Value>, now: DateTime, conv: ToDbValue)
    requires forall j :: 0 <= j < |cols| ==> cols[j] in meta.fieldsMap
    requires forall f, v, cur :: conv(f, v, cur).out.Ok?
    ensures InsertValues(d, meta, cols, vals, now, conv).0.Err? ==>
              && d == SQLite
              && InsertValues(d, meta, cols, vals, now, conv).0.error == DecimalConversionError
              && exists j :: 0 <= j < |cols| && meta.fieldsMap[cols[j]].kind.DecimalField?
  {
    InsertValuesErrors(d, meta, cols, vals, now, conv);
  }

  // ---------------------------------------------------------------------
  // The insert cache

  /** The cache key: connection name and table joined by a colon. */
  function CacheKey(connectionName: string, table: string): string
  {
    connectionName + ":" + table
  }

  /** Connection names without a colon give every (connection, table) pair its own key. */
  lemma CacheKeyInjective(c1: string, t1: string, c2: string, t2: string)
    requires ':' !in c1 && ':' !in c2
    requires CacheKey(c1, t1) == CacheKey(c2, t2)
    ensures c1 == c2 && t1 == t2
  {
    var k := CacheKey(c1, t1);
    assert k[|c1|] == ':' && k[|c2|] == ':';
    assert forall i :: 0 <= i < |c1| ==> k[i] == c1[i] && k[i] != ':';
    assert forall i :: 0 <= i < |c2| ==> k[i] == c2[i] && k[i] != ':';
    assert c1 == k[..|c1|] && c2 == k[..|c2|];
    assert t1 == k[|c1| + 1..] && t2 == k[|c2| + 1..];
  }

  /** A colon inside a connection name lets two different pairs share a key. */
  lemma CacheKeyCollision()
    ensures CacheKey("a:b", "c") == CacheKey("a", "b:c")
  {
  }

  /**
   * The plan `execute_insert` uses under `key`: the cached one if there is
   * one, whichever executor stored it, otherwise the one this executor builds.
   */
  function CachedPlan(entries: map<string, InsertPlan>, key: string, d: Dialect, meta: ModelMeta)
    : Result<InsertPlan, Error>
    requires meta.WellFormed()
  {
    if key in entries then Ok(entries[key]) else PlanFor(d, meta)
  }

  /**
   * Storing the plan that was built does not change the plan the next insert
   * under the same key uses, and an entry stored under the key is used
   * whatever this executor would build.
   */
  lemma CachedPlanReused(entries: map<string, InsertPlan>, key: string, d: Dialect, meta: ModelMeta)
    requires meta.WellFormed()
    ensures key !in entries && PlanFor(d, meta).Ok? ==>
              CachedPlan(entries[key := PlanFor(d, meta).value], key, d, meta) == PlanFor(d, meta)
    ensures forall p :: CachedPlan(entries[key := p], key, d, meta) == Ok(p)
  {
  }

  /** `INSERT_CACHE`: shared by every executor of the process. */
  class InsertCache {
    var entries: map<string, InsertPlan>

    constructor ()
      ensures entries == map[]
    {
      entries := map[];
    }
  }

  /** What `db.execute_insert` was called with. */
  datatype InsertCall = InsertCall(statement: InsertStmt, values: seq<Value>)

  /** The forwarded prefetches recorded for `f`, none if it has no entry. */
  function Q(m: map<string, set<string>>, f: string): set<string>
  {
    if f in m then m[f] else {}
  }

  /** Merge of `prefetch_map` into `_prefetch_queries`: each field's query gains the forwarded prefetches. */
  function MergeQueries(queries: map<string, set<string>>, pmap: map<string, set<string>>): (m: map<string, set<string>>)
    ensures m.Keys == queries.Keys + pmap.Keys
    ensures forall f :: Q(m, f) == Q(queries, f) + Q(pmap, f)
  {
    map f | f in queries.Keys + pmap.Keys :: Q(queries, f) + Q(pmap, f)
  }

  /** `queries` holds `base` merged with the relations of `pmap` outside `todo`. */
  ghost predicate PartlyMerged(queries: map<string, set<string>>, base: map<string, set<string>>,
                         pmap: map<string, set<string>>, todo: set<string>)
  {
    && queries.Keys == base.Keys + (pmap.Keys - todo)
    && forall g :: Q(queries, g) == Q(base, g) + (if g in todo then {} else Q(pmap, g))
  }

  /** One iteration of `_make_prefetch_queries` merges one more relation. */
  lemma MergeStep(queries: map<string, set<string>>, base: map<string, set<string>>,
                  pmap: map<string, set<string>>, todo: set<string>, f: string)
    requires todo <= pmap.Keys && f in todo
    requires PartlyMerged(queries, base, pmap, todo)
    ensures PartlyMerged(queries[f := Q(queries, f) + pmap[f]], base, pmap, todo - {f})
  {
    var q' := queries[f := Q(queries, f) + pmap[f]];
    forall g ensures Q(q', g) == Q(base, g) + (if g in todo - {f} then {} else Q(pmap, g)) {
      if g != f {
        assert Q(q', g) == Q(queries, g);
      }
    }
  }

  /**
   * The loop of `_make_prefetch_queries`: each relation of `pmap`, in any
   * order, gets its existing query (or a new one) extended with its
   * forwarded prefetches.
   */
  method MergeForwarded(pmap: map<string, set<string>>, base: map<string, set<string>>)
    returns (queries: map<string, set<string>>)
    ensures queries == MergeQueries(base, pmap)
  {
      queries := base;
      var todo := pmap.Keys;
      MergeStart(base, pmap);
      while todo != {}
        invariant todo <= pmap.Keys
        invariant PartlyMerged(queries, base, pmap, todo)
        decreases |todo|
      {
        var f :| f in todo;
        var query := if f in queries then queries[f] else {};
        MergeStep(queries, base, pmap, todo, f);
        queries := queries[f := query + pmap[f]];
        todo := todo - {f};
      }
      MergeDone(queries, base, pmap);
  }

  /** Before the loop nothing of `pmap` is merged. */
  lemma MergeStart(base: map<string, set<string>>, pmap: map<string, set<string>>)
    ensures PartlyMerged(base, base, pmap, pmap.Keys)
  {
    forall g ensures Q(base, g) == Q(base, g) + {} {
    }
  }

  /** After the loop the map is the merge. */
  lemma MergeDone(m: map<string, set<string>>, base: map<string, set<string>>, pmap: map<string, set<string>>)
    requires PartlyMerged(m, base, pmap, {})
    ensures m == MergeQueries(base, pmap)
  {
    var r := MergeQueries(base, pmap);
    forall f | f in m ensures m[f] == r[f] {
      assert Q(m, f) == Q(r, f);
    }
  }

  // ---------------------------------------------------------------------
  // fetch_for_list's prefetch map

  /**
   * The `prefetch_map` that `fetch_for_list` builds from relation paths:
   * each first segment maps to the non-empty remainders seen with it.
   */
  function PrefetchMapOf(rels: seq<string>): map<string, set<string>>
    decreases |rels|
  {
    if rels == [] then map[]
    else
      var m := PrefetchMapOf(rels[..|rels| - 1]);
      var rel := rels[|rels| - 1];
      var cur := if Head(rel) in m then m[Head(rel)] else {};
      m[Head(rel) := if Forwarded(rel) != "" then cur + {Forwarded(rel)} else cur]
  }

  /**
   * The prefetch map has one entry per distinct first segment, holding
   * exactly the non-empty remainders of the paths that start with it.
   */
  lemma {:induction false} PrefetchMapOfContents(rels: seq<string>)
    ensures forall h :: h in PrefetchMapOf(rels) <==> exists j :: 0 <= j < |rels| && Head(rels[j]) == h
    ensures forall h, fw :: h in PrefetchMapOf(rels) ==>
              (fw in PrefetchMapOf(rels)[h] <==>
                 fw != "" && exists j :: 0 <= j < |rels| && Head(rels[j]) == h && Forwarded(rels[j]) == fw)
    decreases |rels|
  {
    if rels != [] {
      var init := rels[..|rels| - 1];
      PrefetchMapOfContents(init);
      assert forall j :: 0 <= j < |init| ==> init[j] == rels[j];
    }
  }

  /** A path with no separator adds its relation with nothing forwarded. */
  lemma PlainRelationForwardsNothing(rel: string)
    ensures !HasSep(rel) ==> Head(rel) == rel && Forwarded(rel) == ""
  {
    PathDecomposes(rel);
    if |Split(rel)| > 1 {
      var i := |Head(rel)|;
      assert rel[i] == '_' && rel[i + 1] == '_';
      assert HasSep(rel);
    }
  }

  /** The position of the first path whose first segment is not a fetch field. */
  function FirstUnknown(fetchFields: set<string>, rels: seq<string>): (k: Option<nat>)
    ensures k.Some? ==> k.value < |rels| && Head(rels[k.value]) !in fetchFields
    ensures k.Some? ==> forall j :: 0 <= j < k.value ==> Head(rels[j]) in fetchFields
    ensures k.None? ==> forall j :: 0 <= j < |rels| ==> Head(rels[j]) in fetchFields
    decreases |rels|
  {
    if rels == [] then None
    else if Head(rels[0]) !in fetchFields then Some(0)
    else match FirstUnknown(fetchFields, rels[1..])
      case None =>
        assert forall j :: 1 <= j < |rels| ==> rels[j] == rels[1..][j - 1];
        None
      case Some(k) =>
        assert forall j :: 1 <= j <= k ==> rels[j] == rels[1..][j - 1];
        Some(k + 1)
  }

  /**
   * The loop of `fetch_for_list`: the prefetch map built from the paths up
   * to the first one whose first segment is not a fetch field, and that
   * path's position if there is one.
   */
  method ParseRelations(fetchFields: set<string>, relations: seq<string>)
    returns (pmap: map<string, set<string>>, unknown: Option<nat>)
    ensures unknown == FirstUnknown(fetchFields, relations)
    ensures unknown.Some? ==> pmap == PrefetchMapOf(relations[..unknown.value])
    ensures unknown.None? ==> pmap == PrefetchMapOf(relations)
  {
    pmap := map[];
    var i := 0;
    while i < |relations|
      invariant 0 <= i <= |relations|
      invariant pmap == PrefetchMapOf(relations[..i])
      invariant forall j :: 0 <= j < i ==> Head(relations[j]) in fetchFields
    {
      assert relations[..i + 1][..i] == relations[..i];
      var parts := Split(relations[i]);
      var first := parts[0];
      assert first == Head(relations[i]);
      if first !in fetchFields {
        return pmap, Some(i);
      }
      if first !in pmap {
        pmap := pmap[first := {}];
      }
      var forwarded := Join(parts[1..]);
      if forwarded != "" {
        pmap := pmap[first := pmap[first] + {forwarded}];
      }
      i := i + 1;
    }
    assert relations[..i] == relations;
    unknown := None;
  }

  /** The error `fetch_for_list` raises for an unknown relation. */
  function RelationNotFound(field: string, table: string): Error
  {
    OperationalError(Message("relation " + field + " for " + table + " not found"))
  }

  // ---------------------------------------------------------------------
  // execute_select's instances

  /** The position of the first custom field absent from the row (`|custom|` if none). */
  function FirstAbsent(row: map<string, Value>, custom: seq<string>): (t: nat)
    ensures t <= |custom|
    ensures t < |custom| ==> custom[t] !in row
    ensures forall t' :: 0 <= t' < t ==> custom[t'] in row
    decreases |custom|
  {
    if custom == [] then 0
    else if custom[0] !in row then 0
    else
      assert forall t' :: 1 <= t' < |custom| ==> custom[t'] == custom[1..][t' - 1];
      1 + FirstAbsent(row, custom[1..])
  }

  /** The custom field whose lookup raises `KeyError` first, row by row. */
  function FirstMissing(rows: seq<map<string, Value>>, custom: seq<string>): (m: Option<string>)
    ensures m.None? <==> forall k, t :: 0 <= k < |rows| && 0 <= t < |custom| ==> custom[t] in rows[k]
    ensures m.Some? ==> m.value in custom
    decreases |rows|
  {
    if rows == [] then None
    else
      var t := FirstAbsent(rows[0], custom);
      if t < |custom| then Some(custom[t])
      else
        assert forall k :: 1 <= k < |rows| ==> rows[k] == rows[1..][k - 1];
        FirstMissing(rows[1..], custom)
  }

  /** `FirstAbsent` is pinned down by the field found missing and all fields before it found. */
  lemma FirstAbsentIs(row: map<string, Value>, custom: seq<string>, j: nat)
    requires j <= |custom|
    requires forall t :: 0 <= t < j ==> custom[t] in row
    requires j < |custom| ==> custom[j] !in row
    ensures FirstAbsent(row, custom) == j
  {
  }

  /** Row `i` raises first when every earlier row holds all the custom fields. */
  lemma {:induction false} FirstMissingAt(rows: seq<map<string, Value>>, custom: seq<string>, i: nat)
    requires i < |rows|
    requires forall k :: 0 <= k < i ==> FirstAbsent(rows[k], custom) == |custom|
    requires FirstAbsent(rows[i], custom) < |custom|
    ensures FirstMissing(rows, custom) == Some(custom[FirstAbsent(rows[i], custom)])
    decreases i
  {
    if i > 0 {
      assert forall k :: 0 <= k < |rows| - 1 ==> rows[1..][k] == rows[k + 1];
      FirstMissingAt(rows[1..], custom, i - 1);
    }
  }

  /** No lookup raises when every row holds all the custom fields. */
  lemma FirstMissingNone(rows: seq<map<string, Value>>, custom: seq<string>)
    requires forall k :: 0 <= k < |rows| ==> FirstAbsent(rows[k], custom) == |custom|
    ensures FirstMissing(rows, custom).None?
  {
    forall k, t | 0 <= k < |rows| && 0 <= t < |custom| ensures custom[t] in rows[k] {
      assert FirstAbsent(rows[k], custom) == |custom|;
    }
  }

  /** The attributes `self.model(**row)` sets: the row's entries for declared fields. */
  function Constructed(meta: ModelMeta, row: map<string, Value>): (m: map<string, Value>)
    ensures forall k :: k in m <==> k in row && k in meta.fieldsMap
    ensures forall k :: k in m ==> m[k] == row[k]
  {
    map k | k in row && k in meta.fieldsMap :: row[k]
  }

  /** An instance built from a row: the constructed attributes, then each custom field from the row. */
  function RowValues(meta: ModelMeta, row: map<string, Value>, custom: seq<string>): map<string, Value>
    requires forall t :: 0 <= t < |custom| ==> custom[t] in row
    decreases |custom|
  {
    if custom == [] then Constructed(meta, row)
    else
      RowValues(meta, row, custom[..|custom| - 1])[custom[|custom| - 1] := row[custom[|custom| - 1]]]
  }

  /** The built instance holds the row's declared fields and its custom fields, with the row's values. */
  lemma {:induction false} RowValuesContents(meta: ModelMeta, row: map<string, Value>, custom: seq<string>)
    requires forall t :: 0 <= t < |custom| ==> custom[t] in row
    ensures forall k :: k in RowValues(meta, row, custom) <==> k in row && (k in meta.fieldsMap || k in custom)
    ensures forall k :: k in RowValues(meta, row, custom) ==> RowValues(meta, row, custom)[k] == row[k]
    decreases |custom|
  {
    if custom != [] {
      var init := custom[..|custom| - 1];
      RowValuesContents(meta, row, init);
      assert forall k :: k in custom <==> k in init || k == custom[|custom| - 1];
    }
  }

  /**
   * One row of `execute_select`: `self.model(**row)`, then each custom field
   * copied from the row, the first absent one raising `KeyError`.
   */
  method BuildInstance(meta: ModelMeta, row: map<string, Value>, custom: seq<string>)
    returns (r: Result<Instance, Error>)
    ensures r.Err? <==> FirstAbsent(row, custom) < |custom|
    ensures r.Err? ==> r.error == KeyError(custom[FirstAbsent(row, custom)])
    ensures r.Ok? ==>
              && fresh(r.value)
              && r.value.values == RowValues(meta, row, custom) && r.value.attached == map[]
  {
    var inst := new Instance(Constructed(meta, row));
    var j := 0;
    while j < |custom|
      invariant 0 <= j <= |custom|
      invariant forall t :: 0 <= t < j ==> custom[t] in row
      invariant inst.values == RowValues(meta, row, custom[..j])
      invariant inst.attached == map[]
    {
      if custom[j] !in row {
        FirstAbsentIs(row, custom, j);
        return Err(KeyError(custom[j]));
      }
      assert custom[..j + 1][..j] == custom[..j];
      assert RowValues(meta, row, custom[..j + 1])
          == RowValues(meta, row, custom[..j])[custom[j] := row[custom[j]]];
      inst.values := inst.values[custom[j] := row[custom[j]]];
      j := j + 1;
    }
    assert custom[..j] == custom;
    FirstAbsentIs(row, custom, j);
    r := Ok(inst);
  }

  /** The row loop of `execute_select`: one fresh instance per row, or the first `KeyError`. */
  method BuildInstances(meta: ModelMeta, rows: seq<map<string, Value>>, custom: seq<string>)
    returns (r: Result<seq<Instance>, Error>)
    ensures FirstMissing(rows, custom).Some? ==> r == Err(KeyError(FirstMissing(rows, custom).value))
    ensures FirstMissing(rows, custom).None? ==>
              && r.Ok? && |r.value| == |rows|
              && (forall k :: 0 <= k < |rows| ==> fresh(r.value[k]) && r.value[k].attached == map[])
              && (forall k :: 0 <= k < |rows| ==> r.value[k].values == RowValues(meta, rows[k], custom))
  {
    var insts: seq<Instance> := [];
    var i := 0;
    while i < |rows|
      invariant 0 <= i <= |rows| && |insts| == i
      invariant forall k :: 0 <= k < i ==> FirstAbsent(rows[k], custom) == |custom|
      invariant forall k :: 0 <= k < i ==> fresh(insts[k]) && insts[k].attached == map[]
      invariant forall k :: 0 <= k < i ==> insts[k].values == RowValues(meta, rows[k], custom)
    {
      var one := BuildInstance(meta, rows[i], custom);
      if one.Err? {
        FirstMissingAt(rows, custom, i);
        return Err(one.error);
      }
      ghost var prev := insts;
      insts := insts + [one.value];
      assert forall k :: 0 <= k < i ==> insts[k] == prev[k];
      assert insts[i] == one.value;
      i := i + 1;
    }
    FirstMissingNone(rows, custom);
    r := Ok(insts);
  }

  // ---------------------------------------------------------------------
  // Loops shared by the three prefetch strategies

  /** `instance_id_set`: the ids of the instances. */
  method CollectIds(insts: seq<Instance>) returns (ids: set<Value>)
    ensures ids == IdSet(ValuesOf(insts))
  {
    ids := {};
    var i := 0;
    while i < |insts|
      invariant 0 <= i <= |insts|
      invariant forall x :: x in ids <==> exists k :: 0 <= k < i && Get(insts[k].values, "id") == x
    {
      ids := ids + {Get(insts[i].values, "id")};
      i := i + 1;
    }
    ghost var vals := ValuesOf(insts);
    assert forall x :: x in ids <==> x in IdSet(vals) by {
      forall x ensures x in ids <==> x in IdSet(vals) {
        if x in IdSet(vals) {
          var k :| 0 <= k < |vals| && Get(vals[k], "id") == x;
          assert Get(insts[k].values, "id") == x;
        }
      }
    }
  }

  /** `related_objects_for_fetch`: the truthy foreign keys of the instances. */
  method CollectTruthyFks(insts: seq<Instance>, field: string) returns (fks: set<Value>)
    ensures fks == TruthyFks(ValuesOf(insts), field)
  {
    var attr := FkAttribute(field);
    fks := {};
    var i := 0;
    while i < |insts|
      invariant 0 <= i <= |insts|
      invariant forall x :: x in fks <==> exists k :: 0 <= k < i && Truthy(Get(insts[k].values, attr)) && Get(insts[k].values, attr) == x
    {
      if Truthy(Get(insts[i].values, attr)) {
        fks := fks + {Get(insts[i].values, attr)};
      }
      i := i + 1;
    }
    ghost var vals := ValuesOf(insts);
    assert forall x :: x in fks <==> x in TruthyFks(vals, field) by {
      forall x ensures x in fks <==> x in TruthyFks(vals, field) {
        if x in TruthyFks(vals, field) {
          var k :| 0 <= k < |vals| && Truthy(Get(vals[k], attr)) && Get(vals[k], attr) == x;
          assert Get(insts[k].values, attr) == x;
        }
      }
    }
  }

  /**
   * The final loop of each strategy: every instance's relation attribute
   * `f` gets the attachment chosen by its attribute `keyAttr`. An instance
   * listed twice gets the same attachment twice.
   */
  method AttachAll(insts: seq<Instance>, f: string, keyAttr: string, att: Value -> Attachment)
    modifies insts
    ensures forall k :: 0 <= k < |insts| ==> insts[k].values == old(insts[k].values)
    ensures forall k :: 0 <= k < |insts| ==>
              insts[k].attached == old(insts[k].attached)[f := att(Get(old(insts[k].values), keyAttr))]
  {
    var i := 0;
    while i < |insts|
      invariant 0 <= i <= |insts|
      invariant forall k :: 0 <= k < |insts| ==> insts[k].values == old(insts[k].values)
      invariant forall k :: 0 <= k < |insts| ==>
                  || insts[k].attached == old(insts[k].attached)
                  || insts[k].attached == old(insts[k].attached)[f := att(Get(old(insts[k].values), keyAttr))]
      invariant forall k :: 0 <= k < i ==>
                  insts[k].attached == old(insts[k].attached)[f := att(Get(old(insts[k].values), keyAttr))]
    {
      insts[i].attached := insts[i].attached[f := att(Get(insts[i].values, keyAttr))];
      i := i + 1;
    }
  }

  /** Extending the scanned prefix by one row appends that row to its own key's group only. */
  lemma GroupStep(fetched: seq<Record>, col: string, j: nat)
    requires j < |fetched|
    ensures forall x :: Group(fetched[..j + 1], col, x)
                     == Group(fetched[..j], col, x) + (if Get(fetched[j].values, col) == x then [fetched[j]] else [])
  {
    assert fetched[..j + 1][..j] == fetched[..j];
  }

  /** `related_object_map` of the reverse strategy: the rows grouped by their `col`, in result order. */
  method GroupBy(fetched: seq<Record>, col: string) returns (groups: map<Value, seq<Record>>)
    ensures forall x :: (if x in groups then groups[x] else []) == Group(fetched, col, x)
  {
    groups := map[];
    var j := 0;
    while j < |fetched|
      invariant 0 <= j <= |fetched|
      invariant forall x :: x in groups ==> groups[x] == Group(fetched[..j], col, x)
      invariant forall x :: x !in groups ==> Group(fetched[..j], col, x) == []
    {
      GroupStep(fetched, col, j);
      var key := Get(fetched[j].values, col);
      if key in groups {
        groups := groups[key := groups[key] + [fetched[j]]];
      } else {
        groups := groups[key := [fetched[j]]];
      }
      j := j + 1;
    }
    assert fetched[..j] == fetched;
  }

  /** `relation_map` of the many-to-many strategy, built by iterating the pair set in any order. */
  method RelationMap(pairs: set<(Value, Value)>, index: map<Value, Record>) returns (relationMap: map<Value, seq<Record>>)
    requires forall p :: p in pairs ==> p.1 in index && index[p.1].Id() == p.1
    ensures forall x :: EnumeratesOnce(if x in relationMap then relationMap[x] else [], RelatedIds(pairs, x), index)
  {
    relationMap := map[];
    var todo := pairs;
    while todo != {}
      invariant todo <= pairs
      invariant forall x :: x in relationMap ==> EnumeratesOnce(relationMap[x], RelatedIds(pairs - todo, x), index)
      invariant forall x :: x !in relationMap ==> RelatedIds(pairs - todo, x) == {}
      decreases |todo|
    {
      var p :| p in todo;
      var current := if p.0 in relationMap then relationMap[p.0] else [];
      if p.0 !in relationMap { EmptyEnumerates(index); }
      AddPair(pairs - todo, p, current, index);
      assert (pairs - todo) + {p} == pairs - (todo - {p});
      relationMap := relationMap[p.0 := current + [index[p.1]]];
      todo := todo - {p};
    }
    assert pairs - todo == pairs;
    EmptyEnumerates(index);
  }

  /** One relation `f` prefetched over a list whose attachments go from `mid` to `after`. */
  ghost predicate FieldStep(kind: RelationKind, f: string, rows: seq<Record>, vals: seq<map<string, Value>>,
                            mid: seq<map<string, Attachment>>, after: seq<map<string, Attachment>>)
  {
    && |vals| == |mid| == |after|
    && (forall k :: 0 <= k < |vals| ==>
          FieldPrefetched(kind, f, rows, IdSet(vals), TruthyFks(vals, f), vals[k],
                          AttachedAt(mid[k], f), AttachedAt(after[k], f)))
    && (forall k, g :: 0 <= k < |vals| && g != f ==> AttachedAt(after[k], g) == AttachedAt(mid[k], g))
  }

  /** What `_prefetch_reverse_relation` leaves is one `FieldStep`. */
  lemma ReverseStep(f: string, rf: string, rows: seq<Record>, vals: seq<map<string, Value>>,
                    mid: seq<map<string, Attachment>>, after: seq<map<string, Attachment>>)
    requires |vals| == |mid| == |after|
    requires forall k :: 0 <= k < |vals| ==> after[k] == mid[k][f := Many(ChildrenOf(rows, rf, Get(vals[k], "id")))]
    ensures FieldStep(ReverseRelation(rf), f, rows, vals, mid, after)
  {
  }

  /** What `_prefetch_m2m_relation` leaves is one `FieldStep`. */
  lemma ManyToManyStep(f: string, rows: seq<Record>, vals: seq<map<string, Value>>,
                       mid: seq<map<string, Attachment>>, after: seq<map<string, Attachment>>)
    requires |vals| == |mid| == |after|
    requires forall k :: 0 <= k < |vals| ==>
               && f in after[k] && after[k][f].Many?
               && after[k] == mid[k][f := after[k][f]]
               && EnumeratesOnce(after[k][f].items,
                                 RelatedIds(Pairs(InFilter(rows, BackwardKey, IdSet(vals))), Get(vals[k], "id")),
                                 IndexById(InFilter(rows, BackwardKey, IdSet(vals))))
    ensures FieldStep(ManyToManyRelation, f, rows, vals, mid, after)
  {
  }

  /** What `_prefetch_direct_relation` leaves is one `FieldStep`. */
  lemma DirectStep(f: string, rows: seq<Record>, vals: seq<map<string, Value>>,
                   mid: seq<map<string, Attachment>>, after: seq<map<string, Attachment>>)
    requires |vals| == |mid| == |after|
    requires TruthyFks(vals, f) == {} ==> forall k :: 0 <= k < |vals| ==> after[k] == mid[k]
    requires TruthyFks(vals, f) != {} ==>
               forall k :: 0 <= k < |vals| ==>
                 after[k] == mid[k][f := Single(Lookup(IndexById(InFilter(rows, "id", TruthyFks(vals, f))),
                                                       Get(vals[k], FkAttribute(f))))]
    ensures FieldStep(DirectRelation, f, rows, vals, mid, after)
  {
  }

  /** Before any relation is prefetched, nothing has changed. */
  lemma PrefetchNothing(meta: ModelMeta, related: string -> seq<Record>, vals: seq<map<string, Value>>,
                        before: seq<map<string, Attachment>>)
    requires |vals| == |before|
    ensures PrefetchApplied(meta, {}, related, vals, before, before)
  {
  }

  /** Prefetching one more relation extends what has been applied. */
  lemma PrefetchOneMore(meta: ModelMeta, fields: set<string>, f: string, related: string -> seq<Record>,
                        vals: seq<map<string, Value>>, before: seq<map<string, Attachment>>,
                        mid: seq<map<string, Attachment>>, after: seq<map<string, Attachment>>)
    requires f !in fields
    requires PrefetchApplied(meta, fields, related, vals, before, mid)
    requires FieldStep(KindOf(meta, f), f, related(f), vals, mid, after)
    ensures PrefetchApplied(meta, fields + {f}, related, vals, before, after)
  {
    forall k, g | 0 <= k < |vals| && g in fields + {f}
      ensures FieldPrefetched(KindOf(meta, g), g, related(g), IdSet(vals), TruthyFks(vals, g), vals[k],
                              AttachedAt(before[k], g), AttachedAt(after[k], g))
    {
      if g != f {
        assert AttachedAt(after[k], g) == AttachedAt(mid[k], g);
      } else {
        assert AttachedAt(mid[k], f) == AttachedAt(before[k], f);
      }
    }
  }

  /** Moving one relation from the pending set to the done set. */
  lemma MoveToDone(keys: set<string>, done: set<string>, todo: set<string>, f: string)
    requires todo <= keys && done == keys - todo && f in todo
    ensures done + {f} == keys - (todo - {f})
  {
  }

  /** Whether `_execute_prefetch_queries` does nothing: no instances, or nothing to prefetch. */
  predicate PrefetchSkipped(n: nat, pmap: map<string, set<string>>, queries: map<string, set<string>>)
  {
    n == 0 || (pmap == map[] && queries == map[])
  }

  /** The relations `_execute_prefetch_queries` prefetches. */
  function PrefetchedFields(n: nat, pmap: map<string, set<string>>, queries: map<string, set<string>>): set<string>
  {
    if PrefetchSkipped(n, pmap, queries) then {} else MergeQueries(queries, pmap).Keys
  }

  /** `_prefetch_queries` after `_execute_prefetch_queries`. */
  function QueriesAfter(n: nat, pmap: map<string, set<string>>, queries: map<string, set<string>>): map<string, set<string>>
  {
    if PrefetchSkipped(n, pmap, queries) then queries else MergeQueries(queries, pmap)
  }

  /**
   * An executor for one model. `prefetchMap` is `prefetch_map` (relation
   * name to forwarded prefetch paths); `prefetchQueries` is
   * `_prefetch_queries`, each related query represented by the forwarded
   * prefetches it carries.
   */
  class Executor {
    const meta: ModelMeta
    const dialect: Dialect
    const connectionName: string
    var prefetchMap: map<string, set<string>>
    var prefetchQueries: map<string, set<string>>

    constructor (meta: ModelMeta, dialect: Dialect, connectionName: string,
                 prefetchMap: map<string, set<string>>, prefetchQueries: map<string, set<string>>)
      ensures this.meta == meta && this.dialect == dialect && this.connectionName == connectionName
      ensures this.prefetchMap == prefetchMap && this.prefetchQueries == prefetchQueries
    {
      this.meta := meta;
      this.dialect := dialect;
      this.connectionName := connectionName;
      this.prefetchMap := prefetchMap;
      this.prefetchQueries := prefetchQueries;
    }

    /** `_prepare_insert_columns`. */
    method PrepareInsertColumns() returns (regular: seq<string>, columns: seq<string>)
      requires meta.WellFormed()
      ensures regular == RegularColumns(meta.fieldsMap, meta.fieldsDbProjection)
      ensures columns == DbColumns(meta.fieldsDbProjection, regular)
    {
      var proj := meta.fieldsDbProjection;
      regular := [];
      var i := 0;
      while i < |proj|
        invariant 0 <= i <= |proj|
        invariant regular == RegularColumns(meta.fieldsMap, proj[..i])
      {
        assert proj[..i + 1][..i] == proj[..i];
        if !meta.fieldsMap[proj[i].0].generated {
          regular := regular + [proj[i].0];
        }
        i := i + 1;
      }
      assert proj[..i] == proj;
      columns := seq(|regular|, j requires 0 <= j < |regular| => DbColumn(proj, regular[j]));
    }

    /** `_field_to_db`. */
    method FieldToDb(f: Field, value: Value, inst: Instance, now: DateTime, conv: ToDbValue)
      returns (r: Result<Value, Error>)
      modifies inst
      ensures var c := Coerce(dialect, f, value, Get(old(inst.values), f.name), now, conv);
              r == c.out && inst.values == WriteBack(old(inst.values), f.name, c.writeBack)
      ensures inst.attached == old(inst.attached)
    {
      match ToDbOverride(dialect, f.kind)
      case None =>
        var c := conv(f, value, Get(inst.values, f.name));
        if c.writeBack.Some? {
          inst.values := inst.values[f.name := c.writeBack.value];
        }
        r := c.out;
      case Some(BoolOverride) =>
        r := Ok(SqliteExec.ToDbBool(value));
      case Some(DecimalOverride) =>
        r := SqliteExec.ToDbDecimal(f.kind.decimalPlaces, value);
      case Some(DatetimeOverride) =>
        var v := SqliteExec.ToDbDatetime(f, value, inst, now);
        r := Ok(v);
    }

    /** `_prepare_insert_values`: stops at the first column that raises. */
    method PrepareInsertValues(inst: Instance, regular: seq<string>, now: DateTime, conv: ToDbValue)
      returns (r: Result<seq<Value>, Error>)
      modifies inst
      ensures (r, inst.values) == InsertValues(dialect, meta, regular, old(inst.values), now, conv)
      ensures inst.attached == old(inst.attached)
    {
      var acc: seq<Value> := [];
      var i := 0;
      assert regular[0..] == regular;
      var whole := InsertValues(dialect, meta, regular, inst.values, now, conv);
      assert whole.0.Ok? ==> [] + whole.0.value == whole.0.value;
      while i < |regular|
        invariant 0 <= i <= |regular|
        invariant InsertValues(dialect, meta, regular, old(inst.values), now, conv)
                  == Prepend(acc, InsertValues(dialect, meta, regular[i..], inst.values, now, conv))
        invariant inst.attached == old(inst.attached)
      {
        if regular[i] !in meta.fieldsMap {
          return Err(KeyError(regular[i]));
        }
        var f := meta.fieldsMap[regular[i]];
        var v := FieldToDb(f, Get(inst.values, regular[i]), inst, now, conv);
        assert regular[i..][1..] == regular[i + 1..];
        if v.Err? {
          return Err(v.error);
        }
        var rest := InsertValues(dialect, meta, regular[i + 1..], inst.values, now, conv);
        if rest.0.Ok? {
          assert acc + ([v.value] + rest.0.value) == (acc + [v.value]) + rest.0.value;
        }
        acc := acc + [v.value];
        i := i + 1;
      }
      assert acc + [] == acc;
      r := Ok(acc);
    }

    /**
     * `execute_insert`. The plan is built only when the cache has no entry
     * for this connection and table, and stored only when it could be built;
     * an entry already there, whoever stored it, is used as it is. `dbInsert`
     * is the outcome of `db.execute_insert` (the new row's id, or what it
     * raised). `built` tells whether the plan was built by this call.
     */
    method ExecuteInsert(cache: InsertCache, inst: Instance, now: DateTime, conv: ToDbValue,
                         dbInsert: Result<int, Error>)
      returns (r: Result<Instance, Error>, call: Option<InsertCall>, ghost built: bool)
      requires meta.WellFormed()
      modifies cache, inst
      ensures built <==> CacheKey(connectionName, meta.table) !in old(cache.entries)
      ensures !built ==> cache.entries == old(cache.entries)
      ensures built ==>
                cache.entries == match PlanFor(dialect, meta)
                                 case Err(_) => old(cache.entries)
                                 case Ok(plan) => old(cache.entries)[CacheKey(connectionName, meta.table) := plan]
      ensures match CachedPlan(old(cache.entries), CacheKey(connectionName, meta.table), dialect, meta)
              case Err(e) =>
                r == Err(e) && call == None && inst.values == old(inst.values)
              case Ok(plan) =>
                var (vs, written) := InsertValues(dialect, meta, plan.regularColumns, old(inst.values), now, conv);
                match vs
                case Err(e) => r == Err(e) && call == None && inst.values == written
                case Ok(values) =>
                  && call == Some(InsertCall(plan.statement, values))
                  && match dbInsert
                     case Err(e) => r == Err(e) && inst.values == written
                     case Ok(id) => r == Ok(inst) && inst.values == written["id" := Int(id)]
      ensures inst.attached == old(inst.attached)
    {
      var key := CacheKey(connectionName, meta.table);
      var plan: InsertPlan;
      built := key !in cache.entries;
      if key !in cache.entries {
        var regular, columns := PrepareInsertColumns();
        var stmt := InsertStatement(dialect, meta.table, columns);
        if stmt.Err? {
          return Err(stmt.error), None, built;
        }
        plan := InsertPlan(regular, columns, stmt.value);
        cache.entries := cache.entries[key := plan];
      } else {
        plan := cache.entries[key];
      }
      var values := PrepareInsertValues(inst, plan.regularColumns, now, conv);
      if values.Err? {
        return Err(values.error), None, built;
      }
      call := Some(InsertCall(plan.statement, values.value));
      match dbInsert
      case Err(e) =>
        r := Err(e);
      case Ok(id) =>
        inst.values := inst.values["id" := Int(id)];
        r := Ok(inst);
    }

    /**
     * `_prefetch_reverse_relation`: every instance gets the related rows
     * whose `relationField` is its id, in result order.
     */
    method PrefetchReverse(insts: seq<Instance>, f: string, relationField: string, rows: seq<Record>)
      modifies insts
      ensures forall k :: 0 <= k < |insts| ==> insts[k].values == old(insts[k].values)
      ensures forall k :: 0 <= k < |insts| ==>
                insts[k].attached == old(insts[k].attached)[f := Many(ChildrenOf(rows, relationField, Get(old(insts[k].values), "id")))]
    {
      var ids := CollectIds(insts);
      var fetched := InFilter(rows, relationField, ids);
      var groups := GroupBy(fetched, relationField);
      forall x | x in ids
        ensures (if x in groups then groups[x] else []) == ChildrenOf(rows, relationField, x)
      {
        GroupOfFiltered(rows, relationField, ids, x);
      }
      ghost var vals := ValuesOf(insts);
      assert forall k :: 0 <= k < |insts| ==> Get(insts[k].values, "id") in ids by {
        forall k | 0 <= k < |insts| ensures Get(insts[k].values, "id") in ids {
          assert Get(vals[k], "id") in IdSet(vals);
        }
      }
      AttachAll(insts, f, "id", x => Many(if x in groups then groups[x] else []));
    }

    /**
     * `_prefetch_m2m_relation`: every instance gets, once each, the related
     * objects paired with its id by the join's rows.
     */
    method PrefetchManyToMany(insts: seq<Instance>, f: string, rows: seq<Record>)
      modifies insts
      ensures forall k :: 0 <= k < |insts| ==> insts[k].values == old(insts[k].values)
      ensures forall k :: 0 <= k < |insts| ==>
                && f in insts[k].attached && insts[k].attached[f].Many?
                && insts[k].attached == old(insts[k].attached)[f := insts[k].attached[f]]
                && EnumeratesOnce(insts[k].attached[f].items,
                                  RelatedIds(Pairs(InFilter(rows, BackwardKey, IdSet(old(ValuesOf(insts))))),
                                             Get(old(insts[k].values), "id")),
                                  IndexById(InFilter(rows, BackwardKey, IdSet(old(ValuesOf(insts))))))
    {
      var ids := CollectIds(insts);
      var fetched := InFilter(rows, BackwardKey, ids);
      var pairs := Pairs(fetched);
      var index := IndexById(fetched);
      forall p | p in pairs ensures p.1 in index && index[p.1].Id() == p.1 {
        PairIdIndexed(fetched, p);
      }
      var relationMap := RelationMap(pairs, index);
      AttachAll(insts, f, "id", x => Many(if x in relationMap then relationMap[x] else []));
    }

    /**
     * `_prefetch_direct_relation`: when some instance has a truthy foreign
     * key, every instance gets the fetched object with its key as id, or
     * `None`; otherwise nothing is queried and nothing changes.
     */
    method PrefetchDirect(insts: seq<Instance>, f: string, rows: seq<Record>)
      modifies insts
      ensures forall k :: 0 <= k < |insts| ==> insts[k].values == old(insts[k].values)
      ensures TruthyFks(old(ValuesOf(insts)), f) == {} ==>
                forall k :: 0 <= k < |insts| ==> insts[k].attached == old(insts[k].attached)
      ensures TruthyFks(old(ValuesOf(insts)), f) != {} ==>
                forall k :: 0 <= k < |insts| ==>
                  insts[k].attached == old(insts[k].attached)[f := Single(Lookup(
                    IndexById(InFilter(rows, "id", TruthyFks(old(ValuesOf(insts)), f))),
                    Get(old(insts[k].values), FkAttribute(f))))]
    {
      var fks := CollectTruthyFks(insts, f);
      if fks != {} {
        var index := IndexById(InFilter(rows, "id", fks));
        AttachAll(insts, f, FkAttribute(f), x => Single(Lookup(index, x)));
      }
    }

    /** `_do_prefetch`: the strategy is chosen by the relation's kind. */
    method DoPrefetch(insts: seq<Instance>, f: string, rows: seq<Record>)
      modifies insts
      ensures ValuesOf(insts) == old(ValuesOf(insts))
      ensures FieldStep(KindOf(meta, f), f, rows, old(ValuesOf(insts)), old(AttachedOf(insts)), AttachedOf(insts))
    {
      ghost var vals := ValuesOf(insts);
      ghost var mid := AttachedOf(insts);
      match KindOf(meta, f)
      case ReverseRelation(rf) =>
        PrefetchReverse(insts, f, rf, rows);
        ReverseStep(f, rf, rows, vals, mid, AttachedOf(insts));
      case ManyToManyRelation =>
        PrefetchManyToMany(insts, f, rows);
        ManyToManyStep(f, rows, vals, mid, AttachedOf(insts));
      case DirectRelation =>
        PrefetchDirect(insts, f, rows);
        DirectStep(f, rows, vals, mid, AttachedOf(insts));
    }

    /** `_make_prefetch_queries`: every relation of `prefetch_map` gets a query carrying its forwarded prefetches. */
    method MakePrefetchQueries()
      modifies this
      ensures prefetchMap == old(prefetchMap)
      ensures prefetchQueries == MergeQueries(old(prefetchQueries), prefetchMap)
    {
      prefetchQueries := MergeForwarded(prefetchMap, prefetchQueries);
    }

    /**
     * The loop of `_execute_prefetch_queries`: each relation of `fields`,
     * in any order, is prefetched into the instances.
     */
    method PrefetchAll(insts: seq<Instance>, fields: set<string>, related: string -> seq<Record>)
      modifies insts
      ensures ValuesOf(insts) == old(ValuesOf(insts))
      ensures PrefetchApplied(meta, fields, related, old(ValuesOf(insts)), old(AttachedOf(insts)), AttachedOf(insts))
    {
      ghost var vals := ValuesOf(insts);
      ghost var before := AttachedOf(insts);
      assert vals == old(ValuesOf(insts)) && before == old(AttachedOf(insts));
      PrefetchNothing(meta, related, vals, before);
      var todo := fields;
      ghost var done: set<string> := {};
      while todo != {}
        invariant todo <= fields
        invariant done == fields - todo
        invariant ValuesOf(insts) == vals
        invariant PrefetchApplied(meta, done, related, vals, before, AttachedOf(insts))
        decreases |todo|
      {
        var f :| f in todo;
        ghost var mid := AttachedOf(insts);
        DoPrefetch(insts, f, related(f));
        PrefetchOneMore(meta, done, f, related, vals, before, mid, AttachedOf(insts));
        MoveToDone(fields, done, todo, f);
        done := done + {f};
        todo := todo - {f};
      }
      assert done == fields;
    }

    /**
     * `_execute_prefetch_queries`: with at least one instance and something
     * to prefetch, every relation of the merged query map is prefetched
     * into the instances.
     */
    method ExecutePrefetchQueries(insts: seq<Instance>, related: string -> seq<Record>)
      modifies this, insts
      ensures prefetchMap == old(prefetchMap)
      ensures prefetchQueries == QueriesAfter(|insts|, old(prefetchMap), old(prefetchQueries))
      ensures ValuesOf(insts) == old(ValuesOf(insts))
      ensures PrefetchApplied(meta, PrefetchedFields(|insts|, old(prefetchMap), old(prefetchQueries)), related,
                              old(ValuesOf(insts)), old(AttachedOf(insts)), AttachedOf(insts))
    {
      if |insts| > 0 && (prefetchMap != map[] || prefetchQueries != map[]) {
        MakePrefetchQueries();
        PrefetchAll(insts, prefetchQueries.Keys, related);
      } else {
        PrefetchNothing(meta, related, ValuesOf(insts), AttachedOf(insts));
      }
    }

    /**
     * `fetch_for_list`: rebuilds `prefetch_map` from the relation paths,
     * stopping at the first one whose first segment is not a fetch field,
     * then prefetches into the instances.
     */
    method FetchForList(insts: seq<Instance>, relations: seq<string>, related: string -> seq<Record>)
      returns (r: Result<seq<Instance>, Error>)
      modifies this, insts
      ensures FirstUnknown(meta.fetchFields, relations).Some? ==>
                var k := FirstUnknown(meta.fetchFields, relations).value;
                && r == Err(RelationNotFound(Head(relations[k]), meta.table))
                && prefetchMap == PrefetchMapOf(relations[..k])
                && prefetchQueries == old(prefetchQueries)
                && ValuesOf(insts) == old(ValuesOf(insts)) && AttachedOf(insts) == old(AttachedOf(insts))
      ensures FirstUnknown(meta.fetchFields, relations).None? ==>
                && r == Ok(insts)
                && prefetchMap == PrefetchMapOf(relations)
                && prefetchQueries == QueriesAfter(|insts|, PrefetchMapOf(relations), old(prefetchQueries))
                && ValuesOf(insts) == old(ValuesOf(insts))
                && PrefetchApplied(meta, PrefetchedFields(|insts|, PrefetchMapOf(relations), old(prefetchQueries)),
                                   related, old(ValuesOf(insts)), old(AttachedOf(insts)), AttachedOf(insts))
    {
      var pmap, unknown := ParseRelations(meta.fetchFields, relations);
      prefetchMap := pmap;
      if unknown.Some? {
        r := Err(RelationNotFound(Head(relations[unknown.value]), meta.table));
        return;
      }
      ExecutePrefetchQueries(insts, related);
      r := Ok(insts);
    }

    /**
     * `execute_select`: one fresh instance per row (its declared fields,
     * then each custom field, whose absence raises `KeyError`), followed
     * by prefetching into the new instances.
     */
    method ExecuteSelect(rows: seq<map<string, Value>>, customFields: seq<string>, related: string -> seq<Record>)
      returns (r: Result<seq<Instance>, Error>)
      modifies this
      ensures FirstMissing(rows, customFields).Some? ==>
                && r == Err(KeyError(FirstMissing(rows, customFields).value))
                && prefetchMap == old(prefetchMap) && prefetchQueries == old(prefetchQueries)
      ensures FirstMissing(rows, customFields).None? ==>
                && r.Ok? && |r.value| == |rows|
                && (forall k :: 0 <= k < |rows| ==> fresh(r.value[k]))
                && (forall k :: 0 <= k < |rows| ==> r.value[k].values == RowValues(meta, rows[k], customFields))
                && prefetchMap == old(prefetchMap)
                && prefetchQueries == QueriesAfter(|rows|, old(prefetchMap), old(prefetchQueries))
                && PrefetchApplied(meta, PrefetchedFields(|rows|, old(prefetchMap), old(prefetchQueries)), related,
                                   ValuesOf(r.value), seq(|rows|, _ => map[]), AttachedOf(r.value))
    {
      var built := BuildInstances(meta, rows, customFields);
      if built.Err? {
        return Err(built.error);
      }
      var insts := built.value;
      assert AttachedOf(insts) == seq(|rows|, _ => map[]);
      ExecutePrefetchQueries(insts, related);
      r := Ok(insts);
    }
  }
}
