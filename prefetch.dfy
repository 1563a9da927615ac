/**
 * The grouping half of relation prefetching, as values: how the rows a
 * related query returns are filtered, indexed and grouped, and what each
 * instance ends up with for each of the three relation kinds.
 */
module Prefetch {
  import opened Wrappers
  import opened Models

  /** The column the many-to-many join adds to every related row. */
  const BackwardKey: string := "_backward_relation_key"

  /**
   * The related query's `<col>__in=keys` filter: the rows whose `col` is
   * one of `keys`, in result order. SQL `IN` never matches NULL.
   */
  function InFilter(rows: seq<Record>, col: string, keys: set<Value>): (r: seq<Record>)
    ensures |r| <= |rows|
    ensures forall e :: e in r <==> e in rows && Get(e.values, col) != Null && Get(e.values, col) in keys
    decreases |rows|
  {
    if rows == [] then []
    else
      var init, last := rows[..|rows| - 1], rows[|rows| - 1];
      assert rows == init + [last];
      InFilter(init, col, keys)
      + (if Get(last.values, col) != Null && Get(last.values, col) in keys then [last] else [])
  }

  /** The rows whose `col` equals `key`, in result order. */
  function Group(rows: seq<Record>, col: string, key: Value): seq<Record>
    decreases |rows|
  {
    if rows == [] then []
    else
      Group(rows[..|rows| - 1], col, key) + (if Get(rows[|rows| - 1].values, col) == key then [rows[|rows| - 1]] else [])
  }

  /** A group holds exactly the rows whose column holds the key, and no more rows than there are. */
  lemma {:induction false} GroupContents(rows: seq<Record>, col: string, key: Value)
    ensures |Group(rows, col, key)| <= |rows|
    ensures forall e :: e in Group(rows, col, key) <==> e in rows && Get(e.values, col) == key
    decreases |rows|
  {
    if rows != [] {
      var init, last := rows[..|rows| - 1], rows[|rows| - 1];
      assert rows == init + [last];
      GroupContents(init, col, key);
    }
  }

  /** The children a reverse relation gives a parent with id `id`: none for an unsaved parent. */
  function ChildrenOf(rows: seq<Record>, col: string, id: Value): seq<Record>
  {
    if id == Null then [] else Group(rows, col, id)
  }

  /**
   * Grouping the filtered rows by the filter column gives a key of the
   * filter set exactly its own rows, and any other key nothing.
   */
  lemma {:induction false} GroupOfFiltered(rows: seq<Record>, col: string, keys: set<Value>, key: Value)
    ensures Group(InFilter(rows, col, keys), col, key)
            == if key != Null && key in keys then Group(rows, col, key) else []
    decreases |rows|
  {
    if rows != [] {
      var init, last := rows[..|rows| - 1], rows[|rows| - 1];
      GroupOfFiltered(init, col, keys, key);
      var v := Get(last.values, col);
      var kept := if v != Null && v in keys then [last] else [];
      var fi := InFilter(init, col, keys);
      assert InFilter(rows, col, keys) == fi + kept;
      GroupAppend(fi, kept, col, key);
      GroupLast(kept, col, key);
      assert Group(rows, col, key) == Group(init, col, key) + (if v == key then [last] else []);
    }
  }

  /** Grouping a list of at most one row. */
  lemma GroupLast(kept: seq<Record>, col: string, key: Value)
    requires |kept| <= 1
    ensures Group(kept, col, key) == if kept != [] && Get(kept[0].values, col) == key then kept else []
  {
    if kept != [] {
      assert kept[..0] == [];
    }
  }

  /** Grouping distributes over concatenation. */
  lemma {:induction false} GroupAppend(a: seq<Record>, b: seq<Record>, col: string, key: Value)
    ensures Group(a + b, col, key) == Group(a, col, key) + Group(b, col, key)
    decreases |b|
  {
    if b == [] {
      assert a + b == a;
    } else {
      var init, last := b[..|b| - 1], b[|b| - 1];
      var tail := if Get(last.values, col) == key then [last] else [];
      GroupAppend(a, init, col, key);
      assert (a + b)[..|a + b| - 1] == a + init;
      assert (a + b)[|a + b| - 1] == last;
      assert Group(a + b, col, key) == Group(a + init, col, key) + tail;
      assert Group(b, col, key) == Group(init, col, key) + tail;
    }
  }

  /** `{obj.id: obj for obj in rows}`: a later row with the same id replaces an earlier one. */
  function IndexById(rows: seq<Record>): (m: map<Value, Record>)
    ensures m.Keys == set e | e in rows :: e.Id()
    ensures forall k :: k in m ==> m[k].Id() == k && m[k] in rows
    decreases |rows|
  {
    if rows == [] then map[]
    else
      var init, last := rows[..|rows| - 1], rows[|rows| - 1];
      assert rows == init + [last];
      IndexById(init)[last.Id() := last]
  }

  /** The dict comprehension keeps, for each id, the last row with that id. */
  lemma {:induction false} IndexByIdLastWins(rows: seq<Record>, i: nat)
    requires i < |rows|
    requires forall j :: i < j < |rows| ==> rows[j].Id() != rows[i].Id()
    ensures rows[i].Id() in IndexById(rows) && IndexById(rows)[rows[i].Id()] == rows[i]
    decreases |rows|
  {
    var init := rows[..|rows| - 1];
    if i < |rows| - 1 {
      assert init[i] == rows[i];
      assert forall j :: i < j < |init| ==> init[j] == rows[j];
      IndexByIdLastWins(init, i);
    }
  }

  /** `dict.get`. */
  function Lookup(m: map<Value, Record>, k: Value): Option<Record>
  {
    if k in m then Some(m[k]) else None
  }

  /** The distinct `(_backward_relation_key, id)` pairs of the many-to-many rows. */
  function Pairs(rows: seq<Record>): set<(Value, Value)>
  {
    set e | e in rows :: (Get(e.values, BackwardKey), e.Id())
  }

  /** The related ids paired with owner `x`. */
  function RelatedIds(pairs: set<(Value, Value)>, x: Value): set<Value>
  {
    set p | p in pairs && p.0 == x :: p.1
  }

  /** The ids of a list of related objects. */
  function IdsOf(l: seq<Record>): set<Value>
  {
    set e | e in l :: e.Id()
  }

  /**
   * `l` lists, once each and in some order, the indexed objects whose ids
   * are `rids`.
   */
  ghost predicate EnumeratesOnce(l: seq<Record>, rids: set<Value>, index: map<Value, Record>)
  {
    && IdsOf(l) == rids
    && (forall j, j' :: 0 <= j < j' < |l| ==> l[j].Id() != l[j'].Id())
    && (forall j :: 0 <= j < |l| ==> l[j].Id() in index && l[j] == index[l[j].Id()])
  }

  /** Such a list is exactly as long as the set of ids it enumerates. */
  lemma {:induction false} EnumeratesOnceLength(l: seq<Record>, rids: set<Value>, index: map<Value, Record>)
    requires EnumeratesOnce(l, rids, index)
    ensures |l| == |rids|
    decreases |l|
  {
    if l != [] {
      var init, last := l[..|l| - 1], l[|l| - 1];
      assert l == init + [last];
      assert EnumeratesOnce(init, IdsOf(init), index) by {
        forall j, j' | 0 <= j < j' < |init| ensures init[j].Id() != init[j'].Id() {
          assert init[j] == l[j] && init[j'] == l[j'];
        }
      }
      EnumeratesOnceLength(init, IdsOf(init), index);
      assert last.Id() !in IdsOf(init) by {
        forall e | e in init ensures e.Id() != last.Id() {
          var j :| 0 <= j < |init| && init[j] == e;
          assert l[j] == e;
        }
      }
      assert IdsOf(l) == IdsOf(init) + {last.Id()};
    }
  }

  /**
   * The many-to-many filter keeps, for an owner among the keys, all its
   * pairs; the related ids of every listed owner are unaffected by it.
   */
  lemma FilterKeepsOwnPairs(rows: seq<Record>, keys: set<Value>, x: Value)
    requires x != Null && x in keys
    ensures RelatedIds(Pairs(InFilter(rows, BackwardKey, keys)), x) == RelatedIds(Pairs(rows), x)
  {
    var fetched := InFilter(rows, BackwardKey, keys);
    forall rid | rid in RelatedIds(Pairs(rows), x) ensures rid in RelatedIds(Pairs(fetched), x) {
      var p :| p in Pairs(rows) && p.0 == x && p.1 == rid;
      var e :| e in rows && (Get(e.values, BackwardKey), e.Id()) == p;
      assert e in fetched;
      assert p in Pairs(fetched);
    }
  }

  /**
   * Appending the related object of a new pair `(x, rid)` to `x`'s list
   * keeps it an enumeration of `x`'s related ids; no other owner's related
   * ids change.
   */
  lemma AddPair(done: set<(Value, Value)>, p: (Value, Value), l: seq<Record>, index: map<Value, Record>)
    requires p !in done
    requires p.1 in index && index[p.1].Id() == p.1
    requires EnumeratesOnce(l, RelatedIds(done, p.0), index)
    ensures EnumeratesOnce(l + [index[p.1]], RelatedIds(done + {p}, p.0), index)
    ensures forall y :: y != p.0 ==> RelatedIds(done + {p}, y) == RelatedIds(done, y)
  {
    var l' := l + [index[p.1]];
    assert RelatedIds(done + {p}, p.0) == RelatedIds(done, p.0) + {p.1};
    assert p.1 !in RelatedIds(done, p.0);
    assert IdsOf(l') == IdsOf(l) + {p.1} by {
      assert forall e :: e in l' <==> e in l || e == index[p.1];
    }
    forall j, j' | 0 <= j < j' < |l'| ensures l'[j].Id() != l'[j'].Id() {
      if j' == |l| {
        assert l'[j] == l[j] && l[j] in l;
      } else {
        assert l'[j] == l[j] && l'[j'] == l[j'];
      }
    }
    forall j | 0 <= j < |l'| ensures l'[j].Id() in index && l'[j] == index[l'[j].Id()] {
      if j < |l| { assert l'[j] == l[j]; }
    }
  }

  /** The empty list enumerates the empty set of related ids. */
  lemma EmptyEnumerates(index: map<Value, Record>)
    ensures EnumeratesOnce([], {}, index)
  {
    assert IdsOf([]) == {};
  }

  /** Every related id of a pair has an object in the index of the same rows. */
  lemma PairIdIndexed(rows: seq<Record>, p: (Value, Value))
    requires p in Pairs(rows)
    ensures p.1 in IndexById(rows) && IndexById(rows)[p.1].Id() == p.1
  {
    var e :| e in rows && (Get(e.values, BackwardKey), e.Id()) == p;
  }

  /** The ids of the instances, `None` for an unsaved one. */
  function IdSet(vals: seq<map<string, Value>>): set<Value>
  {
    set k | 0 <= k < |vals| :: Get(vals[k], "id")
  }

  /** The attribute holding a direct relation's foreign key. */
  function FkAttribute(field: string): string
  {
    field + "_id"
  }

  /** The truthy foreign-key values of the instances. */
  function TruthyFks(vals: seq<map<string, Value>>, field: string): set<Value>
  {
    set k | 0 <= k < |vals| && Truthy(Get(vals[k], FkAttribute(field))) :: Get(vals[k], FkAttribute(field))
  }

  /** The relation kind of attribute `f`; anything not declared as reverse or many-to-many is direct. */
  function KindOf(meta: ModelMeta, f: string): RelationKind
  {
    if f in meta.relations then meta.relations[f] else DirectRelation
  }

  /**
   * What prefetching relation `f` over a list of instances leaves on one
   * instance with attributes `own`, given the related query's rows, the
   * list's ids and its truthy foreign keys.
   */
  ghost predicate FieldPrefetched(kind: RelationKind, f: string, rows: seq<Record>, ids: set<Value>,
                                  fks: set<Value>, own: map<string, Value>,
                                  before: Option<Attachment>, after: Option<Attachment>)
  {
    match kind
    case ReverseRelation(rf) =>
      after == Some(Many(ChildrenOf(rows, rf, Get(own, "id"))))
    case ManyToManyRelation =>
      var fetched := InFilter(rows, BackwardKey, ids);
      && after.Some? && after.value.Many?
      && EnumeratesOnce(after.value.items, RelatedIds(Pairs(fetched), Get(own, "id")), IndexById(fetched))
    case DirectRelation =>
      if fks == {} then after == before
      else after == Some(Single(Lookup(IndexById(InFilter(rows, "id", fks)), Get(own, FkAttribute(f)))))
  }

  /**
   * The whole effect of prefetching the relations `fields` on a list of
   * instances: each listed relation as `FieldPrefetched` says, every other
   * relation attribute as it was.
   */
  ghost predicate PrefetchApplied(meta: ModelMeta, fields: set<string>, related: string -> seq<Record>,
                                  vals: seq<map<string, Value>>,
                                  before: seq<map<string, Attachment>>, after: seq<map<string, Attachment>>)
  {
    && |vals| == |before| == |after|
    && (forall k, f :: 0 <= k < |vals| && f in fields ==>
          FieldPrefetched(KindOf(meta, f), f, related(f), IdSet(vals), TruthyFks(vals, f), vals[k],
                          AttachedAt(before[k], f), AttachedAt(after[k], f)))
    && (forall k, f :: 0 <= k < |vals| && f !in fields ==> AttachedAt(after[k], f) == AttachedAt(before[k], f))
  }

  /**
   * A direct relation gets the fetched object whose id is the instance's
   * foreign key, or `None` when the key is falsy or no related row has it.
   */
  lemma DirectTarget(rows: seq<Record>, fks: set<Value>, fk: Value)
    requires forall v :: v in fks ==> Truthy(v)
    ensures Lookup(IndexById(InFilter(rows, "id", fks)), fk).Some? ==>
              && Lookup(IndexById(InFilter(rows, "id", fks)), fk).value.Id() == fk
              && Lookup(IndexById(InFilter(rows, "id", fks)), fk).value in rows
              && fk in fks
    ensures Lookup(IndexById(InFilter(rows, "id", fks)), fk).None? <==>
              fk !in fks || forall e :: e in rows ==> e.Id() != fk
  {
    var fetched := InFilter(rows, "id", fks);
    if fk in fks {
      if e :| e in rows && e.Id() == fk {
        assert Truthy(fk);
        assert e in fetched;
      }
    }
  }

  /** A falsy foreign key, `0` included, never gets a related object. */
  lemma FalsyForeignKeyGetsNone(rows: seq<Record>, fks: set<Value>, fk: Value)
    requires forall v :: v in fks ==> Truthy(v)
    requires !Truthy(fk)
    ensures Lookup(IndexById(InFilter(rows, "id", fks)), fk) == None
  {
    DirectTarget(rows, fks, fk);
  }
}
