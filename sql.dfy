/**
 * The small part of SQL the backends build by hand: LIKE criteria over a
 * cast column and the parameterised INSERT statement. Statement text
 * rendering is the query builder's job and is not modelled; what is
 * modelled is the structure handed to it and, for LIKE, what it matches.
 */
module Sql {

  /** SQL terms that appear in the LIKE criteria. */
  datatype Term =
    | FieldRef(name: string)     // the filtered column
    | Text(s: string)            // a string literal
    | CastChar(t: Term)          // CAST(t AS CHAR)
    | Upper(t: Term)             // UPPER(t)

  /** `subject LIKE pattern`. */
  datatype Criterion = Like(subject: Term, pattern: Term)

  /** The filter functions of the query layer that a backend may replace. */
  datatype FilterFunc =
    | Contains
    | StartsWith
    | EndsWith
    | InsensitiveContains
    | InsensitiveStartsWith
    | InsensitiveEndsWith
    | OtherFilter(name: string)

  /** `INSERT INTO table (columns...) VALUES (placeholders...)`. */
  datatype InsertStmt = InsertStmt(table: string, columns: seq<string>, placeholders: seq<string>)

  /** ASCII upper-casing of one character, as UPPER() does for ASCII letters. */
  function UpperChar(c: char): char
  {
    if 'a' <= c <= 'z' then (c as int - 32) as char else c
  }

  function UpperText(s: string): (u: string)
    ensures |u| == |s|
    ensures forall i :: 0 <= i < |s| ==> u[i] == UpperChar(s[i])
  {
    if s == [] then [] else [UpperChar(s[0])] + UpperText(s[1..])
  }

  /** The text a term denotes when the filtered column holds `v`. */
  function Eval(t: Term, v: string): string
  {
    match t
    case FieldRef(_) => v
    case Text(s) => s
    case CastChar(u) => Eval(u, v)
    case Upper(u) => UpperText(Eval(u, v))
  }

  /**
   * LIKE pattern matching: `%` matches any run of characters, `_` any single
   * character, every other character itself. MySQL's escape character `\`
   * is not interpreted, so the meaning is exact only for patterns whose text
   * part has no `\` (see `NoLikeSpecials`).
   */
  predicate LikeMatch(p: string, s: string)
    decreases |p| + |s|
  {
    if p == [] then s == []
    else if p[0] == '%' then LikeMatch(p[1..], s) || (s != [] && LikeMatch(p, s[1..]))
    else s != [] && (p[0] == '_' || p[0] == s[0]) && LikeMatch(p[1..], s[1..])
  }

  /** Whether a row whose filtered column holds `v` satisfies the criterion. */
  predicate Holds(c: Criterion, v: string)
  {
    LikeMatch(Eval(c.pattern, v), Eval(c.subject, v))
  }

  /** `s` contains neither LIKE wildcard nor MySQL's default LIKE escape character `\`. */
  predicate NoLikeSpecials(s: string)
  {
    forall i :: 0 <= i < |s| ==> s[i] != '%' && s[i] != '_' && s[i] != '\\'
  }

  predicate IsPrefix(v: string, s: string) { |v| <= |s| && s[..|v|] == v }

  predicate IsSuffix(v: string, s: string) { |v| <= |s| && s[|s| - |v|..] == v }

  /** `v` occurs in `s` starting at index `i`. */
  predicate OccursAt(v: string, s: string, i: int)
  {
    0 <= i <= |s| - |v| && s[i..i + |v|] == v
  }

  predicate IsSubstring(v: string, s: string)
  {
    exists i :: 0 <= i <= |s| && OccursAt(v, s, i)
  }

  /** A lone `%` matches every text. */
  lemma {:induction false} PercentMatchesAll(s: string)
    ensures LikeMatch("%", s)
    decreases |s|
  {
    if s != [] {
      PercentMatchesAll(s[1..]);
    }
  }

  /** A wildcard-free pattern matches exactly itself. */
  lemma {:induction false} LiteralPattern(v: string, s: string)
    requires NoLikeSpecials(v)
    ensures LikeMatch(v, s) <==> s == v
    decreases |v|
  {
    if v != [] {
      if s != [] {
        LiteralPattern(v[1..], s[1..]);
        if s[1..] == v[1..] && s[0] == v[0] { assert s == v; }
      }
    }
  }

  /** `v%` matches exactly the texts that start with `v`. */
  lemma {:induction false} StartsWithPattern(v: string, s: string)
    requires NoLikeSpecials(v)
    ensures LikeMatch(v + "%", s) <==> IsPrefix(v, s)
    decreases |v|
  {
    if v == [] {
      PercentMatchesAll(s);
      assert v + "%" == "%";
    } else {
      assert (v + "%")[0] == v[0] && (v + "%")[1..] == v[1..] + "%";
      if s != [] {
        StartsWithPattern(v[1..], s[1..]);
        if IsPrefix(v, s) {
          assert s[1..][..|v| - 1] == s[..|v|][1..];
        }
        if IsPrefix(v[1..], s[1..]) && s[0] == v[0] {
          assert s[..|v|] == [s[0]] + s[1..][..|v| - 1];
        }
      }
    }
  }

  /** `%v` matches exactly the texts that end with `v`. */
  lemma {:induction false} EndsWithPattern(v: string, s: string)
    requires NoLikeSpecials(v)
    ensures LikeMatch("%" + v, s) <==> IsSuffix(v, s)
    decreases |s|
  {
    assert ("%" + v)[0] == '%' && ("%" + v)[1..] == v;
    LiteralPattern(v, s);
    if s != [] {
      EndsWithPattern(v, s[1..]);
      if IsSuffix(v, s) && s != v {
        assert |v| < |s|;
        assert s[1..][|s[1..]| - |v|..] == s[|s| - |v|..];
      }
      if IsSuffix(v, s[1..]) {
        assert s[1..][|s[1..]| - |v|..] == s[|s| - |v|..];
      }
    } else {
      if IsSuffix(v, s) { assert v == []; }
    }
  }

  /** `v` occurs in a non-empty `s` iff it starts `s` or occurs in its tail. */
  lemma SubstringStep(v: string, s: string)
    requires s != []
    ensures IsSubstring(v, s) <==> IsPrefix(v, s) || IsSubstring(v, s[1..])
  {
    if IsPrefix(v, s) {
      assert OccursAt(v, s, 0);
    }
    if IsSubstring(v, s[1..]) {
      var i :| 0 <= i <= |s[1..]| && OccursAt(v, s[1..], i);
      assert s[i + 1..i + 1 + |v|] == s[1..][i..i + |v|];
      assert OccursAt(v, s, i + 1);
    }
    if IsSubstring(v, s) && !IsPrefix(v, s) {
      var i :| 0 <= i <= |s| && OccursAt(v, s, i);
      assert i != 0 by { assert s[..|v|] == s[0..0 + |v|]; }
      assert s[1..][i - 1..i - 1 + |v|] == s[i..i + |v|];
      assert OccursAt(v, s[1..], i - 1);
    }
  }

  /** Only the empty text occurs in the empty text. */
  lemma SubstringOfEmpty(v: string)
    ensures IsSubstring(v, []) <==> v == []
  {
    if v == [] { assert OccursAt(v, [], 0); }
  }

  /** `%v%` matches exactly the texts that contain `v`. */
  lemma {:induction false} ContainsPattern(v: string, s: string)
    requires NoLikeSpecials(v)
    ensures LikeMatch("%" + v + "%", s) <==> IsSubstring(v, s)
    decreases |s|
  {
    var p := "%" + v + "%";
    assert p[0] == '%' && p[1..] == v + "%";
    assert LikeMatch(p, s) == (LikeMatch(v + "%", s) || (s != [] && LikeMatch(p, s[1..])));
    StartsWithPattern(v, s);
    if s != [] {
      ContainsPattern(v, s[1..]);
      SubstringStep(v, s);
    } else {
      SubstringOfEmpty(v);
    }
  }

  /** Upper-casing never creates or removes a wildcard or an escape character. */
  lemma UpperKeepsWildcards(s: string)
    ensures NoLikeSpecials(UpperText(s)) <==> NoLikeSpecials(s)
  {
    var u := UpperText(s);
    if NoLikeSpecials(s) {
      forall i | 0 <= i < |u| ensures u[i] != '%' && u[i] != '_' && u[i] != '\\' {
        assert u[i] == UpperChar(s[i]);
      }
    }
  }

  /** Upper-casing distributes over concatenation. */
  lemma UpperConcat(a: string, b: string)
    ensures UpperText(a + b) == UpperText(a) + UpperText(b)
  {
    var l, r := UpperText(a + b), UpperText(a) + UpperText(b);
    assert |l| == |r|;
    forall i | 0 <= i < |l| ensures l[i] == r[i] {
      if i < |a| { assert (a + b)[i] == a[i]; } else { assert (a + b)[i] == b[i - |a|]; }
    }
  }
}
