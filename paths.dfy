/**
 * Relation paths such as `"tournament__participants"`: Python's
 * `str.split("__")` and `"__".join(...)`, and the two parts `fetch_for_list`
 * takes from a path.
 */
module Paths {

  const Sep: string := "__"

  /** True when `s` starts with the separator. */
  predicate StartsWithSep(s: string)
  {
    |s| >= 2 && s[0] == '_' && s[1] == '_'
  }

  /** `s.split("__")`: occurrences of the separator are taken left to right, without overlap. */
  function Split(s: string): (parts: seq<string>)
    ensures |parts| >= 1
    decreases |s|
  {
    if |s| < 2 then [s]
    else if StartsWithSep(s) then [""] + Split(s[2..])
    else
      var rest := Split(s[1..]);
      [[s[0]] + rest[0]] + rest[1..]
  }

  /** `"__".join(parts)`. */
  function Join(parts: seq<string>): string
  {
    if |parts| == 0 then ""
    else if |parts| == 1 then parts[0]
    else parts[0] + Sep + Join(parts[1..])
  }

  /** True when `"__"` occurs in `s`. */
  predicate HasSep(s: string)
  {
    exists i :: 0 <= i < |s| - 1 && s[i] == '_' && s[i + 1] == '_'
  }

  /** The first-level relation name of a path (`relation_split[0]`). */
  function Head(path: string): string
  {
    Split(path)[0]
  }

  /** The forwarded nested path (`"__".join(relation_split[1:])`). */
  function Forwarded(path: string): string
  {
    Join(Split(path)[1..])
  }

  /** Splitting and joining again gives back the original text. */
  lemma {:induction false} JoinSplit(s: string)
    ensures Join(Split(s)) == s
    decreases |s|
  {
    if |s| < 2 {
    } else if StartsWithSep(s) {
      var tail := Split(s[2..]);
      JoinSplit(s[2..]);
      assert Split(s) == [""] + tail;
      assert ([""] + tail)[1..] == tail;
      calc {
        Join(Split(s));
        "" + Sep + Join(tail);
        Sep + s[2..];
        { assert s[..2] == Sep; }
        s[..2] + s[2..];
        s;
      }
    } else {
      var rest := Split(s[1..]);
      JoinSplit(s[1..]);
      var parts := [[s[0]] + rest[0]] + rest[1..];
      assert Split(s) == parts;
      if |rest| == 1 {
        assert Join(parts) == [s[0]] + rest[0];
      } else {
        assert parts[1..] == rest[1..];
        assert Join(rest) == rest[0] + Sep + Join(rest[1..]);
        assert Join(parts) == ([s[0]] + rest[0]) + Sep + Join(rest[1..]);
      }
      assert s == [s[0]] + s[1..];
    }
  }

  /** The first piece of a split starts with the text's first character. */
  lemma HeadStartsText(s: string)
    requires |Split(s)[0]| > 0
    ensures Split(s)[0][0] == s[0]
  {
  }

  /** No piece of a split contains the separator. */
  lemma {:induction false} SplitPiecesHaveNoSep(s: string)
    ensures forall j :: 0 <= j < |Split(s)| ==> !HasSep(Split(s)[j])
    decreases |s|
  {
    if |s| < 2 {
    } else if StartsWithSep(s) {
      SplitPiecesHaveNoSep(s[2..]);
      forall j | 0 <= j < |Split(s)| ensures !HasSep(Split(s)[j]) {
        if j > 0 { assert Split(s)[j] == Split(s[2..])[j - 1]; }
      }
    } else {
      var rest := Split(s[1..]);
      SplitPiecesHaveNoSep(s[1..]);
      var first := [s[0]] + rest[0];
      assert !HasSep(rest[0]);
      forall i | 0 <= i < |first| - 1 ensures !(first[i] == '_' && first[i + 1] == '_') {
        if i == 0 {
          HeadStartsText(s[1..]);
        } else {
          assert first[i] == rest[0][i - 1] && first[i + 1] == rest[0][i];
        }
      }
      forall j | 0 <= j < |Split(s)| ensures !HasSep(Split(s)[j]) {
        if j > 0 { assert Split(s)[j] == rest[j]; }
      }
    }
  }

  /**
   * A path is its head, followed, when it had a separator, by `"__"` and the
   * forwarded path; the head never contains the separator.
   */
  lemma PathDecomposes(path: string)
    ensures !HasSep(Head(path))
    ensures |Split(path)| == 1 ==> path == Head(path) && Forwarded(path) == ""
    ensures |Split(path)| > 1 ==> path == Head(path) + Sep + Forwarded(path)
  {
    JoinSplit(path);
    SplitPiecesHaveNoSep(path);
    var parts := Split(path);
    if |parts| > 1 {
      assert Join(parts) == parts[0] + Sep + Join(parts[1..]);
    }
  }
}
