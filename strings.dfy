/**
 * The parts of JavaScript's string API that the modelled code relies on:
 * `indexOf`, `includes`, `startsWith`, `split` with a non-empty separator, and `toUpperCase`
 * restricted to ASCII letters.
 */
module Strings {
  import opened Wrappers

  /** `t` occurs in `s` starting at position `k`. */
  predicate OccursAt(s: string, t: string, k: int)
  {
    0 <= k && k + |t| <= |s| && s[k..k + |t|] == t
  }

  /** `s.indexOf(t, from)`: the leftmost position at or after `from` where `t` occurs. */
  function IndexOfFrom(s: string, t: string, from: nat): (r: Option<nat>)
    ensures r.Some? ==> from <= r.value && OccursAt(s, t, r.value)
    ensures forall k :: from <= k && (r.None? || k < r.value) ==> !OccursAt(s, t, k)
    decreases |s| - from
  {
    if from + |t| > |s| then None
    else if s[from..from + |t|] == t then Some(from)
    else IndexOfFrom(s, t, from + 1)
  }

  /** `s.indexOf(t) > -1`. */
  predicate Contains(s: string, t: string)
  {
    IndexOfFrom(s, t, 0).Some?
  }

  lemma ContainsMeansOccurs(s: string, t: string)
    ensures Contains(s, t) <==> exists k :: OccursAt(s, t, k)
  {
    if Contains(s, t) {
      assert OccursAt(s, t, IndexOfFrom(s, t, 0).value);
    }
  }

  /** `s.startsWith(p)`. */
  predicate StartsWith(s: string, p: string)
  {
    |p| <= |s| && s[..|p|] == p
  }

  /** The inverse of `Split`: `parts.join(sep)`. */
  function Join(parts: seq<string>, sep: string): string
    requires |parts| >= 1
  {
    if |parts| == 1 then parts[0] else parts[0] + sep + Join(parts[1..], sep)
  }

  /**
   * `s.split(sep)` for a non-empty separator: cut at every non-overlapping occurrence,
   * scanning from the left. Joining the parts with `sep` gives `s` back, and no part
   * contains the separator.
   */
  function Split(s: string, sep: string): (parts: seq<string>)
    requires |sep| > 0
    ensures |parts| >= 1
    ensures Join(parts, sep) == s
    ensures forall k :: 0 <= k < |parts| ==> !Contains(parts[k], sep)
    decreases |s|
  {
    match IndexOfFrom(s, sep, 0)
    case None => [s]
    case Some(i) =>
      var rest := Split(s[i + |sep|..], sep);
      assert s == s[..i] + sep + s[i + |sep|..] by {
        assert s == s[..i] + s[i..i + |sep|] + s[i + |sep|..];
      }
      PrefixBeforeFirstOccurrence(s, sep, i);
      [s[..i]] + rest
  }

  lemma PrefixBeforeFirstOccurrence(s: string, sep: string, i: nat)
    requires |sep| > 0 && i <= |s|
    requires forall k :: 0 <= k < i ==> !OccursAt(s, sep, k)
    ensures !Contains(s[..i], sep)
  {
    forall k | OccursAt(s[..i], sep, k)
      ensures k < i && OccursAt(s, sep, k)
    {
      assert s[..i][k..k + |sep|] == s[k..k + |sep|];
    }
    ContainsMeansOccurs(s[..i], sep);
  }

  /** Without any occurrence of the separator, `split` returns the whole string. */
  lemma SplitWithoutOccurrence(s: string, sep: string)
    requires |sep| > 0
    requires forall k :: !OccursAt(s, sep, k)
    ensures Split(s, sep) == [s]
  {
    ContainsMeansOccurs(s, sep);
  }

  /** An occurrence of the separator gives at least two parts. */
  lemma {:induction false} SplitWithOccurrence(s: string, sep: string, i: int)
    requires |sep| > 0 && OccursAt(s, sep, i)
    ensures |Split(s, sep)| >= 2
  {
    var r := IndexOfFrom(s, sep, 0);
    assert r.Some?;
  }

  /** Two non-overlapping occurrences of the separator give at least three parts. */
  lemma {:induction false} SplitWithTwoOccurrences(s: string, sep: string, i: int, j: int)
    requires |sep| > 0 && OccursAt(s, sep, i) && OccursAt(s, sep, j) && i + |sep| <= j
    ensures |Split(s, sep)| >= 3
  {
    var r := IndexOfFrom(s, sep, 0);
    assert r.Some? && r.value <= i;
    var first := r.value;
    var rest := s[first + |sep|..];
    var j' := j - (first + |sep|);
    assert rest[j'..j' + |sep|] == s[j..j + |sep|];
    SplitWithOccurrence(rest, sep, j');
    assert Split(s, sep) == [s[..first]] + Split(rest, sep);
  }

  /** A unique occurrence of the separator at `i` cuts `s` into exactly the text before and after it. */
  lemma {:induction false} SplitWithUniqueOccurrence(s: string, sep: string, i: int)
    requires |sep| > 0 && OccursAt(s, sep, i)
    requires forall k :: k != i ==> !OccursAt(s, sep, k)
    ensures Split(s, sep) == [s[..i], s[i + |sep|..]]
  {
    var r := IndexOfFrom(s, sep, 0);
    assert r == Some(i);
    var rest := s[i + |sep|..];
    forall k | OccursAt(rest, sep, k)
      ensures OccursAt(s, sep, i + |sep| + k)
    {
      assert rest[k..k + |sep|] == s[i + |sep| + k..i + |sep| + k + |sep|];
    }
    SplitWithoutOccurrence(rest, sep);
  }

  /** The first part of `s.split(';')` when `s` is `value` followed by nothing or by `;...`. */
  lemma FirstFieldBeforeSemicolon(value: string, after: string)
    requires ';' !in value
    requires after == "" || after[0] == ';'
    ensures Split(value + after, ";")[0] == value
  {
    var s := value + after;
    forall k | 0 <= k < |value|
      ensures !OccursAt(s, ";", k)
    {
      assert s[k..k + 1] == [value[k]];
    }
    if after == "" {
      assert s == value;
      forall k | true ensures !OccursAt(s, ";", k) { }
      SplitWithoutOccurrence(s, ";");
    } else {
      assert OccursAt(s, ";", |value|) by { assert s[|value|..|value| + 1] == [after[0]]; }
      var r := IndexOfFrom(s, ";", 0);
      assert r == Some(|value|);
      assert s[..|value|] == value;
    }
  }

  /** A part free of the one-character separator does not contain that character. */
  lemma NoCharWhenNotContained(s: string, c: char)
    requires !Contains(s, [c])
    ensures c !in s
  {
    forall k | 0 <= k < |s| && s[k] == c
      ensures OccursAt(s, [c], k)
    {
      assert s[k..k + 1] == [c];
    }
    ContainsMeansOccurs(s, [c]);
  }

  /** `s.toUpperCase()` on ASCII letters; other characters are kept. */
  function AsciiUpper(s: string): (r: string)
    ensures |r| == |s|
    ensures forall k :: 0 <= k < |s| ==>
      r[k] == (if 'a' <= s[k] <= 'z' then (s[k] as int - 32) as char else s[k])
  {
    if s == [] then []
    else [if 'a' <= s[0] <= 'z' then (s[0] as int - 32) as char else s[0]] + AsciiUpper(s[1..])
  }
}
