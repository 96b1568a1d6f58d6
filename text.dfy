/**
 * The handful of Python string operations the backend relies on, written out
 * over `seq<char>`: `str.startswith`, `sep.join`, `s.split(c)` for a
 * one-character separator and `s.replace(target, replacement, 1)`.
 */
module Text {
  import opened Common

  /** Python's `s.startswith(prefix)`. */
  predicate StartsWith(s: string, prefix: string) {
    |prefix| <= |s| && s[..|prefix|] == prefix
  }

  /** Python's `sep.join(parts)`: the parts in order, one `sep` between neighbours. */
  function Join(parts: seq<string>, sep: string): string {
    if |parts| == 0 then ""
    else if |parts| == 1 then parts[0]
    else parts[0] + sep + Join(parts[1..], sep)
  }

  /**
   * Python's `s.split(c)` for a one-character separator `c`: the maximal
   * runs between occurrences of `c`, so there is always at least one field
   * and no field contains `c`.
   */
  function Split(s: string, c: char): (fields: seq<string>)
    ensures |fields| >= 1
    ensures forall i :: 0 <= i < |fields| ==> c !in fields[i]
  {
    if |s| == 0 then [""]
    else
      var rest := Split(s[1..], c);
      if s[0] == c then [""] + rest
      else [[s[0]] + rest[0]] + rest[1..]
  }

  /** The position of the first `c` in `s`, or `|s|` when there is none. */
  function FirstIndex(s: string, c: char): (i: nat)
    ensures i <= |s|
    ensures c !in s[..i]
    ensures i < |s| ==> s[i] == c
  {
    if |s| == 0 then 0
    else if s[0] == c then 0
    else 1 + FirstIndex(s[1..], c)
  }

  /** Whether `pat` occurs in `s` at position `k`. */
  predicate OccursAt(s: string, pat: string, k: nat) {
    k + |pat| <= |s| && s[k..k + |pat|] == pat
  }

  /** The first position at or after `from` where `pat` occurs in `s`. */
  function FindFrom(s: string, pat: string, from: nat): (r: Option<nat>)
    requires from <= |s|
    ensures r.Some? ==> from <= r.value && OccursAt(s, pat, r.value)
    ensures forall k :: from <= k && (r.None? || k < r.value) ==> !OccursAt(s, pat, k)
    decreases |s| - from
  {
    if OccursAt(s, pat, from) then Some(from)
    else if from == |s| then None
    else FindFrom(s, pat, from + 1)
  }

  /** Python's `s.find(pat)`, with `None` for -1. */
  function FindFirst(s: string, pat: string): Option<nat> {
    FindFrom(s, pat, 0)
  }

  /** Python's `s.replace(target, replacement, 1)`: the first occurrence of `target` replaced, if any. */
  function ReplaceFirst(s: string, target: string, replacement: string): string {
    match FindFirst(s, target)
    case None => s
    case Some(k) => s[..k] + replacement + s[k + |target|..]
  }

  /** When `s` starts with `target`, replacing its first occurrence rewrites exactly that prefix. */
  lemma ReplaceFirstAtStart(s: string, target: string, replacement: string)
    requires StartsWith(s, target)
    ensures ReplaceFirst(s, target, replacement) == replacement + s[|target|..]
  {
    assert OccursAt(s, target, 0);
  }

  /** The first field of `split` is everything before the first separator. */
  lemma {:induction false} SplitHead(s: string, c: char)
    ensures Split(s, c)[0] == s[..FirstIndex(s, c)]
  {
    if |s| > 0 && s[0] != c {
      SplitHead(s[1..], c);
    }
  }

  /** A separator-free prefix becomes the first field, the rest is split on its own. */
  lemma {:induction false} SplitAfterSeparator(a: string, c: char, b: string)
    requires c !in a
    ensures Split(a + [c] + b, c) == [a] + Split(b, c)
  {
    if |a| > 0 {
      SplitAfterSeparator(a[1..], c, b);
      assert (a + [c] + b)[1..] == a[1..] + [c] + b;
      var rest := Split(a[1..] + [c] + b, c);
      assert rest[0] == a[1..] && rest[1..] == Split(b, c);
      assert [a[0]] + a[1..] == a;
    } else {
      assert a + [c] + b == [c] + b;
    }
  }

  /** A string without the separator splits into itself. */
  lemma {:induction false} SplitWithoutSeparator(a: string, c: char)
    requires c !in a
    ensures Split(a, c) == [a]
  {
    if |a| > 0 {
      SplitWithoutSeparator(a[1..], c);
      assert [a[0]] + a[1..] == a;
    }
  }

  /** Joining on `c` and splitting on `c` gives back the parts when none of them contains `c`. */
  lemma {:induction false} SplitJoin(parts: seq<string>, c: char)
    requires |parts| >= 1
    requires forall i :: 0 <= i < |parts| ==> c !in parts[i]
    ensures Split(Join(parts, [c]), c) == parts
  {
    if |parts| == 1 {
      SplitWithoutSeparator(parts[0], c);
    } else {
      SplitJoin(parts[1..], c);
      SplitAfterSeparator(parts[0], c, Join(parts[1..], [c]));
      assert [parts[0]] + parts[1..] == parts;
    }
  }

  /** A join of a non-empty list begins with its first part. */
  lemma {:induction false} JoinStartsWithFirst(parts: seq<string>, sep: string)
    requires |parts| >= 1
    ensures StartsWith(Join(parts, sep), parts[0])
  {
    var j := Join(parts, sep);
    if |parts| > 1 {
      assert j == parts[0] + (sep + Join(parts[1..], sep));
    }
    assert j[..|parts[0]|] == parts[0];
  }

  /** Joining two non-empty lists is joining each and putting one separator between. */
  lemma {:induction false} JoinConcat(xs: seq<string>, ys: seq<string>, sep: string)
    requires |xs| >= 1 && |ys| >= 1
    ensures Join(xs + ys, sep) == Join(xs, sep) + sep + Join(ys, sep)
  {
    if |xs| > 1 {
      JoinConcat(xs[1..], ys, sep);
      assert (xs + ys)[1..] == xs[1..] + ys;
    } else {
      assert (xs + ys)[1..] == ys;
    }
  }

  /**
   * Where each part sits in a join: the parts before it joined, a separator if
   * there were any, the part itself, a separator if more follow, and the parts
   * after it joined. So the join keeps every part, in order.
   */
  lemma JoinAround(parts: seq<string>, sep: string, i: nat)
    requires i < |parts|
    ensures Join(parts, sep)
         == Join(parts[..i], sep) + (if i > 0 then sep else "")
          + parts[i]
          + (if i + 1 < |parts| then sep else "") + Join(parts[i + 1..], sep)
  {
    var before, after := parts[..i], parts[i + 1..];
    var middle := [parts[i]] + after;
    assert parts == before + middle;
    if i + 1 < |parts| {
      JoinConcat([parts[i]], after, sep);
    } else {
      assert middle == [parts[i]];
    }
    if i > 0 {
      JoinConcat(before, middle, sep);
    } else {
      assert parts == middle;
    }
  }
}
