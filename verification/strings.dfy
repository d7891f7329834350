/** Text helpers the classifier is built from: ASCII lower-casing, splitting a
    request path into its '/'-separated segments and joining them back, and
    cutting a segment at its first '?'. */
module Strings {

  /** Lower-cases one ASCII letter; every other character is left alone. */
  function LowerChar(c: char): char {
    if 'A' <= c <= 'Z' then (c as int + 32) as char else c
  }

  /** ASCII lower-casing of a whole string, character by character. */
  function Lower(s: string): (r: string)
    ensures |r| == |s|
    ensures forall i :: 0 <= i < |s| ==> r[i] == LowerChar(s[i])
  {
    if |s| == 0 then "" else [LowerChar(s[0])] + Lower(s[1..])
  }

  /** The segments of `s` between its '/' separators, in order. Like Go's
      `strings.Split(s, "/")`, the result always has at least one element and
      an empty string splits into one empty segment. */
  function Split(s: string): (segs: seq<string>)
    ensures |segs| >= 1
    ensures forall i :: 0 <= i < |segs| ==> '/' !in segs[i]
  {
    if |s| == 0 then [""]
    else
      var rest := Split(s[1..]);
      if s[0] == '/' then [""] + rest
      else [[s[0]] + rest[0]] + rest[1..]
  }

  /** Glues segments back together with '/' between neighbours. */
  function Join(segs: seq<string>): string {
    if |segs| == 0 then ""
    else if |segs| == 1 then segs[0]
    else segs[0] + "/" + Join(segs[1..])
  }

  /** Every segment is free of the separator. */
  predicate NoSlash(segs: seq<string>) {
    forall i :: 0 <= i < |segs| ==> '/' !in segs[i]
  }

  /** Splitting a segment followed by a separator peels that segment off. */
  lemma {:induction false} SplitCons(a: string, rest: string)
    requires '/' !in a
    ensures Split(a + "/" + rest) == [a] + Split(rest)
    decreases |a|
  {
    if |a| == 0 {
      assert a + "/" + rest == "/" + rest;
      assert ("/" + rest)[1..] == rest;
    } else {
      var s := a + "/" + rest;
      assert s[0] == a[0];
      assert s[1..] == a[1..] + "/" + rest;
      SplitCons(a[1..], rest);
      assert [a[0]] + a[1..] == a;
    }
  }

  /** A string without a separator is a single segment. */
  lemma {:induction false} SplitSingle(a: string)
    requires '/' !in a
    ensures Split(a) == [a]
    decreases |a|
  {
    if |a| > 0 {
      SplitSingle(a[1..]);
      assert [a[0]] + a[1..] == a;
    }
  }

  /** Joining separator-free segments and splitting the result gives the
      segments back: `Split` is the inverse of `Join`. */
  lemma {:induction false} SplitJoin(segs: seq<string>)
    requires |segs| >= 1
    requires NoSlash(segs)
    ensures Split(Join(segs)) == segs
    decreases |segs|
  {
    if |segs| == 1 {
      SplitSingle(segs[0]);
    } else {
      SplitJoin(segs[1..]);
      SplitCons(segs[0], Join(segs[1..]));
    }
  }

  /** Splitting a string and joining the segments gives the string back. */
  lemma {:induction false} JoinSplit(s: string)
    ensures Join(Split(s)) == s
    decreases |s|
  {
    if |s| > 0 {
      var rest := Split(s[1..]);
      JoinSplit(s[1..]);
      if s[0] == '/' {
        assert Join([""] + rest) == "" + "/" + Join(rest) by {
          assert ([""] + rest)[1..] == rest;
        }
        assert s == [s[0]] + s[1..];
      } else {
        var segs := [[s[0]] + rest[0]] + rest[1..];
        if |rest| == 1 {
          assert segs == [[s[0]] + rest[0]];
          assert s == [s[0]] + s[1..];
        } else {
          assert segs[1..] == rest[1..];
          assert Join(rest) == rest[0] + "/" + Join(rest[1..]);
          assert s == [s[0]] + s[1..];
        }
      }
    }
  }

  /** The part of a segment before its first '?': the `[^/?]+` run a regex
      capture can take from that segment. */
  function BeforeQuery(x: string): (r: string)
    ensures |r| <= |x| && r == x[..|r|]
    ensures '?' !in r
    ensures |r| < |x| ==> x[|r|] == '?'
  {
    if |x| == 0 || x[0] == '?' then "" else [x[0]] + BeforeQuery(x[1..])
  }

  /** A segment with no query marker in it. */
  predicate Clean(x: string) {
    '?' !in x
  }

  /** A clean segment is its own query-free part. */
  lemma BeforeQueryClean(x: string)
    requires Clean(x)
    ensures BeforeQuery(x) == x
  {
  }

  /** A query appended to a clean segment is cut off again. */
  lemma {:induction false} BeforeQueryAppend(x: string, q: string)
    requires Clean(x)
    ensures BeforeQuery(x + "?" + q) == x
    decreases |x|
  {
    if |x| == 0 {
      assert (x + "?" + q)[0] == '?';
    } else {
      assert (x + "?" + q)[1..] == x[1..] + "?" + q;
      BeforeQueryAppend(x[1..], q);
      assert [x[0]] + x[1..] == x;
    }
  }

  /** Whether `s` ends with `suffix`. */
  predicate EndsWith(s: string, suffix: string) {
    |suffix| <= |s| && s[|s| - |suffix|..] == suffix
  }

  /** Offset in `Join(segs)` at which segment `k` begins; `Start(segs, |segs|)`
      is one past the end of the text (as if a last separator followed). */
  function Start(segs: seq<string>, k: nat): nat
    requires k <= |segs|
  {
    if k == 0 then 0 else Start(segs, k - 1) + |segs[k - 1]| + 1
  }

  /** Length of the text the segments join into. */
  function TextLen(segs: seq<string>): int
    requires |segs| >= 1
  {
    Start(segs, |segs|) - 1
  }

  /** A segment ends, and its separator follows, before any later segment begins. */
  lemma {:induction false} StartMonotone(segs: seq<string>, i: nat, j: nat)
    requires i < j <= |segs|
    ensures Start(segs, i) + |segs[i]| + 1 <= Start(segs, j)
    decreases j
  {
    if j > i + 1 {
      StartMonotone(segs, i, j - 1);
    }
  }

  /** Dropping the first segment shifts every offset by that segment and its separator. */
  lemma {:induction false} StartTail(segs: seq<string>, k: nat)
    requires 1 <= k <= |segs|
    ensures Start(segs, k) == |segs[0]| + 1 + Start(segs[1..], k - 1)
    decreases k
  {
    if k > 1 {
      StartTail(segs, k - 1);
    }
  }

  /** `TextLen` is the length of the joined text, so the offsets above are
      positions in the very string the regexes run on. */
  lemma {:induction false} JoinLength(segs: seq<string>)
    requires |segs| >= 1
    ensures |Join(segs)| == TextLen(segs)
    decreases |segs|
  {
    if |segs| == 1 {
      assert Start(segs, 1) == Start(segs, 0) + |segs[0]| + 1;
    } else {
      JoinLength(segs[1..]);
      StartTail(segs, |segs|);
      assert Join(segs) == segs[0] + "/" + Join(segs[1..]);
    }
  }
}
