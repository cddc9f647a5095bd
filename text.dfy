/** String helpers the command router relies on: the lowering applied to the
    first argument before keyword matching, the space join of an argument list,
    and a split at the first occurrence of a character (used to read a request
    URL back). Strings are sequences of characters. */
module Text {

  /** ASCII lowering of one character; every other character is left as it is. */
  function LowerChar(c: char): (d: char)
    ensures 'A' <= c <= 'Z' ==> d as int == c as int + 32
    ensures !('A' <= c <= 'Z') ==> d == c
    ensures !('A' <= d <= 'Z')
  {
    if 'A' <= c <= 'Z' then (c as int + 32) as char else c
  }

  /** `s.toLowerCase()`, restricted to ASCII letters. */
  function Lower(s: string): (r: string)
    ensures |r| == |s|
    ensures forall i :: 0 <= i < |s| ==> r[i] == LowerChar(s[i])
  {
    if s == [] then [] else [LowerChar(s[0])] + Lower(s[1..])
  }

  /** No upper-case ASCII letter in `s`. */
  predicate IsLower(s: string) {
    forall i :: 0 <= i < |s| ==> !('A' <= s[i] <= 'Z')
  }

  /** Lowering yields a lower-case string and leaves a lower-case string alone. */
  lemma LowerIsLower(s: string)
    ensures IsLower(Lower(s))
    ensures IsLower(s) ==> Lower(s) == s
  {
  }

  /** Lowering matches a lower-case word `k` exactly when `s` spells `k` letter
      for letter, each letter in either case. */
  lemma LowerMatches(s: string, k: string)
    requires IsLower(k)
    ensures Lower(s) == k <==> |s| == |k| && forall i :: 0 <= i < |s| ==> LowerChar(s[i]) == k[i]
  {
  }

  /** `xs.join(sep)`: the elements of `xs` with `sep` between neighbours. */
  function Join(xs: seq<string>, sep: string): (r: string)
    ensures |xs| == 0 ==> r == ""
    ensures |xs| > 0 ==> xs[0] <= r
  {
    if |xs| == 0 then ""
    else if |xs| == 1 then xs[0]
    else xs[0] + sep + Join(xs[1..], sep)
  }

  /** Appending an element to a non-empty list appends one separator and
      that element to the join. */
  lemma {:induction false} JoinAppend(xs: seq<string>, x: string, sep: string)
    requires |xs| > 0
    ensures Join(xs + [x], sep) == Join(xs, sep) + sep + x
  {
    if |xs| == 1 {
      assert xs + [x] == [xs[0], x];
      assert [xs[0], x][1..] == [x];
    } else {
      assert (xs + [x])[1..] == xs[1..] + [x];
      JoinAppend(xs[1..], x, sep);
    }
  }

  /** The join is as long as its elements together plus one separator
      between each pair of neighbours. */
  lemma {:induction false} JoinLength(xs: seq<string>, sep: string)
    requires |xs| > 0
    ensures |Join(xs, sep)| == TotalLength(xs) + (|xs| - 1) * |sep|
  {
    if |xs| > 1 {
      JoinLength(xs[1..], sep);
    }
  }

  function TotalLength(xs: seq<string>): nat {
    if |xs| == 0 then 0 else |xs[0]| + TotalLength(xs[1..])
  }

  /** The part of `s` before the first `c`, and the rest (empty when `s` has no `c`). */
  function SplitAt(s: string, c: char): (p: (string, string))
    ensures p.0 + p.1 == s
    ensures c !in p.0
    ensures p.1 == [] || p.1[0] == c
  {
    if s == [] then ([], [])
    else if s[0] == c then ([], s)
    else
      var q := SplitAt(s[1..], c);
      assert [s[0]] + (q.0 + q.1) == s;
      ([s[0]] + q.0, q.1)
  }

  /** Splitting a concatenation whose left part has no `c`, and whose right part
      starts with `c`, gives the two parts back. */
  lemma {:induction false} SplitAtConcat(a: string, b: string, c: char)
    requires c !in a
    requires b != [] && b[0] == c
    ensures SplitAt(a + b, c) == (a, b)
  {
    if a == [] {
      assert a + b == b;
    } else {
      assert (a + b)[1..] == a[1..] + b;
      SplitAtConcat(a[1..], b, c);
      assert [a[0]] + a[1..] == a;
    }
  }
}
