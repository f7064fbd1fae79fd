/** Character classes, searches and sequence helpers shared by the scanners and services.

    `\s` of the regular expressions is modelled by `IsWhite`, the .NET class
    `[\f\n\r\t\v\x85\p{Z}]`, and `\d` by `IsDigit` (the ASCII digits). String comparisons
    are ordinal. */
module Text {
  import opened Wrappers

  /** The control characters `\t`, `\n`, `\v`, `\f`, `\r` and U+0085, and the Unicode
      space, line and paragraph separators (categories Zs, Zl and Zp). */
  predicate IsWhite(c: char) {
    c == '\t' || c == '\n' || c == '\U{0B}' || c == '\U{0C}' || c == '\r' || c == '\U{85}'
    || c == ' ' || c == '\U{A0}' || c == '\U{1680}' || '\U{2000}' <= c <= '\U{200A}'
    || c == '\U{2028}' || c == '\U{2029}' || c == '\U{202F}' || c == '\U{205F}' || c == '\U{3000}'
  }

  predicate IsDigit(c: char) { '0' <= c <= '9' }

  lemma DigitNotWhite(c: char)
    requires IsDigit(c)
    ensures !IsWhite(c)
  {
  }

  predicate IsLineBreak(c: char) { c == '\r' || c == '\n' }

  /** `p` occurs in `s` at position `i`. */
  predicate StartsAt(s: string, i: nat, p: string) {
    i + |p| <= |s| && s[i..i + |p|] == p
  }

  predicate StartsWith(s: string, p: string) { StartsAt(s, 0, p) }

  predicate EndsWith(s: string, p: string) {
    |p| <= |s| && s[|s| - |p|..] == p
  }

  predicate Contains(s: string, p: string) {
    exists i: nat | i <= |s| :: StartsAt(s, i, p)
  }

  /** Every character of `s[i..j]` is white space. */
  predicate AllWhite(s: string, i: nat, j: nat)
    requires i <= j <= |s|
  {
    forall k :: i <= k < j ==> IsWhite(s[k])
  }

  /** The greedy `\s*`: the first position at or after `i` that is not white space. */
  function SkipWhite(s: string, i: nat): (j: nat)
    requires i <= |s|
    ensures i <= j <= |s| && AllWhite(s, i, j)
    ensures j < |s| ==> !IsWhite(s[j])
    decreases |s| - i
  {
    if i < |s| && IsWhite(s[i]) then SkipWhite(s, i + 1) else i
  }

  /** A run of white space that ends before a non-white character is the greedy one. */
  lemma SkipWhiteUnique(s: string, i: nat, j: nat)
    requires i <= j < |s| && AllWhite(s, i, j) && !IsWhite(s[j])
    ensures SkipWhite(s, i) == j
  {
  }

  /** Leftmost occurrence of `p` in `s` at or after `from`. */
  function IndexOf(s: string, p: string, from: nat): (r: Option<nat>)
    requires from <= |s|
    ensures r.Some? ==> from <= r.value && StartsAt(s, r.value, p)
    ensures r.Some? ==> forall q: nat :: from <= q < r.value ==> !StartsAt(s, q, p)
    ensures r.None? ==> forall q: nat :: from <= q ==> !StartsAt(s, q, p)
    decreases |s| - from
  {
    if StartsAt(s, from, p) then Some(from)
    else if from == |s| then None
    else IndexOf(s, p, from + 1)
  }

  lemma IndexOfContains(s: string, p: string)
    ensures IndexOf(s, p, 0).Some? <==> Contains(s, p)
  {
    var r := IndexOf(s, p, 0);
    if r.Some? {
      assert StartsAt(s, r.value, p);
    }
  }

  /** Number of occurrences of `c` in `s` (`s.Split(c).Length` is one more). */
  function CountChar(s: string, c: char): (n: nat)
    ensures n <= |s|
    ensures n == 0 <==> forall k :: 0 <= k < |s| ==> s[k] != c
  {
    if s == [] then 0 else (if s[0] == c then 1 else 0) + CountChar(s[1..], c)
  }

  lemma {:induction false} CountCharAppend(a: string, b: string, c: char)
    ensures CountChar(a + b, c) == CountChar(a, c) + CountChar(b, c)
  {
    if a != [] {
      assert (a + b)[1..] == a[1..] + b;
      CountCharAppend(a[1..], b, c);
    } else {
      assert a + b == b;
    }
  }

  /** `s.TrimStart(c)` */
  function TrimStart(s: string, c: char): (r: string)
    ensures |r| <= |s| && r == s[|s| - |r|..]
    ensures r == [] || r[0] != c
    ensures forall k :: 0 <= k < |s| - |r| ==> s[k] == c
  {
    if |s| > 0 && s[0] == c then TrimStart(s[1..], c) else s
  }

  /** `s.PadLeft(n, c)` */
  function PadLeft(s: string, n: nat, c: char): (r: string)
    ensures |r| == if |s| < n then n else |s|
    ensures r[|r| - |s|..] == s
    ensures forall k :: 0 <= k < |r| - |s| ==> r[k] == c
  {
    if |s| < n then seq(n - |s|, _ => c) + s else s
  }

  /** `s.Split(["\r\n", "\r", "\n"], StringSplitOptions.RemoveEmptyEntries)`: the maximal
      non-empty runs of characters other than CR and LF. */
  function SplitLines(s: string): seq<string> {
    SplitFrom(s, [])
  }

  /** Splitting the rest `s` of the text when the line read so far is `cur`. */
  function SplitFrom(s: string, cur: string): seq<string>
    decreases |s|
  {
    if s == [] then (if cur == [] then [] else [cur])
    else if IsLineBreak(s[0]) then (if cur == [] then [] else [cur]) + SplitFrom(s[1..], [])
    else SplitFrom(s[1..], cur + [s[0]])
  }

  predicate NoLineBreak(s: string) {
    forall k :: 0 <= k < |s| ==> !IsLineBreak(s[k])
  }

  /** `s` with every CR and LF removed. */
  function RemoveBreaks(s: string): string {
    if s == [] then [] else (if IsLineBreak(s[0]) then [] else [s[0]]) + RemoveBreaks(s[1..])
  }

  function Concat(lines: seq<string>): string {
    if lines == [] then [] else lines[0] + Concat(lines[1..])
  }

  lemma {:induction false} ConcatAppend(a: seq<string>, b: seq<string>)
    ensures Concat(a + b) == Concat(a) + Concat(b)
  {
    if a == [] {
      assert a + b == b;
    } else {
      assert (a + b)[1..] == a[1..] + b;
      ConcatAppend(a[1..], b);
    }
  }

  lemma {:induction false} SplitFromLines(s: string, cur: string)
    requires NoLineBreak(cur)
    ensures forall line <- SplitFrom(s, cur) :: line != [] && NoLineBreak(line)
    decreases |s|
  {
    if s == [] {
    } else if IsLineBreak(s[0]) {
      SplitFromLines(s[1..], []);
      var head: seq<string> := if cur == [] then [] else [cur];
      assert SplitFrom(s, cur) == head + SplitFrom(s[1..], []);
    } else {
      assert NoLineBreak(cur + [s[0]]);
      SplitFromLines(s[1..], cur + [s[0]]);
    }
  }

  lemma {:induction false} SplitFromConcat(s: string, cur: string)
    ensures Concat(SplitFrom(s, cur)) == cur + RemoveBreaks(s)
    decreases |s|
  {
    if s == [] {
      if cur != [] {
        assert Concat([cur]) == cur + Concat([cur][1..]);
      }
    } else if IsLineBreak(s[0]) {
      SplitFromConcat(s[1..], []);
      var head: seq<string> := if cur == [] then [] else [cur];
      assert SplitFrom(s, cur) == head + SplitFrom(s[1..], []);
      ConcatAppend(head, SplitFrom(s[1..], []));
      assert Concat(head) == cur by {
        if cur != [] {
          assert Concat([cur]) == cur + Concat([cur][1..]);
        }
      }
      assert RemoveBreaks(s) == RemoveBreaks(s[1..]);
    } else {
      SplitFromConcat(s[1..], cur + [s[0]]);
      assert RemoveBreaks(s) == [s[0]] + RemoveBreaks(s[1..]);
      assert cur + RemoveBreaks(s) == (cur + [s[0]]) + RemoveBreaks(s[1..]);
    }
  }

  /** The lines of a split are non-empty, hold no CR or LF, and together hold exactly the
      characters of the text other than CR and LF, in order. */
  lemma SplitLinesShape(s: string)
    ensures forall line <- SplitLines(s) :: line != [] && NoLineBreak(line)
    ensures Concat(SplitLines(s)) == RemoveBreaks(s)
  {
    SplitFromLines(s, []);
    SplitFromConcat(s, []);
  }

  /** LINQ `Where`: the elements satisfying `p`, in their order. */
  function Filter<T>(s: seq<T>, p: T -> bool): (r: seq<T>)
    ensures |r| <= |s|
    ensures forall x <- r :: p(x)
  {
    if s == [] then [] else Filter(s[..|s| - 1], p) + (if p(s[|s| - 1]) then [s[|s| - 1]] else [])
  }

  lemma {:induction false} FilterMembers<T>(s: seq<T>, p: T -> bool, x: T)
    ensures x in Filter(s, p) <==> x in s && p(x)
  {
    if s != [] {
      FilterMembers(s[..|s| - 1], p, x);
      assert s == s[..|s| - 1] + [s[|s| - 1]];
    }
  }

  lemma {:induction false} FilterAppend<T>(a: seq<T>, b: seq<T>, p: T -> bool)
    ensures Filter(a + b, p) == Filter(a, p) + Filter(b, p)
    decreases |b|
  {
    if b != [] {
      assert (a + b)[..|a + b| - 1] == a + b[..|b| - 1];
      FilterAppend(a, b[..|b| - 1], p);
    } else {
      assert a + b == a;
    }
  }

  /** Two predicates that agree on the elements of `s` select the same elements. */
  lemma {:induction false} FilterCongruent<T>(s: seq<T>, p: T -> bool, q: T -> bool)
    requires forall x <- s :: p(x) == q(x)
    ensures Filter(s, p) == Filter(s, q)
  {
    if s != [] {
      FilterCongruent(s[..|s| - 1], p, q);
    }
  }

  predicate NoDuplicates<T(==)>(s: seq<T>) {
    forall i, j :: 0 <= i < j < |s| ==> s[i] != s[j]
  }

  /** LINQ `Distinct`: the first occurrence of every element, in order of first occurrence. */
  function Distinct<T(==)>(s: seq<T>): (r: seq<T>)
    ensures |r| <= |s|
  {
    if s == [] then []
    else
      var d := Distinct(s[..|s| - 1]);
      if s[|s| - 1] in d then d else d + [s[|s| - 1]]
  }

  lemma {:induction false} DistinctMembers<T>(s: seq<T>)
    ensures NoDuplicates(Distinct(s))
    ensures forall x :: x in Distinct(s) <==> x in s
  {
    if s != [] {
      DistinctMembers(s[..|s| - 1]);
      assert s == s[..|s| - 1] + [s[|s| - 1]];
    }
  }

  lemma {:induction false} DistinctOfUnique<T>(s: seq<T>)
    requires NoDuplicates(s)
    ensures Distinct(s) == s
  {
    if s != [] {
      var init := s[..|s| - 1];
      DistinctOfUnique(init);
      DistinctMembers(init);
      assert s[|s| - 1] !in init;
      assert s == init + [s[|s| - 1]];
    }
  }

  /** `Any()` on the distinct elements is `Any()` on the elements. */
  lemma DistinctEmpty<T>(s: seq<T>)
    ensures Distinct(s) == [] <==> s == []
  {
    DistinctMembers(s);
    if s != [] {
      assert s[0] in s;
    }
  }
}
