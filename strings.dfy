/**
 * The PHP and Laravel string helpers the generator relies on, as pure
 * functions over `seq<char>`: substring search (`Str::contains`),
 * `str_replace`, `implode`, `trim` of one character, `strtoupper` and
 * `str_repeat`.
 */
module Strings {

  /** `p` is a prefix of `s`. */
  predicate IsPrefix(p: string, s: string) {
    |p| <= |s| && s[..|p|] == p
  }

  /** `n` occurs somewhere inside `s` (the empty string occurs everywhere). */
  predicate Occurs(n: string, s: string)
    decreases |s|
  {
    IsPrefix(n, s) || (s != [] && Occurs(n, s[1..]))
  }

  /** `Str::contains($haystack, $needle)`: an empty needle never matches. */
  predicate Contains(haystack: string, needle: string) {
    needle != [] && Occurs(needle, haystack)
  }

  /** `str_replace($needle, $replacement, $s)`: scans left to right and
      replaces every non-overlapping occurrence; an empty needle leaves the
      subject as it is. */
  function ReplaceAll(s: string, needle: string, replacement: string): string
    decreases |s|
  {
    if needle == [] || |s| < |needle| then s
    else if IsPrefix(needle, s) then replacement + ReplaceAll(s[|needle|..], needle, replacement)
    else [s[0]] + ReplaceAll(s[1..], needle, replacement)
  }

  /** Number of occurrences that `ReplaceAll` replaces. */
  function Replaced(s: string, needle: string): nat
    decreases |s|
  {
    if needle == [] || |s| < |needle| then 0
    else if IsPrefix(needle, s) then 1 + Replaced(s[|needle|..], needle)
    else Replaced(s[1..], needle)
  }

  /** Replacing a single character by a text that does not hold it leaves
      no such character behind. */
  lemma {:induction false} ReplaceCharRemovesIt(s: string, c: char, replacement: string)
    requires c !in replacement
    ensures c !in ReplaceAll(s, [c], replacement)
  {
    if |s| >= 1 {
      ReplaceCharRemovesIt(s[1..], c, replacement);
      if IsPrefix([c], s) {
        assert s[1..] == s[|[c]|..];
      } else {
        assert s[0] != c;
      }
    }
  }

  /** A text that does not hold the first character of the needle is left
      as it is. */
  lemma {:induction false} ReplaceAbsent(s: string, needle: string, replacement: string)
    requires needle != [] && needle[0] !in s
    ensures ReplaceAll(s, needle, replacement) == s
  {
    if |s| >= |needle| {
      assert s[0] in s;
      assert !IsPrefix(needle, s);
      ReplaceAbsent(s[1..], needle, replacement);
      assert [s[0]] + s[1..] == s;
    }
  }

  /** Whatever the replacement, the result holds every character of the
      subject that is not inside a replaced occurrence; in particular a
      subject without the needle comes back unchanged. */
  lemma {:induction false} ReplaceNothingToDo(s: string, needle: string, replacement: string)
    requires Replaced(s, needle) == 0
    ensures ReplaceAll(s, needle, replacement) == s
  {
    if needle != [] && |s| >= |needle| {
      ReplaceNothingToDo(s[1..], needle, replacement);
      assert [s[0]] + s[1..] == s;
    }
  }

  /** Concatenation of sequences is associative. */
  lemma AppendAssociative<T>(p: seq<T>, q: seq<T>, r: seq<T>)
    ensures p + (q + r) == (p + q) + r
  {
  }

  /** A sequence is its prefix followed by the rest. */
  lemma TakeDrop<T>(s: seq<T>, i: nat)
    requires i <= |s|
    ensures s[..i] + s[i..] == s
  {
  }

  /** A prefix one element longer. */
  lemma TakeSnoc<T>(s: seq<T>, i: nat)
    requires i < |s|
    ensures s[..i + 1] == s[..i] + [s[i]]
  {
  }

  /** `implode($sep, $pieces)`. */
  function Join(pieces: seq<string>, sep: string): string {
    if pieces == [] then []
    else if |pieces| == 1 then pieces[0]
    else pieces[0] + sep + Join(pieces[1..], sep)
  }

  /** Joining one more piece appends the separator and the piece. */
  lemma {:induction false} JoinSnoc(pieces: seq<string>, last: string, sep: string)
    requires pieces != []
    ensures Join(pieces + [last], sep) == Join(pieces, sep) + sep + last
  {
    if |pieces| == 1 {
      assert (pieces + [last])[1..] == [last];
    } else {
      assert (pieces + [last])[1..] == pieces[1..] + [last];
      JoinSnoc(pieces[1..], last, sep);
    }
  }

  /** Concatenation of a list of fragments. */
  function Concat(parts: seq<string>): string {
    if parts == [] then [] else parts[0] + Concat(parts[1..])
  }

  lemma {:induction false} ConcatSnoc(parts: seq<string>, last: string)
    ensures Concat(parts + [last]) == Concat(parts) + last
  {
    if parts != [] {
      assert (parts + [last])[1..] == parts[1..] + [last];
      ConcatSnoc(parts[1..], last);
    }
  }

  /** `ltrim($s, $c)` for a one-character mask. */
  function TrimLeft(s: string, c: char): (r: string)
    ensures |r| <= |s| && (r != [] ==> r[0] != c)
    ensures r == s[|s| - |r|..]
    decreases |s|
  {
    if s != [] && s[0] == c then TrimLeft(s[1..], c) else s
  }

  /** `rtrim($s, $c)` for a one-character mask. */
  function TrimRight(s: string, c: char): (r: string)
    ensures |r| <= |s| && (r != [] ==> r[|r| - 1] != c)
    ensures r == s[..|r|]
    decreases |s|
  {
    if s != [] && s[|s| - 1] == c then TrimRight(s[..|s| - 1], c) else s
  }

  /** `trim($s, $c)`: both ends. */
  function Trim(s: string, c: char): string {
    TrimLeft(TrimRight(s, c), c)
  }

  /** Trimming leaves no mask character at either end and keeps the middle. */
  lemma TrimEnds(s: string, c: char)
    ensures var r := Trim(s, c);
      r != [] ==> r[0] != c && r[|r| - 1] != c
  {
    var t := TrimRight(s, c);
    var r := TrimLeft(t, c);
    if r != [] {
      assert r == t[|t| - |r|..];
      assert r[|r| - 1] == t[|t| - 1];
    }
  }

  /** `strtoupper` on one ASCII character. */
  function UpperChar(c: char): (u: char)
    ensures 'a' <= c <= 'z' ==> 'A' <= u <= 'Z'
    ensures !('a' <= c <= 'z') ==> u == c
  {
    if 'a' <= c <= 'z' then (c as int - 32) as char else c
  }

  /** `strtoupper` on a string. */
  function Upper(s: string): string {
    seq(|s|, i requires 0 <= i < |s| => UpperChar(s[i]))
  }

  /** `str_repeat($c, $n)`. */
  function Repeat(c: char, n: nat): string {
    seq(n, _ => c)
  }

  /** Character-wise order of PHP's `strcmp`: a proper prefix comes first. */
  predicate LessEq(a: string, b: string)
    decreases |a|
  {
    a == [] || (b != [] && (a[0] < b[0] || (a[0] == b[0] && LessEq(a[1..], b[1..]))))
  }

  lemma {:induction false} LessEqTotal(a: string, b: string)
    ensures LessEq(a, b) || LessEq(b, a)
  {
    if a != [] && b != [] && a[0] == b[0] {
      LessEqTotal(a[1..], b[1..]);
    }
  }

  lemma {:induction false} LessEqReflexive(a: string)
    ensures LessEq(a, a)
  {
    if a != [] {
      LessEqReflexive(a[1..]);
    }
  }

  lemma {:induction false} LessEqTransitive(a: string, b: string, c: string)
    requires LessEq(a, b) && LessEq(b, c)
    ensures LessEq(a, c)
  {
    if a != [] && b != [] && c != [] && a[0] == b[0] && b[0] == c[0] {
      LessEqTransitive(a[1..], b[1..], c[1..]);
    }
  }

  lemma {:induction false} LessEqAntisymmetric(a: string, b: string)
    requires LessEq(a, b) && LessEq(b, a)
    ensures a == b
  {
    if a != [] && b != [] {
      LessEqAntisymmetric(a[1..], b[1..]);
      assert a == [a[0]] + a[1..] && b == [b[0]] + b[1..];
    }
  }

  /** `array_unique`: the first occurrence of every element, in order. */
  function Unique<T(==)>(xs: seq<T>): (u: seq<T>)
    ensures forall i :: 0 <= i < |u| ==> u[i] in xs
    ensures forall i :: 0 <= i < |xs| ==> xs[i] in u
    ensures forall i, j :: 0 <= i < j < |u| ==> u[i] != u[j]
    ensures |u| <= |xs|
  {
    if xs == [] then []
    else
      var u := Unique(xs[..|xs| - 1]);
      assert xs == xs[..|xs| - 1] + [xs[|xs| - 1]];
      if xs[|xs| - 1] in u then u else u + [xs[|xs| - 1]]
  }

  /** `array_unique` after one more element. */
  lemma UniqueSnoc<T>(xs: seq<T>, x: T)
    ensures Unique(xs + [x]) == if x in Unique(xs) then Unique(xs) else Unique(xs) + [x]
  {
    assert (xs + [x])[..|xs + [x]| - 1] == xs;
  }
}
