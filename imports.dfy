/**
 * The import section of a generated model: the fully qualified class names
 * found in the generated text, and the sorted `use` lines for those that
 * lie outside the model's own base namespace.
 */
module Imports {
  import opened Strings

  /** A character of the class `[\\a-zA-Z0-9_]`. */
  predicate IsClassChar(c: char) {
    ('a' <= c <= 'z') || ('A' <= c <= 'Z') || ('0' <= c <= '9') || c == '_' || c == '\\'
  }

  /** Length of the run of class characters at the start of `s`. */
  function RunLength(s: string): (n: nat)
    ensures n <= |s|
    ensures forall i :: 0 <= i < n ==> IsClassChar(s[i])
    ensures n < |s| ==> !IsClassChar(s[n])
  {
    if s == [] || !IsClassChar(s[0]) then 0 else 1 + RunLength(s[1..])
  }

  /** The matches of `([\\a-zA-Z0-9_]*\\[\\a-zA-Z0-9_]*)`, left to right: a
      match can only start where a run of class characters starts, and the
      greedy star then takes the whole run, so the matches are exactly the
      maximal runs that hold a backslash. */
  function Matches(s: string): (ms: seq<string>)
    ensures forall i :: 0 <= i < |ms| ==> '\\' in ms[i] && Occurs(ms[i], s)
    ensures forall i :: 0 <= i < |ms| ==> forall k :: 0 <= k < |ms[i]| ==> IsClassChar(ms[i][k])
    decreases |s|
  {
    if s == [] then []
    else if !IsClassChar(s[0]) then
      var rest := Matches(s[1..]);
      OccursInTail(rest, s);
      rest
    else
      var n := RunLength(s);
      var rest := Matches(s[n..]);
      OccursInSuffix(rest, s, n);
      assert IsPrefix(s[..n], s);
      (if '\\' in s[..n] then [s[..n]] else []) + rest
  }

  /** Whatever occurs in a suffix occurs in the whole text. */
  lemma {:induction false} OccursInLonger(n: string, s: string, k: nat)
    requires k <= |s| && Occurs(n, s[k..])
    ensures Occurs(n, s)
    decreases k
  {
    if k > 0 {
      assert s[1..][k - 1..] == s[k..];
      OccursInLonger(n, s[1..], k - 1);
    }
  }

  lemma OccursInTail(ms: seq<string>, s: string)
    requires s != [] && forall i :: 0 <= i < |ms| ==> Occurs(ms[i], s[1..])
    ensures forall i :: 0 <= i < |ms| ==> Occurs(ms[i], s)
  {
  }

  lemma OccursInSuffix(ms: seq<string>, s: string, k: nat)
    requires k <= |s| && forall i :: 0 <= i < |ms| ==> Occurs(ms[i], s[k..])
    ensures forall i :: 0 <= i < |ms| ==> Occurs(ms[i], s)
  {
    forall i | 0 <= i < |ms| ensures Occurs(ms[i], s) {
      OccursInLonger(ms[i], s, k);
    }
  }

  /** A text without any backslash holds no qualified name. */
  lemma {:induction false} NoBackslashNoMatches(s: string)
    requires '\\' !in s
    ensures Matches(s) == []
    decreases |s|
  {
    if s != [] {
      if !IsClassChar(s[0]) {
        NoBackslashNoMatches(s[1..]);
      } else {
        var n := RunLength(s);
        assert '\\' !in s[n..];
        NoBackslashNoMatches(s[n..]);
      }
    }
  }

  /** A run of class characters ends where a non-class character follows. */
  lemma {:induction false} RunLengthStops(a: string, b: string)
    requires b != [] && !IsClassChar(b[0])
    ensures RunLength(a + b) == RunLength(a)
  {
    if a != [] && IsClassChar(a[0]) {
      assert (a + b)[1..] == a[1..] + b;
      RunLengthStops(a[1..], b);
    }
  }

  /** A character outside the class separates the matches: the matches of
      `a c b` are those of `a` followed by those of `b`. */
  lemma {:induction false} MatchesSplit(a: string, c: char, b: string)
    requires !IsClassChar(c)
    ensures Matches(a + [c] + b) == Matches(a) + Matches(b)
    decreases |a|, 1
  {
    var s := a + [c] + b;
    if a == [] {
      assert s[1..] == b;
    } else if !IsClassChar(a[0]) {
      assert s[1..] == a[1..] + [c] + b;
      MatchesSplit(a[1..], c, b);
    } else {
      MatchesSplitAfterRun(a, c, b);
    }
  }

  /** `MatchesSplit` when `a` starts with a run of class characters. */
  lemma {:induction false} MatchesSplitAfterRun(a: string, c: char, b: string)
    requires !IsClassChar(c) && a != [] && IsClassChar(a[0])
    ensures Matches(a + [c] + b) == Matches(a) + Matches(b)
    decreases |a|, 0
  {
    var n := RunLength(a);
    if n == |a| {
      MatchesSplitWholeRun(a, c, b);
    } else {
      var s := a + [c] + b;
      var t := a[n..];
      MatchesOfRun(a, c, b);
      assert s[n..] == t + [c] + b;
      MatchesSplit(t, c, b);
      AppendAssociative(FirstMatch(a), Matches(t), Matches(b));
    }
  }

  /** `MatchesSplit` when `a` is one run of class characters. */
  lemma MatchesSplitWholeRun(a: string, c: char, b: string)
    requires !IsClassChar(c) && a != [] && IsClassChar(a[0]) && RunLength(a) == |a|
    ensures Matches(a + [c] + b) == Matches(a) + Matches(b)
  {
    var s := a + [c] + b;
    var n := RunLength(a);
    MatchesOfRun(a, c, b);
    assert s[n..] == [c] + b;
    assert Matches([c] + b) == Matches(b) by {
      assert ([c] + b)[1..] == b;
    }
    assert Matches(a) == FirstMatch(a) by {
      assert a[n..] == [];
      assert FirstMatch(a) + [] == FirstMatch(a);
    }
  }

  /** The match the first run of class characters makes, if any. */
  function FirstMatch(a: string): seq<string> {
    var n := RunLength(a);
    if '\\' in a[..n] then [a[..n]] else []
  }

  /** The first run of `a` is also the first run of `a c b`. */
  lemma MatchesOfRun(a: string, c: char, b: string)
    requires a != [] && IsClassChar(a[0]) && !IsClassChar(c)
    ensures var n := RunLength(a);
      && Matches(a + [c] + b) == FirstMatch(a) + Matches((a + [c] + b)[n..])
      && Matches(a) == FirstMatch(a) + Matches(a[n..])
  {
    var s := a + [c] + b;
    assert s == a + ([c] + b);
    RunLengthStops(a, [c] + b);
    var n := RunLength(a);
    assert s[..n] == a[..n];
  }

  /** A qualified name standing alone is its own single match. */
  lemma WholeRunMatches(s: string)
    requires '\\' in s && forall k :: 0 <= k < |s| ==> IsClassChar(s[k])
    ensures Matches(s) == [s]
  {
    assert s[0] in s;
    RunLengthAll(s);
    assert s[|s|..] == [];
    assert s[..|s|] == s;
  }

  lemma {:induction false} RunLengthAll(s: string)
    requires forall k :: 0 <= k < |s| ==> IsClassChar(s[k])
    ensures RunLength(s) == |s|
  {
    if s != [] {
      RunLengthAll(s[1..]);
    }
  }

  /** Each match with its leading and trailing backslashes trimmed. */
  function Trimmed(ms: seq<string>): seq<string> {
    seq(|ms|, i requires 0 <= i < |ms| => Trim(ms[i], '\\'))
  }

  /** `extractUsedClasses`: the distinct trimmed matches, in order of first
      appearance. The text itself is not altered. */
  function ExtractUsedClasses(s: string): (used: seq<string>)
    ensures forall i, j :: 0 <= i < j < |used| ==> used[i] != used[j]
    ensures forall i :: 0 <= i < |used| ==> used[i] in Trimmed(Matches(s))
    ensures forall i :: 0 <= i < |Matches(s)| ==> Trim(Matches(s)[i], '\\') in used
  {
    var ms := Matches(s);
    assert forall i :: 0 <= i < |ms| ==> Trimmed(ms)[i] == Trim(ms[i], '\\');
    Unique(Trimmed(ms))
  }

  /** Every extracted name is trimmed from a match (`ExtractedFrom`), so it
      has no backslash at either end and holds class characters only. */
  lemma ExtractedShape(s: string, u: string)
    requires u in ExtractUsedClasses(s)
    ensures u != [] ==> u[0] != '\\' && u[|u| - 1] != '\\'
    ensures forall k :: 0 <= k < |u| ==> IsClassChar(u[k])
  {
    var i := ExtractedFrom(s, u);
    TrimmedMatchShape(Matches(s)[i]);
  }

  /** A match trimmed of backslashes has none at either end and keeps only
      class characters. */
  lemma TrimmedMatchShape(m: string)
    requires forall k :: 0 <= k < |m| ==> IsClassChar(m[k])
    ensures var u := Trim(m, '\\');
      && (u != [] ==> u[0] != '\\' && u[|u| - 1] != '\\')
      && (forall k :: 0 <= k < |u| ==> IsClassChar(u[k]))
  {
    TrimEnds(m, '\\');
    TrimKeepsChars(m, '\\');
  }

  /** The match an extracted name was trimmed from. */
  lemma ExtractedFrom(s: string, u: string) returns (i: nat)
    requires u in ExtractUsedClasses(s)
    ensures i < |Matches(s)| && u == Trim(Matches(s)[i], '\\')
    ensures forall k :: 0 <= k < |Matches(s)[i]| ==> IsClassChar(Matches(s)[i][k])
  {
    var ts := Trimmed(Matches(s));
    assert u in ts;
    i :| 0 <= i < |ts| && ts[i] == u;
  }

  /** Trimming keeps a contiguous part of the text. */
  lemma TrimKeepsChars(m: string, c: char)
    requires forall k :: 0 <= k < |m| ==> IsClassChar(m[k])
    ensures forall k :: 0 <= k < |Trim(m, c)| ==> IsClassChar(Trim(m, c)[k])
  {
    var t := TrimRight(m, c);
    var u := TrimLeft(t, c);
    forall k | 0 <= k < |u| ensures IsClassChar(u[k]) {
      assert u[k] == t[|t| - |u| + k] == m[|t| - |u| + k];
    }
  }

  /** The regex `<base>\\[a-zA-Z0-9_]*`, unanchored, matches exactly when
      `<base>\` occurs in the name, since the trailing star may match
      nothing. */
  predicate InNamespace(base: string, used: string) {
    Occurs(base + "\\", used)
  }

  /** The `use` line of a class. */
  function UseLine(used: string): string {
    "use " + used + ";"
  }

  /** The lines the loop of `formatUsedClasses` collects, in input order. */
  function ImportLines(base: string, used: seq<string>): (lines: seq<string>)
    ensures |lines| <= |used|
  {
    if used == [] then []
    else
      var last := used[|used| - 1];
      ImportLines(base, used[..|used| - 1]) + (if InNamespace(base, last) then [] else [UseLine(last)])
  }

  /** Each line imports a used class outside the base namespace. */
  lemma {:induction false} ImportLinesSound(base: string, used: seq<string>)
    ensures forall i :: 0 <= i < |ImportLines(base, used)| ==>
      exists j :: 0 <= j < |used| && !InNamespace(base, used[j]) && ImportLines(base, used)[i] == UseLine(used[j])
  {
    if used != [] {
      var init := used[..|used| - 1];
      var last := used[|used| - 1];
      ImportLinesSound(base, init);
      var prev := ImportLines(base, init);
      var lines := ImportLines(base, used);
      assert lines == prev + (if InNamespace(base, last) then [] else [UseLine(last)]);
      forall i | 0 <= i < |ImportLines(base, used)|
        ensures exists j :: 0 <= j < |used| && !InNamespace(base, used[j]) && ImportLines(base, used)[i] == UseLine(used[j])
      {
        if i < |prev| {
          assert lines[i] == prev[i];
          var j :| 0 <= j < |init| && !InNamespace(base, init[j]) && prev[i] == UseLine(init[j]);
          assert used[j] == init[j];
        } else {
          assert lines[i] == UseLine(used[|used| - 1]);
        }
      }
    } else {
      assert ImportLines(base, used) == [];
    }
  }

  /** Every used class outside the base namespace is imported. */
  lemma {:induction false} ImportLinesComplete(base: string, used: seq<string>)
    ensures forall j :: 0 <= j < |used| && !InNamespace(base, used[j]) ==> UseLine(used[j]) in ImportLines(base, used)
  {
    if used != [] {
      var init := used[..|used| - 1];
      var last := used[|used| - 1];
      ImportLinesComplete(base, init);
      var prev := ImportLines(base, init);
      var lines := ImportLines(base, used);
      assert lines == prev + (if InNamespace(base, last) then [] else [UseLine(last)]);
      forall j | 0 <= j < |used| && !InNamespace(base, used[j])
        ensures UseLine(used[j]) in lines
      {
        if j < |init| {
          assert used[j] == init[j];
          assert UseLine(init[j]) in prev;
        }
      }
    }
  }

  /** Distinct names give distinct use lines. */
  lemma UseLineInjective(a: string, b: string)
    ensures UseLine(a) == UseLine(b) ==> a == b
  {
    assert a == UseLine(a)[4..|UseLine(a)| - 1];
    assert b == UseLine(b)[4..|UseLine(b)| - 1];
  }

  /** Distinct used classes give distinct lines: no class is imported twice. */
  lemma {:induction false} ImportLinesDistinct(base: string, used: seq<string>)
    requires forall i, j :: 0 <= i < j < |used| ==> used[i] != used[j]
    ensures forall i, j :: 0 <= i < j < |ImportLines(base, used)| ==> ImportLines(base, used)[i] != ImportLines(base, used)[j]
  {
    if used != [] {
      var init := used[..|used| - 1];
      var last := used[|used| - 1];
      ImportLinesDistinct(base, init);
      ImportLinesSound(base, init);
      var prev := ImportLines(base, init);
      var lines := ImportLines(base, used);
      assert lines == prev + (if InNamespace(base, last) then [] else [UseLine(last)]);
      forall i, j | 0 <= i < j < |lines| ensures lines[i] != lines[j] {
        if j == |prev| {
          assert lines[i] == prev[i] && lines[j] == UseLine(last);
          var k :| 0 <= k < |init| && !InNamespace(base, init[k]) && prev[i] == UseLine(init[k]);
          assert init[k] == used[k] && used[k] != used[|used| - 1];
          UseLineInjective(init[k], last);
        } else {
          assert lines[i] == prev[i] && lines[j] == prev[j];
        }
      }
    }
  }

  /** The lines are in `strcmp` order. */
  ghost predicate Sorted(xs: seq<string>) {
    forall i, j :: 0 <= i < j < |xs| ==> LessEq(xs[i], xs[j])
  }

  /** Insertion of one line into sorted lines. */
  function Insert(x: string, xs: seq<string>): (r: seq<string>)
    requires Sorted(xs)
    ensures Sorted(r) && multiset(r) == multiset(xs) + multiset{x}
  {
    if xs == [] then [x]
    else if LessEq(x, xs[0]) then
      LessEqBelowSorted(x, xs);
      [x] + xs
    else
      LessEqTotal(x, xs[0]);
      var rest := Insert(x, xs[1..]);
      assert xs == [xs[0]] + xs[1..];
      FirstBelowRest(xs[0], rest);
      [xs[0]] + rest
  }

  lemma LessEqBelowSorted(x: string, xs: seq<string>)
    requires Sorted(xs) && xs != [] && LessEq(x, xs[0])
    ensures Sorted([x] + xs)
  {
    var r := [x] + xs;
    forall i, j | 0 <= i < j < |r| ensures LessEq(r[i], r[j]) {
      if i == 0 && j > 1 {
        LessEqTransitive(x, xs[0], xs[j - 1]);
      }
    }
  }

  lemma FirstBelowRest(y: string, rest: seq<string>)
    requires Sorted(rest) && forall z :: z in multiset(rest) ==> LessEq(y, z)
    ensures Sorted([y] + rest)
  {
    forall j | 0 <= j < |rest| ensures LessEq(y, rest[j]) {
      assert rest[j] in multiset(rest);
    }
  }

  /** `sort`: the lines in ascending `strcmp` order. */
  function Sort(xs: seq<string>): (r: seq<string>)
    ensures Sorted(r) && multiset(r) == multiset(xs)
  {
    if xs == [] then []
    else
      assert xs == [xs[0]] + xs[1..];
      Insert(xs[0], Sort(xs[1..]))
  }

  /** Two sorted arrangements of the same lines are the same sequence, so
      the section does not depend on the order in which names were found. */
  lemma {:induction false} SortedUnique(a: seq<string>, b: seq<string>)
    requires Sorted(a) && Sorted(b) && multiset(a) == multiset(b)
    ensures a == b
  {
    if a != [] {
      SameLeast(a, b);
      SortedTail(a);
      SortedTail(b);
      SortedUnique(a[1..], b[1..]);
      assert a == [a[0]] + a[1..] && b == [b[0]] + b[1..];
    }
  }

  /** Sorted arrangements of the same lines start with the same line, and
      the rest are arrangements of the same lines again. */
  lemma SameLeast(a: seq<string>, b: seq<string>)
    requires Sorted(a) && Sorted(b) && multiset(a) == multiset(b) && a != []
    ensures b != [] && a[0] == b[0] && multiset(a[1..]) == multiset(b[1..])
  {
    assert a[0] in multiset(b);
    var i :| 0 <= i < |b| && b[i] == a[0];
    assert b[0] in multiset(a);
    var j :| 0 <= j < |a| && a[j] == b[0];
    if i > 0 && j > 0 {
      assert LessEq(b[0], b[i]);
      assert LessEq(a[0], a[j]);
      LessEqAntisymmetric(a[0], b[0]);
    }
    SameTail(a, b);
  }

  lemma SameTail(a: seq<string>, b: seq<string>)
    requires a != [] && b != [] && a[0] == b[0] && multiset(a) == multiset(b)
    ensures multiset(a[1..]) == multiset(b[1..])
  {
    assert a == [a[0]] + a[1..] && b == [b[0]] + b[1..];
    var x := a[0];
    assert multiset(a) == multiset{x} + multiset(a[1..]);
    assert multiset(b) == multiset{x} + multiset(b[1..]);
    forall y ensures multiset(a[1..])[y] == multiset(b[1..])[y] {
      assert multiset(a)[y] == multiset{x}[y] + multiset(a[1..])[y];
      assert multiset(b)[y] == multiset{x}[y] + multiset(b[1..])[y];
    }
  }

  lemma SortedTail(a: seq<string>)
    requires Sorted(a) && a != []
    ensures Sorted(a[1..])
  {
    var t := a[1..];
    forall i, j | 0 <= i < j < |t| ensures LessEq(t[i], t[j]) {
      assert t[i] == a[i + 1] && t[j] == a[j + 1];
    }
  }

  /** `formatUsedClasses`: one `use` line per name outside the base
      namespace, sorted and joined by newlines. The class name the source
      passes along is unused there, and is left out here. */
  method FormatUsedClasses(baseNamespace: string, usedClasses: seq<string>) returns (section: string)
    ensures section == Join(Sort(ImportLines(baseNamespace, usedClasses)), "\n")
  {
    var result: seq<string> := [];
    for i := 0 to |usedClasses|
      invariant result == ImportLines(baseNamespace, usedClasses[..i])
    {
      assert usedClasses[..i + 1][..i] == usedClasses[..i];
      if !InNamespace(baseNamespace, usedClasses[i]) {
        result := result + [UseLine(usedClasses[i])];
      }
    }
    assert usedClasses[..|usedClasses|] == usedClasses;
    section := Join(Sort(result), "\n");
  }

  /** The section is empty exactly when every used name lies in the base
      namespace. */
  lemma EmptySectionIffAllLocal(base: string, used: seq<string>)
    ensures Join(Sort(ImportLines(base, used)), "\n") == [] <==> forall j :: 0 <= j < |used| ==> InNamespace(base, used[j])
  {
    var collected := ImportLines(base, used);
    var lines := Sort(collected);
    ImportLinesSound(base, used);
    ImportLinesComplete(base, used);
    if lines != [] {
      assert lines[0] in multiset(collected);
      JoinNonEmpty(lines, "\n");
    } else {
      assert multiset(collected) == multiset{};
    }
  }

  /** A join of lines none of which is empty is not empty. */
  lemma JoinNonEmpty(lines: seq<string>, sep: string)
    requires lines != [] && lines[0] != []
    ensures Join(lines, sep) != []
  {
  }
}
