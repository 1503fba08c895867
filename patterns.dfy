/**
 * Table filtering by the `only` and `except` pattern lists. A pattern is
 * matched the way Laravel's `Str::is` matches it: equal strings match, and
 * otherwise the pattern is anchored at both ends with `*` standing for any
 * run of characters and every other character standing for itself.
 */
module Patterns {
  import opened Strings

  /** Anchored glob match where only `*` is a wildcard. */
  predicate GlobMatch(pattern: string, s: string)
    decreases |pattern| + |s|
  {
    if pattern == [] then s == []
    else if pattern[0] == '*' then GlobMatch(pattern[1..], s) || (s != [] && GlobMatch(pattern, s[1..]))
    else s != [] && s[0] == pattern[0] && GlobMatch(pattern[1..], s[1..])
  }

  /** `Str::is($pattern, $value)`. */
  predicate Is(pattern: string, value: string) {
    pattern == value || GlobMatch(pattern, value)
  }

  /** Some pattern of the list matches the table name. */
  predicate AnyMatches(patterns: seq<string>, table: string) {
    exists i :: 0 <= i < |patterns| && Is(patterns[i], table)
  }

  /** A lone `*` matches every name. */
  lemma {:induction false} StarMatchesAll(s: string)
    ensures GlobMatch("*", s)
  {
    if s != [] {
      StarMatchesAll(s[1..]);
    }
  }

  /** Every pattern matches its own text, so the equality test of `Str::is`
      never decides anything the glob would not. */
  lemma {:induction false} GlobMatchesItself(p: string)
    ensures GlobMatch(p, p)
    ensures forall v :: Is(p, v) <==> GlobMatch(p, v)
  {
    if p != [] {
      GlobMatchesItself(p[1..]);
      if p[0] == '*' {
        assert GlobMatch(p[1..], p[1..]);
        assert GlobMatch(p, p[1..]);
      }
    }
  }

  /** A pattern without `*` matches exactly the equal name. */
  lemma {:induction false} LiteralPattern(p: string, s: string)
    requires '*' !in p
    ensures GlobMatch(p, s) <==> p == s
  {
    if p != [] {
      assert p[0] in p;
      assert '*' !in p[1..];
      if s != [] {
        LiteralPattern(p[1..], s[1..]);
        assert p == [p[0]] + p[1..] && s == [s[0]] + s[1..];
      }
    }
  }

  /** A pattern `prefix*` (the prefix free of `*`) matches exactly the names
      that start with the prefix. */
  lemma {:induction false} PrefixPattern(prefix: string, s: string)
    requires '*' !in prefix
    ensures GlobMatch(prefix + "*", s) <==> IsPrefix(prefix, s)
  {
    if prefix == [] {
      StarMatchesAll(s);
      assert prefix + "*" == "*";
    } else {
      assert prefix[0] in prefix;
      assert '*' !in prefix[1..];
      assert (prefix + "*")[1..] == prefix[1..] + "*";
      if s != [] {
        PrefixPattern(prefix[1..], s[1..]);
        if s[0] == prefix[0] {
          assert IsPrefix(prefix[1..], s[1..]) <==> IsPrefix(prefix, s);
        }
      }
    }
  }

  /** `shouldTakeOnly`: an empty `only` list keeps every table, otherwise a
      table is kept iff some pattern matches its name. */
  method ShouldTakeOnly(only: seq<string>, table: string) returns (take: bool)
    ensures take <==> only == [] || AnyMatches(only, table)
  {
    if only != [] {
      for i := 0 to |only|
        invariant forall j :: 0 <= j < i ==> !Is(only[j], table)
      {
        if Is(only[i], table) {
          return true;
        }
      }
      return false;
    }
    return true;
  }

  /** `shouldNotExclude`: a table is dropped iff some `except` pattern
      matches its name. */
  method ShouldNotExclude(except: seq<string>, table: string) returns (keep: bool)
    ensures keep <==> !AnyMatches(except, table)
  {
    for i := 0 to |except|
      invariant forall j :: 0 <= j < i ==> !Is(except[j], table)
    {
      if Is(except[i], table) {
        return false;
      }
    }
    return true;
  }

  /** A table is generated iff it passes both filters. */
  predicate Passes(only: seq<string>, except: seq<string>, table: string) {
    (only == [] || AnyMatches(only, table)) && !AnyMatches(except, table)
  }

  /** The exclusion list wins: a table named in `except` is never
      generated, even when `only` names it too. */
  lemma ExceptWins(only: seq<string>, except: seq<string>, table: string)
    requires table in except
    ensures !Passes(only, except, table)
  {
    var i :| 0 <= i < |except| && except[i] == table;
    assert Is(except[i], table);
  }

  /** With `*` among the `only` patterns, the `only` list keeps every table
      and just the exclusions decide. */
  lemma StarOnlyKeepsAll(only: seq<string>, except: seq<string>, table: string)
    requires "*" in only
    ensures Passes(only, except, table) <==> !AnyMatches(except, table)
  {
    var i :| 0 <= i < |only| && only[i] == "*";
    StarMatchesAll(table);
    assert Is(only[i], table);
  }

  /** With `except` holding a prefix pattern, every table whose name starts
      with the prefix is dropped. */
  lemma PrefixExcluded(only: seq<string>, prefix: string, table: string)
    requires '*' !in prefix && IsPrefix(prefix, table)
    ensures !Passes(only, [prefix + "*"], table)
  {
    PrefixPattern(prefix, table);
    assert Is([prefix + "*"][0], table);
  }
}
