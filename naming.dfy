/**
 * Names and paths of the generated files: the studly-case conversion of
 * schema and connection names, path composition, and the names that tie a
 * user file to its base class.
 */
module Naming {
  import opened Strings
  import opened Models

  /** `DIRECTORY_SEPARATOR` on the platforms the generator runs on. */
  const Separator := "/"

  /** The word delimiters of `ucwords`: space, tab, CR, LF, form feed and
      vertical tab. */
  predicate IsWordDelimiter(c: char) {
    c == ' ' || c == '\t' || c == '\r' || c == '\n' || c == '\U{000C}' || c == '\U{000B}'
  }

  /** `ucwords`: the first character and every character that follows a
      delimiter are upper-cased. */
  function UcWords(s: string): string {
    seq(|s|, i requires 0 <= i < |s| => UcWordsAt(s, i))
  }

  /** The character of `ucwords($s)` at position `i`. */
  function UcWordsAt(s: string, i: nat): char
    requires i < |s|
  {
    if i == 0 || IsWordDelimiter(s[i - 1]) then UpperChar(s[i]) else s[i]
  }

  /** `str_replace($c, '', $s)` for one character. */
  function Remove(s: string, c: char): (r: string)
    ensures c !in r
    ensures forall x :: x in r ==> x in s
  {
    if s == [] then []
    else if s[0] == c then Remove(s[1..], c)
    else [s[0]] + Remove(s[1..], c)
  }

  /** `transformSchemaToNamespace`: underscores become word breaks, each
      word is capitalised and the spaces are dropped. */
  function Studly(s: string): string {
    Remove(UcWords(ReplaceAll(s, "_", " ")), ' ')
  }

  /** Every character is capitalised where `ucwords` would capitalise it,
      the first one when `start` holds. */
  ghost predicate Capitalised(s: string, start: bool) {
    forall i :: 0 <= i < |s| && StartsWord(s, start, i) ==> UpperChar(s[i]) == s[i]
  }

  /** Position `i` begins a word: the first one when `start` holds, any
      other one after a delimiter. */
  predicate StartsWord(s: string, start: bool, i: nat)
    requires i < |s|
  {
    if i == 0 then start else IsWordDelimiter(s[i - 1])
  }

  lemma UcWordsCapitalises(s: string)
    ensures Capitalised(UcWords(s), true)
  {
    var u := UcWords(s);
    forall i | 0 <= i < |u| && StartsWord(u, true, i)
      ensures UpperChar(u[i]) == u[i]
    {
      if i > 0 {
        assert IsWordDelimiter(s[i - 1]);
      }
    }
  }

  /** Dropping spaces keeps every character capitalised that must be. */
  lemma {:induction false} RemoveSpacesKeepsCapitals(s: string, start: bool)
    requires Capitalised(s, start)
    ensures Capitalised(Remove(s, ' '), start)
  {
    if s != [] {
      var rest := s[1..];
      var next := IsWordDelimiter(s[0]);
      assert Capitalised(rest, next) by {
        forall i | 0 <= i < |rest| && StartsWord(rest, next, i)
          ensures UpperChar(rest[i]) == rest[i]
        {
          assert rest[i] == s[i + 1];
        }
      }
      RemoveSpacesKeepsCapitals(rest, next);
      var tail := Remove(rest, ' ');
      if s[0] == ' ' {
        assert Remove(s, ' ') == tail;
        assert next;
      } else {
        var r := Remove(s, ' ');
        assert r == [s[0]] + tail;
        forall i | 0 <= i < |r| && StartsWord(r, start, i)
          ensures UpperChar(r[i]) == r[i]
        {
          if i == 0 {
            assert r[0] == s[0] && StartsWord(s, start, 0);
          } else {
            assert r[i] == tail[i - 1];
            assert StartsWord(tail, next, i - 1);
          }
        }
      }
    }
  }

  /** A capitalised text is left as it is by `ucwords`. */
  lemma UcWordsOfCapitalised(s: string)
    requires Capitalised(s, true)
    ensures UcWords(s) == s
  {
  }

  /** Replacing a character by itself changes nothing. */
  lemma {:induction false} ReplaceCharAbsent(s: string, c: char, r: string)
    requires c !in s
    ensures ReplaceAll(s, [c], r) == s
  {
    ReplaceAbsent(s, [c], r);
  }

  lemma {:induction false} RemoveAbsent(s: string, c: char)
    requires c !in s
    ensures Remove(s, c) == s
  {
    if s != [] {
      assert s[0] in s;
      RemoveAbsent(s[1..], c);
      assert s == [s[0]] + s[1..];
    }
  }

  /** The namespace segment holds no underscore and no space. */
  lemma StudlyHasNoSeparators(s: string)
    ensures '_' !in Studly(s) && ' ' !in Studly(s)
  {
    var r := ReplaceAll(s, "_", " ");
    ReplaceCharRemovesIt(s, '_', " ");
    var u := UcWords(r);
    assert '_' !in u by {
      forall i | 0 <= i < |u| ensures u[i] != '_' {
        assert r[i] != '_';
      }
    }
  }

  /** Converting an already converted name changes nothing. */
  lemma StudlyIdempotent(s: string)
    ensures Studly(Studly(s)) == Studly(s)
  {
    var t := Studly(s);
    StudlyHasNoSeparators(s);
    UcWordsCapitalises(ReplaceAll(s, "_", " "));
    RemoveSpacesKeepsCapitals(UcWords(ReplaceAll(s, "_", " ")), true);
    ReplaceCharAbsent(t, '_', " ");
    UcWordsOfCapitalised(t);
    RemoveAbsent(t, ' ');
  }

  lemma ReplaceExample()
    ensures ReplaceAll("foo_bar", "_", " ") == "foo bar"
  {
    var tail := ReplaceAll("bar", "_", " ");
    ReplaceAbsent("bar", "_", " ");
    assert "_bar"[1..] == "bar";
    assert ReplaceAll("_bar", "_", " ") == " " + tail;
    assert "o_bar"[1..] == "_bar";
    assert ReplaceAll("o_bar", "_", " ") == "o" + " " + tail;
    assert "oo_bar"[1..] == "o_bar";
    assert ReplaceAll("oo_bar", "_", " ") == "o" + "o" + " " + tail;
    assert "foo_bar"[1..] == "oo_bar";
  }

  lemma RemoveExample()
    ensures Remove("Foo Bar", ' ') == "FooBar"
  {
    RemoveAbsent("Bar", ' ');
    assert " Bar"[1..] == "Bar";
    assert "o Bar"[1..] == " Bar";
    assert "oo Bar"[1..] == "o Bar";
    assert "Foo Bar"[1..] == "oo Bar";
  }

  /** `foo_bar` becomes `FooBar`. */
  lemma StudlyExample()
    ensures Studly("foo_bar") == "FooBar"
  {
    ReplaceExample();
    var u := UcWords("foo bar");
    assert u == "Foo Bar" by {
      assert UcWordsAt("foo bar", 0) == 'F';
      assert UcWordsAt("foo bar", 4) == 'B';
    }
    RemoveExample();
  }

  /** `path`: the pieces joined by the directory separator. */
  function Path(pieces: seq<string>): string {
    Join(pieces, Separator)
  }

  /** The directory pieces of `modelPath`: the configured root, the
      connection segment, the schema segment, then the custom pieces. */
  function DirectoryPieces(s: Settings, m: Model, custom: seq<string>): (pieces: seq<string>)
    ensures pieces != [] && pieces[0] == s.path
  {
    [s.path]
    + (if s.pathConnection then [Studly(m.connectionName)] else [])
    + (if s.namespaceSchema then [Studly(m.schema)] else [])
    + custom
  }

  /** `modelPath`. */
  function ModelPath(s: Settings, m: Model, custom: seq<string>): string {
    Path([Path(DirectoryPieces(s, m, custom)), m.className + ".php"])
  }

  /** The user file is `<directory>/<Class>.php` and the base file is
      `<directory>/Base/<Class>.php`, so the two never coincide. */
  lemma BaseAndUserPaths(s: Settings, m: Model)
    ensures var dir := Path(DirectoryPieces(s, m, []));
      && ModelPath(s, m, []) == dir + "/" + m.className + ".php"
      && ModelPath(s, m, ["Base"]) == dir + "/Base/" + m.className + ".php"
      && ModelPath(s, m, ["Base"]) != ModelPath(s, m, [])
  {
    var pieces := DirectoryPieces(s, m, []);
    assert DirectoryPieces(s, m, ["Base"]) == pieces + ["Base"];
    JoinSnoc(pieces, "Base", Separator);
    var dir := Path(pieces);
    var file := m.className + ".php";
    assert Join([file], Separator) == file;
    assert ModelPath(s, m, []) == Join([dir, file], Separator) == dir + "/" + file;
    assert ModelPath(s, m, ["Base"]) == Join([Path(pieces + ["Base"]), file], Separator);
    assert |ModelPath(s, m, ["Base"])| == |ModelPath(s, m, [])| + 5;
  }

  /** `getBaseClassName`: the alias of the base class in the user file. */
  function BaseClassName(m: Model): string {
    "Base" + m.className
  }

  /** `formatBaseClasses`: imports the base class under its alias. */
  function FormatBaseClasses(m: Model): string {
    "use " + m.baseNamespace + "\\" + m.className + " as " + BaseClassName(m) + ";"
  }

  /** The user class extends its base class under an alias that never
      clashes with its own name, and the import line of the user file
      declares exactly that alias, which is what the `{{parent}}`
      placeholder receives. */
  lemma BaseAliasOfUserClass(m: Model)
    ensures BaseClassName(m) != m.className
    ensures IsPrefix("Base", BaseClassName(m)) && BaseClassName(m)[4..] == m.className
    ensures var line := FormatBaseClasses(m);
      |line| > |BaseClassName(m)| + 1 && line[|line| - |BaseClassName(m)| - 1..] == BaseClassName(m) + ";"
  {
    assert |BaseClassName(m)| == |m.className| + 4;
  }
}
