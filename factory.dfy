/**
 * The generator's driver. For every table of a schema that passes the
 * `only`/`except` filters it builds the model, renders the class from the
 * `model` template and writes it; with base files the rendered class goes
 * under a `Base` directory and a user class that extends it is written next
 * to it, but only once. The file system is a map from path to content.
 */
module Generation {
  import opened Results
  import opened Strings
  import opened Metadata
  import opened Models
  import Patterns
  import Naming
  import Rendering
  import SchemaManagement

  /** A mutator handed out by the factory; what it does to a model is up to
      the model builder, which is not part of this model. */
  class Mutator {
    constructor ()
    {
    }
  }

  /** The collaborators a factory works with: the class writer, the
      per-table configuration, the model builder (schema, table and the
      registered mutators give the model), the directory that holds the
      generator's own templates, and the two renderings a template goes
      through: the base class (`fillTemplate` and the indentation) and the
      user class (`createUserFile`). `Renders` says they are the class
      writer's. */
  datatype Environment = Environment(
    writer: Classify,
    config: Blueprint -> Settings,
    models: (string, string, seq<Mutator>) -> Model,
    sourceDir: string,
    base: (string, Model) -> string,
    user: (string, Model) -> string)

  /** The rendered base class, indented with spaces when the model asks so. */
  function BaseFile(w: Classify, template: string, m: Model): string {
    Rendering.Indent(Rendering.Rendered(w, template, m), m.indentWithSpace)
  }

  /** The environment renders templates the way the class writer does. */
  ghost predicate Renders(env: Environment) {
    && (forall t, m {:trigger BaseFile(env.writer, t, m)} :: env.base(t, m) == BaseFile(env.writer, t, m))
    && (forall u, m {:trigger Rendering.RenderedUserFile(env.writer, u, m)} :: env.user(u, m) == Rendering.RenderedUserFile(env.writer, u, m))
  }

  /** What `Renders` says of one base class. */
  lemma RendersBase(env: Environment, t: string, m: Model)
    requires Renders(env)
    ensures env.base(t, m) == BaseFile(env.writer, t, m)
  {
  }

  /** The environment made of the given collaborators and the class
      writer's renderings. */
  function Standard(writer: Classify, config: Blueprint -> Settings, models: (string, string, seq<Mutator>) -> Model, sourceDir: string): (env: Environment)
    ensures Renders(env)
    ensures env.writer == writer && env.config == config && env.models == models && env.sourceDir == sourceDir
  {
    Environment(writer, config, models, sourceDir,
      (t, m) => BaseFile(writer, t, m), (u, m) => Rendering.RenderedUserFile(writer, u, m))
  }

  /** The state a generation step leaves: the files and whether it failed.
      A failure stands for the exception that ends the run. */
  datatype Effect = Effect(files: map<string, string>, outcome: Outcome<string>)

  /** The message of the file system when a file to read is missing. */
  function MissingFileMessage(path: string): string {
    "File does not exist at path " + path + "."
  }

  /** The fatal error PHP raises when `map` asks the initial empty array,
      rather than a schema manager, to make a schema. */
  const NoManagerMessage := "Call to a member function make() on array"

  /** `Filesystem::get`. */
  function Read(files: map<string, string>, path: string): Result<string, string> {
    if path in files then Success(files[path]) else Failure(MissingFileMessage(path))
  }

  /** The template file of a template name: the configured one, or the file
      of that name in the generator's template directory. */
  function TemplatePath(s: Settings, sourceDir: string, name: string): string {
    if name in s.templates then s.templates[name] else Naming.Path([sourceDir, "Templates", name])
  }

  /** `prepareTemplate`. */
  function LoadTemplate(env: Environment, files: map<string, string>, m: Model, name: string): Result<string, string> {
    Read(files, TemplatePath(env.config(m.blueprint), env.sourceDir, name))
  }

  /** Where the model path of `m` is, for the given extra directories. */
  function PathOf(env: Environment, m: Model, custom: seq<string>): string {
    Naming.ModelPath(env.config(m.blueprint), m, custom)
  }

  /** The user file path: the model directory itself. */
  function UserPath(env: Environment, m: Model): string {
    PathOf(env, m, [])
  }

  /** Where `create` writes the rendered class: under `Base` with base files. */
  function BasePath(env: Environment, m: Model): string {
    PathOf(env, m, if m.usesBaseFiles then ["Base"] else [])
  }

  /** The schema segment `modelPath` records when schema namespaces are on. */
  function SchemaNamespaceAfter(current: Option<string>, env: Environment, m: Model): Option<string> {
    if env.config(m.blueprint).namespaceSchema then Some(Naming.Studly(m.schema)) else current
  }

  /** `needsUserFile`. */
  predicate NeedsUser(env: Environment, files: map<string, string>, m: Model) {
    UserPath(env, m) !in files && m.usesBaseFiles
  }

  /** Writing the user class: the text made from the template at
      `userTemplate`, stored at `user`; a missing template fails with
      nothing written. */
  function WriteUser(files: map<string, string>, userTemplate: string, user: string, userText: string -> string): Effect {
    match Read(files, userTemplate)
    case Failure(e) => Effect(files, Fail(e))
    case Success(u) => Effect(files[user := userText(u)], Pass)
  }

  /** The two writes of `create` once the `model` template is read: the
      class text at `base`, then, when base files are on and nothing is at
      `user` yet, the user class. */
  function WriteModel(files: map<string, string>, loaded: Result<string, string>, base: string, baseText: string -> string,
                      usesBaseFiles: bool, user: string, userTemplate: string, userText: string -> string): Effect {
    match loaded
    case Failure(e) => Effect(files, Fail(e))
    case Success(t) =>
      var written := files[base := baseText(t)];
      if user !in written && usesBaseFiles then WriteUser(written, userTemplate, user, userText) else Effect(written, Pass)
  }

  /** The user class text made from a `user_model` template. */
  function UserText(env: Environment, m: Model): string -> string {
    u => env.user(u, m)
  }

  /** The base class text made from a `model` template. */
  function BaseText(env: Environment, m: Model): string -> string {
    t => env.base(t, m)
  }

  /** `createUserFile`: the user class rendered from the `user_model`
      template at the user path. */
  function UserFileEffect(env: Environment, files: map<string, string>, m: Model): Effect {
    WriteUser(files, TemplatePath(env.config(m.blueprint), env.sourceDir, "user_model"), UserPath(env, m), UserText(env, m))
  }

  /** `create` for a built model: the base class is written first, then the
      user class when it is needed. */
  function CreateEffect(env: Environment, files: map<string, string>, m: Model): Effect {
    WriteModel(files, LoadTemplate(env, files, m, "model"), BasePath(env, m), BaseText(env, m),
      m.usesBaseFiles, UserPath(env, m), TemplatePath(env.config(m.blueprint), env.sourceDir, "user_model"), UserText(env, m))
  }

  /** `create(schema, table)`. */
  function CreateTable(env: Environment, files: map<string, string>, schema: string, table: string, mutators: seq<Mutator>): Effect {
    CreateEffect(env, files, env.models(schema, table, mutators))
  }

  /** The tables that pass both filters, in schema order. */
  function Selected(config: Blueprint -> Settings, tables: seq<Blueprint>): seq<string> {
    if tables == [] then []
    else
      var last := tables[|tables| - 1];
      Selected(config, tables[..|tables| - 1])
      + (if Patterns.Passes(config(last).only, config(last).except, last.table) then [last.table] else [])
  }

  /** The tables created one after the other; the first failure ends the
      run. */
  function CreateAll(env: Environment, files: map<string, string>, schema: string, tables: seq<string>, mutators: seq<Mutator>): Effect {
    if tables == [] then Effect(files, Pass)
    else
      var before := CreateAll(env, files, schema, tables[..|tables| - 1], mutators);
      if before.outcome.Fail? then before
      else CreateTable(env, before.files, schema, tables[|tables| - 1], mutators)
  }

  /** `map` for each schema in turn; the first failure ends the run. */
  function MapEach(env: Environment, files: map<string, string>, schemas: seq<SchemaManagement.Schema>, mutators: seq<Mutator>): Effect {
    if schemas == [] then Effect(files, Pass)
    else
      var before := MapEach(env, files, schemas[..|schemas| - 1], mutators);
      var last := schemas[|schemas| - 1];
      if before.outcome.Fail? then before
      else CreateAll(env, before.files, last.name, Selected(env.config, last.blueprints), mutators)
  }

  // ---------------------------------------------------------------------
  // What one `create` does to the files

  /** With base files the user path and the base path differ. */
  lemma BasePathIsNotUserPath(env: Environment, m: Model)
    requires m.usesBaseFiles
    ensures BasePath(env, m) != UserPath(env, m)
  {
    Naming.BaseAndUserPaths(env.config(m.blueprint), m);
  }

  /** Without a `model` template `create` fails and writes nothing. */
  lemma CreateFailsWithoutTemplate(env: Environment, files: map<string, string>, m: Model)
    requires TemplatePath(env.config(m.blueprint), env.sourceDir, "model") !in files
    ensures CreateEffect(env, files, m) == Effect(files, Fail(MissingFileMessage(TemplatePath(env.config(m.blueprint), env.sourceDir, "model"))))
  {
  }

  /** With a template, the class text is always at `base` afterwards. */
  lemma WriteModelWritesBase(files: map<string, string>, t: string, base: string, baseText: string -> string,
                             usesBaseFiles: bool, user: string, userTemplate: string, userText: string -> string)
    requires usesBaseFiles ==> base != user
    ensures var r := WriteModel(files, Success(t), base, baseText, usesBaseFiles, user, userTemplate, userText);
      base in r.files && r.files[base] == baseText(t)
  {
  }

  /** With a `model` template, `create` always writes the rendered class at
      the base path, whatever happens to the user file. */
  lemma CreateWritesBase(env: Environment, files: map<string, string>, m: Model, t: string)
    requires Renders(env) && LoadTemplate(env, files, m, "model") == Success(t)
    ensures var r := CreateEffect(env, files, m);
      BasePath(env, m) in r.files && r.files[BasePath(env, m)] == BaseFile(env.writer, t, m)
  {
    if m.usesBaseFiles {
      BasePathIsNotUserPath(env, m);
    }
    WriteModelWritesBase(files, t, BasePath(env, m), BaseText(env, m), m.usesBaseFiles, UserPath(env, m),
      TemplatePath(env.config(m.blueprint), env.sourceDir, "user_model"), UserText(env, m));
  }

  /** Whatever was at `user` stays when base files are on. */
  lemma WriteModelKeepsUser(files: map<string, string>, loaded: Result<string, string>, base: string, baseText: string -> string,
                            user: string, userTemplate: string, userText: string -> string)
    requires user in files && base != user
    ensures var r := WriteModel(files, loaded, base, baseText, true, user, userTemplate, userText);
      user in r.files && r.files[user] == files[user]
  {
  }

  /** With base files an existing user file is left exactly as it was. */
  lemma CreateKeepsUserFile(env: Environment, files: map<string, string>, m: Model)
    requires m.usesBaseFiles && UserPath(env, m) in files
    ensures var r := CreateEffect(env, files, m);
      UserPath(env, m) in r.files && r.files[UserPath(env, m)] == files[UserPath(env, m)]
  {
    BasePathIsNotUserPath(env, m);
    WriteModelKeepsUser(files, LoadTemplate(env, files, m, "model"), BasePath(env, m), BaseText(env, m), UserPath(env, m),
      TemplatePath(env.config(m.blueprint), env.sourceDir, "user_model"), UserText(env, m));
  }

  /** With base files, no user file and both templates, both files are
      written and nothing else changes. */
  lemma WriteModelWritesUser(files: map<string, string>, t: string, base: string, baseText: string -> string,
                             user: string, userTemplate: string, userText: string -> string)
    requires user !in files && base != user && userTemplate != base && userTemplate in files
    ensures WriteModel(files, Success(t), base, baseText, true, user, userTemplate, userText)
      == Effect(files[base := baseText(t)][user := userText(files[userTemplate])], Pass)
  {
  }

  /** With base files, no user file yet and both templates present, `create`
      writes the rendered class at the base path and the user class made
      from the `user_model` template at the user path, and succeeds. */
  lemma CreateWritesUserFile(env: Environment, files: map<string, string>, m: Model, t: string, u: string)
    requires Renders(env) && m.usesBaseFiles && UserPath(env, m) !in files
    requires LoadTemplate(env, files, m, "model") == Success(t)
    requires TemplatePath(env.config(m.blueprint), env.sourceDir, "user_model") != BasePath(env, m)
    requires LoadTemplate(env, files, m, "user_model") == Success(u)
    ensures CreateEffect(env, files, m)
      == Effect(files[BasePath(env, m) := BaseFile(env.writer, t, m)][UserPath(env, m) := Rendering.RenderedUserFile(env.writer, u, m)], Pass)
  {
    BasePathIsNotUserPath(env, m);
    WriteModelWritesUser(files, t, BasePath(env, m), BaseText(env, m), UserPath(env, m),
      TemplatePath(env.config(m.blueprint), env.sourceDir, "user_model"), UserText(env, m));
  }

  /** Only `base` and `user` can change. */
  lemma WriteModelTouches(files: map<string, string>, loaded: Result<string, string>, base: string, baseText: string -> string,
                          usesBaseFiles: bool, user: string, userTemplate: string, userText: string -> string, p: string)
    requires p != base && p != user
    ensures var r := WriteModel(files, loaded, base, baseText, usesBaseFiles, user, userTemplate, userText);
      (p in r.files <==> p in files) && (p in files ==> r.files[p] == files[p])
  {
  }

  /** Nothing but the base path and the user path changes. */
  lemma CreateTouchesOnlyModelPaths(env: Environment, files: map<string, string>, m: Model, p: string)
    requires p != BasePath(env, m) && p != UserPath(env, m)
    ensures var r := CreateEffect(env, files, m);
      (p in r.files <==> p in files) && (p in files ==> r.files[p] == files[p])
  {
    WriteModelTouches(files, LoadTemplate(env, files, m, "model"), BasePath(env, m), BaseText(env, m), m.usesBaseFiles, UserPath(env, m),
      TemplatePath(env.config(m.blueprint), env.sourceDir, "user_model"), UserText(env, m), p);
  }

  /** Without base files exactly one file is written, at the user path,
      and no user file is needed. */
  lemma CreateWithoutBaseFiles(env: Environment, files: map<string, string>, m: Model)
    requires Renders(env) && !m.usesBaseFiles
    ensures !NeedsUser(env, files, m)
    ensures BasePath(env, m) == UserPath(env, m)
    ensures var r := CreateEffect(env, files, m);
      match LoadTemplate(env, files, m, "model")
      case Failure(e) => r == Effect(files, Fail(e))
      case Success(t) => r == Effect(files[UserPath(env, m) := BaseFile(env.writer, t, m)], Pass)
  {
  }

  /** A successful write with base files leaves a file at `user`. */
  lemma WriteModelLeavesUser(files: map<string, string>, loaded: Result<string, string>, base: string, baseText: string -> string,
                             user: string, userTemplate: string, userText: string -> string)
    requires base != user
    requires WriteModel(files, loaded, base, baseText, true, user, userTemplate, userText).outcome == Pass
    ensures user in WriteModel(files, loaded, base, baseText, true, user, userTemplate, userText).files
  {
  }

  /** Running `create` again rewrites the base class but keeps the user
      class the first run wrote: the user file is written once. */
  lemma UserFileWrittenOnce(env: Environment, files: map<string, string>, m: Model)
    requires m.usesBaseFiles
    requires CreateEffect(env, files, m).outcome == Pass
    ensures var first := CreateEffect(env, files, m);
      var second := CreateEffect(env, first.files, m);
      UserPath(env, m) in first.files && UserPath(env, m) in second.files
      && second.files[UserPath(env, m)] == first.files[UserPath(env, m)]
  {
    BasePathIsNotUserPath(env, m);
    WriteModelLeavesUser(files, LoadTemplate(env, files, m, "model"), BasePath(env, m), BaseText(env, m), UserPath(env, m),
      TemplatePath(env.config(m.blueprint), env.sourceDir, "user_model"), UserText(env, m));
    CreateKeepsUserFile(env, CreateEffect(env, files, m).files, m);
  }

  // ---------------------------------------------------------------------
  // What `map` creates

  /** Filtering a concatenation filters each part. */
  lemma {:induction false} SelectedAppend(config: Blueprint -> Settings, a: seq<Blueprint>, b: seq<Blueprint>)
    ensures Selected(config, a + b) == Selected(config, a) + Selected(config, b)
    decreases |b|
  {
    if b == [] {
      assert a + b == a;
    } else {
      var init := b[..|b| - 1];
      var last := b[|b| - 1];
      assert (a + b)[..|a + b| - 1] == a + init;
      SelectedAppend(config, a, init);
      var extra := if Patterns.Passes(config(last).only, config(last).except, last.table) then [last.table] else [];
      AppendAssociative(Selected(config, a), Selected(config, init), extra);
    }
  }

  /** A table is selected iff it passes both filters: the selected names
      are exactly the names of the passing tables. */
  lemma {:induction false} SelectedMembers(config: Blueprint -> Settings, tables: seq<Blueprint>)
    ensures forall i :: 0 <= i < |tables| && Patterns.Passes(config(tables[i]).only, config(tables[i]).except, tables[i].table) ==> tables[i].table in Selected(config, tables)
    ensures forall n :: n in Selected(config, tables) ==>
      exists i :: 0 <= i < |tables| && tables[i].table == n && Patterns.Passes(config(tables[i]).only, config(tables[i]).except, tables[i].table)
  {
    if tables != [] {
      var init := tables[..|tables| - 1];
      SelectedMembers(config, init);
      forall n | n in Selected(config, tables)
        ensures exists i :: 0 <= i < |tables| && tables[i].table == n && Patterns.Passes(config(tables[i]).only, config(tables[i]).except, tables[i].table)
      {
        if n in Selected(config, init) {
          var i :| 0 <= i < |init| && init[i].table == n && Patterns.Passes(config(init[i]).only, config(init[i]).except, init[i].table);
          assert tables[i] == init[i];
        }
      }
      forall i | 0 <= i < |tables| && Patterns.Passes(config(tables[i]).only, config(tables[i]).except, tables[i].table)
        ensures tables[i].table in Selected(config, tables)
      {
        if i < |init| {
          assert init[i] == tables[i];
        }
      }
    }
  }

  /** A table named in its `except` list is never created by `map`. */
  lemma ExcludedNeverSelected(config: Blueprint -> Settings, tables: seq<Blueprint>, n: string)
    requires forall i :: 0 <= i < |tables| && tables[i].table == n ==> n in config(tables[i]).except
    ensures n !in Selected(config, tables)
  {
    SelectedMembers(config, tables);
    forall i | 0 <= i < |tables| && tables[i].table == n
      ensures !Patterns.Passes(config(tables[i]).only, config(tables[i]).except, tables[i].table)
    {
      Patterns.ExceptWins(config(tables[i]).only, config(tables[i]).except, n);
    }
  }

  /** Once a run has failed, later tables change nothing. */
  lemma {:induction false} CreateAllStopsAtFailure(env: Environment, files: map<string, string>, schema: string, a: seq<string>, b: seq<string>, mutators: seq<Mutator>)
    requires CreateAll(env, files, schema, a, mutators).outcome.Fail?
    ensures CreateAll(env, files, schema, a + b, mutators) == CreateAll(env, files, schema, a, mutators)
    decreases |b|
  {
    if b == [] {
      assert a + b == a;
    } else {
      var init := b[..|b| - 1];
      assert (a + b)[..|a + b| - 1] == a + init;
      CreateAllStopsAtFailure(env, files, schema, a, init, mutators);
    }
  }

  /** One more table is created after the earlier ones, unless they failed. */
  lemma CreateAllSnoc(env: Environment, files: map<string, string>, schema: string, tables: seq<string>, table: string, mutators: seq<Mutator>)
    ensures CreateAll(env, files, schema, tables + [table], mutators)
      == (var before := CreateAll(env, files, schema, tables, mutators);
          if before.outcome.Fail? then before else CreateTable(env, before.files, schema, table, mutators))
  {
    assert (tables + [table])[..|tables|] == tables;
  }

  /** When no table passes the filters nothing is selected. */
  lemma {:induction false} NoneSelected(config: Blueprint -> Settings, tables: seq<Blueprint>)
    requires forall i :: 0 <= i < |tables| ==> !Patterns.Passes(config(tables[i]).only, config(tables[i]).except, tables[i].table)
    ensures Selected(config, tables) == []
  {
    if tables != [] {
      var init := tables[..|tables| - 1];
      assert forall i :: 0 <= i < |init| ==> init[i] == tables[i];
      NoneSelected(config, init);
    }
  }

  /** `map` over a schema where no table passes the filters writes nothing. */
  lemma NothingSelectedNothingWritten(env: Environment, files: map<string, string>, schema: string, tables: seq<Blueprint>, mutators: seq<Mutator>)
    requires forall i :: 0 <= i < |tables| ==> !Patterns.Passes(env.config(tables[i]).only, env.config(tables[i]).except, tables[i].table)
    ensures CreateAll(env, files, schema, Selected(env.config, tables), mutators) == Effect(files, Pass)
  {
    NoneSelected(env.config, tables);
  }

  /** The selection up to the `i`-th table grows by that table iff it
      passes. */
  lemma SelectedStep(config: Blueprint -> Settings, tables: seq<Blueprint>, i: nat)
    requires i < |tables|
    ensures Selected(config, tables[..i + 1])
      == Selected(config, tables[..i]) + (if Patterns.Passes(config(tables[i]).only, config(tables[i]).except, tables[i].table) then [tables[i].table] else [])
  {
    TakeSnoc(tables, i);
  }

  /** The selection of all tables is that of a prefix followed by that of
      the rest. */
  lemma SelectedSplit(config: Blueprint -> Settings, tables: seq<Blueprint>, i: nat)
    requires i <= |tables|
    ensures Selected(config, tables) == Selected(config, tables[..i]) + Selected(config, tables[i..])
  {
    TakeDrop(tables, i);
    SelectedAppend(config, tables[..i], tables[i..]);
  }

  /** A table that fails the filters leaves the selection as it was. */
  lemma SelectedSkip(config: Blueprint -> Settings, tables: seq<Blueprint>, i: nat)
    requires i < |tables| && !Patterns.Passes(config(tables[i]).only, config(tables[i]).except, tables[i].table)
    ensures Selected(config, tables[..i + 1]) == Selected(config, tables[..i])
  {
    SelectedStep(config, tables, i);
  }

  /** After the tables before the `i`-th one were created without failure,
      a passing `i`-th table is created next. */
  lemma CreateSelectedStep(env: Environment, start: map<string, string>, schema: string, tables: seq<Blueprint>, i: nat,
                           mutators: seq<Mutator>, before: map<string, string>)
    requires i < |tables| && Patterns.Passes(env.config(tables[i]).only, env.config(tables[i]).except, tables[i].table)
    requires CreateAll(env, start, schema, Selected(env.config, tables[..i]), mutators) == Effect(before, Pass)
    ensures CreateAll(env, start, schema, Selected(env.config, tables[..i + 1]), mutators) == CreateTable(env, before, schema, tables[i].table, mutators)
  {
    SelectedStep(env.config, tables, i);
    CreateAllSnoc(env, start, schema, Selected(env.config, tables[..i]), tables[i].table, mutators);
  }

  /** When the `i`-th table fails, the run over all tables ends there. */
  lemma CreateSelectedFails(env: Environment, start: map<string, string>, schema: string, tables: seq<Blueprint>, i: nat,
                            mutators: seq<Mutator>, before: map<string, string>)
    requires i < |tables| && Patterns.Passes(env.config(tables[i]).only, env.config(tables[i]).except, tables[i].table)
    requires CreateAll(env, start, schema, Selected(env.config, tables[..i]), mutators) == Effect(before, Pass)
    requires CreateTable(env, before, schema, tables[i].table, mutators).outcome.Fail?
    ensures CreateAll(env, start, schema, Selected(env.config, tables), mutators) == CreateTable(env, before, schema, tables[i].table, mutators)
  {
    CreateSelectedStep(env, start, schema, tables, i, mutators, before);
    SelectedSplit(env.config, tables, i + 1);
    CreateAllStopsAtFailure(env, start, schema, Selected(env.config, tables[..i + 1]), Selected(env.config, tables[i + 1..]), mutators);
  }

  /** What `create` does once the `model` template is read, step by step. */
  lemma CreateSteps(env: Environment, files: map<string, string>, m: Model, t: string)
    requires LoadTemplate(env, files, m, "model") == Success(t)
    ensures var written := files[BasePath(env, m) := env.base(t, m)];
      CreateEffect(env, files, m) == if NeedsUser(env, written, m) then UserFileEffect(env, written, m) else Effect(written, Pass)
  {
  }

  /** `fillTemplate` followed by the space indentation `create` applies. */
  method IndentedClass(w: Classify, template: string, m: Model) returns (file: string)
    ensures file == BaseFile(w, template, m)
  {
    var filled, discarded := Rendering.FillTemplate(w, template, m);
    file := IndentWithSpaces(filled, m.indentWithSpace);
  }

  /** The tab replacement `create` applies when the model asks for space
      indentation. */
  method IndentWithSpaces(filled: string, spaces: nat) returns (file: string)
    ensures file == Rendering.Indent(filled, spaces)
  {
    file := filled;
    if spaces > 0 {
      file := ReplaceAll(file, "\t", Repeat(' ', spaces));
    }
  }

  // ---------------------------------------------------------------------
  // The factory

  class Factory {
    /** `DatabaseManager::connection`: the named or the default connection. */
    const db: Option<string> -> Connection
    /** The schema mapper registry the schema managers consult. */
    const registry: SchemaManagement.Registry
    const env: Environment
    var files: map<string, string>
    /** The schema manager of the selected connection, once `on` ran. */
    var schemas: SchemaManagement.SchemaManager?
    var mutators: seq<Mutator>
    var schemaNamespace: Option<string>

    constructor (db: Option<string> -> Connection, registry: SchemaManagement.Registry, files: map<string, string>, env: Environment)
      ensures this.db == db && this.registry == registry && this.env == env && this.files == files
      ensures schemas == null && mutators == [] && schemaNamespace == None
    {
      this.db := db;
      this.registry := registry;
      this.env := env;
      this.files := files;
      schemas := null;
      mutators := [];
      schemaNamespace := None;
    }

    /** `mutate`: a new mutator, registered after the earlier ones. */
    method Mutate() returns (mutator: Mutator)
      modifies this`mutators
      ensures fresh(mutator) && mutators == old(mutators) + [mutator]
    {
      mutator := new Mutator();
      mutators := mutators + [mutator];
    }

    /** `on`: selects a connection. It fails, keeping the previous manager,
        iff no schema mapper is registered for the connection's class. */
    method On(connection: Option<string>) returns (outcome: Outcome<string>)
      modifies this`schemas
      ensures outcome.Fail? <==> db(connection).kind !in registry.lookup
      ensures outcome.Fail? ==> schemas == old(schemas) && outcome.error == SchemaManagement.NoMapperMessage(db(connection).kind)
      ensures outcome.Pass? ==>
        && schemas != null && fresh(schemas) && schemas.Valid()
        && schemas.connection == db(connection) && schemas.registry == registry
        && schemas.schemas == map[] && schemas.builds == map[]
    {
      var r := SchemaManagement.SchemaManager.Open(db(connection), registry);
      if r.Failure? {
        return Fail(r.error);
      }
      schemas := r.value;
      return Pass;
    }

    /** `modelPath`: the model directory (root, connection segment, schema
        segment, extra directories) and the class file in it. It records
        the schema segment when schema namespaces are on. */
    method ModelPath(m: Model, custom: seq<string>) returns (path: string)
      modifies this`schemaNamespace
      ensures path == PathOf(env, m, custom)
      ensures schemaNamespace == SchemaNamespaceAfter(old(schemaNamespace), env, m)
    {
      var s := env.config(m.blueprint);
      var parts := [s.path];
      if s.pathConnection {
        parts := parts + [Naming.Studly(m.connectionName)];
      }
      if s.namespaceSchema {
        schemaNamespace := Some(Naming.Studly(m.schema));
        parts := parts + [schemaNamespace.value];
      }
      parts := parts + custom;
      assert parts == Naming.DirectoryPieces(s, m, custom);
      var directory := Naming.Path(parts);
      path := Naming.Path([directory, m.className + ".php"]);
    }

    /** `prepareTemplate`: reads the template file, failing when it is
        missing. */
    method PrepareTemplate(m: Model, name: string) returns (r: Result<string, string>)
      ensures r.Success? <==> TemplatePath(env.config(m.blueprint), env.sourceDir, name) in files
      ensures r.Success? ==> r.value == files[TemplatePath(env.config(m.blueprint), env.sourceDir, name)]
      ensures r.Failure? ==> r.error == MissingFileMessage(TemplatePath(env.config(m.blueprint), env.sourceDir, name))
    {
      var s := env.config(m.blueprint);
      var file := if name in s.templates then s.templates[name] else Naming.Path([env.sourceDir, "Templates", name]);
      if file in files {
        return Success(files[file]);
      }
      return Failure(MissingFileMessage(file));
    }

    /** `needsUserFile`: base files are on and the user file is absent. */
    method NeedsUserFile(m: Model) returns (needs: bool)
      modifies this`schemaNamespace
      ensures needs <==> m.usesBaseFiles && UserPath(env, m) !in files
      ensures schemaNamespace == SchemaNamespaceAfter(old(schemaNamespace), env, m)
    {
      var path := ModelPath(m, []);
      needs := path !in files && m.usesBaseFiles;
    }

    /** `createUserFile`: renders the `user_model` template (namespace,
        class, the import of the base class, the base class alias, the
        hidden and fillable lists) and writes it at the user path. */
    method CreateUserFile(m: Model) returns (outcome: Outcome<string>)
      requires Renders(env)
      modifies this`files, this`schemaNamespace
      ensures Effect(files, outcome) == UserFileEffect(env, old(files), m)
      ensures schemaNamespace == SchemaNamespaceAfter(old(schemaNamespace), env, m)
    {
      var file := ModelPath(m, []);
      var loaded := PrepareTemplate(m, "user_model");
      if loaded.Failure? {
        return Fail(loaded.error);
      }
      var text := RenderUser(m, loaded.value);
      files := files[file := text];
      return Pass;
    }

    /** `fillTemplate` followed by the space indentation `create` applies. */
    method RenderBase(m: Model, template: string) returns (file: string)
      requires Renders(env)
      ensures file == env.base(template, m)
    {
      file := IndentedClass(env.writer, template, m);
      RendersBase(env, template, m);
    }

    /** The user class of `createUserFile`: namespace, class, the import of
        the base class, the base class alias and the body, in that order. */
    method RenderUser(m: Model, template: string) returns (text: string)
      requires Renders(env)
      ensures text == env.user(template, m)
    {
      var body := Rendering.UserFileBody(env.writer, m);
      text := ReplaceAll(template, "{{namespace}}", m.namespace);
      text := ReplaceAll(text, "{{class}}", m.className);
      text := ReplaceAll(text, "{{imports}}", Naming.FormatBaseClasses(m));
      text := ReplaceAll(text, "{{parent}}", Naming.BaseClassName(m));
      text := ReplaceAll(text, "{{body}}", body);
      Rendering.UserSubstitutionsInOrder(template, m.namespace, m.className, Naming.FormatBaseClasses(m), Naming.BaseClassName(m), body);
      assert text == Rendering.RenderedUserFile(env.writer, template, m);
    }

    /** `create`: builds the model with the registered mutators, writes the
        rendered class at the base path and then the user class when it is
        needed. */
    method Create(schema: string, table: string) returns (outcome: Outcome<string>)
      requires Renders(env)
      modifies this`files, this`schemaNamespace
      ensures Effect(files, outcome) == CreateTable(env, old(files), schema, table, mutators)
      ensures var m := env.models(schema, table, mutators);
        schemaNamespace == if LoadTemplate(env, old(files), m, "model").Success? then SchemaNamespaceAfter(old(schemaNamespace), env, m) else old(schemaNamespace)
    {
      var m := env.models(schema, table, mutators);
      var loaded := PrepareTemplate(m, "model");
      if loaded.Failure? {
        return Fail(loaded.error);
      }
      var file := RenderBase(m, loaded.value);
      ghost var before := files;
      var path := ModelPath(m, if m.usesBaseFiles then ["Base"] else []);
      files := files[path := file];
      var needs := NeedsUserFile(m);
      if needs {
        outcome := CreateUserFile(m);
      } else {
        outcome := Pass;
      }
      CreateSteps(env, before, m, loaded.value);
    }

    /** `map`: before `on` has installed a manager the field still holds
        its initial empty array, so the fallback to `on` is skipped and
        asking it to make the schema is a fatal error, with no file touched;
        otherwise the schema is mapped through the manager. */
    method Map(schemaName: string) returns (outcome: Outcome<string>)
      requires Renders(env) && (schemas != null ==> schemas.Valid())
      modifies this`files, this`schemaNamespace, schemas
      ensures schemas == old(schemas)
      ensures old(schemas) == null ==> outcome == Fail(NoManagerMessage) && files == old(files)
      ensures old(schemas) != null ==>
        && schemas.Valid() && schemaName in schemas.schemas
        && Effect(files, outcome) == CreateAll(env, old(files), schemaName, Selected(env.config, schemas.schemas[schemaName].blueprints), mutators)
    {
      if schemas == null {
        return Fail(NoManagerMessage);
      }
      outcome := MapSchema(schemaName);
    }

    /** `map` with a manager: makes the schema (from the cache when it is
        there) and creates, in schema order, every table that passes both
        filters; the first failure ends the run. */
    method MapSchema(schemaName: string) returns (outcome: Outcome<string>)
      requires Renders(env) && schemas != null && schemas.Valid()
      modifies this`files, this`schemaNamespace, schemas
      ensures schemas == old(schemas) && schemas.Valid()
      ensures schemaName in schemas.schemas
      ensures schemaName in old(schemas.schemas) ==>
        schemas.schemas == old(schemas.schemas) && schemas.order == old(schemas.order) && schemas.builds == old(schemas.builds)
      ensures schemaName !in old(schemas.schemas) ==>
        && schemas.schemas == old(schemas.schemas)[schemaName := schemas.schemas[schemaName]]
        && schemas.order == old(schemas.order) + [schemaName] && schemas.builds == old(schemas.builds)[schemaName := 1]
        && schemas.schemas[schemaName].mapper == schemas.Mapper()
      ensures schemas.schemas[schemaName].blueprints == schemas.connection.catalog.tables(schemas.schemas[schemaName].mapper, schemaName)
      ensures Effect(files, outcome) == CreateAll(env, old(files), schemaName, Selected(env.config, schemas.schemas[schemaName].blueprints), mutators)
    {
      var mapper := schemas.Make(schemaName);
      outcome := CreateSelected(mapper.name, mapper.blueprints);
    }

    /** The loop of `map`: every table that passes both filters is created,
        in order, until one fails. */
    method CreateSelected(schema: string, tables: seq<Blueprint>) returns (outcome: Outcome<string>)
      requires Renders(env)
      modifies this`files, this`schemaNamespace
      ensures Effect(files, outcome) == CreateAll(env, old(files), schema, Selected(env.config, tables), mutators)
    {
      ghost var start := files;
      assert tables[..0] == [];
      for i := 0 to |tables|
        invariant Effect(files, Pass) == CreateAll(env, start, schema, Selected(env.config, tables[..i]), mutators)
      {
        var blueprint := tables[i];
        var settings := env.config(blueprint);
        var take := Patterns.ShouldTakeOnly(settings.only, blueprint.table);
        var keep := false;
        if take {
          keep := Patterns.ShouldNotExclude(settings.except, blueprint.table);
        }
        if take && keep {
          ghost var before := files;
          outcome := Create(schema, blueprint.table);
          if outcome.Fail? {
            CreateSelectedFails(env, start, schema, tables, i, mutators, before);
            return;
          }
          CreateSelectedStep(env, start, schema, tables, i, mutators, before);
        } else {
          SelectedSkip(env.config, tables, i);
        }
      }
      assert tables[..|tables|] == tables;
      outcome := Pass;
    }

    /** `mapAll`: before `on` has installed a manager the field still holds
        its initial empty array, so the fallback to `on` is skipped and the
        loop runs over nothing; otherwise every cached schema is mapped. */
    method MapAll() returns (outcome: Outcome<string>)
      requires Renders(env) && (schemas != null ==> schemas.Valid())
      modifies this`files, this`schemaNamespace, schemas
      ensures schemas == old(schemas)
      ensures old(schemas) == null ==> outcome == Pass && files == old(files)
      ensures old(schemas) != null ==>
        schemas.Valid() && Effect(files, outcome) == MapEach(env, old(files), schemas.Cached(), mutators)
    {
      if schemas == null {
        return Pass;
      }
      outcome := MapCached();
    }

    /** `mapAll` with a manager: maps every schema the manager iterates
        over, in its order; the first failure ends the run. */
    method MapCached() returns (outcome: Outcome<string>)
      requires Renders(env) && schemas != null && schemas.Valid()
      modifies this`files, this`schemaNamespace, schemas
      ensures schemas == old(schemas) && schemas.Valid()
      ensures old(schemas.schemas) != map[] ==>
        schemas.schemas == old(schemas.schemas) && schemas.order == old(schemas.order) && schemas.builds == old(schemas.builds)
      ensures old(schemas.schemas) == map[] ==>
        schemas.order == Unique(schemas.connection.catalog.schemaNames(schemas.Mapper()))
        && SchemaManagement.MappedBy(schemas.schemas, schemas.Mapper())
      ensures forall i :: 0 <= i < |schemas.Cached()| ==>
        schemas.Cached()[i].blueprints == schemas.connection.catalog.tables(schemas.Cached()[i].mapper, schemas.Cached()[i].name)
      ensures Effect(files, outcome) == MapEach(env, old(files), schemas.Cached(), mutators)
    {
      var all := schemas.GetIterator();
      assert all == SchemaManagement.InOrder(schemas.schemas, schemas.order);
      outcome := MapSchemas(all);
    }

    /** The loop of `mapAll`: maps the given cached schemas in order until
        one fails; the cache stays as it is. */
    method MapSchemas(all: seq<SchemaManagement.Schema>) returns (outcome: Outcome<string>)
      requires Renders(env) && schemas != null && schemas.Valid()
      requires forall i :: 0 <= i < |all| ==> all[i].name in schemas.schemas && schemas.schemas[all[i].name] == all[i]
      modifies this`files, this`schemaNamespace, schemas
      ensures schemas == old(schemas) && schemas.Valid()
      ensures schemas.schemas == old(schemas.schemas) && schemas.order == old(schemas.order) && schemas.builds == old(schemas.builds)
      ensures Effect(files, outcome) == MapEach(env, old(files), all, mutators)
    {
      ghost var start := files;
      ghost var cache := schemas.schemas;
      ghost var order := schemas.order;
      ghost var builds := schemas.builds;
      assert all[..0] == [];
      for i := 0 to |all|
        invariant schemas.Valid()
        invariant schemas.schemas == cache && schemas.order == order && schemas.builds == builds
        invariant Effect(files, Pass) == MapEach(env, start, all[..i], mutators)
      {
        ghost var before := files;
        outcome := MapSchema(all[i].name);
        if outcome.Fail? {
          MapEachFails(env, start, all, i, mutators, before);
          return;
        }
        MapEachStep(env, start, all, i, mutators, before);
      }
      assert all[..|all|] == all;
      outcome := Pass;
    }
  }

  /** Once a run over schemas has failed, later schemas change nothing. */
  lemma {:induction false} MapEachStopsAtFailure(env: Environment, files: map<string, string>, a: seq<SchemaManagement.Schema>, b: seq<SchemaManagement.Schema>, mutators: seq<Mutator>)
    requires MapEach(env, files, a, mutators).outcome.Fail?
    ensures MapEach(env, files, a + b, mutators) == MapEach(env, files, a, mutators)
    decreases |b|
  {
    if b == [] {
      assert a + b == a;
    } else {
      var init := b[..|b| - 1];
      assert (a + b)[..|a + b| - 1] == a + init;
      MapEachStopsAtFailure(env, files, a, init, mutators);
    }
  }

  /** After the schemas before the `i`-th one were mapped without failure,
      the `i`-th one is mapped next. */
  lemma MapEachStep(env: Environment, start: map<string, string>, all: seq<SchemaManagement.Schema>, i: nat,
                    mutators: seq<Mutator>, before: map<string, string>)
    requires i < |all| && MapEach(env, start, all[..i], mutators) == Effect(before, Pass)
    ensures MapEach(env, start, all[..i + 1], mutators) == CreateAll(env, before, all[i].name, Selected(env.config, all[i].blueprints), mutators)
  {
    TakeSnoc(all, i);
    assert all[..i + 1][..i] == all[..i];
  }

  /** When the `i`-th schema fails, the run over all schemas ends there. */
  lemma MapEachFails(env: Environment, start: map<string, string>, all: seq<SchemaManagement.Schema>, i: nat,
                     mutators: seq<Mutator>, before: map<string, string>)
    requires i < |all| && MapEach(env, start, all[..i], mutators) == Effect(before, Pass)
    requires CreateAll(env, before, all[i].name, Selected(env.config, all[i].blueprints), mutators).outcome.Fail?
    ensures MapEach(env, start, all, mutators) == CreateAll(env, before, all[i].name, Selected(env.config, all[i].blueprints), mutators)
  {
    MapEachStep(env, start, all, i, mutators, before);
    MapEachStopsAtFailure(env, start, all[..i + 1], all[i + 1..], mutators);
    TakeDrop(all, i + 1);
  }
}
