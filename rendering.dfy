/**
 * The text of the generated files: the `@property` annotation block, the
 * class body, the body of the user file, and the placeholder substitution
 * that turns a template into a file. The class writer's emitters are
 * uninterpreted; what is fixed here is which emissions happen, with which
 * arguments and in which order.
 */
module Rendering {
  import opened Results
  import opened Strings
  import opened Models
  import Imports
  import Naming

  /** One call to the class writer. */
  datatype Emission =
    | Annotate(tag: string, text: string)
    | Mix(traitName: string)
    | Constant(constName: string, column: string)
    | Field(fieldName: string, value: Value, options: Options)
    | Operation(methodName: string, body: string, options: Options)

  /** The text the class writer returns for one call. */
  function Fragment(w: Classify, e: Emission): string {
    match e
    case Annotate(tag, text) => w.annotation(tag, text)
    case Mix(name) => w.mixin(name)
    case Constant(name, column) => w.constant(name, column)
    case Field(name, value, options) => w.field(name, value, options)
    case Operation(name, body, options) => w.operation(name, body, options)
  }

  /** The fragments of a sequence of calls, in order. */
  function Emit(w: Classify, es: seq<Emission>): string {
    if es == [] then [] else Emit(w, es[..|es| - 1]) + Fragment(w, es[|es| - 1])
  }

  /** One more call appends its fragment. */
  lemma EmitSnoc(w: Classify, es: seq<Emission>, e: Emission)
    ensures Emit(w, es + [e]) == Emit(w, es) + Fragment(w, e)
  {
    assert (es + [e])[..|es|] == es;
  }

  /** One more call appends its fragment after whatever came before. */
  lemma EmitAfter(w: Classify, before: string, es: seq<Emission>, e: Emission)
    ensures before + Emit(w, es) + Fragment(w, e) == before + Emit(w, es + [e])
  {
    EmitSnoc(w, es, e);
  }


  // ---------------------------------------------------------------------
  // The annotation block

  /** `@property <hint> $<name>` for each column-derived property. */
  function PropertyAnnotations(props: seq<(string, string)>): seq<Emission> {
    seq(|props|, i requires 0 <= i < |props| => Annotate("property", props[i].1 + " $" + props[i].0))
  }

  /** `@property <hint> $<name>` for each relation. */
  function RelationAnnotations(rels: seq<(string, RelationView)>): seq<Emission> {
    seq(|rels|, i requires 0 <= i < |rels| => Annotate("property", rels[i].1.hint + " $" + rels[i].0))
  }

  /** The relations that get an annotation: those whose name is not also
      the name of a property, in order. */
  function Annotated(m: Model, rels: seq<(string, RelationView)>): (kept: seq<(string, RelationView)>)
    ensures forall r :: r in kept <==> r in rels && !HasProperty(m, r.0)
    ensures |kept| <= |rels|
  {
    if rels == [] then []
    else
      var last := rels[|rels| - 1];
      assert rels == rels[..|rels| - 1] + [last];
      Annotated(m, rels[..|rels| - 1]) + (if HasProperty(m, last.0) then [] else [last])
  }

  /** The annotation block: the property annotations, the separator when
      the model has any relation, then the annotations of the relations
      that do not collide with a property. */
  function PropertiesText(w: Classify, m: Model): string {
    Emit(w, PropertyAnnotations(m.properties))
    + (if m.relations != [] then "\n * " else "")
    + Emit(w, RelationAnnotations(Annotated(m, m.relations)))
  }

  /** `properties`. */
  method Properties(w: Classify, m: Model) returns (annotations: string)
    ensures annotations == PropertiesText(w, m)
  {
    annotations := "";
    ghost var props := PropertyAnnotations(m.properties);
    for i := 0 to |m.properties|
      invariant annotations == Emit(w, props[..i])
    {
      TakeSnoc(props, i);
      EmitSnoc(w, props[..i], props[i]);
      annotations := annotations + w.annotation("property", m.properties[i].1 + " $" + m.properties[i].0);
    }
    assert props[..|props|] == props;
    if m.relations != [] {
      annotations := annotations + "\n * ";
    }
    annotations := AppendRelationAnnotations(w, m, annotations);
  }

  /** The second loop of `properties`: an annotation for each relation
      whose name is not taken by a property, appended to `head`. */
  method AppendRelationAnnotations(w: Classify, m: Model, head: string) returns (annotations: string)
    ensures annotations == head + Emit(w, RelationAnnotations(Annotated(m, m.relations)))
  {
    annotations := head;
    for i := 0 to |m.relations|
      invariant annotations == head + Emit(w, RelationAnnotations(Annotated(m, m.relations[..i])))
    {
      var name, relation := m.relations[i].0, m.relations[i].1;
      ghost var kept := Annotated(m, m.relations[..i]);
      TakeSnoc(m.relations, i);
      AnnotatedSnoc(m, m.relations[..i], m.relations[i]);
      if HasProperty(m, name) {
        assert kept + [] == kept;
        continue;
      }
      assert Annotated(m, m.relations[..i + 1]) == kept + [m.relations[i]];
      RelationAnnotationsSnoc(kept, m.relations[i]);
      EmitAfter(w, head, RelationAnnotations(kept), Annotate("property", relation.hint + " $" + name));
      annotations := annotations + w.annotation("property", relation.hint + " $" + name);
    }
    assert m.relations[..|m.relations|] == m.relations;
  }

  lemma AnnotatedSnoc(m: Model, rels: seq<(string, RelationView)>, r: (string, RelationView))
    ensures Annotated(m, rels + [r]) == Annotated(m, rels) + (if HasProperty(m, r.0) then [] else [r])
  {
    assert (rels + [r])[..|rels|] == rels;
  }

  lemma RelationAnnotationsSnoc(rels: seq<(string, RelationView)>, r: (string, RelationView))
    ensures RelationAnnotations(rels + [r]) == RelationAnnotations(rels) + [Annotate("property", r.1.hint + " $" + r.0)]
  {
  }

  /** When every relation collides with a property, the block still ends
      with the separator, and nothing follows it. */
  lemma AllCollidingLeavesSeparator(w: Classify, m: Model)
    requires m.relations != []
    requires forall i :: 0 <= i < |m.relations| ==> HasProperty(m, m.relations[i].0)
    ensures PropertiesText(w, m) == Emit(w, PropertyAnnotations(m.properties)) + "\n * "
  {
  }

  /** Without relations there is no separator: the block is the property
      annotations alone. */
  lemma NoRelationsNoSeparator(w: Classify, m: Model)
    requires m.relations == []
    ensures PropertiesText(w, m) == Emit(w, PropertyAnnotations(m.properties))
  {
  }

  // ---------------------------------------------------------------------
  // The class body

  /** The column of an optional custom timestamp, when it is set. */
  function Present(column: Option<string>): seq<string> {
    match column
    case None => []
    case Some(c) => [c]
  }

  /** A custom timestamp column, under the constant that names it. */
  function Stamp(constant: string, column: Option<string>): seq<Emission> {
    match column
    case None => []
    case Some(c) => [Constant(constant, c)]
  }

  /** The constants for the custom timestamp columns, in emission order. */
  function TimestampConstants(m: Model): seq<Emission> {
    Stamp("CREATED_AT", m.createdAt) + Stamp("UPDATED_AT", m.updatedAt) + Stamp("DELETED_AT", m.deletedAt)
  }

  /** The custom timestamp columns, which get no property constant. */
  function TimestampColumns(m: Model): seq<string> {
    Present(m.createdAt) + Present(m.updatedAt) + Present(m.deletedAt)
  }

  /** The names of the column-derived properties, in order. */
  function PropertyNames(m: Model): seq<string> {
    seq(|m.properties|, i requires 0 <= i < |m.properties| => m.properties[i].0)
  }

  /** `array_diff`: the names not among the excluded ones, in order. */
  function Without(names: seq<string>, excluded: seq<string>): (r: seq<string>)
    ensures forall x :: x in r <==> x in names && x !in excluded
    ensures |r| <= |names|
  {
    if names == [] then []
    else
      var last := names[|names| - 1];
      assert names == names[..|names| - 1] + [last];
      Without(names[..|names| - 1], excluded) + (if last in excluded then [] else [last])
  }

  /** A property constant `<NAME> = '<name>'` for each name. */
  function ConstantsFor(names: seq<string>): seq<Emission> {
    seq(|names|, i requires 0 <= i < |names| => Constant(Upper(names[i]), names[i]))
  }

  /** The property constants: every property except the custom timestamp
      columns, when the model uses property constants. */
  function PropertyConstants(m: Model): seq<Emission> {
    if m.usesPropertyConstants then ConstantsFor(Without(PropertyNames(m), TimestampColumns(m))) else []
  }

  /** A `use <trait>;` line for each trait. */
  function Mixins(traits: seq<string>): seq<Emission> {
    seq(|traits|, i requires 0 <= i < |traits| => Mix(traits[i]))
  }

  /** The traits and constants, before the blank line that ends them. */
  function ConstantPart(w: Classify, m: Model): string {
    Emit(w, Mixins(m.traits))
    + Emit(w, TimestampConstants(m))
    + Emit(w, PropertyConstants(m))
  }

  /** PHP's `empty` on a string: the empty string and "0". */
  predicate PhpEmpty(s: string) {
    s == "" || s == "0"
  }

  /** The trimmed constant part, followed by a newline unless `empty`. */
  function Head(w: Classify, m: Model): string {
    var t := Trim(ConstantPart(w, m), '\n');
    if PhpEmpty(t) then t else t + "\n"
  }

  /** A field whose value is a text, emitted only when set. */
  function TextField(name: string, value: Option<string>, options: Options): seq<Emission> {
    match value
    case None => []
    case Some(v) => [Field(name, Text(v), options)]
  }

  /** A field whose value is any value, emitted only when set. */
  function ValueField(name: string, value: Option<Value>, options: Options): seq<Emission> {
    match value
    case None => []
    case Some(v) => [Field(name, v, options)]
  }

  /** A field emitted when `c` holds and its value is set. */
  function ValueFieldWhen(c: bool, name: string, value: Option<Value>, options: Options): seq<Emission> {
    if c && value.Some? then [Field(name, value.value, options)] else []
  }

  /** A field emitted when `c` holds. */
  function FieldWhen(c: bool, name: string, value: Value, options: Options): seq<Emission> {
    if c then [Field(name, value, options)] else []
  }

  /** The fields that say where the rows live and how they are keyed. */
  function TableFields(m: Model): seq<Emission> {
    FieldWhen(m.showsConnection, "connection", Text(m.connectionName), NoOptions)
    + TextField("table", m.tableForQuery, NoOptions)
    + TextField("primaryKey", m.primaryKey, NoOptions)
    + FieldWhen(!m.incrementing, "incrementing", Flag(false), Public)
  }

  /** The fields that switch off or adjust the framework's conventions. */
  function ConventionFields(m: Model): seq<Emission> {
    ValueField("perPage", m.perPage, NoOptions)
    + FieldWhen(!m.timestamps, "timestamps", Flag(false), Public)
    + TextField("dateFormat", m.dateFormat, NoOptions)
    + FieldWhen(!m.snakeAttributes, "snakeAttributes", Flag(false), PublicStatic)
  }

  /** The list fields of the base class, each after a blank line. Hidden
      and fillable lists go to the base class only when no user file is
      generated. */
  function ListFields(m: Model): seq<Emission> {
    ValueField("casts", m.casts, NewlineBefore)
    + ValueField("dates", m.dates, NewlineBefore)
    + ValueFieldWhen(!m.usesBaseFiles, "hidden", m.hidden, NewlineBefore)
    + ValueFieldWhen(!m.usesBaseFiles, "fillable", m.fillable, NewlineBefore)
    + ValueFieldWhen(m.usesHints, "hints", m.hints, NewlineBefore)
  }

  /** The methods of the base class: the mutators' methods, then one
      accessor per relation. */
  function MutationMethods(m: Model): seq<Emission> {
    seq(|m.mutations|, i requires 0 <= i < |m.mutations| => Operation(m.mutations[i].name, m.mutations[i].body, NewlineBefore))
  }

  function RelationMethods(m: Model): seq<Emission> {
    seq(|m.relations|, i requires 0 <= i < |m.relations| => Operation(m.relations[i].1.name, m.relations[i].1.body, NewlineBefore))
  }

  /** Every emission of the class body after the constant part, in order. */
  function Members(m: Model): seq<Emission> {
    TableFields(m) + ConventionFields(m) + ListFields(m) + MutationMethods(m) + RelationMethods(m)
  }

  /** The class body: never starting or ending with a line break, and,
      inside the trimmed newlines, the head followed by the members. */
  function BodyText(w: Classify, m: Model): (body: string)
    ensures body != [] ==> body[0] != '\n' && body[|body| - 1] != '\n'
  {
    var b := Head(w, m) + Emit(w, Members(m));
    TrimEnds(b, '\n');
    Trim(b, '\n')
  }

  /** Emitting two sequences one after the other. */
  lemma {:induction false} EmitAppend(w: Classify, xs: seq<Emission>, ys: seq<Emission>)
    ensures Emit(w, xs + ys) == Emit(w, xs) + Emit(w, ys)
  {
    if ys != [] {
      var init := ys[..|ys| - 1];
      var last := ys[|ys| - 1];
      assert ys == init + [last];
      assert xs + ys == (xs + init) + [last];
      EmitAppend(w, xs, init);
      EmitSnoc(w, xs + init, last);
      EmitSnoc(w, init, last);
    } else {
      assert xs + ys == xs;
    }
  }
  /** A single call emits its fragment. */
  lemma EmitOne(w: Classify, e: Emission)
    ensures Emit(w, [e]) == Fragment(w, e)
  {
    assert [e][..0] == [];
  }

  /** Two runs of calls after some text. */
  lemma EmitParts(w: Classify, before: string, xs: seq<Emission>, ys: seq<Emission>)
    ensures before + Emit(w, xs) + Emit(w, ys) == before + Emit(w, xs + ys)
  {
    EmitAppend(w, xs, ys);
    AppendAssociative(before, Emit(w, xs), Emit(w, ys));
  }

  /** Four runs of calls after some text. */
  lemma EmitFour(w: Classify, before: string, a: seq<Emission>, b: seq<Emission>, c: seq<Emission>, d: seq<Emission>)
    ensures before + Emit(w, a) + Emit(w, b) + Emit(w, c) + Emit(w, d) == before + Emit(w, a + b + c + d)
  {
    EmitParts(w, before, a, b);
    EmitParts(w, before, a + b, c);
    EmitParts(w, before, a + b + c, d);
  }


  /** The traits, appended to `body`. */
  method AppendMixins(w: Classify, m: Model, body: string) returns (r: string)
    ensures r == body + Emit(w, Mixins(m.traits))
  {
    r := body;
    ghost var mixins := Mixins(m.traits);
    for i := 0 to |m.traits|
      invariant r == body + Emit(w, mixins[..i])
    {
      TakeSnoc(mixins, i);
      EmitAfter(w, body, mixins[..i], mixins[i]);
      r := r + w.mixin(m.traits[i]);
    }
    assert mixins[..|mixins|] == mixins;
  }

  /** The custom timestamp constants, appended to `body`, and the columns
      they name. */
  method AppendTimestamps(w: Classify, m: Model, body: string) returns (r: string, excluded: seq<string>)
    ensures r == body + Emit(w, TimestampConstants(m))
    ensures excluded == TimestampColumns(m)
  {
    r := body;
    excluded := [];
    if m.createdAt.Some? {
      EmitOne(w, Constant("CREATED_AT", m.createdAt.value));
      r := r + w.constant("CREATED_AT", m.createdAt.value);
      excluded := excluded + [m.createdAt.value];
    }
    ghost var a := Stamp("CREATED_AT", m.createdAt);
    assert r == body + Emit(w, a);
    ghost var r1, e1 := r, excluded;
    if m.updatedAt.Some? {
      EmitOne(w, Constant("UPDATED_AT", m.updatedAt.value));
      r := r + w.constant("UPDATED_AT", m.updatedAt.value);
      excluded := excluded + [m.updatedAt.value];
    }
    ghost var b := Stamp("UPDATED_AT", m.updatedAt);
    assert r == r1 + Emit(w, b) && excluded == e1 + Present(m.updatedAt);
    ghost var r2, e2 := r, excluded;
    if m.deletedAt.Some? {
      EmitOne(w, Constant("DELETED_AT", m.deletedAt.value));
      r := r + w.constant("DELETED_AT", m.deletedAt.value);
      excluded := excluded + [m.deletedAt.value];
    }
    ghost var c := Stamp("DELETED_AT", m.deletedAt);
    assert r == r2 + Emit(w, c) && excluded == e2 + Present(m.deletedAt);
    EmitParts(w, body, a, b);
    EmitParts(w, body, a + b, c);
  }

  /** The property constants, appended to `body`. */
  method AppendPropertyConstants(w: Classify, m: Model, body: string, excluded: seq<string>) returns (r: string)
    requires excluded == TimestampColumns(m)
    ensures r == body + Emit(w, PropertyConstants(m))
  {
    r := body;
    if m.usesPropertyConstants {
      var properties := Without(PropertyNames(m), excluded);
      r := AppendConstants(w, properties, body);
    }
  }

  /** A constant `<NAME> = '<name>'` for each name, appended to `body`. */
  method AppendConstants(w: Classify, names: seq<string>, body: string) returns (r: string)
    ensures r == body + Emit(w, ConstantsFor(names))
  {
    r := body;
    ghost var cs := ConstantsFor(names);
    for i := 0 to |names|
      invariant r == body + Emit(w, cs[..i])
    {
      TakeSnoc(cs, i);
      EmitAfter(w, body, cs[..i], cs[i]);
      r := r + w.constant(Upper(names[i]), names[i]);
    }
    assert cs[..|cs|] == cs;
  }

  /** The connection, table, primary key and incrementing fields, appended
      to `body`. */
  method AppendTableFields(w: Classify, m: Model, body: string) returns (r: string)
    ensures r == body + Emit(w, TableFields(m))
  {
    r := body;
    if m.showsConnection {
      EmitOne(w, Field("connection", Text(m.connectionName), NoOptions));
      r := r + w.field("connection", Text(m.connectionName), NoOptions);
    }
    ghost var a := FieldWhen(m.showsConnection, "connection", Text(m.connectionName), NoOptions);
    assert r == body + Emit(w, a);
    ghost var r1 := r;
    if m.tableForQuery.Some? {
      EmitOne(w, Field("table", Text(m.tableForQuery.value), NoOptions));
      r := r + w.field("table", Text(m.tableForQuery.value), NoOptions);
    }
    ghost var b := TextField("table", m.tableForQuery, NoOptions);
    assert r == r1 + Emit(w, b);
    ghost var r2 := r;
    if m.primaryKey.Some? {
      EmitOne(w, Field("primaryKey", Text(m.primaryKey.value), NoOptions));
      r := r + w.field("primaryKey", Text(m.primaryKey.value), NoOptions);
    }
    ghost var c := TextField("primaryKey", m.primaryKey, NoOptions);
    assert r == r2 + Emit(w, c);
    ghost var r3 := r;
    if !m.incrementing {
      EmitOne(w, Field("incrementing", Flag(false), Public));
      r := r + w.field("incrementing", Flag(false), Public);
    }
    ghost var d := FieldWhen(!m.incrementing, "incrementing", Flag(false), Public);
    assert r == r3 + Emit(w, d);
    EmitFour(w, body, a, b, c, d);
  }

  /** The per-page, timestamps, date format and snake-case fields, appended
      to `body`. */
  method AppendConventionFields(w: Classify, m: Model, body: string) returns (r: string)
    ensures r == body + Emit(w, ConventionFields(m))
  {
    r := body;
    if m.perPage.Some? {
      EmitOne(w, Field("perPage", m.perPage.value, NoOptions));
      r := r + w.field("perPage", m.perPage.value, NoOptions);
    }
    ghost var a := ValueField("perPage", m.perPage, NoOptions);
    assert r == body + Emit(w, a);
    ghost var r1 := r;
    if !m.timestamps {
      EmitOne(w, Field("timestamps", Flag(false), Public));
      r := r + w.field("timestamps", Flag(false), Public);
    }
    ghost var b := FieldWhen(!m.timestamps, "timestamps", Flag(false), Public);
    assert r == r1 + Emit(w, b);
    ghost var r2 := r;
    if m.dateFormat.Some? {
      EmitOne(w, Field("dateFormat", Text(m.dateFormat.value), NoOptions));
      r := r + w.field("dateFormat", Text(m.dateFormat.value), NoOptions);
    }
    ghost var c := TextField("dateFormat", m.dateFormat, NoOptions);
    assert r == r2 + Emit(w, c);
    ghost var r3 := r;
    if !m.snakeAttributes {
      EmitOne(w, Field("snakeAttributes", Flag(false), PublicStatic));
      r := r + w.field("snakeAttributes", Flag(false), PublicStatic);
    }
    ghost var d := FieldWhen(!m.snakeAttributes, "snakeAttributes", Flag(false), PublicStatic);
    assert r == r3 + Emit(w, d);
    EmitFour(w, body, a, b, c, d);
  }

  /** The list fields, appended to `body`. */
  method AppendListFields(w: Classify, m: Model, body: string) returns (r: string)
    ensures r == body + Emit(w, ListFields(m))
  {
    r := body;
    if m.casts.Some? {
      EmitOne(w, Field("casts", m.casts.value, NewlineBefore));
      r := r + w.field("casts", m.casts.value, NewlineBefore);
    }
    ghost var a := ValueField("casts", m.casts, NewlineBefore);
    assert r == body + Emit(w, a);
    ghost var r1 := r;
    if m.dates.Some? {
      EmitOne(w, Field("dates", m.dates.value, NewlineBefore));
      r := r + w.field("dates", m.dates.value, NewlineBefore);
    }
    ghost var b := ValueField("dates", m.dates, NewlineBefore);
    assert r == r1 + Emit(w, b);
    ghost var r2 := r;
    if m.hidden.Some? && !m.usesBaseFiles {
      EmitOne(w, Field("hidden", m.hidden.value, NewlineBefore));
      r := r + w.field("hidden", m.hidden.value, NewlineBefore);
    }
    ghost var c := ValueFieldWhen(!m.usesBaseFiles, "hidden", m.hidden, NewlineBefore);
    assert r == r2 + Emit(w, c);
    ghost var r3 := r;
    if m.fillable.Some? && !m.usesBaseFiles {
      EmitOne(w, Field("fillable", m.fillable.value, NewlineBefore));
      r := r + w.field("fillable", m.fillable.value, NewlineBefore);
    }
    ghost var d := ValueFieldWhen(!m.usesBaseFiles, "fillable", m.fillable, NewlineBefore);
    assert r == r3 + Emit(w, d);
    ghost var r4 := r;
    if m.hints.Some? && m.usesHints {
      EmitOne(w, Field("hints", m.hints.value, NewlineBefore));
      r := r + w.field("hints", m.hints.value, NewlineBefore);
    }
    ghost var e := ValueFieldWhen(m.usesHints, "hints", m.hints, NewlineBefore);
    assert r == r4 + Emit(w, e);
    EmitFour(w, body, a, b, c, d);
    EmitParts(w, body, a + b + c + d, e);
  }

  /** The mutators' methods, then the relation accessors, appended to `body`. */
  method AppendMethods(w: Classify, m: Model, body: string) returns (r: string)
    ensures r == body + Emit(w, MutationMethods(m)) + Emit(w, RelationMethods(m))
  {
    r := body;
    ghost var mutations := MutationMethods(m);
    for i := 0 to |m.mutations|
      invariant r == body + Emit(w, mutations[..i])
    {
      TakeSnoc(mutations, i);
      EmitAfter(w, body, mutations[..i], mutations[i]);
      r := r + w.operation(m.mutations[i].name, m.mutations[i].body, NewlineBefore);
    }
    assert mutations[..|mutations|] == mutations;
    ghost var afterMutations := r;
    ghost var relations := RelationMethods(m);
    for i := 0 to |m.relations|
      invariant r == afterMutations + Emit(w, relations[..i])
    {
      TakeSnoc(relations, i);
      EmitAfter(w, afterMutations, relations[..i], relations[i]);
      r := r + w.operation(m.relations[i].1.name, m.relations[i].1.body, NewlineBefore);
    }
    assert relations[..|relations|] == relations;
  }

  /** `body`: the constant part, trimmed and followed by a newline unless
      `empty`, then the fields and methods, trimmed again. */
  method Body(w: Classify, m: Model) returns (body: string)
    ensures body == BodyText(w, m)
  {
    var head := BodyHead(w, m);
    body := AppendTableFields(w, m, head);
    body := AppendConventionFields(w, m, body);
    body := AppendListFields(w, m, body);
    body := AppendMethods(w, m, body);
    MembersAfter(w, m, head);
    body := Trim(body, '\n');
  }

  /** The traits and constants of the class body, trimmed of newlines and
      followed by one unless nothing (or "0") is left. */
  method BodyHead(w: Classify, m: Model) returns (head: string)
    ensures head == Head(w, m)
  {
    var excluded;
    head := AppendMixins(w, m, "");
    assert head == Emit(w, Mixins(m.traits));
    head, excluded := AppendTimestamps(w, m, head);
    head := AppendPropertyConstants(w, m, head, excluded);
    assert head == ConstantPart(w, m);
    head := Trim(head, '\n');
    if !PhpEmpty(head) {
      head := head + "\n";
    }
  }

  /** The members' text after a head is the text of each group in turn. */
  lemma MembersAfter(w: Classify, m: Model, head: string)
    ensures head + Emit(w, TableFields(m)) + Emit(w, ConventionFields(m)) + Emit(w, ListFields(m))
      + Emit(w, MutationMethods(m)) + Emit(w, RelationMethods(m))
      == head + Emit(w, Members(m))
  {
    var t, c, l := TableFields(m), ConventionFields(m), ListFields(m);
    var mu, re := MutationMethods(m), RelationMethods(m);
    assert Members(m) == (((t + c) + l) + mu) + re;
    EmitAppend(w, ((t + c) + l) + mu, re);
    EmitAppend(w, (t + c) + l, mu);
    EmitAppend(w, t + c, l);
    EmitAppend(w, t, c);
    var et, ec, el, emu, ere := Emit(w, t), Emit(w, c), Emit(w, l), Emit(w, mu), Emit(w, re);
    AppendAssociative(head, (((et + ec) + el) + emu), ere);
    AppendAssociative(head, ((et + ec) + el), emu);
    AppendAssociative(head, et + ec, el);
    AppendAssociative(head, et, ec);
  }

  /** A custom timestamp column gets its own constant and never a property
      constant; every other property gets `<NAME> = '<name>'` when the
      model uses property constants. */
  lemma PropertyConstantsSkipTimestamps(m: Model)
    ensures forall c :: c in PropertyConstants(m) ==> c.Constant? && c.column !in TimestampColumns(m) && c.constName == Upper(c.column)
    ensures m.usesPropertyConstants ==>
      forall i :: 0 <= i < |m.properties| && m.properties[i].0 !in TimestampColumns(m) ==>
        Constant(Upper(m.properties[i].0), m.properties[i].0) in PropertyConstants(m)
    ensures !m.usesPropertyConstants ==> PropertyConstants(m) == []
  {
    var excluded := TimestampColumns(m);
    var kept := Without(PropertyNames(m), excluded);
    forall c | c in PropertyConstants(m)
      ensures c.Constant? && c.column !in excluded && c.constName == Upper(c.column)
    {
      var i :| 0 <= i < |ConstantsFor(kept)| && ConstantsFor(kept)[i] == c;
      assert kept[i] in kept;
    }
    if m.usesPropertyConstants {
      forall i | 0 <= i < |m.properties| && m.properties[i].0 !in excluded
        ensures Constant(Upper(m.properties[i].0), m.properties[i].0) in PropertyConstants(m)
      {
        var n := m.properties[i].0;
        assert PropertyNames(m)[i] == n;
        assert n in kept;
        var j :| 0 <= j < |kept| && kept[j] == n;
        assert ConstantsFor(kept)[j] == Constant(Upper(n), n);
      }
    }
  }

  /** The timestamp constants name exactly the custom timestamp columns, in
      the same order. */
  lemma TimestampConstantsNameColumns(m: Model)
    ensures |TimestampConstants(m)| == |TimestampColumns(m)|
    ensures forall i :: 0 <= i < |TimestampConstants(m)| ==> TimestampConstants(m)[i].Constant? && TimestampConstants(m)[i].column == TimestampColumns(m)[i]
  {
  }

  // ---------------------------------------------------------------------
  // The user file body

  /** The fields of the user file: hidden, then fillable after a blank line. */
  function UserFields(m: Model): seq<Emission> {
    ValueField("hidden", m.hidden, NoOptions) + ValueField("fillable", m.fillable, NewlineBefore)
  }

  /** `userFileBody`: without line breaks at either end, and empty when the
      model has neither hidden nor fillable columns. */
  function UserFileBody(w: Classify, m: Model): (body: string)
    ensures body != [] ==> body[0] != '\n' && body[|body| - 1] != '\n'
    ensures m.hidden.None? && m.fillable.None? ==> body == []
  {
    var b := Emit(w, UserFields(m));
    TrimEnds(b, '\n');
    Trim(b, '\n')
  }

  /** With base files, the hidden and fillable lists move from the base
      class to the user file; without them, they stay in the base class. */
  lemma HiddenAndFillablePlacement(m: Model)
    ensures m.usesBaseFiles ==> forall f :: f in TableFields(m) + ConventionFields(m) + ListFields(m) ==> f.Field? && f.fieldName != "hidden" && f.fieldName != "fillable"
    ensures !m.usesBaseFiles && m.hidden.Some? ==> Field("hidden", m.hidden.value, NewlineBefore) in ListFields(m)
    ensures !m.usesBaseFiles && m.fillable.Some? ==> Field("fillable", m.fillable.value, NewlineBefore) in ListFields(m)
    ensures m.hidden.Some? ==> Field("hidden", m.hidden.value, NoOptions) in UserFields(m)
    ensures m.fillable.Some? ==> Field("fillable", m.fillable.value, NewlineBefore) in UserFields(m)
    ensures forall f :: f in UserFields(m) ==> f.Field? && (f.fieldName == "hidden" || f.fieldName == "fillable")
  {
    if m.usesBaseFiles {
      BaseFieldsWithBaseFiles(m);
    }
  }

  /** With base files, no field of the base class is the hidden or the
      fillable list. */
  lemma BaseFieldsWithBaseFiles(m: Model)
    requires m.usesBaseFiles
    ensures forall f :: f in TableFields(m) + ConventionFields(m) + ListFields(m) ==> f.Field? && f.fieldName != "hidden" && f.fieldName != "fillable"
  {
    var t, c, l := TableFields(m), ConventionFields(m), ListFields(m);
    assert forall f :: f in t ==> f.Field? && f.fieldName != "hidden" && f.fieldName != "fillable";
    assert forall f :: f in c ==> f.Field? && f.fieldName != "hidden" && f.fieldName != "fillable";
    assert forall f :: f in l ==> f.Field? && f.fieldName != "hidden" && f.fieldName != "fillable";
  }

  // ---------------------------------------------------------------------
  // Templates

  /** The placeholders replaced one after the other: each replacement runs
      on the output of the previous one. */
  function Substitute(template: string, substitutions: seq<(string, string)>): string {
    if substitutions == [] then template
    else
      var last := substitutions[|substitutions| - 1];
      ReplaceAll(Substitute(template, substitutions[..|substitutions| - 1]), last.0, last.1)
  }

  /** One more substitution runs on the result of the earlier ones. */
  lemma SubstituteSnoc(template: string, substitutions: seq<(string, string)>, next: (string, string))
    ensures Substitute(template, substitutions + [next]) == ReplaceAll(Substitute(template, substitutions), next.0, next.1)
  {
    assert (substitutions + [next])[..|substitutions|] == substitutions;
  }

  /** Every placeholder begins with an opening brace. */
  predicate Braced(substitutions: seq<(string, string)>) {
    forall i :: 0 <= i < |substitutions| ==> substitutions[i].0 != [] && substitutions[i].0[0] == '{'
  }

  /** A template without any brace comes out as it is. */
  lemma {:induction false} SubstitutePlain(template: string, substitutions: seq<(string, string)>)
    requires Braced(substitutions) && '{' !in template
    ensures Substitute(template, substitutions) == template
  {
    if substitutions != [] {
      var init := substitutions[..|substitutions| - 1];
      var last := substitutions[|substitutions| - 1];
      assert Braced(init) by {
        forall i | 0 <= i < |init| ensures init[i].0 != [] && init[i].0[0] == '{' {
          assert init[i] == substitutions[i];
        }
      }
      SubstitutePlain(template, init);
      ReplaceAbsent(template, last.0, last.1);
    }
  }

  /** The substitutions of the base class template, in the order of
      `fillTemplate`; the import section is replaced by the empty text. */
  function ModelSubstitutions(namespace: string, className: string, properties: string, parent: string, body: string): (subs: seq<(string, string)>)
    ensures Braced(subs)
  {
    [("{{namespace}}", namespace),
     ("{{class}}", className),
     ("{{properties}}", properties),
     ("{{parent}}", parent),
     ("{{body}}", body),
     ("{{imports}}", "")]
  }

  /** The base class file made from a template. */
  function Rendered(w: Classify, template: string, m: Model): string {
    Substitute(template, ModelSubstitutions(m.baseNamespace, m.className, PropertiesText(w, m), m.parentClass, BodyText(w, m)))
  }

  /** The classes the generated text refers to by qualified name: those of
      the annotations, the parent class and the body, without repeats. */
  function UsedClasses(w: Classify, m: Model): seq<string> {
    Unique(Imports.ExtractUsedClasses(PropertiesText(w, m))
           + Imports.ExtractUsedClasses(m.parentClass)
           + Imports.ExtractUsedClasses(BodyText(w, m)))
  }

  /** The import section computed from the used classes. */
  function ImportSection(w: Classify, m: Model): string {
    Join(Imports.Sort(Imports.ImportLines(m.baseNamespace, UsedClasses(w, m))), "\n")
  }

  /** `fillTemplate`: the placeholders replaced in order. The import section
      is computed (`discarded`) and then overwritten by the empty text before
      it is substituted, so it never reaches the file. */
  method FillTemplate(w: Classify, template: string, m: Model) returns (file: string, discarded: string)
    ensures file == Rendered(w, template, m)
    ensures discarded == ImportSection(w, m)
  {
    file := template;
    file := ReplaceAll(file, "{{namespace}}", m.baseNamespace);
    file := ReplaceAll(file, "{{class}}", m.className);

    var properties := Properties(w, m);
    var usedClasses := Imports.ExtractUsedClasses(properties);
    file := ReplaceAll(file, "{{properties}}", properties);

    usedClasses := usedClasses + Imports.ExtractUsedClasses(m.parentClass);
    file := ReplaceAll(file, "{{parent}}", m.parentClass);

    var body := Body(w, m);
    usedClasses := usedClasses + Imports.ExtractUsedClasses(body);
    file := ReplaceAll(file, "{{body}}", body);

    usedClasses := Unique(usedClasses);
    discarded := Imports.FormatUsedClasses(m.baseNamespace, usedClasses);
    var section := "";
    file := ReplaceAll(file, "{{imports}}", section);
    ModelSubstitutionsInOrder(template, m.baseNamespace, m.className, properties, m.parentClass, body);
  }

  /** The base class substitutions are six `str_replace` calls in a row. */
  lemma ModelSubstitutionsInOrder(template: string, namespace: string, className: string, properties: string, parent: string, body: string)
    ensures Substitute(template, ModelSubstitutions(namespace, className, properties, parent, body))
      == ReplaceAll(ReplaceAll(ReplaceAll(ReplaceAll(ReplaceAll(ReplaceAll(template,
           "{{namespace}}", namespace), "{{class}}", className), "{{properties}}", properties),
           "{{parent}}", parent), "{{body}}", body), "{{imports}}", "")
  {
    var subs := ModelSubstitutions(namespace, className, properties, parent, body);
    assert subs[..0] == [];
    SubstituteStep(template, subs, 0);
    SubstituteStep(template, subs, 1);
    SubstituteStep(template, subs, 2);
    SubstituteStep(template, subs, 3);
    SubstituteStep(template, subs, 4);
    SubstituteStep(template, subs, 5);
    assert subs[..6] == subs;
  }

  /** The substitutions up to the `k`-th, done one after the other. */
  lemma SubstituteStep(template: string, substitutions: seq<(string, string)>, k: nat)
    requires k < |substitutions|
    ensures Substitute(template, substitutions[..k + 1]) == ReplaceAll(Substitute(template, substitutions[..k]), substitutions[k].0, substitutions[k].1)
  {
    TakeSnoc(substitutions, k);
    SubstituteSnoc(template, substitutions[..k], substitutions[k]);
  }

  /** A template without placeholders is copied as it is. */
  lemma PlainModelTemplate(w: Classify, template: string, m: Model)
    requires '{' !in template
    ensures Rendered(w, template, m) == template
  {
    SubstitutePlain(template, ModelSubstitutions(m.baseNamespace, m.className, PropertiesText(w, m), m.parentClass, BodyText(w, m)));
  }

  /** The import placeholder always becomes empty, whatever classes the
      model uses. */
  lemma ImportsPlaceholderEmpty(w: Classify, m: Model)
    ensures Rendered(w, "{{imports}}", m) == ""
  {
    ImportsPlaceholderErased(m.baseNamespace, m.className, PropertiesText(w, m), m.parentClass, BodyText(w, m));
  }

  lemma ImportsPlaceholderErased(namespace: string, className: string, properties: string, parent: string, body: string)
    ensures Substitute("{{imports}}", ModelSubstitutions(namespace, className, properties, parent, body)) == ""
  {
    var t := "{{imports}}";
    var subs := ModelSubstitutions(namespace, className, properties, parent, body);
    assert subs[..0] == [];
    SubstituteSnoc(t, [], subs[0]);
    assert subs[..1] == [subs[0]];
    assert ReplaceAll(t, "{{namespace}}", namespace) == t;
    SubstituteSnoc(t, subs[..1], subs[1]);
    assert subs[..2] == subs[..1] + [subs[1]];
    ClassAbsent(className);
    SubstituteSnoc(t, subs[..2], subs[2]);
    assert subs[..3] == subs[..2] + [subs[2]];
    assert ReplaceAll(t, "{{properties}}", properties) == t;
    SubstituteSnoc(t, subs[..3], subs[3]);
    assert subs[..4] == subs[..3] + [subs[3]];
    ParentAbsent(parent);
    SubstituteSnoc(t, subs[..4], subs[4]);
    assert subs[..5] == subs[..4] + [subs[4]];
    BodyAbsent(body);
    SubstituteSnoc(t, subs[..5], subs[5]);
    assert subs == subs[..5] + [subs[5]];
    ImportsErased();
  }

  lemma ClassAbsent(r: string)
    ensures ReplaceAll("{{imports}}", "{{class}}", r) == "{{imports}}"
  {
    var t := "{{imports}}";
    assert t[1..] == "{imports}}" && t[1..][1..] == "imports}}" && t[1..][1..][1..] == "mports}}";
    assert !IsPrefix("{{class}}", t) by { assert t[2] != "{{class}}"[2]; }
    assert !IsPrefix("{{class}}", t[1..]) by { assert t[1..][1] != "{{class}}"[1]; }
    assert !IsPrefix("{{class}}", t[1..][1..]) by { assert t[1..][1..][0] != "{{class}}"[0]; }
  }

  lemma ParentAbsent(r: string)
    ensures ReplaceAll("{{imports}}", "{{parent}}", r) == "{{imports}}"
  {
    var t := "{{imports}}";
    assert t[1..] == "{imports}}" && t[1..][1..] == "imports}}";
    assert !IsPrefix("{{parent}}", t) by { assert t[2] != "{{parent}}"[2]; }
    assert !IsPrefix("{{parent}}", t[1..]) by { assert t[1..][1] != "{{parent}}"[1]; }
  }

  lemma BodyAbsent(r: string)
    ensures ReplaceAll("{{imports}}", "{{body}}", r) == "{{imports}}"
  {
    var t := "{{imports}}";
    assert t[1..] == "{imports}}" && t[1..][1..] == "imports}}" && t[1..][1..][1..] == "mports}}" && t[1..][1..][1..][1..] == "ports}}";
    assert !IsPrefix("{{body}}", t) by { assert t[2] != "{{body}}"[2]; }
    assert !IsPrefix("{{body}}", t[1..]) by { assert t[1..][1] != "{{body}}"[1]; }
    assert !IsPrefix("{{body}}", t[1..][1..]) by { assert t[1..][1..][0] != "{{body}}"[0]; }
    assert !IsPrefix("{{body}}", t[1..][1..][1..]) by { assert t[1..][1..][1..][0] != "{{body}}"[0]; }
  }

  lemma ImportsErased()
    ensures ReplaceAll("{{imports}}", "{{imports}}", "") == ""
  {
    var t := "{{imports}}";
    assert IsPrefix(t, t);
    assert t[|t|..] == "";
  }

  /** `str_replace("\t", str_repeat(' ', n), $file)` when the model asks for
      space indentation. */
  function Indent(file: string, spaces: nat): (r: string)
    ensures spaces > 0 ==> '\t' !in r
    ensures spaces == 0 ==> r == file
  {
    if spaces > 0 then
      ReplaceCharRemovesIt(file, '\t', Repeat(' ', spaces));
      ReplaceAll(file, "\t", Repeat(' ', spaces))
    else file
  }

  /** The substitutions of the user file template, in the order of
      `createUserFile`. */
  function UserSubstitutions(namespace: string, className: string, imports: string, parent: string, body: string): (subs: seq<(string, string)>)
    ensures Braced(subs)
  {
    [("{{namespace}}", namespace),
     ("{{class}}", className),
     ("{{imports}}", imports),
     ("{{parent}}", parent),
     ("{{body}}", body)]
  }

  /** The user file made from a template: it extends the base class under
      its alias. */
  function RenderedUserFile(w: Classify, template: string, m: Model): string {
    Substitute(template, UserSubstitutions(m.namespace, m.className, Naming.FormatBaseClasses(m), Naming.BaseClassName(m), UserFileBody(w, m)))
  }

  /** The user file substitutions are five `str_replace` calls in a row. */
  lemma UserSubstitutionsInOrder(template: string, namespace: string, className: string, imports: string, parent: string, body: string)
    ensures Substitute(template, UserSubstitutions(namespace, className, imports, parent, body))
      == ReplaceAll(ReplaceAll(ReplaceAll(ReplaceAll(ReplaceAll(template,
           "{{namespace}}", namespace), "{{class}}", className), "{{imports}}", imports),
           "{{parent}}", parent), "{{body}}", body)
  {
    var subs := UserSubstitutions(namespace, className, imports, parent, body);
    assert subs[..0] == [];
    SubstituteStep(template, subs, 0);
    SubstituteStep(template, subs, 1);
    SubstituteStep(template, subs, 2);
    SubstituteStep(template, subs, 3);
    SubstituteStep(template, subs, 4);
    assert subs[..5] == subs;
  }

  /** A user template without placeholders is copied as it is. */
  lemma PlainUserTemplate(w: Classify, template: string, m: Model)
    requires '{' !in template
    ensures RenderedUserFile(w, template, m) == template
  {
    SubstitutePlain(template, UserSubstitutions(m.namespace, m.className, Naming.FormatBaseClasses(m), Naming.BaseClassName(m), UserFileBody(w, m)));
  }
}
