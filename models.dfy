/**
 * What the file generator reads from its collaborators: the model built for
 * one table (the accessors of the model class, as values), the per-table
 * configuration, and the text emitters of the class writer, which are
 * treated as functions whose results are only passed on.
 */
module Models {
  import opened Results
  import opened Metadata

  /** A value handed to the class writer for a field. */
  datatype Value = Text(text: string) | Flag(flag: bool) | Number(number: int) | Items(items: seq<string>) | Pairs(pairs: seq<(string, string)>)

  /** The options array of a field or method emission. */
  datatype Options = Options(visibility: Option<string>, before: Option<string>)

  const NoOptions := Options(None, None)
  const Public := Options(Some("public"), None)
  const PublicStatic := Options(Some("public static"), None)
  const NewlineBefore := Options(None, Some("\n"))

  /** The emitters of the class writer: doc-comment annotation, trait use,
      constant, field and method. */
  datatype Classify = Classify(
    annotation: (string, string) -> string,
    mixin: string -> string,
    constant: (string, string) -> string,
    field: (string, Value, Options) -> string,
    operation: (string, string, Options) -> string)

  /** A relation of the model: its type hint and its accessor's name and body. */
  datatype RelationView = RelationView(name: string, hint: string, body: string)

  /** A custom method added by a mutator. */
  datatype Mutation = Mutation(name: string, body: string)

  /** The model of one table, as the generator reads it. An optional value
      stands for a `has…`/`get…` accessor pair: `None` when `has…` is false. */
  datatype Model = Model(
    blueprint: Blueprint,
    schema: string,
    connectionName: string,
    namespace: string,
    baseNamespace: string,
    className: string,
    parentClass: string,
    properties: seq<(string, string)>,
    relations: seq<(string, RelationView)>,
    traits: seq<string>,
    mutations: seq<Mutation>,
    createdAt: Option<string>,
    updatedAt: Option<string>,
    deletedAt: Option<string>,
    usesPropertyConstants: bool,
    showsConnection: bool,
    tableForQuery: Option<string>,
    primaryKey: Option<string>,
    incrementing: bool,
    perPage: Option<Value>,
    timestamps: bool,
    dateFormat: Option<string>,
    snakeAttributes: bool,
    casts: Option<Value>,
    dates: Option<Value>,
    hidden: Option<Value>,
    fillable: Option<Value>,
    hints: Option<Value>,
    usesHints: bool,
    usesBaseFiles: bool,
    indentWithSpace: nat)

  /** `hasProperty`: a column-derived property of that name exists. */
  predicate HasProperty(m: Model, name: string) {
    exists i :: 0 <= i < |m.properties| && m.properties[i].0 == name
  }

  /** The configuration the generator reads for one table. */
  datatype Settings = Settings(
    only: seq<string>,
    except: seq<string>,
    path: string,
    pathConnection: bool,
    namespaceSchema: bool,
    /** The template file configured per template name (`*.template.<name>`). */
    templates: map<string, string>)
}
