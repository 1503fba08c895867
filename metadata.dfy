/**
 * The database metadata the generator reads. Blueprints and references are
 * values; what a live connection reports (its schema names and each schema's
 * tables, as read by a given schema mapper) is a pair of functions, since
 * the queries themselves are not part of this model.
 */
module Metadata {

  /** One foreign key of a table. */
  datatype Reference = Reference(name: string, columns: seq<string>, onTable: string, references: seq<string>)

  /** One table: its schema, its name and its outgoing foreign keys in
      declaration order. */
  datatype Blueprint = Blueprint(schema: string, table: string, relations: seq<Reference>)

  /** What a schema mapper reads from the database: the schema names it
      enumerates and the tables of one schema, both per mapper class. */
  datatype Catalog = Catalog(
    schemaNames: string -> seq<string>,
    tables: (string, string) -> seq<Blueprint>)

  /** A database connection: its name, its class (the key of the mapper
      registry) and what the database holds. */
  datatype Connection = Connection(name: string, kind: string, catalog: Catalog)
}
