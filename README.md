# Eloquent model generator: a verified model of its core

The generator reads a database's schemas and writes one PHP model class per
table. For each table that passes the `only`/`except` filters, the factory
builds the table's model and fills the `model` template with it: namespace,
class name, annotations, parent class and class body. It then writes the
result under the configured models directory. With base files on, that class
goes to a `Base` subdirectory, and a user class that extends it is written
next to it. The user class is written only when no file is there yet, so
hand edits survive regeneration. A schema manager per connection picks the
schema mapper registered for the connection's class. It builds each schema
at most once and caches it by name, and it can enumerate every schema of
the connection. The relation factory turns a foreign key into relations: the
direct has-one-or-many relation, plus belongs-to-many relations when the
referencing table looks like a pivot table.

The Dafny modules follow the three core classes and the helpers they rely on:

- `Generation` (`factory.dfy`): class `Factory` and the functions that specify it.
  - The file system is a map from path to content.
  - A failure stands for the exception that ends a run.
  - `Effect`, `CreateEffect`, `CreateAll` and `MapEach` describe what `create`, `map` and `mapAll` do to the files.
- `Patterns` (`patterns.dfy`): `Str::is` matching and the `only`/`except` filters.
- `Rendering` (`rendering.dfy`): `properties`, `body`, `fillTemplate`, `userFileBody` and the template substitutions.
- `Imports` (`imports.dfy`): `extractUsedClasses` and `formatUsedClasses`.
- `Naming` (`naming.dfy`): `transformSchemaToNamespace`, `path`, `modelPath`, `getBaseClassName` and `formatBaseClasses`.
- `SchemaManagement` (`schema_manager.dfy`): the mapper registry and class `SchemaManager`.
- `Relations` (`reference_factory.dfy`): class `ReferenceFactory`.
- `OrderedMaps`, `Strings`, `Metadata`, `Models` and `Results`: PHP's ordered arrays, the string functions used, and the data model.

The class writer (`Classify`), the model builder and the configuration are
collaborators whose results are only passed on, so they are parameters:
- `Classify` is a datatype of emitter functions.
- The model builder is a function from schema, table and mutators to a `Model` value.
- The configuration is a function from a blueprint to its `Settings`.

The factory's `Environment` also holds the two renderings, of the base class
and of the user class. `Generation.Renders` ties them to `Rendering.Rendered`
and `Rendering.RenderedUserFile`, and `Generation.Standard` builds an
environment for which `Renders` holds.

## Model

| member | source | states |
|---|---|---|
| Generation.Factory.constructor | src/Coders/Model/Factory.php:62-68 | The factory keeps the connection resolver, file system, class writer and configuration it is given; no schema manager, no mutators and no schema namespace yet. |
| Generation.Factory.Mutate | src/Coders/Model/Factory.php:73-76 | Returns a new mutator and registers it after the earlier ones. |
| Generation.Factory.On | src/Coders/Model/Factory.php:97-102 | Fails, keeping the previous schema manager and reporting the missing mapper, iff no mapper is registered for the connection's class; otherwise installs a fresh, valid, empty manager for that connection. |
| Generation.Factory.Map | src/Coders/Model/Factory.php:121-134 | Before `on` has run, fails with PHP's "member function on array" error and writes nothing; otherwise the schema ends up cached and the files are exactly those of creating, in schema order, every table of it that passes both filters, stopping at the first failure. |
| Generation.Factory.MapSchema | src/Coders/Model/Factory.php:127-133 | With a manager: a cached name leaves the cache as it was, a new one adds exactly that entry (built by the registered mapper, one invocation); the schema's tables are those its mapper reads from the catalog, and the files are those of `CreateAll` over the ones passing both filters. |
| Generation.Factory.CreateSelected | src/Coders/Model/Factory.php:129-133 | The loop of `map`: the files afterwards are those of `CreateAll` over the selected tables, with the first failure returned. |
| Generation.Factory.MapAll | src/Coders/Model/Factory.php:107-116 | Before `on` has run, the loop runs over an empty array: success, nothing written; otherwise the files are those of `MapEach` over the cached schemas in cache order, stopping at the first failure. |
| Generation.Factory.MapCached | src/Coders/Model/Factory.php:113-115 | With a manager: enumerates the connection's schemas through the registered mapper (duplicates collapsed, first-appearance order) only when the cache is empty, otherwise leaves the cache as it was; every schema mapped holds the tables its mapper reads from the catalog, and the files are those of `MapEach` over the cache. |
| Generation.Factory.MapSchemas | src/Coders/Model/Factory.php:113-115 | The loop of `mapAll` over cached schemas: files as `MapEach` gives them, and the cache as it was. |
| Generation.Factory.Create | src/Coders/Model/Factory.php:176-194 | The files afterwards are those of `CreateTable`: the rendered class at the base path, then the user class when it is needed; a missing template fails without writing. |
| Generation.Factory.ModelPath | src/Coders/Model/Factory.php:519-547 | Returns the path of the class file in the directory made of the root, the connection segment, the schema segment and the extra pieces; records the schema segment when schema namespaces are on. |
| Generation.Factory.PrepareTemplate | src/Coders/Model/Factory.php:253-259 | Reads the configured template, or the generator's own one; succeeds with the file's content iff that file exists, and fails with the file system's message otherwise. |
| Generation.Factory.NeedsUserFile | src/Coders/Model/Factory.php:584-587 | True iff base files are on and nothing exists at the user path. |
| Generation.Factory.CreateUserFile | src/Coders/Model/Factory.php:594-606 | Writes the rendered `user_model` template at the user path and nothing else; a missing template fails without writing. |
| Generation.Factory.RenderBase | src/Coders/Model/Factory.php:183-187 | The class text is `fillTemplate` followed by the tab-to-spaces indentation when the model asks for it. |
| Generation.Factory.RenderUser | src/Coders/Model/Factory.php:599-603 | The user file is the template after the five placeholder replacements, in order. |
| Generation.IndentedClass | src/Coders/Model/Factory.php:183-187 | The filled template, with tabs replaced by the configured number of spaces. |
| Generation.IndentWithSpaces | src/Coders/Model/Factory.php:185-187 | The file as `Rendering.Indent` gives it: with spaces configured no tab is left, otherwise the file is unchanged. |
| Generation.BasePathIsNotUserPath | src/Coders/Model/Factory.php:189-192 | With base files, the base class and the user class never share a path. |
| Generation.CreateFailsWithoutTemplate | src/Coders/Model/Factory.php:176-183 | Without a `model` template, `create` fails with the missing-file message and writes nothing. |
| Generation.WriteModelWritesBase | src/Coders/Model/Factory.php:189-193 | Once the template is read, the class text is at the base path afterwards, whatever happens to the user file. |
| Generation.CreateWritesBase | src/Coders/Model/Factory.php:176-189 | With a `model` template, `create` always leaves the rendered and indented class at the base path. |
| Generation.WriteModelKeepsUser | src/Coders/Model/Factory.php:189-193 | With base files, whatever is at the user path stays as it was. |
| Generation.CreateKeepsUserFile | src/Coders/Model/Factory.php:189-192 | Regenerating with base files leaves an existing user file's content untouched. |
| Generation.WriteModelWritesUser | src/Coders/Model/Factory.php:189-193 | With base files, no user file and a user template, exactly the two files are written and the run succeeds. |
| Generation.CreateWritesUserFile | src/Coders/Model/Factory.php:176-194 | With base files, no user file yet and both templates present, the files afterwards are the old ones plus the rendered class at the base path and the rendered user class at the user path. |
| Generation.WriteModelTouches | src/Coders/Model/Factory.php:189-193 | No path other than the base and user paths changes. |
| Generation.CreateTouchesOnlyModelPaths | src/Coders/Model/Factory.php:189-192 | `create` changes no file other than the base path and the user path. |
| Generation.CreateWithoutBaseFiles | src/Coders/Model/Factory.php:185-192 | Without base files, no user file is needed, the base path is the user path, and `create` writes exactly the rendered class there (or fails without writing). |
| Generation.WriteModelLeavesUser | src/Coders/Model/Factory.php:189-193 | A successful write with base files leaves a file at the user path. |
| Generation.UserFileWrittenOnce | src/Coders/Model/Factory.php:189-192 | Running `create` twice with base files keeps the user file the first run wrote. |
| Generation.CreateSteps | src/Coders/Model/Factory.php:189-193 | Once the template is read, `create` is the base write followed by `createUserFile` exactly when `needsUserFile` holds on the written files. |
| Generation.SelectedAppend | src/Coders/Model/Factory.php:129-133 | The tables selected from a concatenation are those of each part, in order. |
| Generation.SelectedMembers | src/Coders/Model/Factory.php:129-133 | A table is selected iff it passes both filters. |
| Generation.ExcludedNeverSelected | src/Coders/Model/Factory.php:130 | A table whose name appears literally in its `except` list is never selected, whatever its `only` list holds. |
| Generation.CreateAllStopsAtFailure | src/Coders/Model/Factory.php:129-133 | After a failing table, later tables change nothing. |
| Generation.NothingSelectedNothingWritten | src/Coders/Model/Factory.php:129-133 | When no table passes the filters, `map` writes nothing and succeeds. |
| Generation.CreateSelectedStep | src/Coders/Model/Factory.php:130-132 | After the earlier tables were created, a passing table is created next on the resulting files. |
| Generation.CreateSelectedFails | src/Coders/Model/Factory.php:130-132 | A failing table ends the run over all the tables. |
| Generation.MapEachStopsAtFailure | src/Coders/Model/Factory.php:113-115 | After a failing schema, later schemas change nothing. |
| Generation.MapEachStep | src/Coders/Model/Factory.php:113-115 | After the earlier schemas were mapped, the next one is mapped on the resulting files. |
| Generation.MapEachFails | src/Coders/Model/Factory.php:113-115 | A failing schema ends the run over all schemas. |
| Patterns.ShouldTakeOnly | src/Coders/Model/Factory.php:157-170 | True iff the `only` list is empty or one of its patterns matches the table name. |
| Patterns.ShouldNotExclude | src/Coders/Model/Factory.php:141-150 | True iff no `except` pattern matches the table name. |
| Patterns.ExceptWins | src/Coders/Model/Factory.php:130 | A table named in `except` never passes, whatever `only` holds. |
| Patterns.StarOnlyKeepsAll | src/Coders/Model/Factory.php:157-170 | With `*` among the `only` patterns, only the exclusions decide. |
| Patterns.PrefixExcluded | src/Coders/Model/Factory.php:141-150 | An `except` pattern `prefix*` drops every table whose name starts with the prefix. |
| Patterns.LiteralPattern | src/Coders/Model/Factory.php:144 | A pattern without `*` matches exactly the equal name. |
| Patterns.PrefixPattern | src/Coders/Model/Factory.php:144 | A pattern `prefix*` matches exactly the names that start with the prefix. |
| Patterns.StarMatchesAll | src/Coders/Model/Factory.php:161 | A lone `*` matches every name. |
| Patterns.GlobMatchesItself | src/Coders/Model/Factory.php:161 | Every pattern matches its own text, so the equality test adds nothing to the glob. |
| Rendering.Properties | src/Coders/Model/Factory.php:374-397 | The annotations are a `@property` line per property, then the separator when there are relations, then an annotation per relation whose name is not a property. |
| Rendering.AppendRelationAnnotations | src/Coders/Model/Factory.php:388-394 | Appends the annotation of every relation not shadowed by a property, in order. |
| Rendering.Annotated | src/Coders/Model/Factory.php:388-394 | The annotated relations are exactly those whose name is not a property name. |
| Rendering.AllCollidingLeavesSeparator | src/Coders/Model/Factory.php:383-394 | When every relation collides with a property, the block ends with the separator and nothing follows it. |
| Rendering.NoRelationsNoSeparator | src/Coders/Model/Factory.php:383-386 | Without relations the block is the property annotations alone. |
| Rendering.Body | src/Coders/Model/Factory.php:404-511 | The class body is the trimmed constant part (plus a newline unless PHP-empty), then the fields and methods, trimmed of newlines at both ends. |
| Rendering.BodyText | src/Coders/Model/Factory.php:507-510 | The class body never starts or ends with a line break. |
| Rendering.BodyHead | src/Coders/Model/Factory.php:406-443 | The traits and constants, trimmed of newlines and followed by one unless nothing (or "0") is left. |
| Rendering.AppendMixins | src/Coders/Model/Factory.php:408-410 | Appends a trait use per trait, in order. |
| Rendering.AppendTimestamps | src/Coders/Model/Factory.php:412-427 | Appends the constants of the custom created, updated and deleted columns, and returns those columns as the exclusions. |
| Rendering.TimestampConstantsNameColumns | src/Coders/Model/Factory.php:412-427 | The timestamp constants name exactly the custom timestamp columns, in the same order. |
| Rendering.AppendPropertyConstants | src/Coders/Model/Factory.php:429-437 | Appends the property constants of every property but the custom timestamp columns, when the model uses property constants. |
| Rendering.PropertyConstantsSkipTimestamps | src/Coders/Model/Factory.php:429-437 | Every property constant is named in upper case after a property that is no custom timestamp column, every such property gets one, and there are none when property constants are off. |
| Rendering.Without | src/Coders/Model/Factory.php:432 | `array_diff`: keeps exactly the names not among the excluded ones, and no more entries than there were names. |
| Rendering.AppendConstants | src/Coders/Model/Factory.php:434-436 | Appends a constant `<NAME> = '<name>'` per name. |
| Rendering.AppendTableFields | src/Coders/Model/Factory.php:445-461 | Appends the connection, table, primary key and incrementing fields, each exactly when the model asks for it. |
| Rendering.AppendConventionFields | src/Coders/Model/Factory.php:463-477 | Appends the per-page, timestamps, date format and snake-case fields, each exactly when the model asks for it. |
| Rendering.AppendListFields | src/Coders/Model/Factory.php:479-497 | Appends the casts, dates, hidden, fillable and hints lists after a blank line; hidden and fillable only without base files, hints only when used. |
| Rendering.AppendMethods | src/Coders/Model/Factory.php:499-505 | Appends the mutators' methods, then one accessor per relation. |
| Rendering.HiddenAndFillablePlacement | src/Coders/Model/Factory.php:487-493 | With base files, the hidden and fillable lists are not in the base class; without them they are. The user file body holds those two lists and nothing else. |
| Rendering.BaseFieldsWithBaseFiles | src/Coders/Model/Factory.php:487-493 | With base files no base class field is the hidden or the fillable list. |
| Rendering.UserFileBody | src/Coders/Model/Factory.php:633-649 | The user file body has no line break at either end, and is empty when the model has neither hidden nor fillable columns. |
| Rendering.FillTemplate | src/Coders/Model/Factory.php:267-294 | The file is the template with namespace, class, properties, parent, body and imports replaced in that order; the computed import section is returned as discarded and never reaches the file. |
| Rendering.ModelSubstitutions | src/Coders/Model/Factory.php:269-291 | The base template's placeholders all begin with a brace. |
| Rendering.ModelSubstitutionsInOrder | src/Coders/Model/Factory.php:269-291 | The substitutions are the six replacements done one after the other. |
| Rendering.PlainModelTemplate | src/Coders/Model/Factory.php:267-294 | A template without placeholders is copied as it is. |
| Rendering.ImportsPlaceholderEmpty | src/Coders/Model/Factory.php:290-291 | The imports placeholder always becomes empty, whatever classes the model uses. |
| Rendering.ImportsPlaceholderErased | src/Coders/Model/Factory.php:290-291 | Whatever the other values are, the imports placeholder alone renders to nothing. |
| Rendering.Indent | src/Coders/Model/Factory.php:185-187 | With spaces configured no tab is left; without, the file is unchanged. |
| Rendering.UserSubstitutions | src/Coders/Model/Factory.php:599-603 | The user template's placeholders all begin with a brace. |
| Rendering.UserSubstitutionsInOrder | src/Coders/Model/Factory.php:599-603 | The user file substitutions are the five replacements done one after the other. |
| Rendering.PlainUserTemplate | src/Coders/Model/Factory.php:599-603 | A user template without placeholders is copied as it is. |
| Imports.RunLength | src/Coders/Model/Factory.php:353 | The longest run of class-name characters at the front of a text. |
| Imports.Matches | src/Coders/Model/Factory.php:353-357 | Every match holds a backslash, consists of class-name characters and occurs in the text. |
| Imports.NoBackslashNoMatches | src/Coders/Model/Factory.php:353-356 | A text without a backslash yields no match. |
| Imports.WholeRunMatches | src/Coders/Model/Factory.php:353-356 | A text made only of class-name characters and holding a backslash is one match. |
| Imports.MatchesSplit | src/Coders/Model/Factory.php:353-357 | A character that cannot be part of a class name splits the matches in two. |
| Imports.ExtractUsedClasses | src/Coders/Model/Factory.php:351-367 | The used classes are exactly the matches trimmed of backslashes, without repeats. |
| Imports.ExtractedShape | src/Coders/Model/Factory.php:351-367 | Each used class has no backslash at either end and consists of class-name characters. |
| Imports.ExtractedFrom | src/Coders/Model/Factory.php:356-359 | Each used class is a match trimmed of backslashes: returns the position of that match, whose characters are all class-name characters. |
| Imports.TrimmedMatchShape | src/Coders/Model/Factory.php:359 | A run of class-name characters trimmed of backslashes has none at either end and keeps only class-name characters. |
| Imports.ImportLines | src/Coders/Model/Factory.php:307-321 | No more lines than used classes. |
| Imports.ImportLinesDistinct | src/Coders/Model/Factory.php:307-321 | Distinct used classes give distinct lines, so no class is imported twice. |
| Imports.ImportLinesSound | src/Coders/Model/Factory.php:307-321 | Each line imports a used class outside the base namespace. |
| Imports.ImportLinesComplete | src/Coders/Model/Factory.php:307-321 | Every used class outside the base namespace is imported. |
| Imports.FormatUsedClasses | src/Coders/Model/Factory.php:304-326 | The section is the `use` lines of the classes outside the base namespace, sorted and joined by newlines. |
| Imports.Sort | src/Coders/Model/Factory.php:323 | Sorted and a permutation of its input. |
| Imports.SortedUnique | src/Coders/Model/Factory.php:323 | Two sorted permutations of the same lines are equal, so the section does not depend on the order of the used classes. |
| Imports.EmptySectionIffAllLocal | src/Coders/Model/Factory.php:304-326 | The section is empty iff every used class lies in the base namespace. |
| Naming.Remove | src/Coders/Model/Factory.php:556 | The removed character is gone and no character is added. |
| Naming.UcWordsCapitalises | src/Coders/Model/Factory.php:556 | After `ucwords` every word starts with a capital. |
| Naming.StudlyHasNoSeparators | src/Coders/Model/Factory.php:554-557 | A transformed schema name holds neither underscores nor spaces. |
| Naming.StudlyIdempotent | src/Coders/Model/Factory.php:554-557 | Transforming a transformed name changes nothing. |
| Naming.StudlyExample | src/Coders/Model/Factory.php:554-557 | `foo_bar` becomes `FooBar`. |
| Naming.DirectoryPieces | src/Coders/Model/Factory.php:521-538 | The model directory always starts with the configured path. |
| Naming.BaseAndUserPaths | src/Coders/Model/Factory.php:519-547 | The user file is `<dir>/<Class>.php` and the base file `<dir>/Base/<Class>.php`, so the two differ. |
| Naming.BaseAliasOfUserClass | src/Coders/Model/Factory.php:613-626 | The base class alias is `Base` followed by the class name, so it never equals it, and the import line of the user file declares exactly that alias. |
| SchemaManagement.DefaultLookup | src/Meta/SchemaManager.php:21-26 | The registry starts with the four connection classes; both MySQL connection classes map to the MySQL mapper. |
| SchemaManagement.Registry.constructor | src/Meta/SchemaManager.php:21-26 | A new registry holds the default lookup. |
| SchemaManagement.Registry.Register | src/Meta/SchemaManager.php:115-118 | The last registration for a connection class wins, and no other entry changes. |
| SchemaManagement.Schema.constructor | src/Meta/SchemaManager.php:78-83 | A schema built by a mapper holds that mapper's tables of the named schema. |
| SchemaManagement.SchemaManager.constructor | src/Meta/SchemaManager.php:43-47 | A new manager is bound to its connection with an empty cache. |
| SchemaManagement.SchemaManager.Open | src/Meta/SchemaManager.php:43-57 | Fails with the no-mapper message, before any schema is read, iff no mapper is registered for the connection's class; otherwise a fresh, valid, empty manager. |
| SchemaManagement.SchemaManager.MakeMapper | src/Meta/SchemaManager.php:78-91 | A new schema built by the currently registered mapper, with one more mapper invocation counted for that name. |
| SchemaManagement.SchemaManager.Make | src/Meta/SchemaManager.php:64-71 | A cached name returns the cached schema and invokes no mapper; a new name invokes the registered mapper once, caches the result (holding that mapper's tables of the schema) after the earlier names, and leaves every other entry as it was; the cache stays coherent. |
| SchemaManagement.CoherentAdd | src/Meta/SchemaManager.php:64-71 | Caching a schema that holds its mapper's tables under a new name keeps the cache coherent: names once each in insertion order, every schema under its own name with its catalog tables, one build per name. |
| SchemaManagement.SchemaManager.MakeTwice | src/Meta/SchemaManager.php:64-71 | Two calls with the same name return the same object and invoke the mapper at most once in all. |
| SchemaManagement.SchemaManager.GetIterator | src/Meta/SchemaManager.php:125-135 | With an empty cache, makes the names the registered mapper enumerates, in order and with duplicates collapsed, each built by that mapper; otherwise changes nothing; yields the cached schemas in insertion order, each holding its mapper's tables from the catalog. |
| SchemaManagement.SchemaManager.MakeAll | src/Meta/SchemaManager.php:127-131 | Making every enumerated name from an empty cache leaves the names in first-appearance order, each built by the registered mapper. |
| SchemaManagement.SchemaManager.MakeNext | src/Meta/SchemaManager.php:129-131 | Making the next enumerated name extends the first-appearance order by it and keeps every schema built by the same mapper. |
| SchemaManagement.CachedHoldCatalogTables | src/Meta/SchemaManager.php:125-135 | The schemas the iteration yields are those under the cached names, in order, each holding its mapper's tables of that schema from the catalog. |
| Relations.ReferenceFactory.constructor | src/Coders/Model/Relations/ReferenceFactory.php:30-34 | Keeps the foreign key, model and blueprint and the parent, with no recorded partner. |
| Relations.ReferenceFactory.HasPivot | src/Coders/Model/Relations/ReferenceFactory.php:60-92 | Appends this run's partners to the recorded ones; true iff the table name holds the parent record name and some partner is recorded. |
| Relations.ReferenceFactory.Make | src/Coders/Model/Relations/ReferenceFactory.php:39-55 | The belongs-to-many relations of every recorded partner, written by name in order, then the direct relation under its name. |
| Relations.ReferenceFactory.MakeTwice | src/Coders/Model/Relations/ReferenceFactory.php:39-55 | A second `make` on the same factory returns the same relations as the first. |
| Relations.ScanAppend | src/Coders/Model/Relations/ReferenceFactory.php:75-89 | Partners are recorded in the declaration order of the foreign keys. |
| Relations.ScanSound | src/Coders/Model/Relations/ReferenceFactory.php:75-89 | Each partner is another foreign key of the table, carries the model built for it, and its record name occurs in the reduced table name. |
| Relations.ScanComplete | src/Coders/Model/Relations/ReferenceFactory.php:75-89 | Every other foreign key whose target record name occurs in the reduced table name is recorded. |
| Relations.NoPivotWithoutParentName | src/Coders/Model/Relations/ReferenceFactory.php:67-71 | A table whose name lacks the parent record name has no partner, and `make` yields only the direct relation. |
| Relations.AssembleProperties | src/Coders/Model/Relations/ReferenceFactory.php:41-54 | The names are distinct, the direct relation is always there under its name, every other name holds the last belongs-to-many written under it, and there is at most one entry per partner plus one. |
| Relations.LaterPivotWins | src/Coders/Model/Relations/ReferenceFactory.php:46 | Of two partners whose relations share a name, the later one is kept. |
| Relations.AssembleTwice | src/Coders/Model/Relations/ReferenceFactory.php:43-47 | Writing the same partners twice gives the relations of writing them once. |
| Relations.PostsTagsIsPivot | src/Coders/Model/Relations/ReferenceFactory.php:60-92 | For `posts_tags` with keys to `posts` and `tags`, seen from `posts`, the key to `tags` is the only partner. |
| Relations.OrderItemsIsNoPivot | src/Coders/Model/Relations/ReferenceFactory.php:60-92 | For `order_items` with its only key to `orders` there is no partner. |
| Relations.PostsTagsReduced | src/Coders/Model/Relations/ReferenceFactory.php:73 | Erasing `post` from `posts_tags` leaves `s_tags`. |
| Relations.SelfPivotIsMissed | src/Coders/Model/Relations/ReferenceFactory.php:73 | Erasing every occurrence leaves `_` of `user_user`, so its second key to `users` is never a partner. |
| OrderedMaps.Put | src/Coders/Model/Relations/ReferenceFactory.php:46 | Assigning under a name keeps names distinct, maps that name to the new value and leaves every other name as it was. |
| OrderedMaps.PutAllLookup | src/Coders/Model/Relations/ReferenceFactory.php:44-47 | After a run of writes, each name holds the last value written under it, or its old value. |
| OrderedMaps.PutAllKeys | src/Coders/Model/Relations/ReferenceFactory.php:44-47 | Every old name and every written name is present afterwards, and there is at most one new entry per write. |
| OrderedMaps.PutAllTwice | src/Coders/Model/Relations/ReferenceFactory.php:44-47 | Repeating a run of writes changes nothing. |
| OrderedMaps.PutAllSnoc | src/Coders/Model/Relations/ReferenceFactory.php:44-47 | A run of writes is the writes one after the other. |
| Strings.Unique | src/Coders/Model/Factory.php:366 | `array_unique`: exactly the same elements, without repeats. |
| Strings.UniqueSnoc | src/Meta/SchemaManager.php:129-131 | An element seen before adds nothing; a new one is appended. |
| Strings.TrimEnds | src/Coders/Model/Factory.php:359 | The trimmed text has the trimmed character at neither end. |
| Strings.JoinSnoc | src/Coders/Model/Factory.php:576 | One more piece is appended after the separator. |
| Strings.ReplaceCharRemovesIt | src/Coders/Model/Factory.php:186 | Replacing a character by a text without it leaves none of it. |
| Strings.LessEqTotal | src/Coders/Model/Factory.php:323 | The byte-wise order of `sort` is total. |
| Strings.LessEqTransitive | src/Coders/Model/Factory.php:323 | The byte-wise order of `sort` is transitive. |
| Strings.LessEqAntisymmetric | src/Coders/Model/Factory.php:323 | The byte-wise order of `sort` is antisymmetric. |

## Left out

- The console command, `referencing`, `makeModel`, `makeSchema` and the model builder (`models`) are not part of this model. The model of a table is a parameter of the factory's environment.
- The class writer's emitters and what the mutators do to a model are uninterpreted functions. Only their results are passed on.
- Creating missing model directories (`isDirectory`/`makeDirectory` in `modelPath`) is left out: the file system is a map from path to content, with no directories.
- `DIRECTORY_SEPARATOR` is taken to be `/`.
- The `isset` fallback to `on()` in `map` and `mapAll` never runs: the field starts as an empty array, which `isset` accepts. The model has no call to `On` there; without a manager, `Map` fails with PHP's fatal error and `MapAll` does nothing.
- Generation.Factory.MapSchema: in the source, the model builder (`makeModel`, which calls `makeSchema` and, through `referencing`, `SchemaManager::make` for related schemas) can add cache entries and invoke mappers during a run. Here the model builder is a pure parameter, so the cache clauses describe only what `map`'s own `make` call does.
- Generation.Factory.MapSchemas: its "cache as it was" clause holds only because the model builder is pure here; in the source, the tables being created can add entries for related schemas.
- Generation.Factory.MapCached: the cache clauses after the enumeration leave out the entries the model builder can add in the source, for the same reason as `MapSchemas`.
- Generation.Factory.Map and Generation.Factory.MapAll: the same limitation as `MapSchema` and `MapCached`, whose results they pass on.
- Generation.Factory.Map: does not state the schema segment recorded last; `Create` and `ModelPath` state it for one table.
- Two failures end a run: a missing template file and a connection class with no registered mapper. Both are failed outcomes. The connection resolver and the catalog are total functions, so database errors (an unknown connection name, a failed metadata query) are not modelled.
- Imports.FormatUsedClasses: the class-name parameter of `formatUsedClasses` is unused by the source and left out. The namespace test is "`<base>\` occurs in the name". This is what the pattern means when the base namespace holds no regular expression metacharacters. A base namespace holding them is not modelled.
- Imports.Matches: the regular expression is modelled as maximal runs of class-name characters holding a backslash, which is what `preg_match_all` returns for that pattern on the texts it is applied to.
- PHP's loose comparisons (`==` on references, `empty`) are modelled as structural equality and as the empty string or "0".
- `getUseClassAliasFromString` and `formatUseClassAlias` are not modelled: no code path reaches them, since the line that would use them is commented out.
- `config` without a blueprint (returning the whole configuration) is not used by the core and is left out. The per-table configuration is a function from a blueprint to its settings.
- The rendering of the base and the user class is held in the environment as two functions. `Generation.Renders` ties them to the class writer's rendering, and `Generation.Standard` builds an environment where it holds.

## Where the code and the design differ

The model follows the code in each case.

- Import block. The design computes the import block from the used classes and puts it into the file. The code computes it (`src/Coders/Model/Factory.php:285-289`) and then replaces it with the empty text (line 290), so `{{imports}}` always renders empty. See `Rendering.FillTemplate` and `Rendering.ImportsPlaceholderEmpty`.
- Record-name erasure. The design erases the parent record name from the pivot candidate's table name once. `str_replace` at `src/Coders/Model/Relations/ReferenceFactory.php:73` erases every occurrence, so a self-referencing pivot such as `user_user` is never recognised. See `Relations.SelfPivotIsMissed`.
- Duplicate relation names. The design keeps the first belongs-to-many relation when two share a name. The code assigns by name (`ReferenceFactory.php:46`), so the last one wins. The direct relation is assigned last (line 52), so it replaces a belongs-to-many of the same name and is always returned, even for a pivot table. See `Relations.LaterPivotWins` and `Relations.AssembleProperties`.
- Schema enumeration. The design memoizes the enumeration of schema names after the first call. `getIterator` (`src/Meta/SchemaManager.php:127`) enumerates only when the cache is empty. Once any schema was made, for example by `map`, `mapAll` iterates over the cached schemas alone. See `SchemaManagement.SchemaManager.GetIterator` and `Generation.Factory.MapAll`.
