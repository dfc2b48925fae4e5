# Schema loading with TDE batch insert

A Dafny model of the schema loader of the MarkLogic Java client utilities
(`DefaultSchemasLoader`). The loader reads schema files and loads them into a
schemas database. When the server supports `tde.templateBatchInsert`
(MarkLogic 10.0-9 and later) and a TDE validation database is named, it splits
the files in two:

- TDE templates: files whose metadata carries the TDE collection. They are loaded
  and validated together by one server-side JavaScript call.
- Every other file: it goes to the batch writer.

Otherwise every file, TDE templates included, goes through the generic file loader.

Modules:

- `Wrappers`: `Option` for Java references that may be null, and `Result` for calls that may throw.
- `Text`: strings as `seq<char>`. Holds Java's rendering of a null string, Spring's
  `StringUtils.hasText` with `Character.isWhitespace`, and `Collectors.joining` as `Join`.
- `Documents`: the document file, its format, its metadata and the TDE marker collection.
- `TdePartition`: the classification loop of `loadSchemas`, as a method. `Select` is the
  function that specifies it. Lemmas cover membership, coverage, order, and reassembly of the input.
- `TdeBatchInsert`: the text of the batch-insert query and of its script envelope. The two
  loops that build it are methods, each proved against a specification function. Lemmas
  cover the permission, collection and template literals, the script and the failure message.
- `SchemasLoader`: the loader as a class. It holds the validation database name and the log of
  requests it has issued. `LoadSchemas` and `LoadTdeTemplatesViaBatchInsert` state the whole new
  log and the result.

Some collaborators are outside this model: the capability probe, the file reader, the generic
loader and the server eval. They are given to `LoadSchemas` as a `Collaborators` value: a boolean
for the probe, and total functions for the rest. The calls that have effects (server eval, batch
writer, generic loader) are appended, in order, to the loader's `calls` field. The capability probe
and the file read are not logged.

A failed batch insert throws before the non-TDE files reach the writer
(`DefaultSchemasLoader.java:101-109`). `LoadSchemas` states exactly that: on failure the log ends
with the eval, and nothing is written.

## Model

| member | source | states |
|---|---|---|
| `TdePartition.Select` | src/main/java/com/marklogic/client/ext/schemasloader/impl/DefaultSchemasLoader.java:92-98 | every file selected for one side has that side's TDE classification, and a side is never longer than the input |
| `TdePartition.PartitionTdeFiles` | src/main/java/com/marklogic/client/ext/schemasloader/impl/DefaultSchemasLoader.java:89-99 | the loop's two lists are exactly the TDE and the non-TDE selections of the input |
| `TdePartition.SelectMembership` | src/main/java/com/marklogic/client/ext/schemasloader/impl/DefaultSchemasLoader.java:93-97 | a file is in `tdeFiles` iff it is an input file with non-null metadata whose collections contain the TDE collection; it is in `nonTdeFiles` iff it is an input file without that (null metadata included) |
| `TdePartition.PartitionExactlyOne` | src/main/java/com/marklogic/client/ext/schemasloader/impl/DefaultSchemasLoader.java:92-98 | every input file is in exactly one of the two lists, and it is in `tdeFiles` iff it is a TDE template |
| `TdePartition.PartitionCoversInput` | src/main/java/com/marklogic/client/ext/schemasloader/impl/DefaultSchemasLoader.java:89-99 | the two lists together hold each input file as often as the input does; their lengths add up to the input's |
| `TdePartition.SelectKeepsOrder` | src/main/java/com/marklogic/client/ext/schemasloader/impl/DefaultSchemasLoader.java:92-98 | each list is a subsequence of the input, so relative order is kept |
| `TdePartition.PartitionInterleaves` | src/main/java/com/marklogic/client/ext/schemasloader/impl/DefaultSchemasLoader.java:92-98 | merging the two lists back, position by position, by each input file's classification gives the input exactly |
| `TdeBatchInsert.RoleCalls` | src/main/java/com/marklogic/client/ext/schemasloader/impl/DefaultSchemasLoader.java:155-156 | a role contributes one permission call per capability it holds |
| `TdeBatchInsert.BuildPermissionList` | src/main/java/com/marklogic/client/ext/schemasloader/impl/DefaultSchemasLoader.java:152-157 | the nested loops produce the permission calls of all roles, role after role and capability after capability |
| `TdeBatchInsert.PermissionCallsMatchGrants` | src/main/java/com/marklogic/client/ext/schemasloader/impl/DefaultSchemasLoader.java:154-156 | there is exactly one `xdmp.permission('role', 'CAP')` per granted (role, capability) pair, in iteration order |
| `TdeBatchInsert.PermissionsLiteralEmptyIff` | src/main/java/com/marklogic/client/ext/schemasloader/impl/DefaultSchemasLoader.java:158 | the permissions literal is `[]` iff no role is granted any capability |
| `TdeBatchInsert.CollectionsLiteralEmptyIff` | src/main/java/com/marklogic/client/ext/schemasloader/impl/DefaultSchemasLoader.java:161-164 | the collections literal is `[]` iff the document has no collections |
| `TdeBatchInsert.TemplateInfoCallShape` | src/main/java/com/marklogic/client/ext/schemasloader/impl/DefaultSchemasLoader.java:167-174 | whatever the format, an entry is `tde.templateInfo('uri',`, then the content argument, then the permissions and collections literals. The content argument is `` xdmp.unquote(`…`)`` for XML, `xdmp.toJSON(…)` for JSON and the bare content otherwise |
| `TdeBatchInsert.TemplateInfos` | src/main/java/com/marklogic/client/ext/schemasloader/impl/DefaultSchemasLoader.java:146-176 | one template entry per document |
| `TdeBatchInsert.BuildTdeBatchInsertQuery` | src/main/java/com/marklogic/client/ext/schemasloader/impl/DefaultSchemasLoader.java:145-182 | the loop builds exactly `tde.templateBatchInsert([` + the documents' entries in input order joined by `","` + `]);` |
| `TdeBatchInsert.QueryEmptyIff` | src/main/java/com/marklogic/client/ext/schemasloader/impl/DefaultSchemasLoader.java:178-180 | the query is `tde.templateBatchInsert([]);` iff there are no documents |
| `TdeBatchInsert.QueryEntriesConcat` | src/main/java/com/marklogic/client/ext/schemasloader/impl/DefaultSchemasLoader.java:175-179 | the entries of a batch `a + b` are the entries of `a`, a comma, and the entries of `b` |
| `TdeBatchInsert.QuerySingle` | src/main/java/com/marklogic/client/ext/schemasloader/impl/DefaultSchemasLoader.java:178-180 | a one-document batch holds exactly that document's entry between the opening and the closing text |
| `TdeBatchInsert.ScriptDeterminesQuery` | src/main/java/com/marklogic/client/ext/schemasloader/impl/DefaultSchemasLoader.java:130-132 | for a given validation database, the `declareUpdate(); xdmp.invokeFunction(…)` envelope is injective in the query |
| `TdeBatchInsert.FailureMessageKeepsCause` | src/main/java/com/marklogic/client/ext/schemasloader/impl/DefaultSchemasLoader.java:135-136 | the failure message attaches the cause's message verbatim after the fixed prefix, so different non-null cause messages give different messages |
| `Text.JoinConcat` | src/main/java/com/marklogic/client/ext/schemasloader/impl/DefaultSchemasLoader.java:178-180 | joining two non-empty lists is joining each, with one separator between them |
| `SchemasLoader.BatchInsertGateIgnoresPadding` | src/main/java/com/marklogic/client/ext/schemasloader/impl/DefaultSchemasLoader.java:87 | whitespace before and after the validation database name never changes the `hasText` gate: the padded name opens it exactly when the bare name does, so an all-whitespace name closes it like an empty one |
| `SchemasLoader.DefaultSchemasLoader.constructor` | src/main/java/com/marklogic/client/ext/schemasloader/impl/DefaultSchemasLoader.java:54-55 | the loader starts with the given validation database name and has issued no requests with an effect (eval, batch writer, generic loader) |
| `SchemasLoader.DefaultSchemasLoader.LoadTdeTemplatesViaBatchInsert` | src/main/java/com/marklogic/client/ext/schemasloader/impl/DefaultSchemasLoader.java:125-138 | one eval request is issued, with the query wrapped in the envelope naming the validation database. A failed eval becomes an error whose message is the fixed prefix followed by the cause's message |
| `SchemasLoader.DefaultSchemasLoader.LoadSchemas` | src/main/java/com/marklogic/client/ext/schemasloader/impl/DefaultSchemasLoader.java:86-115 | with the gate closed, there is one generic-loader request for the paths, and its result is returned. With the gate open, there is one batch-insert eval with exactly the TDE files, only if there are any. Then there is one writer request with exactly the non-TDE files, only if there are any and the eval did not fail. The full list read is returned; a failed eval returns its error instead |

## Left out

- `DataMovementBatchWriter` and `ClientHelper`: a wrapper over a concurrent write job and read-only
  wrappers over search and eval. Neither has local logic to state. The export-job integration
  test runs against a live server and is not about the loader either.
- Constructor wiring (`DefaultSchemasLoader.java:44-53`, `:56`, `:64-76`): the writer's thread
  count, the client-release flag, and the registration of the document processor and file filter.
  This is configuration.
- `getTdeValidationDatabase` / `setTdeValidationDatabase` (`:117-123`): plain field accessors. The
  model reads the field directly.
- Logging (`:105-107`, `:126-127`). The info call at `:126-127` builds its argument unconditionally:
  `documentFile.getFile().getName()` throws `NullPointerException` for a TDE file without a `File`,
  before the script is built. The model's `DocumentFile` has no file field, so it does not capture
  that failure.
- The capability probe, `getDocumentFiles`, `loadFiles` and the server eval are not modelled. They
  are given as values in `Collaborators`. Exceptions thrown by them, by the probe or by
  `writeDocumentFiles` pass through `loadSchemas` unchanged in the code; the model does not
  represent them.
- `SchemasLoader.DefaultSchemasLoader.LoadTdeTemplatesViaBatchInsert`: the thrown exception keeps
  the original exception as its cause. The model's error keeps only the message.
- `TdeBatchInsert.BuildTdeBatchInsertQuery`: requires metadata on every document. In Java a document
  without it raises `NullPointerException`. The only caller passes the TDE files, which have
  metadata by `Select`'s contract.
- `getMetadata()` (`:93`) and `getDocumentMetadata()` (`:152`, `:162`) are taken to return the same
  metadata handle. They are one field, `metadata`.
- Java map and set iteration order is unspecified. Permissions (role to capabilities) and collections are
  sequences in the order Java iterates them.
- The text of a format and of a capability is taken to be the enum constant's name, as Java's default
  `toString` gives it. A null format (a `NullPointerException` in Java) cannot be represented.
- `TdeUtil` is not part of this model. Its marker collection is taken to be
  `http://marklogic.com/xdmp/tde`, and its capability probe is a boolean.
- `Character.isWhitespace` works on UTF-16 code units. The model applies it to Unicode scalar values.
- URIs, contents, roles and collections are pasted into the script without escaping, as the code
  does. No lemma claims the entries can be parsed back out of the query.
