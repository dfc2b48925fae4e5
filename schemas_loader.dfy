/**
 * The schema loader: reads the schema files, and when the server can batch-insert TDE
 * templates and a validation database is named, loads the TDE templates through one
 * validating batch insert and the remaining files through the batch writer; otherwise
 * loads every file through the generic file loader.
 */
module SchemasLoader {
  import opened Wrappers
  import opened Text
  import opened Documents
  import opened TdePartition
  import opened TdeBatchInsert

  /** A request the loader hands to one of its collaborators. */
  datatype Call =
    | EvalJavaScript(script: Str)                  // server-side eval through the schemas database client
    | WriteDocumentFiles(files: seq<DocumentFile>)  // the inherited batch writer
    | LoadFiles(paths: seq<Str>)                    // the inherited generic loader (read, then write)

  /** What the server-side eval of a script gives: completion, or an exception whose message may be null. */
  datatype EvalOutcome = Evaluated | EvalFailed(message: Option<Str>)

  /** The parts of the loader's environment whose behaviour is outside this model. */
  datatype Collaborators = Collaborators(
    templateBatchInsertSupported: bool,              // the server's answer to the capability probe
    getDocumentFiles: seq<Str> -> seq<DocumentFile>,  // the files read (and processed) under the given paths
    loadFiles: seq<Str> -> seq<DocumentFile>,         // what the generic loader returns for the given paths
    eval: Str -> EvalOutcome)                         // what evaluating a script on the server gives

  /** The RuntimeException thrown when the TDE batch insert fails. */
  datatype LoadError = TdeBatchInsertFailed(message: Str)

  /** The batch-insert path is taken only when the server supports it and the validation
      database name has text. */
  predicate UsesBatchInsert(templateBatchInsertSupported: bool, tdeValidationDatabase: Option<Str>) {
    templateBatchInsertSupported && HasText(tdeValidationDatabase)
  }

  /** Whitespace around the validation database name never changes the gate: a padded name
      opens it exactly when the bare name does. */
  lemma BatchInsertGateIgnoresPadding(templateBatchInsertSupported: bool, lead: Str, name: Str, trail: Str)
    requires forall c | c in lead :: IsWhitespace(c)
    requires forall c | c in trail :: IsWhitespace(c)
    ensures UsesBatchInsert(templateBatchInsertSupported, Some(lead + name + trail))
         == UsesBatchInsert(templateBatchInsertSupported, Some(name))
  {
    var padded := lead + name + trail;
    if HasText(Some(name)) {
      var i :| 0 <= i < |name| && !IsWhitespace(name[i]);
      assert padded[|lead| + i] == name[i];
    }
    if HasText(Some(padded)) {
      var j :| 0 <= j < |padded| && !IsWhitespace(padded[j]);
      assert forall k | 0 <= k < |lead| :: padded[k] == lead[k];
      assert forall k | |lead| + |name| <= k < |padded| :: padded[k] == trail[k - |lead| - |name|];
      assert name[j - |lead|] == padded[j];
    }
  }

  /** The error a failed eval of the TDE script turns into. */
  function EvalFailure(outcome: EvalOutcome): Option<LoadError> {
    match outcome
    case Evaluated => None
    case EvalFailed(message) => Some(TdeBatchInsertFailed(BatchInsertFailureMessage(message)))
  }

  class DefaultSchemasLoader {
    /** The database against which TDE templates are validated; may be null. */
    var tdeValidationDatabase: Option<Str>
    /** Every request with an effect (server eval, batch writer, generic loader) issued so far, in order. */
    var calls: seq<Call>

    constructor (tdeValidationDatabase: Option<Str>)
      ensures this.tdeValidationDatabase == tdeValidationDatabase
      ensures calls == []
    {
      this.tdeValidationDatabase := tdeValidationDatabase;
      calls := [];
    }

    /** `loadTdeTemplatesViaBatchInsert`: builds the batch-insert query, wraps it in the script
        that runs it against the validation database, evaluates it once, and turns a failure
        into an error carrying the cause's message. */
    method LoadTdeTemplatesViaBatchInsert(tdeFiles: seq<DocumentFile>, eval: Str -> EvalOutcome)
      returns (failure: Option<LoadError>)
      requires AllHaveMetadata(tdeFiles)
      modifies this`calls
      ensures calls == old(calls) + [EvalJavaScript(TdeScript(TdeBatchInsertQuery(tdeFiles), tdeValidationDatabase))]
      ensures failure == EvalFailure(eval(TdeScript(TdeBatchInsertQuery(tdeFiles), tdeValidationDatabase)))
    {
      var query := BuildTdeBatchInsertQuery(tdeFiles);
      var script := TdeScript(query, tdeValidationDatabase);
      calls := calls + [EvalJavaScript(script)];
      match eval(script)
      case Evaluated =>
        failure := None;
      case EvalFailed(message) =>
        failure := Some(TdeBatchInsertFailed(BatchInsertFailureMessage(message)));
    }

    /** `loadSchemas`. On the batch-insert path the TDE templates go to one batch insert and the
        other files to the batch writer, each only when there are any, and the files read are
        returned; a failed batch insert ends the call before anything is written. Otherwise
        every file, TDE templates included, goes through the generic loader. */
    method LoadSchemas(paths: seq<Str>, env: Collaborators) returns (result: Result<seq<DocumentFile>, LoadError>)
      modifies this`calls
      ensures !UsesBatchInsert(env.templateBatchInsertSupported, tdeValidationDatabase) ==>
        calls == old(calls) + [LoadFiles(paths)] && result == Ok(env.loadFiles(paths))
      ensures UsesBatchInsert(env.templateBatchInsertSupported, tdeValidationDatabase) ==>
        var documentFiles := env.getDocumentFiles(paths);
        var tdeFiles, nonTdeFiles := Select(documentFiles, true), Select(documentFiles, false);
        var script := TdeScript(TdeBatchInsertQuery(tdeFiles), tdeValidationDatabase);
        var inserts := if tdeFiles == [] then [] else [EvalJavaScript(script)];
        var writes := if nonTdeFiles == [] then [] else [WriteDocumentFiles(nonTdeFiles)];
        if tdeFiles != [] && env.eval(script).EvalFailed? then
          calls == old(calls) + inserts && result == Err(TdeBatchInsertFailed(BatchInsertFailureMessage(env.eval(script).message)))
        else
          calls == old(calls) + inserts + writes && result == Ok(documentFiles)
    {
      if env.templateBatchInsertSupported && HasText(tdeValidationDatabase) {
        var documentFiles := env.getDocumentFiles(paths);
        var tdeFiles, nonTdeFiles := PartitionTdeFiles(documentFiles);
        if tdeFiles != [] {
          var failure := LoadTdeTemplatesViaBatchInsert(tdeFiles, env.eval);
          if failure.Some? {
            return Err(failure.value);
          }
        }
        if nonTdeFiles != [] {
          calls := calls + [WriteDocumentFiles(nonTdeFiles)];
        }
        return Ok(documentFiles);
      }
      calls := calls + [LoadFiles(paths)];
      result := Ok(env.loadFiles(paths));
    }
  }
}
