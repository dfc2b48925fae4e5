/**
 * The values the schema loader works on: a document file read from disk, its format and
 * its metadata (permissions and collections), and the collection that marks a TDE template.
 */
module Documents {
  import opened Wrappers
  import opened Text

  /** The document formats of the MarkLogic Java client. */
  datatype Format = Xml | Json | TextFormat | Binary | Unknown

  /** `format.toString()`: the enum constant's name. */
  function FormatName(f: Format): Str {
    match f
    case Xml => "XML"
    case Json => "JSON"
    case TextFormat => "TEXT"
    case Binary => "BINARY"
    case Unknown => "UNKNOWN"
  }

  /** Document capabilities a role can be granted. */
  datatype Capability = Execute | Insert | NodeUpdate | Read | Update

  /** `capability.toString()`: the enum constant's name. */
  function CapabilityName(c: Capability): Str {
    match c
    case Execute => "EXECUTE"
    case Insert => "INSERT"
    case NodeUpdate => "NODE_UPDATE"
    case Read => "READ"
    case Update => "UPDATE"
  }

  /** Document metadata. Both collections are kept in the order in which Java iterates them:
      `permissions` lists each role with the capabilities it is granted. */
  datatype Metadata = Metadata(permissions: seq<(Str, seq<Capability>)>, collections: seq<Str>)

  /** A file to be loaded as a schema. `content` is the text of its content handle;
      `metadata` is None when the file has no metadata handle (Java null). */
  datatype DocumentFile = DocumentFile(uri: Str, content: Str, format: Format, metadata: Option<Metadata>)

  /** The collection that marks a document as a TDE template. */
  const TDE_COLLECTION: Str := "http://marklogic.com/xdmp/tde"

  /** A TDE template: it has metadata, and its collections contain the TDE collection. */
  predicate IsTdeFile(f: DocumentFile) {
    f.metadata.Some? && TDE_COLLECTION in f.metadata.value.collections
  }

  /** Every document carries metadata (the batch-insert script reads it from each one). */
  predicate AllHaveMetadata(docs: seq<DocumentFile>) {
    forall d | d in docs :: d.metadata.Some?
  }
}
