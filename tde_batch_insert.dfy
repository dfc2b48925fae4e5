/**
 * The JavaScript that loads and validates TDE templates in one call of MarkLogic's
 * `tde.templateBatchInsert` (available from MarkLogic 10.0-9): one `tde.templateInfo`
 * entry per template, wrapped in an update transaction invoked against the database
 * that validates the templates.
 */
module TdeBatchInsert {
  import opened Wrappers
  import opened Text
  import opened Documents

  // ---------------------------------------------------------------- permissions

  /** One granted capability: `xdmp.permission('role', 'CAPABILITY')`. */
  function PermissionCall(role: Str, capability: Capability): Str {
    "xdmp.permission('" + role + "', '" + CapabilityName(capability) + "')"
  }

  /** The permission calls for one role, one per capability, in iteration order. */
  function RoleCalls(role: Str, capabilities: seq<Capability>): (r: seq<Str>)
    ensures |r| == |capabilities|
  {
    seq(|capabilities|, j requires 0 <= j < |capabilities| => PermissionCall(role, capabilities[j]))
  }

  /** The permission calls of all roles, role after role. */
  function PermissionCalls(permissions: seq<(Str, seq<Capability>)>): seq<Str>
    decreases |permissions|
  {
    if permissions == [] then []
    else
      var (role, capabilities) := permissions[|permissions| - 1];
      PermissionCalls(permissions[..|permissions| - 1]) + RoleCalls(role, capabilities)
  }

  /** Every (role, capability) pair the permissions grant, in iteration order. */
  function Grants(permissions: seq<(Str, seq<Capability>)>): seq<(Str, Capability)>
    decreases |permissions|
  {
    if permissions == [] then []
    else
      var (role, capabilities) := permissions[|permissions| - 1];
      Grants(permissions[..|permissions| - 1])
        + seq(|capabilities|, j requires 0 <= j < |capabilities| => (role, capabilities[j]))
  }

  /** The array literal of permissions: `[` calls joined by `", "` `]`. */
  function PermissionsLiteral(permissions: seq<(Str, seq<Capability>)>): Str {
    "[" + Join(", ", PermissionCalls(permissions)) + "]"
  }

  /** The loops of `buildTdeBatchInsertQuery` that fill `permissionList`: for each role,
      for each of its capabilities, add one permission call. */
  method BuildPermissionList(documentPermissions: seq<(Str, seq<Capability>)>)
    returns (permissionList: seq<Str>)
    ensures permissionList == PermissionCalls(documentPermissions)
  {
    permissionList := [];
    for i := 0 to |documentPermissions|
      invariant permissionList == PermissionCalls(documentPermissions[..i])
    {
      var (key, values) := documentPermissions[i];
      ghost var before := permissionList;
      for j := 0 to |values|
        invariant permissionList == before + RoleCalls(key, values[..j])
      {
        assert RoleCalls(key, values[..j + 1]) == RoleCalls(key, values[..j]) + [PermissionCall(key, values[j])];
        permissionList := permissionList + [PermissionCall(key, values[j])];
      }
      assert values[..|values|] == values;
      assert documentPermissions[..i + 1][..i] == documentPermissions[..i];
    }
    assert documentPermissions[..|documentPermissions|] == documentPermissions;
  }

  /** There is exactly one permission call per granted (role, capability) pair, in order. */
  lemma {:induction false} PermissionCallsMatchGrants(permissions: seq<(Str, seq<Capability>)>)
    ensures |PermissionCalls(permissions)| == |Grants(permissions)|
    ensures forall k :: 0 <= k < |Grants(permissions)| ==>
      PermissionCalls(permissions)[k] == PermissionCall(Grants(permissions)[k].0, Grants(permissions)[k].1)
    decreases |permissions|
  {
    if permissions != [] {
      PermissionCallsMatchGrants(permissions[..|permissions| - 1]);
    }
  }

  /** The permissions literal is `[]` exactly when no capability is granted to any role. */
  lemma PermissionsLiteralEmptyIff(permissions: seq<(Str, seq<Capability>)>)
    ensures PermissionsLiteral(permissions) == "[]" <==> Grants(permissions) == []
  {
  }

  // ---------------------------------------------------------------- collections

  /** One collection as a JavaScript string literal: `"name"`. */
  function QuotedCollection(collection: Str): Str {
    "\"" + collection + "\""
  }

  /** The array literal of collections: each quoted, joined by `", "`, inside `[` `]`. */
  function CollectionsLiteral(collections: seq<Str>): Str {
    "[" + Join(", ", seq(|collections|, i requires 0 <= i < |collections| => QuotedCollection(collections[i]))) + "]"
  }

  /** The collections literal is `[]` exactly when there are no collections. */
  lemma CollectionsLiteralEmptyIff(collections: seq<Str>)
    ensures CollectionsLiteral(collections) == "[]" <==> collections == []
  {
  }

  // ---------------------------------------------------------------- template entries

  /** One `tde.templateInfo` call, chosen by the format's name: XML content goes through
      `xdmp.unquote` of a template literal, JSON content through `xdmp.toJSON`, and any other
      content is pasted as it is, right after the comma (no space). */
  function TemplateInfoCall(format: Format, uri: Str, content: Str, permissions: Str, collections: Str): Str {
    if FormatName(format) == "XML" then
      "tde.templateInfo('" + uri + "'," + " xdmp.unquote(`" + content + "`)" + ", " + permissions + ", " + collections + ")"
    else if FormatName(format) == "JSON" then
      "tde.templateInfo('" + uri + "'," + " xdmp.toJSON(" + content + ")" + ", " + permissions + ", " + collections + ")"
    else
      "tde.templateInfo('" + uri + "'," + content + ", " + permissions + ", " + collections + ")"
  }

  /** The `tde.templateInfo` entry of one document. */
  function TemplateInfo(doc: DocumentFile): Str
    requires doc.metadata.Some?
  {
    TemplateInfoCall(doc.format, doc.uri, doc.content,
      PermissionsLiteral(doc.metadata.value.permissions), CollectionsLiteral(doc.metadata.value.collections))
  }

  /** How each format embeds the content as the second argument. */
  function ContentArgument(format: Format, content: Str): Str {
    match format
    case Xml => " xdmp.unquote(`" + content + "`)"
    case Json => " xdmp.toJSON(" + content + ")"
    case _ => content
  }

  /** Every entry has the same shape whatever the format: the quoted URI first, then the
      content as the format dictates, then the permissions and the collections literals. */
  lemma TemplateInfoCallShape(format: Format, uri: Str, content: Str, permissions: Str, collections: Str)
    ensures TemplateInfoCall(format, uri, content, permissions, collections) ==
      "tde.templateInfo('" + uri + "'," + ContentArgument(format, content) + ", " + permissions + ", " + collections + ")"
  {
    var head := "tde.templateInfo('" + uri + "',";
    match format
    case Xml =>
      assert head + " xdmp.unquote(`" + content + "`)" == head + (" xdmp.unquote(`" + content + "`)");
    case Json =>
      assert FormatName(format) != "XML";
      assert head + " xdmp.toJSON(" + content + ")" == head + (" xdmp.toJSON(" + content + ")");
    case _ =>
      assert FormatName(format) != "XML" && FormatName(format) != "JSON";
  }

  /** The entries of all documents, one per document, in input order. */
  function TemplateInfos(docs: seq<DocumentFile>): (r: seq<Str>)
    requires AllHaveMetadata(docs)
    ensures |r| == |docs|
  {
    seq(|docs|, i requires 0 <= i < |docs| => TemplateInfo(docs[i]))
  }

  // ---------------------------------------------------------------- the query

  const BATCH_INSERT_OPEN: Str := "tde.templateBatchInsert(["
  const BATCH_INSERT_CLOSE: Str := "]);"

  /** The entries joined by `","`. */
  function TemplateInfoList(docs: seq<DocumentFile>): Str
    requires AllHaveMetadata(docs)
  {
    Join(",", TemplateInfos(docs))
  }

  /** The query: one `tde.templateBatchInsert` call over all entries. */
  function TdeBatchInsertQuery(docs: seq<DocumentFile>): Str
    requires AllHaveMetadata(docs)
  {
    BATCH_INSERT_OPEN + TemplateInfoList(docs) + BATCH_INSERT_CLOSE
  }

  /** `buildTdeBatchInsertQuery`: collects one entry per document, then joins them. */
  method BuildTdeBatchInsertQuery(documentFiles: seq<DocumentFile>) returns (query: Str)
    requires AllHaveMetadata(documentFiles)
    ensures query == TdeBatchInsertQuery(documentFiles)
  {
    var templateInfoList: seq<Str> := [];
    for i := 0 to |documentFiles|
      invariant |templateInfoList| == i
      invariant forall k :: 0 <= k < i ==> templateInfoList[k] == TemplateInfo(documentFiles[k])
    {
      var doc := documentFiles[i];
      assert doc in documentFiles;
      var metadata := doc.metadata.value;
      var permissionList := BuildPermissionList(metadata.permissions);
      var permissions := "[" + Join(", ", permissionList) + "]";
      var collections := CollectionsLiteral(metadata.collections);
      var templateFormat := TemplateInfoCall(doc.format, doc.uri, doc.content, permissions, collections);
      templateInfoList := templateInfoList + [templateFormat];
    }
    assert templateInfoList == TemplateInfos(documentFiles);
    query := BATCH_INSERT_OPEN + Join(",", templateInfoList) + BATCH_INSERT_CLOSE;
  }

  /** No documents give the empty batch `tde.templateBatchInsert([]);`, and only no documents do. */
  lemma QueryEmptyIff(docs: seq<DocumentFile>)
    requires AllHaveMetadata(docs)
    ensures TdeBatchInsertQuery(docs) == "tde.templateBatchInsert([]);" <==> docs == []
  {
  }

  /** The entries of a batch are the entries of its first part, a comma, and the entries
      of its second part: each document contributes its own entry, in input order. */
  lemma QueryEntriesConcat(a: seq<DocumentFile>, b: seq<DocumentFile>)
    requires AllHaveMetadata(a) && AllHaveMetadata(b) && a != [] && b != []
    ensures AllHaveMetadata(a + b)
    ensures TemplateInfoList(a + b) == TemplateInfoList(a) + "," + TemplateInfoList(b)
  {
    assert TemplateInfos(a + b) == TemplateInfos(a) + TemplateInfos(b);
    JoinConcat(",", TemplateInfos(a), TemplateInfos(b));
  }

  /** A batch of one document holds exactly that document's entry. */
  lemma QuerySingle(doc: DocumentFile)
    requires doc.metadata.Some?
    ensures TdeBatchInsertQuery([doc]) == BATCH_INSERT_OPEN + TemplateInfo(doc) + BATCH_INSERT_CLOSE
  {
  }

  // ---------------------------------------------------------------- script and failure

  const SCRIPT_OPEN: Str := "declareUpdate(); xdmp.invokeFunction(function() {var tde = require('/MarkLogic/tde.xqy');"

  /** The close of the envelope, naming the database that validates the templates. */
  function ScriptClose(database: Option<Str>): Str {
    "}, {database: xdmp.database('" + JavaText(database) + "')})"
  }

  /** The script evaluated on the server: the query inside an update transaction that is
      invoked against the validation database. */
  function TdeScript(query: Str, database: Option<Str>): Str {
    SCRIPT_OPEN + query + ScriptClose(database)
  }

  /** For a given database the envelope loses nothing: different queries give different scripts. */
  lemma ScriptDeterminesQuery(q1: Str, q2: Str, database: Option<Str>)
    requires TdeScript(q1, database) == TdeScript(q2, database)
    ensures q1 == q2
  {
    var s := TdeScript(q1, database);
    var n := |SCRIPT_OPEN|;
    assert |q1| == |q2|;
    assert s[n..n + |q1|] == q1;
    assert TdeScript(q2, database)[n..n + |q2|] == q2;
  }

  const FAILURE_PREFIX: Str := "Unable to load and validate TDE templates via tde.templateBatchInsert; cause: "

  /** The message of the exception thrown when evaluating the script fails; `cause` is the
      message of the server's exception, which may be null. */
  function BatchInsertFailureMessage(cause: Option<Str>): Str {
    FAILURE_PREFIX + JavaText(cause)
  }

  /** The cause's message is attached verbatim, so different causes give different messages. */
  lemma FailureMessageKeepsCause(m1: Str, m2: Str)
    requires BatchInsertFailureMessage(Some(m1)) == BatchInsertFailureMessage(Some(m2))
    ensures m1 == m2
  {
    var n := |FAILURE_PREFIX|;
    assert BatchInsertFailureMessage(Some(m1))[n..] == m1;
    assert BatchInsertFailureMessage(Some(m2))[n..] == m2;
  }
}
