/** The values the indexing core reads and produces: records, queued request
    payloads, bulk actions and index targets. */
module Records {

  datatype Option<+T> = None | Some(value: T)

  /** A record identifier, in the canonical string form of the record's UUID
      (so `str(record.id)` is the identifier itself). */
  type RecordId = string

  /** A JSON value; numbers are integers in this model. */
  datatype Json =
    | JNull
    | JBool(b: bool)
    | JNum(n: int)
    | JStr(s: string)
    | JArray(items: seq<Json>)
    | JObject(fields: map<string, Json>)

  /** A stored record: its identifier, its revision number and its JSON body. */
  datatype Record = Record(id: RecordId, revision: nat, data: map<string, Json>)

  /** The record store. A missing key is the store's NoResultFound. */
  type Store = map<RecordId, Record>

  /** Every record is stored under its own identifier. */
  ghost predicate Keyed(store: Store)
  {
    forall k :: k in store ==> store[k].id == k
  }

  /** An (index name, document type) pair of the search engine. */
  datatype Target = Target(index: string, doctype: string)

  /** The operation types a request may carry. */
  datatype Op = Index | Create | Delete | Update

  /** An operation's name on the wire. */
  function OpName(op: Op): string
  {
    match op
    case Index => "index"
    case Create => "create"
    case Delete => "delete"
    case Update => "update"
  }

  /** The operation a name stands for, if any. */
  function ParseOp(name: string): (r: Option<Op>)
    ensures r.Some? ==> OpName(r.value) == name
    ensures r.None? ==> name != "index" && name != "create" && name != "delete" && name != "update"
  {
    if name == "index" then Some(Index)
    else if name == "create" then Some(Create)
    else if name == "delete" then Some(Delete)
    else if name == "update" then Some(Update)
    else None
  }

  /** Every operation's name parses back to it. */
  lemma ParseOpName(op: Op)
    ensures ParseOp(OpName(op)) == Some(op)
  {
  }

  /** The body of a queued request: `{id, op, index, doctype}`, where the
      last two may be null. */
  datatype Payload = Payload(id: RecordId, op: Op, index: Option<string>, doctype: Option<string>)

  /** A bulk action handed to the search engine: `_op_type`, `_index`,
      `_type`, `_id`, and the optional `_version`, `_version_type` and
      `_source` keys (None when the key is absent). The operation type is
      Index or Delete. */
  datatype Action = Action(
    opType: Op,
    index: string,
    doctype: string,
    id: RecordId,
    version: Option<nat>,
    versionType: Option<string>,
    source: Option<Json>)

  /** The result of an operation that looks a record up: the value, or the
      store's NoResultFound. */
  datatype Outcome<+T> = Ok(value: T) | NoResultFound

  /** The application environment the indexer reads: the schema-to-index
      mapping (an empty string stands for a missing part), the configured
      default index and document type, and the serialisation of a record
      together with the pre-index hook that may rewrite it. */
  datatype App = App(
    schemaToIndex: Json -> (string, string),
    defaultIndex: string,
    defaultDoctype: string,
    prepare: Record -> Json)

  /** Python truthiness of an optional string: present and non-empty. */
  predicate Truthy(o: Option<string>)
  {
    o.Some? && o.value != ""
  }

  /** Loading a record by identifier. */
  function GetRecord(store: Store, id: RecordId): (r: Outcome<Record>)
    ensures r.NoResultFound? <==> id !in store
    ensures r.Ok? ==> r.value == store[id]
  {
    if id in store then Ok(store[id]) else NoResultFound
  }
}
