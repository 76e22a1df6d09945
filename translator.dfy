/** Turning a queued payload, or a record given directly, into what is sent
    to the search engine: bulk actions for the queue consumer, and the single
    index and delete calls of the synchronous path. */
module Translator {
  import opened Records

  /** What an indexer is configured with: its version type, its resolver,
      and the record serialisation with its pre-index hook. */
  datatype Settings = Settings(versionType: string, recordToIndex: Record -> Target, prepare: Record -> Json)

  /** The bulk index action for a loaded record. */
  function IndexActionFor(s: Settings, record: Record): (a: Action)
    ensures a.opType == Index && a.id == record.id
    ensures a.version == Some(record.revision) && a.versionType == Some(s.versionType)
    ensures Target(a.index, a.doctype) == s.recordToIndex(record)
    ensures a.source == Some(s.prepare(record))
  {
    var t := s.recordToIndex(record);
    Action(Index, t.index, t.doctype, record.id, Some(record.revision), Some(s.versionType), Some(s.prepare(record)))
  }

  /** Bulk index action: load the record named by the payload (failing when
      it is absent) and describe it at its current revision. */
  function IndexAction(s: Settings, p: Payload, store: Store): (r: Outcome<Action>)
    ensures r.NoResultFound? <==> p.id !in store
    ensures r.Ok? ==> r.value == IndexActionFor(s, store[p.id])
  {
    match GetRecord(store, p.id)
    case NoResultFound => NoResultFound
    case Ok(record) => Ok(IndexActionFor(s, record))
  }

  /** The payload carries both an index and a document type. */
  predicate PreResolved(p: Payload)
  {
    Truthy(p.index) && Truthy(p.doctype)
  }

  /** Bulk delete action: the payload's own target when it has both parts,
      otherwise the resolver's target for the loaded record. */
  function DeleteAction(s: Settings, p: Payload, store: Store): (r: Outcome<Action>)
    ensures r.NoResultFound? <==> !PreResolved(p) && p.id !in store
    ensures r.Ok? ==> && r.value.opType == Delete && r.value.id == p.id
                      && r.value.version.None? && r.value.versionType.None? && r.value.source.None?
    ensures PreResolved(p) ==> r.Ok? && r.value.index == p.index.value && r.value.doctype == p.doctype.value
    ensures !PreResolved(p) && p.id in store ==>
      r.Ok? && Target(r.value.index, r.value.doctype) == s.recordToIndex(store[p.id])
  {
    if PreResolved(p) then
      Ok(Action(Delete, p.index.value, p.doctype.value, p.id, None, None, None))
    else
      match GetRecord(store, p.id)
      case NoResultFound => NoResultFound
      case Ok(record) =>
        var t := s.recordToIndex(record);
        Ok(Action(Delete, t.index, t.doctype, p.id, None, None, None))
  }

  /** A delete whose payload names its target never consults the store. */
  lemma PreResolvedDeleteIgnoresStore(s: Settings, p: Payload, store1: Store, store2: Store)
    requires PreResolved(p)
    ensures DeleteAction(s, p, store1) == DeleteAction(s, p, store2)
    ensures DeleteAction(s, p, store1).Ok?
  {
  }

  /** The consumer's dispatch on the payload's operation: Delete becomes a
      delete action, every other operation (create and update included) an
      index action. */
  function Translate(s: Settings, p: Payload, store: Store): (r: Outcome<Action>)
    ensures r.Ok? ==> r.value.opType == (if p.op == Delete then Delete else Index)
  {
    if p.op == Delete then DeleteAction(s, p, store) else IndexAction(s, p, store)
  }

  /** Which payloads fail with NoResultFound: exactly those whose record is
      missing, except deletes that carry their own target. */
  lemma TranslateFailsIff(s: Settings, p: Payload, store: Store)
    ensures Translate(s, p, store).NoResultFound? <==>
      p.id !in store && !(p.op == Delete && PreResolved(p))
  {
  }

  /** In a keyed store, every action produced names the payload's record. */
  lemma TranslateKeepsId(s: Settings, p: Payload, store: Store)
    requires Keyed(store)
    ensures Translate(s, p, store).Ok? ==> Translate(s, p, store).value.id == p.id
  {
  }

  /** The calls of the synchronous path. */
  datatype Request =
    | IndexCall(id: RecordId, version: nat, versionType: string, index: string, doctype: string, body: Json)
    | DeleteCall(id: RecordId, index: string, doctype: string)

  /** Synchronous index: the record's id and revision, the configured version
      type, the resolved target and the prepared body. */
  function IndexRequest(s: Settings, record: Record): (r: Request)
    ensures r.IndexCall? && r.id == record.id && r.version == record.revision
    ensures r.versionType == s.versionType && r.body == s.prepare(record)
    ensures Target(r.index, r.doctype) == s.recordToIndex(record)
  {
    var t := s.recordToIndex(record);
    IndexCall(record.id, record.revision, s.versionType, t.index, t.doctype, s.prepare(record))
  }

  /** Synchronous delete: only the record's id and the resolved target. */
  function DeleteRequest(s: Settings, record: Record): (r: Request)
    ensures r.DeleteCall? && r.id == record.id
    ensures Target(r.index, r.doctype) == s.recordToIndex(record)
  {
    var t := s.recordToIndex(record);
    DeleteCall(record.id, t.index, t.doctype)
  }

  /** Synchronous index of a record loaded by identifier. */
  function IndexById(s: Settings, store: Store, id: RecordId): (r: Outcome<Request>)
    ensures r.NoResultFound? <==> id !in store
    ensures r.Ok? ==> r.value == IndexRequest(s, store[id])
  {
    match GetRecord(store, id)
    case NoResultFound => NoResultFound
    case Ok(record) => Ok(IndexRequest(s, record))
  }

  /** Synchronous delete of a record loaded by identifier. */
  function DeleteById(s: Settings, store: Store, id: RecordId): (r: Outcome<Request>)
    ensures r.NoResultFound? <==> id !in store
    ensures r.Ok? ==> r.value == DeleteRequest(s, store[id])
  {
    match GetRecord(store, id)
    case NoResultFound => NoResultFound
    case Ok(record) => Ok(DeleteRequest(s, record))
  }

  /** Queued and synchronous indexing are equivalent: a queued index request
      (any operation other than Delete) succeeds exactly when the
      synchronous index by id does, and then carries the same id, version,
      version type, target and body. */
  lemma QueuedIndexMatchesSynchronous(s: Settings, p: Payload, store: Store)
    requires p.op != Delete
    ensures Translate(s, p, store).Ok? <==> IndexById(s, store, p.id).Ok?
    ensures Translate(s, p, store).Ok? ==>
      var a, r := Translate(s, p, store).value, IndexById(s, store, p.id).value;
      && a.id == r.id && a.version == Some(r.version) && a.versionType == Some(r.versionType)
      && a.index == r.index && a.doctype == r.doctype && a.source == Some(r.body)
  {
  }

  /** Queued and synchronous deletes agree when the payload leaves the target
      to the resolver and the store is keyed. */
  lemma QueuedDeleteMatchesSynchronous(s: Settings, p: Payload, store: Store)
    requires Keyed(store) && p.op == Delete && !PreResolved(p)
    ensures Translate(s, p, store).Ok? <==> DeleteById(s, store, p.id).Ok?
    ensures Translate(s, p, store).Ok? ==>
      var a, r := Translate(s, p, store).value, DeleteById(s, store, p.id).value;
      a.id == r.id && a.index == r.index && a.doctype == r.doctype
  {
  }
}
