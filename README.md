# RecordIndexer: a Dafny model of invenio-indexer's decision logic

`RecordIndexer` in `invenio_indexer/api.py` sits between a record store, a
message queue and a search engine. This project models the decisions it makes
and proves properties of them:

- **Index resolver** (`_record_to_index`): given a record, picks the search
  engine's (index, document type) pair. It uses the pair the record's
  `$schema` maps to when both parts are non-empty, and the configured default
  pair otherwise.
- **Request publisher** (`_bulk_op`, `bulk_index`, `bulk_delete`): publishes
  one request `{id, op, index, doctype}` per record identifier, in order.
- **Action translator** (`_index_action`, `_delete_action`): turns a queued
  request and a store lookup into a bulk action.
- **Consumer loop** (`_actionsiter`): walks the delivered messages in order.
  A message whose translation succeeds is acknowledged and its action is
  emitted. A message whose record lookup fails is rejected and emits nothing.
- **Synchronous path** (`index`, `delete`, `index_by_id`, `delete_by_id`):
  builds single requests from the same resolver and the same id and version
  fields.
- **Constructor defaults** (`__init__`): the version type and the resolver in
  force when none is supplied.

Modules:

- `Records` (records.dfy): the values: records, payloads, actions, targets,
  operation names, the store lookup.
- `Resolver` (resolver.dfy): `_record_to_index`.
- `Translator` (translator.dfy): the bulk actions and the synchronous requests,
  with lemmas relating the two paths.
- `Publisher` (publisher.dfy): the message queue as a class holding a sequence,
  and the requests a bulk operation publishes.
- `Consumer` (consumer.dfy): delivered messages as objects whose acknowledgement
  state changes, and `Drain`, the specification of what a consumer loop
  produces, with its lemmas.
- `Indexer` (indexer.dfy): the `RecordIndexer` class, its bulk operations and
  its consumer loop, proved against those specifications, and the end-to-end
  lemmas.

Modelling conventions:

- The record store is a map from identifiers to records. A missing key plays
  the role of `NoResultFound`.
- Identifiers are the canonical string form of the record's UUID, so
  `str(record.id)` is the identifier itself.
- `schema_to_index` is a function field of `App` returning two strings. The
  empty string stands for a missing part, since both are falsy in Python.
- `record.dumps()` together with the `before_record_index` hook is one opaque
  function `prepare`.
- The generator's acknowledgement happens when the next item is pulled. The
  model settles each message inside one loop step: translate, then acknowledge
  and emit, or reject.

Where the code and the system's design description differ, the model follows
the code:

- A request may carry any of `index`, `create`, `delete` and `update`, not only
  index and delete. The consumer translates every operation other than
  `delete` as an index action (lines 214-217).
- A bulk delete publishes no target, so the consumer must load the record to
  resolve one. A request whose record is already gone from the store is
  rejected. The delete then never reaches the engine (`RoundTripDelete`).
- A version type of `''` falls back to `external_gte`, as `None` does, because
  of `or` (line 79).

## Model

| member | source | states |
|---|---|---|
| Records.ParseOp | invenio_indexer/api.py:189 | An operation name is accepted exactly when it is one of `index`, `create`, `delete`, `update`, and the accepted operation's wire name is the input. |
| Records.ParseOpName | invenio_indexer/api.py:186-189 | Every operation's wire name is accepted and parses back to that operation. |
| Records.GetRecord | invenio_indexer/api.py:127 | Loading fails with NoResultFound exactly when the identifier is not stored, and otherwise returns the stored record. |
| Resolver.SchemaOf | invenio_indexer/api.py:44 | A record without `$schema` is looked up as the empty string. |
| Resolver.RecordToIndex | invenio_indexer/api.py:42-49 | The schema-mapped pair is returned exactly when both its parts are non-empty. In every other case the configured default pair is returned. |
| Resolver.MissingSchemaFallsBack | invenio_indexer/api.py:44-49 | A record lacking `$schema` resolves to the default pair unless the empty schema maps to a complete pair. |
| Resolver.ResolvedTargetIsComplete | invenio_indexer/api.py:45-49 | With non-empty defaults, the resolver never returns an empty index or document type. |
| Resolver.SameSchemaSameTarget | invenio_indexer/api.py:44-49 | The target depends only on the record's `$schema`. |
| Indexer.EffectiveVersionType | invenio_indexer/api.py:79 | The version type in force is the one supplied when it is present and non-empty, and `external_gte` otherwise. It is never empty. |
| Indexer.EffectiveResolver | invenio_indexer/api.py:77 | A supplied resolver is used for every record. Without one, the built-in resolver is used. |
| Indexer.RecordIndexer.constructor | invenio_indexer/api.py:71-79 | The indexer holds the effective version type, the effective resolver and the application's record preparation. |
| Translator.IndexActionFor | invenio_indexer/api.py:248-258 | The index action carries operation index, the record's id, its revision as version, the configured version type, the resolved target and the prepared body. |
| Translator.IndexAction | invenio_indexer/api.py:241-258 | The action fails with NoResultFound exactly when the payload's record is not stored. Otherwise it is the index action for the stored record. |
| Translator.DeleteAction | invenio_indexer/api.py:222-239 | The action fails exactly when the payload lacks a full target and the record is not stored. Success gives a delete with the payload's id and no version, version type or body. The target is the payload's own when it has both parts, and the resolver's for the stored record otherwise. |
| Translator.PreResolvedDeleteIgnoresStore | invenio_indexer/api.py:228-229 | A delete whose payload names both index and document type succeeds whatever the store holds, and gives the same action for every store. |
| Translator.Translate | invenio_indexer/api.py:214-217 | A successful action is a delete for a `delete` request and an index action for every other operation, `create` and `update` included. |
| Translator.TranslateFailsIff | invenio_indexer/api.py:214-220 | A request fails exactly when its record is not stored, unless it is a delete carrying its own target. |
| Translator.TranslateKeepsId | invenio_indexer/api.py:238 | In a store that keys every record by its own id, every action names the request's record. |
| Translator.IndexRequest | invenio_indexer/api.py:100-120 | The synchronous index call carries the record's id and revision, the configured version type, the resolved target and the prepared body. |
| Translator.DeleteRequest | invenio_indexer/api.py:129-140 | The synchronous delete call carries only the record's id and the resolved target. |
| Translator.IndexById | invenio_indexer/api.py:122-127 | Index by id fails exactly when the record is not stored, and otherwise is the index call for the stored record. |
| Translator.DeleteById | invenio_indexer/api.py:142-144 | Delete by id fails exactly when the record is not stored, and otherwise is the delete call for the stored record. |
| Translator.QueuedIndexMatchesSynchronous | invenio_indexer/api.py:111-119 | A queued non-delete request succeeds exactly when synchronous index by id does. Both then carry the same id, version, version type, target and body. |
| Translator.QueuedDeleteMatchesSynchronous | invenio_indexer/api.py:231-239 | In a keyed store, a queued delete without its own target succeeds exactly when synchronous delete by id does. Both then carry the same id and target. |
| Publisher.Requests | invenio_indexer/api.py:198-204 | One request per identifier, in the order given, each with the given operation and target. |
| Publisher.RequestsAppend | invenio_indexer/api.py:198-204 | The requests for two runs of identifiers are the two runs of requests, one after the other. |
| Publisher.MessageQueue.Publish | invenio_indexer/api.py:199-204 | Publishing appends the payload at the end of the queue and changes nothing else. |
| Publisher.MessageQueue.TakeAll | invenio_indexer/api.py:172 | Delivery hands over every queued payload in publication order and empties the queue. |
| Consumer.Message.Ack | invenio_indexer/api.py:218 | Acknowledging is allowed only for an unsettled message and leaves it acknowledged. |
| Consumer.Message.Reject | invenio_indexer/api.py:220 | Rejecting is allowed only for an unsettled message and leaves it rejected. |
| Consumer.PayloadsOf | invenio_indexer/api.py:212 | The decoded payloads are the messages' payloads, position by position. |
| Consumer.Verdict | invenio_indexer/api.py:213-220 | A translated message is never left unsettled. It is acknowledged exactly when an action was produced, and rejected exactly when the lookup failed. |
| Consumer.Outcomes | invenio_indexer/api.py:211-217 | Each delivered payload gets its translation, at the same position. |
| Consumer.AckedCount | invenio_indexer/api.py:218 | The number of acknowledged messages is at most the number of messages. |
| Consumer.Collect | invenio_indexer/api.py:211-220 | There is one collected action per acknowledged message. |
| Consumer.Drain | invenio_indexer/api.py:170-173 | Draining yields as many actions as there are acknowledged messages, and never more actions than requests. |
| Consumer.CollectAt | invenio_indexer/api.py:211-218 | The action of the acknowledged message at position k is at position "number of acknowledged messages before k". |
| Consumer.CollectCovers | invenio_indexer/api.py:211-218 | Every collected position is the position CollectAt gives for some acknowledged message. |
| Consumer.CollectSplit | invenio_indexer/api.py:211-220 | Collecting two runs of outcomes gives the two runs' actions, one after the other. |
| Consumer.CollectAllOk | invenio_indexer/api.py:211-218 | When every message is acknowledged, the actions are the outcomes' values in order. |
| Consumer.CollectSkipsRejected | invenio_indexer/api.py:219-220 | Removing a rejected message does not change the collected actions. |
| Consumer.OutcomesRemove | invenio_indexer/api.py:211-217 | Removing a payload removes exactly its outcome. |
| Consumer.DrainSplit | invenio_indexer/api.py:211-220 | Draining two runs of requests gives the two runs' actions, one after the other. |
| Consumer.DrainPreservesOrder | invenio_indexer/api.py:211-218 | Actions follow message order: of two acknowledged messages, the earlier one's action comes first, each at its computed position. |
| Consumer.DrainOnlyFromAcked | invenio_indexer/api.py:211-218 | Every drained action is the translation of some acknowledged request. |
| Indexer.Settle | invenio_indexer/api.py:212-220 | One loop step leaves message i settled by its outcome and appends exactly its action, if any, to the actions of the earlier messages. Later messages stay unsettled. |
| Indexer.RecordIndexer.BulkOp | invenio_indexer/api.py:182-204 | The operation succeeds exactly when its name is one valid operation. It then appends exactly the requests for the identifiers, in order, and otherwise publishes nothing. |
| Indexer.RecordIndexer.BulkIndex | invenio_indexer/api.py:146-151 | Appends one index request with no target per identifier, in order. |
| Indexer.RecordIndexer.BulkDelete | invenio_indexer/api.py:153-158 | Appends one delete request with no target per identifier, in order. |
| Indexer.RecordIndexer.ActionsIter | invenio_indexer/api.py:206-220 | The loop's actions are exactly `Drain` of the delivered payloads. Every message ends acknowledged or rejected according to its translation. |
| Indexer.RecordIndexer.ProcessBulkQueue | invenio_indexer/api.py:160-177 | Processing the queue empties it, delivers its payloads in order as fresh messages, settles each by its translation, and yields `Drain` of the queued requests. |
| Indexer.RoundTripIndex | invenio_indexer/api.py:146-151 | With every record stored under its own id, draining what bulk index publishes acknowledges every request. It yields, in order, each record's index action at its current revision. |
| Indexer.RoundTripDelete | invenio_indexer/api.py:153-158 | A bulk delete request is acknowledged exactly when its record is still stored. Its action is then a delete of that id at the resolved target, placed after the earlier acknowledged requests' actions. |
| Indexer.MissingRecordIsSkipped | invenio_indexer/api.py:219-220 | A request whose record is gone is rejected, unless it is a delete carrying its own target. Draining with it gives the same actions as draining without it. |
| Indexer.ArticleExample | invenio_indexer/api.py:241-258 | Record "42" at revision 3, whose schema maps to index `articles` and document type `article`, drains to the single index action with version 3 and version type `external_gte`. |

## Left out

- The search engine client, the `bulk()` helper and its `stats_only` count. The requests and actions are modelled; the engine's replies and its version-conflict checks are not. The count the engine reports is not modelled either, but the number of drained actions is, and it equals the number of acknowledged messages.
- `establish_connection`, `Producer`, `Consumer`, `iterqueue`, auto-declare and the exchange topology. They are transport plumbing, and are replaced by a queue holding a sequence and by a sequence of delivered messages.
- `mq_queue`, `mq_exchange` and `mq_routing_key`. They are configuration lookups only. The `exchange`, `queue` and `routing_key` constructor arguments are not modelled, because `__init__` discards them (lines 75-78).
- `search_client`, and its fallback to the current search client: the client is not modelled.
- Flask's `current_app.config`. The default index and document type are fields of `App`.
- `Record.get_record` database access. The store is a map, and any database failure other than not-found is not modelled.
- `schema_to_index`. It lives in a library that is not part of this model, so it is a function parameter.
- `record.dumps()` and the `before_record_index` signal (lines 260-272). They are one opaque function; its receivers' side effects are not modelled.
- Payload decoding. Every payload is well formed: a body missing `id`, `op`, `index` or `doctype` (a KeyError in the source) is not modelled. An operation outside the four valid names cannot occur, because `_bulk_op` refuses it.
- JSON numbers are integers. Floating point is not modelled.
- Concurrent consumers, broker redelivery and requeueing.
- Exceptions other than not-found, such as serialisation errors, which abort the drain in the source.
- `Indexer.RecordIndexer.BulkOp`: the `assert` is modelled as a refused operation that publishes nothing. Under `python -O` the assertion is stripped and any operation name would be published.
- `Indexer.RecordIndexer.ActionsIter`: the generator is lazy, and a message is acknowledged only when the next action is pulled. The model settles every message eagerly, in one pass. It therefore does not capture a drain that the engine side stops part way.
- `Translator.DeleteById`: it returns the delete call, as `index_by_id` returns its call. The source's `delete_by_id` (lines 142-144) has no `return`, so its caller receives `None` rather than the engine's reply.
- `Translator.IndexRequest`, `Translator.DeleteRequest`: they state the call's arguments. The call itself and its reply belong to the search engine client.
