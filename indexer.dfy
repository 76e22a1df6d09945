/** The record indexer: its configuration, the bulk request publisher and
    the consumer loop that turns delivered messages into bulk actions. */
module Indexer {
  import opened Records
  import opened Resolver
  import opened Translator
  import opened Publisher
  import opened Consumer

  /** The version type in force: the one supplied, unless it is missing or
      empty, in which case "external_gte". */
  function EffectiveVersionType(versionType: Option<string>): (r: string)
    ensures r != ""
    ensures Truthy(versionType) ==> r == versionType.value
    ensures !Truthy(versionType) ==> r == "external_gte"
  {
    if Truthy(versionType) then versionType.value else "external_gte"
  }

  /** The resolver in force: the one supplied, or else the built-in one. */
  function EffectiveResolver(app: App, recordToIndex: Option<Record -> Target>): (r: Record -> Target)
    ensures recordToIndex.Some? ==> forall record :: r(record) == recordToIndex.value(record)
    ensures recordToIndex.None? ==> forall record :: r(record) == RecordToIndex(app, record)
  {
    if recordToIndex.Some? then recordToIndex.value else record => RecordToIndex(app, record)
  }

  /** One step of the consumer loop over the delivered messages: translate
    message i's payload, then acknowledge the message and append its action,
    or reject the message when the record lookup failed and append nothing.
    The actions so far are those of the messages before i. */
  method Settle(s: Settings, messages: seq<Message>, i: nat, store: Store, ghost os: seq<Outcome<Action>>, actions: seq<Action>)
    returns (actions': seq<Action>)
    requires os == Outcomes(s, PayloadsOf(messages), store)
    requires forall j, k :: 0 <= j < k < |messages| ==> messages[j] != messages[k]
    requires i < |messages| && actions == Collect(os[..i])
    requires forall k :: i <= k < |messages| ==> messages[k].state == Received
    modifies messages[i]
    ensures actions' == Collect(os[..i + 1])
    ensures messages[i].state == Verdict(os[i])
    ensures forall k :: i < k < |messages| ==> messages[k].state == Received
  {
    var message := messages[i];
    var payload := message.payload;
    var result := if payload.op == Delete then DeleteAction(s, payload, store)
                  else IndexAction(s, payload, store);
    CollectStep(os, i);
    match result {
      case Ok(action) =>
        actions' := actions + [action];
        message.Ack();
      case NoResultFound =>
        actions' := actions;
        message.Reject();
    }
  }

  class RecordIndexer {
    const versionType: string
    const recordToIndex: Record -> Target
    const prepare: Record -> Json

    constructor (app: App, versionType: Option<string>, recordToIndex: Option<Record -> Target>)
      ensures this.versionType == EffectiveVersionType(versionType)
      ensures forall record :: this.recordToIndex(record) == EffectiveResolver(app, recordToIndex)(record)
      ensures forall record :: this.prepare(record) == app.prepare(record)
    {
      this.versionType := EffectiveVersionType(versionType);
      this.recordToIndex := EffectiveResolver(app, recordToIndex);
      this.prepare := app.prepare;
    }

    /** The settings the translator works with. */
    function Config(): Settings
    {
      Settings(versionType, recordToIndex, prepare)
    }

    /** Publish one request per identifier, in order, with the given operation
      and target. An operation type outside index, create, delete and update
      publishes nothing and reports failure. */
    method BulkOp(queue: MessageQueue, ids: seq<RecordId>, op: string, index: Option<string>, doctype: Option<string>)
      returns (ok: bool)
      modifies queue
      ensures ok == ParseOp(op).Some?
      ensures queue.messages == old(queue.messages) + (if ok then Requests(ids, ParseOp(op).value, index, doctype) else [])
    {
      var opType := ParseOp(op);
      if opType.None? {
        return false;
      }
      var i := 0;
      while i < |ids|
        invariant 0 <= i <= |ids|
        invariant queue.messages == old(queue.messages) + Requests(ids[..i], opType.value, index, doctype)
      {
        queue.Publish(Payload(ids[i], opType.value, index, doctype));
        RequestsAppend(ids[..i], [ids[i]], opType.value, index, doctype);
        assert ids[..i + 1] == ids[..i] + [ids[i]];
        i := i + 1;
      }
      assert ids[..i] == ids;
      return true;
    }

    /** Queue index requests for the given records. */
    method BulkIndex(queue: MessageQueue, ids: seq<RecordId>)
      modifies queue
      ensures queue.messages == old(queue.messages) + Requests(ids, Index, None, None)
    {
      var _ := BulkOp(queue, ids, "index", None, None);
    }

    /** Queue delete requests for the given records. */
    method BulkDelete(queue: MessageQueue, ids: seq<RecordId>)
      modifies queue
      ensures queue.messages == old(queue.messages) + Requests(ids, Delete, None, None)
    {
      var _ := BulkOp(queue, ids, "delete", None, None);
    }

    /** Walk the delivered messages in order, settling each one; the actions
      come out in message order, one per acknowledged message. */
    method ActionsIter(messages: seq<Message>, store: Store) returns (actions: seq<Action>)
      requires forall i, j :: 0 <= i < j < |messages| ==> messages[i] != messages[j]
      requires forall k :: 0 <= k < |messages| ==> messages[k].state == Received
      modifies set m | m in messages
      ensures actions == Drain(Config(), PayloadsOf(messages), store)
      ensures forall k :: 0 <= k < |messages| ==>
        messages[k].state == Verdict(Translate(Config(), messages[k].payload, store))
    {
      var config := Config();
      ghost var os := Outcomes(config, PayloadsOf(messages), store);
      actions := [];
      var i := 0;
      while i < |messages|
        invariant 0 <= i <= |messages|
        invariant actions == Collect(os[..i])
        invariant forall k :: 0 <= k < i ==> messages[k].state == Verdict(os[k])
        invariant forall k :: i <= k < |messages| ==> messages[k].state == Received
      {
        actions := Settle(config, messages, i, store, os, actions);
        i := i + 1;
      }
      assert os[..i] == os;
    }

    /** Drain the queue: deliver its messages in publication order and run
      the consumer loop over them. */
    method ProcessBulkQueue(queue: MessageQueue, store: Store) returns (actions: seq<Action>, delivered: seq<Message>)
      modifies queue
      ensures queue.messages == []
      ensures PayloadsOf(delivered) == old(queue.messages)
      ensures actions == Drain(Config(), old(queue.messages), store)
      ensures forall k :: 0 <= k < |delivered| ==>
        fresh(delivered[k]) && delivered[k].state == Verdict(Translate(Config(), delivered[k].payload, store))
    {
      var pending := queue.TakeAll();
      delivered := [];
      var i := 0;
      while i < |pending|
        invariant 0 <= i <= |pending|
        invariant queue.messages == []
        invariant |delivered| == i
        invariant forall k :: 0 <= k < i ==> fresh(delivered[k]) && delivered[k].payload == pending[k]
        invariant forall k :: 0 <= k < i ==> delivered[k].state == Received
        invariant forall a, b :: 0 <= a < b < i ==> delivered[a] != delivered[b]
      {
        var message := new Message(pending[i]);
        delivered := delivered + [message];
        i := i + 1;
      }
      assert PayloadsOf(delivered) == pending;
      actions := ActionsIter(delivered, store);
    }
  }

  /** Publish-then-drain for indexing: when every record is stored under its
      own id, draining the requests bulk index publishes acknowledges every
      message and yields, in order, each record's index action at its current
      revision. */
  lemma RoundTripIndex(s: Settings, ids: seq<RecordId>, store: Store)
    requires Keyed(store)
    requires forall k :: 0 <= k < |ids| ==> ids[k] in store
    ensures var ps := Requests(ids, Index, None, None);
      forall k :: 0 <= k < |ps| ==> Verdict(Translate(s, ps[k], store)) == Acked
    ensures var actions := Drain(s, Requests(ids, Index, None, None), store);
      && |actions| == |ids|
      && forall k :: 0 <= k < |ids| ==>
        && actions[k] == IndexActionFor(s, store[ids[k]])
        && actions[k].id == ids[k]
        && actions[k].version == Some(store[ids[k]].revision)
  {
    var ps := Requests(ids, Index, None, None);
    CollectAllOk(Outcomes(s, ps, store));
  }

  /** Publish-then-drain for deleting: a bulk delete leaves the target to the
      resolver, so a request is acknowledged exactly when its record is still
      in the store, and its action is then a delete of that id at the
      resolved target, placed after the actions of the acknowledged requests
      before it. */
  lemma RoundTripDelete(s: Settings, ids: seq<RecordId>, store: Store, k: nat)
    requires k < |ids|
    ensures var ps := Requests(ids, Delete, None, None);
      Verdict(Translate(s, ps[k], store)) == Acked <==> ids[k] in store
    ensures var ps := Requests(ids, Delete, None, None);
      var j := AckedCount(Outcomes(s, ps, store)[..k]);
      ids[k] in store ==>
        && j < |Drain(s, ps, store)|
        && Drain(s, ps, store)[j] == Action(Delete, s.recordToIndex(store[ids[k]]).index,
                                            s.recordToIndex(store[ids[k]]).doctype, ids[k], None, None, None)
  {
    var ps := Requests(ids, Delete, None, None);
    if ids[k] in store {
      CollectAt(Outcomes(s, ps, store), k);
    }
  }

  /** A request whose record is no longer stored (other than a delete naming
      its own target) is rejected and contributes no action: draining the
      requests with it gives what draining them without it gives. */
  lemma MissingRecordIsSkipped(s: Settings, ps: seq<Payload>, store: Store, k: nat)
    requires k < |ps| && ps[k].id !in store
    requires ps[k].op != Delete || !PreResolved(ps[k])
    ensures Verdict(Translate(s, ps[k], store)) == Rejected
    ensures Drain(s, ps, store) == Drain(s, ps[..k] + ps[k + 1..], store)
  {
    var os := Outcomes(s, ps, store);
    CollectSkipsRejected(os, k);
    OutcomesRemove(s, ps, store, k);
  }

  /** The end-to-end example: an index request for record "42" at revision 3,
      whose schema maps to index "articles" and document type "article",
      drains to a single index action with version 3 and version type
      "external_gte". */
  lemma ArticleExample(body: map<string, Json>, prepare: Record -> Json)
    requires "$schema" in body && body["$schema"] == JStr("records/article-v1.0.0.json")
    ensures var app := App(j => if j == JStr("records/article-v1.0.0.json") then ("articles", "article") else ("", ""),
                           "records", "record", prepare);
      var record := Record("42", 3, body);
      var s := Settings(EffectiveVersionType(None), EffectiveResolver(app, None), prepare);
      Drain(s, Requests(["42"], Index, None, None), map["42" := record])
        == [Action(Index, "articles", "article", "42", Some(3), Some("external_gte"), Some(prepare(record)))]
  {
    var app := App(j => if j == JStr("records/article-v1.0.0.json") then ("articles", "article") else ("", ""),
                   "records", "record", prepare);
    var record := Record("42", 3, body);
    var s := Settings(EffectiveVersionType(None), EffectiveResolver(app, None), prepare);
    var ps := Requests(["42"], Index, None, None);
    assert RecordToIndex(app, record) == Target("articles", "article");
    CollectAllOk(Outcomes(s, ps, map["42" := record]));
  }
}
