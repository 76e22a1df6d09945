/** The request channel: the queue requests are published to, and the
    requests a bulk operation publishes. */
module Publisher {
  import opened Records

  /** The requests a bulk operation publishes: one per record identifier, in
      the order given, each with the same operation and target. */
  function Requests(ids: seq<RecordId>, op: Op, index: Option<string>, doctype: Option<string>): (ps: seq<Payload>)
    ensures |ps| == |ids|
    ensures forall k :: 0 <= k < |ids| ==> ps[k] == Payload(ids[k], op, index, doctype)
  {
    seq(|ids|, k requires 0 <= k < |ids| => Payload(ids[k], op, index, doctype))
  }

  /** Requests for consecutive runs of identifiers are consecutive runs of
      requests. */
  lemma RequestsAppend(ids1: seq<RecordId>, ids2: seq<RecordId>, op: Op, index: Option<string>, doctype: Option<string>)
    ensures Requests(ids1 + ids2, op, index, doctype) == Requests(ids1, op, index, doctype) + Requests(ids2, op, index, doctype)
  {
    var lhs, rhs := Requests(ids1 + ids2, op, index, doctype), Requests(ids1, op, index, doctype) + Requests(ids2, op, index, doctype);
    assert |lhs| == |rhs|;
    forall k | 0 <= k < |lhs| ensures lhs[k] == rhs[k] {
      if k < |ids1| {
        assert (ids1 + ids2)[k] == ids1[k];
      } else {
        assert (ids1 + ids2)[k] == ids2[k - |ids1|];
      }
    }
  }

  /** The message queue, as the sequence of payloads published to it and not
      yet delivered. */
  class MessageQueue {
    var messages: seq<Payload>

    constructor ()
      ensures messages == []
    {
      messages := [];
    }

    /** Publish one payload at the end of the queue. */
    method Publish(p: Payload)
      modifies this
      ensures messages == old(messages) + [p]
    {
      messages := messages + [p];
    }

    /** Hand every queued payload to a consumer, in publication order. */
    method TakeAll() returns (ps: seq<Payload>)
      modifies this
      ensures ps == old(messages) && messages == []
    {
      ps := messages;
      messages := [];
    }
  }
}
