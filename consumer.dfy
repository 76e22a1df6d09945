/** The consumer side: delivered messages with their acknowledgement state,
    and the specification of draining a sequence of them into bulk actions. */
module Consumer {
  import opened Records
  import opened Translator

  datatype MessageState = Received | Acked | Rejected

  /** A delivered message. It may be settled once: acknowledging or
      rejecting a message that is already settled is an error of the
      transport, so both operations demand a message still in Received. */
  class Message {
    const payload: Payload
    var state: MessageState

    constructor (payload: Payload)
      ensures this.payload == payload && state == Received
    {
      this.payload := payload;
      state := Received;
    }

    method Ack()
      requires state == Received
      modifies this
      ensures state == Acked
    {
      state := Acked;
    }

    method Reject()
      requires state == Received
      modifies this
      ensures state == Rejected
    {
      state := Rejected;
    }
  }

  /** The payloads of a sequence of delivered messages. */
  function PayloadsOf(messages: seq<Message>): (ps: seq<Payload>)
    ensures |ps| == |messages|
    ensures forall k :: 0 <= k < |messages| ==> ps[k] == messages[k].payload
  {
    seq(|messages|, k requires 0 <= k < |messages| => messages[k].payload)
  }

  /** How a message ends up once its payload is translated: acknowledged
      when an action was produced for it, rejected when the record lookup
      failed; never left unsettled. */
  function Verdict(o: Outcome<Action>): (v: MessageState)
    ensures v != Received
    ensures v == Acked <==> o.Ok?
    ensures v == Rejected <==> o.NoResultFound?
  {
    if o.Ok? then Acked else Rejected
  }

  /** The actions produced for one message: one, or none when it is rejected. */
  function Emitted(o: Outcome<Action>): seq<Action>
  {
    if o.Ok? then [o.value] else []
  }

  /** The translation of each delivered payload, in delivery order. */
  function Outcomes(s: Settings, ps: seq<Payload>, store: Store): (os: seq<Outcome<Action>>)
    ensures |os| == |ps|
    ensures forall k :: 0 <= k < |ps| ==> os[k] == Translate(s, ps[k], store)
  {
    seq(|ps|, k requires 0 <= k < |ps| => Translate(s, ps[k], store))
  }

  /** The number of acknowledged messages among those with outcomes os. */
  function AckedCount(os: seq<Outcome<Action>>): (n: nat)
    ensures n <= |os|
  {
    if os == [] then 0
    else AckedCount(os[..|os| - 1]) + (if Verdict(os[|os| - 1]) == Acked then 1 else 0)
  }

  /** The actions emitted for messages with outcomes os, in delivery order;
      there is one per acknowledged message. */
  function Collect(os: seq<Outcome<Action>>): (actions: seq<Action>)
    ensures |actions| == AckedCount(os)
  {
    if os == [] then []
    else Collect(os[..|os| - 1]) + Emitted(os[|os| - 1])
  }

  /** The bulk actions that draining the payloads ps produces. */
  function Drain(s: Settings, ps: seq<Payload>, store: Store): (actions: seq<Action>)
    ensures |actions| == AckedCount(Outcomes(s, ps, store)) <= |ps|
  {
    Collect(Outcomes(s, ps, store))
  }

  /** Settling one more message appends that message's action, if any. */
  lemma CollectStep(os: seq<Outcome<Action>>, i: nat)
    requires i < |os|
    ensures Collect(os[..i + 1]) == Collect(os[..i]) + Emitted(os[i])
  {
    assert os[..i + 1][..i] == os[..i];
  }

  /** The acknowledged count never decreases along a prefix. */
  lemma {:induction false} AckedCountMonotone(os: seq<Outcome<Action>>, i: nat, j: nat)
    requires i <= j <= |os|
    ensures AckedCount(os[..i]) <= AckedCount(os[..j])
    decreases j - i
  {
    if i < j {
      assert os[..j][..j - 1] == os[..j - 1];
      AckedCountMonotone(os, i, j - 1);
    }
  }

  /** An acknowledged message at position k yields the action at position
      "number of acknowledged messages before k". */
  lemma {:induction false} CollectAt(os: seq<Outcome<Action>>, k: nat)
    requires k < |os| && os[k].Ok?
    ensures AckedCount(os[..k]) < |Collect(os)|
    ensures Collect(os)[AckedCount(os[..k])] == os[k].value
  {
    var init := os[..|os| - 1];
    if k == |os| - 1 {
      assert os[..k] == init;
    } else {
      assert init[..k] == os[..k];
      CollectAt(init, k);
    }
  }

  /** Every action collected comes from some acknowledged message, at the
      position CollectAt gives. */
  lemma {:induction false} CollectCovers(os: seq<Outcome<Action>>, j: nat)
    requires j < |Collect(os)|
    ensures exists k :: 0 <= k < |os| && os[k].Ok? && AckedCount(os[..k]) == j
  {
    var n := |os|;
    var init := os[..n - 1];
    if j < |Collect(init)| {
      CollectCovers(init, j);
      var k :| 0 <= k < |init| && init[k].Ok? && AckedCount(init[..k]) == j;
      assert init[..k] == os[..k];
    } else {
      assert os[..n - 1] == init;
    }
  }

  /** Collecting two runs of outcomes one after the other. */
  lemma {:induction false} CollectSplit(os1: seq<Outcome<Action>>, os2: seq<Outcome<Action>>)
    ensures Collect(os1 + os2) == Collect(os1) + Collect(os2)
    decreases |os2|
  {
    if os2 == [] {
      assert os1 + os2 == os1;
    } else {
      var n := |os2|;
      assert (os1 + os2)[..|os1 + os2| - 1] == os1 + os2[..n - 1];
      CollectSplit(os1, os2[..n - 1]);
    }
  }

  /** When every message is acknowledged, the actions are exactly the
      outcomes' values, in order. */
  lemma {:induction false} CollectAllOk(os: seq<Outcome<Action>>)
    requires forall k :: 0 <= k < |os| ==> os[k].Ok?
    ensures Collect(os) == seq(|os|, k requires 0 <= k < |os| && os[k].Ok? => os[k].value)
  {
    if os != [] {
      CollectAllOk(os[..|os| - 1]);
    }
  }

  /** Draining two runs of payloads one after the other. */
  lemma DrainSplit(s: Settings, ps1: seq<Payload>, ps2: seq<Payload>, store: Store)
    ensures Drain(s, ps1 + ps2, store) == Drain(s, ps1, store) + Drain(s, ps2, store)
  {
    var os1, os2 := Outcomes(s, ps1, store), Outcomes(s, ps2, store);
    forall k | 0 <= k < |ps1 + ps2|
      ensures Outcomes(s, ps1 + ps2, store)[k] == (os1 + os2)[k]
    {
      if k < |ps1| {
        assert (ps1 + ps2)[k] == ps1[k];
      } else {
        assert (ps1 + ps2)[k] == ps2[k - |ps1|];
      }
    }
    assert Outcomes(s, ps1 + ps2, store) == os1 + os2;
    CollectSplit(os1, os2);
  }

  /** A rejected message contributes nothing: collecting without it gives
      the same actions. */
  lemma CollectSkipsRejected(os: seq<Outcome<Action>>, k: nat)
    requires k < |os| && os[k].NoResultFound?
    ensures Collect(os) == Collect(os[..k] + os[k + 1..])
  {
    var pre, x, post := os[..k], os[k], os[k + 1..];
    assert os == pre + ([x] + post);
    assert [x][..0] == [];
    assert Collect([x]) == [];
    CollectSplit(pre, [x] + post);
    CollectSplit([x], post);
    CollectSplit(pre, post);
  }

  /** Removing a payload removes its outcome. */
  lemma OutcomesRemove(s: Settings, ps: seq<Payload>, store: Store, k: nat)
    requires k < |ps|
    ensures Outcomes(s, ps[..k] + ps[k + 1..], store) == Outcomes(s, ps, store)[..k] + Outcomes(s, ps, store)[k + 1..]
  {
    var os, rest := Outcomes(s, ps, store), ps[..k] + ps[k + 1..];
    forall j | 0 <= j < |rest|
      ensures Outcomes(s, rest, store)[j] == (os[..k] + os[k + 1..])[j]
    {
      if j < k {
        assert rest[j] == ps[j];
      } else {
        assert rest[j] == ps[j + 1];
      }
    }
  }

  /** Drained actions follow message order: an acknowledged message at
      position k gives the action placed after those of the acknowledged
      messages before it, and of two acknowledged messages the earlier one's
      action comes first. */
  lemma DrainPreservesOrder(s: Settings, ps: seq<Payload>, store: Store, i: nat, j: nat)
    requires i < j < |ps|
    requires Translate(s, ps[i], store).Ok? && Translate(s, ps[j], store).Ok?
    ensures var os := Outcomes(s, ps, store);
      && AckedCount(os[..i]) < AckedCount(os[..j]) < |Drain(s, ps, store)|
      && Drain(s, ps, store)[AckedCount(os[..i])] == Translate(s, ps[i], store).value
      && Drain(s, ps, store)[AckedCount(os[..j])] == Translate(s, ps[j], store).value
  {
    var os := Outcomes(s, ps, store);
    CollectAt(os, i);
    CollectAt(os, j);
    assert os[..i + 1][..i] == os[..i];
    AckedCountMonotone(os, i + 1, j);
  }

  /** Every drained action is the action of some acknowledged message. */
  lemma DrainOnlyFromAcked(s: Settings, ps: seq<Payload>, store: Store, j: nat)
    requires j < |Drain(s, ps, store)|
    ensures exists k :: 0 <= k < |ps| && Translate(s, ps[k], store).Ok? && Drain(s, ps, store)[j] == Translate(s, ps[k], store).value
  {
    var os := Outcomes(s, ps, store);
    CollectCovers(os, j);
    var k :| 0 <= k < |os| && os[k].Ok? && AckedCount(os[..k]) == j;
    CollectAt(os, k);
  }
}
