/** The buffers messages are written to before they are sent. A message too long for one is not sent. */
module OutputBuffers {
  import opened FlightVarTypes
  import opened Codec
  import S = ServerModel
  import Numerals

  const OUTPUT_SIZE := 1024

  predicate Fits(msg: Message) { |Encode(msg)| <= OUTPUT_SIZE }

  /** The messages that fit, in the same order. */
  function Written(msgs: seq<Message>): seq<Message>
    decreases |msgs|
  {
    if msgs == [] then []
    else
      var last := msgs[|msgs| - 1];
      Written(msgs[..|msgs| - 1]) + if Fits(last) then [last] else []
  }

  function Length(v: VarId): nat { |v.group| + |v.name| }

  // the longest variables for which each kind of message is sent
  const LONGEST_REQUESTED := 1016
  const LONGEST_GRANTED := 1009
  const LONGEST_REFUSED := 982
  const LONGEST_REJECTED := 947

  lemma WrittenAppend(msgs: seq<Message>, msg: Message)
    ensures Written(msgs + [msg]) == if Fits(msg) then Written(msgs) + [msg] else Written(msgs)
  {
    assert (msgs + [msg])[..|msgs|] == msgs;
  }

  lemma WrittenNothing()
    ensures Written([]) == []
  {
  }

  lemma WrittenOne(msg: Message)
    ensures Written([msg]) == if Fits(msg) then [msg] else []
  {
    assert [msg][..0] == [] && Written([]) == [];
  }

  lemma WrittenMore(msgs: seq<Message>, out: seq<Message>)
    requires |out| <= 1
    ensures Written(msgs + out) == Written(msgs) + Written(out)
  {
    if out == [] {
      assert msgs + out == msgs;
    } else {
      assert out == [out[0]];
      WrittenAppend(msgs, out[0]);
      WrittenOne(out[0]);
    }
  }

  /** What is written is what was to be written and fits. */
  lemma {:induction false} WrittenFits(msgs: seq<Message>, msg: Message)
    ensures msg in Written(msgs) <==> msg in msgs && Fits(msg)
    decreases |msgs|
  {
    hide Fits;
    if msgs != [] {
      var front := msgs[..|msgs| - 1];
      WrittenFits(front, msg);
      assert msgs == front + [msgs[|msgs| - 1]];
    }
  }

  // ----- which messages fit

  lemma SubscriptionReplyFits(status: Status, v: VarId, id: SubsId, cause: Text)
    ensures Fits(SubscriptionReply(status, v, id, cause)) <==> Length(v) + |cause| <= LONGEST_GRANTED
  {
  }

  lemma RequestFits(v: VarId)
    ensures Fits(SubscriptionRequest(v)) <==> Length(v) <= LONGEST_REQUESTED
  {
  }

  /** What the reply to a subscription says decides for which variables it is sent. */
  lemma RepliesFit(s: S.Server, v: VarId, known: bool)
    ensures Fits(S.OnSubscription(s, v, known).1) <==>
            Length(v) <= if v in s.mapper then LONGEST_REFUSED else if known then LONGEST_GRANTED else LONGEST_REJECTED
  {
    hide Fits;
    var reply := S.OnSubscription(s, v, known).1;
    SubscriptionReplyFits(reply.status, v, reply.id, reply.cause);
  }

  /** Messages without a text always fit. */
  lemma ShortMessagesFit(m: SubsId, value: Value)
    ensures Fits(UnsubscriptionRequest(m)) && Fits(VarUpdate(m, value))
    ensures Fits(UnsubscriptionReply(Unsubscribed, m, []))
  {
  }

  /** Replies to unsubscriptions are never lost. */
  lemma UnsubscriptionRepliesFit(s: S.Server, m: SubsId)
    requires m < 0x1_0000_0000
    ensures Fits(S.OnUnsubscription(s, m).1)
  {
    assert Numerals.Power(10, 10) == 10_000_000_000;
    Numerals.PrintLength(m, 10, false, 10);
  }
}
