/**
 * saveNewMessagesToDgraph: the list of JSON "set" objects written in one
 * mutation, an upsert of the session node followed by, for each new message,
 * the message node and the edge from the session to it.
 */
module Mutations {
  import opened Wrappers
  import opened Messages
  import opened Strings

  const SessionBlankNode: string := "_:session"
  const ChatSessionType: string := "ChatSession"

  /** The blank node naming the i-th new message, `_:msg<i>`. */
  function MessageBlankNode(i: nat): (name: string)
    ensures |name| > 5 && name[..5] == "_:msg"
    ensures forall k :: 5 <= k < |name| ==> IsDigit(name[k])
  {
    "_:msg" + NatToDecimal(i)
  }

  /** One object of the mutation's SetJson array. */
  datatype SetObject =
    | SessionUpsert(uid: string, sessionID: string, dgraphType: string)
    | MessageObject(uid: string, dgraphType: string, role: string, content: string,
                    timestamp: Timestamp, inSession: string)
    | SessionLink(uid: string, hasMessage: string)

  /** The node written for the i-th new message, pointing back at the session. */
  function MessageObjectFor(i: nat, m: DgraphChatMessage): (o: SetObject)
    ensures o.MessageObject? && o.uid == MessageBlankNode(i) && o.dgraphType == ChatMessageType
    ensures o.role == m.role && o.content == m.content && o.timestamp == m.timestamp
    ensures o.inSession == SessionBlankNode
  {
    MessageObject(MessageBlankNode(i), ChatMessageType, m.role, m.content, m.timestamp, SessionBlankNode)
  }

  /** `objs` is the set payload for writing `msgs` under `sessionID`. */
  predicate IsSetPayload(sessionID: string, msgs: seq<DgraphChatMessage>, objs: seq<SetObject>) {
    && |objs| == 1 + 2 * |msgs|
    && objs[0] == SessionUpsert(SessionBlankNode, sessionID, ChatSessionType)
    && forall i :: 0 <= i < |msgs| ==>
         && objs[1 + 2 * i] == MessageObjectFor(i, msgs[i])
         && objs[2 + 2 * i] == SessionLink(SessionBlankNode, MessageBlankNode(i))
  }

  /** The loop that accumulates `dgraphMutations`. */
  method BuildSetPayload(sessionID: string, newMessages: seq<DgraphChatMessage>) returns (objs: seq<SetObject>)
    ensures IsSetPayload(sessionID, newMessages, objs)
  {
    objs := [SessionUpsert(SessionBlankNode, sessionID, ChatSessionType)];
    for i := 0 to |newMessages|
      invariant IsSetPayload(sessionID, newMessages[..i], objs)
    {
      var msg := newMessages[i];
      var messageBlankNode := MessageBlankNode(i);
      objs := objs + [MessageObject(messageBlankNode, ChatMessageType, msg.role, msg.content,
                                    msg.timestamp, SessionBlankNode)];
      objs := objs + [SessionLink(SessionBlankNode, messageBlankNode)];
    }
    assert newMessages[..|newMessages|] == newMessages;
  }

  /**
   * saveNewMessagesToDgraph given the store's verdict on the mutation: the
   * payload sent, and an error exactly when the store reported one.
   */
  method SaveNewMessages(sessionID: string, newMessages: seq<DgraphChatMessage>, storeError: Option<string>)
    returns (err: Option<string>, sent: seq<SetObject>)
    ensures IsSetPayload(sessionID, newMessages, sent)
    ensures err.Some? <==> storeError.Some?
    ensures storeError.Some? ==>
      err.value == "dgraph.ExecuteMutations failed for session " + sessionID + ": " + storeError.value
  {
    sent := BuildSetPayload(sessionID, newMessages);
    if storeError.Some? {
      err := Some("dgraph.ExecuteMutations failed for session " + sessionID + ": " + storeError.value);
    } else {
      err := None;
    }
  }

  /** Blank node names never clash: one per message index, none equal to the session's. */
  lemma BlankNodesDistinct(i: nat, j: nat)
    ensures MessageBlankNode(i) != SessionBlankNode
    ensures MessageBlankNode(i) == MessageBlankNode(j) ==> i == j
  {
    assert MessageBlankNode(i)[2] == 'm' && SessionBlankNode[2] == 's';
    if MessageBlankNode(i) == MessageBlankNode(j) {
      assert NatToDecimal(i) == MessageBlankNode(i)[5..];
      assert NatToDecimal(j) == MessageBlankNode(j)[5..];
      NatToDecimalInjective(i, j);
    }
  }

  /**
   * In a set payload every message node has its own name, none is the session's,
   * and each link edge names the message node written just before it.
   */
  lemma PayloadLinksResolve(sessionID: string, msgs: seq<DgraphChatMessage>, objs: seq<SetObject>, i: nat, j: nat)
    requires IsSetPayload(sessionID, msgs, objs)
    requires i < |msgs| && j < |msgs|
    ensures objs[1 + 2 * i].uid != objs[0].uid
    ensures objs[1 + 2 * i].uid == objs[1 + 2 * j].uid ==> i == j
    ensures objs[2 + 2 * i].SessionLink? && objs[2 + 2 * i].uid == objs[0].uid
    ensures objs[2 + 2 * i].hasMessage == objs[1 + 2 * i].uid
  {
    BlankNodesDistinct(i, j);
  }

  /** The fields of a message that the store keeps. */
  datatype Turn = Turn(role: string, content: string, timestamp: Timestamp)

  function TurnOf(m: DgraphChatMessage): Turn {
    Turn(m.role, m.content, m.timestamp)
  }

  function TurnsOf(msgs: seq<DgraphChatMessage>): (ts: seq<Turn>)
    ensures |ts| == |msgs| && forall i :: 0 <= i < |msgs| ==> ts[i] == TurnOf(msgs[i])
  {
    seq(|msgs|, i requires 0 <= i < |msgs| => TurnOf(msgs[i]))
  }

  /** The messages a payload creates, in the order their nodes appear. */
  function StoredTurns(objs: seq<SetObject>): seq<Turn>
    decreases |objs|
  {
    if objs == [] then []
    else
      StoredTurns(objs[..|objs| - 1]) +
        match objs[|objs| - 1]
        case MessageObject(_, _, role, content, timestamp, _) => [Turn(role, content, timestamp)]
        case _ => []
  }

  lemma StoredTurnsSnoc(objs: seq<SetObject>, o: SetObject)
    ensures StoredTurns(objs + [o]) == StoredTurns(objs) + match o
      case MessageObject(_, _, role, content, timestamp, _) => [Turn(role, content, timestamp)]
      case _ => []
  {
    assert (objs + [o])[..|objs|] == objs;
  }

  /** A set payload for n + 1 messages is one for the first n followed by the last message's two objects. */
  lemma PayloadSplitLast(sessionID: string, msgs: seq<DgraphChatMessage>, objs: seq<SetObject>)
    requires IsSetPayload(sessionID, msgs, objs) && msgs != []
    ensures IsSetPayload(sessionID, msgs[..|msgs| - 1], objs[..|objs| - 2])
    ensures objs == objs[..|objs| - 2] + [objs[|objs| - 2]] + [objs[|objs| - 1]]
    ensures objs[|objs| - 2] == MessageObjectFor(|msgs| - 1, msgs[|msgs| - 1])
  {
    var n := |msgs| - 1;
    assert 1 + 2 * n == |objs| - 2;
  }

  lemma TurnsOfSnoc(msgs: seq<DgraphChatMessage>)
    requires msgs != []
    ensures TurnsOf(msgs) == TurnsOf(msgs[..|msgs| - 1]) + [TurnOf(msgs[|msgs| - 1])]
  {
  }

  /** A payload creates exactly the messages it was built from, in order, with their role, content and time. */
  lemma {:induction false} PayloadRoundTrip(sessionID: string, msgs: seq<DgraphChatMessage>, objs: seq<SetObject>)
    requires IsSetPayload(sessionID, msgs, objs)
    ensures StoredTurns(objs) == TurnsOf(msgs)
    decreases |msgs|
  {
    if msgs == [] {
      assert objs == [] + [objs[0]];
      StoredTurnsSnoc([], objs[0]);
    } else {
      var shorter := objs[..|objs| - 2];
      PayloadSplitLast(sessionID, msgs, objs);
      PayloadRoundTrip(sessionID, msgs[..|msgs| - 1], shorter);
      StoredTurnsSnoc(shorter, objs[|objs| - 2]);
      StoredTurnsSnoc(shorter + [objs[|objs| - 2]], objs[|objs| - 1]);
      TurnsOfSnoc(msgs);
    }
  }
}
