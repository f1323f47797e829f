/** The two clients of `Delivery` on the objects of `Handlers`: the receiver's handlers and the
    sender's calls and handlers do what the steps of `Delivery` say. */
module HeapDelivery {
  import opened Topics
  import opened Tokens
  import opened PacketIds
  import opened Handlers
  import opened Delivery

  // ----- The receiver -----

  /** The packet of each message, as it was sent. */
  type Contents = Msg -> PublishPacket

  /** The cache holds the packets of the pending messages. */
  ghost predicate PendingShown(cache: map<U16, PublishPacket>, content: Contents, pending: map<U16, Msg>) {
    cache.Keys == pending.Keys && forall id :: id in pending ==> cache[id] == content(pending[id])
  }

  /** Every matching subscription's handler was invoked with the message, in order. */
  ghost predicate Invoked(before: seq<Dispatch>, after: seq<Dispatch>, matching: seq<Subscription>,
                          message: PublishPacket)
  {
    && |after| == |before| + |matching| && before <= after
    && forall i :: 0 <= i < |matching| ==> after[|before| + i] == Dispatch(matching[i].handler, message)
  }

  function Sent(response: Option<Response>): Option<Packet> {
    if response.Some? then Some(Resp(response.value)) else None
  }

  method ReceivePublish(st: State, content: Contents, ghost c: Core, m: Msg) returns (response: Option<Response>)
    requires st.Valid() && PendingShown(st.pendingPackets, content, c.pending)
    modifies st`dispatched, st`pendingPackets
    ensures var (d, r) := Receive(c, Pub(m, content(m).qos));
            && st.Valid() && PendingShown(st.pendingPackets, content, d.pending) && Sent(response) == r
            && (d.dispatched == c.dispatched || d.dispatched == c.dispatched + [m])
            && (d.dispatched == c.dispatched ==> st.dispatched == old(st.dispatched))
            && (d.dispatched == c.dispatched + [m] ==>
                  Invoked(old(st.dispatched), st.dispatched, old(st.Matching(content(m).topicName)), content(m)))
  {
    response := st.HandlePublish(content(m));
    assert |c.dispatched + [m]| == |c.dispatched| + 1;
  }

  method ReceivePubrel(st: State, content: Contents, ghost c: Core, id: U16) returns (response: Response)
    requires st.Valid() && PendingShown(st.pendingPackets, content, c.pending)
    modifies st`dispatched, st`pendingPackets
    ensures var (d, r) := Receive(c, Resp(Pubrel(id)));
            && st.Valid() && PendingShown(st.pendingPackets, content, d.pending) && r == Some(Resp(response))
            && (id !in c.pending ==> d.dispatched == c.dispatched && st.dispatched == old(st.dispatched))
            && (id in c.pending ==>
                  var m := c.pending[id];
                  && d.dispatched == c.dispatched + [m]
                  && Invoked(old(st.dispatched), st.dispatched, old(st.Matching(content(m).topicName)), content(m)))
  {
    response := st.HandlePubrel(id);
  }

  // ----- The sender -----

  predicate Distinct(objs: seq<Token>) {
    forall q, r :: 0 <= q < r < |objs| ==> objs[q] != objs[r]
  }

  /** `objs[m]` is the token of message `m`; the other holders are tokens of another kind. */
  ghost predicate HoldersShown(table: Ids<Token>, objs: seq<Token>, ids: Ids<Holder>) {
    && table.cursor == ids.cursor && table.index.Keys == ids.index.Keys
    && forall id :: id in ids.index ==>
         match ids.index[id]
         case OfMsg(m) => m < |objs| && table.index[id] == objs[m]
         case OfOther => table.index[id] !in objs
  }

  ghost predicate RecordsShown(objs: seq<Token>, records: seq<Record>)
    reads objs
  {
    && |objs| == |records|
    && forall m :: 0 <= m < |objs| ==> objs[m].complete == records[m].complete && objs[m].error == records[m].error
  }

  ghost predicate SenderShown(table: PacketIdTable, objs: seq<Token>, c: Core)
    reads table, objs
  {
    Distinct(objs) && HoldersShown(table.View(), objs, c.ids) && RecordsShown(objs, c.records)
  }

  /** PUBACK and PUBCOMP. */
  method AnswerAck(st: State, objs: seq<Token>, ghost c: Core, id: U16)
    requires SenderShown(st.packetIds, objs, c)
    modifies st.packetIds
    modifies st.packetIds.index.Values`complete, st.packetIds.index.Values`waker, st.packetIds.index.Values`woken
    ensures SenderShown(st.packetIds, objs, Answer(c, Resp(Puback(id))).0)
    ensures SenderShown(st.packetIds, objs, Answer(c, Resp(Pubcomp(id))).0)
    ensures Answer(c, Resp(Puback(id))).1 == Answer(c, Resp(Pubcomp(id))).1 == None
  {
    ghost var d := Ack(c, id);
    st.HandleAck(id);
    assert HoldersShown(st.packetIds.View(), objs, d.ids);
    forall m | 0 <= m < |objs|
      ensures objs[m].complete == d.records[m].complete && objs[m].error == d.records[m].error
    {
    }
  }

  /** PUBREC. */
  lemma AnswerPubrec(c: Core, id: U16)
    ensures Answer(c, Resp(Pubrec(id))) == (c, Some(Resp(State.HandlePubrec(id)))) == (c, Some(Resp(Pubrel(id))))
  {
  }

  /** The clean-up at the end of the session. */
  method EndStep(table: PacketIdTable, objs: seq<Token>, ghost c: Core)
    requires SenderShown(table, objs, c)
    modifies table
    modifies table.index.Values`complete, table.index.Values`error, table.index.Values`waker, table.index.Values`woken
    ensures SenderShown(table, objs, EndSession(c))
  {
    ghost var before, d := table.View(), EndSession(c);
    table.CleanUp();
    forall m | 0 <= m < |objs|
      ensures objs[m].complete == d.records[m].complete && objs[m].error == d.records[m].error
    {
      HeldAlike(before, objs, c.ids, m);
    }
  }

  lemma HeldAlike(table: Ids<Token>, objs: seq<Token>, ids: Ids<Holder>, m: nat)
    requires HoldersShown(table, objs, ids) && Distinct(objs) && m < |objs|
    ensures objs[m] in table.index.Values <==> OfMsg(m) in ids.index.Values
  {
    if objs[m] in table.index.Values {
      var id :| id in table.index && table.index[id] == objs[m];
      assert id in ids.index && objs[m] in objs;
    }
    if OfMsg(m) in ids.index.Values {
      var id :| id in ids.index && ids.index[id] == OfMsg(m);
      assert table.index[id] == objs[m];
    }
  }

  /** A publish call: a new token, its identifier, and what becomes of the packet. */
  method PublishStep(table: PacketIdTable, objs: seq<Token>, ghost c: Core, qos: Qos, fate: Fate)
    returns (more: seq<Token>, id: U16, queued: bool)
    requires SenderShown(table, objs, c) && |c.published| == |c.records|
    modifies table
    ensures SenderShown(table, more, PublishCall(c, qos, fate).0) && |more| == |objs| + 1
    ensures PublishCall(c, qos, fate).1 == if queued then Some(Pub(|objs|, QosFor(qos, id))) else None
  {
    var token := new Token(Publish);
    more := objs + [token];
    ghost var m := |objs|;
    AddedShown(table.View(), objs, c.ids, token);
    id, queued := 0, false;
    if !qos.Level0? {
      IssuedShown(table.View(), more, c.ids, m);
      ghost var probed;
      id, probed := table.GetId(token);
    }
    queued := Conclude(token, !qos.Level0? && id == 0, fate);
    assert forall k :: 0 <= k < m ==> more[k] == objs[k];
  }

  /** How the call ends once it has its identifier, or none. */
  method Conclude(token: Token, without: bool, fate: Fate) returns (queued: bool)
    requires !token.complete && token.error == None
    modifies token
    ensures queued <==> !without && fate.Queued?
    ensures token.complete == !queued
    ensures token.error == if without then Some(PacketIdError)
                           else match fate
                                case BadTopic => Some(InvalidTopic)
                                case NoWriter => Some(InternalServerError)
                                case Queued => None
  {
    queued := false;
    if without {
      token.SetError(PacketIdError);
    } else {
      match fate
      case BadTopic => token.SetError(InvalidTopic);
      case NoWriter => token.SetError(InternalServerError);
      case Queued => queued := true;
    }
  }

  lemma AddedShown(table: Ids<Token>, objs: seq<Token>, ids: Ids<Holder>, token: Token)
    requires HoldersShown(table, objs, ids) && Distinct(objs) && token !in objs && token !in table.index.Values
    ensures HoldersShown(table, objs + [token], ids) && Distinct(objs + [token])
  {
  }

  lemma IssuedShown(table: Ids<Token>, objs: seq<Token>, ids: Ids<Holder>, m: nat)
    requires HoldersShown(table, objs, ids) && m < |objs|
    ensures NextId(table) == NextId(ids)
    ensures HoldersShown(WithIssued(table, objs[m]), objs, WithIssued(ids, OfMsg(m)))
  {
    FirstFreeAlike(table.index, ids.index, table.cursor, 1);
  }
}
