/** What the QoS 1 and 2 handshakes of `Delivery` guarantee: success means delivery. */
module Handshake {
  import opened Topics
  import opened Tokens
  import opened PacketIds
  import opened Handlers
  import opened Delivery

  // ----- Exactly once: as long as no identifier in flight is issued again -----

  ghost predicate Carried(n: Net, id: U16) {
    exists p :: InFlight(n, p) && IdOf(p) == id
  }

  /** The step does not issue an identifier that a packet in flight carries. */
  ghost predicate Careful(n: Net, a: Action) {
    (a.TakeOther? || (a.PublishMsg? && !a.qos.Level0?)) && NextId(n.core.ids) != 0 ==>
      !Carried(n, NextId(n.core.ids))
  }

  ghost predicate IsCarefulRun(run: seq<Net>, actions: seq<Action>) {
    IsRun(run, actions) && forall i :: 0 <= i < |actions| ==> Careful(run[i], actions[i])
  }

  /** No packet is in flight twice, and no two packets in flight share an identifier. */
  ghost predicate Single(n: Net) {
    && (forall p :: n.toReceiver[p] + n.toSender[p] <= 1)
    && (forall p, q :: InFlight(n, p) && InFlight(n, q) && IdOf(p) == IdOf(q) != 0 ==> p == q)
  }

  /** PUBLISH and PUBREL travel to the receiver, the other packets to the sender; all but QoS 0
      carry an identifier. */
  ghost predicate Directed(n: Net) {
    && (forall p :: p in n.toReceiver ==> p.Pub? || p.response.Pubrel?)
    && (forall p :: p in n.toSender ==> p.Resp? && !p.response.Pubrel?)
    && (forall p :: InFlight(n, p) && !(p.Pub? && p.qos.Qos0?) ==> IdOf(p) != 0)
  }

  /** What a packet in flight says about the message that holds its identifier, if the
      identifier is held at all. */
  ghost predicate FlightMeans(n: Net) {
    forall p :: InFlight(n, p) ==> Means(n.core, p)
  }

  ghost predicate Means(c: Core, p: Packet) {
    && (IdOf(p) != 0 && IdOf(p) in c.ids.index ==>
          c.ids.index[IdOf(p)].OfMsg? && Says(c, p, c.ids.index[IdOf(p)].msg))
    && (IdOf(p) != 0 && p.Pub? && p.msg in c.current ==> IdOf(p) in c.ids.index)
  }

  ghost predicate Says(c: Core, p: Packet, m: Msg) {
    match p
    case Pub(x, _) => x == m
    case Resp(Puback(_)) => Times(c, m) == 1
    case Resp(Pubrec(id)) => m in c.expired || (id in c.pending && c.pending[id] == m)
    case Resp(Pubrel(id)) => m in c.expired || (id in c.pending && c.pending[id] == m)
    case Resp(Pubcomp(_)) => m in c.expired || Times(c, m) == 1
  }

  /** The token of a QoS 1 or 2 message is complete without error. */
  predicate Succeeded(c: Core, m: Msg) {
    && m < |c.published| && m < |c.records| && !c.published[m].Level0?
    && c.records[m].complete && c.records[m].error == None
  }

  /** An acknowledged message was dispatched, unless it expired; success of an identified
      message is only ever reported by an acknowledgement. */
  ghost predicate AcksMeanDelivery(c: Core) {
    && (forall m :: m in c.acked ==> m < |c.records| && (Times(c, m) == 1 || m in c.expired))
    && (forall m :: Succeeded(c, m) ==> m in c.acked)
  }

  /** An identifier whose pending message belongs to this session is held for that message. */
  ghost predicate PendingHeld(c: Core) {
    forall id :: id in c.pending && c.pending[id] in c.current ==>
      id in c.ids.index && c.ids.index[id] == OfMsg(c.pending[id])
  }

  ghost predicate IdsKnown(c: Core) {
    forall id :: id in c.ids.index ==> id != 0 && (c.ids.index[id].OfMsg? ==> c.ids.index[id].msg < |c.records|)
  }

  ghost predicate CoreInv(c: Core) {
    Once(c) && IdsKnown(c) && AcksMeanDelivery(c) && PendingHeld(c)
  }

  ghost predicate Inv(n: Net) {
    PubsOnce(n) && Single(n) && Directed(n) && FlightMeans(n) && CoreInv(n.core)
  }

  // ----- The links -----

  /** The links after the receiver took `p` and responded under the same identifier. */
  lemma ForwardFlight(n: Net, p: Packet, r: Option<Packet>, d: Net)
    requires Single(n) && Directed(n) && p in n.toReceiver
    requires d.toReceiver == n.toReceiver - multiset{p} && d.toSender == n.toSender + Bag(r)
    requires r.Some? ==> r.value.Resp? && !r.value.response.Pubrel? && IdOf(r.value) == IdOf(p) != 0
    ensures Single(d) && Directed(d)
    ensures forall q :: InFlight(d, q) ==> r == Some(q) || (InFlight(n, q) && q != p)
  {
    assert InFlight(n, p) && n.toReceiver[p] == 1;
    if r.Some? {
      assert !InFlight(n, r.value);
    }
    forall q ensures InFlight(d, q) ==> r == Some(q) || (InFlight(n, q) && q != p) {
    }
    forall q ensures d.toReceiver[q] + d.toSender[q] <= 1 {
      assert n.toReceiver[q] + n.toSender[q] <= 1;
    }
  }

  /** The links after the sender took `p` and responded under the same identifier, if at all. */
  lemma BackwardFlight(n: Net, p: Packet, r: Option<Packet>, d: Net)
    requires Single(n) && Directed(n) && p in n.toSender
    requires d.toReceiver == n.toReceiver + Bag(r) && d.toSender == n.toSender - multiset{p}
    requires r.Some? ==> r.value == Resp(Pubrel(IdOf(p)))
    ensures Single(d) && Directed(d)
    ensures forall q :: InFlight(d, q) ==> r == Some(q) || (InFlight(n, q) && q != p)
  {
    assert InFlight(n, p) && n.toSender[p] == 1 && IdOf(p) != 0;
    if r.Some? {
      assert !InFlight(n, r.value);
    }
    forall q ensures InFlight(d, q) ==> r == Some(q) || (InFlight(n, q) && q != p) {
    }
    forall q ensures d.toReceiver[q] + d.toSender[q] <= 1 {
      assert n.toReceiver[q] + n.toSender[q] <= 1;
    }
  }

  /** The links after losses. */
  lemma SmallerFlight(n: Net, d: Net)
    requires Single(n) && Directed(n) && d.toReceiver <= n.toReceiver && d.toSender <= n.toSender
    ensures Single(d) && Directed(d)
    ensures forall q :: InFlight(d, q) ==> InFlight(n, q)
  {
    forall q ensures d.toReceiver[q] <= n.toReceiver[q] && d.toSender[q] <= n.toSender[q] {
    }
    assert forall q :: InFlight(d, q) ==> InFlight(n, q);
  }

  /** The links after a publish call; the identifier of its packet is not in flight. */
  lemma PublishedFlight(n: Net, p: Option<Packet>, d: Net)
    requires Single(n) && Directed(n)
    requires d.toReceiver == n.toReceiver + Bag(p) && d.toSender == n.toSender
    requires p.Some? ==> p.value.Pub? && !InFlight(n, p.value)
    requires p.Some? && !p.value.qos.Qos0? ==> IdOf(p.value) != 0 && !Carried(n, IdOf(p.value))
    ensures Single(d) && Directed(d)
    ensures forall q :: InFlight(d, q) <==> InFlight(n, q) || p == Some(q)
  {
    forall q ensures InFlight(d, q) <==> InFlight(n, q) || p == Some(q) {
    }
    forall q ensures d.toReceiver[q] + d.toSender[q] <= 1 {
      assert n.toReceiver[q] + n.toSender[q] <= 1;
    }
    forall q | InFlight(n, q) && p.Some? && IdOf(q) == IdOf(p.value) ensures IdOf(q) == 0 {
      assert Carried(n, IdOf(p.value));
    }
  }

  // ----- The cores -----

  lemma DispatchCore(c: Core, m: Msg)
    requires CoreInv(c) && Undelivered(c, m)
    ensures CoreInv(Dispatched(c, m))
    ensures forall x :: Times(Dispatched(c, m), x) == Times(c, x) + if x == m then 1 else 0
  {
    DispatchOnce(c, m);
    assert forall x :: Succeeded(Dispatched(c, m), x) ==> Succeeded(c, x);
  }

  /** Dispatching a message does not disturb the other packets in flight. */
  lemma DispatchMeans(c: Core, m: Msg, q: Packet)
    requires CoreInv(c) && Undelivered(c, m) && Means(c, q)
    ensures Means(Dispatched(c, m), q)
  {
    DispatchOnce(c, m);
  }

  lemma DropCore(c: Core, id: U16)
    requires CoreInv(c) && id in c.pending
    ensures CoreInv(Dropped(c, id)) && Undelivered(Dropped(c, id), c.pending[id])
  {
    DropOnce(c, id);
    assert forall x :: Succeeded(Dropped(c, id), x) ==> Succeeded(c, x);
  }

  lemma DropMeans(c: Core, id: U16, q: Packet)
    requires Means(c, q) && id in c.pending && (q.Resp? ==> IdOf(q) != id)
    ensures Means(Dropped(c, id), q)
  {
    assert forall x :: Times(Dropped(c, id), x) == Times(c, x);
  }

  lemma ExpireCore(c: Core, id: U16)
    requires CoreInv(c) && id in c.pending
    ensures CoreInv(Dropped(c, id).(expired := c.expired + {c.pending[id]}))
  {
    var d, m := Dropped(c, id), c.pending[id];
    DropCore(c, id);
    ExpiredOnce(d, m);
    assert forall x :: Succeeded(d.(expired := d.expired + {m}), x) ==> Succeeded(d, x);
  }

  lemma ExpireMeans(c: Core, id: U16, q: Packet)
    requires id in c.pending && Means(c, q)
    ensures Means(Dropped(c, id).(expired := c.expired + {c.pending[id]}), q)
  {
    var d := Dropped(c, id).(expired := c.expired + {c.pending[id]});
    assert forall x :: Times(d, x) == Times(c, x);
  }

  lemma AckCore(c: Core, id: U16)
    requires CoreInv(c) && id in c.ids.index
    requires c.ids.index[id].OfMsg? ==>
               var m := c.ids.index[id].msg; Times(c, m) == 1 || m in c.expired
    ensures CoreInv(Ack(c, id))
  {
    var d := Ack(c, id);
    SameReceiverOnce(c, d);
    assert forall k :: k in c.pending ==> IsPending(c, c.pending[k]);
    assert forall x :: Succeeded(d, x) ==> Succeeded(c, x) || c.ids.index[id] == OfMsg(x);
  }

  lemma AckMeans(c: Core, id: U16, q: Packet)
    requires id in c.ids.index && Means(c, q) && IdOf(q) != id
    ensures Means(Ack(c, id), q)
  {
    assert forall x :: Times(Ack(c, id), x) == Times(c, x);
  }

  lemma EndCore(c: Core)
    requires CoreInv(c)
    ensures CoreInv(EndSession(c))
  {
    var d := EndSession(c);
    SameReceiverOnce(c, d);
    assert forall x :: Succeeded(d, x) ==> Succeeded(c, x);
  }

  // ----- Preservation -----

  lemma LoseInv(n: Net, left: multiset<Packet>, leftBack: multiset<Packet>)
    requires Inv(n) && Enabled(n, Lose(left, leftBack))
    ensures Inv(Next(n, Lose(left, leftBack)))
  {
    var d := Next(n, Lose(left, leftBack));
    StepOnce(n, Lose(left, leftBack));
    SmallerFlight(n, d);
  }

  lemma SessionEndInv(n: Net, left: multiset<Packet>, leftBack: multiset<Packet>)
    requires Inv(n) && Enabled(n, SessionEnd(left, leftBack))
    ensures Inv(Next(n, SessionEnd(left, leftBack)))
  {
    var d := Next(n, SessionEnd(left, leftBack));
    StepOnce(n, SessionEnd(left, leftBack));
    SmallerFlight(n, d);
    EndCore(n.core);
  }

  /** A pending message is dropped by age. */
  lemma ExpireInv(n: Net, id: U16)
    requires Inv(n) && id in n.core.pending
    ensures Inv(Next(n, Expire(id)))
  {
    var d := Next(n, Expire(id));
    ExpireOnce(n, id);
    ExpireCore(n.core, id);
    SmallerFlight(n, d);
    forall q | InFlight(d, q) ensures Means(d.core, q) {
      ExpireMeans(n.core, id, q);
    }
  }

  lemma TakeOtherInv(n: Net)
    requires Inv(n) && Enabled(n, TakeOther) && Careful(n, TakeOther)
    ensures Inv(Next(n, TakeOther))
  {
    var d := Next(n, TakeOther);
    NextIdIsFirstVacant(n.core.ids, OfOther);
    StepOnce(n, TakeOther);
    SmallerFlight(n, d);
    assert forall x :: Times(d.core, x) == Times(n.core, x);
    assert forall x :: Succeeded(d.core, x) ==> Succeeded(n.core, x);
    forall q | InFlight(d, q) ensures Means(d.core, q) {
      assert IdOf(q) == NextId(n.core.ids) ==> Carried(n, NextId(n.core.ids));
    }
  }

  lemma FreeOtherInv(n: Net, id: U16)
    requires Inv(n) && Enabled(n, FreeOther(id))
    ensures Inv(Next(n, FreeOther(id)))
  {
    var d := Next(n, FreeOther(id));
    StepOnce(n, FreeOther(id));
    SmallerFlight(n, d);
    assert forall x :: Times(d.core, x) == Times(n.core, x);
    assert forall x :: Succeeded(d.core, x) ==> Succeeded(n.core, x);
    forall q | InFlight(d, q) ensures Means(d.core, q) {
      assert Means(n.core, q);
    }
  }

  /** QoS 0 and 1: the message is dispatched on arrival. */
  lemma DispatchInv(n: Net, p: Packet)
    requires Inv(n) && p in n.toReceiver && p.Pub? && !p.qos.Qos2?
    ensures Inv(Next(n, ToReceiver(p)))
  {
    var c, d := n.core, Next(n, ToReceiver(p));
    var r := Receive(c, p).1;
    assert InFlight(n, p) && Means(c, p);
    ReceiveOnce(n, p);
    ForwardFlight(n, p, r, d);
    DispatchCore(c, p.msg);
    forall q | InFlight(d, q) ensures Means(d.core, q) {
      if r != Some(q) {
        DispatchMeans(c, p.msg, q);
      }
    }
  }

  lemma StoreCore(c: Core, id: U16, m: Msg)
    requires CoreInv(c) && Undelivered(c, m)
    requires m in c.current ==> id in c.ids.index && c.ids.index[id] == OfMsg(m)
    ensures CoreInv(c.(pending := Stored(c.pending, id, m)))
  {
    StoreOnce(c, id, m);
    assert forall x :: Succeeded(c.(pending := Stored(c.pending, id, m)), x) ==> Succeeded(c, x);
  }

  lemma StoreMeans(c: Core, id: U16, m: Msg, q: Packet)
    requires Means(c, q) && IdOf(q) != id
    ensures Means(c.(pending := Stored(c.pending, id, m)), q)
  {
    assert forall x :: Times(c.(pending := Stored(c.pending, id, m)), x) == Times(c, x);
  }

  /** QoS 2: the message is stored under its identifier. */
  lemma StoreInv(n: Net, p: Packet)
    requires Inv(n) && p in n.toReceiver && p.Pub? && p.qos.Qos2?
    ensures Inv(Next(n, ToReceiver(p)))
  {
    var c, d := n.core, Next(n, ToReceiver(p));
    var r := Receive(c, p).1;
    assert InFlight(n, p) && Means(c, p);
    ReceiveOnce(n, p);
    ForwardFlight(n, p, r, d);
    StoreCore(c, p.qos.id, p.msg);
    forall q | InFlight(d, q) ensures Means(d.core, q) {
      if r != Some(q) {
        StoreMeans(c, p.qos.id, p.msg, q);
      }
    }
  }

  /** PUBREL: the stored message, if it is still there, is dispatched. */
  lemma ReleaseInv(n: Net, p: Packet)
    requires Inv(n) && p in n.toReceiver && p.Resp?
    ensures Inv(Next(n, ToReceiver(p)))
  {
    var c, d := n.core, Next(n, ToReceiver(p));
    var r := Receive(c, p).1;
    assert p.response.Pubrel?;
    var id := p.response.id;
    assert InFlight(n, p) && Means(c, p);
    ReceiveOnce(n, p);
    ForwardFlight(n, p, r, d);
    if id in c.pending {
      DropCore(c, id);
      DispatchCore(Dropped(c, id), c.pending[id]);
      forall q | InFlight(d, q) ensures Means(d.core, q) {
        if r != Some(q) {
          DropMeans(c, id, q);
          DispatchMeans(Dropped(c, id), c.pending[id], q);
        } else {
          ReleasedMeans(c, id);
        }
      }
    }
  }

  /** What PUBCOMP says after the message was dispatched. */
  lemma ReleasedMeans(c: Core, id: U16)
    requires CoreInv(c) && id in c.pending && Means(c, Resp(Pubrel(id)))
    ensures Means(Dispatched(Dropped(c, id), c.pending[id]), Resp(Pubcomp(id)))
  {
    DropOnce(c, id);
    DispatchOnce(Dropped(c, id), c.pending[id]);
  }

  /** PUBREC is answered by PUBREL. */
  lemma PubrecInv(n: Net, p: Packet)
    requires Inv(n) && p in n.toSender && p.response.Pubrec?
    ensures Inv(Next(n, ToSender(p)))
  {
    var d := Next(n, ToSender(p));
    var r := Answer(n.core, p).1;
    assert InFlight(n, p) && Means(n.core, p);
    StepOnce(n, ToSender(p));
    BackwardFlight(n, p, r, d);
  }

  /** PUBACK and PUBCOMP complete the token and free the identifier. */
  lemma AckInv(n: Net, p: Packet)
    requires Inv(n) && p in n.toSender && (p.response.Puback? || p.response.Pubcomp?)
    ensures Inv(Next(n, ToSender(p)))
  {
    var d := Next(n, ToSender(p));
    var id := p.response.id;
    assert InFlight(n, p) && Means(n.core, p);
    StepOnce(n, ToSender(p));
    BackwardFlight(n, p, None, d);
    if id in n.core.ids.index {
      AckCore(n.core, id);
      forall q | InFlight(d, q) ensures Means(d.core, q) {
        AckMeans(n.core, id, q);
      }
    }
  }

  lemma PublishCore(c: Core, qos: Qos, fate: Fate)
    requires CoreInv(c)
    ensures CoreInv(PublishCall(c, qos, fate).0)
  {
    var d, m := c.(published := c.published + [qos], records := c.records + [FRESH]), |c.records|;
    CreatedCore(c, qos);
    if qos.Level0? {
      FateCore(d, m, fate);
    } else if NextId(c.ids) == 0 {
      FailCore(d, m, PacketIdError);
    } else {
      NextIdIsFirstVacant(c.ids, OfMsg(m));
      TakenCore(d, NextId(c.ids), m);
      var e := d.(ids := WithIssued(c.ids, OfMsg(m)), current := c.current + {m});
      FateCore(e, m, fate);
    }
  }

  lemma FateCore(c: Core, m: Msg, fate: Fate)
    requires CoreInv(c) && m < |c.records|
    ensures CoreInv(FailMsg(c, m, InvalidTopic)) && CoreInv(FailMsg(c, m, InternalServerError))
  {
    FailCore(c, m, InvalidTopic);
    FailCore(c, m, InternalServerError);
  }

  lemma CreatedCore(c: Core, qos: Qos)
    requires CoreInv(c)
    ensures var d := c.(published := c.published + [qos], records := c.records + [FRESH]);
            CoreInv(d) && Undelivered(d, |c.records|)
  {
    var d := c.(published := c.published + [qos], records := c.records + [FRESH]);
    SameReceiverOnce(c, d);
    assert forall x :: Succeeded(d, x) ==> Succeeded(c, x);
  }

  lemma TakenCore(c: Core, id: U16, m: Msg)
    requires CoreInv(c) && id != 0 && id !in c.ids.index && Undelivered(c, m)
    ensures CoreInv(c.(ids := Ids(c.ids.index[id := OfMsg(m)], id), current := c.current + {m}))
  {
    var d := c.(ids := Ids(c.ids.index[id := OfMsg(m)], id), current := c.current + {m});
    SameReceiverOnce(c, d);
    assert forall x :: Succeeded(d, x) ==> Succeeded(c, x);
    assert forall k :: k in c.pending ==> IsPending(c, c.pending[k]);
  }

  lemma FailCore(c: Core, m: Msg, e: TokenError)
    requires CoreInv(c) && m < |c.records|
    ensures CoreInv(FailMsg(c, m, e))
  {
    var d := FailMsg(c, m, e);
    SameReceiverOnce(c, d);
    assert forall x :: Succeeded(d, x) ==> Succeeded(c, x);
  }

  /** A publish call does not disturb the packets in flight, as long as it does not issue
      their identifier. */
  lemma PublishMeans(c: Core, qos: Qos, fate: Fate, q: Packet)
    requires Means(c, q) && (q.Pub? ==> q.msg < |c.records|)
    requires qos.Level0? || NextId(c.ids) == 0 || IdOf(q) != NextId(c.ids)
    ensures Means(PublishCall(c, qos, fate).0, q)
  {
    assert forall x :: Times(PublishCall(c, qos, fate).0, x) == Times(c, x);
  }

  /** The packet of a publish call is new. */
  lemma PublishedMeans(c: Core, qos: Qos, fate: Fate)
    requires Once(c) && PublishCall(c, qos, fate).1.Some?
    ensures var (d, p) := PublishCall(c, qos, fate);
            && p.value.Pub? && p.value.msg == |c.records| && Means(d, p.value)
            && (qos.Level0? ==> p.value.qos.Qos0?)
            && (!qos.Level0? ==> IdOf(p.value) == NextId(c.ids) != 0)
  {
  }

  lemma PublishInv(n: Net, qos: Qos, fate: Fate)
    requires Inv(n) && Careful(n, PublishMsg(qos, fate))
    ensures Inv(Next(n, PublishMsg(qos, fate)))
  {
    var c, d := n.core, Next(n, PublishMsg(qos, fate));
    var p := PublishCall(c, qos, fate).1;
    PublishOnce(n, qos, fate);
    PublishCore(c, qos, fate);
    if p.Some? {
      PublishedMeans(c, qos, fate);
      assert !InFlight(n, p.value);
    }
    PublishedFlight(n, p, d);
    forall q | InFlight(d, q) ensures Means(d.core, q) {
      if p != Some(q) {
        assert InFlight(n, q) && (IdOf(q) == NextId(c.ids) ==> Carried(n, NextId(c.ids)));
        PublishMeans(c, qos, fate, q);
      }
    }
  }

  lemma StepInv(n: Net, a: Action)
    requires Inv(n) && Enabled(n, a) && Careful(n, a)
    ensures Inv(Next(n, a))
  {
    match a
    case PublishMsg(qos, fate) => PublishInv(n, qos, fate);
    case ToReceiver(p) =>
      if p.Resp? { ReleaseInv(n, p); } else if p.qos.Qos2? { StoreInv(n, p); } else { DispatchInv(n, p); }
    case ToSender(p) =>
      if p.response.Pubrec? { PubrecInv(n, p); } else { AckInv(n, p); }
    case Lose(left, leftBack) => LoseInv(n, left, leftBack);
    case Expire(id) => ExpireInv(n, id);
    case TakeOther => TakeOtherInv(n);
    case FreeOther(id) => FreeOtherInv(n, id);
    case SessionEnd(left, leftBack) => SessionEndInv(n, left, leftBack);
  }

  lemma {:induction false} RunInv(run: seq<Net>, actions: seq<Action>, i: nat)
    requires IsCarefulRun(run, actions) && i < |run|
    ensures Inv(run[i])
  {
    if i > 0 {
      RunInv(run, actions, i - 1);
      StepInv(run[i - 1], actions[i - 1]);
    }
  }

  // ----- Delivery -----

  /** A token that reports success for a QoS 1 or 2 message means that the message was
      dispatched exactly once, if and only if it did not expire in the pending table; this
      holds until an identifier is issued while a packet in flight carries it. */
  lemma ExactlyOnce(run: seq<Net>, actions: seq<Action>, i: nat, m: Msg)
    requires IsCarefulRun(run, actions) && i < |run| && Succeeded(run[i].core, m)
    ensures Times(run[i].core, m) == 1 <==> m !in run[i].core.expired
  {
    RunInv(run, actions, i);
  }

  /** A PUBACK or PUBCOMP never completes the token of a SUBSCRIBE or UNSUBSCRIBE, although
      the handler completes whatever holds the identifier. */
  lemma AcksFindTheirOwn(run: seq<Net>, actions: seq<Action>, i: nat, p: Packet)
    requires IsCarefulRun(run, actions) && i < |run| && p in run[i].toSender && IdOf(p) in run[i].core.ids.index
    ensures run[i].core.ids.index[IdOf(p)].OfMsg?
  {
    RunInv(run, actions, i);
    assert InFlight(run[i], p) && Means(run[i].core, p);
  }

  // ----- Nothing outlives a session -----

  /** A session end empties the links. */
  ghost predicate IsClean(a: Action) {
    a.SessionEnd? ==> a == SessionEnd(multiset{}, multiset{})
  }

  ghost predicate EndsClean(actions: seq<Action>) {
    forall i :: 0 <= i < |actions| ==> IsClean(actions[i])
  }

  /** An identifier in flight is held by the sender. */
  ghost predicate FlightHeld(n: Net) {
    forall p :: InFlight(n, p) && IdOf(p) != 0 ==> IdOf(p) in n.core.ids.index
  }

  lemma HeldIsCareful(n: Net, a: Action)
    requires FlightHeld(n)
    ensures Careful(n, a)
  {
    NextIdIsFirstVacant(n.core.ids, OfOther);
  }

  lemma StepHeld(n: Net, a: Action)
    requires Inv(n) && FlightHeld(n) && Enabled(n, a) && IsClean(a)
    ensures FlightHeld(Next(n, a))
  {
    match a
    case PublishMsg(qos, fate) => PublishHeld(n, qos, fate);
    case ToReceiver(p) => ReceiveHeld(n, p);
    case ToSender(p) => AnswerHeld(n, p);
    case FreeOther(id) =>
      forall q | InFlight(n, q) && IdOf(q) != 0 ensures IdOf(q) != id {
        assert Means(n.core, q);
      }
    case Lose(_, _) => SmallerFlight(n, Next(n, a));
    case TakeOther => NextIdIsFirstVacant(n.core.ids, OfOther);
    case _ =>
  }

  lemma PublishHeld(n: Net, qos: Qos, fate: Fate)
    requires Inv(n) && FlightHeld(n)
    ensures FlightHeld(Next(n, PublishMsg(qos, fate)))
  {
    var d, p := Next(n, PublishMsg(qos, fate)), PublishCall(n.core, qos, fate).1;
    assert forall id :: id in n.core.ids.index ==> id in d.core.ids.index;
    assert forall q :: InFlight(d, q) ==> InFlight(n, q) || p == Some(q);
  }

  lemma ReceiveHeld(n: Net, p: Packet)
    requires Inv(n) && FlightHeld(n) && p in n.toReceiver
    ensures FlightHeld(Next(n, ToReceiver(p)))
  {
    var d, r := Next(n, ToReceiver(p)), Receive(n.core, p).1;
    ReceiveIds(n.core, p);
    assert InFlight(n, p);
    forall q | InFlight(d, q) && IdOf(q) != 0 ensures IdOf(q) in d.core.ids.index {
      assert r == Some(q) || InFlight(n, q);
    }
  }

  /** The receiver leaves the sender's identifiers alone and responds under the packet's. */
  lemma ReceiveIds(c: Core, p: Packet)
    ensures Receive(c, p).0.ids == c.ids
    ensures Receive(c, p).1.Some? ==> IdOf(Receive(c, p).1.value) == IdOf(p)
  {
  }

  lemma AnswerHeld(n: Net, p: Packet)
    requires Inv(n) && FlightHeld(n) && p in n.toSender
    ensures FlightHeld(Next(n, ToSender(p)))
  {
    var d, r := Next(n, ToSender(p)), Answer(n.core, p).1;
    assert InFlight(n, p);
    BackwardFlight(n, p, r, d);
    AnswerIds(n.core, p);
    forall q | InFlight(d, q) && IdOf(q) != 0 ensures IdOf(q) in d.core.ids.index {
      if r != Some(q) {
        assert InFlight(n, q) && q != p && IdOf(q) != IdOf(p);
      }
    }
  }

  /** An answer frees no identifier but the packet's, and that only if nothing is sent. */
  lemma AnswerIds(c: Core, p: Packet)
    ensures forall id :: id in c.ids.index && id != IdOf(p) ==> id in Answer(c, p).0.ids.index
    ensures Answer(c, p).1.Some? ==> Answer(c, p).0.ids == c.ids && IdOf(Answer(c, p).1.value) == IdOf(p)
  {
  }

  lemma {:induction false} RunHeld(run: seq<Net>, actions: seq<Action>, i: nat)
    requires IsRun(run, actions) && EndsClean(actions) && i < |run|
    ensures Inv(run[i]) && FlightHeld(run[i])
  {
    if i > 0 {
      RunHeld(run, actions, i - 1);
      HeldIsCareful(run[i - 1], actions[i - 1]);
      StepInv(run[i - 1], actions[i - 1]);
      StepHeld(run[i - 1], actions[i - 1]);
    }
  }

  /** If nothing outlives a session, no identifier in flight is ever issued. */
  lemma CleanIsCareful(run: seq<Net>, actions: seq<Action>)
    requires IsRun(run, actions) && EndsClean(actions)
    ensures IsCarefulRun(run, actions)
  {
    forall i | 0 <= i < |actions| ensures Careful(run[i], actions[i]) {
      RunHeld(run, actions, i);
      HeldIsCareful(run[i], actions[i]);
    }
  }

  /** In such runs an identifier in flight, or pending from a PUBLISH of this session, is held
      by the sender and cannot be issued again. */
  lemma NotReissued(run: seq<Net>, actions: seq<Action>, i: nat, p: Packet, id: U16)
    requires IsRun(run, actions) && EndsClean(actions) && i < |run| && id != 0
    requires || (InFlight(run[i], p) && IdOf(p) == id)
             || (id in run[i].core.pending && run[i].core.pending[id] in run[i].core.current)
    ensures id in run[i].core.ids.index && NextId(run[i].core.ids) != id
  {
    RunHeld(run, actions, i);
    NextIdIsFirstVacant(run[i].core.ids, OfOther);
  }

  // ----- Success without delivery -----

  // The first exception, step by step: one QoS 2 message, under the first identifier issued.

  const FIRST_ID: U16 := 2
  const PUBLISHED := Core(Ids(map[FIRST_ID := OfMsg(0)], FIRST_ID), [Level2], [FRESH], map[], [], {}, {}, {0})
  const LOST := PUBLISHED.(expired := {0})
  const FORWARD := Net(PUBLISHED, multiset{Pub(0, Qos2(FIRST_ID))}, multiset{})
  const STORED := Net(PUBLISHED.(pending := map[FIRST_ID := 0]), multiset{}, multiset{Resp(Pubrec(FIRST_ID))})
  const EXPIRED := Net(LOST, multiset{}, multiset{Resp(Pubrec(FIRST_ID))})
  const RELEASED := Net(LOST, multiset{Resp(Pubrel(FIRST_ID))}, multiset{})
  const COMPLETED := Net(LOST, multiset{}, multiset{Resp(Pubcomp(FIRST_ID))})

  lemma ExpiryPublished()
    ensures Steps(INITIAL, PublishMsg(Level2, Queued), FORWARD)
  {
    assert ProbeAt(PKID_MIN, 1) == FIRST_ID;
    assert NextId(INITIAL.core.ids) == FIRST_ID;
  }

  lemma ExpiryStored()
    ensures Steps(FORWARD, ToReceiver(Pub(0, Qos2(FIRST_ID))), STORED)
    ensures Steps(STORED, Expire(FIRST_ID), EXPIRED)
  {
  }

  lemma ExpiryReleased()
    ensures Steps(EXPIRED, ToSender(Resp(Pubrec(FIRST_ID))), RELEASED)
  {
  }

  lemma ExpiryCompleted()
    ensures Steps(RELEASED, ToReceiver(Resp(Pubrel(FIRST_ID))), COMPLETED)
  {
  }

  const ACKED := Net(Ack(LOST, FIRST_ID), multiset{}, multiset{})

  lemma ExpiryAcked()
    ensures Steps(COMPLETED, ToSender(Resp(Pubcomp(FIRST_ID))), ACKED)
    ensures Succeeded(ACKED.core, 0) && Times(ACKED.core, 0) == 0
  {
  }

  lemma Extended(run: seq<Net>, actions: seq<Action>, a: Action, d: Net)
    returns (longer: seq<Net>, more: seq<Action>)
    requires Follows(run, actions) && Steps(run[|run| - 1], a, d)
    ensures Follows(longer, more) && longer[0] == run[0] && longer[|longer| - 1] == d
  {
    longer, more := Joined(run, actions, [run[|run| - 1], d], [a]);
  }

  lemma Joined(run: seq<Net>, actions: seq<Action>, later: seq<Net>, rest: seq<Action>)
    returns (longer: seq<Net>, more: seq<Action>)
    requires Follows(run, actions) && Follows(later, rest) && run[|run| - 1] == later[0]
    ensures Follows(longer, more) && longer[0] == run[0] && longer[|longer| - 1] == later[|later| - 1]
  {
    longer, more := run + later[1..], actions + rest;
    forall i | 0 <= i < |more|
      ensures Steps(longer[i], more[i], longer[i + 1])
    {
      if i < |actions| {
        assert longer[i] == run[i] && longer[i + 1] == run[i + 1] && more[i] == actions[i];
        assert Steps(run[i], actions[i], run[i + 1]);
      } else {
        var j := i - |actions|;
        assert Steps(later[j], rest[j], later[j + 1]);
        assert longer[i] == later[j] && longer[i + 1] == later[j + 1] && more[i] == rest[j];
      }
    }
  }

  /** If the pending entry expires between PUBREC and PUBREL, the token still reports success
      although the message was never dispatched. */
  lemma ExpiryLosesMessage() returns (run: seq<Net>, actions: seq<Action>)
    ensures IsRun(run, actions)
    ensures var c := run[|run| - 1].core; Succeeded(c, 0) && Times(c, 0) == 0
  {
    ExpiryPublished();
    ExpiryStored();
    ExpiryReleased();
    ExpiryCompleted();
    ExpiryAcked();
    run, actions := [INITIAL], [];
    run, actions := Extended(run, actions, PublishMsg(Level2, Queued), FORWARD);
    run, actions := Extended(run, actions, ToReceiver(Pub(0, Qos2(FIRST_ID))), STORED);
    run, actions := Extended(run, actions, Expire(FIRST_ID), EXPIRED);
    run, actions := Extended(run, actions, ToSender(Resp(Pubrec(FIRST_ID))), RELEASED);
    run, actions := Extended(run, actions, ToReceiver(Resp(Pubrel(FIRST_ID))), COMPLETED);
    run, actions := Extended(run, actions, ToSender(Resp(Pubcomp(FIRST_ID))), ACKED);
  }

  // The second exception: an acknowledgement outlives its session, and its identifier is
  // issued again once the allocator has gone round.

  function AtCursor(n: Net, cursor: U16): Net {
    n.(core := n.core.(ids := Ids(map[], cursor)))
  }

  lemma OneRound(n: Net, id: U16)
    requires n.core.ids.index == map[] && id == ProbeAt(n.core.ids.cursor, 1)
    ensures NextId(n.core.ids) == id && Enabled(n, TakeOther)
    ensures var d := Next(n, TakeOther); Enabled(d, FreeOther(id)) && Next(d, FreeOther(id)) == AtCursor(n, id)
  {
    ProbeDistance(n.core.ids.cursor, 1);
    var d := Next(n, TakeOther);
    assert d.core.ids == Ids(map[id := OfOther], id);
    assert map[id := OfOther] - {id} == map[];
  }

  /** Subscribing and unsubscribing moves the cursor to any identifier. */
  lemma {:induction false} GoesRound(n: Net, target: U16) returns (run: seq<Net>, actions: seq<Action>)
    requires n.core.ids.index == map[] && target >= 1
    ensures Follows(run, actions) && run[0] == n && run[|run| - 1] == AtCursor(n, target)
    decreases if n.core.ids.cursor == target then 0 else Distance(n.core.ids.cursor, target)
  {
    if n.core.ids.cursor == target {
      run, actions := [n], [];
    } else {
      var id := ProbeAt(n.core.ids.cursor, 1);
      OneRound(n, id);
      var d := Next(n, TakeOther);
      var e := Next(d, FreeOther(id));
      var later, rest := GoesRound(e, target);
      run, actions := Joined([n, d, e], [TakeOther, FreeOther(id)], later, rest);
    }
  }

  const ACKNOWLEDGED := Core(Ids(map[FIRST_ID := OfMsg(0)], FIRST_ID), [Level1], [FRESH], map[], [0], {}, {}, {0})
  const SURVIVOR := multiset{Resp(Puback(FIRST_ID))}
  const FIRST_SENT := Net(ACKNOWLEDGED.(dispatched := []), multiset{Pub(0, Qos1(FIRST_ID))}, multiset{})
  const OUTLIVED := Net(EndSession(ACKNOWLEDGED), multiset{}, SURVIVOR)
  const AROUND := AtCursor(OUTLIVED, PKID_MIN)
  const REISSUED := AROUND.core.(ids := Ids(map[FIRST_ID := OfMsg(1)], FIRST_ID), published := [Level1, Level1],
                                 records := AROUND.core.records + [FRESH], current := {1})
  const SECOND_SENT := Net(REISSUED, multiset{Pub(1, Qos1(FIRST_ID))}, SURVIVOR)
  const MISLED := Net(Ack(REISSUED, FIRST_ID), multiset{}, multiset{})

  lemma FirstSent()
    ensures Steps(INITIAL, PublishMsg(Level1, Queued), FIRST_SENT)
  {
    assert ProbeAt(PKID_MIN, 1) == FIRST_ID;
    assert NextId(INITIAL.core.ids) == FIRST_ID;
  }

  lemma FirstOutlives()
    ensures var d := Net(ACKNOWLEDGED, multiset{}, SURVIVOR);
            && Steps(FIRST_SENT, ToReceiver(Pub(0, Qos1(FIRST_ID))), d)
            && Steps(d, SessionEnd(multiset{}, SURVIVOR), OUTLIVED)
  {
    assert [] + [0] == [0];
  }

  lemma SecondSent()
    ensures Steps(AROUND, PublishMsg(Level1, Queued), SECOND_SENT)
  {
    assert ProbeAt(PKID_MIN, 1) == FIRST_ID;
    assert NextId(AROUND.core.ids) == FIRST_ID;
  }

  lemma SecondMisled()
    ensures var d := Net(Ack(REISSUED, FIRST_ID), multiset{Pub(1, Qos1(FIRST_ID))}, multiset{});
            && Steps(SECOND_SENT, ToSender(Resp(Puback(FIRST_ID))), d)
            && Steps(d, Lose(multiset{}, multiset{}), MISLED)
    ensures Succeeded(MISLED.core, 1) && Times(MISLED.core, 1) == 0 && MISLED.core.expired == {}
  {
  }

  /** Without care: success is reported for a message that was never dispatched, did not
      expire, and is nowhere any more. */
  lemma ReissueMisleads() returns (run: seq<Net>, actions: seq<Action>)
    ensures IsRun(run, actions) && run[|run| - 1] == MISLED
    ensures Succeeded(MISLED.core, 1) && Times(MISLED.core, 1) == 0 && MISLED.core.expired == {}
  {
    FirstSent();
    FirstOutlives();
    SecondSent();
    SecondMisled();
    run, actions := [INITIAL], [];
    run, actions := Extended(run, actions, PublishMsg(Level1, Queued), FIRST_SENT);
    run, actions := Extended(run, actions, ToReceiver(Pub(0, Qos1(FIRST_ID))), Net(ACKNOWLEDGED, multiset{}, SURVIVOR));
    run, actions := Extended(run, actions, SessionEnd(multiset{}, SURVIVOR), OUTLIVED);
    var later, rest := GoesRound(OUTLIVED, PKID_MIN);
    run, actions := Joined(run, actions, later, rest);
    run, actions := Extended(run, actions, PublishMsg(Level1, Queued), SECOND_SENT);
    run, actions := Extended(run, actions, ToSender(Resp(Puback(FIRST_ID))),
                             Net(Ack(REISSUED, FIRST_ID), multiset{Pub(1, Qos1(FIRST_ID))}, multiset{}));
    run, actions := Extended(run, actions, Lose(multiset{}, multiset{}), MISLED);
  }
}
