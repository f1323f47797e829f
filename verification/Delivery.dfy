/** QoS 0, 1 and 2 publishing between two clients with a transparent broker between them
    (section 4.3 of MQTT Version 3.1.1): the sender's side of `src/client.rs` and `src/net.rs`
    against the receiver's. Links may lose and reorder packets but do not duplicate them; what
    is on them may outlive the sender's session. */
module Delivery {
  import opened Topics
  import opened Tokens
  import opened PacketIds
  import opened Handlers

  /** The messages published, numbered in order; a message's number is also its token's. */
  type Msg = nat

  datatype Packet = Pub(msg: Msg, qos: QosWithId) | Resp(response: Response)

  /** The identifier a packet carries; 0 for none. */
  function IdOf(p: Packet): U16 {
    match p
    case Pub(_, Qos0) => 0
    case Pub(_, Qos1(id)) => id
    case Pub(_, Qos2(id)) => id
    case Resp(r) => r.id
  }

  /** What holds an identifier: the token of a message, or one of a SUBSCRIBE or UNSUBSCRIBE. */
  datatype Holder = OfMsg(msg: Msg) | OfOther

  /** Both clients without the links. `dispatched` lists the messages handed to the receiver's
      subscriptions; `expired` are those dropped from the pending table by age; `acked` those
      whose token was completed by PUBACK or PUBCOMP; `current` those of this session. */
  datatype Core = Core(
    ids: Ids<Holder>,
    published: seq<Qos>,
    records: seq<Record>,
    pending: map<U16, Msg>,
    dispatched: seq<Msg>,
    expired: set<Msg>,
    acked: set<Msg>,
    current: set<Msg>)

  datatype Net = Net(core: Core, toReceiver: multiset<Packet>, toSender: multiset<Packet>)

  const INITIAL := Net(Core(Ids(map[], PKID_MIN), [], [], map[], [], {}, {}, {}), multiset{}, multiset{})

  /** How a publish call ends once it has its identifier: the topic is rejected, the packet is
      queued, or the writer is gone. */
  datatype Fate = BadTopic | Queued | NoWriter

  datatype Action =
    | PublishMsg(qos: Qos, fate: Fate)
    | ToReceiver(p: Packet)
    | ToSender(p: Packet)
    | Lose(left: multiset<Packet>, leftBack: multiset<Packet>)
    | Expire(id: U16)
    | TakeOther
    | FreeOther(id: U16)
    | SessionEnd(left: multiset<Packet>, leftBack: multiset<Packet>)

  // ----- The clients -----

  function QosFor(qos: Qos, id: U16): QosWithId {
    match qos
    case Level0 => Qos0
    case Level1 => Qos1(id)
    case Level2 => Qos2(id)
  }

  function WithRecord(c: Core, m: Msg, r: Record): Core {
    if m < |c.records| then c.(records := c.records[m := r]) else c
  }

  function FailMsg(c: Core, m: Msg, e: TokenError): Core {
    if m < |c.records| then WithRecord(c, m, c.records[m].SetError(e)) else c
  }

  /** The publish call: the new state and the packet queued, if any. */
  function PublishCall(c: Core, qos: Qos, fate: Fate): (Core, Option<Packet>) {
    var m := |c.records|;
    var id := if qos.Level0? then 0 else NextId(c.ids);
    var d := c.(published := c.published + [qos], records := c.records + [FRESH]);
    if !qos.Level0? && id == 0 then (FailMsg(d, m, PacketIdError), None)
    else
      var e := if qos.Level0? then d else d.(ids := WithIssued(c.ids, OfMsg(m)), current := c.current + {m});
      match fate
      case BadTopic => (FailMsg(e, m, InvalidTopic), None)
      case NoWriter => (FailMsg(e, m, InternalServerError), None)
      case Queued => (e, Some(Pub(m, QosFor(qos, id))))
  }

  function Dispatched(c: Core, m: Msg): Core {
    c.(dispatched := c.dispatched + [m])
  }

  function Dropped(c: Core, id: U16): Core {
    c.(pending := c.pending - {id})
  }

  /** The receiver handles a packet: the new state and its response. */
  function Receive(c: Core, p: Packet): (Core, Option<Packet>) {
    match p
    case Pub(m, Qos0) => (Dispatched(c, m), None)
    case Pub(m, Qos1(id)) => (Dispatched(c, m), Some(Resp(Puback(id))))
    case Pub(m, Qos2(id)) => (c.(pending := Stored(c.pending, id, m)), Some(Resp(Pubrec(id))))
    case Resp(Pubrel(id)) =>
      var (pending, m) := Released(c.pending, id);
      var d := c.(pending := pending);
      (if m.Some? then Dispatched(d, m.value) else d, Some(Resp(Pubcomp(id))))
    case Resp(_) => (c, None)
  }

  /** The sender handles a packet. */
  function Answer(c: Core, p: Packet): (Core, Option<Packet>) {
    match p
    case Resp(Pubrec(id)) => (c, Some(Resp(State.HandlePubrec(id))))
    case Resp(Puback(id)) => (Ack(c, id), None)
    case Resp(Pubcomp(id)) => (Ack(c, id), None)
    case _ => (c, None)
  }

  /** Whatever token holds the identifier is completed. */
  function Ack(c: Core, id: U16): Core {
    if id !in c.ids.index then c
    else
      var d := c.(ids := WithFreed(c.ids, id));
      match c.ids.index[id]
      case OfMsg(m) =>
        var e := if m < |c.records| then WithRecord(d, m, c.records[m].FlowComplete()) else d;
        e.(acked := c.acked + {m})
      case OfOther => d
  }

  function EndSession(c: Core): Core {
    c.(records := seq(|c.records|, m requires 0 <= m < |c.records| =>
         if OfMsg(m) in c.ids.index.Values then c.records[m].SetError(ConnectionLost) else c.records[m]),
       ids := Emptied(c.ids),
       current := {})
  }

  // ----- Steps -----

  function Bag(p: Option<Packet>): multiset<Packet> {
    if p.Some? then multiset{p.value} else multiset{}
  }

  predicate Enabled(n: Net, a: Action) {
    match a
    case PublishMsg(_, _) => true
    case ToReceiver(p) => p in n.toReceiver
    case ToSender(p) => p in n.toSender
    case Lose(left, leftBack) => left <= n.toReceiver && leftBack <= n.toSender
    case Expire(id) => id in n.core.pending
    case TakeOther => NextId(n.core.ids) != 0
    case FreeOther(id) => id in n.core.ids.index && n.core.ids.index[id].OfOther?
    case SessionEnd(left, leftBack) => left <= n.toReceiver && leftBack <= n.toSender
  }

  function Next(n: Net, a: Action): Net
    requires Enabled(n, a)
  {
    match a
    case PublishMsg(qos, fate) =>
      var (c, p) := PublishCall(n.core, qos, fate);
      n.(core := c, toReceiver := n.toReceiver + Bag(p))
    case ToReceiver(p) =>
      var (c, r) := Receive(n.core, p);
      Net(c, n.toReceiver - multiset{p}, n.toSender + Bag(r))
    case ToSender(p) =>
      var (c, r) := Answer(n.core, p);
      Net(c, n.toReceiver + Bag(r), n.toSender - multiset{p})
    case Lose(left, leftBack) => n.(toReceiver := left, toSender := leftBack)
    case Expire(id) =>
      n.(core := Dropped(n.core, id).(expired := n.core.expired + {n.core.pending[id]}))
    case TakeOther => n.(core := n.core.(ids := WithIssued(n.core.ids, OfOther)))
    case FreeOther(id) => n.(core := n.core.(ids := WithFreed(n.core.ids, id)))
    case SessionEnd(left, leftBack) => Net(EndSession(n.core), left, leftBack)
  }

  ghost predicate Steps(n: Net, a: Action, d: Net) {
    Enabled(n, a) && d == Next(n, a)
  }

  ghost predicate Follows(run: seq<Net>, actions: seq<Action>) {
    |run| == |actions| + 1 && forall i :: 0 <= i < |actions| ==> Steps(run[i], actions[i], run[i + 1])
  }

  ghost predicate IsRun(run: seq<Net>, actions: seq<Action>) {
    Follows(run, actions) && run[0] == INITIAL
  }

  // ----- At most once: what holds whatever outlives a session -----

  predicate InFlight(n: Net, p: Packet) {
    p in n.toReceiver || p in n.toSender
  }

  function Times(c: Core, m: Msg): nat {
    multiset(c.dispatched)[m]
  }

  predicate IsPending(c: Core, m: Msg) {
    m in c.pending.Values
  }

  /** A message is dispatched at most once; pending and expired messages not at all. */
  ghost predicate Once(c: Core) {
    && |c.published| == |c.records|
    && (forall m :: Times(c, m) <= 1)
    && (forall m :: m >= |c.records| ==> Times(c, m) == 0 && m !in c.expired && !IsPending(c, m))
    && (forall m :: m in c.expired ==> Times(c, m) == 0 && !IsPending(c, m))
    && (forall id :: id in c.pending ==> Times(c, c.pending[id]) == 0)
    && (forall i, j :: i in c.pending && j in c.pending && c.pending[i] == c.pending[j] ==> i == j)
  }

  /** The message is nowhere but, perhaps, in a PUBLISH in flight. */
  ghost predicate Undelivered(c: Core, m: Msg) {
    m < |c.records| && Times(c, m) == 0 && !IsPending(c, m) && m !in c.expired
  }

  /** At most one PUBLISH per message is in flight, and only while it is undelivered. */
  ghost predicate PubsOnce(n: Net) {
    && (forall p: Packet :: p.Pub? ==> n.toReceiver[p] + n.toSender[p] <= 1)
    && (forall p, q :: InFlight(n, p) && InFlight(n, q) && p.Pub? && q.Pub? && p.msg == q.msg ==> p == q)
    && (forall p :: InFlight(n, p) && p.Pub? ==> Undelivered(n.core, p.msg))
  }

  ghost predicate OnceInv(n: Net) {
    Once(n.core) && PubsOnce(n)
  }

  /** The receiver's side is as it was. */
  ghost predicate SameReceiver(c: Core, d: Core) {
    && d.dispatched == c.dispatched && d.pending == c.pending && d.expired == c.expired
    && |d.published| == |d.records| >= |c.records|
  }

  lemma SameReceiverOnce(c: Core, d: Core)
    requires Once(c) && SameReceiver(c, d)
    ensures Once(d) && forall m :: Undelivered(c, m) ==> Undelivered(d, m)
    ensures forall m :: Times(d, m) == Times(c, m) && (IsPending(d, m) <==> IsPending(c, m))
  {
    assert forall m :: Times(d, m) == Times(c, m) && (IsPending(d, m) <==> IsPending(c, m));
  }

  /** The links lose packets and gain responses. */
  lemma FewerPubs(n: Net, d: Net)
    requires PubsOnce(n)
    requires forall p: Packet :: p.Pub? ==> d.toReceiver[p] <= n.toReceiver[p] && d.toSender[p] <= n.toSender[p]
    requires forall p :: InFlight(d, p) && p.Pub? ==> Undelivered(d.core, p.msg)
    ensures PubsOnce(d)
  {
    assert forall p :: InFlight(d, p) && p.Pub? ==> InFlight(n, p);
  }

  lemma SenderOnce(n: Net, d: Net)
    requires OnceInv(n) && SameReceiver(n.core, d.core)
    requires forall p: Packet :: p.Pub? ==> d.toReceiver[p] <= n.toReceiver[p] && d.toSender[p] <= n.toSender[p]
    ensures OnceInv(d)
  {
    SameReceiverOnce(n.core, d.core);
    assert forall p :: InFlight(d, p) && p.Pub? ==> InFlight(n, p);
    FewerPubs(n, d);
  }

  lemma DispatchOnce(c: Core, m: Msg)
    requires Once(c) && Undelivered(c, m)
    ensures Once(Dispatched(c, m))
    ensures forall x :: Times(Dispatched(c, m), x) == Times(c, x) + if x == m then 1 else 0
    ensures forall x :: Undelivered(c, x) && x != m ==> Undelivered(Dispatched(c, m), x)
  {
    var d := Dispatched(c, m);
    assert forall x :: Times(d, x) == Times(c, x) + if x == m then 1 else 0;
    assert forall x :: IsPending(d, x) <==> IsPending(c, x);
    assert forall id :: id in c.pending ==> IsPending(c, c.pending[id]);
  }

  /** In a one-to-one table, removing an entry removes exactly its message. */
  lemma PendingWithout(pending: map<U16, Msg>, id: U16)
    requires id in pending
    requires forall i, j :: i in pending && j in pending && pending[i] == pending[j] ==> i == j
    ensures forall m :: m in (pending - {id}).Values <==> m in pending.Values && m != pending[id]
  {
    var after := pending - {id};
    forall m | m in pending.Values && m != pending[id] ensures m in after.Values {
      var k :| k in pending && pending[k] == m;
      assert after[k] == m;
    }
  }

  lemma DropOnce(c: Core, id: U16)
    requires Once(c) && id in c.pending
    ensures Once(Dropped(c, id)) && Undelivered(Dropped(c, id), c.pending[id])
    ensures forall x :: Undelivered(c, x) ==> Undelivered(Dropped(c, id), x) && x != c.pending[id]
    ensures forall x :: Times(Dropped(c, id), x) == Times(c, x)
  {
    var d := Dropped(c, id);
    PendingWithout(c.pending, id);
    assert IsPending(c, c.pending[id]);
    assert forall x :: Times(d, x) == Times(c, x);
  }

  lemma StoreOnce(c: Core, id: U16, m: Msg)
    requires Once(c) && Undelivered(c, m)
    ensures var d := c.(pending := Stored(c.pending, id, m));
            && Once(d) && (forall x :: Undelivered(c, x) && x != m ==> Undelivered(d, x))
            && (forall x :: Times(d, x) == Times(c, x))
            && (forall x :: IsPending(d, x) ==> IsPending(c, x) || x == m)
  {
    var d := c.(pending := Stored(c.pending, id, m));
    forall x | IsPending(d, x) ensures IsPending(c, x) || x == m {
      var k :| k in d.pending && d.pending[k] == x;
      assert k == id || (k in c.pending && c.pending[k] == x);
    }
    assert forall k :: k in c.pending ==> IsPending(c, c.pending[k]);
    assert forall x :: Times(d, x) == Times(c, x);
  }

  lemma ExpiredOnce(c: Core, m: Msg)
    requires Once(c) && Undelivered(c, m)
    ensures var d := c.(expired := c.expired + {m});
            && Once(d) && (forall x :: Undelivered(c, x) && x != m ==> Undelivered(d, x))
            && (forall x :: Times(d, x) == Times(c, x))
  {
    var d := c.(expired := c.expired + {m});
    assert forall x :: Times(d, x) == Times(c, x) && (IsPending(d, x) <==> IsPending(c, x));
  }

  /** The PUBLISH packets left once `p` has been taken off the link. */
  lemma TakenOff(n: Net, p: Packet, d: Net)
    requires PubsOnce(n) && p in n.toReceiver
    requires d.toReceiver == n.toReceiver - multiset{p}
    requires forall q: Packet :: q.Pub? ==> d.toSender[q] == n.toSender[q]
    ensures forall q :: InFlight(d, q) && q.Pub? ==> InFlight(n, q) && (p.Pub? ==> q.msg != p.msg)
  {
    assert InFlight(n, p);
    assert p.Pub? ==> n.toReceiver[p] + n.toSender[p] <= 1 && !InFlight(d, p);
    assert forall q :: InFlight(d, q) && q.Pub? ==> InFlight(n, q);
  }

  lemma ReceiveOnce(n: Net, p: Packet)
    requires OnceInv(n) && p in n.toReceiver
    ensures OnceInv(Next(n, ToReceiver(p)))
  {
    var c, d := n.core, Next(n, ToReceiver(p));
    var r := Receive(c, p).1;
    assert InFlight(n, p);
    assert r.Some? ==> r.value.Resp?;
    TakenOff(n, p, d);
    ReceivedCore(c, p);
    FewerPubs(n, d);
  }

  lemma ReceivedCore(c: Core, p: Packet)
    requires Once(c) && (p.Pub? ==> Undelivered(c, p.msg))
    ensures var d := Receive(c, p).0;
            Once(d) && forall x :: Undelivered(c, x) && (p.Pub? ==> x != p.msg) ==> Undelivered(d, x)
  {
    match p
    case Pub(m, Qos2(id)) => StoreOnce(c, id, m);
    case Pub(m, _) => DispatchOnce(c, m);
    case Resp(Pubrel(id)) =>
      if id in c.pending {
        DropOnce(c, id);
        DispatchOnce(Dropped(c, id), c.pending[id]);
      }
    case _ =>
  }

  lemma PublishOnce(n: Net, qos: Qos, fate: Fate)
    requires OnceInv(n)
    ensures OnceInv(Next(n, PublishMsg(qos, fate)))
  {
    var m, d := |n.core.records|, Next(n, PublishMsg(qos, fate));
    var p := PublishCall(n.core, qos, fate).1;
    assert SameReceiver(n.core, d.core) && |d.core.records| == m + 1;
    SameReceiverOnce(n.core, d.core);
    assert Undelivered(d.core, m);
    forall q | InFlight(d, q) && q.Pub? ensures Undelivered(d.core, q.msg) && (q.msg == m ==> p == Some(q)) {
      assert p == Some(q) || InFlight(n, q);
    }
    assert p.Some? ==> p.value.Pub? && p.value.msg == m && !InFlight(n, p.value);
    forall q, q' | InFlight(d, q) && InFlight(d, q') && q.Pub? && q'.Pub? && q.msg == q'.msg ensures q == q' {
      assert (p == Some(q) || InFlight(n, q)) && (p == Some(q') || InFlight(n, q'));
    }
  }

  lemma ExpireOnce(n: Net, id: U16)
    requires OnceInv(n) && id in n.core.pending
    ensures OnceInv(Next(n, Expire(id)))
  {
    var c, d := n.core, Next(n, Expire(id));
    DropOnce(c, id);
    ExpiredOnce(Dropped(c, id), c.pending[id]);
    assert d.core == Dropped(c, id).(expired := c.expired + {c.pending[id]});
    FewerPubs(n, d);
  }

  lemma AnswerSame(c: Core, p: Packet)
    requires |c.published| == |c.records|
    ensures SameReceiver(c, Answer(c, p).0)
    ensures Answer(c, p).1.Some? ==> Answer(c, p).1.value.Resp?
  {
  }

  lemma StepOnce(n: Net, a: Action)
    requires OnceInv(n) && Enabled(n, a)
    ensures OnceInv(Next(n, a))
  {
    match a
    case PublishMsg(qos, fate) => PublishOnce(n, qos, fate);
    case ToReceiver(p) => ReceiveOnce(n, p);
    case Expire(id) => ExpireOnce(n, id);
    case ToSender(p) =>
      AnswerSame(n.core, p);
      SenderOnce(n, Next(n, a));
    case _ => SenderOnce(n, Next(n, a));
  }

  lemma {:induction false} RunOnce(run: seq<Net>, actions: seq<Action>, i: nat)
    requires IsRun(run, actions) && i < |run|
    ensures OnceInv(run[i])
  {
    if i > 0 {
      RunOnce(run, actions, i - 1);
      StepOnce(run[i - 1], actions[i - 1]);
    }
  }

  /** In every run, whatever the links lose or carry over to a later session, every message is
      dispatched at most once. */
  lemma AtMostOnce(run: seq<Net>, actions: seq<Action>, i: nat, m: Msg)
    requires IsRun(run, actions) && i < |run|
    ensures Times(run[i].core, m) <= 1
  {
    RunOnce(run, actions, i);
  }
}
