/** The links of `Delivery` as the queues they are: the sender's outgoing channel and its
    response channel, both drained by its writer; the wire to the receiver; the receiver's
    response channel; and the wire back. Every step of the queues is a step of the bags. */
module Links {
  import opened Topics
  import opened PacketIds
  import opened Delivery
  import opened Handshake

  type Queue = seq<Packet>

  datatype Link = Link(core: Core, outgoing: Queue, responses: Queue, up: Queue, replies: Queue, down: Queue)

  const START := Link(Delivery.INITIAL.core, [], [], [], [], [])

  /** Steps of the sender's call, the two writers, the two readers; a channel or wire that
      breaks drops what it holds. The end of the sender's session drops its channels; what is
      on the wires or with the receiver may outlive it. */
  datatype LinkAction =
    | Call(qos: Qos, fate: Fate)
    | WriteOutgoing
    | WriteResponse
    | ReceiverReads
    | ReceiverWrites
    | SenderReads
    | SenderWriterStops
    | WireBreaks
    | ReceiverWriterStops
    | Expires(id: U16)
    | OtherTakes
    | OtherFrees(id: U16)
    | SenderEnds

  predicate LinkEnabled(l: Link, a: LinkAction) {
    match a
    case WriteOutgoing => l.outgoing != []
    case WriteResponse => l.responses != []
    case ReceiverReads => l.up != []
    case ReceiverWrites => l.replies != []
    case SenderReads => l.down != []
    case Expires(id) => id in l.core.pending
    case OtherTakes => Delivery.Enabled(Bags(l), TakeOther)
    case OtherFrees(id) => Delivery.Enabled(Bags(l), FreeOther(id))
    case _ => true
  }

  function Push(q: Queue, p: Option<Packet>): Queue {
    if p.Some? then q + [p.value] else q
  }

  function LinkNext(l: Link, a: LinkAction): Link
    requires LinkEnabled(l, a)
  {
    match a
    case Call(qos, fate) =>
      var (c, p) := PublishCall(l.core, qos, fate);
      l.(core := c, outgoing := Push(l.outgoing, p))
    case WriteOutgoing => l.(outgoing := l.outgoing[1..], up := l.up + [l.outgoing[0]])
    case WriteResponse => l.(responses := l.responses[1..], up := l.up + [l.responses[0]])
    case ReceiverReads =>
      var (c, r) := Receive(l.core, l.up[0]);
      l.(core := c, up := l.up[1..], replies := Push(l.replies, r))
    case ReceiverWrites => l.(replies := l.replies[1..], down := l.down + [l.replies[0]])
    case SenderReads =>
      var (c, r) := Answer(l.core, l.down[0]);
      l.(core := c, down := l.down[1..], responses := Push(l.responses, r))
    case SenderWriterStops => l.(outgoing := [], responses := [])
    case WireBreaks => l.(up := [], down := [])
    case ReceiverWriterStops => l.(replies := [])
    case Expires(id) => l.(core := Delivery.Next(Net(l.core, multiset{}, multiset{}), Expire(id)).core)
    case OtherTakes => l.(core := Delivery.Next(Bags(l), TakeOther).core)
    case OtherFrees(id) => l.(core := Delivery.Next(Bags(l), FreeOther(id)).core)
    case SenderEnds => l.(core := EndSession(l.core), outgoing := [], responses := [])
  }

  function Bags(l: Link): Net {
    Net(l.core,
        multiset(l.outgoing) + multiset(l.responses) + multiset(l.up),
        multiset(l.replies) + multiset(l.down))
  }

  /** The bag step that a queue step amounts to; moving a packet along loses nothing. */
  function AsBagStep(l: Link, a: LinkAction): Action
    requires LinkEnabled(l, a)
  {
    var after := Bags(LinkNext(l, a));
    match a
    case Call(qos, fate) => PublishMsg(qos, fate)
    case ReceiverReads => ToReceiver(l.up[0])
    case SenderReads => ToSender(l.down[0])
    case Expires(id) => Expire(id)
    case OtherTakes => TakeOther
    case OtherFrees(id) => FreeOther(id)
    case SenderEnds => SessionEnd(after.toReceiver, after.toSender)
    case _ => Lose(after.toReceiver, after.toSender)
  }

  lemma HeadTail(q: Queue)
    requires q != []
    ensures multiset(q) == multiset{q[0]} + multiset(q[1..])
    ensures multiset(q[1..]) == multiset(q) - multiset{q[0]}
  {
    assert q == [q[0]] + q[1..];
  }

  lemma PushBag(q: Queue, p: Option<Packet>)
    ensures multiset(Push(q, p)) == multiset(q) + Bag(p)
  {
  }

  ghost predicate Refines(l: Link, a: LinkAction)
    requires LinkEnabled(l, a)
  {
    Enabled(Bags(l), AsBagStep(l, a)) && Bags(LinkNext(l, a)) == Delivery.Next(Bags(l), AsBagStep(l, a))
  }

  // The bags after a queue grows, shrinks or passes its head on.

  lemma FirstGrows(a: Queue, b: Queue, c: Queue, p: Option<Packet>)
    ensures multiset(Push(a, p)) + multiset(b) + multiset(c) == multiset(a) + multiset(b) + multiset(c) + Bag(p)
  {
    PushBag(a, p);
  }

  lemma SecondGrows(a: Queue, b: Queue, c: Queue, p: Option<Packet>)
    ensures multiset(a) + multiset(Push(b, p)) + multiset(c) == multiset(a) + multiset(b) + multiset(c) + Bag(p)
  {
    PushBag(b, p);
  }

  lemma ThirdShrinks(a: Queue, b: Queue, c: Queue)
    requires c != []
    ensures multiset(a) + multiset(b) + multiset(c[1..]) == multiset(a) + multiset(b) + multiset(c) - multiset{c[0]}
  {
    HeadTail(c);
  }

  lemma PairGrows(a: Queue, b: Queue, p: Option<Packet>)
    ensures multiset(Push(a, p)) + multiset(b) == multiset(a) + multiset(b) + Bag(p)
  {
    PushBag(a, p);
  }

  lemma PairShrinks(a: Queue, b: Queue)
    requires b != []
    ensures multiset(a) + multiset(b[1..]) == multiset(a) + multiset(b) - multiset{b[0]}
  {
    HeadTail(b);
  }

  /** Moving the head of one queue to the end of another leaves their sum as it was. */
  lemma MoveKeeps(from: Queue, to: Queue)
    requires from != []
    ensures multiset(from[1..]) + multiset(to + [from[0]]) == multiset(from) + multiset(to)
  {
    HeadTail(from);
    PushBag(to, Some(from[0]));
  }

  lemma Regroup(a: multiset<Packet>, b: multiset<Packet>, c: multiset<Packet>)
    ensures a + b + c == (a + c) + b && a + b + c == a + (b + c)
  {
  }

  lemma CallRefines(l: Link, qos: Qos, fate: Fate)
    ensures Refines(l, Call(qos, fate))
  {
    FirstGrows(l.outgoing, l.responses, l.up, PublishCall(l.core, qos, fate).1);
  }

  lemma ReceiveRefines(l: Link)
    requires l.up != []
    ensures Refines(l, ReceiverReads)
  {
    ThirdShrinks(l.outgoing, l.responses, l.up);
    PairGrows(l.replies, l.down, Receive(l.core, l.up[0]).1);
    assert l.up[0] in multiset(l.up);
  }

  lemma AnswerRefines(l: Link)
    requires l.down != []
    ensures Refines(l, SenderReads)
  {
    PairShrinks(l.replies, l.down);
    SecondGrows(l.outgoing, l.responses, l.up, Answer(l.core, l.down[0]).1);
    assert l.down[0] in multiset(l.down);
  }

  lemma OutgoingMoves(l: Link)
    requires l.outgoing != []
    ensures Bags(LinkNext(l, WriteOutgoing)) == Bags(l)
  {
    var d := LinkNext(l, WriteOutgoing);
    MoveKeeps(l.outgoing, l.up);
    Regroup(multiset(l.outgoing), multiset(l.responses), multiset(l.up));
    Regroup(multiset(d.outgoing), multiset(d.responses), multiset(d.up));
  }

  lemma ResponseMoves(l: Link)
    requires l.responses != []
    ensures Bags(LinkNext(l, WriteResponse)) == Bags(l)
  {
    var d := LinkNext(l, WriteResponse);
    MoveKeeps(l.responses, l.up);
    Regroup(multiset(l.outgoing), multiset(l.responses), multiset(l.up));
    Regroup(multiset(d.outgoing), multiset(d.responses), multiset(d.up));
  }

  lemma ReplyMoves(l: Link)
    requires l.replies != []
    ensures Bags(LinkNext(l, ReceiverWrites)) == Bags(l)
  {
    MoveKeeps(l.replies, l.down);
  }

  lemma MoveRefines(l: Link, a: LinkAction)
    requires LinkEnabled(l, a) && AsBagStep(l, a).Lose? && Bags(LinkNext(l, a)) == Bags(l)
    ensures Refines(l, a)
  {
  }

  predicate Drops(a: LinkAction) {
    a.SenderWriterStops? || a.WireBreaks? || a.ReceiverWriterStops?
  }

  lemma DropRefines(l: Link, a: LinkAction)
    requires Drops(a)
    ensures Refines(l, a)
  {
    match a
    case SenderWriterStops => SenderDropRefines(l);
    case WireBreaks => WireDropRefines(l);
    case _ =>
  }

  lemma SenderDropRefines(l: Link)
    ensures Refines(l, SenderWriterStops)
  {
  }

  lemma WireDropRefines(l: Link)
    ensures Refines(l, WireBreaks)
  {
  }

  lemma ExpiryRefines(l: Link, id: U16)
    requires id in l.core.pending
    ensures Refines(l, Expires(id))
  {
  }

  lemma EndRefines(l: Link)
    ensures Refines(l, SenderEnds)
  {
    assert multiset(l.up) <= multiset(l.outgoing) + multiset(l.responses) + multiset(l.up);
  }

  lemma OtherRefines(l: Link, a: LinkAction)
    requires LinkEnabled(l, a) && (a.OtherTakes? || a.OtherFrees?)
    ensures Refines(l, a)
  {
  }

  lemma StepRefines(l: Link, a: LinkAction)
    requires LinkEnabled(l, a)
    ensures Refines(l, a)
  {
    match a
    case Call(qos, fate) => CallRefines(l, qos, fate);
    case WriteOutgoing =>
      OutgoingMoves(l);
      MoveRefines(l, a);
    case WriteResponse =>
      ResponseMoves(l);
      MoveRefines(l, a);
    case ReceiverReads => ReceiveRefines(l);
    case ReceiverWrites =>
      ReplyMoves(l);
      MoveRefines(l, a);
    case SenderReads => AnswerRefines(l);
    case Expires(id) => ExpiryRefines(l, id);
    case OtherTakes => OtherRefines(l, a);
    case OtherFrees(_) => OtherRefines(l, a);
    case SenderEnds => EndRefines(l);
    case _ => DropRefines(l, a);
  }

  ghost predicate IsLinkRun(run: seq<Link>, actions: seq<LinkAction>) {
    && |run| == |actions| + 1
    && run[0] == START
    && forall i :: 0 <= i < |actions| ==>
         LinkEnabled(run[i], actions[i]) && run[i + 1] == LinkNext(run[i], actions[i])
  }

  /** Every run of the queues is a run of the bags. */
  lemma RunRefines(run: seq<Link>, actions: seq<LinkAction>) returns (bags: seq<Net>, steps: seq<Action>)
    requires IsLinkRun(run, actions)
    ensures IsRun(bags, steps) && |bags| == |run| && |steps| == |actions|
    ensures forall i :: 0 <= i < |run| ==> bags[i] == Bags(run[i])
    ensures forall i :: 0 <= i < |actions| ==> steps[i] == AsBagStep(run[i], actions[i])
  {
    bags := seq(|run|, i requires 0 <= i < |run| => Bags(run[i]));
    steps := seq(|actions|, i requires 0 <= i < |actions| => AsBagStep(run[i], actions[i]));
    forall i | 0 <= i < |steps| ensures Steps(bags[i], steps[i], bags[i + 1]) {
      StepRefines(run[i], actions[i]);
    }
  }

  predicate OnTheWay(l: Link, p: Packet) {
    p in l.outgoing || p in l.responses || p in l.up || p in l.replies || p in l.down
  }

  lemma OnTheWayIsInFlight(l: Link, p: Packet)
    ensures OnTheWay(l, p) <==> InFlight(Bags(l), p)
  {
    assert p in multiset(l.outgoing) + multiset(l.responses) <==> p in l.outgoing || p in l.responses;
  }

  /** The step does not issue an identifier that a queued packet carries. */
  ghost predicate CarefulStep(l: Link, a: LinkAction) {
    (a.OtherTakes? || (a.Call? && !a.qos.Level0?)) && NextId(l.core.ids) != 0 ==>
      forall p :: OnTheWay(l, p) ==> IdOf(p) != NextId(l.core.ids)
  }

  lemma CarefulRefines(l: Link, a: LinkAction)
    requires LinkEnabled(l, a) && CarefulStep(l, a)
    ensures Careful(Bags(l), AsBagStep(l, a))
  {
    forall p ensures OnTheWay(l, p) <==> InFlight(Bags(l), p) {
      OnTheWayIsInFlight(l, p);
    }
  }

  /** Over the queues, too: every message is dispatched at most once. */
  lemma LinksDeliverOnce(run: seq<Link>, actions: seq<LinkAction>, i: nat, m: Msg)
    requires IsLinkRun(run, actions) && i < |run|
    ensures Delivery.Times(run[i].core, m) <= 1
  {
    var bags, steps := RunRefines(run, actions);
    assert bags[i].core == run[i].core;
    AtMostOnce(bags, steps, i, m);
  }

  /** And success of a QoS 1 or 2 message means exactly once, if and only if it did not expire,
      until an identifier is issued while a queued packet carries it. */
  lemma LinksDeliver(run: seq<Link>, actions: seq<LinkAction>, i: nat, m: Msg)
    requires IsLinkRun(run, actions) && i < |run| && Succeeded(run[i].core, m)
    requires forall j :: 0 <= j < |actions| ==> CarefulStep(run[j], actions[j])
    ensures Delivery.Times(run[i].core, m) == 1 <==> m !in run[i].core.expired
  {
    var bags, steps := RunRefines(run, actions);
    assert bags[i].core == run[i].core;
    forall j | 0 <= j < |steps| ensures Careful(bags[j], steps[j]) {
      CarefulRefines(run[j], actions[j]);
    }
    ExactlyOnce(bags, steps, i, m);
  }

  /** The wires and the receiver's channel are empty whenever the sender's session ends. */
  ghost predicate EndsEmpty(run: seq<Link>, actions: seq<LinkAction>)
    requires |run| == |actions| + 1
  {
    forall j :: 0 <= j < |actions| && actions[j].SenderEnds? ==>
      run[j].up == [] && run[j].replies == [] && run[j].down == []
  }

  lemma EmptyEndIsClean(l: Link)
    requires l.up == [] && l.replies == [] && l.down == []
    ensures AsBagStep(l, SenderEnds) == SessionEnd(multiset{}, multiset{})
  {
  }

  /** If nothing outlives a session, success means exactly once in every run. */
  lemma LinksDeliverClean(run: seq<Link>, actions: seq<LinkAction>, i: nat, m: Msg)
    requires IsLinkRun(run, actions) && EndsEmpty(run, actions) && i < |run| && Succeeded(run[i].core, m)
    ensures Delivery.Times(run[i].core, m) == 1 <==> m !in run[i].core.expired
  {
    var bags, steps := RunRefines(run, actions);
    assert bags[i].core == run[i].core;
    forall j | 0 <= j < |steps| ensures IsClean(steps[j]) {
      if steps[j].SessionEnd? {
        EmptyEndIsClean(run[j]);
      }
    }
    CleanIsCareful(bags, steps);
    ExactlyOnce(bags, steps, i, m);
  }
}
