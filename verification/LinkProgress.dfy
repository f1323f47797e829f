/** The progress of the handshakes over the queues of `Links`: a message on its way arrives by
    reading and writing at the heads of the queues alone, and the queues keep their order. */
module LinkProgress {
  import opened Topics
  import opened PacketIds
  import opened Handlers
  import opened Delivery
  import opened Handshake
  import opened Links
  import opened Progress

  // ----- Where a packet is -----

  datatype Place = Outgoing | Responses | Up | Replies | Down

  function QueueAt(l: Link, q: Place): Queue {
    match q
    case Outgoing => l.outgoing
    case Responses => l.responses
    case Up => l.up
    case Replies => l.replies
    case Down => l.down
  }

  predicate At(l: Link, q: Place, i: nat, p: Packet) {
    i < |QueueAt(l, q)| && QueueAt(l, q)[i] == p
  }

  lemma SomewhereAt(l: Link, p: Packet) returns (q: Place, i: nat)
    requires InFlight(Bags(l), p)
    ensures At(l, q, i, p)
  {
    OnTheWayIsInFlight(l, p);
    q := if p in l.outgoing then Outgoing else if p in l.responses then Responses
         else if p in l.up then Up else if p in l.replies then Replies else Down;
    assert p in QueueAt(l, q);
    i :| 0 <= i < |QueueAt(l, q)| && QueueAt(l, q)[i] == p;
  }

  /** The task that works at the head of the queue. */
  function Serving(q: Place): LinkAction {
    match q
    case Outgoing => WriteOutgoing
    case Responses => WriteResponse
    case Up => ReceiverReads
    case Replies => ReceiverWrites
    case Down => SenderReads
  }

  predicate Serves(a: LinkAction) {
    a.WriteOutgoing? || a.WriteResponse? || a.ReceiverReads? || a.ReceiverWrites? || a.SenderReads?
  }

  /** Writing goes before reading. */
  function Stage(q: Place): nat {
    if q.Up? || q.Down? then 1 else 2
  }

  ghost predicate LinkFollows(run: seq<Link>, actions: seq<LinkAction>) {
    && |run| == |actions| + 1
    && forall i :: 0 <= i < |actions| ==> LinkEnabled(run[i], actions[i]) && run[i + 1] == LinkNext(run[i], actions[i])
  }

  /** From `l` on only reads and writes at the heads of the queues, until the message is done. */
  ghost predicate Arrives(l: Link, run: seq<Link>, actions: seq<LinkAction>, m: Msg) {
    && LinkFollows(run, actions) && run[0] == l
    && (forall i :: 0 <= i < |actions| ==> Serves(actions[i]))
    && Done(run[|run| - 1].core, m)
  }

  lemma LinkPreceded(l: Link, a: LinkAction, d: Link, later: seq<Link>, rest: seq<LinkAction>, m: Msg)
    returns (run: seq<Link>, actions: seq<LinkAction>)
    requires Arrives(d, later, rest, m) && LinkStep(l, a, d) && Serves(a)
    ensures Arrives(l, run, actions, m)
  {
    run, actions := [l] + later, [a] + rest;
    forall i | 0 <= i < |actions|
      ensures LinkEnabled(run[i], actions[i]) && run[i + 1] == LinkNext(run[i], actions[i]) && Serves(actions[i])
    {
      if i > 0 {
        assert run[i] == later[i - 1] && run[i + 1] == later[i] && actions[i] == rest[i - 1];
      }
    }
  }

  // ----- One step -----

  /** The packet of an exchange, the place it is at, and the message. */
  ghost predicate OnItsWay(l: Link, q: Place, i: nat, p: Packet, m: Msg) {
    GoodBags(Bags(l), p, m) && At(l, q, i, p)
  }

  ghost predicate GoodBags(n: Net, p: Packet, m: Msg) {
    Sound(n) && Underway(n, p, m)
  }

  /** Writing moves the head to the end of a wire and loses nothing. */
  lemma WriteKeepsBags(l: Link, q: Place)
    requires QueueAt(l, q) != [] && Stage(q) == 2
    ensures LinkEnabled(l, Serving(q)) && Bags(LinkNext(l, Serving(q))) == Bags(l)
  {
    if q.Outgoing? {
      OutgoingMoves(l);
    } else if q.Responses? {
      ResponseMoves(l);
    } else {
      ReplyMoves(l);
    }
  }

  lemma WritePlaces(l: Link, q: Place, i: nat, p: Packet) returns (q': Place, i': nat)
    requires At(l, q, i, p) && Stage(q) == 2
    ensures LinkEnabled(l, Serving(q)) && At(LinkNext(l, Serving(q)), q', i', p)
    ensures if i == 0 then Stage(q') == 1 else q' == q && i' == i - 1
  {
    if i > 0 {
      q', i' := q, i - 1;
    } else if q.Replies? {
      q', i' := Down, |l.down|;
    } else {
      q', i' := Up, |l.up|;
    }
  }

  /** Writing passes the packet on, or brings it one place forward. */
  lemma WriteMoves(l: Link, q: Place, i: nat, p: Packet, m: Msg) returns (d: Link, q': Place, i': nat)
    requires OnItsWay(l, q, i, p, m) && Stage(q) == 2
    ensures LinkStep(l, Serving(q), d) && OnItsWay(d, q', i', p, m)
    ensures if i == 0 then Stage(q') == 1 else q' == q && i' == i - 1
  {
    WriteKeepsBags(l, q);
    q', i' := WritePlaces(l, q, i, p);
    d := LinkNext(l, Serving(q));
  }

  ghost predicate LinkStep(l: Link, a: LinkAction, d: Link) {
    LinkEnabled(l, a) && d == LinkNext(l, a)
  }

  lemma HeadInFlight(l: Link, q: Place)
    requires QueueAt(l, q) != []
    ensures q.Up? ==> l.up[0] in Bags(l).toReceiver
    ensures q.Down? ==> l.down[0] in Bags(l).toSender
  {
    if q.Up? {
      assert l.up[0] in multiset(l.up);
    } else if q.Down? {
      assert l.down[0] in multiset(l.down);
    }
  }

  /** Reading another packet brings this one forward. */
  lemma ReadMoves(l: Link, q: Place, i: nat, p: Packet, m: Msg) returns (d: Link)
    requires OnItsWay(l, q, i, p, m) && Stage(q) == 1 && i > 0
    ensures LinkStep(l, Serving(q), d) && OnItsWay(d, q, i - 1, p, m)
  {
    var a, n := Serving(q), Bags(l);
    StepRefines(l, a);
    HeadInFlight(l, q);
    HeadsDiffer(l, q, i);
    StepSound(n, AsBagStep(l, a));
    UnderwayKept(n, AsBagStep(l, a), p, m);
    d := LinkNext(l, a);
  }

  /** No packet is in a queue twice. */
  lemma HeadsDiffer(l: Link, q: Place, i: nat)
    requires Single(Bags(l)) && 0 < i < |QueueAt(l, q)| && Stage(q) == 1
    ensures QueueAt(l, q)[0] != QueueAt(l, q)[i]
  {
    var s := QueueAt(l, q);
    assert s == [s[0]] + s[1..];
    assert s[i] in multiset(s[1..]);
    assert Bags(l).toReceiver[s[i]] + Bags(l).toSender[s[i]] <= 1;
    assert multiset(s)[s[i]] <= 1;
  }

  /** Reading the packet leads to the next one of the exchange, or the message is done. */
  lemma ReadHandles(l: Link, q: Place, p: Packet, m: Msg)
    returns (d: Link, r: Option<Packet>, q': Place, i': nat)
    requires OnItsWay(l, q, 0, p, m) && Stage(q) == 1
    ensures LinkStep(l, Serving(q), d)
    ensures if r.Some? then OnItsWay(d, q', i', r.value, m) && Hops(r.value) == Hops(p) - 1 else Done(d.core, m)
  {
    StepRefines(l, Serving(q));
    HeadInFlight(l, q);
    d := LinkNext(l, Serving(q));
    r := ReadBags(Bags(l), AsBagStep(l, Serving(q)), p, m);
    q', i' := ReadPlaces(l, q, p, r);
  }

  lemma ReadBags(n: Net, a: Action, p: Packet, m: Msg) returns (r: Option<Packet>)
    requires GoodBags(n, p, m) && Enabled(n, a) && (a == ToReceiver(p) || a == ToSender(p))
    ensures r == if a.ToReceiver? then Receive(n.core, p).1 else Answer(n.core, p).1
    ensures if r.Some? then GoodBags(Next(n, a), r.value, m) && Hops(r.value) == Hops(p) - 1
            else Done(Next(n, a).core, m)
  {
    StepSound(n, a);
    if a.ToReceiver? {
      ReceivedNext(n, p, m);
      r := Receive(n.core, p).1;
    } else {
      AnsweredNext(n, p, m);
      r := Answer(n.core, p).1;
    }
  }

  lemma ReadPlaces(l: Link, q: Place, p: Packet, r: Option<Packet>) returns (q': Place, i': nat)
    requires At(l, q, 0, p) && Stage(q) == 1
    requires r == if q.Up? then Receive(l.core, p).1 else Answer(l.core, p).1
    ensures r.Some? ==> At(LinkNext(l, Serving(q)), q', i', r.value)
  {
    q', i' := if q.Up? then Replies else Responses, if q.Up? then |l.replies| else |l.responses|;
  }

  // ----- Until the message is done -----

  lemma {:induction false} LinkFinishes(l: Link, q: Place, i: nat, p: Packet, m: Msg)
    returns (run: seq<Link>, actions: seq<LinkAction>)
    requires OnItsWay(l, q, i, p, m)
    ensures Arrives(l, run, actions, m)
    decreases Hops(p), Stage(q), i
  {
    var later, rest;
    var d, r, q', i' := Moves(l, q, i, p, m);
    if r.Some? {
      later, rest := LinkFinishes(d, q', i', r.value, m);
    } else {
      later, rest := ArrivedAt(d, m);
    }
    run, actions := LinkPreceded(l, Serving(q), d, later, rest, m);
  }

  /** `r` is now the packet of the exchange, nearer to the end; or the message is done. */
  ghost predicate Forward(d: Link, r: Option<Packet>, q': Place, i': nat, p: Packet, q: Place, i: nat, m: Msg) {
    match r
    case None => Done(d.core, m)
    case Some(x) => OnItsWay(d, q', i', x, m) && Nearer(Hops(x), Stage(q'), i', Hops(p), Stage(q), i)
  }

  lemma WriteForward(l: Link, q: Place, i: nat, p: Packet, m: Msg)
    returns (d: Link, r: Option<Packet>, q': Place, i': nat)
    requires OnItsWay(l, q, i, p, m) && Stage(q) == 2
    ensures LinkStep(l, Serving(q), d) && Forward(d, r, q', i', p, q, i, m)
  {
    d, q', i' := WriteMoves(l, q, i, p, m);
    r := Some(p);
  }

  lemma ReadForward(l: Link, q: Place, i: nat, p: Packet, m: Msg)
    returns (d: Link, r: Option<Packet>, q': Place, i': nat)
    requires OnItsWay(l, q, i, p, m) && Stage(q) == 1 && i > 0
    ensures LinkStep(l, Serving(q), d) && Forward(d, r, q', i', p, q, i, m)
  {
    d := ReadMoves(l, q, i, p, m);
    r, q', i' := Some(p), q, i - 1;
    OnePlaceForward(d, q, i, p, m);
  }

  lemma OnePlaceForward(d: Link, q: Place, i: nat, p: Packet, m: Msg)
    requires i > 0 && OnItsWay(d, q, i - 1, p, m)
    ensures Forward(d, Some(p), q, i - 1, p, q, i, m)
  {
  }

  /** Serving the queue that the packet is in brings the exchange forward, or to its end. */
  lemma Moves(l: Link, q: Place, i: nat, p: Packet, m: Msg)
    returns (d: Link, r: Option<Packet>, q': Place, i': nat)
    requires OnItsWay(l, q, i, p, m)
    ensures LinkStep(l, Serving(q), d) && Forward(d, r, q', i', p, q, i, m)
  {
    if Stage(q) == 2 {
      d, r, q', i' := WriteForward(l, q, i, p, m);
    } else if i > 0 {
      d, r, q', i' := ReadForward(l, q, i, p, m);
    } else {
      d, r, q', i' := ReadHandles(l, q, p, m);
    }
  }

  predicate Nearer(hops: nat, stage: nat, i: nat, hops0: nat, stage0: nat, i0: nat) {
    hops < hops0 || (hops == hops0 && (stage < stage0 || (stage == stage0 && i < i0)))
  }

  lemma ArrivedAt(d: Link, m: Msg) returns (run: seq<Link>, actions: seq<LinkAction>)
    requires Done(d.core, m)
    ensures Arrives(d, run, actions, m)
  {
    run, actions := [d], [];
  }

  /** In every run of the queues that issues no identifier on its way, a message whose packet is
      in one of the queues can be brought to its handlers and its token to success by reading
      and writing alone, in the order of the queues. */
  lemma LinkMessageFinishes(run: seq<Link>, actions: seq<LinkAction>, n: nat, p: Packet, m: Msg)
    returns (later: seq<Link>, rest: seq<LinkAction>)
    requires IsLinkRun(run, actions) && n < |run|
    requires forall j :: 0 <= j < |actions| ==> CarefulStep(run[j], actions[j])
    requires OnTheWay(run[n], p) && p.Pub? && p.msg == m && !p.qos.Qos0? && m in run[n].core.current
    ensures Arrives(run[n], later, rest, m)
  {
    var bags, steps := RunRefines(run, actions);
    forall j | 0 <= j < |steps| ensures Careful(bags[j], steps[j]) {
      CarefulRefines(run[j], actions[j]);
    }
    RunSound(bags, steps, n);
    OnTheWayIsInFlight(run[n], p);
    assert Means(bags[n].core, p);
    var q, i := SomewhereAt(run[n], p);
    later, rest := LinkFinishes(run[n], q, i, p, m);
  }

  // ----- The order of the queues -----

  /** The PUBLISH packets of a queue, or the others. */
  function Only(s: Queue, pubs: bool): Queue {
    if s == [] then []
    else Only(s[..|s| - 1], pubs) + if s[|s| - 1].Pub? == pubs then [s[|s| - 1]] else []
  }

  lemma {:induction false} OnlyConcat(a: Queue, b: Queue, pubs: bool)
    ensures Only(a + b, pubs) == Only(a, pubs) + Only(b, pubs)
  {
    if b == [] {
      assert a + b == a;
    } else {
      var n := |b| - 1;
      assert (a + b)[..|a + b| - 1] == a + b[..n];
      OnlyConcat(a, b[..n], pubs);
    }
  }

  lemma OnlyOne(p: Packet, pubs: bool)
    ensures Only([p], pubs) == if p.Pub? == pubs then [p] else []
  {
    assert [p][..0] == [];
  }

  function AsQueue(p: Option<Packet>): Queue {
    if p.Some? then [p.value] else []
  }

  /** What the step makes the sender send: the packet of a call, or an answer to what it read. */
  function Sends(l: Link, a: LinkAction, pubs: bool): Queue {
    match a
    case Call(qos, fate) => if pubs then AsQueue(PublishCall(l.core, qos, fate).1) else []
    case SenderReads => if pubs || l.down == [] then [] else AsQueue(Answer(l.core, l.down[0]).1)
    case _ => []
  }

  /** What the step makes the receiver read. */
  function Reads(l: Link, a: LinkAction, pubs: bool): Queue {
    if a.ReceiverReads? && l.up != [] then Only([l.up[0]], pubs) else []
  }

  function SentIn(run: seq<Link>, actions: seq<LinkAction>, n: nat, pubs: bool): Queue
    requires n <= |run| && n <= |actions|
  {
    if n == 0 then [] else SentIn(run, actions, n - 1, pubs) + Sends(run[n - 1], actions[n - 1], pubs)
  }

  function ReadIn(run: seq<Link>, actions: seq<LinkAction>, n: nat, pubs: bool): Queue
    requires n <= |run| && n <= |actions|
  {
    if n == 0 then [] else ReadIn(run, actions, n - 1, pubs) + Reads(run[n - 1], actions[n - 1], pubs)
  }

  function Unread(l: Link, pubs: bool): Queue {
    Only(l.up, pubs) + if pubs then l.outgoing else l.responses
  }

  /** The channels hold what their names say. */
  ghost predicate Sorted(l: Link) {
    (forall p :: p in l.outgoing ==> p.Pub?) && (forall p :: p in l.responses ==> p.Resp?)
  }

  lemma StepSorted(l: Link, a: LinkAction)
    requires Sorted(l) && LinkEnabled(l, a)
    ensures Sorted(LinkNext(l, a))
  {
  }

  /** Reading takes the first unread packet of its kind. */
  lemma ReadFirst(s: Queue, pubs: bool)
    requires s != []
    ensures Only(s, pubs) == Only([s[0]], pubs) + Only(s[1..], pubs)
  {
    assert s == [s[0]] + s[1..];
    OnlyConcat([s[0]], s[1..], pubs);
  }

  lemma StepOrder(l: Link, a: LinkAction, pubs: bool)
    requires Sorted(l) && LinkEnabled(l, a) && !Drops(a) && !a.SenderEnds?
    ensures Reads(l, a, pubs) + Unread(LinkNext(l, a), pubs) == Unread(l, pubs) + Sends(l, a, pubs)
  {
    match a
    case WriteOutgoing => OutgoingOrder(l, pubs);
    case WriteResponse => ResponseOrder(l, pubs);
    case ReceiverReads => ReadFirst(l.up, pubs);
    case _ =>
  }

  lemma OutgoingOrder(l: Link, pubs: bool)
    requires Sorted(l) && l.outgoing != []
    ensures Unread(LinkNext(l, WriteOutgoing), pubs) == Unread(l, pubs)
  {
    assert l.outgoing[0] in l.outgoing;
    HeadPasses(l.up, l.outgoing, pubs);
  }

  lemma ResponseOrder(l: Link, pubs: bool)
    requires Sorted(l) && l.responses != []
    ensures Unread(LinkNext(l, WriteResponse), pubs) == Unread(l, pubs)
  {
    assert l.responses[0] in l.responses;
    HeadPasses(l.up, l.responses, pubs);
  }

  /** The head of a channel goes to the end of the wire. */
  lemma HeadPasses(up: Queue, from: Queue, pubs: bool)
    requires from != []
    ensures if from[0].Pub? == pubs then Only(up + [from[0]], pubs) + from[1..] == Only(up, pubs) + from
            else Only(up + [from[0]], pubs) == Only(up, pubs)
  {
    OnlyConcat(up, [from[0]], pubs);
    OnlyOne(from[0], pubs);
    assert Only(up, pubs) + [from[0]] + from[1..] == Only(up, pubs) + ([from[0]] + from[1..]);
    assert from == [from[0]] + from[1..];
  }

  /** In every run without drops and session ends the receiver reads the PUBLISH packets in the
      order of the calls, and the PUBRELs in the order of the answers, none missing. */
  lemma {:induction false} ReadInOrder(run: seq<Link>, actions: seq<LinkAction>, n: nat, pubs: bool)
    requires IsLinkRun(run, actions) && n < |run|
    requires forall j :: 0 <= j < n ==> !Drops(actions[j]) && !actions[j].SenderEnds?
    ensures Sorted(run[n])
    ensures SentIn(run, actions, n, pubs) == ReadIn(run, actions, n, pubs) + Unread(run[n], pubs)
  {
    if n > 0 {
      ReadInOrder(run, actions, n - 1, pubs);
      var l, a := run[n - 1], actions[n - 1];
      StepSorted(l, a);
      StepOrder(l, a, pubs);
      var read := ReadIn(run, actions, n - 1, pubs);
      assert read + Unread(l, pubs) + Sends(l, a, pubs) == read + (Reads(l, a, pubs) + Unread(run[n], pubs));
    }
  }

  /** The receiver's responses that the step makes, and those it makes the sender read. */
  function Responds(l: Link, a: LinkAction): Queue {
    if a.ReceiverReads? && l.up != [] then AsQueue(Receive(l.core, l.up[0]).1) else []
  }

  function RespondedIn(run: seq<Link>, actions: seq<LinkAction>, n: nat): Queue
    requires n <= |run| && n <= |actions|
  {
    if n == 0 then [] else RespondedIn(run, actions, n - 1) + Responds(run[n - 1], actions[n - 1])
  }

  function Answers(l: Link, a: LinkAction): Queue {
    if a.SenderReads? && l.down != [] then [l.down[0]] else []
  }

  function AnsweredIn(run: seq<Link>, actions: seq<LinkAction>, n: nat): Queue
    requires n <= |run| && n <= |actions|
  {
    if n == 0 then [] else AnsweredIn(run, actions, n - 1) + Answers(run[n - 1], actions[n - 1])
  }

  lemma StepAnswers(l: Link, a: LinkAction)
    requires LinkEnabled(l, a) && !Drops(a)
    ensures var d := LinkNext(l, a);
            Answers(l, a) + (d.down + d.replies) == l.down + l.replies + Responds(l, a)
  {
    match a
    case ReceiverWrites => assert l.replies == [l.replies[0]] + l.replies[1..];
    case SenderReads => assert l.down == [l.down[0]] + l.down[1..];
    case _ =>
  }

  lemma Regrouped(done: Queue, before: Queue, more: Queue, less: Queue, after: Queue)
    requires less + after == before + more
    ensures done + before + more == done + less + after
  {
    assert done + before + more == done + (before + more);
    assert done + less + after == done + (less + after);
  }

  /** And the sender reads the responses in the order in which they were made. */
  lemma {:induction false} AnsweredInOrder(run: seq<Link>, actions: seq<LinkAction>, n: nat)
    requires IsLinkRun(run, actions) && n < |run| && forall j :: 0 <= j < n ==> !Drops(actions[j])
    ensures RespondedIn(run, actions, n) == AnsweredIn(run, actions, n) + (run[n].down + run[n].replies)
  {
    if n > 0 {
      AnsweredInOrder(run, actions, n - 1);
      var l, a := run[n - 1], actions[n - 1];
      StepAnswers(l, a);
      Regrouped(AnsweredIn(run, actions, n - 1), l.down + l.replies, Responds(l, a), Answers(l, a),
                run[n].down + run[n].replies);
    }
  }
}
