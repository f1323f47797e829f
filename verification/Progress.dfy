/** That the handshakes of `Delivery` get somewhere: a message on its way can always be brought
    to its handlers and its token to success, and nothing pending disappears unnoticed. */
module Progress {
  import opened Topics
  import opened Tokens
  import opened PacketIds
  import opened Handlers
  import opened Delivery
  import opened Handshake

  // ----- What packets say about the QoS of their message -----

  function LevelOf(q: QosWithId): Qos {
    match q
    case Qos0 => Level0
    case Qos1(_) => Level1
    case Qos2(_) => Level2
  }

  /** The QoS of the messages that a response is for. */
  function LevelFor(r: Response): Qos {
    if r.Puback? then Level1 else Level2
  }

  /** A PUBLISH has the QoS its message was published with; a packet whose identifier is held
      belongs to a token without error, of the packet's QoS. */
  ghost predicate Proper(c: Core, p: Packet) {
    && (p.Pub? ==> p.msg < |c.published| && c.published[p.msg] == LevelOf(p.qos))
    && (IdOf(p) != 0 && IdOf(p) in c.ids.index && c.ids.index[IdOf(p)].OfMsg? ==>
          var m := c.ids.index[IdOf(p)].msg;
          && m < |c.records| == |c.published| && c.records[m].error == None
          && (p.Resp? ==> c.published[m] == LevelFor(p.response)))
  }

  ghost predicate AllProper(n: Net) {
    forall p :: InFlight(n, p) ==> Proper(n.core, p)
  }

  ghost predicate Sound(n: Net) {
    Inv(n) && AllProper(n)
  }

  /** A core in which nothing changed for the token that holds the packet's identifier. */
  lemma ProperKept(c: Core, d: Core, p: Packet)
    requires Proper(c, p) && |c.published| == |c.records| && |d.published| == |d.records|
    requires c.published <= d.published && |c.records| <= |d.records|
    requires IdOf(p) != 0 && IdOf(p) in d.ids.index && d.ids.index[IdOf(p)].OfMsg? ==>
               && IdOf(p) in c.ids.index && c.ids.index[IdOf(p)] == d.ids.index[IdOf(p)]
               && (c.ids.index[IdOf(p)].msg < |c.records| ==>
                     d.records[c.ids.index[IdOf(p)].msg] == c.records[c.ids.index[IdOf(p)].msg])
    ensures Proper(d, p)
  {
  }

  lemma ReceiveProper(n: Net, p: Packet)
    requires Sound(n) && p in n.toReceiver
    ensures AllProper(Next(n, ToReceiver(p)))
  {
    var c, d := n.core, Next(n, ToReceiver(p));
    var r := Receive(c, p).1;
    assert InFlight(n, p) && Proper(c, p) && Means(c, p);
    ReceiveFrame(c, p);
    forall q | InFlight(d, q) ensures Proper(d.core, q) {
      assert r == Some(q) || InFlight(n, q);
      if r == Some(q) {
        ResponseProper(c, p);
      }
      ProperKept(c, d.core, q);
    }
  }

  /** The receiver leaves the sender alone. */
  lemma ReceiveFrame(c: Core, p: Packet)
    ensures var d := Receive(c, p).0;
            d.ids == c.ids && d.published == c.published && d.records == c.records && d.current == c.current
  {
  }

  /** The response belongs to the same exchange. */
  lemma ResponseProper(c: Core, p: Packet)
    requires Proper(c, p) && Means(c, p) && Receive(c, p).1.Some?
    requires p.Pub? || p.response.Pubrel?
    ensures Proper(c, Receive(c, p).1.value)
  {
  }

  lemma AnswerProper(n: Net, p: Packet)
    requires Sound(n) && p in n.toSender
    ensures AllProper(Next(n, ToSender(p)))
  {
    var c, d := n.core, Next(n, ToSender(p));
    var r := Answer(c, p).1;
    assert InFlight(n, p) && Proper(c, p) && Means(c, p);
    BackwardFlight(n, p, r, d);
    forall q | InFlight(d, q) ensures Proper(d.core, q) {
      if r != Some(q) {
        AnswerKeeps(n, p, q);
      }
    }
  }

  /** An answer leaves the tokens of the other packets alone. */
  lemma AnswerKeeps(n: Net, p: Packet, q: Packet)
    requires Sound(n) && p in n.toSender && InFlight(n, q) && q != p
    ensures Proper(Answer(n.core, p).0, q)
  {
    var c := n.core;
    assert InFlight(n, p) && (IdOf(q) == IdOf(p) ==> IdOf(q) == 0);
    assert Proper(c, q) && Means(c, q) && Means(c, p);
    if (p.response.Puback? || p.response.Pubcomp?) && IdOf(p) in c.ids.index {
      AckKeepsProper(c, IdOf(p), q);
    }
  }

  lemma AckKeepsProper(c: Core, id: U16, q: Packet)
    requires CoreInv(c) && id in c.ids.index && Proper(c, q) && IdOf(q) != id
    ensures Proper(Ack(c, id), q)
  {
  }

  lemma PublishProper(n: Net, qos: Qos, fate: Fate)
    requires Sound(n) && Careful(n, PublishMsg(qos, fate))
    ensures AllProper(Next(n, PublishMsg(qos, fate)))
  {
    var c, d := n.core, Next(n, PublishMsg(qos, fate));
    var p := PublishCall(c, qos, fate).1;
    forall q | InFlight(d, q) ensures Proper(d.core, q) {
      assert p == Some(q) || InFlight(n, q);
      if p == Some(q) {
        PublishedProper(c, qos, fate);
      } else {
        assert IdOf(q) == NextId(c.ids) ==> Carried(n, NextId(c.ids));
        PublishKeepsProper(c, qos, fate, q);
      }
    }
  }

  lemma PublishKeepsProper(c: Core, qos: Qos, fate: Fate, q: Packet)
    requires CoreInv(c) && Proper(c, q)
    requires qos.Level0? || NextId(c.ids) == 0 || IdOf(q) != NextId(c.ids)
    ensures Proper(PublishCall(c, qos, fate).0, q)
  {
    var d := PublishCall(c, qos, fate).0;
    assert forall m :: 0 <= m < |c.records| ==> d.records[m] == c.records[m];
    ProperKept(c, d, q);
  }

  lemma PublishedProper(c: Core, qos: Qos, fate: Fate)
    requires Once(c) && PublishCall(c, qos, fate).1.Some?
    ensures Proper(PublishCall(c, qos, fate).0, PublishCall(c, qos, fate).1.value)
  {
  }

  lemma QuietProper(n: Net, a: Action)
    requires Sound(n) && Enabled(n, a) && Careful(n, a)
    requires a.Lose? || a.Expire? || a.TakeOther? || a.FreeOther? || a.SessionEnd?
    ensures AllProper(Next(n, a))
  {
    var d := Next(n, a);
    forall q | InFlight(d, q) ensures Proper(d.core, q) {
      assert InFlight(n, q);
      assert a.TakeOther? && IdOf(q) == NextId(n.core.ids) ==> Carried(n, NextId(n.core.ids));
      ProperKept(n.core, d.core, q);
    }
  }

  lemma StepSound(n: Net, a: Action)
    requires Sound(n) && Enabled(n, a) && Careful(n, a)
    ensures Sound(Next(n, a))
  {
    StepInv(n, a);
    match a
    case PublishMsg(qos, fate) => PublishProper(n, qos, fate);
    case ToReceiver(p) => ReceiveProper(n, p);
    case ToSender(p) => AnswerProper(n, p);
    case _ => QuietProper(n, a);
  }

  lemma {:induction false} RunSound(run: seq<Net>, actions: seq<Action>, i: nat)
    requires IsCarefulRun(run, actions) && i < |run|
    ensures Sound(run[i])
  {
    if i > 0 {
      RunSound(run, actions, i - 1);
      assert Steps(run[i - 1], actions[i - 1], run[i]);
      StepSound(run[i - 1], actions[i - 1]);
    }
  }

  // ----- An exchange goes on to its end -----

  /** `p` is in flight under an identifier that the token of message `m` holds. */
  ghost predicate Underway(n: Net, p: Packet, m: Msg) {
    && InFlight(n, p) && IdOf(p) != 0 && IdOf(p) in n.core.ids.index && n.core.ids.index[IdOf(p)] == OfMsg(m)
    && m !in n.core.expired
  }

  /** Dispatched once, and the token reports success. */
  ghost predicate Done(c: Core, m: Msg) {
    Times(c, m) == 1 && Succeeded(c, m)
  }

  /** How many packets of the exchange are still to be handled. */
  function Hops(p: Packet): nat {
    match p
    case Pub(_, Qos0) => 1
    case Pub(_, Qos1(_)) => 2
    case Pub(_, Qos2(_)) => 4
    case Resp(Pubrec(_)) => 3
    case Resp(Pubrel(_)) => 2
    case Resp(_) => 1
  }

  function Handling(n: Net, p: Packet): Action {
    if p in n.toReceiver then ToReceiver(p) else ToSender(p)
  }

  /** Handling a packet of the exchange leads to its next packet, or the exchange is done. */
  lemma HandledMeans(n: Net, p: Packet, m: Msg) returns (r: Option<Packet>)
    requires Sound(n) && Underway(n, p, m)
    ensures Enabled(n, Handling(n, p)) && Sound(Next(n, Handling(n, p)))
    ensures if r.Some? then Underway(Next(n, Handling(n, p)), r.value, m) && Hops(r.value) == Hops(p) - 1
                            && IdOf(r.value) == IdOf(p)
            else Hops(p) == 1 && Done(Next(n, Handling(n, p)).core, m)
  {
    var a := Handling(n, p);
    var d := Next(n, a);
    assert Means(n.core, p) && Proper(n.core, p);
    StepSound(n, a);
    if p in n.toReceiver {
      r := Receive(n.core, p).1;
      ReceivedNext(n, p, m);
    } else {
      r := Answer(n.core, p).1;
      AnsweredNext(n, p, m);
    }
  }

  lemma ReceivedNext(n: Net, p: Packet, m: Msg)
    requires Sound(n) && Underway(n, p, m) && p in n.toReceiver
    ensures var (c, r) := Receive(n.core, p);
            && r.Some? && Underway(Next(n, ToReceiver(p)), r.value, m)
            && Hops(r.value) == Hops(p) - 1 && IdOf(r.value) == IdOf(p)
  {
    assert Means(n.core, p);
    ReceiveFrame(n.core, p);
    var r := Receive(n.core, p).1;
    assert r.value in Next(n, ToReceiver(p)).toSender;
  }

  lemma AnsweredNext(n: Net, p: Packet, m: Msg)
    requires Sound(n) && Underway(n, p, m) && p in n.toSender
    ensures var (c, r) := Answer(n.core, p);
            if r.Some? then Underway(Next(n, ToSender(p)), r.value, m) && Hops(r.value) == Hops(p) - 1
                            && IdOf(r.value) == IdOf(p)
            else Hops(p) == 1 && Done(c, m)
  {
    assert Means(n.core, p) && Proper(n.core, p);
    var (c, r) := Answer(n.core, p);
    if r.Some? {
      assert r.value in Next(n, ToSender(p)).toReceiver;
    } else {
      assert forall x :: Times(c, x) == Times(n.core, x);
    }
  }

  /** The packets of the exchange are handled one by one, and nothing else happens. */
  ghost predicate Handles(n: Net, a: Action, id: U16) {
    && (a.ToReceiver? || a.ToSender?) && IdOf(a.p) == id && a == Handling(n, a.p)
  }

  /** From `n` on the packets under `id` are handled, `hops` of them, and the message is done. */
  ghost predicate Finished(n: Net, run: seq<Net>, actions: seq<Action>, id: U16, hops: nat, m: Msg) {
    && Follows(run, actions) && run[0] == n && |actions| == hops
    && (forall i :: 0 <= i < |actions| ==> Handles(run[i], actions[i], id))
    && Done(run[|run| - 1].core, m)
  }

  /** A QoS 1 or 2 message on its way: handling its packets, one by one, dispatches it exactly
      once and completes its token with success. */
  lemma {:induction false} Finishes(n: Net, p: Packet, m: Msg) returns (run: seq<Net>, actions: seq<Action>)
    requires Sound(n) && Underway(n, p, m)
    ensures Finished(n, run, actions, IdOf(p), Hops(p), m)
    decreases Hops(p)
  {
    var a, d, r := HandledStep(n, p, m);
    if r.None? {
      Stopped(d, IdOf(p), m);
      run, actions := Preceded(n, a, [d], [], IdOf(p), 0, m);
    } else {
      var later, rest := Finishes(d, r.value, m);
      run, actions := Preceded(n, a, later, rest, IdOf(p), Hops(r.value), m);
    }
  }

  lemma Stopped(d: Net, id: U16, m: Msg)
    requires Done(d.core, m)
    ensures Finished(d, [d], [], id, 0, m)
  {
  }

  lemma HandledStep(n: Net, p: Packet, m: Msg) returns (a: Action, d: Net, r: Option<Packet>)
    requires Sound(n) && Underway(n, p, m)
    ensures Steps(n, a, d) && Handles(n, a, IdOf(p)) && Sound(d)
    ensures if r.Some? then Underway(d, r.value, m) && Hops(r.value) == Hops(p) - 1 && IdOf(r.value) == IdOf(p)
            else Hops(p) == 1 && Done(d.core, m)
  {
    a := Handling(n, p);
    r := HandledMeans(n, p, m);
    d := Next(n, a);
  }

  lemma Preceded(n: Net, a: Action, later: seq<Net>, rest: seq<Action>, id: U16, hops: nat, m: Msg)
    returns (run: seq<Net>, actions: seq<Action>)
    requires later != [] && Finished(later[0], later, rest, id, hops, m)
    requires Steps(n, a, later[0]) && Handles(n, a, id)
    ensures Finished(n, run, actions, id, hops + 1, m)
  {
    run, actions := [n] + later, [a] + rest;
    forall i | 0 <= i < |actions|
      ensures Steps(run[i], actions[i], run[i + 1])
      ensures Handles(run[i], actions[i], id)
    {
      if i > 0 {
        assert run[i] == later[i - 1] && run[i + 1] == later[i] && actions[i] == rest[i - 1];
      }
    }
  }

  /** The same of every state that a careful run reaches, for a message of the session whose
      PUBLISH is in flight, or which is pending with its PUBREC or PUBREL in flight. */
  lemma MessageFinishes(run: seq<Net>, actions: seq<Action>, i: nat, p: Packet, m: Msg)
    returns (later: seq<Net>, steps: seq<Action>)
    requires IsCarefulRun(run, actions) && i < |run| && InFlight(run[i], p) && m in run[i].core.current
    requires || (p.Pub? && p.msg == m && !p.qos.Qos0?)
             || (p.Resp? && (p.response.Pubrec? || p.response.Pubrel?)
                 && IdOf(p) in run[i].core.pending && run[i].core.pending[IdOf(p)] == m)
    ensures Finished(run[i], later, steps, IdOf(p), Hops(p), m)
  {
    RunSound(run, actions, i);
    var n := run[i];
    assert Means(n.core, p) && (p.Resp? ==> IsPending(n.core, m));
    later, steps := Finishes(n, p, m);
  }

  /** A QoS 0 message in flight: handling it dispatches it. */
  lemma QosZeroArrives(run: seq<Net>, actions: seq<Action>, i: nat, p: Packet)
    requires IsRun(run, actions) && i < |run| && p in run[i].toReceiver && p.Pub? && p.qos.Qos0?
    ensures Times(Next(run[i], ToReceiver(p)).core, p.msg) == 1
  {
    RunOnce(run, actions, i);
    assert InFlight(run[i], p);
    DispatchOnce(run[i].core, p.msg);
  }

  // ----- No exchange stalls -----

  /** Nothing is lost, expires or ends. */
  ghost predicate Lossless(n: Net, a: Action) {
    !a.Expire? && !a.SessionEnd? && (a.Lose? ==> a == Lose(n.toReceiver, n.toSender))
  }

  /** Some packet of the message is underway. */
  ghost predicate Talks(n: Net, m: Msg) {
    exists p :: Underway(n, p, m)
  }

  lemma UnderwayKept(n: Net, a: Action, p: Packet, m: Msg)
    requires Sound(n) && Enabled(n, a) && Careful(n, a) && Lossless(n, a) && Underway(n, p, m)
    requires a != ToReceiver(p) && a != ToSender(p)
    ensures Underway(Next(n, a), p, m)
  {
    match a
    case PublishMsg(qos, fate) => PublishKeepsHolders(n.core, qos, fate);
    case TakeOther => NextIdIsFirstVacant(n.core.ids, OfOther);
    case ToReceiver(q) => ReceiveKeepsUnderway(n, q, p, m);
    case ToSender(q) => AnswerKeepsUnderway(n, q, p, m);
    case _ =>
  }

  lemma PublishKeepsHolders(c: Core, qos: Qos, fate: Fate)
    ensures var d := PublishCall(c, qos, fate).0;
            && d.expired == c.expired
            && forall id :: id in c.ids.index ==> id in d.ids.index && d.ids.index[id] == c.ids.index[id]
  {
    NextIdIsFirstVacant(c.ids, OfOther);
  }

  lemma ReceiveKeepsUnderway(n: Net, q: Packet, p: Packet, m: Msg)
    requires Underway(n, p, m) && q in n.toReceiver && q != p
    ensures Underway(Next(n, ToReceiver(q)), p, m)
  {
    ReceiveFrame(n.core, q);
    assert Receive(n.core, q).0.expired == n.core.expired;
  }

  lemma AnswerKeepsUnderway(n: Net, q: Packet, p: Packet, m: Msg)
    requires Single(n) && Directed(n) && Underway(n, p, m) && q in n.toSender && q != p
    ensures Underway(Next(n, ToSender(q)), p, m)
  {
    assert InFlight(n, q) && IdOf(q) != IdOf(p);
    AnswerIds(n.core, q);
    AnswerHolders(n.core, q);
  }

  lemma AnswerHolders(c: Core, p: Packet)
    ensures var d := Answer(c, p).0;
            && d.expired == c.expired && d.dispatched == c.dispatched
            && forall id :: id in d.ids.index ==> id in c.ids.index && d.ids.index[id] == c.ids.index[id]
  {
  }

  lemma DoneKept(n: Net, a: Action, m: Msg)
    requires Sound(n) && Enabled(n, a) && Lossless(n, a) && Done(n.core, m)
    ensures Done(Next(n, a).core, m)
  {
    StepOnce(n, a);
    TimesGrow(n, a, m);
    SuccessKept(n, a, m);
  }

  lemma TimesGrow(n: Net, a: Action, m: Msg)
    requires Enabled(n, a)
    ensures Times(Next(n, a).core, m) >= Times(n.core, m)
  {
    match a
    case ToReceiver(p) => ReceivedTimes(n.core, p, m);
    case ToSender(p) => AnswerHolders(n.core, p);
    case _ => assert Next(n, a).core.dispatched == n.core.dispatched;
  }

  lemma ReceivedTimes(c: Core, p: Packet, m: Msg)
    ensures Times(Receive(c, p).0, m) >= Times(c, m)
  {
  }

  lemma SuccessKept(n: Net, a: Action, m: Msg)
    requires Enabled(n, a) && Lossless(n, a) && Succeeded(n.core, m) && |n.core.published| == |n.core.records|
    ensures Succeeded(Next(n, a).core, m)
  {
    if a.ToReceiver? {
      ReceiveFrame(n.core, a.p);
    } else if a.ToSender? {
      AnswerKeepsSuccess(n.core, a.p, m);
    } else if a.PublishMsg? {
      PublishKeepsSuccess(n.core, a.qos, a.fate, m);
    } else {
      assert Next(n, a).core.records == n.core.records && Next(n, a).core.published == n.core.published;
    }
  }

  lemma AnswerKeepsSuccess(c: Core, p: Packet, m: Msg)
    requires Succeeded(c, m)
    ensures Succeeded(Answer(c, p).0, m)
  {
  }

  lemma PublishKeepsSuccess(c: Core, qos: Qos, fate: Fate, m: Msg)
    requires Succeeded(c, m) && |c.published| == |c.records|
    ensures Succeeded(PublishCall(c, qos, fate).0, m)
  {
  }

  /** Whatever else happens, short of losses and endings: a message on its way stays on its way
      until it is done, and then stays done. */
  lemma NeverStalls(n: Net, a: Action, m: Msg)
    requires Sound(n) && Enabled(n, a) && Careful(n, a) && Lossless(n, a)
    requires Talks(n, m) || Done(n.core, m)
    ensures Talks(Next(n, a), m) || Done(Next(n, a).core, m)
  {
    if Done(n.core, m) {
      DoneKept(n, a, m);
    } else {
      var p :| Underway(n, p, m);
      if a == ToReceiver(p) || a == ToSender(p) {
        assert n.toReceiver[p] + n.toSender[p] <= 1 && a == Handling(n, p);
        var r := HandledMeans(n, p, m);
        if r.Some? {
          assert Underway(Next(n, a), r.value, m);
        }
      } else {
        UnderwayKept(n, a, p, m);
      }
    }
  }

  /** So in every continuation without losses and endings that leaves the links empty, the
      message is done. */
  lemma {:induction false} GoesOn(run: seq<Net>, actions: seq<Action>, i: nat, m: Msg)
    requires Follows(run, actions) && Sound(run[0]) && i < |run|
    requires forall j :: 0 <= j < |actions| ==> Careful(run[j], actions[j]) && Lossless(run[j], actions[j])
    requires Talks(run[0], m)
    ensures Sound(run[i]) && (Talks(run[i], m) || Done(run[i].core, m))
    ensures run[i].toReceiver == multiset{} && run[i].toSender == multiset{} ==> Done(run[i].core, m)
  {
    if i > 0 {
      GoesOn(run, actions, i - 1, m);
      OneStepOn(run[i - 1], actions[i - 1], run[i], m);
    }
    if run[i].toReceiver == multiset{} && run[i].toSender == multiset{} {
      NothingTalks(run[i], m);
    }
  }

  lemma OneStepOn(n: Net, a: Action, d: Net, m: Msg)
    requires Sound(n) && Steps(n, a, d) && Careful(n, a) && Lossless(n, a) && (Talks(n, m) || Done(n.core, m))
    ensures Sound(d) && (Talks(d, m) || Done(d.core, m))
  {
    NeverStalls(n, a, m);
    StepSound(n, a);
  }

  lemma NothingTalks(n: Net, m: Msg)
    requires n.toReceiver == multiset{} && n.toSender == multiset{}
    ensures !Talks(n, m)
  {
  }

  // ----- What publishing sends -----

  /** A publish call puts a PUBLISH of its QoS on the link if and only if the packet was queued
      and, for QoS 1 and 2, an identifier was free. */
  lemma PublishSendsIff(n: Net, qos: Qos, fate: Fate)
    requires OnceInv(n)
    ensures var m, d := |n.core.records|, Next(n, PublishMsg(qos, fate));
            (exists q :: Pub(m, q) in d.toReceiver && LevelOf(q) == qos) <==>
              fate.Queued? && (qos.Level0? || !AllHeld(n.core.ids.index))
  {
    var m, d := |n.core.records|, Next(n, PublishMsg(qos, fate));
    var p := PublishCall(n.core, qos, fate).1;
    NextIdIsFirstVacant(n.core.ids, OfOther);
    assert forall x :: InFlight(n, x) && x.Pub? ==> x.msg != m;
    forall q | Pub(m, q) in d.toReceiver ensures p == Some(Pub(m, q)) {
      assert !InFlight(n, Pub(m, q));
    }
    if p.Some? {
      assert p.value in d.toReceiver;
    }
  }

  /** And then a QoS 1 or 2 message can be brought to its handlers and its token to success. */
  lemma PublishFinishes(n: Net, qos: Qos) returns (p: Packet, run: seq<Net>, actions: seq<Action>)
    requires Sound(n) && Careful(n, PublishMsg(qos, Queued)) && !qos.Level0? && !AllHeld(n.core.ids.index)
    ensures Finished(Next(n, PublishMsg(qos, Queued)), run, actions, IdOf(p), Hops(p), |n.core.records|)
  {
    var m, d := |n.core.records|, Next(n, PublishMsg(qos, Queued));
    NextIdIsFirstVacant(n.core.ids, OfOther);
    StepSound(n, PublishMsg(qos, Queued));
    p := Pub(m, QosFor(qos, NextId(n.core.ids)));
    assert p in d.toReceiver;
    run, actions := Finishes(d, p, m);
  }

  // ----- What is dispatched, and what leaves the pending table -----

  /** The step hands message `m` to its handlers: a PUBLISH with QoS 0 or 1, or the PUBREL for the
      message pending under its identifier. */
  predicate Delivers(c: Core, a: Action, m: Msg) {
    a.ToReceiver?
    && match a.p
       case Pub(x, q) => x == m && !q.Qos2?
       case Resp(r) => r.Pubrel? && r.id in c.pending && c.pending[r.id] == m
  }

  lemma StepDelivers(n: Net, a: Action, m: Msg)
    requires Enabled(n, a)
    ensures Times(Next(n, a).core, m) == Times(n.core, m) + if Delivers(n.core, a, m) then 1 else 0
  {
    if a.ToReceiver? {
      ReceiveDelivers(n.core, a.p, m);
    } else if a.ToSender? {
      AnswerHolders(n.core, a.p);
    } else {
      assert Next(n, a).core.dispatched == n.core.dispatched;
    }
  }

  lemma ReceiveDelivers(c: Core, p: Packet, m: Msg)
    ensures Times(Receive(c, p).0, m) == Times(c, m) + if Delivers(c, ToReceiver(p), m) then 1 else 0
  {
  }

  /** In every run the number of dispatches of a message is the number of these steps. */
  function Deliveries(run: seq<Net>, actions: seq<Action>, n: nat, m: Msg): nat
    requires n <= |run| && n <= |actions|
  {
    if n == 0 then 0
    else Deliveries(run, actions, n - 1, m) + if Delivers(run[n - 1].core, actions[n - 1], m) then 1 else 0
  }

  lemma RunDelivers(run: seq<Net>, actions: seq<Action>, n: nat, m: Msg)
    requires Follows(run, actions) && 0 < n < |run|
    ensures Times(run[n].core, m)
         == Times(run[n - 1].core, m) + if Delivers(run[n - 1].core, actions[n - 1], m) then 1 else 0
  {
    assert Steps(run[n - 1], actions[n - 1], run[n]);
    StepDelivers(run[n - 1], actions[n - 1], m);
  }

  lemma {:induction false} TimesAreDeliveries(run: seq<Net>, actions: seq<Action>, n: nat, m: Msg)
    requires IsRun(run, actions) && n < |run|
    ensures Times(run[n].core, m) == Deliveries(run, actions, n, m)
  {
    if n > 0 {
      TimesAreDeliveries(run, actions, n - 1, m);
      RunDelivers(run, actions, n, m);
    }
  }

  predicate Pends(c: Core, id: U16, m: Msg) {
    id in c.pending && c.pending[id] == m
  }

  /** A later PUBLISH takes the identifier's place in the table. */
  predicate Replaces(a: Action, id: U16, m: Msg) {
    a.ToReceiver? && a.p.Pub? && a.p.qos == Qos2(id) && a.p.msg != m
  }

  lemma StepLeavesPending(n: Net, a: Action, id: U16, m: Msg)
    requires Enabled(n, a) && Pends(n.core, id, m)
    ensures var d := Next(n, a).core;
            || Pends(d, id, m) || Delivers(n.core, a, m) || (a == Expire(id) && m in d.expired) || Replaces(a, id, m)
  {
    if a.ToReceiver? {
      ReceiveLeavesPending(n.core, a.p, id, m);
    } else if a.ToSender? {
      AnswerPending(n.core, a.p);
    }
  }

  lemma ReceiveLeavesPending(c: Core, p: Packet, id: U16, m: Msg)
    requires Pends(c, id, m)
    ensures Pends(Receive(c, p).0, id, m) || Delivers(c, ToReceiver(p), m) || Replaces(ToReceiver(p), id, m)
  {
  }

  lemma AnswerPending(c: Core, p: Packet)
    ensures Answer(c, p).0.pending == c.pending
  {
  }

  lemma ExpiredGrows(n: Net, a: Action)
    requires Enabled(n, a)
    ensures n.core.expired <= Next(n, a).core.expired
  {
    if a.ToReceiver? {
      ReceiveExpired(n.core, a.p);
    } else if a.ToSender? {
      AnswerHolders(n.core, a.p);
    }
  }

  lemma ReceiveExpired(c: Core, p: Packet)
    ensures Receive(c, p).0.expired == c.expired
  {
  }

  ghost predicate WasReplaced(actions: seq<Action>, i: nat, j: nat, id: U16, m: Msg)
    requires j <= |actions|
  {
    exists k :: i <= k < j && Replaces(actions[k], id, m)
  }

  /** Dispatched or expired. */
  predicate Settled(c: Core, m: Msg) {
    Times(c, m) >= 1 || m in c.expired
  }

  lemma StepSettled(n: Net, a: Action, id: U16, m: Msg)
    requires Enabled(n, a) && (Pends(n.core, id, m) || Settled(n.core, m))
    ensures Pends(Next(n, a).core, id, m) || Settled(Next(n, a).core, m) || Replaces(a, id, m)
  {
    StepDelivers(n, a, m);
    ExpiredGrows(n, a);
    if Pends(n.core, id, m) {
      StepLeavesPending(n, a, id, m);
    }
  }

  /** In every run a message leaves the pending table only to its handlers, by expiry, or
      because a later PUBLISH took its identifier. */
  lemma {:induction false} LeavesPending(run: seq<Net>, actions: seq<Action>, i: nat, j: nat, id: U16, m: Msg)
    requires IsRun(run, actions) && i <= j < |run| && Pends(run[i].core, id, m)
    ensures Pends(run[j].core, id, m) || Settled(run[j].core, m) || WasReplaced(actions, i, j, id, m)
  {
    if i < j {
      LeavesPending(run, actions, i, j - 1, id, m);
      if WasReplaced(actions, i, j - 1, id, m) {
        var k :| i <= k < j - 1 && Replaces(actions[k], id, m);
      } else {
        assert Steps(run[j - 1], actions[j - 1], run[j]);
        StepSettled(run[j - 1], actions[j - 1], id, m);
      }
    }
  }

  // ----- Which errors the tokens report -----

  /** The error that the step makes the token of `m` report, if any. */
  ghost function Report(n: Net, a: Action, m: Msg): Option<TokenError> {
    match a
    case PublishMsg(qos, fate) =>
      if m != |n.core.records| then None
      else if !qos.Level0? && AllHeld(n.core.ids.index) then Some(PacketIdError)
      else if fate.BadTopic? then Some(InvalidTopic)
      else if fate.NoWriter? then Some(InternalServerError)
      else None
    case SessionEnd(_, _) =>
      if m < |n.core.records| && OfMsg(m) in n.core.ids.index.Values then Some(ConnectionLost) else None
    case _ => None
  }

  function ErrorOf(c: Core, m: Msg): Option<TokenError> {
    if m < |c.records| then c.records[m].error else None
  }

  lemma StepReports(n: Net, a: Action, m: Msg)
    requires Enabled(n, a)
    ensures ErrorOf(Next(n, a).core, m) == if Report(n, a, m).Some? then Report(n, a, m) else ErrorOf(n.core, m)
  {
    if a.PublishMsg? {
      PublishReports(n, a.qos, a.fate, m);
    } else if a.ToReceiver? {
      ReceiveFrame(n.core, a.p);
    } else if a.ToSender? {
      AnswerReports(n.core, a.p, m);
    } else if a.SessionEnd? {
    } else {
      assert Next(n, a).core.records == n.core.records;
    }
  }

  lemma PublishReports(n: Net, qos: Qos, fate: Fate, m: Msg)
    ensures var a := PublishMsg(qos, fate);
            ErrorOf(Next(n, a).core, m) == if Report(n, a, m).Some? then Report(n, a, m) else ErrorOf(n.core, m)
  {
    NextIdIsFirstVacant(n.core.ids, OfOther);
    assert AllHeld(n.core.ids.index) <==> NextId(n.core.ids) == 0;
  }

  lemma AnswerReports(c: Core, p: Packet, m: Msg)
    ensures ErrorOf(Answer(c, p).0, m) == ErrorOf(c, m)
  {
  }

  /** The error after a step. */
  ghost predicate Reported(n: Net, a: Action, d: Net, m: Msg) {
    ErrorOf(d.core, m) == if Report(n, a, m).Some? then Report(n, a, m) else ErrorOf(n.core, m)
  }

  lemma RunReports(run: seq<Net>, actions: seq<Action>, n: nat, m: Msg)
    requires Follows(run, actions) && 0 < n < |run|
    ensures Reported(run[n - 1], actions[n - 1], run[n], m)
  {
    assert Steps(run[n - 1], actions[n - 1], run[n]);
    StepReports(run[n - 1], actions[n - 1], m);
  }

  ghost predicate LastReport(run: seq<Net>, actions: seq<Action>, n: nat, k: nat, m: Msg)
    requires n <= |run| && n <= |actions|
  {
    && k < n && Report(run[k], actions[k], m).Some?
    && forall j :: k < j < n ==> Report(run[j], actions[j], m).None?
  }

  /** In every run the error of a message's token is what the last step that reports one says. */
  lemma {:induction false} ErrorIsLastReport(run: seq<Net>, actions: seq<Action>, n: nat, k: nat, m: Msg)
    requires IsRun(run, actions) && n < |run| && LastReport(run, actions, n, k, m)
    ensures ErrorOf(run[n].core, m) == Report(run[k], actions[k], m)
  {
    RunReports(run, actions, n, m);
    if k < n - 1 {
      ErrorIsLastReport(run, actions, n - 1, k, m);
    }
  }

  /** And none if no step reports one. */
  lemma {:induction false} NoErrorUnreported(run: seq<Net>, actions: seq<Action>, n: nat, m: Msg)
    requires IsRun(run, actions) && n < |run|
    requires forall k :: 0 <= k < n ==> Report(run[k], actions[k], m).None?
    ensures ErrorOf(run[n].core, m) == None
  {
    if n > 0 {
      RunReports(run, actions, n, m);
      NoErrorUnreported(run, actions, n - 1, m);
    }
  }
}
