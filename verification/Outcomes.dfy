/** What becomes of the tokens of `Session`: which steps replace an outcome that was already
    reported, and which tokens never get one. */
module Outcomes {
  import opened Topics
  import opened Tokens
  import opened PacketIds
  import opened Handlers
  import opened Session

  // ----- Outcomes replaced -----

  /** The step sets an error on the complete token `r`, and another one than it has. */
  ghost predicate Replaces(c: Client, a: Action, r: Ref)
    requires r < |c.tokens|
  {
    var error := c.tokens[r].record.error;
    match a
    case OfSession(WriteFail) => c.outgoing != [] && c.outgoing[0] == r && error != Some(IOError)
    case OfSession(SessionEnd) => r in c.ids.index.Values && error != Some(ConnectionLost)
    case OfConnect(BlockCleanUp) => r in c.ids.index.Values && error != Some(ConnectionLost)
    case OfCall(RejectTopic) => c.call.HasId? && c.call.token == r && error != Some(InvalidTopic)
    case OfCall(Send) =>
      c.call.HasId? && c.call.token == r && !c.writer && error != Some(InternalServerError)
    case _ => false
  }

  /** The outcome of a complete token changes exactly by these steps. */
  lemma OutcomeReplacedIff(c: Client, a: Action, r: Ref)
    requires RefsValid(c) && Complete(c, r) && Enabled(c, a)
    ensures Complete(Next(c, a), r)
    ensures Next(c, a).tokens[r].record.error != c.tokens[r].record.error <==> Replaces(c, a, r)
  {
    match a
    case OfCall(s) => CallOutcome(c, s, r);
    case OfConnect(s) => if !s.BlockCleanUp? { ConnectFrame(c, s); }
    case OfSession(s) => SessionOutcome(c, s, r);
  }

  lemma CallOutcome(c: Client, s: CallStep, r: Ref)
    requires RefsValid(c) && Complete(c, r) && CallEnabled(c, s)
    ensures Complete(CallNext(c, s), r)
    ensures CallNext(c, s).tokens[r].record.error != c.tokens[r].record.error <==> Replaces(c, OfCall(s), r)
  {
    match s
    case Begin(_) => if c.status.Connected? {} else {}
    case TakeId => if !TakesId(c.call.req) {} else if NextId(c.ids) == 0 {} else {}
    case Send => if c.writer {} else {}
    case _ =>
  }

  lemma SessionOutcome(c: Client, s: SessionStep, r: Ref)
    requires RefsValid(c) && Complete(c, r) && SessionEnabled(c, s)
    ensures Complete(SessionNext(c, s), r)
    ensures SessionNext(c, s).tokens[r].record.error != c.tokens[r].record.error <==> Replaces(c, OfSession(s), r)
  {
    match s
    case Ack(id) => if id in c.ids.index { AckedOutcome(c, id, r); }
    case Suback(id, codes) => if HeldBy(c, id, Subscribe) { SubAckedOutcome(c, id, codes, r); }
    case Unsuback(id) => if HeldBy(c, id, Unsubscribe) { AckedOutcome(c, id, r); }
    case SessionEnd => EndOutcome(c, r);
    case _ => WriterOutcome(c, s, r);
  }

  lemma AckedOutcome(c: Client, id: U16, r: Ref)
    requires id in c.ids.index && Complete(c, r)
    ensures Complete(Acked(c, id), r) && Acked(c, id).tokens[r].record.error == c.tokens[r].record.error
  {
  }

  lemma SubAckedOutcome(c: Client, id: U16, codes: seq<SubAck>, r: Ref)
    requires HeldBy(c, id, Subscribe) && Complete(c, r)
    ensures Complete(SubAcked(c, id, codes), r)
    ensures SubAcked(c, id, codes).tokens[r].record.error == c.tokens[r].record.error
  {
    AckedOutcome(c, id, r);
  }

  lemma EndOutcome(c: Client, r: Ref)
    requires Complete(c, r) && SessionEnabled(c, SessionEnd)
    ensures var d := SessionNext(c, SessionEnd);
            && Complete(d, r)
            && (d.tokens[r].record.error != c.tokens[r].record.error <==> Replaces(c, OfSession(SessionEnd), r))
  {
  }

  lemma WriterOutcome(c: Client, s: SessionStep, r: Ref)
    requires Complete(c, r) && SessionEnabled(c, s)
    requires s.ReaderStop? || s.WriteOk? || s.WriteFail? || s.WriterStop?
    ensures var d := SessionNext(c, s);
            && Complete(d, r)
            && (d.tokens[r].record.error != c.tokens[r].record.error <==> Replaces(c, OfSession(s), r))
  {
  }

  // ----- Tokens that never complete -----

  /** The token is incomplete and nothing that completes tokens knows it: not the index, not
      the channel, not the call in progress. */
  ghost predicate Lost(c: Client, r: Ref) {
    && r < |c.tokens| && !c.tokens[r].record.complete
    && r !in c.ids.index.Values && r !in c.outgoing && !InCall(c, r)
  }

  /** The writer stops while the packet of an incomplete token without identifier is still in
      the channel; if the packet in hand failed, that token is told. */
  ghost predicate Drops(c: Client, a: Action, r: Ref) {
    && r < |c.tokens| && !c.tokens[r].record.complete && !TakesId(c.tokens[r].req) && r in c.outgoing
    && (a == OfSession(WriterStop) || (a == OfSession(WriteFail) && c.outgoing[0] != r))
  }

  /** What is known of the tokens on their way: the identifiers belong to tokens that got one,
      and a call that has its identifier got it for its own token. */
  ghost predicate Tracked(c: Client) {
    && (!c.writer ==> c.outgoing == [])
    && (forall r :: r in c.ids.index.Values ==> r in c.issued)
    && (forall r :: r in c.outgoing ==> r < |c.tokens| && (TakesId(c.tokens[r].req) ==> r in c.issued))
    && (c.call.HasId? ==> c.call.token < |c.tokens| && c.tokens[c.call.token].req == c.call.req
                          && c.call.token !in c.outgoing && (TakesId(c.call.req) ==> c.call.token in c.issued))
    && (c.call.Queued? ==> c.call.token in c.issued)
  }

  /** Steps keep the requests of the tokens and only ever add tokens. */
  ghost predicate ReqsKept(c: Client, d: Client) {
    |c.tokens| <= |d.tokens| && forall r :: 0 <= r < |c.tokens| ==> d.tokens[r].req == c.tokens[r].req
  }

  lemma StepReqs(c: Client, a: Action)
    requires Enabled(c, a)
    ensures ReqsKept(c, Next(c, a))
  {
    var d := Next(c, a);
    match a
    case OfCall(s) => CallReqs(c, s);
    case OfConnect(s) =>
      forall r | 0 <= r < |c.tokens| ensures KeepsToken(c.tokens[r], d.tokens[r]) {
        ConnectKeeps(c, s, r);
      }
      ConnectKeeps(c, s, 0);
    case OfSession(s) =>
      forall r | 0 <= r < |c.tokens| ensures KeepsToken(c.tokens[r], d.tokens[r]) {
        SessionKeeps(c, s, r);
      }
      SessionKeeps(c, s, 0);
  }

  lemma CallReqs(c: Client, s: CallStep)
    requires CallEnabled(c, s)
    ensures ReqsKept(c, CallNext(c, s))
  {
    match s
    case Begin(_) => BeginReqs(c, s.req);
    case TakeId => if !TakesId(c.call.req) {} else if NextId(c.ids) == 0 {} else {}
    case Send => SendReqs(c);
    case _ =>
  }

  lemma BeginReqs(c: Client, req: Request)
    requires c.call.Idle?
    ensures ReqsKept(c, CallNext(c, Begin(req)))
  {
    if c.status.Connected? {} else {}
  }

  lemma SendReqs(c: Client)
    requires CallEnabled(c, Send)
    ensures ReqsKept(c, CallNext(c, Send))
  {
    if c.writer {} else {}
  }

  lemma StepTracked(c: Client, a: Action)
    requires RefsValid(c) && StatusAgrees(c) && Tracked(c) && Enabled(c, a)
    ensures Tracked(Next(c, a))
  {
    StepReqs(c, a);
    match a
    case OfCall(s) => CallTracked(c, s);
    case OfConnect(s) => ConnectTracked(c, s);
    case OfSession(s) => SessionTracked(c, s);
  }

  lemma ConnectTracked(c: Client, s: ConnectStep)
    requires Tracked(c) && ConnectEnabled(c, s)
    ensures Tracked(ConnectNext(c, s))
  {
    if !s.BlockCleanUp? {
      ConnectFrame(c, s);
      assert s.ConnectAccept? || ConnectNext(c, s).outgoing == c.outgoing;
      assert s.ConnectAccept? || ConnectNext(c, s).writer == c.writer;
    }
  }

  lemma CallTracked(c: Client, s: CallStep)
    requires RefsValid(c) && Tracked(c) && CallEnabled(c, s) && ReqsKept(c, CallNext(c, s))
    ensures Tracked(CallNext(c, s))
  {
    match s
    case Begin(req) => BegunTracked(c, req);
    case TakeId => if !TakesId(c.call.req) {} else if NextId(c.ids) == 0 {} else { IdTakenTracked(c); }
    case Send => SentTracked(c);
    case _ =>
  }

  lemma BegunTracked(c: Client, req: Request)
    requires RefsValid(c) && Tracked(c) && c.call.Idle?
    ensures Tracked(CallNext(c, Begin(req)))
  {
    if c.status.Connected? {} else {}
  }

  lemma SentTracked(c: Client)
    requires RefsValid(c) && Tracked(c) && CallEnabled(c, Send)
    ensures Tracked(CallNext(c, Send))
  {
    var d := CallNext(c, Send);
    assert forall r :: 0 <= r < |c.tokens| ==> d.tokens[r].req == c.tokens[r].req;
    assert d.call.Queued? ==> TakesId(c.call.req);
    if c.writer {} else {}
  }

  lemma IdTakenTracked(c: Client)
    requires RefsValid(c) && Tracked(c) && c.call.Checked? && TakesId(c.call.req) && NextId(c.ids) != 0
    ensures Tracked(CallNext(c, TakeId))
  {
    var d := CallNext(c, TakeId);
    forall r | r in d.ids.index.Values ensures r in d.issued {
      var k :| k in d.ids.index && d.ids.index[k] == r;
      assert k == NextId(c.ids) || (k in c.ids.index && c.ids.index[k] == r);
    }
  }

  lemma SessionTracked(c: Client, s: SessionStep)
    requires RefsValid(c) && Tracked(c) && SessionEnabled(c, s) && ReqsKept(c, SessionNext(c, s))
    ensures Tracked(SessionNext(c, s))
  {
    match s
    case Ack(id) => if id in c.ids.index { AckedTracked(c, id); }
    case Suback(id, _) => if HeldBy(c, id, Subscribe) { AckedTracked(c, id); }
    case Unsuback(id) => if HeldBy(c, id, Unsubscribe) { AckedTracked(c, id); }
    case WriteOk => assert forall r :: r in c.outgoing[1..] ==> r in c.outgoing;
    case _ =>
  }

  lemma AckedTracked(c: Client, id: U16)
    requires RefsValid(c) && Tracked(c) && id in c.ids.index
    ensures Tracked(Acked(c, id))
  {
    var d := Acked(c, id);
    forall r | r in d.ids.index.Values ensures r in c.ids.index.Values {
      var k :| k in d.ids.index && d.ids.index[k] == r;
      assert c.ids.index[k] == r;
    }
  }

  lemma {:induction false} RunTracked(run: seq<Client>, actions: seq<Action>, n: nat)
    requires IsRun(run, actions) && n < |run|
    ensures Tracked(run[n])
  {
    if n > 0 {
      RunTracked(run, actions, n - 1);
      RunInv(run, actions, n - 1);
      StepTracked(run[n - 1], actions[n - 1]);
    }
  }

  // ----- One step -----

  /** A step loses exactly the tokens it drops, and finds none again. */
  lemma StepLosesIff(c: Client, a: Action, r: Ref)
    requires RefsValid(c) && StatusAgrees(c) && TokensCovered(c) && Tracked(c) && Enabled(c, a) && r < |c.tokens|
    ensures Lost(Next(c, a), r) <==> Lost(c, r) || Drops(c, a, r)
  {
    match a
    case OfCall(s) => CallLoses(c, s, r);
    case OfConnect(s) => ConnectLoses(c, s, r);
    case OfSession(s) => SessionLoses(c, s, r);
  }

  lemma CallLoses(c: Client, s: CallStep, r: Ref)
    requires RefsValid(c) && TokensCovered(c) && Tracked(c) && CallEnabled(c, s) && r < |c.tokens|
    ensures Lost(CallNext(c, s), r) <==> Lost(c, r)
  {
    match s
    case Begin(_) => if c.status.Connected? {} else {}
    case TakeId => TakeIdLoses(c, r);
    case Send => if c.writer {} else {}
    case _ =>
  }

  lemma TakeIdLoses(c: Client, r: Ref)
    requires RefsValid(c) && Tracked(c) && c.call.Checked? && r < |c.tokens|
    ensures Lost(CallNext(c, TakeId), r) <==> Lost(c, r)
  {
    if !TakesId(c.call.req) {
    } else if NextId(c.ids) == 0 {
    } else {
      IdTakenLoses(c, r);
    }
  }

  lemma IdTakenLoses(c: Client, r: Ref)
    requires RefsValid(c) && c.call.Checked? && r < |c.tokens| && TakesId(c.call.req) && NextId(c.ids) != 0
    ensures Lost(CallNext(c, TakeId), r) <==> Lost(c, r)
  {
    var d := CallNext(c, TakeId);
    if r != c.call.token {
      NextIdIsFirstVacant(c.ids, c.call.token);
      IndexKeeps(c.ids.index, NextId(c.ids), c.call.token);
      if r in d.ids.index.Values {
        var k :| k in d.ids.index && d.ids.index[k] == r;
        assert k == NextId(c.ids) || (k in c.ids.index && c.ids.index[k] == r);
      }
    }
  }

  lemma ConnectLoses(c: Client, s: ConnectStep, r: Ref)
    requires RefsValid(c) && StatusAgrees(c) && Tracked(c) && ConnectEnabled(c, s) && r < |c.tokens|
    ensures Lost(ConnectNext(c, s), r) <==> Lost(c, r)
  {
    if !s.BlockCleanUp? {
      ConnectFrame(c, s);
      assert s.ConnectAccept? ==> c.outgoing == [];
    }
  }

  lemma SessionLoses(c: Client, s: SessionStep, r: Ref)
    requires RefsValid(c) && TokensCovered(c) && Tracked(c) && SessionEnabled(c, s) && r < |c.tokens|
    ensures Lost(SessionNext(c, s), r) <==> Lost(c, r) || Drops(c, OfSession(s), r)
  {
    match s
    case Ack(id) => if id in c.ids.index { AckedLoses(c, id, r); }
    case Suback(id, _) => if HeldBy(c, id, Subscribe) { AckedLoses(c, id, r); }
    case Unsuback(id) => if HeldBy(c, id, Unsubscribe) { AckedLoses(c, id, r); }
    case SessionEnd =>
    case ReaderStop =>
    case _ => WriterLoses(c, s, r);
  }

  lemma WriterLoses(c: Client, s: SessionStep, r: Ref)
    requires RefsValid(c) && TokensCovered(c) && Tracked(c) && SessionEnabled(c, s) && r < |c.tokens|
    requires s.WriteOk? || s.WriteFail? || s.WriterStop?
    ensures Lost(SessionNext(c, s), r) <==> Lost(c, r) || Drops(c, OfSession(s), r)
  {
    if s.WriteOk? {
      WrittenLoses(c, r);
    } else if s.WriterStop? {
      StoppedLoses(c, r);
    } else {
      FailedLoses(c, r);
    }
  }

  lemma WrittenLoses(c: Client, r: Ref)
    requires RefsValid(c) && TokensCovered(c) && Tracked(c) && c.writer && c.outgoing != [] && r < |c.tokens|
    ensures Lost(SessionNext(c, WriteOk), r) <==> Lost(c, r)
  {
    assert forall q :: q in c.outgoing <==> q == c.outgoing[0] || q in c.outgoing[1..];
    if c.outgoing[0] == r && !Complete(c, r) {
      OnItsWay(c, r);
    }
  }

  lemma StoppedLoses(c: Client, r: Ref)
    requires RefsValid(c) && TokensCovered(c) && Tracked(c) && c.writer && r < |c.tokens|
    ensures Lost(SessionNext(c, WriterStop), r) <==> Lost(c, r) || Drops(c, OfSession(WriterStop), r)
  {
    if r in c.outgoing && !Complete(c, r) {
      OnItsWay(c, r);
    }
  }

  lemma FailedLoses(c: Client, r: Ref)
    requires RefsValid(c) && TokensCovered(c) && Tracked(c) && c.writer && c.outgoing != [] && r < |c.tokens|
    ensures Lost(SessionNext(c, WriteFail), r) <==> Lost(c, r) || Drops(c, OfSession(WriteFail), r)
  {
    if r in c.outgoing && !Complete(c, r) && c.outgoing[0] != r {
      OnItsWay(c, r);
    }
  }

  /** An incomplete token in the channel is in the index exactly if it takes an identifier;
      otherwise the channel alone knows it. */
  lemma OnItsWay(c: Client, r: Ref)
    requires RefsValid(c) && TokensCovered(c) && Tracked(c)
    requires r < |c.tokens| && r in c.outgoing && !Complete(c, r)
    ensures r in c.ids.index.Values <==> TakesId(c.tokens[r].req)
    ensures r !in c.ids.index.Values ==> !InCall(c, r)
  {
  }

  lemma AckedLoses(c: Client, id: U16, r: Ref)
    requires RefsValid(c) && id in c.ids.index && r < |c.tokens|
    ensures Lost(Acked(c, id), r) <==> Lost(c, r)
  {
    var d := Acked(c, id);
    if r in c.ids.index.Values && r != c.ids.index[id] {
      var k :| k in c.ids.index && c.ids.index[k] == r;
      assert k in d.ids.index && d.ids.index[k] == r;
    }
    if r in d.ids.index.Values {
      var k :| k in d.ids.index && d.ids.index[k] == r;
      assert c.ids.index[k] == r;
    }
  }

  // ----- Over every run -----

  /** A new token is not lost: it has failed or belongs to the call in progress. */
  lemma NewTokenKept(c: Client, a: Action, r: Ref)
    requires Enabled(c, a) && |c.tokens| <= r < |Next(c, a).tokens|
    ensures !Lost(Next(c, a), r)
  {
    match a
    case OfCall(s) =>
      CallTokenCount(c, s);
      if c.status.Connected? {} else {}
    case OfConnect(s) => ConnectKeeps(c, s, r);
    case OfSession(s) => SessionKeeps(c, s, r);
  }

  /** In every run the lost tokens are exactly those that were dropped. */
  lemma {:induction false} LostIff(run: seq<Client>, actions: seq<Action>, n: nat, r: Ref)
    requires IsRun(run, actions) && n < |run|
    ensures Lost(run[n], r) <==> exists k :: 0 <= k < n && Drops(run[k], actions[k], r)
  {
    if n > 0 {
      LostIff(run, actions, n - 1, r);
      RunInv(run, actions, n - 1);
      RunTracked(run, actions, n - 1);
      var c, a := run[n - 1], actions[n - 1];
      if r < |c.tokens| {
        StepLosesIff(c, a, r);
      } else if r < |Next(c, a).tokens| {
        NewTokenKept(c, a, r);
      }
      assert Lost(run[n], r) <==> Lost(c, r) || Drops(c, a, r);
    }
  }

  /** A lost token stays incomplete for good; it is one without an identifier. */
  lemma LostForever(run: seq<Client>, actions: seq<Action>, m: nat, n: nat, r: Ref)
    requires IsRun(run, actions) && m <= n < |run| && Lost(run[m], r)
    ensures Lost(run[n], r) && !Complete(run[n], r)
  {
    LostIff(run, actions, m, r);
    LostIff(run, actions, n, r);
  }

  /** With no session and no call in progress every token is complete or lost. */
  lemma CompleteOrLost(run: seq<Client>, actions: seq<Action>, n: nat, r: Ref)
    requires IsRun(run, actions) && n < |run| && r < |run[n].tokens|
    requires !run[n].live && run[n].call.Idle?
    ensures Lost(run[n], r) <==> !Complete(run[n], r)
  {
    RunInv(run, actions, n);
    RunTracked(run, actions, n);
  }

  // ----- A token that is not lost can still complete -----

  ghost predicate Good(c: Client) {
    Inv(c) && Tracked(c)
  }

  lemma StepGood(c: Client, a: Action)
    requires Good(c) && Enabled(c, a)
    ensures Good(Next(c, a))
  {
    StepStatus(c, a);
    StepRefs(c, a);
    StepTokens(c, a);
    StepMap(c, a);
    StepTracked(c, a);
  }

  /** One step that completes the token. */
  lemma CompletesNow(c: Client, a: Action, r: Ref) returns (run: seq<Client>, actions: seq<Action>)
    requires Enabled(c, a) && Complete(Next(c, a), r)
    ensures Follows(run, actions) && run[0] == c && Complete(run[|run| - 1], r)
  {
    run, actions := [c, Next(c, a)], [a];
  }

  lemma CompletesAfter(c: Client, a: Action, r: Ref, later: seq<Client>, more: seq<Action>)
    returns (run: seq<Client>, actions: seq<Action>)
    requires Enabled(c, a) && Follows(later, more) && later[0] == Next(c, a) && Complete(later[|later| - 1], r)
    ensures Follows(run, actions) && run[0] == c && Complete(run[|run| - 1], r)
  {
    run, actions := Preceded(c, a, later, more);
  }

  /** A token in the index: by its acknowledgement, or at the end of the session. */
  lemma IndexedCompletes(c: Client, id: U16) returns (run: seq<Client>, actions: seq<Action>)
    requires Good(c) && id in c.ids.index && !Complete(c, c.ids.index[id])
    ensures Follows(run, actions) && run[0] == c && Complete(run[|run| - 1], c.ids.index[id])
    decreases if c.writer then 1 else 0
  {
    var r := c.ids.index[id];
    if c.reader {
      run, actions := CompletesNow(c, OfSession(Ack(id)), r);
    } else if c.writer {
      var d := Next(c, OfSession(WriterStop));
      StepGood(c, OfSession(WriterStop));
      assert d.ids == c.ids && d.tokens == c.tokens && !d.writer;
      var later, more := IndexedCompletes(d, id);
      run, actions := CompletesAfter(c, OfSession(WriterStop), r, later, more);
    } else if c.live {
      assert r in c.ids.index.Values;
      run, actions := CompletesNow(c, OfSession(SessionEnd), r);
    } else {
      assert r in c.ids.index.Values;
      assert c.call.HasId? && c.call.token == r;
      run, actions := CompletesNow(c, OfCall(RejectTopic), r);
    }
  }

  /** A token in the channel that takes no identifier: once its packet is written. */
  lemma SentCompletes(c: Client, r: Ref) returns (run: seq<Client>, actions: seq<Action>)
    requires Good(c) && r < |c.tokens| && r in c.outgoing && !TakesId(c.tokens[r].req)
    ensures Follows(run, actions) && run[0] == c && Complete(run[|run| - 1], r)
    decreases |c.outgoing|
  {
    var a := OfSession(WriteOk);
    if c.outgoing[0] == r {
      run, actions := CompletesNow(c, a, r);
    } else {
      StepGood(c, a);
      assert c.outgoing == [c.outgoing[0]] + c.outgoing[1..];
      StepReqs(c, a);
      var later, more := SentCompletes(Next(c, a), r);
      run, actions := CompletesAfter(c, a, r, later, more);
    }
  }

  /** The call in progress fails the topic, or sends the packet. */
  lemma CallCompletes(c: Client, r: Ref) returns (run: seq<Client>, actions: seq<Action>)
    requires Good(c) && c.call.HasId? && c.call.token == r && r !in c.ids.index.Values && !Complete(c, r)
    ensures Follows(run, actions) && run[0] == c && Complete(run[|run| - 1], r)
  {
    if !c.call.req.DisconnectNow? {
      run, actions := CompletesNow(c, OfCall(RejectTopic), r);
    } else if !c.writer {
      run, actions := CompletesNow(c, OfCall(Send), r);
    } else {
      var a := OfCall(Send);
      StepGood(c, a);
      StepReqs(c, a);
      assert Next(c, a).outgoing == c.outgoing + [r];
      var later, more := SentCompletes(Next(c, a), r);
      run, actions := CompletesAfter(c, a, r, later, more);
    }
  }

  lemma IndexedOrCalled(c: Client, r: Ref) returns (run: seq<Client>, actions: seq<Action>)
    requires Good(c) && !Complete(c, r)
    requires r in c.ids.index.Values || (c.call.HasId? && c.call.token == r)
    ensures Follows(run, actions) && run[0] == c && Complete(run[|run| - 1], r)
  {
    if r in c.ids.index.Values {
      var id :| id in c.ids.index && c.ids.index[id] == r;
      run, actions := IndexedCompletes(c, id);
    } else {
      run, actions := CallCompletes(c, r);
    }
  }

  lemma CheckedCompletes(c: Client) returns (run: seq<Client>, actions: seq<Action>)
    requires Good(c) && c.call.Checked?
    ensures Follows(run, actions) && run[0] == c && Complete(run[|run| - 1], c.call.token)
  {
    var a, r := OfCall(TakeId), c.call.token;
    if Complete(Next(c, a), r) {
      run, actions := CompletesNow(c, a, r);
    } else {
      StepGood(c, a);
      var later, more := IndexedOrCalled(Next(c, a), r);
      run, actions := CompletesAfter(c, a, r, later, more);
    }
  }

  /** From every reachable state, an incomplete token that is not lost can still complete:
      together with `LostForever`, the lost tokens are exactly those that never will. */
  lemma CanComplete(c: Client, r: Ref) returns (run: seq<Client>, actions: seq<Action>)
    requires Good(c) && r < |c.tokens| && !Complete(c, r) && !Lost(c, r)
    ensures Follows(run, actions) && run[0] == c && Complete(run[|run| - 1], r)
  {
    if r in c.ids.index.Values {
      run, actions := IndexedOrCalled(c, r);
    } else if r in c.outgoing {
      OnItsWay(c, r);
      run, actions := SentCompletes(c, r);
    } else if c.call.Checked? {
      run, actions := CheckedCompletes(c);
    } else {
      run, actions := IndexedOrCalled(c, r);
    }
  }

  // ----- The tokens that `connect` returns -----

  /** A `connect` is in progress; it works on the newest token. */
  predicate Dials(c: Client) {
    c.call.Dialing? || c.call.Spawned?
  }

  /** `connect` makes its token number `i` while the client is connected. */
  predicate MadeConnected(c: Client, a: Action, i: nat) {
    a == OfConnect(ConnectBegin) && c.status.Connected? && |c.connects| == i
  }

  ghost predicate WasMadeConnected(run: seq<Client>, actions: seq<Action>, n: nat, i: nat)
    requires n <= |run| && n <= |actions|
  {
    exists k :: 0 <= k < n && MadeConnected(run[k], actions[k], i)
  }

  predicate Touches(a: Action) {
    a == OfConnect(ConnectBegin) || a == OfConnect(ConnectFail) || a == OfConnect(ConnectDone)
  }

  /** Only `connect` touches its tokens. */
  lemma StepConnects(c: Client, a: Action)
    requires Enabled(c, a) && !Touches(a)
    ensures Next(c, a).connects == c.connects && Dials(Next(c, a)) == Dials(c)
  {
    match a
    case OfCall(s) => CallConnects(c, s);
    case OfConnect(s) =>
    case OfSession(s) => SessionConnects(c, s);
  }

  lemma CallConnects(c: Client, s: CallStep)
    requires CallEnabled(c, s)
    ensures CallNext(c, s).connects == c.connects && Dials(CallNext(c, s)) == Dials(c) == false
  {
    match s
    case Begin(_) => if c.status.Connected? {} else {}
    case TakeId => if !TakesId(c.call.req) {} else if NextId(c.ids) == 0 {} else {}
    case Send => if c.writer {} else {}
    case _ =>
  }

  lemma SessionConnects(c: Client, s: SessionStep)
    requires SessionEnabled(c, s)
    ensures SessionNext(c, s).connects == c.connects && SessionNext(c, s).call == c.call
  {
    match s
    case Ack(id) => if id in c.ids.index {} else {}
    case Suback(id, _) => if HeldBy(c, id, Subscribe) {} else {}
    case Unsuback(id) => if HeldBy(c, id, Unsubscribe) {} else {}
    case _ =>
  }

  /** `made` are the numbers of the tokens made while connected. */
  ghost predicate Told(c: Client, made: set<nat>) {
    && (forall i :: i in made ==> i < |c.connects|)
    && (Dials(c) ==> c.connects != [] && (|c.connects| - 1) !in made)
    && forall i :: 0 <= i < |c.connects| ==>
         (c.connects[i].complete <==> i !in made && !(Dials(c) && i == |c.connects| - 1))
  }

  ghost function Made(c: Client, a: Action, made: set<nat>): set<nat> {
    if MadeConnected(c, a, |c.connects|) then made + {|c.connects|} else made
  }

  lemma StepTold(c: Client, a: Action, made: set<nat>)
    requires Enabled(c, a) && Told(c, made)
    ensures Told(Next(c, a), Made(c, a, made))
  {
    if Touches(a) {
      TouchTold(c, a.connect, made);
    } else {
      StepConnects(c, a);
    }
  }

  lemma TouchTold(c: Client, s: ConnectStep, made: set<nat>)
    requires ConnectEnabled(c, s) && Touches(OfConnect(s)) && Told(c, made)
    ensures Told(ConnectNext(c, s), Made(c, OfConnect(s), made))
  {
    match s
    case ConnectBegin => BeginTold(c, made);
    case _ => CallEndTold(c, s, made);
  }

  lemma BeginTold(c: Client, made: set<nat>)
    requires c.call.Idle? && Told(c, made)
    ensures Told(ConnectNext(c, ConnectBegin), Made(c, OfConnect(ConnectBegin), made))
  {
    var d := ConnectNext(c, ConnectBegin);
    BeginConnects(c);
    AddedTold(c, d, made, Made(c, OfConnect(ConnectBegin), made));
  }

  lemma BeginConnects(c: Client)
    requires c.call.Idle?
    ensures var n, d := |c.connects|, ConnectNext(c, ConnectBegin);
            && |d.connects| == n + 1 && (forall i :: 0 <= i < n ==> d.connects[i] == c.connects[i])
            && (d.connects[n].complete <==> c.status.Connecting?) && (Dials(d) <==> c.status.Disconnected?)
  {
    if c.status.Connected? {} else if c.status.Disconnected? {} else {}
  }

  lemma AddedTold(c: Client, d: Client, made: set<nat>, more: set<nat>)
    requires Told(c, made) && !Dials(c)
    requires |d.connects| == |c.connects| + 1
    requires forall i :: 0 <= i < |c.connects| ==> d.connects[i] == c.connects[i]
    requires d.connects[|c.connects|].complete <==> !Dials(d) && |c.connects| !in more
    requires forall i :: i in more <==> i in made || (i == |c.connects| && i in more)
    requires Dials(d) ==> |c.connects| !in more
    ensures Told(d, more)
  {
  }

  lemma CallEndTold(c: Client, s: ConnectStep, made: set<nat>)
    requires ConnectEnabled(c, s) && (s.ConnectFail? || s.ConnectDone?) && Told(c, made)
    ensures Told(ConnectNext(c, s), Made(c, OfConnect(s), made))
  {
    assert Made(c, OfConnect(s), made) == made;
  }

  ghost function MadeBy(run: seq<Client>, actions: seq<Action>, n: nat): set<nat>
    requires n <= |run| && n <= |actions|
  {
    if n == 0 then {} else Made(run[n - 1], actions[n - 1], MadeBy(run, actions, n - 1))
  }

  lemma {:induction false} MadeByIff(run: seq<Client>, actions: seq<Action>, n: nat, i: nat)
    requires n <= |run| && n <= |actions|
    ensures i in MadeBy(run, actions, n) <==> WasMadeConnected(run, actions, n, i)
  {
    if n > 0 {
      MadeByIff(run, actions, n - 1, i);
    }
  }

  lemma {:induction false} RunTold(run: seq<Client>, actions: seq<Action>, n: nat)
    requires IsRun(run, actions) && n < |run|
    ensures Told(run[n], MadeBy(run, actions, n))
  {
    if n > 0 {
      RunTold(run, actions, n - 1);
      StepTold(run[n - 1], actions[n - 1], MadeBy(run, actions, n - 1));
    }
  }

  /** In every run a connect token is incomplete exactly while its `connect` is in progress,
      or if it was made while the client was connected. */
  lemma ConnectTokenIff(run: seq<Client>, actions: seq<Action>, n: nat, i: nat)
    requires IsRun(run, actions) && n < |run| && i < |run[n].connects|
    ensures !run[n].connects[i].complete <==>
              (Dials(run[n]) && i == |run[n].connects| - 1) || WasMadeConnected(run, actions, n, i)
  {
    RunTold(run, actions, n);
    MadeByIff(run, actions, n, i);
  }

  /** Such a token never completes: whoever awaits it waits for good. */
  lemma NeverTold(run: seq<Client>, actions: seq<Action>, m: nat, n: nat)
    requires IsRun(run, actions) && m < n < |run|
    requires actions[m] == OfConnect(ConnectBegin) && run[m].status.Connected?
    ensures |run[m].connects| < |run[n].connects| && !run[n].connects[|run[m].connects|].complete
  {
    var i := |run[m].connects|;
    RunTold(run, actions, n);
    assert MadeConnected(run[m], actions[m], i);
    MadeByIff(run, actions, n, i);
  }
}
