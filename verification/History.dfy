/** What the steps of a run of `Session` say of a token: whether its packet was sent, when it
    completed, and with which error. */
module History {
  import opened Tokens
  import opened PacketIds
  import opened Topics
  import opened Session
  import opened Outcomes

  // ----- Sending: from the calls to the writer -----

  /** The token whose packet the step puts into the channel. */
  function Sends(c: Client, a: Action): seq<Ref> {
    if a == OfCall(Send) && c.call.HasId? && c.writer then [c.call.token] else []
  }

  /** The token whose packet the writer takes out of the channel. */
  function Takes(c: Client, a: Action): seq<Ref> {
    if (a == OfSession(WriteOk) || a == OfSession(WriteFail)) && c.outgoing != [] then [c.outgoing[0]] else []
  }

  function SentIn(run: seq<Client>, actions: seq<Action>, m: nat, n: nat): seq<Ref>
    requires m <= n <= |actions| && n <= |run|
  {
    if m == n then [] else SentIn(run, actions, m, n - 1) + Sends(run[n - 1], actions[n - 1])
  }

  function TakenIn(run: seq<Client>, actions: seq<Action>, m: nat, n: nat): seq<Ref>
    requires m <= n <= |actions| && n <= |run|
  {
    if m == n then [] else TakenIn(run, actions, m, n - 1) + Takes(run[n - 1], actions[n - 1])
  }

  /** As long as the writer runs, what was sent is what it took out and what is in the channel;
      after that the channel is empty, and what is missing was dropped. */
  ghost predicate Passed(sent: seq<Ref>, taken: seq<Ref>, c: Client) {
    if c.writer then sent == taken + c.outgoing else c.outgoing == [] && taken <= sent
  }

  lemma StepPassed(c: Client, a: Action, sent: seq<Ref>, taken: seq<Ref>)
    requires Passed(sent, taken, c) && Enabled(c, a) && a != OfConnect(ConnectAccept)
    ensures Passed(sent + Sends(c, a), taken + Takes(c, a), Next(c, a))
  {
    match a
    case OfCall(s) => CallPassed(c, s, sent, taken);
    case OfConnect(s) => ConnectPasses(c, s);
    case OfSession(s) => SessionPassed(c, s, sent, taken);
  }

  lemma CallPassed(c: Client, s: CallStep, sent: seq<Ref>, taken: seq<Ref>)
    requires Passed(sent, taken, c) && CallEnabled(c, s)
    ensures Passed(sent + Sends(c, OfCall(s)), taken, CallNext(c, s))
  {
    if s.Send? {
      SendPasses(c);
      assert c.writer ==> taken + c.outgoing + [c.call.token] == taken + (c.outgoing + [c.call.token]);
    } else {
      OtherCallPasses(c, s);
    }
  }

  lemma SendPasses(c: Client)
    requires CallEnabled(c, Send)
    ensures var d := CallNext(c, Send);
            d.writer == c.writer && d.outgoing == if c.writer then c.outgoing + [c.call.token] else c.outgoing
  {
    if c.writer {} else {}
  }

  lemma OtherCallPasses(c: Client, s: CallStep)
    requires CallEnabled(c, s) && !s.Send?
    ensures CallNext(c, s).writer == c.writer && CallNext(c, s).outgoing == c.outgoing
  {
    match s
    case Begin(_) => if c.status.Connected? {} else {}
    case TakeId => if !TakesId(c.call.req) {} else if NextId(c.ids) == 0 {} else {}
    case _ =>
  }

  lemma ConnectPasses(c: Client, s: ConnectStep)
    requires ConnectEnabled(c, s) && !s.ConnectAccept?
    ensures ConnectNext(c, s).writer == c.writer && ConnectNext(c, s).outgoing == c.outgoing
  {
    match s
    case ConnectBegin => if c.status.Connected? {} else if c.status.Disconnected? {} else {}
    case _ =>
  }

  lemma SessionPassed(c: Client, s: SessionStep, sent: seq<Ref>, taken: seq<Ref>)
    requires Passed(sent, taken, c) && SessionEnabled(c, s)
    ensures Passed(sent, taken + Takes(c, OfSession(s)), SessionNext(c, s))
  {
    match s
    case Ack(id) => if id in c.ids.index {} else {}
    case Suback(id, _) => if HeldBy(c, id, Subscribe) {} else {}
    case Unsuback(id) => if HeldBy(c, id, Unsubscribe) {} else {}
    case WriteOk => HeadTaken(c, taken);
    case WriteFail => HeadTaken(c, taken);
    case _ =>
  }

  lemma HeadTaken(c: Client, taken: seq<Ref>)
    requires c.outgoing != []
    ensures taken + c.outgoing == taken + [c.outgoing[0]] + c.outgoing[1..]
    ensures taken + [c.outgoing[0]] <= taken + c.outgoing
  {
    assert c.outgoing == [c.outgoing[0]] + c.outgoing[1..];
  }

  /** In every run, from the start of a session up to the next: what the writer takes out, then
      the channel, is exactly what the calls sent while it was running, in their order, up to
      what it drops when it stops. */
  lemma {:induction false} SentIsTaken(run: seq<Client>, actions: seq<Action>, m: nat, n: nat)
    requires IsRun(run, actions) && 0 < m <= n < |run| && actions[m - 1] == OfConnect(ConnectAccept)
    requires forall k :: m <= k < n ==> actions[k] != OfConnect(ConnectAccept)
    ensures Passed(SentIn(run, actions, m, n), TakenIn(run, actions, m, n), run[n])
  {
    if m == n {
      assert run[m] == Next(run[m - 1], actions[m - 1]);
    } else {
      SentIsTaken(run, actions, m, n - 1);
      StepPassed(run[n - 1], actions[n - 1], SentIn(run, actions, m, n - 1), TakenIn(run, actions, m, n - 1));
    }
  }

  // ----- How a call ends -----

  /** The call that made the token `r` has not come to sending. */
  predicate Before(c: Client, r: Ref) {
    (c.call.Checked? || c.call.HasId?) && c.call.token == r
  }

  predicate SendsFor(c: Client, a: Action, r: Ref) {
    a == OfCall(Send) && c.call.HasId? && c.call.token == r
  }

  /** The call ends before sending: not connected, no identifier free, or an invalid topic. */
  ghost predicate GivesUp(c: Client, a: Action, r: Ref) {
    match a
    case OfCall(Begin(_)) => r == |c.tokens| && !c.status.Connected?
    case OfCall(TakeId) => c.call.Checked? && c.call.token == r && TakesId(c.call.req) && AllHeld(c.ids.index)
    case OfCall(RejectTopic) => c.call.HasId? && c.call.token == r
    case _ => false
  }

  lemma StepEnds(c: Client, a: Action, r: Ref)
    requires Enabled(c, a) && r < |Next(c, a).tokens|
    ensures r < |c.tokens| ==> (Before(c, r) ==> Before(Next(c, a), r) || SendsFor(c, a, r) || GivesUp(c, a, r))
    ensures r >= |c.tokens| ==> Before(Next(c, a), r) || GivesUp(c, a, r)
  {
    match a
    case OfCall(s) => CallEnds(c, s, r);
    case OfConnect(s) => ConnectKeeps(c, s, r);
    case OfSession(s) => SessionKeeps(c, s, r);
  }

  lemma CallEnds(c: Client, s: CallStep, r: Ref)
    requires CallEnabled(c, s) && r < |CallNext(c, s).tokens|
    ensures r < |c.tokens| ==>
              (Before(c, r) ==> Before(CallNext(c, s), r) || SendsFor(c, OfCall(s), r) || GivesUp(c, OfCall(s), r))
    ensures r >= |c.tokens| ==> Before(CallNext(c, s), r) || GivesUp(c, OfCall(s), r)
  {
    CallTokenCount(c, s);
    match s
    case Begin(_) => if c.status.Connected? {} else {}
    case TakeId => TakeIdEnds(c, r);
    case _ =>
  }

  lemma TakeIdEnds(c: Client, r: Ref)
    requires c.call.Checked?
    ensures Before(c, r) ==> Before(CallNext(c, TakeId), r) || GivesUp(c, OfCall(TakeId), r)
  {
    NextIdIsFirstVacant(c.ids, c.call.token);
    if !TakesId(c.call.req) {} else if NextId(c.ids) == 0 {} else {}
  }

  ghost predicate CameToSending(run: seq<Client>, actions: seq<Action>, n: nat, r: Ref)
    requires n <= |run| && n <= |actions|
  {
    exists k :: 0 <= k < n && SendsFor(run[k], actions[k], r)
  }

  ghost predicate GaveUp(run: seq<Client>, actions: seq<Action>, n: nat, r: Ref)
    requires n <= |run| && n <= |actions|
  {
    exists k :: 0 <= k < n && GivesUp(run[k], actions[k], r)
  }

  /** In every run every token's call is before sending, came to sending, or gave up. */
  lemma {:induction false} EveryCallSends(run: seq<Client>, actions: seq<Action>, n: nat, r: Ref)
    requires IsRun(run, actions) && n < |run| && r < |run[n].tokens|
    ensures Before(run[n], r) || CameToSending(run, actions, n, r) || GaveUp(run, actions, n, r)
  {
    if n > 0 {
      var c, a := run[n - 1], actions[n - 1];
      StepEnds(c, a, r);
      if r < |c.tokens| {
        EveryCallSends(run, actions, n - 1, r);
      }
      if CameToSending(run, actions, n - 1, r) || SendsFor(c, a, r) {
        assert CameToSending(run, actions, n, r);
      } else if GaveUp(run, actions, n - 1, r) || GivesUp(c, a, r) {
        assert GaveUp(run, actions, n, r);
      }
    }
  }

  // ----- Errors -----

  /** The error that the step makes token `r` report, if any. */
  ghost function Report(c: Client, a: Action, r: Ref): Option<TokenError> {
    match a
    case OfCall(Begin(_)) => if r == |c.tokens| && !c.status.Connected? then Some(ConnectionLost) else None
    case OfCall(TakeId) =>
      if c.call.Checked? && c.call.token == r && TakesId(c.call.req) && AllHeld(c.ids.index) then Some(PacketIdError)
      else None
    case OfCall(RejectTopic) => if c.call.HasId? && c.call.token == r then Some(InvalidTopic) else None
    case OfCall(Send) =>
      if c.call.HasId? && c.call.token == r && !c.writer then Some(InternalServerError) else None
    case OfSession(WriteFail) => if c.outgoing != [] && c.outgoing[0] == r then Some(IOError) else None
    case OfSession(SessionEnd) => if r in c.ids.index.Values then Some(ConnectionLost) else None
    case OfConnect(BlockCleanUp) => if r in c.ids.index.Values then Some(ConnectionLost) else None
    case _ => None
  }

  function ErrorOf(c: Client, r: Ref): Option<TokenError> {
    if r < |c.tokens| then c.tokens[r].record.error else None
  }

  /** The step completes the token: by an error, an acknowledgement, or the writing of a packet
      that nothing acknowledges. */
  ghost predicate Completes(c: Client, a: Action, r: Ref) {
    || Report(c, a, r).Some?
    || match a
       case OfSession(Ack(id)) => id in c.ids.index && c.ids.index[id] == r
       case OfSession(Suback(id, _)) => HeldBy(c, id, Subscribe) && c.ids.index[id] == r
       case OfSession(Unsuback(id)) => HeldBy(c, id, Unsubscribe) && c.ids.index[id] == r
       case OfSession(WriteOk) =>
         c.outgoing != [] && c.outgoing[0] == r && r < |c.tokens| && !TakesId(c.tokens[r].req)
       case _ => false
  }

  ghost predicate Told(c: Client, a: Action, d: Client, r: Ref) {
    && ErrorOf(d, r) == (if Report(c, a, r).Some? then Report(c, a, r) else ErrorOf(c, r))
    && (Complete(d, r) <==> Complete(c, r) || Completes(c, a, r))
  }

  lemma StepTells(c: Client, a: Action, r: Ref)
    requires RefsValid(c) && Enabled(c, a)
    ensures Told(c, a, Next(c, a), r)
  {
    match a
    case OfCall(s) => CallTells(c, s, r);
    case OfConnect(s) => ConnectTells(c, s, r);
    case OfSession(s) => SessionTells(c, s, r);
  }

  lemma CallTells(c: Client, s: CallStep, r: Ref)
    requires RefsValid(c) && CallEnabled(c, s)
    ensures Told(c, OfCall(s), CallNext(c, s), r)
  {
    match s
    case Begin(req) => BeginTells(c, req, r);
    case TakeId => TakeIdTells(c, r);
    case Send => SendTells(c, r);
    case _ =>
  }

  lemma BeginTells(c: Client, req: Request, r: Ref)
    requires c.call.Idle?
    ensures Told(c, OfCall(Begin(req)), CallNext(c, Begin(req)), r)
  {
    if c.status.Connected? {} else {}
  }

  lemma TakeIdTells(c: Client, r: Ref)
    requires RefsValid(c) && c.call.Checked?
    ensures Told(c, OfCall(TakeId), CallNext(c, TakeId), r)
  {
    if TakesId(c.call.req) {
      NoneFree(c.ids);
      if NextId(c.ids) == 0 {} else {}
    }
  }

  lemma SendTells(c: Client, r: Ref)
    requires RefsValid(c) && CallEnabled(c, Send)
    ensures Told(c, OfCall(Send), CallNext(c, Send), r)
  {
    if c.writer {} else {}
  }

  lemma ConnectTells(c: Client, s: ConnectStep, r: Ref)
    requires RefsValid(c) && ConnectEnabled(c, s)
    ensures Told(c, OfConnect(s), ConnectNext(c, s), r)
  {
    if !s.BlockCleanUp? {
      ConnectFrame(c, s);
    }
  }

  lemma SessionTells(c: Client, s: SessionStep, r: Ref)
    requires RefsValid(c) && SessionEnabled(c, s)
    ensures Told(c, OfSession(s), SessionNext(c, s), r)
  {
    match s
    case Ack(id) => if id in c.ids.index { AckedTells(c, id, r); }
    case Suback(id, codes) => if HeldBy(c, id, Subscribe) { SubAckedTells(c, id, codes, r); }
    case Unsuback(id) => if HeldBy(c, id, Unsubscribe) { AckedTells(c, id, r); }
    case WriteOk => WriterTells(c, s, r);
    case WriteFail => WriterTells(c, s, r);
    case _ =>
  }

  lemma AckedTells(c: Client, id: U16, r: Ref)
    requires RefsValid(c) && id in c.ids.index
    ensures ErrorOf(Acked(c, id), r) == ErrorOf(c, r)
    ensures Complete(Acked(c, id), r) <==> Complete(c, r) || c.ids.index[id] == r
  {
  }

  lemma SubAckedTells(c: Client, id: U16, codes: seq<SubAck>, r: Ref)
    requires RefsValid(c) && HeldBy(c, id, Subscribe)
    ensures ErrorOf(SubAcked(c, id, codes), r) == ErrorOf(c, r)
    ensures Complete(SubAcked(c, id, codes), r) <==> Complete(c, r) || c.ids.index[id] == r
  {
    AckedTells(c, id, r);
  }

  lemma WriterTells(c: Client, s: SessionStep, r: Ref)
    requires RefsValid(c) && SessionEnabled(c, s) && (s.WriteOk? || s.WriteFail?)
    ensures Told(c, OfSession(s), SessionNext(c, s), r)
  {
    assert c.outgoing[0] in c.outgoing;
  }

  lemma RunTells(run: seq<Client>, actions: seq<Action>, n: nat, r: Ref)
    requires IsRun(run, actions) && 0 < n < |run|
    ensures Told(run[n - 1], actions[n - 1], run[n], r)
  {
    RunInv(run, actions, n - 1);
    StepTells(run[n - 1], actions[n - 1], r);
  }

  ghost predicate WasCompleted(run: seq<Client>, actions: seq<Action>, n: nat, r: Ref)
    requires n <= |run| && n <= |actions|
  {
    exists k :: 0 <= k < n && Completes(run[k], actions[k], r)
  }

  lemma CompletedNext(run: seq<Client>, actions: seq<Action>, n: nat, r: Ref)
    requires n < |run| && n < |actions|
    ensures WasCompleted(run, actions, n + 1, r)
       <==> WasCompleted(run, actions, n, r) || Completes(run[n], actions[n], r)
  {
  }

  /** In every run a token is complete exactly if one of these steps was made for it. */
  lemma {:induction false} CompleteIff(run: seq<Client>, actions: seq<Action>, n: nat, r: Ref)
    requires IsRun(run, actions) && n < |run|
    ensures Complete(run[n], r) <==> WasCompleted(run, actions, n, r)
  {
    if n > 0 {
      CompleteIff(run, actions, n - 1, r);
      RunTells(run, actions, n, r);
      CompletedNext(run, actions, n - 1, r);
    }
  }

  ghost predicate LastReport(run: seq<Client>, actions: seq<Action>, n: nat, k: nat, r: Ref)
    requires n <= |run| && n <= |actions|
  {
    && k < n && Report(run[k], actions[k], r).Some?
    && forall j :: k < j < n ==> Report(run[j], actions[j], r).None?
  }

  /** In every run the error of a token is what the last step that reports one says. */
  lemma {:induction false} ErrorIsLastReport(run: seq<Client>, actions: seq<Action>, n: nat, k: nat, r: Ref)
    requires IsRun(run, actions) && n < |run| && LastReport(run, actions, n, k, r)
    ensures ErrorOf(run[n], r) == Report(run[k], actions[k], r)
  {
    RunTells(run, actions, n, r);
    if k < n - 1 {
      ErrorIsLastReport(run, actions, n - 1, k, r);
    }
  }

  /** And none if no step reports one. */
  lemma {:induction false} NoErrorUnreported(run: seq<Client>, actions: seq<Action>, n: nat, r: Ref)
    requires IsRun(run, actions) && n < |run|
    requires forall k :: 0 <= k < n ==> Report(run[k], actions[k], r).None?
    ensures ErrorOf(run[n], r) == None
  {
    if n > 0 {
      NoErrorUnreported(run, actions, n - 1, r);
      RunTells(run, actions, n, r);
    }
  }

  // ----- Kinds -----

  /** In every reachable state the kind by which SUBACK and UNSUBACK find a token is that of its
      request. */
  lemma KindOfRequest(run: seq<Client>, actions: seq<Action>, n: nat, id: U16)
    requires IsRun(run, actions) && n < |run| && id in run[n].ids.index
    ensures var r := run[n].ids.index[id];
            && r < |run[n].tokens|
            && (HeldBy(run[n], id, Subscribe) <==> run[n].tokens[r].req.SubscribeTo?)
            && (HeldBy(run[n], id, Unsubscribe) <==> run[n].tokens[r].req.UnsubscribeFrom?)
  {
    RunInv(run, actions, n);
    RunSubs(run, actions, n);
    assert SubsMatch(run[n], run[n].ids.index[id]);
  }

  // ----- The tokens of `connect` -----

  /** The outcome that the step gives the connect token number `i`, if any. */
  ghost function ConnectReport(c: Client, a: Action, i: nat): Option<Option<TokenError>> {
    match a
    case OfConnect(ConnectBegin) =>
      if i == |c.connects| && c.status.Connecting? then Some(Some(Reconnecting)) else None
    case OfConnect(ConnectFail) => if i + 1 == |c.connects| then Some(Some(ConnectFailed)) else None
    case OfConnect(ConnectDone) => if i + 1 == |c.connects| then Some(None) else None
    case _ => None
  }

  ghost predicate ConnectTold(c: Client, a: Action, d: Client, i: nat) {
    && |c.connects| <= |d.connects|
    && (ConnectReport(c, a, i).Some? ==>
          i < |d.connects| && d.connects[i].complete && d.connects[i].error == ConnectReport(c, a, i).value)
    && (ConnectReport(c, a, i).None? && i < |c.connects| ==> d.connects[i] == c.connects[i])
  }

  predicate DialsAfresh(c: Client) {
    Dials(c) ==> c.connects != [] && c.connects[|c.connects| - 1].error == None
  }

  lemma StepConnectTells(c: Client, a: Action, i: nat)
    requires Enabled(c, a) && DialsAfresh(c)
    ensures ConnectTold(c, a, Next(c, a), i) && DialsAfresh(Next(c, a))
  {
    if a == OfConnect(ConnectBegin) {
      BeginConnectTells(c, i);
    } else if Touches(a) {
      EndConnectTells(c, a.connect, i);
    } else {
      StepConnects(c, a);
    }
  }

  lemma BeginConnectTells(c: Client, i: nat)
    requires c.call.Idle?
    ensures var d := ConnectNext(c, ConnectBegin);
            ConnectTold(c, OfConnect(ConnectBegin), d, i) && DialsAfresh(d)
  {
    BeginConnects(c);
    if c.status.Connected? {} else if c.status.Disconnected? {} else {}
  }

  lemma EndConnectTells(c: Client, s: ConnectStep, i: nat)
    requires ConnectEnabled(c, s) && (s.ConnectFail? || s.ConnectDone?) && DialsAfresh(c)
    ensures ConnectTold(c, OfConnect(s), ConnectNext(c, s), i) && DialsAfresh(ConnectNext(c, s))
  {
  }

  ghost predicate LastConnectReport(run: seq<Client>, actions: seq<Action>, n: nat, k: nat, i: nat)
    requires n <= |run| && n <= |actions|
  {
    && k < n && ConnectReport(run[k], actions[k], i).Some?
    && forall j :: k < j < n ==> ConnectReport(run[j], actions[j], i).None?
  }

  lemma {:induction false} RunDialsAfresh(run: seq<Client>, actions: seq<Action>, n: nat)
    requires IsRun(run, actions) && n < |run|
    ensures DialsAfresh(run[n])
  {
    if n > 0 {
      RunDialsAfresh(run, actions, n - 1);
      StepConnectTells(run[n - 1], actions[n - 1], 0);
    }
  }

  lemma RunConnectTells(run: seq<Client>, actions: seq<Action>, n: nat, i: nat)
    requires IsRun(run, actions) && 0 < n < |run|
    ensures ConnectTold(run[n - 1], actions[n - 1], run[n], i)
  {
    RunDialsAfresh(run, actions, n - 1);
    StepConnectTells(run[n - 1], actions[n - 1], i);
  }

  ghost predicate Outcome(c: Client, i: nat, error: Option<TokenError>) {
    i < |c.connects| && c.connects[i].complete && c.connects[i].error == error
  }

  /** In every run a connect token reports what the last such step gave it: success exactly when
      its `connect` was accepted and went on to its end. */
  lemma {:induction false} ConnectOutcome(run: seq<Client>, actions: seq<Action>, n: nat, k: nat, i: nat)
    requires IsRun(run, actions) && n < |run| && LastConnectReport(run, actions, n, k, i)
    ensures Outcome(run[n], i, ConnectReport(run[k], actions[k], i).value)
  {
    RunConnectTells(run, actions, n, i);
    if k < n - 1 {
      ConnectOutcome(run, actions, n - 1, k, i);
      OutcomeKept(run[n - 1], actions[n - 1], run[n], i, ConnectReport(run[k], actions[k], i).value);
    } else {
      OutcomeGiven(run[n - 1], actions[n - 1], run[n], i);
    }
  }

  lemma OutcomeKept(c: Client, a: Action, d: Client, i: nat, error: Option<TokenError>)
    requires ConnectTold(c, a, d, i) && ConnectReport(c, a, i).None? && Outcome(c, i, error)
    ensures Outcome(d, i, error)
  {
  }

  lemma OutcomeGiven(c: Client, a: Action, d: Client, i: nat)
    requires ConnectTold(c, a, d, i) && ConnectReport(c, a, i).Some?
    ensures Outcome(d, i, ConnectReport(c, a, i).value)
  {
  }
}
