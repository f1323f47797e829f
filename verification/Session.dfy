/** The client across sessions (`src/client.rs`, `src/net.rs`) as a transition system. Each
    step is one lock-protected block; steps of the client call in progress, the reader, the
    writer, the session task and `block` interleave freely. */
module Session {
  import opened Topics
  import opened TrieSpec
  import opened Tokens
  import opened PacketIds
  import opened Handlers

  /** A token shared by reference: its position in the list of tokens created so far. */
  type Ref = nat

  /** `req` is the request the token was made for. */
  datatype TokenState = TokenState(req: Request, kind: Kind, record: Record, subs: seq<Subscription>,
                                   topics: seq<string>, results: map<string, SubAck>)

  datatype Status = Connected | Disconnected | Connecting

  /** What a call asks for: QoS 0 and QoS 1 or 2 publishing, subscribing, unsubscribing,
      disconnecting. */
  datatype Request =
    | PublishOnce
    | PublishAcked
    | SubscribeTo(subs: seq<Subscription>)
    | UnsubscribeFrom(topics: seq<string>)
    | DisconnectNow

  predicate TakesId(req: Request) {
    !req.PublishOnce? && !req.DisconnectNow?
  }

  /** Where the client call in progress stands: the methods take `&mut self`, so there is at
      most one. `HasId` has its identifier, if the request takes one, and counts the topics
      added to an unsubscribe token; `Queued` awaits `add_subscriptions`; `Dialing` is
      `connect` before, `Spawned` after the session task is started. */
  datatype Call =
    | Idle
    | Checked(req: Request, token: Ref)
    | HasId(req: Request, token: Ref, added: nat)
    | Queued(subs: seq<Subscription>, token: Ref)
    | Dialing
    | Spawned

  /** `connects` are the tokens that `connect` made; `issued` the tokens that got an identifier
      and `acked` those completed by an acknowledgement; `raced` records an early session end. */
  datatype Client = Client(
    status: Status,
    call: Call,
    live: bool,
    reader: bool,
    writer: bool,
    ids: Ids<Ref>,
    tokens: seq<TokenState>,
    connects: seq<Record>,
    outgoing: seq<Ref>,
    trie: Content,
    subs: map<string, Subscription>,
    issued: set<Ref>,
    acked: set<Ref>,
    raced: bool)

  const INITIAL := Client(Disconnected, Idle, false, false, false, Ids(map[], PKID_MIN), [], [], [], EMPTY,
                          map[], {}, {}, false)

  /** Steps of a request: `publish`, `subscribe`, `unsubscribe`, `disconnect`. */
  datatype CallStep = Begin(req: Request) | TakeId | AddTopic | RejectTopic | Send | AddSubs

  /** Steps of `connect` and `block`. */
  datatype ConnectStep =
    | ConnectBegin | ConnectFail | ConnectAccept | ConnectDone | BlockCleanUp | BlockClear

  /** Steps of the reader, the writer and the session task. */
  datatype SessionStep =
    | Ack(id: U16) | Suback(id: U16, codes: seq<SubAck>) | Unsuback(id: U16)
    | ReaderStop | WriteOk | WriteFail | WriterStop | SessionEnd

  datatype Action = OfCall(call: CallStep) | OfConnect(connect: ConnectStep) | OfSession(session: SessionStep)

  function KindOf(req: Request): Kind {
    match req
    case PublishOnce => Publish
    case PublishAcked => Publish
    case SubscribeTo(_) => Subscribe
    case UnsubscribeFrom(_) => Unsubscribe
    case DisconnectNow => Disconnect
  }

  function NewToken(req: Request): TokenState {
    TokenState(req, KindOf(req), FRESH, [], [], map[])
  }

  // ----- Updating tokens -----

  function WithRecord(ts: seq<TokenState>, r: Ref, record: Record): seq<TokenState> {
    if r < |ts| then ts[r := ts[r].(record := record)] else ts
  }

  function Fail(ts: seq<TokenState>, r: Ref, e: TokenError): seq<TokenState> {
    if r < |ts| then WithRecord(ts, r, ts[r].record.SetError(e)) else ts
  }

  function Finish(ts: seq<TokenState>, r: Ref): seq<TokenState> {
    if r < |ts| then WithRecord(ts, r, ts[r].record.FlowComplete()) else ts
  }

  function NameTopic(ts: seq<TokenState>, r: Ref, topic: string): seq<TokenState> {
    if r < |ts| then ts[r := ts[r].(topics := ts[r].topics + [topic])] else ts
  }

  function NameSubs(ts: seq<TokenState>, r: Ref, subs: seq<Subscription>): seq<TokenState> {
    if r < |ts| then ts[r := ts[r].(subs := ts[r].subs + subs)] else ts
  }

  function NameResults(ts: seq<TokenState>, r: Ref, results: map<string, SubAck>): seq<TokenState> {
    if r < |ts| then ts[r := ts[r].(results := results)] else ts
  }

  /** `clean_up`: every token in the index fails. */
  function FailAll(ts: seq<TokenState>, index: map<U16, Ref>): seq<TokenState> {
    seq(|ts|, r requires 0 <= r < |ts| =>
      if r in index.Values then ts[r].(record := ts[r].record.SetError(ConnectionLost)) else ts[r])
  }

  /** The writer completes the tokens that nothing else would complete. */
  function WrittenOut(ts: seq<TokenState>, r: Ref): seq<TokenState> {
    if r < |ts| && !TakesId(ts[r].req) then Finish(ts, r) else ts
  }

  function FailLast(rs: seq<Record>): seq<Record> {
    if rs == [] then rs else rs[|rs| - 1 := rs[|rs| - 1].SetError(ConnectFailed)]
  }

  function FinishLast(rs: seq<Record>): seq<Record> {
    if rs == [] then rs else rs[|rs| - 1 := rs[|rs| - 1].FlowComplete()]
  }

  // ----- Steps -----

  ghost predicate CallEnabled(c: Client, a: CallStep) {
    match a
    case Begin(_) => c.call.Idle?
    case TakeId => c.call.Checked?
    case AddTopic => c.call.HasId? && c.call.req.UnsubscribeFrom? && c.call.added < |c.call.req.topics|
    case RejectTopic => c.call.HasId? && !c.call.req.DisconnectNow?
    case Send => c.call.HasId? && (c.call.req.UnsubscribeFrom? ==> c.call.added == |c.call.req.topics|)
    case AddSubs => c.call.Queued?
  }

  function CallNext(c: Client, a: CallStep): Client
    requires CallEnabled(c, a)
  {
    match a
    case Begin(req) =>
      var r := |c.tokens|;
      var ts := c.tokens + [NewToken(req)];
      if c.status.Connected? then c.(tokens := ts, call := Checked(req, r))
      else c.(tokens := Fail(ts, r, ConnectionLost))
    case TakeId =>
      var r := c.call.token;
      if !TakesId(c.call.req) then c.(call := HasId(c.call.req, r, 0))
      else if NextId(c.ids) == 0 then c.(tokens := Fail(c.tokens, r, PacketIdError), call := Idle)
      else c.(ids := WithIssued(c.ids, r), issued := c.issued + {r}, call := HasId(c.call.req, r, 0))
    case AddTopic =>
      var topic := c.call.req.topics[c.call.added];
      c.(tokens := NameTopic(c.tokens, c.call.token, topic), call := c.call.(added := c.call.added + 1))
    case RejectTopic =>
      c.(tokens := Fail(c.tokens, c.call.token, InvalidTopic), call := Idle)
    case Send =>
      var r := c.call.token;
      var after := if c.call.req.SubscribeTo? then Queued(c.call.req.subs, r) else Idle;
      if c.writer then c.(outgoing := c.outgoing + [r], call := after)
      else c.(tokens := Fail(c.tokens, r, InternalServerError), call := after)
    case AddSubs =>
      c.(tokens := NameSubs(c.tokens, c.call.token, c.call.subs), call := Idle)
  }

  predicate ConnectEnabled(c: Client, a: ConnectStep) {
    match a
    case ConnectBegin => c.call.Idle?
    case ConnectFail => c.call.Dialing?
    case ConnectAccept => c.call.Dialing?
    case ConnectDone => c.call.Spawned?
    case BlockCleanUp => c.call.Idle?
    case BlockClear => c.call.Idle?
  }

  function ConnectNext(c: Client, a: ConnectStep): Client
    requires ConnectEnabled(c, a)
  {
    match a
    case ConnectBegin => Dialed(c)
    case ConnectFail => c.(status := Disconnected, call := Idle, connects := FailLast(c.connects))
    case ConnectAccept => c.(live := true, reader := true, writer := true, outgoing := [], call := Spawned)
    case ConnectDone => c.(status := Connected, call := Idle, connects := FinishLast(c.connects))
    case BlockCleanUp => CleanedUp(c)
    case BlockClear => c.(trie := Cleared(c.trie))
  }

  /** A new connect token. Only from Disconnected is a connection opened; when already
      connected the token is returned as it is. */
  function Dialed(c: Client): Client {
    match c.status
    case Disconnected => c.(status := Connecting, call := Dialing, connects := c.connects + [FRESH])
    case Connected => c.(connects := c.connects + [FRESH])
    case Connecting => c.(connects := c.connects + [FRESH.SetError(Reconnecting)])
  }

  predicate SessionEnabled(c: Client, a: SessionStep) {
    match a
    case Ack(_) => c.reader
    case Suback(_, _) => c.reader
    case Unsuback(_) => c.reader
    case ReaderStop => c.reader
    case WriteOk => c.writer && c.outgoing != []
    case WriteFail => c.writer && c.outgoing != []
    case WriterStop => c.writer
    case SessionEnd => c.live && !c.reader && !c.writer
  }

  ghost function SessionNext(c: Client, a: SessionStep): Client
    requires SessionEnabled(c, a)
  {
    match a
    case Ack(id) => if id in c.ids.index then Acked(c, id) else c
    case Suback(id, codes) => if HeldBy(c, id, Subscribe) then SubAcked(c, id, codes) else c
    case Unsuback(id) =>
      if !HeldBy(c, id, Unsubscribe) then c
      else Acked(c, id).(trie := RemoveTopics(c.trie, c.tokens[c.ids.index[id]].topics))
    case ReaderStop => c.(reader := false)
    case WriteOk => c.(tokens := WrittenOut(c.tokens, c.outgoing[0]), outgoing := c.outgoing[1..])
    case WriteFail => c.(tokens := Fail(c.tokens, c.outgoing[0], IOError), writer := false, outgoing := [])
    case WriterStop => c.(writer := false, outgoing := [])
    case SessionEnd =>
      CleanedUp(c).(live := false, status := Disconnected, raced := c.raced || c.call.Spawned?)
  }

  ghost predicate Enabled(c: Client, a: Action) {
    match a
    case OfCall(s) => CallEnabled(c, s)
    case OfConnect(s) => ConnectEnabled(c, s)
    case OfSession(s) => SessionEnabled(c, s)
  }

  ghost function Next(c: Client, a: Action): Client
    requires Enabled(c, a)
  {
    match a
    case OfCall(s) => CallNext(c, s)
    case OfConnect(s) => ConnectNext(c, s)
    case OfSession(s) => SessionNext(c, s)
  }

  /** A SUBACK for the subscribe token that holds `id`. */
  function SubAcked(c: Client, id: U16, codes: seq<SubAck>): Client
    requires HeldBy(c, id, Subscribe)
  {
    var r := c.ids.index[id];
    var g := GrantAll(Grants(c.trie, c.subs, c.tokens[r].results), c.tokens[r].subs, codes);
    var d := Acked(c, id);
    d.(trie := g.trie, subs := g.subs, tokens := NameResults(d.tokens, r, g.results))
  }

  /** The token holding `id` completes and the identifier is freed. */
  function Acked(c: Client, id: U16): Client
    requires id in c.ids.index
    ensures |Acked(c, id).tokens| == |c.tokens|
  {
    var r := c.ids.index[id];
    c.(tokens := Finish(c.tokens, r), ids := WithFreed(c.ids, id), acked := c.acked + {r})
  }

  predicate HeldBy(c: Client, id: U16, kind: Kind) {
    id in c.ids.index && c.ids.index[id] < |c.tokens| && c.tokens[c.ids.index[id]].kind == kind
  }

  function CleanedUp(c: Client): Client {
    c.(tokens := FailAll(c.tokens, c.ids.index), ids := Emptied(c.ids))
  }

  /** A run: the states passed through from the initial one. */
  ghost predicate IsRun(run: seq<Client>, actions: seq<Action>) {
    && |run| == |actions| + 1
    && run[0] == INITIAL
    && Follows(run, actions)
  }

  ghost predicate Follows(run: seq<Client>, actions: seq<Action>)
  {
    && |run| == |actions| + 1
    && forall i :: 0 <= i < |actions| ==> Enabled(run[i], actions[i]) && run[i + 1] == Next(run[i], actions[i])
  }

  /** A run one step longer at its end. */
  lemma Extended(run: seq<Client>, actions: seq<Action>, a: Action) returns (longer: seq<Client>, more: seq<Action>)
    requires Follows(run, actions) && Enabled(run[|run| - 1], a)
    ensures Follows(longer, more) && more == actions + [a] && longer == run + [Next(run[|run| - 1], a)]
  {
    longer, more := run + [Next(run[|run| - 1], a)], actions + [a];
    forall i | 0 <= i < |more| ensures Enabled(longer[i], more[i]) && longer[i + 1] == Next(longer[i], more[i]) {
      if i < |actions| {
        assert longer[i] == run[i] && longer[i + 1] == run[i + 1] && more[i] == actions[i];
      }
    }
  }

  /** A run one step longer at its beginning. */
  lemma Preceded(c: Client, a: Action, later: seq<Client>, more: seq<Action>)
    returns (run: seq<Client>, actions: seq<Action>)
    requires Follows(later, more) && Enabled(c, a) && later[0] == Next(c, a)
    ensures Follows(run, actions) && run == [c] + later && actions == [a] + more
  {
    run, actions := [c] + later, [a] + more;
    forall i | 0 <= i < |actions| ensures Enabled(run[i], actions[i]) && run[i + 1] == Next(run[i], actions[i]) {
      if i > 0 {
        assert run[i] == later[i - 1] && run[i + 1] == later[i] && actions[i] == more[i - 1];
      }
    }
  }

  // ----- Invariants -----

  ghost predicate RefsValid(c: Client) {
    && (forall id :: id in c.ids.index ==> c.ids.index[id] < |c.tokens|)
    && (forall r :: r in c.issued ==> r < |c.tokens| && TakesId(c.tokens[r].req))
    && (forall r :: r in c.outgoing ==> r < |c.tokens|)
    && (c.call.Checked? || c.call.HasId? || c.call.Queued? ==> c.call.token < |c.tokens|)
    && (c.call.Checked? ==> Untouched(c, c.call.token) && c.tokens[c.call.token].req == c.call.req)
  }

  /** Nobody else knows the token yet. */
  ghost predicate Untouched(c: Client, r: Ref) {
    r < |c.tokens| && c.tokens[r].record == FRESH && r !in c.ids.index.Values && r !in c.outgoing
  }

  /** How the status, the session task and the call in progress relate. */
  ghost predicate StatusAgrees(c: Client) {
    && (c.reader || c.writer ==> c.live)
    && (c.live ==> !c.raced && (if c.call.Spawned? then c.status.Connecting? else c.status.Connected?))
    && (c.call.Dialing? ==> c.status.Connecting? && !c.live && !c.raced)
    && (c.status.Connecting? ==> c.call.Dialing? || c.call.Spawned?)
    && (c.call.Spawned? && !c.live ==> c.raced)
    && (c.status.Connected? && !c.live ==> c.raced)
    && (c.raced ==> if c.call.Spawned? then c.status.Disconnected? else c.status.Connected?)
    && (c.call.Spawned? ==> !c.status.Connected?)
  }

  predicate Complete(c: Client, r: Ref) {
    r < |c.tokens| && c.tokens[r].record.complete
  }

  /** A token that got an identifier is complete or still in the index; with no session, only
      the call in progress may hold an incomplete one. Success is never reported without an
      acknowledgement. */
  ghost predicate TokensCovered(c: Client) {
    forall r :: r in c.issued ==>
      && (Complete(c, r) || r in c.ids.index.Values)
      && (!c.live ==> Complete(c, r) || (c.call.HasId? && c.call.token == r))
      && (Complete(c, r) && c.tokens[r].record.error == None ==> r in c.acked)
  }

  /** A topic with a non-empty trie list is in the subscription map, with the subscription
      that was pushed last. */
  ghost predicate Filed(trie: Content, subs: map<string, Subscription>) {
    && IsTree(trie) && AtHome(trie) && Keyed(subs)
    && forall t :: TopicFiled(trie, subs, t)
  }

  ghost predicate TopicFiled(trie: Content, subs: map<string, Subscription>, t: string) {
    var held := Held(trie, Tokenize(t));
    held != [] ==> t in subs && subs[t] == held[|held| - 1]
  }

  lemma StepStatus(c: Client, a: Action)
    requires StatusAgrees(c) && Enabled(c, a)
    ensures StatusAgrees(Next(c, a))
  {
    match a
    case OfCall(s) => CallStatus(c, s);
    case OfConnect(s) =>
    case OfSession(s) => SessionStatus(c, s);
  }

  lemma CallStatus(c: Client, a: CallStep)
    requires StatusAgrees(c) && CallEnabled(c, a)
    ensures StatusAgrees(CallNext(c, a))
  {
    match a
    case TakeId => if !TakesId(c.call.req) {} else if NextId(c.ids) == 0 {} else {}
    case Begin(_) => if c.status.Connected? {} else {}
    case Send => if c.writer {} else {}
    case _ =>
  }

  lemma SessionStatus(c: Client, a: SessionStep)
    requires StatusAgrees(c) && SessionEnabled(c, a)
    ensures StatusAgrees(SessionNext(c, a))
  {
  }

  lemma StepRefs(c: Client, a: Action)
    requires RefsValid(c) && Enabled(c, a)
    ensures RefsValid(Next(c, a))
  {
    match a
    case OfCall(s) => CallRefs(c, s);
    case OfConnect(s) => ConnectRefs(c, s);
    case OfSession(s) => SessionRefs(c, s);
  }

  lemma ConnectRefs(c: Client, a: ConnectStep)
    requires RefsValid(c) && ConnectEnabled(c, a)
    ensures RefsValid(ConnectNext(c, a))
  {
    if a.BlockCleanUp? {
      CleanedUpRefs(c);
    } else {
      ConnectFrame(c, a);
      NoCallRefs(c, ConnectNext(c, a));
    }
  }

  /** What `connect` and the clearing of the trie leave alone. */
  lemma ConnectFrame(c: Client, a: ConnectStep)
    requires ConnectEnabled(c, a) && !a.BlockCleanUp?
    ensures var d := ConnectNext(c, a);
            && d.tokens == c.tokens && d.ids == c.ids && d.issued == c.issued && d.subs == c.subs
            && (d.outgoing == c.outgoing || d.outgoing == []) && d.acked == c.acked
            && !d.call.Checked? && !d.call.HasId? && !d.call.Queued?
  {
    match a
    case ConnectBegin => if c.status.Connected? {} else if c.status.Disconnected? {} else {}
    case _ =>
  }

  lemma NoCallRefs(c: Client, d: Client)
    requires RefsValid(c) && !d.call.Checked? && !d.call.HasId? && !d.call.Queued?
    requires d.tokens == c.tokens && d.ids == c.ids && d.issued == c.issued
    requires d.outgoing == c.outgoing || d.outgoing == []
    ensures RefsValid(d)
  {
  }

  lemma CallRefs(c: Client, a: CallStep)
    requires RefsValid(c) && CallEnabled(c, a)
    ensures RefsValid(CallNext(c, a))
  {
    match a
    case Begin(req) => BeginRefs(c, req);
    case TakeId => TakeIdRefs(c);
    case Send => SendRefs(c);
    case _ =>
  }

  lemma BeginRefs(c: Client, req: Request)
    requires RefsValid(c) && c.call.Idle?
    ensures RefsValid(CallNext(c, Begin(req)))
  {
    var ts := c.tokens + [NewToken(req)];
    if c.status.Connected? {
      NewTokenRefs(c, req);
      BegunRefs(c.(tokens := ts), req);
    } else {
      NewTokenRefs(c, req);
      FailedRefs(c.(tokens := ts), |c.tokens|, ConnectionLost);
    }
  }

  lemma NewTokenRefs(c: Client, req: Request)
    requires RefsValid(c) && c.call.Idle?
    ensures var d := c.(tokens := c.tokens + [NewToken(req)]);
            RefsValid(d) && Untouched(d, |c.tokens|) && d.tokens[|c.tokens|].req == req
  {
  }

  lemma BegunRefs(c: Client, req: Request)
    requires RefsValid(c) && c.tokens != [] && Untouched(c, |c.tokens| - 1) && c.tokens[|c.tokens| - 1].req == req
    ensures RefsValid(c.(call := Checked(req, |c.tokens| - 1)))
  {
  }

  lemma FailedRefs(c: Client, r: Ref, e: TokenError)
    requires RefsValid(c) && c.call.Idle?
    ensures RefsValid(c.(tokens := Fail(c.tokens, r, e)))
  {
  }

  lemma TakeIdRefs(c: Client)
    requires RefsValid(c) && c.call.Checked?
    ensures RefsValid(CallNext(c, TakeId))
  {
    if TakesId(c.call.req) {
      if NextId(c.ids) == 0 {
        NoIdRefs(c);
      } else {
        IdTakenRefs(c);
      }
    }
  }

  lemma NoIdRefs(c: Client)
    requires RefsValid(c) && c.call.Checked? && TakesId(c.call.req) && NextId(c.ids) == 0
    ensures RefsValid(CallNext(c, TakeId))
  {
    assert CallNext(c, TakeId).ids == c.ids;
  }

  lemma IdTakenRefs(c: Client)
    requires RefsValid(c) && c.call.Checked? && TakesId(c.call.req) && NextId(c.ids) != 0
    ensures RefsValid(CallNext(c, TakeId))
  {
    assert CallNext(c, TakeId).tokens == c.tokens;
  }

  lemma SendRefs(c: Client)
    requires RefsValid(c) && CallEnabled(c, Send)
    ensures RefsValid(CallNext(c, Send))
  {
  }

  lemma SessionRefs(c: Client, a: SessionStep)
    requires RefsValid(c) && SessionEnabled(c, a)
    ensures RefsValid(SessionNext(c, a))
  {
    match a
    case Ack(id) => if id in c.ids.index { AckedRefs(c, id); }
    case Suback(id, _) => if HeldBy(c, id, Subscribe) { AckedRefs(c, id); }
    case Unsuback(id) => if HeldBy(c, id, Unsubscribe) { AckedRefs(c, id); }
    case WriteOk =>
      assert c.outgoing[0] in c.outgoing;
      assert forall r :: r in c.outgoing[1..] ==> r in c.outgoing;
    case WriteFail => assert c.outgoing[0] in c.outgoing;
    case SessionEnd => CleanedUpRefs(c);
    case _ =>
  }

  lemma AckedRefs(c: Client, id: U16)
    requires RefsValid(c) && id in c.ids.index
    ensures RefsValid(Acked(c, id))
  {
    var d := Acked(c, id);
    assert c.ids.index[id] in c.ids.index.Values;
    forall r | r in d.ids.index.Values ensures r in c.ids.index.Values {
      var k :| k in d.ids.index && d.ids.index[k] == r;
      assert c.ids.index[k] == r;
    }
  }

  lemma CleanedUpRefs(c: Client)
    requires RefsValid(c)
    ensures RefsValid(CleanedUp(c))
  {
  }

  lemma StepTokens(c: Client, a: Action)
    requires RefsValid(c) && StatusAgrees(c) && TokensCovered(c) && Enabled(c, a)
    ensures TokensCovered(Next(c, a))
  {
    match a
    case OfCall(s) => CallTokens(c, s);
    case OfConnect(s) => ConnectTokens(c, s);
    case OfSession(s) => SessionTokens(c, s);
  }

  lemma ConnectTokens(c: Client, a: ConnectStep)
    requires RefsValid(c) && StatusAgrees(c) && TokensCovered(c) && ConnectEnabled(c, a)
    ensures TokensCovered(ConnectNext(c, a))
  {
    if !a.BlockCleanUp? {
      ConnectFrame(c, a);
    }
  }

  lemma CallTokens(c: Client, a: CallStep)
    requires RefsValid(c) && StatusAgrees(c) && TokensCovered(c) && CallEnabled(c, a)
    ensures TokensCovered(CallNext(c, a))
  {
    if a.TakeId? && TakesId(c.call.req) && NextId(c.ids) != 0 {
      NextIdIsFirstVacant(c.ids, c.call.token);
      IndexKeeps(c.ids.index, NextId(c.ids), c.call.token);
      assert !Complete(c, c.call.token);
    }
  }

  lemma SessionTokens(c: Client, a: SessionStep)
    requires RefsValid(c) && StatusAgrees(c) && TokensCovered(c) && SessionEnabled(c, a)
    ensures TokensCovered(SessionNext(c, a))
  {
    match a
    case Ack(id) => if id in c.ids.index { AckCovers(c, id); }
    case Suback(id, codes) => if HeldBy(c, id, Subscribe) { AckCovers(c, id); }
    case Unsuback(id) => if HeldBy(c, id, Unsubscribe) { AckCovers(c, id); }
    case WriteOk => WriteCovers(c);
    case _ =>
  }

  /** The writer completes only tokens that have no identifier. */
  lemma WriteCovers(c: Client)
    requires RefsValid(c) && TokensCovered(c) && c.writer && c.outgoing != []
    ensures TokensCovered(SessionNext(c, WriteOk))
  {
    var d := SessionNext(c, WriteOk);
    forall r | r in c.issued ensures d.tokens[r] == c.tokens[r] {
    }
  }

  lemma IndexKeeps(index: map<U16, Ref>, id: U16, r: Ref)
    requires id !in index
    ensures forall q :: q in index.Values ==> q in index[id := r].Values
    ensures r in index[id := r].Values
  {
    var after := index[id := r];
    assert after[id] == r;
    forall q | q in index.Values ensures q in after.Values {
      var k :| k in index && index[k] == q;
      assert after[k] == q;
    }
  }

  lemma AckCovers(c: Client, id: U16)
    requires RefsValid(c) && TokensCovered(c) && id in c.ids.index && c.live
    ensures TokensCovered(Acked(c, id))
  {
    var d := Acked(c, id);
    forall r | r in c.issued && r in c.ids.index.Values && r != c.ids.index[id]
      ensures r in d.ids.index.Values
    {
      var k :| k in c.ids.index && c.ids.index[k] == r;
      assert k in d.ids.index && d.ids.index[k] == r;
    }
  }

  lemma StepMap(c: Client, a: Action)
    requires Filed(c.trie, c.subs) && Enabled(c, a)
    ensures Filed(Next(c, a).trie, Next(c, a).subs)
  {
    match a
    case OfCall(s) => CallKeeps(c, s);
    case OfConnect(s) => ConnectMap(c, s);
    case OfSession(s) => SessionMap(c, s);
  }

  /** A request call touches neither the trie nor the map. */
  lemma CallKeeps(c: Client, a: CallStep)
    requires CallEnabled(c, a)
    ensures CallNext(c, a).trie == c.trie && CallNext(c, a).subs == c.subs && CallNext(c, a).raced == c.raced
  {
    match a
    case TakeId => if !TakesId(c.call.req) {} else if NextId(c.ids) == 0 {} else {}
    case Begin(_) => if c.status.Connected? {} else {}
    case Send => if c.writer {} else {}
    case _ =>
  }

  lemma ConnectMap(c: Client, a: ConnectStep)
    requires Filed(c.trie, c.subs) && ConnectEnabled(c, a)
    ensures Filed(ConnectNext(c, a).trie, ConnectNext(c, a).subs)
  {
  }

  lemma SessionMap(c: Client, a: SessionStep)
    requires Filed(c.trie, c.subs) && SessionEnabled(c, a)
    ensures Filed(SessionNext(c, a).trie, SessionNext(c, a).subs)
  {
    match a
    case Suback(id, codes) =>
      if HeldBy(c, id, Subscribe) {
        var t := c.tokens[c.ids.index[id]];
        GrantsFiled(Grants(c.trie, c.subs, t.results), t.subs, codes);
      }
    case Unsuback(id) =>
      if HeldBy(c, id, Unsubscribe) {
        RemovalsFiled(c.trie, c.subs, c.tokens[c.ids.index[id]].topics);
      }
    case _ => assert SessionNext(c, a).trie == c.trie && SessionNext(c, a).subs == c.subs;
  }

  lemma {:induction false} GrantsFiled(g: Grants, requested: seq<Subscription>, codes: seq<SubAck>)
    requires Filed(g.trie, g.subs)
    ensures Filed(GrantAll(g, requested, codes).trie, GrantAll(g, requested, codes).subs)
  {
    if codes != [] {
      var n := |codes| - 1;
      var d := GrantAll(g, requested, codes[..n]);
      GrantsFiled(g, requested, codes[..n]);
      if n < |requested| && !codes[n].Failure? {
        InsertFiled(d.trie, d.subs, requested[n]);
      }
    }
  }

  lemma InsertFiled(trie: Content, subs: map<string, Subscription>, s: Subscription)
    requires Filed(trie, subs)
    ensures Filed(Insert(trie, Tokenize(s.topic), s), subs[s.topic := s])
  {
    InsertTree(trie, Tokenize(s.topic), s);
    var after, filed := Insert(trie, Tokenize(s.topic), s), subs[s.topic := s];
    forall t ensures TopicFiled(after, filed, t) {
      InsertTopicFiled(trie, subs, s, t);
    }
  }

  lemma InsertTopicFiled(trie: Content, subs: map<string, Subscription>, s: Subscription, t: string)
    requires TopicFiled(trie, subs, t)
    ensures TopicFiled(Insert(trie, Tokenize(s.topic), s), subs[s.topic := s], t)
  {
    var was, now := Held(trie, Tokenize(t)), Held(Insert(trie, Tokenize(s.topic), s), Tokenize(t));
    InsertHeld(trie, Tokenize(s.topic), s, Tokenize(t));
    if s.topic == t {
      assert now == was + [s] && now[|now| - 1] == s;
    } else {
      TokenizeInjective(s.topic, t);
      assert now == was + [] == was;
    }
  }

  lemma {:induction false} RemovalsFiled(trie: Content, subs: map<string, Subscription>, topics: seq<string>)
    requires Filed(trie, subs)
    ensures Filed(RemoveTopics(trie, topics), subs)
  {
    if topics != [] {
      var n := |topics| - 1;
      var d := RemoveTopics(trie, topics[..n]);
      RemovalsFiled(trie, subs, topics[..n]);
      RemovedTree(d, Tokenize(topics[n]));
      forall t ensures TopicFiled(RemoveTopics(trie, topics), subs, t) {
        RemovedHeld(d, Tokenize(topics[n]), Tokenize(t));
        assert TopicFiled(d, subs, t);
      }
    }
  }

  // ----- Over every run -----

  ghost predicate Inv(c: Client) {
    RefsValid(c) && StatusAgrees(c) && TokensCovered(c) && Filed(c.trie, c.subs)
  }

  lemma {:induction false} FollowsInv(run: seq<Client>, actions: seq<Action>, n: nat)
    requires Follows(run, actions) && n < |run| && Inv(run[0])
    ensures Inv(run[n])
    ensures run[0].raced && !run[0].call.Spawned? ==> run[n].raced && !run[n].call.Spawned?
  {
    if n > 0 {
      FollowsInv(run, actions, n - 1);
      StepStatus(run[n - 1], actions[n - 1]);
      StepRefs(run[n - 1], actions[n - 1]);
      StepTokens(run[n - 1], actions[n - 1]);
      StepMap(run[n - 1], actions[n - 1]);
    }
  }

  lemma RunInv(run: seq<Client>, actions: seq<Action>, n: nat)
    requires IsRun(run, actions) && n < |run|
    ensures Inv(run[n])
  {
    assert Inv(run[0]);
    FollowsInv(run, actions, n);
  }

  /** Whenever no session task is live and no client call is in progress, every token that
      ever got a packet identifier is complete, and one that reports success was acknowledged. */
  lemma NoOrphanedToken(run: seq<Client>, actions: seq<Action>, n: nat, r: Ref)
    requires IsRun(run, actions) && n < |run| && r in run[n].issued
    ensures !run[n].live && run[n].call.Idle? ==> Complete(run[n], r)
    ensures Complete(run[n], r) && run[n].tokens[r].record.error == None ==> r in run[n].acked
  {
    RunInv(run, actions, n);
  }

  /** In every reachable state a topic with subscriptions in the trie is in the map, with the
      last one pushed, and every map entry is filed under its own topic. */
  lemma TrieAgreesWithMap(run: seq<Client>, actions: seq<Action>, n: nat, t: string)
    requires IsRun(run, actions) && n < |run|
    ensures var held := Held(run[n].trie, Tokenize(t));
            held != [] ==> t in run[n].subs && run[n].subs[t] == held[|held| - 1]
    ensures Keyed(run[n].subs)
  {
    RunInv(run, actions, n);
    assert TopicFiled(run[n].trie, run[n].subs, t);
  }

  // ----- A session that ends too early -----

  /** The status reads Connected without a session exactly when a session task ended before
      `connect` had set the status, and that `connect` has returned. */
  lemma ConnectedWithoutSessionIff(run: seq<Client>, actions: seq<Action>, n: nat)
    requires IsRun(run, actions) && n < |run|
    ensures run[n].status.Connected? && !run[n].live <==> run[n].raced && !run[n].call.Spawned?
  {
    RunInv(run, actions, n);
  }

  /** The session task ends while `connect` has yet to set the status. */
  predicate EndsEarly(c: Client, a: Action) {
    a == OfSession(SessionEnd) && c.call.Spawned?
  }

  /** What `raced` records: an early session end happened somewhere in the run. */
  lemma {:induction false} RacedIff(run: seq<Client>, actions: seq<Action>, n: nat)
    requires IsRun(run, actions) && n < |run|
    ensures run[n].raced <==> exists k :: 0 <= k < n && EndsEarly(run[k], actions[k])
  {
    if n > 0 {
      RacedIff(run, actions, n - 1);
      RacedStep(run[n - 1], actions[n - 1]);
      assert run[n].raced <==> run[n - 1].raced || EndsEarly(run[n - 1], actions[n - 1]);
    }
  }

  lemma RacedStep(c: Client, a: Action)
    requires Enabled(c, a)
    ensures Next(c, a).raced <==> c.raced || EndsEarly(c, a)
  {
    match a
    case OfCall(s) => CallKeeps(c, s);
    case OfConnect(s) =>
    case OfSession(s) => SessionRaced(c, s);
  }

  lemma SessionRaced(c: Client, a: SessionStep)
    requires SessionEnabled(c, a)
    ensures SessionNext(c, a).raced <==> c.raced || (a.SessionEnd? && c.call.Spawned?)
  {
    match a
    case Suback(id, codes) => if HeldBy(c, id, Subscribe) {} else {}
    case Unsuback(id) => if HeldBy(c, id, Unsubscribe) {} else {}
    case _ =>
  }

  /** Once there, the client never has a session again: `connect` returns at once. */
  lemma ConnectedForever(run: seq<Client>, actions: seq<Action>, m: nat, n: nat)
    requires IsRun(run, actions) && m <= n < |run|
    requires run[m].status.Connected? && !run[m].live
    ensures run[n].status.Connected? && !run[n].live
  {
    RunInv(run, actions, m);
    var later, steps := run[m..], actions[m..];
    forall i | 0 <= i < |steps| ensures Enabled(later[i], steps[i]) && later[i + 1] == Next(later[i], steps[i]) {
      assert later[i] == run[m + i] && steps[i] == actions[m + i] && later[i + 1] == run[m + i + 1];
    }
    FollowsInv(later, steps, n - m);
    assert later[n - m] == run[n];
  }

  const EARLY_END: seq<Action> := [
    OfConnect(ConnectBegin), OfConnect(ConnectAccept), OfSession(ReaderStop), OfSession(WriterStop),
    OfSession(SessionEnd), OfConnect(ConnectDone)]

  /** The early end can happen: the connection drops right after the CONNACK. */
  lemma EarlyEndHappens() returns (run: seq<Client>)
    ensures IsRun(run, EARLY_END) && run[6].status.Connected? && !run[6].live
  {
    var c1 := ConnectNext(INITIAL, ConnectBegin);
    var c2 := ConnectNext(c1, ConnectAccept);
    var c3 := SessionNext(c2, ReaderStop);
    var c4 := SessionNext(c3, WriterStop);
    var c5 := SessionNext(c4, SessionEnd);
    run := [INITIAL, c1, c2, c3, c4, c5, ConnectNext(c5, ConnectDone)];
  }

  // ----- SUBACK and UNSUBACK against the call in progress -----

  /** The call in progress has yet to add the subscriptions of the token. */
  predicate InCall(c: Client, r: Ref) {
    (c.call.Checked? || c.call.HasId? || c.call.Queued?) && c.call.token == r
  }

  predicate Failed(t: TokenState) {
    t.record.complete && t.record.error.Some?
  }

  /** What a subscribe token holds: nothing while its call is in progress; afterwards, unless
      the token failed, the subscriptions of its request. */
  ghost predicate SubsMatch(c: Client, r: Ref)
    requires r < |c.tokens|
  {
    var t := c.tokens[r];
    && t.kind == KindOf(t.req)
    && (t.req.SubscribeTo? ==>
          if InCall(c, r) then t.subs == []
          else Failed(t) || t.subs == t.req.subs)
  }

  /** The call in progress works on a token made for its own request. */
  ghost predicate CallMatches(c: Client) {
    match c.call
    case Checked(req, r) => r < |c.tokens| && c.tokens[r].req == req
    case HasId(req, r, _) => r < |c.tokens| && c.tokens[r].req == req
    case Queued(subs, r) => r < |c.tokens| && c.tokens[r].req == SubscribeTo(subs)
    case _ => true
  }

  ghost predicate SubsInv(c: Client) {
    CallMatches(c) && forall r :: 0 <= r < |c.tokens| ==> SubsMatch(c, r)
  }

  lemma CallSubs(c: Client, a: CallStep)
    requires SubsInv(c) && CallEnabled(c, a)
    ensures SubsInv(CallNext(c, a))
  {
    var d := CallNext(c, a);
    forall r | 0 <= r < |d.tokens| ensures SubsMatch(d, r) {
      CallSubsAt(c, a, r);
    }
    CallStaysMatched(c, a);
  }

  lemma CallStaysMatched(c: Client, a: CallStep)
    requires CallMatches(c) && CallEnabled(c, a)
    ensures CallMatches(CallNext(c, a))
  {
    match a
    case TakeId => if !TakesId(c.call.req) {} else if NextId(c.ids) == 0 {} else {}
    case Begin(_) => if c.status.Connected? {} else {}
    case Send => if c.writer {} else {}
    case _ =>
  }

  /** Only a new request makes a token. */
  lemma CallTokenCount(c: Client, a: CallStep)
    requires CallEnabled(c, a)
    ensures |CallNext(c, a).tokens| == |c.tokens| + if a.Begin? then 1 else 0
  {
    match a
    case TakeId => if !TakesId(c.call.req) {} else if NextId(c.ids) == 0 {} else {}
    case Begin(_) => if c.status.Connected? {} else {}
    case Send => if c.writer {} else {}
    case _ =>
  }

  lemma CallSubsAt(c: Client, a: CallStep, r: Ref)
    requires SubsInv(c) && CallEnabled(c, a) && r < |CallNext(c, a).tokens|
    ensures SubsMatch(CallNext(c, a), r)
  {
    CallTokenCount(c, a);
    if r < |c.tokens| {
      assert SubsMatch(c, r);
    }
    match a
    case Begin(req) => BeginSubsAt(c, req, r);
    case TakeId => TakeIdSubsAt(c, r);
    case Send => SendSubsAt(c, r);
    case _ => OtherSubsAt(c, a, r);
  }

  lemma BeginSubsAt(c: Client, req: Request, r: Ref)
    requires c.call.Idle? && r <= |c.tokens| && (r < |c.tokens| ==> SubsMatch(c, r))
    ensures r < |CallNext(c, Begin(req)).tokens| && SubsMatch(CallNext(c, Begin(req)), r)
  {
    if c.status.Connected? {} else {}
  }

  lemma TakeIdSubsAt(c: Client, r: Ref)
    requires c.call.Checked? && r < |c.tokens| && SubsMatch(c, r) && CallMatches(c)
    ensures r < |CallNext(c, TakeId).tokens| && SubsMatch(CallNext(c, TakeId), r)
  {
    var d := CallNext(c, TakeId);
    if TakesId(c.call.req) && NextId(c.ids) == 0 {
      TakeIdFailsAt(c, r);
    } else {
      assert d.tokens == c.tokens && InCall(d, r) == InCall(c, r);
    }
  }

  lemma TakeIdFailsAt(c: Client, r: Ref)
    requires c.call.Checked? && r < |c.tokens| && SubsMatch(c, r) && CallMatches(c)
    requires TakesId(c.call.req) && NextId(c.ids) == 0
    ensures r < |CallNext(c, TakeId).tokens| && SubsMatch(CallNext(c, TakeId), r)
  {
    var t, u := c.tokens[r], CallNext(c, TakeId).tokens[r];
    assert u.req == t.req && u.kind == t.kind && u.subs == t.subs;
  }

  lemma SendSubsAt(c: Client, r: Ref)
    requires CallEnabled(c, Send) && r < |c.tokens| && SubsMatch(c, r) && CallMatches(c)
    ensures r < |CallNext(c, Send).tokens| && SubsMatch(CallNext(c, Send), r)
  {
    if c.writer {} else {}
  }

  lemma OtherSubsAt(c: Client, a: CallStep, r: Ref)
    requires CallEnabled(c, a) && (a.AddTopic? || a.RejectTopic? || a.AddSubs?)
    requires r < |c.tokens| && SubsMatch(c, r) && CallMatches(c)
    ensures r < |CallNext(c, a).tokens| && SubsMatch(CallNext(c, a), r)
  {
    assert a.AddSubs? ==> [] + c.call.subs == c.call.subs;
  }

  /** What a step of the session leaves of a token. */
  predicate KeepsToken(t: TokenState, u: TokenState) {
    u.req == t.req && u.kind == t.kind && u.subs == t.subs && (Failed(t) ==> Failed(u))
  }

  lemma SessionKeeps(c: Client, s: SessionStep, r: Ref)
    requires SessionEnabled(c, s)
    ensures |SessionNext(c, s).tokens| == |c.tokens| && SessionNext(c, s).call == c.call
    ensures r < |c.tokens| ==> KeepsToken(c.tokens[r], SessionNext(c, s).tokens[r])
  {
    match s
    case Ack(id) => if id in c.ids.index {} else {}
    case Suback(id, codes) => SubackKeeps(c, id, codes, r);
    case Unsuback(id) => UnsubackKeeps(c, id, r);
    case _ =>
  }

  lemma SubackKeeps(c: Client, id: U16, codes: seq<SubAck>, r: Ref)
    requires SessionEnabled(c, Suback(id, codes))
    ensures var d := SessionNext(c, Suback(id, codes));
            && |d.tokens| == |c.tokens| && d.call == c.call
            && (r < |c.tokens| ==> KeepsToken(c.tokens[r], d.tokens[r]))
  {
    if HeldBy(c, id, Subscribe) {} else {}
  }

  lemma UnsubackKeeps(c: Client, id: U16, r: Ref)
    requires SessionEnabled(c, Unsuback(id))
    ensures var d := SessionNext(c, Unsuback(id));
            && |d.tokens| == |c.tokens| && d.call == c.call
            && (r < |c.tokens| ==> KeepsToken(c.tokens[r], d.tokens[r]))
  {
    if HeldBy(c, id, Unsubscribe) {} else {}
  }

  lemma ConnectKeeps(c: Client, s: ConnectStep, r: Ref)
    requires ConnectEnabled(c, s)
    ensures |ConnectNext(c, s).tokens| == |c.tokens| && InCall(ConnectNext(c, s), r) == InCall(c, r) == false
    ensures r < |c.tokens| ==> KeepsToken(c.tokens[r], ConnectNext(c, s).tokens[r])
  {
    match s
    case BlockCleanUp =>
    case _ => assert ConnectNext(c, s).tokens == c.tokens;
  }

  lemma ConnectSubs(c: Client, a: ConnectStep)
    requires SubsInv(c) && ConnectEnabled(c, a)
    ensures SubsInv(ConnectNext(c, a))
  {
    var d := ConnectNext(c, a);
    forall r | 0 <= r < |d.tokens| ensures SubsMatch(d, r) {
      ConnectKeeps(c, a, r);
      assert SubsMatch(c, r);
    }
  }

  lemma SessionSubs(c: Client, a: SessionStep)
    requires SubsInv(c) && SessionEnabled(c, a)
    ensures SubsInv(SessionNext(c, a))
  {
    var d := SessionNext(c, a);
    SessionKeeps(c, a, |c.tokens|);
    forall r | 0 <= r < |c.tokens| ensures SubsMatch(d, r) && KeepsToken(c.tokens[r], d.tokens[r]) {
      SessionKeeps(c, a, r);
      assert SubsMatch(c, r);
    }
  }

  lemma {:induction false} RunSubs(run: seq<Client>, actions: seq<Action>, n: nat)
    requires IsRun(run, actions) && n < |run|
    ensures SubsInv(run[n])
  {
    if n > 0 {
      RunSubs(run, actions, n - 1);
      match actions[n - 1]
      case OfCall(a) => CallSubs(run[n - 1], a);
      case OfConnect(a) => ConnectSubs(run[n - 1], a);
      case OfSession(a) => SessionSubs(run[n - 1], a);
    }
  }

  /** In every reachable state, a SUBACK for a token without error finds the subscriptions of
      its request, unless the subscribe call is still in progress; then it finds none. */
  lemma SubackFinds(run: seq<Client>, actions: seq<Action>, n: nat, id: U16)
    requires IsRun(run, actions) && n < |run| && HeldBy(run[n], id, Subscribe)
    requires run[n].tokens[run[n].ids.index[id]].record.error == None
    ensures var r := run[n].ids.index[id];
            var t := run[n].tokens[r];
            t.req.SubscribeTo? && t.subs == if InCall(run[n], r) then [] else t.req.subs
  {
    RunSubs(run, actions, n);
    assert SubsMatch(run[n], run[n].ids.index[id]);
  }

  /** A SUBACK that grants something subscribes nothing, and still reports success, exactly
      when it is handled while the subscribe call is in progress. */
  lemma SubackTooEarlyIff(run: seq<Client>, actions: seq<Action>, n: nat, id: U16, codes: seq<SubAck>)
    requires IsRun(run, actions) && n < |run| && HeldBy(run[n], id, Subscribe)
    requires var t := run[n].tokens[run[n].ids.index[id]];
             t.record.error == None && (t.req.SubscribeTo? ==> Granted(t.req.subs, codes) != [])
    ensures var c, d, r := run[n], SubAcked(run[n], id, codes), run[n].ids.index[id];
            && Complete(d, r) && d.tokens[r].record.error == None
            && (d.trie == c.trie <==> InCall(c, r))
            && (InCall(c, r) ==> d.subs == c.subs)
  {
    var c, r := run[n], run[n].ids.index[id];
    var t := c.tokens[r];
    var g := Grants(c.trie, c.subs, t.results);
    SubackFinds(run, actions, n, id);
    if InCall(c, r) {
      NothingRequested(g, codes);
    } else {
      var granted := Granted(t.subs, codes);
      var topic := granted[0].topic;
      SubackTrie(g, t.subs, codes, topic);
      assert OnTopic(granted, topic) != [];
      assert |Held(GrantAll(g, t.subs, codes).trie, Tokenize(topic))| > |Held(c.trie, Tokenize(topic))|;
    }
  }

  /** The same by the history of the run: the token holds nothing as long as no
      `add_subscriptions` with something to add was made for it. */
  ghost predicate AddsFor(c: Client, a: Action, r: Ref) {
    a == OfCall(AddSubs) && c.call.Queued? && c.call.token == r && c.call.subs != []
  }

  ghost predicate NeverAdded(run: seq<Client>, actions: seq<Action>, n: nat, r: Ref)
    requires n <= |run| && n <= |actions|
  {
    forall k :: 0 <= k < n ==> !AddsFor(run[k], actions[k], r)
  }

  lemma {:induction false} HoldsNothingIff(run: seq<Client>, actions: seq<Action>, n: nat, r: Ref)
    requires IsRun(run, actions) && n < |run| && r < |run[n].tokens|
    ensures run[n].tokens[r].subs == [] <==> NeverAdded(run, actions, n, r)
  {
    if n > 0 {
      var c, a := run[n - 1], actions[n - 1];
      assert Enabled(c, a) && run[n] == Next(c, a);
      StepHolds(c, a, r);
      assert NeverAdded(run, actions, n, r) <==> NeverAdded(run, actions, n - 1, r) && !AddsFor(c, a, r);
      if r < |c.tokens| {
        HoldsNothingIff(run, actions, n - 1, r);
      } else {
        NoneBefore(run, actions, n - 1, r);
      }
    }
  }

  lemma StepHolds(c: Client, a: Action, r: Ref)
    requires Enabled(c, a) && r < |Next(c, a).tokens|
    ensures r >= |c.tokens| ==> Next(c, a).tokens[r].subs == [] && !AddsFor(c, a, r)
    ensures r < |c.tokens| ==>
              (Next(c, a).tokens[r].subs == [] <==> c.tokens[r].subs == [] && !AddsFor(c, a, r))
  {
    StepSubs(c, a, r);
  }

  /** A step changes what a token holds exactly by adding to it; a new token holds nothing. */
  lemma StepSubs(c: Client, a: Action, r: Ref)
    requires Enabled(c, a) && r < |Next(c, a).tokens|
    ensures r >= |c.tokens| ==> Next(c, a).tokens[r].subs == [] && !a.OfSession? && a != OfCall(AddSubs)
    ensures r < |c.tokens| ==>
              Next(c, a).tokens[r].subs == if AddsFor(c, a, r) then c.tokens[r].subs + c.call.subs else c.tokens[r].subs
  {
    match a
    case OfCall(s) => CallStepSubs(c, s, r);
    case OfConnect(s) => ConnectKeeps(c, s, r);
    case OfSession(s) => SessionKeeps(c, s, r);
  }

  lemma CallStepSubs(c: Client, s: CallStep, r: Ref)
    requires CallEnabled(c, s) && r < |CallNext(c, s).tokens|
    ensures r >= |c.tokens| ==> CallNext(c, s).tokens[r].subs == [] && !s.AddSubs?
    ensures r < |c.tokens| ==>
              CallNext(c, s).tokens[r].subs
              == if AddsFor(c, OfCall(s), r) then c.tokens[r].subs + c.call.subs else c.tokens[r].subs
  {
    if s.AddSubs? {
      assert c.call.subs == [] && r < |c.tokens| ==> c.tokens[r].subs + c.call.subs == c.tokens[r].subs;
    } else {
      CallKeepsSubs(c, s, r);
    }
  }

  lemma CallKeepsSubs(c: Client, s: CallStep, r: Ref)
    requires CallEnabled(c, s) && r < |CallNext(c, s).tokens| && !s.AddSubs?
    ensures CallNext(c, s).tokens[r].subs == if r < |c.tokens| then c.tokens[r].subs else []
  {
    CallTokenCount(c, s);
    match s
    case Begin(req) => BeginKeepsSubs(c, req, r);
    case TakeId => TakeIdKeepsSubs(c, r);
    case Send => SendKeepsSubs(c, r);
    case _ =>
  }

  lemma BeginKeepsSubs(c: Client, req: Request, r: Ref)
    requires c.call.Idle? && r <= |c.tokens| < |CallNext(c, Begin(req)).tokens|
    ensures CallNext(c, Begin(req)).tokens[r].subs == if r < |c.tokens| then c.tokens[r].subs else []
  {
    if c.status.Connected? {} else {}
  }

  lemma TakeIdKeepsSubs(c: Client, r: Ref)
    requires c.call.Checked? && r < |c.tokens| == |CallNext(c, TakeId).tokens|
    ensures CallNext(c, TakeId).tokens[r].subs == c.tokens[r].subs
  {
    if !TakesId(c.call.req) {} else if NextId(c.ids) == 0 {} else {}
  }

  lemma SendKeepsSubs(c: Client, r: Ref)
    requires CallEnabled(c, Send) && r < |c.tokens| == |CallNext(c, Send).tokens|
    ensures CallNext(c, Send).tokens[r].subs == c.tokens[r].subs
  {
    if c.writer {} else {}
  }

  /** Nothing is added for a token that does not exist yet. */
  lemma {:induction false} NoneBefore(run: seq<Client>, actions: seq<Action>, n: nat, r: Ref)
    requires IsRun(run, actions) && n < |run| && r >= |run[n].tokens|
    ensures NeverAdded(run, actions, n, r)
  {
    if n > 0 {
      RunInv(run, actions, n - 1);
      TokensGrow(run[n - 1], actions[n - 1]);
      NoneBefore(run, actions, n - 1, r);
    }
  }

  lemma TokensGrow(c: Client, a: Action)
    requires Enabled(c, a)
    ensures |c.tokens| <= |Next(c, a).tokens|
  {
    match a
    case OfCall(s) => CallTokenCount(c, s);
    case OfConnect(s) => ConnectKeeps(c, s, 0);
    case OfSession(s) => SessionKeeps(c, s, 0);
  }

  lemma {:induction false} NothingRequested(g: Grants, codes: seq<SubAck>)
    ensures GrantAll(g, [], codes) == g
  {
    if codes != [] {
      NothingRequested(g, codes[..|codes| - 1]);
    }
  }

  /** An UNSUBACK empties the trie lists of the named topics but leaves the map as it was. */
  lemma UnsubscribedStaysInMap(c: Client, id: U16, t: string)
    requires c.reader && HeldBy(c, id, Unsubscribe)
    ensures var d := SessionNext(c, Unsuback(id));
            d.subs == c.subs
            && Held(d.trie, Tokenize(t)) == if t in c.tokens[c.ids.index[id]].topics then []
                                            else Held(c.trie, Tokenize(t))
  {
    RemoveTopicsHeld(c.trie, c.tokens[c.ids.index[id]].topics, t);
  }
}
