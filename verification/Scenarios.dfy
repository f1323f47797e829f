/** Runs of `Session` in which the client does what a reader might not expect, put together
    from connecting, subscribing, unsubscribing and losing the connection. */
module Scenarios {
  import opened Topics
  import opened TrieSpec
  import opened Tokens
  import opened PacketIds
  import opened Handlers
  import opened Session
  import opened Outcomes

  function Last<T>(s: seq<T>): T
    requires s != []
  {
    s[|s| - 1]
  }

  /** Connected, with no call in progress and no identifier taken. */
  ghost predicate Ready(c: Client) {
    c.status.Connected? && c.call.Idle? && c.live && c.reader && c.writer && c.ids.index == map[]
  }

  /** Disconnected, with no call in progress and no identifier taken. */
  ghost predicate Down(c: Client) {
    c.status.Disconnected? && c.call.Idle? && !c.live && c.ids.index == map[]
  }

  ghost predicate SameSubscriptions(c: Client, d: Client) {
    d.trie == c.trie && d.subs == c.subs
  }

  const CONNECT: seq<Action> := [OfConnect(ConnectBegin), OfConnect(ConnectAccept), OfConnect(ConnectDone)]
  const LOSE: seq<Action> := [OfSession(ReaderStop), OfSession(WriterStop), OfSession(SessionEnd)]
  const CLEAR: seq<Action> := [OfConnect(BlockCleanUp), OfConnect(BlockClear)]

  lemma Connects(c: Client) returns (run: seq<Client>)
    requires Down(c)
    ensures Follows(run, CONNECT) && run[0] == c && Ready(run[3]) && SameSubscriptions(c, run[3])
    ensures run[3].tokens == c.tokens && run[3].ids == c.ids && run[3].outgoing == []
  {
    var c1 := ConnectNext(c, ConnectBegin);
    var c2 := ConnectNext(c1, ConnectAccept);
    run := [c, c1, c2, ConnectNext(c2, ConnectDone)];
  }

  lemma Loses(c: Client) returns (run: seq<Client>)
    requires c.call.Idle? && c.live && c.reader && c.writer
    ensures Follows(run, LOSE) && run[0] == c && Down(run[3]) && SameSubscriptions(c, run[3])
    ensures run[3].tokens == FailAll(c.tokens, c.ids.index) && run[3].outgoing == []
  {
    var c1 := SessionNext(c, ReaderStop);
    var c2 := SessionNext(c1, WriterStop);
    run := [c, c1, c2, SessionNext(c2, SessionEnd)];
  }

  /** `block` after a reconnect without session, up to its loop. */
  lemma Clears(c: Client) returns (run: seq<Client>)
    requires Ready(c)
    ensures Follows(run, CLEAR) && run[0] == c && Ready(run[2])
    ensures run[2].trie == Cleared(c.trie) && run[2].subs == c.subs
  {
    var c1 := ConnectNext(c, BlockCleanUp);
    run := [c, c1, ConnectNext(c1, BlockClear)];
  }

  // ----- Subscribing and unsubscribing -----

  function SubscribeSteps(s: Subscription, id: U16): seq<Action> {
    [OfCall(Begin(SubscribeTo([s]))), OfCall(TakeId), OfCall(Send), OfCall(AddSubs),
     OfSession(Suback(id, [SubAck(s.qos)]))]
  }

  function UnsubscribeSteps(t: string, id: U16): seq<Action> {
    [OfCall(Begin(UnsubscribeFrom([t]))), OfCall(TakeId), OfCall(AddTopic), OfCall(Send), OfSession(Unsuback(id))]
  }

  /** A request up to its identifier. */
  lemma Takes(c: Client, req: Request) returns (run: seq<Client>, id: U16)
    requires Ready(c) && TakesId(req)
    ensures Follows(run, [OfCall(Begin(req)), OfCall(TakeId)]) && run[0] == c
    ensures var r := |c.tokens|;
            run[2] == c.(tokens := c.tokens + [NewToken(req)], ids := Ids(map[id := r], id),
                         issued := c.issued + {r}, call := HasId(req, r, 0))
  {
    NextIdIsFirstVacant(c.ids, 0);
    id := NextId(c.ids);
    var c1 := CallNext(c, Begin(req));
    run := [c, c1, CallNext(c1, TakeId)];
  }

  lemma Joined(a: seq<Client>, p: seq<Action>, b: seq<Client>, q: seq<Action>) returns (run: seq<Client>)
    requires Follows(a, p) && Follows(b, q) && Last(a) == b[0]
    ensures Follows(run, p + q) && run[0] == a[0] && Last(run) == Last(b)
    ensures |p| < |run| && run[|p|] == b[0]
  {
    run := a + b[1..];
    forall i | 0 <= i < |p + q| ensures Enabled(run[i], (p + q)[i]) && run[i + 1] == Next(run[i], (p + q)[i]) {
      if i >= |p| {
        assert run[i] == b[i - |p|] && run[i + 1] == b[i - |p| + 1] && (p + q)[i] == q[i - |p|];
      }
    }
  }

  /** A SUBACK that grants the one subscription of its token. */
  lemma Grants1(c: Client, id: U16, r: Ref, s: Subscription)
    requires c.reader && c.ids.index == map[id := r] && r < |c.tokens|
    requires c.tokens[r].kind == Subscribe && c.tokens[r].subs == [s]
    ensures var d := SessionNext(c, Suback(id, [SubAck(s.qos)]));
            && d.trie == Insert(c.trie, Tokenize(s.topic), s) && d.subs == c.subs[s.topic := s]
            && d.ids.index == map[] && d.status == c.status && d.call == c.call
            && d.live == c.live && d.reader && d.writer == c.writer
  {
    OneCode(Grants(c.trie, c.subs, c.tokens[r].results), [s], SubAck(s.qos));
    assert map[id := r] - {id} == map[];
  }

  lemma Subscribes(c: Client, s: Subscription) returns (run: seq<Client>, id: U16)
    requires Ready(c)
    ensures Follows(run, SubscribeSteps(s, id)) && run[0] == c && Ready(run[5])
    ensures run[5].trie == Insert(c.trie, Tokenize(s.topic), s) && run[5].subs == c.subs[s.topic := s]
  {
    var req, r := SubscribeTo([s]), |c.tokens|;
    var start;
    start, id := Takes(c, req);
    var c2 := start[2];
    var c3 := CallNext(c2, Send);
    var c4 := CallNext(c3, AddSubs);
    assert c4.tokens[r].subs == [] + [s] == [s];
    assert c4.trie == c.trie && c4.subs == c.subs;
    Grants1(c4, id, r, s);
    var rest := [OfCall(Send), OfCall(AddSubs), OfSession(Suback(id, [SubAck(s.qos)]))];
    run := Joined(start, [OfCall(Begin(req)), OfCall(TakeId)], [c2, c3, c4, SessionNext(c4, rest[2].session)], rest);
    assert SubscribeSteps(s, id) == [OfCall(Begin(req)), OfCall(TakeId)] + rest;
  }

  lemma Unsubscribes(c: Client, t: string) returns (run: seq<Client>, id: U16)
    requires Ready(c)
    ensures Follows(run, UnsubscribeSteps(t, id)) && run[0] == c && Ready(run[5])
    ensures run[5].trie == RemoveTopics(c.trie, [t]) && run[5].subs == c.subs
  {
    var req, r := UnsubscribeFrom([t]), |c.tokens|;
    var start;
    start, id := Takes(c, req);
    var c2 := start[2];
    var c3 := CallNext(c2, AddTopic);
    assert c3.tokens[r].topics == [] + [t] && c3.tokens[r].kind == Unsubscribe;
    var c4 := CallNext(c3, Send);
    var c5 := SessionNext(c4, Unsuback(id));
    assert c5.ids.index == map[];
    run := Joined(start, [OfCall(Begin(req)), OfCall(TakeId)], [c2, c3, c4, c5],
                  [OfCall(AddTopic), OfCall(Send), OfSession(Unsuback(id))]);
    assert UnsubscribeSteps(t, id) == [OfCall(Begin(req)), OfCall(TakeId)]
                                      + [OfCall(AddTopic), OfCall(Send), OfSession(Unsuback(id))];
  }

  // ----- A SUBACK that comes too early -----

  function EarlySubackSteps(s: Subscription, id: U16): seq<Action> {
    CONNECT + [OfCall(Begin(SubscribeTo([s]))), OfCall(TakeId)]
    + [OfCall(Send), OfSession(Suback(id, [SubAck(s.qos)]))]
  }

  /** The SUBACK overtakes `add_subscriptions`: success, and nothing is subscribed. */
  lemma EarlySubackHappens(s: Subscription) returns (run: seq<Client>, id: U16)
    ensures IsRun(run, EarlySubackSteps(s, id))
    ensures var c := Last(run);
            && c.call.Queued? && Complete(c, 0) && c.tokens[0].record.error == None
            && c.trie == EMPTY && c.subs == map[]
  {
    var up := Connects(INITIAL);
    var start;
    start, id := Takes(Last(up), SubscribeTo([s]));
    var c := CallNext(start[2], Send);
    var codes := [SubAck(s.qos)];
    NothingRequested(Grants(c.trie, c.subs, map[]), codes);
    run := Joined(up, CONNECT, start, [OfCall(Begin(SubscribeTo([s]))), OfCall(TakeId)]);
    run := Joined(run, CONNECT + [OfCall(Begin(SubscribeTo([s]))), OfCall(TakeId)],
                  [start[2], c, SessionNext(c, Suback(id, codes))], [OfCall(Send), OfSession(Suback(id, codes))]);
  }

  // ----- An unsubscribed topic comes back -----

  /** After subscribing and unsubscribing the trie has nothing on the topic, but the map has
      the subscription. */
  lemma StaysInMap(s: Subscription) returns (run: seq<Client>, actions: seq<Action>)
    ensures IsRun(run, actions) && Ready(Last(run))
    ensures Held(Last(run).trie, Tokenize(s.topic)) == [] && Last(run).subs == map[s.topic := s]
  {
    var a := Connects(INITIAL);
    var b, id := Subscribes(Last(a), s);
    var c, id' := Unsubscribes(Last(b), s.topic);
    run := Joined(a, CONNECT, b, SubscribeSteps(s, id));
    run := Joined(run, CONNECT + SubscribeSteps(s, id), c, UnsubscribeSteps(s.topic, id'));
    actions := CONNECT + SubscribeSteps(s, id) + UnsubscribeSteps(s.topic, id');
    RemoveTopicsHeld(Last(b).trie, [s.topic], s.topic);
  }

  /** The connection is lost, the next one has no session, and `block` subscribes `s`. */
  lemma SubscribedAgain(c: Client, s: Subscription) returns (run: seq<Client>, actions: seq<Action>)
    requires Ready(c)
    ensures Follows(run, actions) && run[0] == c
    ensures Last(run).trie == Insert(Cleared(c.trie), Tokenize(s.topic), s)
  {
    var lost := Loses(c);
    var up := Connects(Last(lost));
    var cleared := Clears(Last(up));
    var again, id := Subscribes(Last(cleared), s);
    run := Joined(lost, LOSE, up, CONNECT);
    run := Joined(run, LOSE + CONNECT, cleared, CLEAR);
    run := Joined(run, LOSE + CONNECT + CLEAR, again, SubscribeSteps(s, id));
    actions := LOSE + CONNECT + CLEAR + SubscribeSteps(s, id);
  }

  /** The unsubscribed topic is delivered to its handler again: `block` subscribes what the
      map holds. `n` is the state after unsubscribing. */
  lemma ComesBack(s: Subscription) returns (run: seq<Client>, actions: seq<Action>, n: nat)
    ensures IsRun(run, actions) && n < |run|
    ensures Held(run[n].trie, Tokenize(s.topic)) == [] && run[n].subs == map[s.topic := s]
    ensures Held(Last(run).trie, Tokenize(s.topic)) == [s]
  {
    var first, steps := StaysInMap(s);
    n := |steps|;
    var again, more := SubscribedAgain(Last(first), s);
    run := Joined(first, steps, again, more);
    actions := steps + more;
    InsertHeld(Cleared(Last(first).trie), Tokenize(s.topic), s, Tokenize(s.topic));
  }

  // ----- Which topics the map holds -----

  /** A SUBACK handled by this step grants `t`. */
  ghost predicate GrantsTopic(c: Client, a: Action, t: string) {
    && a.OfSession? && a.session.Suback? && HeldBy(c, a.session.id, Subscribe)
    && LastOn(Granted(c.tokens[c.ids.index[a.session.id]].subs, a.session.codes), t).Some?
  }

  lemma StepMapHolds(c: Client, a: Action, t: string)
    requires Enabled(c, a)
    ensures t in Next(c, a).subs <==> t in c.subs || GrantsTopic(c, a, t)
  {
    match a
    case OfCall(s) => CallKeeps(c, s);
    case OfConnect(s) => if !s.BlockCleanUp? { ConnectFrame(c, s); }
    case OfSession(s) => SessionMapHolds(c, s, t);
  }

  lemma SessionMapHolds(c: Client, s: SessionStep, t: string)
    requires SessionEnabled(c, s)
    ensures t in SessionNext(c, s).subs <==> t in c.subs || GrantsTopic(c, OfSession(s), t)
  {
    match s
    case Suback(id, codes) =>
      if HeldBy(c, id, Subscribe) {
        var u := c.tokens[c.ids.index[id]];
        SubackMap(Grants(c.trie, c.subs, u.results), u.subs, codes, t);
      }
    case _ => assert SessionNext(c, s).subs == c.subs;
  }

  /** In every run the map holds exactly the topics that some SUBACK granted: no unsubscribing
      takes any out. */
  lemma {:induction false} InMapIff(run: seq<Client>, actions: seq<Action>, n: nat, t: string)
    requires IsRun(run, actions) && n < |run|
    ensures t in run[n].subs <==> exists k :: 0 <= k < n && GrantsTopic(run[k], actions[k], t)
  {
    if n > 0 {
      InMapIff(run, actions, n - 1, t);
      StepMapHolds(run[n - 1], actions[n - 1], t);
      assert t in run[n].subs <==> t in run[n - 1].subs || GrantsTopic(run[n - 1], actions[n - 1], t);
    }
  }

  // ----- An outcome that is replaced -----

  /** A publish with an invalid topic first reports that, and after the session has ended that
      the connection was lost: its identifier stayed in the index. */
  lemma InvalidTopicReplaced() returns (run: seq<Client>, actions: seq<Action>, n: nat)
    ensures IsRun(run, actions) && n < |run|
    ensures Complete(run[n], 0) && run[n].tokens[0].record.error == Some(InvalidTopic)
    ensures Complete(Last(run), 0) && Last(run).tokens[0].record.error == Some(ConnectionLost)
  {
    var up := Connects(INITIAL);
    var start, id := Takes(Last(up), PublishAcked);
    var c := CallNext(start[2], RejectTopic);
    assert c.ids.index[id] == 0 && 0 in c.ids.index.Values;
    var lost := Loses(c);
    run := Joined(up, CONNECT, start, [OfCall(Begin(PublishAcked)), OfCall(TakeId)]);
    actions := CONNECT + [OfCall(Begin(PublishAcked)), OfCall(TakeId)];
    n := |actions| + 1;
    run := Joined(run, actions, [start[2], c], [OfCall(RejectTopic)]);
    run := Joined(run, actions + [OfCall(RejectTopic)], lost, LOSE);
    actions := actions + [OfCall(RejectTopic)] + LOSE;
  }

  // ----- A token that never completes -----

  /** A QoS 0 publish whose packet is in the channel when the connection drops. */
  lemma OnceLost() returns (run: seq<Client>, actions: seq<Action>)
    ensures IsRun(run, actions) && Lost(Last(run), 0) && Down(Last(run))
  {
    var up := Connects(INITIAL);
    var c := Last(up);
    var c1 := CallNext(c, Begin(PublishOnce));
    var c2 := CallNext(c1, TakeId);
    var c3 := CallNext(c2, Send);
    var steps := [OfCall(Begin(PublishOnce)), OfCall(TakeId), OfCall(Send)];
    var lost := Loses(c3);
    run := Joined(up, CONNECT, [c, c1, c2, c3], steps);
    run := Joined(run, CONNECT + steps, lost, LOSE);
    actions := CONNECT + steps + LOSE;
  }
}
