/** The packet handlers of `src/net.rs` over the client state of `src/state.rs`. */
module Handlers {
  import opened Topics
  import opened TrieSpec
  import opened TopicTrie
  import opened Tokens
  import opened PacketIds

  type Payload = seq<bv8>

  datatype QosWithId = Qos0 | Qos1(id: U16) | Qos2(id: U16)

  datatype PublishPacket = PublishPacket(topicName: string, qos: QosWithId, payload: Payload)

  datatype Response = Puback(id: U16) | Pubrec(id: U16) | Pubrel(id: U16) | Pubcomp(id: U16)

  /** One invocation of a subscription's handler. */
  datatype Dispatch = Dispatch(handler: nat, message: PublishPacket)

  // ----- The pending table of the receiver -----

  /** A PUBLISH with QoS 2 is stored, replacing whatever was stored under its identifier. */
  function Stored<P>(pending: map<U16, P>, id: U16, packet: P): map<U16, P> {
    pending[id := packet]
  }

  /** A PUBREL takes the stored packet out, if it is still there. */
  function Released<P>(pending: map<U16, P>, id: U16): (map<U16, P>, Option<P>) {
    if id in pending then (pending - {id}, Some(pending[id])) else (pending, None)
  }

  /** Every map entry is filed under its own topic. */
  ghost predicate Keyed(subs: map<string, Subscription>) {
    forall t :: t in subs ==> subs[t].topic == t
  }

  // ----- SUBACK: return codes paired with subscriptions by position -----

  /** What a SUBACK updates: the trie, the subscription map, the token's results. */
  datatype Grants = Grants(trie: Content, subs: map<string, Subscription>, results: map<string, SubAck>)

  function GrantAt(g: Grants, requested: seq<Subscription>, i: nat, code: SubAck): Grants {
    if i >= |requested| then g
    else
      var s := requested[i];
      var marked := g.(results := g.results[s.topic := code]);
      if code.Failure? then marked
      else marked.(trie := Insert(g.trie, Tokenize(s.topic), s), subs := g.subs[s.topic := s])
  }

  function GrantAll(g: Grants, requested: seq<Subscription>, codes: seq<SubAck>): Grants {
    if codes == [] then g
    else
      var n := |codes| - 1;
      GrantAt(GrantAll(g, requested, codes[..n]), requested, n, codes[n])
  }

  lemma OneCode(g: Grants, requested: seq<Subscription>, code: SubAck)
    ensures GrantAll(g, requested, [code]) == GrantAt(g, requested, 0, code)
  {
    assert [code][..0] == [];
  }

  /** The subscriptions at the granted positions, in order. */
  function Granted(requested: seq<Subscription>, codes: seq<SubAck>): seq<Subscription> {
    if codes == [] then []
    else
      var n := |codes| - 1;
      Granted(requested, codes[..n])
      + if n < |requested| && !codes[n].Failure? then [requested[n]] else []
  }

  /** The position of the last return code for a topic, if it has one. */
  function LastCode(requested: seq<Subscription>, codes: seq<SubAck>, topic: string): Option<nat> {
    if codes == [] then None
    else
      var n := |codes| - 1;
      if n < |requested| && requested[n].topic == topic then Some(n)
      else LastCode(requested, codes[..n], topic)
  }

  lemma {:induction false} LastCodeInRange(requested: seq<Subscription>, codes: seq<SubAck>, topic: string)
    ensures var last := LastCode(requested, codes, topic);
            && (last.Some? ==> last.value < |codes| && last.value < |requested|
                               && requested[last.value].topic == topic)
            && forall i :: 0 <= i < |codes| && i < |requested| && requested[i].topic == topic ==>
                 last.Some? && i <= last.value
  {
    if codes != [] {
      LastCodeInRange(requested, codes[..|codes| - 1], topic);
    }
  }

  /** The list with `s` in `log` on topic `t` that came last. */
  function LastOn(log: seq<Subscription>, t: string): Option<Subscription> {
    var on := OnTopic(log, t);
    if on == [] then None else Some(on[|on| - 1])
  }

  /** For any subscriptions and any return codes, of different lengths too: the trie gains
      exactly the granted subscriptions, in order. */
  lemma {:induction false} SubackTrie(g: Grants, requested: seq<Subscription>, codes: seq<SubAck>, t: string)
    ensures Held(GrantAll(g, requested, codes).trie, Tokenize(t))
         == Held(g.trie, Tokenize(t)) + OnTopic(Granted(requested, codes), t)
  {
    if codes == [] {
      assert Held(g.trie, Tokenize(t)) + [] == Held(g.trie, Tokenize(t));
    } else {
      var n := |codes| - 1;
      var before, granted := GrantAll(g, requested, codes[..n]), Granted(requested, codes[..n]);
      SubackTrie(g, requested, codes[..n], t);
      if n < |requested| && !codes[n].Failure? {
        OneGranted(before.trie, requested[n], granted, Held(g.trie, Tokenize(t)), t);
      } else {
        assert granted + [] == granted;
      }
    }
  }

  lemma OneGranted(trie: Content, s: Subscription, granted: seq<Subscription>, first: seq<Subscription>, t: string)
    requires Held(trie, Tokenize(t)) == first + OnTopic(granted, t)
    ensures Held(Insert(trie, Tokenize(s.topic), s), Tokenize(t)) == first + OnTopic(granted + [s], t)
  {
    InsertHeld(trie, Tokenize(s.topic), s, Tokenize(t));
    OnTopicAppend(granted, s, t);
    TokenizeInjective(s.topic, t);
    var added := if s.topic == t then [s] else [];
    assert first + (OnTopic(granted, t) + added) == first + OnTopic(granted, t) + added;
  }

  lemma LastOnAppend(log: seq<Subscription>, s: Subscription, t: string)
    ensures LastOn(log + [s], t) == if s.topic == t then Some(s) else LastOn(log, t)
  {
    OnTopicAppend(log, s, t);
  }

  /** The map keeps the last subscription granted per topic. */
  lemma {:induction false} SubackMap(g: Grants, requested: seq<Subscription>, codes: seq<SubAck>, t: string)
    ensures var d, last := GrantAll(g, requested, codes).subs, LastOn(Granted(requested, codes), t);
            && (last == None ==> (t in d <==> t in g.subs) && (t in d ==> d[t] == g.subs[t]))
            && (last.Some? ==> t in d && d[t] == last.value)
  {
    if codes != [] {
      var n := |codes| - 1;
      var granted := Granted(requested, codes[..n]);
      SubackMap(g, requested, codes[..n], t);
      if n < |requested| && !codes[n].Failure? {
        LastOnAppend(granted, requested[n], t);
      } else {
        assert granted + [] == granted;
      }
    }
  }

  /** The results keep the last return code per requested topic. */
  lemma {:induction false} SubackResults(g: Grants, requested: seq<Subscription>, codes: seq<SubAck>, t: string)
    ensures var d, last := GrantAll(g, requested, codes).results, LastCode(requested, codes, t);
            && (last == None ==> (t in d <==> t in g.results) && (t in d ==> d[t] == g.results[t]))
            && (last.Some? ==> last.value < |codes| && t in d && d[t] == codes[last.value])
  {
    if codes != [] {
      SubackResults(g, requested, codes[..|codes| - 1], t);
    }
  }

  // ----- UNSUBACK -----

  ghost function RemoveTopics(c: Content, topics: seq<string>): Content {
    if topics == [] then c
    else Removed(RemoveTopics(c, topics[..|topics| - 1]), Tokenize(topics[|topics| - 1]))
  }

  /** The lists of exactly the named topics are emptied. */
  lemma {:induction false} RemoveTopicsHeld(c: Content, topics: seq<string>, t: string)
    ensures Held(RemoveTopics(c, topics), Tokenize(t)) == if t in topics then [] else Held(c, Tokenize(t))
  {
    if topics != [] {
      var n := |topics| - 1;
      RemoveTopicsHeld(c, topics[..n], t);
      RemovedHeld(RemoveTopics(c, topics[..n]), Tokenize(topics[n]), Tokenize(t));
      TokenizeInjective(topics[n], t);
      assert t in topics <==> t in topics[..n] || t == topics[n];
    }
  }

  // ----- The client state -----

  class State {
    const packetIds: PacketIdTable
    const topicManager: TopicManager
    var subscriptions: map<string, Subscription>
    var pendingPackets: map<U16, PublishPacket>
    /** Every handler invocation so far. */
    var dispatched: seq<Dispatch>

    ghost predicate Valid()
      reads this, topicManager, topicManager.store, topicManager.store.nodes.Values
    {
      topicManager.Valid()
    }

    ghost function Trie(): Content
      reads topicManager, topicManager.store, topicManager.store.nodes.Values
    {
      topicManager.Content()
    }

    ghost function Matching(topic: string): seq<Subscription>
      reads topicManager, topicManager.store, topicManager.store.nodes.Values
    {
      MatchFrom(Trie(), [], Tokenize(topic))
    }

    constructor ()
      ensures Valid() && Trie() == EMPTY && fresh(packetIds) && fresh(topicManager.Repr())
      ensures packetIds.View() == Ids(map[], PKID_MIN)
      ensures subscriptions == map[] && pendingPackets == map[] && dispatched == []
    {
      packetIds := new PacketIdTable();
      topicManager := new TopicManager();
      subscriptions, pendingPackets, dispatched := map[], map[], [];
    }

    method DispatchTo(matching: seq<Subscription>, message: PublishPacket)
      modifies this`dispatched
      ensures |dispatched| == |old(dispatched)| + |matching| && old(dispatched) <= dispatched
      ensures forall i :: 0 <= i < |matching| ==>
                dispatched[|old(dispatched)| + i] == Dispatch(matching[i].handler, message)
    {
      for i := 0 to |matching|
        invariant |dispatched| == |old(dispatched)| + i && old(dispatched) <= dispatched
        invariant forall j :: 0 <= j < i ==>
                    dispatched[|old(dispatched)| + j] == Dispatch(matching[j].handler, message)
      {
        dispatched := dispatched + [Dispatch(matching[i].handler, message)];
      }
    }

    /** With QoS 0 and 1 the handler of every matching subscription is invoked with the packet,
        in the order of the lookup; with QoS 2 the packet is stored. */
    method HandlePublish(packet: PublishPacket) returns (response: Option<Response>)
      requires Valid()
      modifies this`dispatched, this`pendingPackets
      ensures Valid() && old(dispatched) <= dispatched
      ensures |dispatched| == |old(dispatched)| + if packet.qos.Qos2? then 0 else |Matching(packet.topicName)|
      ensures !packet.qos.Qos2? ==>
                forall i :: 0 <= i < |Matching(packet.topicName)| ==>
                  dispatched[|old(dispatched)| + i] == Dispatch(Matching(packet.topicName)[i].handler, packet)
      ensures pendingPackets == if packet.qos.Qos2? then old(pendingPackets)[packet.qos.id := packet]
                                else old(pendingPackets)
      ensures response == match packet.qos
                          case Qos0 => None
                          case Qos1(id) => Some(Puback(id))
                          case Qos2(id) => Some(Pubrec(id))
    {
      var matching := topicManager.MatchTopic(packet.topicName);
      match packet.qos
      case Qos0 =>
        DispatchTo(matching, packet);
        response := None;
      case Qos1(id) =>
        DispatchTo(matching, packet);
        response := Some(Puback(id));
      case Qos2(id) =>
        pendingPackets := pendingPackets[id := packet];
        response := Some(Pubrec(id));
    }

    static function HandlePubrec(id: U16): Response {
      Pubrel(id)
    }

    /** The stored packet, if there is one, is taken out and the handler of every matching
        subscription is invoked with it. */
    method HandlePubrel(id: U16) returns (response: Response)
      requires Valid()
      modifies this`dispatched, this`pendingPackets
      ensures Valid() && response == Pubcomp(id) && old(dispatched) <= dispatched
      ensures pendingPackets == old(pendingPackets) - {id}
      ensures id !in old(pendingPackets) ==> dispatched == old(dispatched)
      ensures id in old(pendingPackets) ==>
                var packet := old(pendingPackets)[id];
                && |dispatched| == |old(dispatched)| + |Matching(packet.topicName)|
                && forall i :: 0 <= i < |Matching(packet.topicName)| ==>
                     dispatched[|old(dispatched)| + i] == Dispatch(Matching(packet.topicName)[i].handler, packet)
    {
      if id in pendingPackets {
        var packet := pendingPackets[id];
        pendingPackets := pendingPackets - {id};
        var matching := topicManager.MatchTopic(packet.topicName);
        DispatchTo(matching, packet);
      } else {
        assert pendingPackets - {id} == pendingPackets;
      }
      response := Pubcomp(id);
    }

    /** The token is completed before its identifier is freed. */
    method Complete(token: Token, id: U16)
      modifies packetIds, token`complete, token`waker, token`woken
      ensures old(Valid()) ==> Valid() && Trie() == old(Trie())
      ensures packetIds.View() == WithFreed(old(packetIds.View()), id)
      ensures token.View() == old(token.View()).FlowComplete()
    {
      token.FlowComplete();
      packetIds.FreeId(id);
    }

    /** PUBACK and PUBCOMP: completes whatever token holds the identifier and frees it. */
    method HandleAck(id: U16)
      modifies packetIds
      modifies packetIds.index.Values`complete, packetIds.index.Values`waker, packetIds.index.Values`woken
      ensures packetIds.View() == WithFreed(old(packetIds.View()), id)
      ensures id in old(packetIds.index) ==>
                old(packetIds.index)[id].View() == old(packetIds.index[id].View()).FlowComplete()
      ensures forall t | t in old(packetIds.index.Values) ::
                (id !in old(packetIds.index) || t != old(packetIds.index)[id]) ==> unchanged(t)
    {
      var found := packetIds.GetToken(id);
      if found.Some? {
        Complete(found.value, id);
      } else {
        assert packetIds.index - {id} == packetIds.index;
      }
    }

    /** Whether `id` is held by a token of the given kind. */
    predicate Holds(id: U16, kind: Kind)
      reads packetIds
    {
      id in packetIds.index && packetIds.index[id].kind == kind
    }

    /** A SUBACK for an identifier held by another kind of token, or by none, does nothing. */
    method HandleSuback(id: U16, codes: seq<SubAck>)
      requires Valid()
      modifies this`subscriptions, packetIds, topicManager.Repr(), packetIds.index.Values`results
      modifies packetIds.index.Values`complete, packetIds.index.Values`waker, packetIds.index.Values`woken
      ensures Valid() && fresh(topicManager.Repr() - old(topicManager.Repr()))
      ensures old(Holds(id, Subscribe)) ==>
                var token := old(packetIds.index)[id];
                && GrantsOf(token) == GrantAll(old(GrantsOf(token)), old(token.subscriptions), codes)
                && token.View() == old(token.View()).FlowComplete()
                && forall t :: t in old(packetIds.index.Values) && t != token ==> unchanged(t)
      ensures packetIds.View() == if old(Holds(id, Subscribe)) then WithFreed(old(packetIds.View()), id)
                                  else old(packetIds.View())
      ensures !old(Holds(id, Subscribe)) ==>
                Trie() == old(Trie()) && subscriptions == old(subscriptions) && unchanged(packetIds.index.Values)
    {
      if Holds(id, Subscribe) {
        var token := packetIds.index[id];
        GrantAndComplete(token, id, codes);
      }
    }

    method GrantAndComplete(token: Token, id: U16, codes: seq<SubAck>)
      requires Valid()
      modifies this`subscriptions, packetIds, topicManager.Repr()
      modifies token`results, token`complete, token`waker, token`woken
      ensures Valid() && fresh(topicManager.Repr() - old(topicManager.Repr()))
      ensures GrantsOf(token) == GrantAll(old(GrantsOf(token)), old(token.subscriptions), codes)
      ensures token.View() == old(token.View()).FlowComplete()
      ensures packetIds.View() == WithFreed(old(packetIds.View()), id)
    {
      GrantCodes(token, codes);
      Complete(token, id);
    }

    method GrantCodes(token: Token, codes: seq<SubAck>)
      requires Valid()
      modifies this`subscriptions, token`results, topicManager.Repr()
      ensures Valid() && fresh(topicManager.Repr() - old(topicManager.Repr()))
      ensures GrantsOf(token) == GrantAll(old(GrantsOf(token)), token.subscriptions, codes)
    {
      assert codes[..0] == [];
      for i := 0 to |codes|
        invariant Valid() && fresh(topicManager.Repr() - old(topicManager.Repr()))
        invariant GrantsOf(token) == GrantAll(old(GrantsOf(token)), token.subscriptions, codes[..i])
      {
        assert codes[..i + 1][..i] == codes[..i];
        GrantCode(token, i, codes[i]);
      }
      assert codes[..|codes|] == codes;
    }

    /** The parts of the state that a SUBACK for `token` updates. */
    ghost function GrantsOf(token: Token): Grants
      reads this, token, topicManager, topicManager.store, topicManager.store.nodes.Values
    {
      Grants(Trie(), subscriptions, token.results)
    }

    method GrantCode(token: Token, i: nat, code: SubAck)
      requires Valid()
      modifies this`subscriptions, token`results, topicManager.Repr()
      ensures Valid() && fresh(topicManager.Repr() - old(topicManager.Repr()))
      ensures GrantsOf(token) == GrantAt(old(GrantsOf(token)), token.subscriptions, i, code)
    {
      ghost var before, wanted := GrantsOf(token), GrantAt(GrantsOf(token), token.subscriptions, i, code);
      MarkResult(token, i, code);
      GrantMarked(token, i, code, before, wanted);
    }

    method GrantMarked(token: Token, i: nat, code: SubAck, ghost before: Grants, ghost wanted: Grants)
      requires Valid() && Trie() == before.trie && subscriptions == before.subs && token.results == wanted.results
      requires wanted == GrantAt(before, token.subscriptions, i, code)
      modifies this`subscriptions, topicManager.Repr()
      ensures Valid() && fresh(topicManager.Repr() - old(topicManager.Repr()))
      ensures GrantsOf(token) == wanted
    {
      var subscription := token.GetSubscription(i);
      if subscription.Some? && !code.Failure? {
        Grant(subscription.value);
      }
    }

    /** Setting the result leaves the trie alone. */
    method MarkResult(token: Token, i: nat, code: SubAck)
      requires Valid()
      modifies token`results
      ensures Valid() && topicManager.Repr() == old(topicManager.Repr())
      ensures Trie() == old(Trie())
      ensures token.results
           == if i < |token.subscriptions| then old(token.results)[token.subscriptions[i].topic := code]
              else old(token.results)
    {
      token.SetResult(i, code);
    }

    method Grant(subscription: Subscription)
      requires Valid()
      modifies this`subscriptions, topicManager.Repr()
      ensures Valid() && fresh(topicManager.Repr() - old(topicManager.Repr()))
      ensures Trie() == Insert(old(Trie()), Tokenize(subscription.topic), subscription)
      ensures subscriptions == old(subscriptions)[subscription.topic := subscription]
    {
      topicManager.Add(subscription);
      subscriptions := subscriptions[subscription.topic := subscription];
    }

    method HandleUnsuback(id: U16)
      requires Valid()
      modifies packetIds, topicManager.Repr()
      modifies packetIds.index.Values`complete, packetIds.index.Values`waker, packetIds.index.Values`woken
      ensures Valid() && fresh(topicManager.Repr() - old(topicManager.Repr()))
      ensures old(Holds(id, Unsubscribe)) ==>
                var token := old(packetIds.index)[id];
                && Trie() == RemoveTopics(old(Trie()), old(token.topics))
                && token.View() == old(token.View()).FlowComplete()
                && forall t :: t in old(packetIds.index.Values) && t != token ==> unchanged(t)
      ensures packetIds.View() == if old(Holds(id, Unsubscribe)) then WithFreed(old(packetIds.View()), id)
                                  else old(packetIds.View())
      ensures !old(Holds(id, Unsubscribe)) ==> Trie() == old(Trie()) && unchanged(packetIds.index.Values)
    {
      if Holds(id, Unsubscribe) {
        var token := packetIds.index[id];
        RemoveAndComplete(token, id);
      }
    }

    method RemoveAndComplete(token: Token, id: U16)
      requires Valid()
      modifies packetIds, topicManager.Repr(), token`complete, token`waker, token`woken
      ensures Valid() && fresh(topicManager.Repr() - old(topicManager.Repr()))
      ensures Trie() == RemoveTopics(old(Trie()), old(token.topics))
      ensures token.View() == old(token.View()).FlowComplete()
      ensures packetIds.View() == WithFreed(old(packetIds.View()), id)
    {
      RemoveEach(token.topics);
      Complete(token, id);
    }

    method RemoveEach(topics: seq<string>)
      requires Valid()
      modifies topicManager.Repr()
      ensures Valid() && fresh(topicManager.Repr() - old(topicManager.Repr()))
      ensures Trie() == RemoveTopics(old(Trie()), topics)
    {
      assert topics[..0] == [];
      for i := 0 to |topics|
        invariant Valid() && fresh(topicManager.Repr() - old(topicManager.Repr()))
        invariant Trie() == RemoveTopics(old(Trie()), topics[..i])
      {
        assert topics[..i + 1][..i] == topics[..i];
        var _ := topicManager.Remove(topics[i]);
      }
      assert topics[..|topics|] == topics;
    }
  }

  // ----- Which handlers are invoked -----

  /** How often handler `h` was invoked with `message`. */
  function Invocations(dispatched: seq<Dispatch>, h: nat, message: PublishPacket): nat {
    multiset(dispatched)[Dispatch(h, message)]
  }

  /** The subscriptions of `log` whose filter matches. */
  function MatchingOnly(log: seq<Subscription>, topic: Path): seq<Subscription> {
    if log == [] then []
    else
      var n := |log| - 1;
      MatchingOnly(log[..n], topic) + if Matches(Tokenize(log[n].topic), topic) then [log[n]] else []
  }

  function WithHandler(log: seq<Subscription>, h: nat): nat {
    if log == [] then 0
    else
      var n := |log| - 1;
      WithHandler(log[..n], h) + if log[n].handler == h then 1 else 0
  }

  lemma {:induction false} MatchingOnlyCopies(log: seq<Subscription>, topic: Path, x: Subscription)
    ensures Copies(MatchingOnly(log, topic), x)
         == if Matches(Tokenize(x.topic), topic) then Copies(log, x) else 0
  {
    if log != [] {
      var n := |log| - 1;
      MatchingOnlyCopies(log[..n], topic, x);
      assert log == log[..n] + [log[n]];
      CopiesConcat(log[..n], [log[n]], x);
      CopiesConcat(MatchingOnly(log[..n], topic),
                   if Matches(Tokenize(log[n].topic), topic) then [log[n]] else [], x);
    }
  }

  lemma {:induction false} WithHandlerConcat(a: seq<Subscription>, b: seq<Subscription>, h: nat)
    ensures WithHandler(a + b, h) == WithHandler(a, h) + WithHandler(b, h)
  {
    if b == [] {
      assert a + b == a;
    } else {
      var n := |b| - 1;
      assert (a + b)[..|a + b| - 1] == a + b[..n];
      WithHandlerConcat(a, b[..n], h);
    }
  }

  lemma WithoutAt(b: seq<Subscription>, i: nat, h: nat)
    requires i < |b|
    ensures var rest := b[..i] + b[i + 1..];
            && multiset(b) == multiset(rest) + multiset{b[i]}
            && WithHandler(b, h) == WithHandler(rest, h) + if b[i].handler == h then 1 else 0
  {
    assert b == b[..i] + ([b[i]] + b[i + 1..]);
    WithHandlerConcat(b[..i], [b[i]] + b[i + 1..], h);
    WithHandlerConcat([b[i]], b[i + 1..], h);
    WithHandlerConcat(b[..i], b[i + 1..], h);
    assert [b[i]][..0] == [];
  }

  lemma WithoutLast(a: seq<Subscription>)
    requires a != []
    ensures var n := |a| - 1; multiset(a[..n]) == multiset(a) - multiset{a[n]} && a[n] in multiset(a)
  {
    var n := |a| - 1;
    assert a == a[..n] + [a[n]];
    assert multiset(a[..n] + [a[n]]) == multiset(a[..n]) + multiset([a[n]]);
  }

  /** The count does not depend on the order. */
  lemma {:induction false} WithHandlerSame(a: seq<Subscription>, b: seq<Subscription>, h: nat)
    requires multiset(a) == multiset(b)
    ensures WithHandler(a, h) == WithHandler(b, h)
  {
    if a == [] {
      assert |b| == |multiset(b)| == |multiset(a)| == 0;
    } else {
      var n := |a| - 1;
      WithoutLast(a);
      var i :| 0 <= i < |b| && b[i] == a[n];
      WithoutAt(b, i, h);
      var rest := b[..i] + b[i + 1..];
      assert multiset(rest) == multiset(b) - multiset{b[i]};
      WithHandlerSame(a[..n], rest, h);
    }
  }

  lemma {:induction false} InvocationsCount(dispatched: seq<Dispatch>, matching: seq<Subscription>, h: nat,
                                            message: PublishPacket)
    requires |dispatched| == |matching|
    requires forall i :: 0 <= i < |matching| ==> dispatched[i] == Dispatch(matching[i].handler, message)
    ensures Invocations(dispatched, h, message) == WithHandler(matching, h)
  {
    if matching != [] {
      var n := |matching| - 1;
      assert dispatched == dispatched[..n] + [dispatched[n]];
      InvocationsCount(dispatched[..n], matching[..n], h, message);
    }
  }

  /** What `dispatched` holds after the packet went to what a lookup found. */
  lemma InvokedOnce(ops: seq<TrieSpec.Op>, topic: Path, dispatched: seq<Dispatch>, h: nat, message: PublishPacket)
    requires WildcardFree(topic)
    requires var matching := MatchFrom(TrieSpec.Run(ops), [], topic);
             && |dispatched| == |matching|
             && forall i :: 0 <= i < |matching| ==> dispatched[i] == Dispatch(matching[i].handler, message)
    ensures Invocations(dispatched, h, message) == WithHandler(MatchingOnly(RunFlat(ops), topic), h)
  {
    var matching, stored := MatchFrom(TrieSpec.Run(ops), [], topic), MatchingOnly(RunFlat(ops), topic);
    forall x ensures multiset(matching)[x] == multiset(stored)[x] {
      RunMatches(ops, topic, x);
      MatchingOnlyCopies(RunFlat(ops), topic, x);
      assert Copies(matching, x) == Copies(stored, x);
    }
    WithHandlerSame(matching, stored, h);
    InvocationsCount(dispatched, matching, h, message);
  }

  /** A PUBLISH and, with QoS 2, the PUBREL for it, to a state with nothing pending. */
  method ReceiveWhole(st: State, packet: PublishPacket)
    requires st.Valid() && st.pendingPackets == map[] && st.dispatched == []
    modifies st`dispatched, st`pendingPackets
    ensures st.pendingPackets == map[]
    ensures var matching := old(st.Matching(packet.topicName));
            && |st.dispatched| == |matching|
            && forall i :: 0 <= i < |matching| ==> st.dispatched[i] == Dispatch(matching[i].handler, packet)
  {
    var _ := st.HandlePublish(packet);
    if packet.qos.Qos2? {
      var _ := st.HandlePubrel(packet.qos.id);
      assert st.pendingPackets == map[];
    }
  }

  /** After any run of add, remove and clear on the trie objects, a message with a wildcard-free
      topic invokes handler `h` once per stored subscription that matches and has this handler;
      a QoS 2 message once its PUBREL comes. */
  method InvokedAfter(ops: seq<TrieSpec.Op>, packet: PublishPacket) returns (dispatched: seq<Dispatch>)
    ensures WildcardFree(Tokenize(packet.topicName)) ==>
              forall h :: Invocations(dispatched, h, packet)
                          == WithHandler(MatchingOnly(RunFlat(ops), Tokenize(packet.topicName)), h)
  {
    var st := new State();
    Perform(st.topicManager, ops);
    ghost var matching := st.Matching(packet.topicName);
    ReceiveWhole(st, packet);
    dispatched := st.dispatched;
    if WildcardFree(Tokenize(packet.topicName)) {
      forall h
        ensures Invocations(dispatched, h, packet)
             == WithHandler(MatchingOnly(RunFlat(ops), Tokenize(packet.topicName)), h)
      {
        InvokedOnce(ops, Tokenize(packet.topicName), dispatched, h, packet);
      }
    }
  }
}
