/** The resubscribe job of `block` (`src/client.rs`) after a reconnect without session. */
module Resubscribe {
  import opened Topics
  import opened TrieSpec
  import opened Tokens
  import opened PacketIds
  import opened Handlers

  /** What becomes of one SUBSCRIBE: granted or refused by a SUBACK handled after
      `add_subscriptions`, answered by a SUBACK handled before it, not sent because the writer
      is gone or fails while the session goes on, lost with the session, or not attempted
      because the client is not connected. */
  datatype Reply = Grant(qos: Qos) | Refuse | Early(code: SubAck) | Unsent | Lost | NotConnected

  function CodeOf(reply: Reply): SubAck {
    match reply
    case Grant(qos) => SubAck(qos)
    case Early(code) => code
    case _ => Failure
  }

  /** The trie list of `t` once the topics `done` have been subscribed again. */
  function Rebuilt(subs: map<string, Subscription>, done: set<string>, replies: string -> Reply, t: string)
    : seq<Subscription>
  {
    if t in done && t in subs && replies(t).Grant? then [subs[t]] else []
  }

  /** The trie after one subscription, granted or not. */
  function WithGrant(c: Content, sub: Subscription, granted: bool): Content {
    if granted then Insert(c, Tokenize(sub.topic), sub) else c
  }

  function MapWithGrant(m: map<string, Subscription>, sub: Subscription, granted: bool): map<string, Subscription> {
    if granted then m[sub.topic := sub] else m
  }

  // ----- One subscribe call -----

  /** A new token, and its identifier when the client is connected; without one the token
      fails. */
  method Register(table: PacketIdTable, connected: bool) returns (token: Token, id: U16)
    modifies table
    ensures fresh(token) && token.kind == Subscribe && token.subscriptions == []
    ensures id == if connected then NextId(old(table.View())) else 0
    ensures id == 0 <==> !connected || AllHeld(old(table.index))
    ensures table.index == if id == 0 then old(table.index) else old(table.index)[id := token]
    ensures table.index.Values <= old(table.index.Values) + {token} && |table.index| <= |old(table.index)| + 1
    ensures id == 0 ==> token.complete
    ensures token.error == if !connected then Some(ConnectionLost)
                           else if id == 0 then Some(PacketIdError) else None
  {
    token := new Token(Subscribe);
    if !connected {
      token.SetError(ConnectionLost);
      return token, 0;
    }
    NoneFree(table.View());
    ghost var probed;
    id, probed := table.GetId(token);
    if id == 0 {
      token.SetError(PacketIdError);
    }
  }

  /** The packet is not written: the token fails and its identifier stays taken. */
  method LeaveUnsent(token: Token, sub: Subscription)
    modifies token
    ensures token.complete && token.error == Some(InternalServerError)
  {
    token.SetError(InternalServerError);
    token.AddSubscriptions([sub]);
  }

  /** The session ends before a SUBACK arrives, and cleans up. */
  method LoseSession(table: PacketIdTable, token: Token, id: U16, sub: Subscription)
    requires id in table.index && table.index[id] == token
    modifies table, table.index.Values
    ensures table.index == map[] && token.complete && token.error == Some(ConnectionLost)
  {
    token.AddSubscriptions([sub]);
    assert token in table.index.Values;
    table.CleanUp();
  }

  method SubackOne(st: State, token: Token, id: U16, code: SubAck)
    requires st.Valid() && id in st.packetIds.index && st.packetIds.index[id] == token && token.kind == Subscribe
    modifies st`subscriptions, st.packetIds, st.packetIds.index.Values, st.topicManager.Repr()
    ensures st.Valid() && fresh(st.topicManager.Repr() - old(st.topicManager.Repr()))
    ensures st.packetIds.index == old(st.packetIds.index) - {id}
    ensures token.complete && token.error == old(token.error)
    ensures st.GrantsOf(token) == GrantAt(old(st.GrantsOf(token)), old(token.subscriptions), 0, code)
  {
    OneCode(st.GrantsOf(token), token.subscriptions, code);
    assert st.Holds(id, Subscribe);
    st.HandleSuback(id, [code]);
  }

  /** The SUBACK is handled before or after the subscription is added to the token. */
  method Answer(st: State, token: Token, id: U16, sub: Subscription, reply: Reply)
    requires st.Valid() && id in st.packetIds.index && st.packetIds.index[id] == token
    requires token.kind == Subscribe && token.subscriptions == []
    requires reply.Grant? || reply.Refuse? || reply.Early?
    modifies st`subscriptions, st.packetIds, st.packetIds.index.Values, st.topicManager.Repr(), token
    ensures st.Valid() && fresh(st.topicManager.Repr() - old(st.topicManager.Repr()))
    ensures st.packetIds.index == old(st.packetIds.index) - {id}
    ensures token.complete && token.error == old(token.error)
    ensures st.Trie() == WithGrant(old(st.Trie()), sub, reply.Grant?)
    ensures st.subscriptions == MapWithGrant(old(st.subscriptions), sub, reply.Grant?)
  {
    if reply.Early? {
      SubackOne(st, token, id, CodeOf(reply));
      token.AddSubscriptions([sub]);
    } else {
      token.AddSubscriptions([sub]);
      SubackOne(st, token, id, CodeOf(reply));
    }
  }

  /** Taking an identifier leaves the trie alone. */
  method Enter(st: State, connected: bool) returns (token: Token, id: U16)
    requires st.Valid()
    modifies st.packetIds
    ensures st.Valid() && st.Trie() == old(st.Trie()) && st.topicManager.Repr() == old(st.topicManager.Repr())
    ensures fresh(token) && token.kind == Subscribe && token.subscriptions == []
    ensures id == 0 <==> !connected || AllHeld(old(st.packetIds.index))
    ensures id != 0 ==> id in st.packetIds.index && st.packetIds.index[id] == token
    ensures st.packetIds.index.Values <= old(st.packetIds.index.Values) + {token}
    ensures |st.packetIds.index| <= |old(st.packetIds.index)| + 1
    ensures id == 0 ==> token.complete
    ensures token.error == if !connected then Some(ConnectionLost)
                           else if id == 0 then Some(PacketIdError) else None
  {
    token, id := Register(st.packetIds, connected);
  }

  /** One `subscribe` call together with the handling of its SUBACK, if there is one. The
      subscription is made exactly when an identifier is free and the SUBACK grants in time. */
  method SubscribeAgain(st: State, sub: Subscription, reply: Reply) returns (token: Token, ghost granted: bool)
    requires st.Valid()
    modifies st`subscriptions, st.packetIds, st.packetIds.index.Values, st.topicManager.Repr()
    ensures st.Valid() && fresh(st.topicManager.Repr() - old(st.topicManager.Repr()))
    ensures fresh(token) && token.complete
    ensures token.error == if reply.NotConnected? then Some(ConnectionLost)
                           else if AllHeld(old(st.packetIds.index)) then Some(PacketIdError)
                           else if reply.Unsent? then Some(InternalServerError)
                           else if reply.Lost? then Some(ConnectionLost) else None
    ensures st.packetIds.index.Values <= old(st.packetIds.index.Values) + {token}
    ensures |st.packetIds.index| <= |old(st.packetIds.index)| + 1
    ensures granted <==> reply.Grant? && !AllHeld(old(st.packetIds.index))
    ensures st.Trie() == WithGrant(old(st.Trie()), sub, granted)
    ensures st.subscriptions == MapWithGrant(old(st.subscriptions), sub, granted)
  {
    var id;
    token, id := Enter(st, !reply.NotConnected?);
    granted := reply.Grant? && id != 0;
    if id != 0 {
      Proceed(st, token, id, sub, reply);
    }
  }

  method Proceed(st: State, token: Token, id: U16, sub: Subscription, reply: Reply)
    requires st.Valid() && id in st.packetIds.index && st.packetIds.index[id] == token && !reply.NotConnected?
    requires token.kind == Subscribe && token.subscriptions == [] && token.error == None
    modifies st`subscriptions, st.packetIds, st.packetIds.index.Values, st.topicManager.Repr(), token
    ensures st.Valid() && fresh(st.topicManager.Repr() - old(st.topicManager.Repr()))
    ensures token.complete
    ensures token.error == if reply.Unsent? then Some(InternalServerError)
                           else if reply.Lost? then Some(ConnectionLost) else None
    ensures st.packetIds.index.Values <= old(st.packetIds.index.Values)
    ensures |st.packetIds.index| <= |old(st.packetIds.index)|
    ensures st.Trie() == WithGrant(old(st.Trie()), sub, reply.Grant?)
    ensures st.subscriptions == MapWithGrant(old(st.subscriptions), sub, reply.Grant?)
  {
    if reply.Unsent? {
      LeaveUnsent(token, sub);
      assert st.Valid() && st.Trie() == old(st.Trie()) && st.topicManager.Repr() == old(st.topicManager.Repr());
    } else if reply.Lost? {
      LoseSession(st.packetIds, token, id, sub);
      assert st.Valid() && st.Trie() == old(st.Trie()) && st.topicManager.Repr() == old(st.topicManager.Repr());
    } else {
      Answered(st, token, id, sub, reply);
    }
  }

  method Answered(st: State, token: Token, id: U16, sub: Subscription, reply: Reply)
    requires st.Valid() && id in st.packetIds.index && st.packetIds.index[id] == token
    requires token.kind == Subscribe && token.subscriptions == []
    requires reply.Grant? || reply.Refuse? || reply.Early?
    modifies st`subscriptions, st.packetIds, st.packetIds.index.Values, st.topicManager.Repr(), token
    ensures st.Valid() && fresh(st.topicManager.Repr() - old(st.topicManager.Repr()))
    ensures token.complete && token.error == old(token.error)
    ensures st.packetIds.index.Values <= old(st.packetIds.index.Values)
    ensures |st.packetIds.index| <= |old(st.packetIds.index)|
    ensures st.Trie() == WithGrant(old(st.Trie()), sub, reply.Grant?)
    ensures st.subscriptions == MapWithGrant(old(st.subscriptions), sub, reply.Grant?)
  {
    SmallerTable(st.packetIds.index, id);
    Answer(st, token, id, sub, reply);
  }

  lemma SmallerTable(index: map<U16, Token>, id: U16)
    requires id in index
    ensures |index - {id}| <= |index| && (index - {id}).Values <= index.Values
  {
    assert (index - {id}).Keys == index.Keys - {id};
    forall t | t in (index - {id}).Values ensures t in index.Values {
      var k :| k in index - {id} && (index - {id})[k] == t;
      assert index[k] == t;
    }
  }

  // ----- The loop -----

  ghost function AllIds(n: U16): (ids: set<U16>)
    ensures |ids| == n && forall y: U16 :: y in ids <==> 1 <= y <= n
  {
    if n == 0 then {} else AllIds(n - 1) + {n}
  }

  /** A table with fewer than 65535 entries has a free identifier. */
  lemma FreeWhileSmall<T>(s: Ids<T>, token: T)
    requires |s.index| < PKID_MAX
    ensures NextId(s) != 0
  {
    assert |s.index| == |s.index.Keys|;
    NextIdIsFirstVacant(s, token);
    if NextId(s) == 0 {
      SubsetSize(AllIds(PKID_MAX), s.index.Keys);
      assert false;
    }
  }

  /** Trie `c` and map `m` once `done` have been attempted, `skipped` of them in vain. */
  ghost predicate Progress(c: Content, m: map<string, Subscription>, subs: map<string, Subscription>,
                           done: set<string>, skipped: set<string>, replies: string -> Reply)
  {
    && skipped <= done <= subs.Keys && Keyed(subs) && m == subs
    && (|subs| <= PKID_MAX ==> skipped == {})
    && forall t :: Held(c, Tokenize(t)) == Rebuilt(subs, done - skipped, replies, t)
  }

  /** The loop of `block`: the trie is cleared and every entry of the map is subscribed again.
      Afterwards the trie holds exactly one subscription for each map entry whose SUBACK
      granted it and was handled in time, and nothing else, whatever it held before; the map
      is unchanged. `skipped` are the topics for which no identifier was free: none, unless
      the map has more entries than there are identifiers. */
  method ResubscribeAll(st: State, replies: string -> Reply) returns (ghost skipped: set<string>)
    requires st.Valid() && Keyed(st.subscriptions)
    modifies st`subscriptions, st.packetIds, st.packetIds.index.Values, st.topicManager.Repr()
    ensures st.Valid() && fresh(st.topicManager.Repr() - old(st.topicManager.Repr()))
    ensures st.subscriptions == old(st.subscriptions)
    ensures forall t :: Held(st.Trie(), Tokenize(t)) ==
                        Rebuilt(old(st.subscriptions), old(st.subscriptions).Keys - skipped, replies, t)
    ensures |old(st.subscriptions)| <= PKID_MAX ==> skipped == {}
  {
    Forget(st);
    assert Progress(st.Trie(), st.subscriptions, st.subscriptions, {}, {}, replies);
    skipped := SubscribeEach(st, replies);
  }

  /** Before the loop `block` fails what is left in the identifier table and clears the trie. */
  method Forget(st: State)
    requires st.Valid()
    modifies st.packetIds, st.packetIds.index.Values, st.topicManager.Repr()
    ensures st.Valid() && st.topicManager.Repr() == old(st.topicManager.Repr())
    ensures st.packetIds.index == map[] && forall t :: Held(st.Trie(), Tokenize(t)) == []
  {
    st.packetIds.CleanUp();
    st.topicManager.Clear();
  }

  /** The nodes of the trie and the tokens in the table are among `space`. */
  ghost predicate Within(st: State, space: set<object>)
    reads st, st.packetIds, st.topicManager, st.topicManager.store
  {
    st.topicManager.Repr() <= space && st.packetIds.index.Values <= space
  }

  method SubscribeEach(st: State, replies: string -> Reply) returns (ghost skipped: set<string>)
    requires st.Valid() && st.packetIds.index == map[]
    requires Progress(st.Trie(), st.subscriptions, st.subscriptions, {}, {}, replies)
    modifies st`subscriptions, st.packetIds, st.topicManager.Repr()
    ensures st.Valid() && fresh(st.topicManager.Repr() - old(st.topicManager.Repr()))
    ensures var subs := old(st.subscriptions);
            Progress(st.Trie(), st.subscriptions, subs, subs.Keys, skipped, replies)
  {
    skipped := {};
    var subs := st.subscriptions;
    var todo, done := subs.Keys, {};
    ghost var before := st.topicManager.Repr();
    ghost var space := before;
    while todo != {}
      invariant st.Valid() && Within(st, space) && fresh(space - before)
      invariant forall t :: t in subs <==> t in todo || t in done
      invariant forall t :: t in todo ==> t !in done
      invariant |st.packetIds.index| <= |done|
      invariant Progress(st.Trie(), st.subscriptions, subs, done, skipped, replies)
    {
      var topic :| topic in todo;
      ghost var made;
      skipped, made := SubscribeNext(st, subs, done, skipped, space, replies, topic);
      space := space + made;
      todo, done := todo - {topic}, done + {topic};
    }
    assert done == subs.Keys;
  }

  method SubscribeNext(st: State, subs: map<string, Subscription>, ghost done: set<string>, ghost skipped: set<string>,
                       ghost space: set<object>, replies: string -> Reply, topic: string)
    returns (ghost missed: set<string>, ghost made: set<object>)
    requires st.Valid() && Within(st, space)
    requires Progress(st.Trie(), st.subscriptions, subs, done, skipped, replies)
    requires topic in subs && topic !in done && |st.packetIds.index| <= |done|
    modifies st`subscriptions, st.packetIds, space
    ensures st.Valid() && Within(st, space + made) && fresh(made)
    ensures |st.packetIds.index| <= |old(st.packetIds.index)| + 1
    ensures Progress(st.Trie(), st.subscriptions, subs, done + {topic}, missed, replies)
  {
    ghost var before, token;
    before := st.topicManager.Repr();
    missed, token := SubscribeOne(st, subs, done, skipped, replies, topic);
    made := st.topicManager.Repr() - before + {token};
  }

  method SubscribeOne(st: State, subs: map<string, Subscription>, ghost done: set<string>, ghost skipped: set<string>,
                       replies: string -> Reply, topic: string)
    returns (ghost missed: set<string>, ghost token: Token)
    requires st.Valid()
    requires Progress(st.Trie(), st.subscriptions, subs, done, skipped, replies)
    requires topic in subs && topic !in done && |st.packetIds.index| <= |done|
    modifies st`subscriptions, st.packetIds, st.packetIds.index.Values, st.topicManager.Repr()
    ensures st.Valid() && fresh(st.topicManager.Repr() - old(st.topicManager.Repr()))
    ensures fresh(token) && st.packetIds.index.Values <= old(st.packetIds.index.Values) + {token}
    ensures |st.packetIds.index| <= |old(st.packetIds.index)| + 1
    ensures Progress(st.Trie(), st.subscriptions, subs, done + {topic}, missed, replies)
  {
    ghost var free := !AllHeld(st.packetIds.index);
    EnoughIds(st.packetIds.View(), subs.Keys, done, topic);
    NoneFree(st.packetIds.View());
    missed := if free then skipped else skipped + {topic};
    ProgressStep(st.Trie(), subs, done, skipped, replies, topic, free);
    ghost var granted;
    token, granted := SubscribeAgain(st, subs[topic], replies(topic));
  }

  lemma ProgressStep(c: Content, subs: map<string, Subscription>, done: set<string>,
                     skipped: set<string>, replies: string -> Reply, topic: string, free: bool)
    requires Progress(c, subs, subs, done, skipped, replies)
    requires topic in subs && topic !in done && (|subs| <= PKID_MAX ==> free)
    ensures var granted := replies(topic).Grant? && free;
            var missed := if free then skipped else skipped + {topic};
            Progress(WithGrant(c, subs[topic], granted), MapWithGrant(subs, subs[topic], granted), subs,
                     done + {topic}, missed, replies)
  {
    RebuiltStep(c, subs, done, skipped, replies, topic, free);
  }

  lemma EnoughIds<T>(s: Ids<T>, topics: set<string>, done: set<string>, topic: string)
    requires |s.index| <= |done| && done <= topics && topic in topics && topic !in done
    ensures |topics| <= PKID_MAX ==> NextId(s) != 0
  {
    SubsetSize(done + {topic}, topics);
    if |topics| <= PKID_MAX {
      if id :| id in s.index {
        FreeWhileSmall(s, s.index[id]);
      }
    }
  }

  lemma RebuiltStep(c: Content, subs: map<string, Subscription>, done: set<string>, skipped: set<string>,
                    replies: string -> Reply, topic: string, free: bool)
    requires Keyed(subs) && topic in subs && topic !in done && skipped <= done
    requires forall t :: Held(c, Tokenize(t)) == Rebuilt(subs, done - skipped, replies, t)
    ensures var d := WithGrant(c, subs[topic], replies(topic).Grant? && free);
            var skip := if free then skipped else skipped + {topic};
            && MapWithGrant(subs, subs[topic], replies(topic).Grant? && free) == subs
            && forall t :: Held(d, Tokenize(t)) == Rebuilt(subs, done + {topic} - skip, replies, t)
  {
    forall t
      ensures Held(WithGrant(c, subs[topic], replies(topic).Grant? && free), Tokenize(t))
           == Rebuilt(subs, done + {topic} - if free then skipped else skipped + {topic}, replies, t)
    {
      InsertHeld(c, Tokenize(topic), subs[topic], Tokenize(t));
      TokenizeInjective(topic, t);
      assert Held(c, Tokenize(t)) == Rebuilt(subs, done - skipped, replies, t);
    }
  }

  // ----- After an UNSUBACK -----

  /** An UNSUBACK and, after it, the resubscribe job: the trie list of an unsubscribed topic is
      empty in between, and holds the subscription of the map again when the SUBACK grants it. */
  method UnsubscribedComesBack(st: State, id: U16, t: string, replies: string -> Reply)
    returns (ghost between: Content, ghost skipped: set<string>)
    requires st.Valid() && Keyed(st.subscriptions) && t in st.subscriptions && |st.subscriptions| <= PKID_MAX
    requires st.Holds(id, Unsubscribe) && t in st.packetIds.index[id].topics && replies(t).Grant?
    modifies st`subscriptions, st.packetIds, st.packetIds.index.Values, st.topicManager.Repr()
    ensures st.Valid() && fresh(st.topicManager.Repr() - old(st.topicManager.Repr()))
    ensures Held(between, Tokenize(t)) == [] && st.subscriptions == old(st.subscriptions)
    ensures Held(st.Trie(), Tokenize(t)) == [old(st.subscriptions)[t]]
  {
    between := TakeOut(st, id, t);
    skipped := ResubscribeAll(st, replies);
  }

  method TakeOut(st: State, id: U16, t: string) returns (ghost between: Content)
    requires st.Valid() && st.Holds(id, Unsubscribe) && t in st.packetIds.index[id].topics
    modifies st.packetIds, st.packetIds.index.Values, st.topicManager.Repr()
    ensures st.Valid() && fresh(st.topicManager.Repr() - old(st.topicManager.Repr()))
    ensures st.packetIds.index.Values <= old(st.packetIds.index.Values)
    ensures between == st.Trie() && Held(between, Tokenize(t)) == []
  {
    ghost var index, before := st.packetIds.index, st.Trie();
    RemoveTopicsHeld(before, index[id].topics, t);
    SmallerTable(index, id);
    st.HandleUnsuback(id);
    between := st.Trie();
  }
}
