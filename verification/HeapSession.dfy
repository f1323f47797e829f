/** The handlers of `Handlers` on token and trie objects are steps of `Session`: if a heap shows
    a client, then after a handler it shows the client after the step. */
module HeapSession {
  import opened Topics
  import opened TrieSpec
  import opened Tokens
  import opened PacketIds
  import opened Handlers
  import opened Session

  // ----- What a heap shows -----

  /** The fields of a token; wakers are left to `Tokens`. */
  datatype Face = Face(kind: Kind, complete: bool, error: Option<TokenError>, subs: seq<Subscription>,
                       topics: seq<string>, results: map<string, SubAck>)

  function FaceOf(t: Token): Face
    reads t
  {
    Face(t.kind, t.complete, t.error, t.subscriptions, t.topics, t.results)
  }

  ghost function Faces(objs: seq<Token>): seq<Face>
    reads objs
  {
    seq(|objs|, r requires 0 <= r < |objs| reads objs => FaceOf(objs[r]))
  }

  function FaceFor(t: TokenState): Face {
    Face(t.kind, t.record.complete, t.record.error, t.subs, t.topics, t.results)
  }

  function FacesFor(ts: seq<TokenState>): seq<Face> {
    seq(|ts|, r requires 0 <= r < |ts| => FaceFor(ts[r]))
  }

  predicate Distinct(objs: seq<Token>) {
    forall q, r :: 0 <= q < r < |objs| ==> objs[q] != objs[r]
  }

  /** `objs[r]` is the object of token `r`. */
  ghost predicate IdsShown(table: Ids<Token>, objs: seq<Token>, ids: Ids<Ref>) {
    && table.cursor == ids.cursor && table.index.Keys == ids.index.Keys
    && forall id :: id in ids.index ==> ids.index[id] < |objs| && table.index[id] == objs[ids.index[id]]
  }

  ghost predicate Shown(st: State, objs: seq<Token>, c: Client)
    reads st, st.packetIds, objs, st.topicManager, st.topicManager.store, st.topicManager.store.nodes.Values
  {
    && st.Valid() && st.Trie() == c.trie && st.subscriptions == c.subs
    && IdsShown(st.packetIds.View(), objs, c.ids)
    && Distinct(objs) && Faces(objs) == FacesFor(c.tokens)
  }

  lemma HoldersKnown(table: Ids<Token>, objs: seq<Token>, ids: Ids<Ref>)
    requires IdsShown(table, objs, ids)
    ensures forall t :: t in table.index.Values ==> t in objs
  {
    forall t | t in table.index.Values ensures t in objs {
      var id :| id in table.index && table.index[id] == t;
      assert table.index[id] == objs[ids.index[id]];
    }
  }

  lemma FreedShown(table: Ids<Token>, objs: seq<Token>, ids: Ids<Ref>, id: U16)
    requires IdsShown(table, objs, ids)
    ensures IdsShown(WithFreed(table, id), objs, WithFreed(ids, id))
  {
  }

  /** A token is in the table exactly if its number is in the index. */
  lemma HeldAlike(table: Ids<Token>, objs: seq<Token>, ids: Ids<Ref>, r: nat)
    requires IdsShown(table, objs, ids) && Distinct(objs) && r < |objs|
    ensures objs[r] in table.index.Values <==> r in ids.index.Values
  {
    if objs[r] in table.index.Values {
      var id :| id in table.index && table.index[id] == objs[r];
      assert objs[ids.index[id]] == objs[r];
    }
    if r in ids.index.Values {
      var id :| id in ids.index && ids.index[id] == r;
      assert table.index[id] == objs[r];
    }
  }

  /** A new state shows the initial client. */
  method Start() returns (st: State)
    ensures fresh(st) && Shown(st, [], INITIAL)
  {
    st := new State();
  }

  // ----- The handlers, seen on all known tokens -----

  method AckCall(st: State, objs: seq<Token>, ghost r: nat, id: U16)
    requires Distinct(objs) && r < |objs| && id in st.packetIds.index && st.packetIds.index[id] == objs[r]
    requires forall t :: t in st.packetIds.index.Values ==> t in objs
    modifies st.packetIds, objs
    ensures st.packetIds.View() == WithFreed(old(st.packetIds.View()), id)
    ensures Faces(objs) == old(Faces(objs))[r := old(FaceOf(objs[r])).(complete := true)]
  {
    st.HandleAck(id);
    forall q | 0 <= q < |objs| && q != r ensures unchanged(objs[q]) {
      assert objs[q] != objs[r];
    }
    assert FaceOf(objs[r]) == old(FaceOf(objs[r])).(complete := true);
  }

  method SubackCall(st: State, objs: seq<Token>, ghost r: nat, id: U16, codes: seq<SubAck>)
    requires st.Valid() && Distinct(objs) && r < |objs|
    requires st.Holds(id, Subscribe) && st.packetIds.index[id] == objs[r]
    requires forall t :: t in st.packetIds.index.Values ==> t in objs
    modifies st`subscriptions, st.packetIds, st.topicManager.Repr(), objs
    ensures st.Valid() && fresh(st.topicManager.Repr() - old(st.topicManager.Repr()))
    ensures st.packetIds.View() == WithFreed(old(st.packetIds.View()), id)
    ensures var g := GrantAll(old(st.GrantsOf(objs[r])), old(objs[r].subscriptions), codes);
            && st.Trie() == g.trie && st.subscriptions == g.subs
            && Faces(objs) == old(Faces(objs))[r := old(FaceOf(objs[r])).(complete := true, results := g.results)]
  {
    ghost var g := GrantAll(st.GrantsOf(objs[r]), objs[r].subscriptions, codes);
    st.HandleSuback(id, codes);
    forall q | 0 <= q < |objs| && q != r ensures unchanged(objs[q]) {
      assert objs[q] != objs[r];
    }
    assert FaceOf(objs[r]) == old(FaceOf(objs[r])).(complete := true, results := g.results);
  }

  method UnsubackCall(st: State, objs: seq<Token>, ghost r: nat, id: U16)
    requires st.Valid() && Distinct(objs) && r < |objs|
    requires st.Holds(id, Unsubscribe) && st.packetIds.index[id] == objs[r]
    requires forall t :: t in st.packetIds.index.Values ==> t in objs
    modifies st.packetIds, st.topicManager.Repr(), objs
    ensures st.Valid() && fresh(st.topicManager.Repr() - old(st.topicManager.Repr()))
    ensures st.packetIds.View() == WithFreed(old(st.packetIds.View()), id)
    ensures st.Trie() == RemoveTopics(old(st.Trie()), old(objs[r].topics))
    ensures Faces(objs) == old(Faces(objs))[r := old(FaceOf(objs[r])).(complete := true)]
  {
    st.HandleUnsuback(id);
    forall q | 0 <= q < |objs| && q != r ensures unchanged(objs[q]) {
      assert objs[q] != objs[r];
    }
    assert FaceOf(objs[r]) == old(FaceOf(objs[r])).(complete := true);
  }

  method CleanUpCall(table: PacketIdTable, objs: seq<Token>)
    requires forall t :: t in table.index.Values ==> t in objs
    modifies table, objs
    ensures table.View() == Emptied(old(table.View()))
    ensures |Faces(objs)| == |objs| && forall r :: 0 <= r < |objs| ==>
              Faces(objs)[r] == if objs[r] in old(table.index.Values)
                                then old(FaceOf(objs[r])).(complete := true, error := Some(ConnectionLost))
                                else old(FaceOf(objs[r]))
  {
    table.CleanUp();
  }

  // ----- The steps, seen on the tokens of a client -----

  lemma AckedFaces(c: Client, id: U16)
    requires id in c.ids.index && c.ids.index[id] < |c.tokens|
    ensures var d, r := Acked(c, id), c.ids.index[id];
            && FacesFor(d.tokens) == FacesFor(c.tokens)[r := FaceFor(c.tokens[r]).(complete := true)]
            && d.ids == WithFreed(c.ids, id) && d.trie == c.trie && d.subs == c.subs
  {
  }

  ghost function GrantsFor(c: Client, id: U16, codes: seq<SubAck>): Grants
    requires HeldBy(c, id, Subscribe)
  {
    var t := c.tokens[c.ids.index[id]];
    GrantAll(Grants(c.trie, c.subs, t.results), t.subs, codes)
  }

  lemma SubAckedFaces(c: Client, id: U16, codes: seq<SubAck>)
    requires HeldBy(c, id, Subscribe)
    ensures var d, r, g := SubAcked(c, id, codes), c.ids.index[id], GrantsFor(c, id, codes);
            && FacesFor(d.tokens)
               == FacesFor(c.tokens)[r := FaceFor(c.tokens[r]).(complete := true, results := g.results)]
            && d.ids == WithFreed(c.ids, id) && d.trie == g.trie && d.subs == g.subs
  {
  }

  lemma CleanedUpFaces(table: Ids<Token>, objs: seq<Token>, c: Client, after: seq<Face>)
    requires IdsShown(table, objs, c.ids) && Distinct(objs) && |after| == |objs| == |c.tokens|
    requires forall r :: 0 <= r < |objs| ==>
               after[r] == if objs[r] in table.index.Values
                           then FacesFor(c.tokens)[r].(complete := true, error := Some(ConnectionLost))
                           else FacesFor(c.tokens)[r]
    ensures after == FacesFor(CleanedUp(c).tokens)
    ensures IdsShown(Emptied(table), objs, CleanedUp(c).ids)
    ensures CleanedUp(c).trie == c.trie && CleanedUp(c).subs == c.subs
  {
    forall r | 0 <= r < |objs| ensures after[r] == FacesFor(CleanedUp(c).tokens)[r] {
      HeldAlike(table, objs, c.ids, r);
    }
  }

  /** What showing a client says of the token that holds an identifier. */
  lemma HolderShown(st: State, objs: seq<Token>, c: Client, id: U16)
    requires Shown(st, objs, c)
    ensures forall t :: t in st.packetIds.index.Values ==> t in objs
    ensures |objs| == |c.tokens| && (id in st.packetIds.index <==> id in c.ids.index)
    ensures id in c.ids.index ==>
              var r := c.ids.index[id];
              r < |objs| && st.packetIds.index[id] == objs[r] && FaceOf(objs[r]) == FaceFor(c.tokens[r])
  {
    HoldersKnown(st.packetIds.View(), objs, c.ids);
    assert |Faces(objs)| == |FacesFor(c.tokens)|;
    if id in c.ids.index {
      var r := c.ids.index[id];
      assert Faces(objs)[r] == FacesFor(c.tokens)[r];
    }
  }

  // ----- Steps of the session -----

  /** PUBACK and PUBCOMP. */
  method AckStep(st: State, objs: seq<Token>, ghost c: Client, id: U16)
    requires Shown(st, objs, c) && c.reader
    modifies st.packetIds, objs
    ensures Shown(st, objs, SessionNext(c, Ack(id)))
  {
    HolderShown(st, objs, c, id);
    if id in st.packetIds.index {
      AckHeld(st, objs, c, id);
    } else {
      st.HandleAck(id);
      assert st.packetIds.index - {id} == st.packetIds.index;
    }
  }

  method AckHeld(st: State, objs: seq<Token>, ghost c: Client, id: U16)
    requires Shown(st, objs, c) && id in c.ids.index
    modifies st.packetIds, objs
    ensures Shown(st, objs, Acked(c, id))
  {
    HolderShown(st, objs, c, id);
    FreedShown(st.packetIds.View(), objs, c.ids, id);
    AckedFaces(c, id);
    AckCall(st, objs, c.ids.index[id], id);
  }

  method SubackStep(st: State, objs: seq<Token>, ghost c: Client, id: U16, codes: seq<SubAck>)
    requires Shown(st, objs, c) && c.reader
    modifies st`subscriptions, st.packetIds, st.topicManager.Repr(), objs
    ensures Shown(st, objs, SessionNext(c, Suback(id, codes)))
    ensures fresh(st.topicManager.Repr() - old(st.topicManager.Repr()))
  {
    HolderShown(st, objs, c, id);
    if st.Holds(id, Subscribe) {
      SubackHeld(st, objs, c, id, codes);
    } else {
      SubackIgnored(st, objs, c, id, codes);
    }
  }

  method SubackIgnored(st: State, objs: seq<Token>, ghost c: Client, id: U16, codes: seq<SubAck>)
    requires Shown(st, objs, c) && !st.Holds(id, Subscribe)
    modifies st`subscriptions, st.packetIds, st.topicManager.Repr(), objs
    ensures Shown(st, objs, c) && fresh(st.topicManager.Repr() - old(st.topicManager.Repr()))
  {
    HoldersKnown(st.packetIds.View(), objs, c.ids);
    st.HandleSuback(id, codes);
    assert forall r :: 0 <= r < |objs| ==> unchanged(objs[r]);
  }

  method SubackHeld(st: State, objs: seq<Token>, ghost c: Client, id: U16, codes: seq<SubAck>)
    requires Shown(st, objs, c) && HeldBy(c, id, Subscribe)
    modifies st`subscriptions, st.packetIds, st.topicManager.Repr(), objs
    ensures Shown(st, objs, SubAcked(c, id, codes))
    ensures fresh(st.topicManager.Repr() - old(st.topicManager.Repr()))
  {
    HolderShown(st, objs, c, id);
    FreedShown(st.packetIds.View(), objs, c.ids, id);
    SubAckedFaces(c, id, codes);
    SubackCall(st, objs, c.ids.index[id], id, codes);
  }

  method UnsubackStep(st: State, objs: seq<Token>, ghost c: Client, id: U16)
    requires Shown(st, objs, c) && c.reader
    modifies st.packetIds, st.topicManager.Repr(), objs
    ensures Shown(st, objs, SessionNext(c, Unsuback(id)))
    ensures fresh(st.topicManager.Repr() - old(st.topicManager.Repr()))
  {
    HolderShown(st, objs, c, id);
    if st.Holds(id, Unsubscribe) {
      UnsubackHeld(st, objs, c, id);
    } else {
      UnsubackIgnored(st, objs, c, id);
    }
  }

  method UnsubackIgnored(st: State, objs: seq<Token>, ghost c: Client, id: U16)
    requires Shown(st, objs, c) && !st.Holds(id, Unsubscribe)
    modifies st.packetIds, st.topicManager.Repr(), objs
    ensures Shown(st, objs, c) && fresh(st.topicManager.Repr() - old(st.topicManager.Repr()))
  {
    HoldersKnown(st.packetIds.View(), objs, c.ids);
    st.HandleUnsuback(id);
    assert forall r :: 0 <= r < |objs| ==> unchanged(objs[r]);
  }

  method UnsubackHeld(st: State, objs: seq<Token>, ghost c: Client, id: U16)
    requires Shown(st, objs, c) && HeldBy(c, id, Unsubscribe) && c.reader
    modifies st.packetIds, st.topicManager.Repr(), objs
    ensures Shown(st, objs, SessionNext(c, Unsuback(id)))
    ensures fresh(st.topicManager.Repr() - old(st.topicManager.Repr()))
  {
    HolderShown(st, objs, c, id);
    FreedShown(st.packetIds.View(), objs, c.ids, id);
    AckedFaces(c, id);
    UnsubackCall(st, objs, c.ids.index[id], id);
  }

  /** The clean-up at the end of the session, and in `block`. */
  method CleanUpStep(st: State, objs: seq<Token>, ghost c: Client)
    requires Shown(st, objs, c)
    modifies st.packetIds, objs
    ensures Shown(st, objs, CleanedUp(c))
  {
    CleanUpTokens(st.packetIds, objs, c);
  }

  method CleanUpTokens(table: PacketIdTable, objs: seq<Token>, ghost c: Client)
    requires IdsShown(table.View(), objs, c.ids) && Distinct(objs) && Faces(objs) == FacesFor(c.tokens)
    modifies table, objs
    ensures IdsShown(table.View(), objs, CleanedUp(c).ids) && Faces(objs) == FacesFor(CleanedUp(c).tokens)
    ensures CleanedUp(c).trie == c.trie && CleanedUp(c).subs == c.subs
  {
    HoldersKnown(table.View(), objs, c.ids);
    ghost var ids, before := table.View(), Faces(objs);
    assert |before| == |FacesFor(c.tokens)| && forall r :: 0 <= r < |objs| ==> before[r] == FaceOf(objs[r]);
    CleanUpCall(table, objs);
    CleanedUpFaces(ids, objs, c, Faces(objs));
  }

  // ----- Steps of the call in progress, the writer and `block` -----

  /** Which identifier is issued does not depend on what holds the others. */
  lemma IssuedShown(table: Ids<Token>, objs: seq<Token>, ids: Ids<Ref>, r: nat)
    requires IdsShown(table, objs, ids) && r < |objs|
    ensures NextId(table) == NextId(ids)
    ensures IdsShown(WithIssued(table, objs[r]), objs, WithIssued(ids, r))
  {
    FirstFreeAlike(table.index, ids.index, table.cursor, 1);
  }

  /** A request makes its token; without a connection the token fails at once. */
  method BeginStep(st: State, objs: seq<Token>, ghost c: Client, req: Request, connected: bool)
    returns (more: seq<Token>)
    requires Shown(st, objs, c) && c.call.Idle? && (connected <==> c.status.Connected?)
    ensures Shown(st, more, CallNext(c, Begin(req))) && |more| == |objs| + 1 && more[..|objs|] == objs
    ensures fresh(more[|objs|])
  {
    var token := NewTokenFor(req, connected);
    more := objs + [token];
    BegunFaces(Faces(objs), FaceOf(token), c, req);
    assert Faces(more) == Faces(objs) + [FaceOf(token)];
  }

  lemma BegunFaces(faces: seq<Face>, face: Face, c: Client, req: Request)
    requires c.call.Idle? && faces == FacesFor(c.tokens)
    requires face == Face(KindOf(req), !c.status.Connected?,
                          if c.status.Connected? then None else Some(ConnectionLost), [], [], map[])
    ensures var d := CallNext(c, Begin(req));
            && faces + [face] == FacesFor(d.tokens) && d.ids == c.ids && d.trie == c.trie && d.subs == c.subs
  {
    if c.status.Connected? {} else {}
  }

  method NewTokenFor(req: Request, connected: bool) returns (token: Token)
    ensures fresh(token)
    ensures FaceOf(token) == Face(KindOf(req), !connected, if connected then None else Some(ConnectionLost), [], [],
                                  map[])
  {
    token := new Token(KindOf(req));
    if !connected {
      token.SetError(ConnectionLost);
    }
  }

  /** The allocator, or the error if no identifier is free. */
  method TakeIdStep(st: State, objs: seq<Token>, ghost c: Client, r: nat)
    requires Shown(st, objs, c) && c.call.Checked? && TakesId(c.call.req) && r == c.call.token < |objs|
    modifies st.packetIds, objs[r]
    ensures Shown(st, objs, CallNext(c, TakeId))
  {
    IssuedShown(st.packetIds.View(), objs, c.ids, r);
    var id := TakeIdCall(st, objs[r]);
    if id == 0 {
      assert WithIssued(c.ids, r) == c.ids;
      FailStep(st, objs, c, r, PacketIdError);
    }
  }

  method TakeIdCall(st: State, token: Token) returns (id: U16)
    requires st.Valid()
    modifies st.packetIds
    ensures st.Valid() && st.Trie() == old(st.Trie())
    ensures id == NextId(old(st.packetIds.View()))
    ensures st.packetIds.View() == WithIssued(old(st.packetIds.View()), token)
  {
    ghost var probed;
    id, probed := st.packetIds.GetId(token);
  }

  // The four ways in which calls and the writer change a token.

  lemma OneFace(before: seq<Face>, after: seq<Face>, ts: seq<TokenState>, us: seq<TokenState>, r: nat)
    requires before == FacesFor(ts) && r < |ts| == |us|
    requires after == before[r := FaceFor(us[r])]
    requires forall q :: 0 <= q < |ts| && q != r ==> us[q] == ts[q]
    ensures after == FacesFor(us)
  {
  }

  lemma ShownFace(st: State, objs: seq<Token>, c: Client, r: nat)
    requires Shown(st, objs, c) && r < |objs|
    ensures |objs| == |c.tokens| && FaceOf(objs[r]) == FaceFor(c.tokens[r])
  {
    assert Faces(objs)[r] == FacesFor(c.tokens)[r];
  }

  lemma OthersAsBefore(objs: seq<Token>, before: seq<Face>, r: nat)
    requires Distinct(objs) && r < |objs| == |before|
    requires forall q :: 0 <= q < |objs| && q != r ==> FaceOf(objs[q]) == before[q]
    ensures Faces(objs) == before[r := FaceOf(objs[r])]
  {
  }

  method FailCall(objs: seq<Token>, r: nat, e: TokenError)
    requires Distinct(objs) && r < |objs|
    modifies objs[r]
    ensures Faces(objs) == old(Faces(objs))[r := old(FaceOf(objs[r])).(complete := true, error := Some(e))]
  {
    ghost var before := Faces(objs);
    objs[r].SetError(e);
    OthersAsBefore(objs, before, r);
  }

  method FinishCall(objs: seq<Token>, r: nat)
    requires Distinct(objs) && r < |objs|
    modifies objs[r]
    ensures Faces(objs) == old(Faces(objs))[r := old(FaceOf(objs[r])).(complete := true)]
  {
    ghost var before := Faces(objs);
    objs[r].FlowComplete();
    OthersAsBefore(objs, before, r);
  }

  method AddSubsCall(objs: seq<Token>, r: nat, subs: seq<Subscription>)
    requires Distinct(objs) && r < |objs|
    modifies objs[r]
    ensures var f := old(FaceOf(objs[r])); Faces(objs) == old(Faces(objs))[r := f.(subs := f.subs + subs)]
  {
    ghost var before := Faces(objs);
    objs[r].AddSubscriptions(subs);
    OthersAsBefore(objs, before, r);
  }

  method AddTopicCall(objs: seq<Token>, r: nat, topic: string)
    requires Distinct(objs) && r < |objs|
    modifies objs[r]
    ensures var f := old(FaceOf(objs[r])); Faces(objs) == old(Faces(objs))[r := f.(topics := f.topics + [topic])]
  {
    ghost var before := Faces(objs);
    objs[r].AddTopic(topic);
    OthersAsBefore(objs, before, r);
  }

  /** `set_error`, by a call or by the writer. */
  method FailStep(st: State, objs: seq<Token>, ghost c: Client, r: nat, e: TokenError)
    requires Shown(st, objs, c) && r < |objs|
    modifies objs[r]
    ensures Shown(st, objs, c.(tokens := Fail(c.tokens, r, e)))
  {
    ShownFace(st, objs, c, r);
    ghost var before := Faces(objs);
    FailCall(objs, r, e);
    OneFace(before, Faces(objs), c.tokens, Fail(c.tokens, r, e), r);
  }

  /** `flow_complete`, by the writer. */
  method FinishStep(st: State, objs: seq<Token>, ghost c: Client, r: nat)
    requires Shown(st, objs, c) && r < |objs|
    modifies objs[r]
    ensures Shown(st, objs, c.(tokens := Finish(c.tokens, r)))
  {
    ShownFace(st, objs, c, r);
    ghost var before := Faces(objs);
    FinishCall(objs, r);
    OneFace(before, Faces(objs), c.tokens, Finish(c.tokens, r), r);
  }

  /** `add_subscriptions` after sending. */
  method AddSubsStep(st: State, objs: seq<Token>, ghost c: Client, r: nat, subs: seq<Subscription>)
    requires Shown(st, objs, c) && c.call.Queued? && r == c.call.token < |objs| && subs == c.call.subs
    modifies objs[r]
    ensures Shown(st, objs, CallNext(c, AddSubs))
  {
    ShownFace(st, objs, c, r);
    ghost var before := Faces(objs);
    AddSubsCall(objs, r, subs);
    OneFace(before, Faces(objs), c.tokens, CallNext(c, AddSubs).tokens, r);
  }

  /** `add_topic` before sending. */
  method AddTopicStep(st: State, objs: seq<Token>, ghost c: Client, r: nat, topic: string)
    requires Shown(st, objs, c) && CallEnabled(c, AddTopic) && r == c.call.token < |objs|
    requires topic == c.call.req.topics[c.call.added]
    modifies objs[r]
    ensures Shown(st, objs, CallNext(c, AddTopic))
  {
    ShownFace(st, objs, c, r);
    ghost var before := Faces(objs);
    AddTopicCall(objs, r, topic);
    OneFace(before, Faces(objs), c.tokens, CallNext(c, AddTopic).tokens, r);
  }

  /** `block` clears the trie. */
  method ClearStep(st: State, objs: seq<Token>, ghost c: Client)
    requires Shown(st, objs, c) && c.call.Idle?
    modifies st.topicManager.Repr()
    ensures Shown(st, objs, ConnectNext(c, BlockClear))
  {
    st.topicManager.Clear();
  }

  // ----- Every step -----

  ghost predicate SameData(c: Client, d: Client) {
    d.tokens == c.tokens && d.ids == c.ids && d.trie == c.trie && d.subs == c.subs
  }

  /** What the heap does at a step; the other steps move the status, the call in progress, the
      tasks and the channel alone. */
  ghost function ByHeap(c: Client, a: Action): Client
    requires Enabled(c, a)
  {
    match a
    case OfCall(RejectTopic) => c.(tokens := Fail(c.tokens, c.call.token, InvalidTopic))
    case OfCall(Send) => if c.writer then c else c.(tokens := Fail(c.tokens, c.call.token, InternalServerError))
    case OfCall(TakeId) => if TakesId(c.call.req) then Next(c, a) else c
    case OfCall(_) => Next(c, a)
    case OfConnect(BlockCleanUp) => CleanedUp(c)
    case OfConnect(BlockClear) => Next(c, a)
    case OfConnect(_) => c
    case OfSession(WriteOk) => c.(tokens := WrittenOut(c.tokens, c.outgoing[0]))
    case OfSession(WriteFail) => c.(tokens := Fail(c.tokens, c.outgoing[0], IOError))
    case OfSession(SessionEnd) => CleanedUp(c)
    case OfSession(ReaderStop) => c
    case OfSession(WriterStop) => c
    case OfSession(_) => Next(c, a)
  }

  lemma StepByHeap(c: Client, a: Action)
    requires Enabled(c, a)
    ensures SameData(ByHeap(c, a), Next(c, a))
  {
    match a
    case OfCall(s) => CallByHeap(c, s);
    case OfConnect(s) => ConnectByHeap(c, s);
    case OfSession(s) => SessionByHeap(c, s);
  }

  lemma CallByHeap(c: Client, s: CallStep)
    requires CallEnabled(c, s)
    ensures SameData(ByHeap(c, OfCall(s)), CallNext(c, s))
  {
    match s
    case TakeId => if !TakesId(c.call.req) {} else {}
    case Send => if c.writer {} else {}
    case _ =>
  }

  lemma ConnectByHeap(c: Client, s: ConnectStep)
    requires ConnectEnabled(c, s)
    ensures SameData(ByHeap(c, OfConnect(s)), ConnectNext(c, s))
  {
    match s
    case BlockCleanUp =>
    case BlockClear =>
    case _ => ConnectFrame(c, s);
  }

  lemma SessionByHeap(c: Client, s: SessionStep)
    requires SessionEnabled(c, s)
    ensures SameData(ByHeap(c, OfSession(s)), SessionNext(c, s))
  {
  }

  /** So after the methods above the heap shows the client after the step. */
  lemma ShownByHeap(st: State, objs: seq<Token>, c: Client, a: Action)
    requires Enabled(c, a) && Shown(st, objs, ByHeap(c, a))
    ensures Shown(st, objs, Next(c, a))
  {
    StepByHeap(c, a);
  }
}
