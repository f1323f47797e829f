/** Completion tokens (`src/token/mod.rs`): a locked record shared by all clones of a token. */
module Tokens {
  import opened Topics

  datatype TokenError =
    | IOError | ConnectFailed | ConnectionLost | Reconnecting | InvalidTopic
    | PacketIdError | InternalServerError | PacketError

  type Waker = nat

  datatype Poll = Ready(error: Option<TokenError>) | Pending

  datatype Record = Record(complete: bool, error: Option<TokenError>, waker: Option<Waker>) {
    function SetError(e: TokenError): Record {
      Record(true, Some(e), None)
    }

    function FlowComplete(): Record {
      Record(true, error, None)
    }

    /** The waker that completing the token wakes. */
    function Woken(): seq<Waker> {
      if waker.Some? then [waker.value] else []
    }
  }

  const FRESH := Record(false, None, None)

  datatype Kind = Publish | Subscribe | Unsubscribe | Disconnect

  datatype SubAck = SubAck(qos: Qos) | Failure

  /** One token object. `woken` lists the wakers woken so far, oldest first. */
  class Token {
    const kind: Kind
    var complete: bool
    var error: Option<TokenError>
    var waker: Option<Waker>
    var woken: seq<Waker>

    // The fields of the subscribe and unsubscribe tokens.
    var subscriptions: seq<Subscription>
    var results: map<string, SubAck>
    var topics: seq<string>

    constructor (kind: Kind)
      ensures this.kind == kind && View() == FRESH && woken == []
      ensures subscriptions == [] && results == map[] && topics == []
    {
      this.kind := kind;
      complete, error, waker, woken := false, None, None, [];
      subscriptions, results, topics := [], map[], [];
    }

    function View(): Record
      reads this
    {
      Record(complete, error, waker)
    }

    method Poll(w: Waker) returns (r: Poll)
      modifies this`waker
      ensures r == (if old(complete) then Ready(old(error)) else Pending)
      ensures waker == (if old(complete) then old(waker) else Some(w))
    {
      if complete {
        r := Ready(error);
      } else {
        waker := Some(w);
        r := Pending;
      }
    }

    method SetError(e: TokenError)
      modifies this`complete, this`error, this`waker, this`woken
      ensures View() == old(View()).SetError(e)
      ensures woken == old(woken) + old(View().Woken())
    {
      error := Some(e);
      complete := true;
      Wake();
    }

    method FlowComplete()
      modifies this`complete, this`waker, this`woken
      ensures View() == old(View()).FlowComplete()
      ensures woken == old(woken) + old(View().Woken())
    {
      complete := true;
      Wake();
    }

    method Wake()
      modifies this`waker, this`woken
      ensures waker == None && woken == old(woken) + old(View().Woken())
    {
      if waker.Some? {
        woken := woken + [waker.value];
        waker := None;
      }
    }

    // ----- SubscribeToken and UnsubscribeToken -----

    method AddSubscriptions(subs: seq<Subscription>)
      modifies this`subscriptions
      ensures subscriptions == old(subscriptions) + subs
    {
      subscriptions := subscriptions + subs;
    }

    function GetSubscription(index: nat): Option<Subscription>
      reads this
    {
      if index < |subscriptions| then Some(subscriptions[index]) else None
    }

    method SetResult(index: nat, result: SubAck)
      modifies this`results
      ensures results == if index < |subscriptions| then old(results)[subscriptions[index].topic := result]
                         else old(results)
    {
      if index < |subscriptions| {
        results := results[subscriptions[index].topic := result];
      }
    }

    method AddTopic(topic: string)
      modifies this`topics
      ensures topics == old(topics) + [topic]
    {
      topics := topics + [topic];
    }
  }

  // ----- Runs of one shared token -----

  datatype Event = DoPoll(w: Waker) | DoSetError(e: TokenError) | DoFlowComplete

  datatype Shared = Shared(record: Record, woken: seq<Waker>)

  function Step(s: Shared, e: Event): Shared {
    match e
    case DoPoll(w) =>
      if s.record.complete then s else s.(record := s.record.(waker := Some(w)))
    case DoSetError(err) =>
      Shared(s.record.SetError(err), s.woken + s.record.Woken())
    case DoFlowComplete =>
      Shared(s.record.FlowComplete(), s.woken + s.record.Woken())
  }

  function Run(events: seq<Event>): Shared {
    if events == [] then Shared(FRESH, [])
    else Step(Run(events[..|events| - 1]), events[|events| - 1])
  }

  /** The wakers of the polls that were answered Pending, oldest first. */
  function Waiting(events: seq<Event>): seq<Waker> {
    if events == [] then []
    else
      var most, last := events[..|events| - 1], events[|events| - 1];
      Waiting(most) + if last.DoPoll? && !Run(most).record.complete then [last.w] else []
  }

  function Last<T>(s: seq<T>): seq<T> {
    if s == [] then [] else [s[|s| - 1]]
  }

  /** In every run: while the token is incomplete its waker is that of the last pending poll
      and none has been woken; once complete it stores no waker, and exactly the waker of the
      last pending poll has been woken, once. */
  lemma {:induction false} NoLostWakeUp(events: seq<Event>)
    ensures var s := Run(events);
            if s.record.complete then s.record.waker == None && s.woken == Last(Waiting(events))
            else s.woken == [] && s.record.Woken() == Last(Waiting(events))
  {
    if events != [] {
      var most := events[..|events| - 1];
      NoLostWakeUp(most);
    }
  }

  lemma {:induction false} CompletionIsPermanent(events: seq<Event>, n: nat)
    requires n <= |events| && Run(events[..n]).record.complete
    ensures Run(events).record.complete
    ensures Waiting(events) == Waiting(events[..n])
  {
    if n < |events| {
      var most := events[..|events| - 1];
      assert most[..n] == events[..n];
      CompletionIsPermanent(most, n);
    } else {
      assert events[..n] == events;
    }
  }

  /** Event `k` is the last `set_error`. */
  ghost predicate LastError(events: seq<Event>, k: nat) {
    && k < |events| && events[k].DoSetError?
    && forall j :: k < j < |events| ==> !events[j].DoSetError?
  }

  /** In every run the outcome is the error of the last `set_error`, if there was one. */
  lemma {:induction false} OutcomeIsLastError(events: seq<Event>)
    ensures forall k: nat :: LastError(events, k) ==> Run(events).record.error == Some(events[k].e)
    ensures Run(events).record.error == None <==> forall k: nat :: k < |events| ==> !events[k].DoSetError?
    ensures Run(events).record.error.Some? ==> exists k: nat :: LastError(events, k)
  {
    if events != [] {
      var n := |events| - 1;
      var most := events[..n];
      OutcomeIsLastError(most);
      if events[n].DoSetError? {
        assert LastError(events, n);
      } else {
        forall k: nat ensures LastError(events, k) <==> LastError(most, k) {
        }
        if k: nat :| LastError(most, k) {
          assert LastError(events, k);
        }
      }
    }
  }

  /** What a later poll of a complete token reports differs from what was reported after `n`
      events exactly when the last `set_error` came since then, with another error. */
  lemma OutcomeChangesIff(events: seq<Event>, n: nat)
    requires n <= |events| && Run(events[..n]).record.complete
    ensures Run(events).record.error != Run(events[..n]).record.error
       <==> exists k: nat :: k >= n && LastError(events, k) && Some(events[k].e) != Run(events[..n]).record.error
  {
    OutcomeIsLastError(events);
    OutcomeIsLastError(events[..n]);
    forall k: nat | LastError(events, k) && k < n ensures LastError(events[..n], k) {
    }
    assert forall k :: 0 <= k < n ==> events[..n][k] == events[k];
  }

  /** Two tasks awaiting clones of one token: the first is never woken. */
  lemma TwoAwaitersLoseOne(a: Waker, b: Waker)
    requires a != b
    ensures var events := [DoPoll(a), DoPoll(b), DoFlowComplete];
            Run(events).record.complete && a in Waiting(events) && a !in Run(events).woken
  {
    var e3 := [DoPoll(a), DoPoll(b), DoFlowComplete];
    var e2 := e3[..2];
    assert e2 == [DoPoll(a), DoPoll(b)] && e2[..1] == [DoPoll(a)] && e2[..1][..0] == [];
    NoLostWakeUp(e3);
    assert Run(e2[..1]) == Step(Run([]), DoPoll(a));
    assert Run(e2) == Step(Run(e2[..1]), DoPoll(b));
    assert Run(e3) == Step(Run(e2), DoFlowComplete);
    assert Waiting(e2[..1]) == Waiting([]) + [a];
    assert Waiting(e2) == Waiting(e2[..1]) + [b];
  }

  /** Every pending poll's waker is woken when the token completes, if and only if all
      pending polls carry the same waker. */
  lemma AllWokenIff(events: seq<Event>)
    requires Run(events).record.complete
    ensures (forall w :: w in Waiting(events) ==> w in Run(events).woken)
       <==> (forall i, j :: 0 <= i < |Waiting(events)| && 0 <= j < |Waiting(events)| ==>
               Waiting(events)[i] == Waiting(events)[j])
  {
    NoLostWakeUp(events);
    var ws := Waiting(events);
    if forall w :: w in ws ==> w in Run(events).woken {
      forall i | 0 <= i < |ws| ensures ws[i] == ws[|ws| - 1] {
        assert ws[i] in Run(events).woken;
      }
    }
  }
}
