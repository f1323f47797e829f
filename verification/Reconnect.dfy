/** The retry counter of `block` (`src/client.rs`). */
module Reconnect {
  import opened Topics
  import opened Session

  /** What wakes the loop: the retry interval, with the connection status and the manual
      disconnect flag it finds, or a notification, with the outcome of the reconnect it makes. */
  datatype Wake = Slept(status: Status, manual: bool) | Notified(connected: bool)

  /** Why the loop is left; `Running` when it waits for the next event. */
  datatype Exit = Running | RetryLimit | NoReconnect

  /** Failed attempts since the last success, or since the loop was entered. */
  function Failures(events: seq<Wake>): nat {
    if events == [] then 0
    else
      var most, last := events[..|events| - 1], events[|events| - 1];
      match last
      case Slept(_, _) => Failures(most)
      case Notified(connected) => if connected then 0 else Failures(most) + 1
  }

  predicate Succeeds(e: Wake) {
    e.Notified? && e.connected
  }

  predicate Fails(e: Wake) {
    e.Notified? && !e.connected
  }

  /** The events from `cut` on are those since the last success, or since the loop was entered. */
  ghost predicate SinceLastSuccess(events: seq<Wake>, cut: nat) {
    && cut <= |events|
    && (cut > 0 ==> Succeeds(events[cut - 1]))
    && forall i :: cut <= i < |events| ==> !Succeeds(events[i])
  }

  ghost function FailedFrom(events: seq<Wake>, cut: nat): set<nat> {
    set i: nat | cut <= i < |events| && Fails(events[i])
  }

  lemma FailedAppend(events: seq<Wake>, e: Wake, cut: nat)
    requires cut <= |events|
    ensures FailedFrom(events + [e], cut)
         == if Fails(e) then FailedFrom(events, cut) + {|events|} else FailedFrom(events, cut)
  {
    assert forall i :: 0 <= i < |events| ==> (events + [e])[i] == events[i];
  }

  lemma CutStays(events: seq<Wake>, e: Wake, cut: nat)
    requires SinceLastSuccess(events, cut) && !Succeeds(e)
    ensures SinceLastSuccess(events + [e], cut)
  {
  }

  /** The counter is the number of failed attempts since the last success. */
  lemma {:induction false} FailuresIsCount(events: seq<Wake>) returns (cut: nat)
    ensures SinceLastSuccess(events, cut) && Failures(events) == |FailedFrom(events, cut)|
  {
    if events == [] {
      cut := 0;
      assert FailedFrom(events, 0) == {};
    } else {
      var most, last := events[..|events| - 1], events[|events| - 1];
      if Succeeds(last) {
        cut := |events|;
        assert FailedFrom(events, cut) == {};
      } else {
        cut := FailuresIsCount(most);
        assert events == most + [last];
        CutStays(most, last, cut);
        FailedAppend(most, last, cut);
        assert |most| !in FailedFrom(most, cut);
      }
    }
  }

  /** There is only one such cut. */
  lemma LastSuccessUnique(events: seq<Wake>, a: nat, b: nat)
    requires SinceLastSuccess(events, a) && SinceLastSuccess(events, b)
    ensures a == b
  {
    assert a > 0 ==> Succeeds(events[a - 1]);
    assert b > 0 ==> Succeeds(events[b - 1]);
  }

  predicate LimitReached(max: Option<nat>, events: seq<Wake>) {
    max.Some? && Failures(events) >= max.value
  }

  /** A disconnect that nobody asked for. */
  predicate Dropped(e: Wake) {
    e == Slept(Disconnected, false)
  }

  /** How often the loop asked itself to reconnect: at every such disconnect that it found. */
  ghost function DroppedUpTo(events: seq<Wake>, n: nat): set<nat> {
    set i: nat | i < |events| && i < n && Dropped(events[i])
  }

  /** The loop is left at the first moment the limit is reached, or when it finds a disconnect
      that nobody asked for and automatic reconnecting is switched off, and only then: `n` events
      have been handled, and `asked` notifications made. */
  method Block(max: Option<nat>, autoReconnect: bool, events: seq<Wake>)
    returns (exit: Exit, n: nat, cnt: nat, asked: nat)
    requires max.Some? ==> max.value <= 65535
    ensures n <= |events|
    ensures cnt == Failures(events[..n]) % 0x1_0000
    ensures max.Some? ==> cnt == Failures(events[..n]) <= max.value
    ensures forall k :: 0 <= k < n ==> !LimitReached(max, events[..k])
    ensures !autoReconnect ==> forall k :: 0 <= k < n - 1 ==> events[k] != Slept(Disconnected, false)
    ensures exit == NoReconnect <==> !autoReconnect && n > 0 && events[n - 1] == Slept(Disconnected, false)
    ensures exit == RetryLimit <==> exit != NoReconnect && LimitReached(max, events[..n])
    ensures exit == Running ==> n == |events|
    ensures asked == if autoReconnect then |DroppedUpTo(events, n)| else 0
  {
    cnt, n, asked := 0, 0, 0;
    assert DroppedUpTo(events, 0) == {};
    while true
      invariant n <= |events|
      invariant cnt == Failures(events[..n]) % 0x1_0000
      invariant max.Some? ==> cnt == Failures(events[..n]) <= max.value
      invariant forall k :: 0 <= k < n ==> !LimitReached(max, events[..k])
      invariant !autoReconnect ==> forall k :: 0 <= k < n ==> events[k] != Slept(Disconnected, false)
      invariant asked == if autoReconnect then |DroppedUpTo(events, n)| else 0
      decreases |events| - n
    {
      if max.Some? && cnt >= max.value {
        return RetryLimit, n, cnt, asked;
      }
      if n == |events| {
        return Running, n, cnt, asked;
      }
      assert events[..n + 1][..n] == events[..n];
      DroppedNext(events, n);
      var event := events[n];
      n := n + 1;
      match event
      case Slept(status, manual) =>
        if status.Disconnected? && !manual {
          if autoReconnect {
            asked := asked + 1;
          } else {
            return NoReconnect, n, cnt, asked;
          }
        }
      case Notified(connected) =>
        cnt := (cnt + 1) % 0x1_0000;
        if connected {
          cnt := 0;
        }
    }
  }

  lemma DroppedNext(events: seq<Wake>, n: nat)
    requires n < |events|
    ensures |DroppedUpTo(events, n + 1)| == |DroppedUpTo(events, n)| + if Dropped(events[n]) then 1 else 0
  {
    assert DroppedUpTo(events, n + 1)
        == if Dropped(events[n]) then DroppedUpTo(events, n) + {n} else DroppedUpTo(events, n);
  }
}
