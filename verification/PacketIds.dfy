/** The packet identifier allocator (`src/pkid.rs`). */
module PacketIds {
  import opened Topics
  import opened Tokens

  const PKID_MAX: nat := 65535
  const PKID_MIN: nat := 1

  /** A 16-bit identifier. */
  type U16 = n: nat | n <= PKID_MAX

  /** The table as a value: which token holds which identifier, and the cursor. */
  datatype Ids<T> = Ids(index: map<U16, T>, cursor: U16)

  /** The identifier probed `k` steps after the cursor: 1..65535, cyclically. */
  function ProbeAt(cursor: U16, k: nat): U16
    requires 1 <= k <= PKID_MAX
  {
    if cursor + k <= PKID_MAX then cursor + k else cursor + k - PKID_MAX
  }

  function FirstFree<T>(index: map<U16, T>, cursor: U16, k: nat): U16
    requires 1 <= k <= PKID_MAX + 1
    decreases PKID_MAX + 1 - k
  {
    if k > PKID_MAX then 0
    else if ProbeAt(cursor, k) !in index then ProbeAt(cursor, k)
    else FirstFree(index, cursor, k + 1)
  }

  /** The identifier that `get_id` returns; 0 if there is none. */
  function NextId<T>(s: Ids<T>): U16 {
    FirstFree(s.index, s.cursor, 1)
  }

  function WithIssued<T>(s: Ids<T>, token: T): Ids<T> {
    var id := NextId(s);
    if id == 0 then s else Ids(s.index[id := token], id)
  }

  function WithFreed<T>(s: Ids<T>, id: U16): Ids<T> {
    s.(index := s.index - {id})
  }

  function Emptied<T>(s: Ids<T>): Ids<T> {
    s.(index := map[])
  }

  // ----- What the probe finds -----

  /** Steps from the cursor to `id`, going round. */
  function Distance(cursor: U16, id: U16): nat {
    if id > cursor then id - cursor else id + PKID_MAX - cursor
  }

  lemma ProbeDistance(cursor: U16, k: nat)
    requires 1 <= k <= PKID_MAX
    ensures 1 <= ProbeAt(cursor, k) && Distance(cursor, ProbeAt(cursor, k)) == k
  {
  }

  lemma DistanceProbe(cursor: U16, id: U16)
    requires id >= 1
    ensures 1 <= Distance(cursor, id) <= PKID_MAX && ProbeAt(cursor, Distance(cursor, id)) == id
  {
  }

  /** The identifiers after the cursor, in cyclic order, for at most one turn. */
  ghost predicate Probes(probed: seq<U16>, cursor: U16) {
    |probed| <= PKID_MAX && forall j :: 0 <= j < |probed| ==> probed[j] == ProbeAt(cursor, j + 1)
  }

  /** The variables of the probing loop after `k` probes. */
  ghost predicate Probing(cursor: U16, k: nat, i: U16, looped: bool) {
    && k <= PKID_MAX && (looped <==> cursor + k > PKID_MAX)
    && i == if k == 0 then cursor else ProbeAt(cursor, k)
  }

  /** One more increment, wrapping from 65535 to 0 and skipping 0; the exit test of the loop
      succeeds exactly when the turn is complete. */
  lemma ProbeNext(cursor: U16, k: nat, i: U16, looped: bool)
    requires k < PKID_MAX && Probing(cursor, k, i, looped)
    ensures var j := (i + 1) % (PKID_MAX + 1);
            var next, turned := if j == 0 then 1 else j, looped || j == 0;
            && Probing(cursor, k + 1, next, turned) && next == ProbeAt(cursor, k + 1)
            && ((turned && next == cursor) || (cursor == 0 && next == PKID_MAX) <==> k + 1 == PKID_MAX)
  {
  }

  /** Within one turn no identifier is probed twice. */
  lemma ProbesDistinct(cursor: U16, j: nat, k: nat)
    requires 1 <= j < k <= PKID_MAX
    ensures ProbeAt(cursor, j) != ProbeAt(cursor, k)
  {
    ProbeDistance(cursor, j);
    ProbeDistance(cursor, k);
  }

  /** All identifiers met from step `k` up to the distance of `id` are held. */
  ghost predicate HeldBetween<T>(index: map<U16, T>, cursor: U16, k: nat, id: U16) {
    forall y: U16 :: y >= 1 && k <= Distance(cursor, y) < Distance(cursor, id) ==> y in index
  }

  lemma {:induction false} FirstFreeFrom<T>(index: map<U16, T>, cursor: U16, k: nat)
    requires 1 <= k <= PKID_MAX + 1
    ensures var id := FirstFree(index, cursor, k);
            && (id == 0 ==> forall y: U16 :: y >= 1 && Distance(cursor, y) >= k ==> y in index)
            && (id != 0 ==> id !in index && Distance(cursor, id) >= k && HeldBetween(index, cursor, k, id))
    decreases PKID_MAX + 1 - k
  {
    if k <= PKID_MAX {
      ProbeDistance(cursor, k);
      if ProbeAt(cursor, k) in index {
        FirstFreeFrom(index, cursor, k + 1);
        forall y: U16 | y >= 1 && Distance(cursor, y) == k ensures y in index {
          DistanceProbe(cursor, y);
        }
      }
    } else {
      forall y: U16 | y >= 1 ensures Distance(cursor, y) < k {
        DistanceProbe(cursor, y);
      }
    }
  }

  /** The allocator returns the first vacant identifier in cyclic order after the cursor, and
      0 exactly when all 65535 are held; in that case nothing changes. */
  lemma NextIdIsFirstVacant<T>(s: Ids<T>, token: T)
    ensures NextId(s) == 0 <==> forall y: U16 :: y >= 1 ==> y in s.index
    ensures NextId(s) == 0 ==> WithIssued(s, token) == s
    ensures NextId(s) != 0 ==> NextId(s) !in s.index && HeldBetween(s.index, s.cursor, 1, NextId(s))
  {
    FirstFreeFrom(s.index, s.cursor, 1);
    if NextId(s) == 0 {
      forall y: U16 | y >= 1 ensures y in s.index {
        DistanceProbe(s.cursor, y);
      }
    }
  }

  /** Which identifier is free does not depend on what holds the others. */
  lemma {:induction false} FirstFreeAlike<A, B>(s: map<U16, A>, t: map<U16, B>, cursor: U16, k: nat)
    requires s.Keys == t.Keys && 1 <= k <= PKID_MAX + 1
    ensures FirstFree(s, cursor, k) == FirstFree(t, cursor, k)
    decreases PKID_MAX + 1 - k
  {
    if k <= PKID_MAX {
      assert ProbeAt(cursor, k) in s.Keys <==> ProbeAt(cursor, k) in t.Keys;
      FirstFreeAlike(s, t, cursor, k + 1);
    }
  }

  predicate AllHeld<T>(index: map<U16, T>) {
    forall y: U16 :: y >= 1 ==> y in index
  }

  lemma NoneFree<T>(s: Ids<T>)
    ensures NextId(s) == 0 <==> AllHeld(s.index)
  {
    if id :| id in s.index {
      NextIdIsFirstVacant(s, s.index[id]);
    } else {
      assert 1 !in s.index && NextId(s) == ProbeAt(s.cursor, 1);
    }
  }

  // ----- The table object -----

  class PacketIdTable {
    var index: map<U16, Token>
    var lastIssuedId: U16

    function View(): Ids<Token>
      reads this
    {
      Ids(index, lastIssuedId)
    }

    constructor ()
      ensures View() == Ids(map[], PKID_MIN)
    {
      index, lastIssuedId := map[], PKID_MIN;
    }

    method ClaimId(token: Token, id: U16)
      modifies this, if id in index then {index[id]} else {}
      ensures index == old(index)[id := token]
      ensures lastIssuedId == if id > old(lastIssuedId) then id else old(lastIssuedId)
      ensures id in old(index) ==> old(index)[id].View() == old(index[id].View()).FlowComplete()
    {
      if id !in index {
        index := index[id := token];
      } else {
        var previous := index[id];
        previous.FlowComplete();
        index := index[id := token];
      }
      if id > lastIssuedId {
        lastIssuedId := id;
      }
    }

    /** The 16-bit counter wraps from 65535 to 0, and 0 is skipped. */
    method GetId(token: Token) returns (id: U16, ghost probed: seq<U16>)
      modifies this
      ensures Probes(probed, old(lastIssuedId))
      ensures id == NextId(old(View()))
      ensures View() == WithIssued(old(View()), token)
    {
      var i: U16 := lastIssuedId;
      var looped := false;
      probed := [];
      ghost var held, cursor, k := index, lastIssuedId, 0;
      while true
        invariant 0 <= k < PKID_MAX && index == held && lastIssuedId == cursor
        invariant Probes(probed, cursor) && |probed| == k && Probing(cursor, k, i, looped)
        invariant FirstFree(held, cursor, 1) == FirstFree(held, cursor, k + 1)
        decreases PKID_MAX - k
      {
        ProbeNext(cursor, k, i, looped);
        i := (i + 1) % (PKID_MAX + 1);
        if i == 0 {
          i := i + 1;
          looped := true;
        }
        k, probed := k + 1, probed + [i];
        if i !in index {
          index := index[i := token];
          lastIssuedId := i;
          return i, probed;
        }
        if (looped && i == lastIssuedId) || (lastIssuedId == 0 && i == PKID_MAX) {
          return 0, probed;
        }
      }
    }

    function GetToken(id: U16): Option<Token>
      reads this
    {
      if id in index then Some(index[id]) else None
    }

    method FreeId(id: U16)
      modifies this
      ensures View() == WithFreed(old(View()), id)
    {
      index := index - {id};
    }

    /** Fails every waiting token, then forgets all of them. */
    method CleanUp()
      modifies this, index.Values`complete, index.Values`error, index.Values`waker, index.Values`woken
      ensures View() == Emptied(old(View()))
      ensures forall t :: t in old(index.Values) ==>
                t.complete && t.error == Some(ConnectionLost) && t.waker == None
      ensures forall t :: t in old(index.Values) ==>
                t.subscriptions == old(t.subscriptions) && t.results == old(t.results) && t.topics == old(t.topics)
    {
      var ids := index.Keys;
      while ids != {}
        invariant ids <= index.Keys && View() == old(View())
        invariant forall id :: id in index && id !in ids ==>
                    index[id].complete && index[id].error == Some(ConnectionLost) && index[id].waker == None
        invariant forall t :: t in index.Values ==>
                    t.subscriptions == old(t.subscriptions) && t.results == old(t.results) && t.topics == old(t.topics)
      {
        var id :| id in ids;
        index[id].SetError(ConnectionLost);
        ids := ids - {id};
      }
      index := map[];
    }
  }

  // ----- Delayed reuse over whole runs -----

  datatype Op<T> = Issue(token: T) | Free(id: U16) | Clean

  function Apply<T>(s: Ids<T>, op: Op<T>): Ids<T> {
    match op
    case Issue(t) => WithIssued(s, t)
    case Free(id) => WithFreed(s, id)
    case Clean => Emptied(s)
  }

  function Run<T>(s: Ids<T>, ops: seq<Op<T>>): Ids<T> {
    if ops == [] then s else Apply(Run(s, ops[..|ops| - 1]), ops[|ops| - 1])
  }

  /** The operation issues an identifier, and on its way there the probe meets `y`: it issues
      `y`, or passes it because it is held. */
  ghost predicate Meets<T>(s: Ids<T>, op: Op<T>, y: U16) {
    && op.Issue? && NextId(s) != 0
    && (NextId(s) == y || (y in s.index && Distance(s.cursor, y) < Distance(s.cursor, NextId(s))))
  }

  ghost predicate Issues<T>(s: Ids<T>, op: Op<T>) {
    op.Issue? && NextId(s) != 0
  }

  /** An issue that does not meet `y` moves the cursor closer to `y`, without passing it. */
  lemma StepApproaches<T>(s: Ids<T>, op: Op<T>, y: U16)
    requires y >= 1 && !Meets(s, op, y)
    ensures if Issues(s, op) then Distance(Apply(s, op).cursor, y) < Distance(s.cursor, y)
            else Apply(s, op).cursor == s.cursor
  {
    if Issues(s, op) {
      NextIdIsFirstVacant(s, op.token);
      var id := NextId(s);
      DistanceProbe(s.cursor, id);
      DistanceProbe(s.cursor, y);
      assert Distance(s.cursor, y) >= Distance(s.cursor, id);
    }
  }

  /** A run that ends with the cursor farther from `y` than it was has met `y`. */
  lemma {:induction false} MetIfFarther<T>(s: Ids<T>, ops: seq<Op<T>>, y: U16) returns (n: nat)
    requires y >= 1 && Distance(Run(s, ops).cursor, y) > Distance(s.cursor, y)
    ensures n < |ops| && Meets(Run(s, ops[..n]), ops[n], y)
  {
    var m := |ops| - 1;
    if Meets(Run(s, ops[..m]), ops[m], y) {
      n := m;
    } else {
      StepApproaches(Run(s, ops[..m]), ops[m], y);
      n := MetIfFarther(s, ops[..m], y);
      assert ops[..m][..n] == ops[..n];
    }
  }

  /** Between two issues of the same identifier the probes meet every other identifier: each
      was issued, or found held, in between. */
  lemma DelayedReuse<T>(s: Ids<T>, first: T, ops: seq<Op<T>>, second: T, y: U16) returns (n: nat)
    requires y >= 1 && NextId(s) != 0 && y != NextId(s)
    requires NextId(Run(WithIssued(s, first), ops)) == NextId(s)
    ensures n <= |ops| && Meets(Run(WithIssued(s, first), ops[..n]), (ops + [Issue(second)])[n], y)
  {
    var a := WithIssued(s, first);
    var b := Run(a, ops);
    if Meets(b, Issue(second), y) {
      n := |ops|;
      assert ops[..n] == ops;
    } else {
      StepApproaches(b, Issue(second), y);
      n := MetIfFarther(a, ops, y);
    }
  }
}
