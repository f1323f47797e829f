/** Two ends of a WebSocket byte stream: a writer, a wire that delivers its frames in order until
    it is cut, and a reader. */
module WsPipe {
  import opened WsStream

  /** `accepted` are the buffers whose write was answered with their full length; `wire` the
      frames sent and not yet delivered. */
  datatype Pipe = Pipe(closed: bool, accepted: seq<Bytes>, wire: seq<Bytes>, cut: bool, reader: Trace)

  const START := Pipe(false, [], [], false, Trace([], Stream(Waiting, []), []))

  /** `Noise` is anything but a binary frame that the reader's inner stream yields: frames of
      other kinds, errors, terminators. */
  datatype PipeOp =
    | Write(buf: Bytes, sinkReady: Sink, sinkSend: Sink)
    | Flush(sink: Sink)
    | Shutdown(sink: Sink)
    | Deliver
    | Noise(event: Event)
    | Cut
    | Reader(op: Op)

  predicate Enabled(p: Pipe, a: PipeOp) {
    match a
    case Write(_, _, sinkSend) => sinkSend != SinkPending
    case Deliver => p.wire != []
    case Noise(e) => !e.Binary?
    case Reader(op) => !op.Arrive? && p.reader.stream.Valid()
    case _ => true
  }

  function Next(p: Pipe, a: PipeOp): Pipe
    requires Enabled(p, a) && p.reader.stream.Valid()
  {
    match a
    case Write(buf, sinkReady, sinkSend) =>
      var (answer, closed) := Written(p.closed, sinkReady, sinkSend, |buf|);
      p.(closed := closed,
         accepted := if answer == Ready(|buf|) then p.accepted + [buf] else p.accepted,
         wire := if Accepted(p.closed, sinkReady, sinkSend) && !p.cut then p.wire + [buf] else p.wire)
    case Flush(sink) => p.(closed := Flushed(p.closed, sink).1)
    case Shutdown(sink) => p.(closed := Flushed(true, sink).1)
    case Deliver => p.(wire := p.wire[1..], reader := Step(p.reader, Arrive([Binary(p.wire[0])])))
    case Noise(e) => p.(reader := Step(p.reader, Arrive([e])))
    case Cut => p.(wire := [], cut := true)
    case Reader(op) => p.(reader := Step(p.reader, op))
  }

  ghost predicate PipeFollows(run: seq<Pipe>, ops: seq<PipeOp>) {
    && |run| == |ops| + 1
    && forall i :: 0 <= i < |ops| ==>
         Enabled(run[i], ops[i]) && run[i].reader.stream.Valid() && run[i + 1] == Next(run[i], ops[i])
  }

  ghost predicate IsPipeRun(run: seq<Pipe>, ops: seq<PipeOp>) {
    PipeFollows(run, ops) && run[0] == START
  }

  /** Nothing has been lost: the wire is whole and the reader has seen no terminator. */
  ghost predicate Whole(p: Pipe) {
    !p.cut && !Ended(p.reader.arrived)
  }

  /** The frames that arrived hold a prefix of the bytes accepted, and as long as nothing is
      lost the wire holds the rest. Every frame is a buffer that was accepted. */
  ghost predicate Linked(frames: seq<Bytes>, wire: seq<Bytes>, accepted: seq<Bytes>, whole: bool) {
    && Concat(frames) <= Concat(accepted)
    && (whole ==> Concat(frames) + Concat(wire) == Concat(accepted))
    && (forall f :: f in wire ==> f in accepted)
    && (forall f :: f in frames ==> f in accepted)
  }

  ghost predicate LinkInv(p: Pipe) {
    && (p.cut ==> p.wire == [])
    && Linked(Frames(p.reader.arrived), p.wire, p.accepted, Whole(p))
  }

  ghost predicate Inv(p: Pipe) {
    Consistent(p.reader) && LinkInv(p)
  }

  lemma OneFrame(f: Bytes)
    ensures Concat([f]) == f
  {
    assert Concat([f]) == f + Concat([]);
  }

  lemma LinkedSend(frames: seq<Bytes>, wire: seq<Bytes>, accepted: seq<Bytes>, whole: bool, buf: Bytes)
    requires Linked(frames, wire, accepted, whole)
    ensures Linked(frames, wire + [buf], accepted + [buf], whole)
  {
    ConcatAppend(accepted, [buf]);
    ConcatAppend(wire, [buf]);
    OneFrame(buf);
    assert Concat(frames) + (Concat(wire) + buf) == (Concat(frames) + Concat(wire)) + buf;
  }

  /** A buffer that is accepted but not sent: the wire is cut, or the buffer is empty. */
  lemma LinkedAccept(frames: seq<Bytes>, wire: seq<Bytes>, accepted: seq<Bytes>, whole: bool, buf: Bytes)
    requires Linked(frames, wire, accepted, whole) && (!whole || buf == [])
    ensures Linked(frames, wire, accepted + [buf], whole)
  {
    ConcatAppend(accepted, [buf]);
    OneFrame(buf);
    assert Concat(accepted) + [] == Concat(accepted);
  }

  lemma LinkedDeliver(frames: seq<Bytes>, wire: seq<Bytes>, accepted: seq<Bytes>, buf: Bytes)
    requires Linked(frames, [buf] + wire, accepted, true)
    ensures Linked(frames + [buf], wire, accepted, true)
  {
    ConcatAppend(frames, [buf]);
    ConcatAppend([buf], wire);
    OneFrame(buf);
    assert Concat(frames) + (buf + Concat(wire)) == (Concat(frames) + buf) + Concat(wire);
    assert buf in [buf] + wire;
    assert forall f :: f in wire ==> f in [buf] + wire;
  }

  /** What has arrived stays a prefix when something is lost. */
  lemma LinkedLoss(frames: seq<Bytes>, wire: seq<Bytes>, accepted: seq<Bytes>, whole: bool, left: seq<Bytes>)
    requires Linked(frames, wire, accepted, whole) && forall f :: f in left ==> f in wire
    ensures Linked(frames, left, accepted, false)
  {
  }

  lemma WriteInv(p: Pipe, a: PipeOp)
    requires LinkInv(p) && a.Write? && Enabled(p, a) && p.reader.stream.Valid()
    ensures LinkInv(Next(p, a)) && Next(p, a).reader == p.reader
  {
    var frames := Frames(p.reader.arrived);
    if Accepted(p.closed, a.sinkReady, a.sinkSend) && !p.cut {
      LinkedSend(frames, p.wire, p.accepted, Whole(p), a.buf);
    } else if Written(p.closed, a.sinkReady, a.sinkSend, |a.buf|).0 == Ready(|a.buf|) {
      LinkedAccept(frames, p.wire, p.accepted, Whole(p), a.buf);
    }
  }

  /** How the frames grow when one event arrives. */
  lemma FramesGrow(arrived: seq<Event>, e: Event)
    ensures Frames(arrived + [e])
         == if !Ended(arrived) && e.Binary? then Frames(arrived) + [e.payload] else Frames(arrived)
    ensures Ended(arrived + [e]) <==> Ended(arrived) || Terminates(e)
  {
    OneEvent(e);
    EndedAppend(arrived, [e]);
    FramesAppend(arrived, [e]);
    assert Frames(arrived) + [] == Frames(arrived);
  }

  lemma DeliverLinked(p: Pipe, q: Pipe)
    requires LinkInv(p) && p.wire != []
    requires q.cut == p.cut && q.accepted == p.accepted && q.wire == p.wire[1..]
    requires q.reader.arrived == p.reader.arrived + [Binary(p.wire[0])]
    ensures LinkInv(q)
  {
    var buf, rest, frames := p.wire[0], p.wire[1..], Frames(p.reader.arrived);
    assert p.wire == [buf] + rest;
    FramesGrow(p.reader.arrived, Binary(buf));
    if Whole(p) {
      LinkedDeliver(frames, rest, p.accepted, buf);
    } else {
      LinkedLoss(frames, p.wire, p.accepted, false, rest);
    }
  }

  lemma NoiseLinked(p: Pipe, q: Pipe, e: Event)
    requires LinkInv(p) && !e.Binary?
    requires q.cut == p.cut && q.accepted == p.accepted && q.wire == p.wire
    requires q.reader.arrived == p.reader.arrived + [e]
    ensures LinkInv(q)
  {
    FramesGrow(p.reader.arrived, e);
    if Terminates(e) {
      LinkedLoss(Frames(p.reader.arrived), p.wire, p.accepted, Whole(p), p.wire);
    }
  }

  lemma CutLinked(p: Pipe, q: Pipe)
    requires LinkInv(p)
    requires q.cut && q.wire == [] && q.accepted == p.accepted && q.reader == p.reader
    ensures LinkInv(q)
  {
    LinkedLoss(Frames(p.reader.arrived), p.wire, p.accepted, Whole(p), []);
  }

  lemma ReadsArriveNothing(t: Trace, op: Op)
    requires t.stream.Valid() && !op.Arrive?
    ensures Step(t, op).arrived == t.arrived
  {
  }

  lemma StepLinked(p: Pipe, a: PipeOp)
    requires LinkInv(p) && p.reader.stream.Valid() && Enabled(p, a)
    ensures LinkInv(Next(p, a))
  {
    match a
    case Write(_, _, _) => WriteInv(p, a);
    case Flush(_) => assert Next(p, a).reader == p.reader && Next(p, a).wire == p.wire;
    case Shutdown(_) => assert Next(p, a).reader == p.reader && Next(p, a).wire == p.wire;
    case Deliver => DeliverLinked(p, Next(p, a));
    case Noise(e) => NoiseLinked(p, Next(p, a), e);
    case Cut => CutLinked(p, Next(p, a));
    case Reader(op) => ReadsArriveNothing(p.reader, op);
  }

  lemma StepReader(p: Pipe, a: PipeOp)
    requires Consistent(p.reader) && Enabled(p, a)
    ensures Consistent(Next(p, a).reader)
  {
    match a
    case Deliver => ArriveConsistent(p.reader, [Binary(p.wire[0])]);
    case Noise(e) => ArriveConsistent(p.reader, [e]);
    case Reader(op) => StepConsistent(p.reader, op);
    case _ => assert Next(p, a).reader == p.reader;
  }

  lemma StepInv(p: Pipe, a: PipeOp)
    requires Inv(p) && Enabled(p, a)
    ensures Inv(Next(p, a))
  {
    StepLinked(p, a);
    StepReader(p, a);
  }

  lemma {:induction false} FollowsInv(run: seq<Pipe>, ops: seq<PipeOp>, n: nat)
    requires PipeFollows(run, ops) && n < |run| && Inv(run[0])
    ensures Inv(run[n])
  {
    if n > 0 {
      FollowsInv(run, ops, n - 1);
      StepInv(run[n - 1], ops[n - 1]);
    }
  }

  lemma RunInv(run: seq<Pipe>, ops: seq<PipeOp>, n: nat)
    requires IsPipeRun(run, ops) && n < |run|
    ensures Inv(run[n])
  {
    assert Polled(START.reader) == [];
    FollowsInv(run, ops, n);
  }

  /** In every run of writes, deliveries, losses and reads: the bytes read are a prefix of the
      bytes accepted; and as long as nothing is lost the bytes read, the outstanding ones and
      those on the wire are the bytes accepted. */
  lemma RoundTrip(run: seq<Pipe>, ops: seq<PipeOp>, n: nat)
    requires IsPipeRun(run, ops) && n < |run|
    ensures run[n].reader.taken <= Concat(run[n].accepted)
    ensures Whole(run[n]) ==>
              run[n].reader.taken + Outstanding(run[n].reader.stream) + Concat(run[n].wire) == Concat(run[n].accepted)
  {
    RunInv(run, ops, n);
    ConsistentConserves(run[n].reader);
  }

  /** Once the stream is closed for writing it stays so, and no write is accepted. */
  lemma {:induction false} ClosedForever(run: seq<Pipe>, ops: seq<PipeOp>, m: nat, n: nat)
    requires PipeFollows(run, ops) && m <= n < |run| && run[m].closed
    ensures run[n].closed && run[n].accepted == run[m].accepted
  {
    if m < n {
      ClosedForever(run, ops, m, n - 1);
    }
  }

  /** The operation closes the stream for writing: a shutdown, or a write or flush for which the
      sink says that the connection is closed. */
  predicate Closes(p: Pipe, a: PipeOp) {
    match a
    case Shutdown(_) => true
    case Flush(sink) => sink == SinkConnectionClosed || sink == SinkAlreadyClosed
    case Write(_, sinkReady, sinkSend) =>
      !p.closed && (SinkSays(sinkReady, sinkSend, SinkConnectionClosed)
                    || SinkSays(sinkReady, sinkSend, SinkAlreadyClosed))
    case _ => false
  }

  /** In every run the stream is closed for writing exactly if such an operation was made. */
  lemma {:induction false} ClosedIff(run: seq<Pipe>, ops: seq<PipeOp>, n: nat)
    requires IsPipeRun(run, ops) && n < |run|
    ensures run[n].closed <==> exists k :: 0 <= k < n && Closes(run[k], ops[k])
  {
    if n > 0 {
      ClosedIff(run, ops, n - 1);
      assert run[n].closed <==> run[n - 1].closed || Closes(run[n - 1], ops[n - 1]);
    }
  }

  /** What a step adds to the accepted buffers. */
  function AcceptedNow(p: Pipe, a: PipeOp): seq<Bytes> {
    match a
    case Write(buf, sinkReady, sinkSend) =>
      if !p.closed && ((sinkReady == SinkOk && sinkSend == SinkOk)
                       || (buf == [] && SinkSays(sinkReady, sinkSend, SinkConnectionClosed))) then [buf] else []
    case _ => []
  }

  function AcceptedIn(run: seq<Pipe>, ops: seq<PipeOp>, n: nat): seq<Bytes>
    requires n <= |run| && n <= |ops|
  {
    if n == 0 then [] else AcceptedIn(run, ops, n - 1) + AcceptedNow(run[n - 1], ops[n - 1])
  }

  /** In every run the accepted buffers are exactly those whose write the sink took, in order;
      an empty buffer also passes for one when the connection is found closed. */
  lemma {:induction false} AcceptedAre(run: seq<Pipe>, ops: seq<PipeOp>, n: nat)
    requires IsPipeRun(run, ops) && n < |run|
    ensures run[n].accepted == AcceptedIn(run, ops, n)
  {
    if n > 0 {
      AcceptedAre(run, ops, n - 1);
      StepAccepts(run[n - 1], ops[n - 1]);
    }
  }

  lemma StepAccepts(p: Pipe, a: PipeOp)
    requires Enabled(p, a) && p.reader.stream.Valid()
    ensures Next(p, a).accepted == p.accepted + AcceptedNow(p, a)
  {
  }

  // ----- Empty writes -----

  /** A read that ends early is the work of a write of an empty buffer. */
  lemma EarlyEndNeedsEmptyWrite(run: seq<Pipe>, ops: seq<PipeOp>, n: nat, room: nat)
    requires IsPipeRun(run, ops) && n < |run| && room > 0
    ensures run[n].reader.stream.Valid()
    ensures EarlyEnd(run[n].reader.stream, room) ==> [] in run[n].accepted
  {
    RunInv(run, ops, n);
    ZeroReadIff(run[n].reader.stream, room);
    if AtEmptyFrame(run[n].reader.stream) {
      EmptyFrameArrived(run[n].reader);
    }
  }

  /** The reader goes on as it would alone. */
  lemma ReadsAlong(p: Pipe, run: seq<Trace>, ops: seq<Op>) returns (pipes: seq<Pipe>, steps: seq<PipeOp>)
    requires Follows(run, ops) && run[0] == p.reader
    requires forall i :: 0 <= i < |ops| ==> ops[i].DoRead?
    ensures PipeFollows(pipes, steps) && |pipes| == |run| && pipes[0] == p
    ensures forall i :: 0 <= i < |run| ==> pipes[i] == p.(reader := run[i])
  {
    pipes := seq(|run|, i requires 0 <= i < |run| => p.(reader := run[i]));
    steps := seq(|ops|, i requires 0 <= i < |ops| => Reader(ops[i]));
  }

  lemma ReadOn(p: Pipe) returns (run: seq<Pipe>, ops: seq<PipeOp>)
    requires Inv(p) && Whole(p) && [] in Frames(p.reader.stream.inbox)
    ensures PipeFollows(run, ops) && run[0] == p && run[|run| - 1].reader.stream.Valid()
    ensures EarlyEnd(run[|run| - 1].reader.stream, 1)
  {
    EndedAppend(Polled(p.reader), p.reader.stream.inbox);
    var alone, steps := ReachEmptyFrame(p.reader);
    run, ops := ReadsAlong(p, alone, steps);
    ZeroReadIff(run[|run| - 1].reader.stream, 1);
  }

  /** From any state in which nothing is lost and an empty frame is on the wire or unread, the
      reader can be brought to an early end. */
  lemma {:induction false} EmptyWriteReadsAsEnd(p: Pipe) returns (run: seq<Pipe>, ops: seq<PipeOp>)
    requires Inv(p) && Whole(p)
    requires [] in p.wire || [] in Frames(p.reader.stream.inbox)
    ensures PipeFollows(run, ops) && run[0] == p && run[|run| - 1].reader.stream.Valid()
    ensures EarlyEnd(run[|run| - 1].reader.stream, 1)
    decreases |p.wire|
  {
    if p.wire == [] {
      run, ops := ReadOn(p);
    } else {
      StepInv(p, Deliver);
      DeliverKeepsEmpty(p);
      var later, more := EmptyWriteReadsAsEnd(Next(p, Deliver));
      run, ops := Preceded(p, Deliver, later, more);
    }
  }

  lemma Preceded(p: Pipe, a: PipeOp, later: seq<Pipe>, more: seq<PipeOp>)
    returns (run: seq<Pipe>, ops: seq<PipeOp>)
    requires PipeFollows(later, more) && Enabled(p, a) && p.reader.stream.Valid() && later[0] == Next(p, a)
    ensures PipeFollows(run, ops) && run[0] == p && run[|run| - 1] == later[|later| - 1]
  {
    run, ops := [p] + later, [a] + more;
    forall i | 0 <= i < |ops|
      ensures Enabled(run[i], ops[i]) && run[i].reader.stream.Valid() && run[i + 1] == Next(run[i], ops[i])
    {
      if i > 0 {
        assert run[i] == later[i - 1] && run[i + 1] == later[i] && ops[i] == more[i - 1];
      }
    }
  }

  lemma DeliverKeepsEmpty(p: Pipe)
    requires Inv(p) && Whole(p) && p.wire != []
    requires [] in p.wire || [] in Frames(p.reader.stream.inbox)
    ensures var q := Next(p, Deliver);
            && Whole(q) && |q.wire| < |p.wire|
            && ([] in q.wire || [] in Frames(q.reader.stream.inbox))
  {
    var e, inbox := Binary(p.wire[0]), p.reader.stream.inbox;
    assert Next(p, Deliver).wire == p.wire[1..];
    assert !Ended(inbox) by {
      EndedAppend(Polled(p.reader), inbox);
    }
    FramesGrow(p.reader.arrived, e);
    FramesGrow(inbox, e);
    EmptyMoves(Frames(inbox), p.wire);
  }

  lemma EmptyMoves(frames: seq<Bytes>, wire: seq<Bytes>)
    requires wire != [] && ([] in wire || [] in frames)
    ensures [] in wire[1..] || [] in frames + [wire[0]]
  {
    assert wire == [wire[0]] + wire[1..];
  }
}
