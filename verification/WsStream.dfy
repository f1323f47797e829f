/** The WebSocket byte stream (`src/ws_stream.rs`): message frames read as a byte stream, and
    writes sent as frames. */
module WsStream {
  type Byte = bv8
  type Bytes = seq<Byte>

  /** What the inner message stream yields: a frame, the end of the stream, or an error. */
  datatype Event =
    | Binary(payload: Bytes)
    | CloseFrame
    | OtherFrame
    | EndOfStream
    | IoError
    | ConnectionClosed
    | AlreadyClosed
    | OtherError

  datatype ReadState = Waiting | Buffered(data: Bytes, amtRead: nat) | Terminated

  datatype Error = Io | NotConnected | Other

  datatype Poll<+T> = Pending | Ready(value: T) | Failed(error: Error)

  /** The read side: its state, and the events of the inner stream not yet polled. */
  datatype Stream = Stream(read: ReadState, inbox: seq<Event>) {
    /** A buffer is dropped as soon as it is used up, so only an empty frame leaves nothing. */
    predicate Valid() {
      read.Buffered? ==> read.amtRead < |read.data| || (read.amtRead == 0 && read.data == [])
    }
  }

  // ----- The steps as functions -----

  /** Frames of other kinds are skipped. */
  function Skip(inbox: seq<Event>): seq<Event> {
    if inbox != [] && inbox[0].OtherFrame? then Skip(inbox[1..]) else inbox
  }

  /** The state after polling the inner stream for the next frame. `Ready(true)` means that a
      frame was buffered, `Ready(false)` that the stream ended. */
  function Fill(inbox: seq<Event>): (Poll<bool>, Stream) {
    var rest := Skip(inbox);
    if rest == [] then (Pending, Stream(Waiting, []))
    else match rest[0]
      case Binary(payload) => (Ready(true), Stream(Buffered(payload, 0), rest[1..]))
      case IoError => (Failed(Io), Stream(Waiting, rest[1..]))
      case OtherError => (Failed(Other), Stream(Waiting, rest[1..]))
      case AlreadyClosed => (Failed(NotConnected), Stream(Terminated, rest[1..]))
      case _ => (Ready(false), Stream(Terminated, rest[1..]))
  }

  function Take(s: Stream, amt: nat): Stream
    requires s.read.Buffered? && s.Valid()
  {
    var n := s.read.amtRead + amt;
    s.(read := if n >= |s.read.data| then Waiting else Buffered(s.read.data, n))
  }

  /** What is buffered and not yet taken. */
  function Ahead(read: ReadState): Bytes {
    if read.Buffered? && read.amtRead <= |read.data| then read.data[read.amtRead..] else []
  }

  function Min(a: nat, b: nat): nat { if a < b then a else b }

  /** `poll_fill_buf`: makes the next bytes visible without taking them. */
  function Peek(s: Stream): (Poll<Bytes>, Stream) {
    match s.read
    case Waiting =>
      var (r, t) := Fill(s.inbox);
      (match r case Pending => Pending case Failed(e) => Failed(e) case Ready(_) => Ready(Ahead(t.read)), t)
    case Buffered(_, _) => (Ready(Ahead(s.read)), s)
    case Terminated => (Ready([]), s)
  }

  /** `poll_read` into a buffer with room for `room` bytes. */
  function Read(s: Stream, room: nat): (Poll<Bytes>, Stream)
    requires s.Valid()
  {
    var (r, t) := Peek(s);
    if r.Ready? && t.read.Buffered? then
      var len := Min(room, |r.value|);
      (Ready(r.value[..len]), Take(t, len))
    else (r, t)
  }

  function Consumed(s: Stream, amt: nat): Stream
    requires s.Valid()
  {
    if s.read.Buffered? then Take(s, amt) else s
  }

  // ----- The stream object -----

  /** What polling the sink answers. */
  datatype Sink = SinkOk | SinkPending | SinkIo | SinkConnectionClosed | SinkAlreadyClosed | SinkOther

  class WsByteStream {
    var read: ReadState
    var writeClosed: bool
    var inbox: seq<Event>
    var sent: seq<Bytes>

    function View(): Stream
      reads this
    {
      Stream(read, inbox)
    }

    constructor ()
      ensures View() == Stream(Waiting, []) && !writeClosed && sent == []
    {
      read, writeClosed, inbox, sent := Waiting, false, [], [];
    }

    method FillBufWithNextMsg() returns (r: Poll<bool>)
      requires read == Waiting
      modifies this`read, this`inbox
      ensures (r, View()) == Fill(old(inbox))
    {
      while inbox != []
        invariant read == Waiting && Skip(inbox) == Skip(old(inbox))
        decreases |inbox|
      {
        var event := inbox[0];
        inbox := inbox[1..];
        match event
        case Binary(payload) =>
          read := Buffered(payload, 0);
          return Ready(true);
        case CloseFrame =>
          read := Terminated;
          return Ready(false);
        case OtherFrame =>
        case EndOfStream =>
          read := Terminated;
          return Ready(false);
        case IoError =>
          return Failed(Io);
        case ConnectionClosed =>
          read := Terminated;
          return Ready(false);
        case AlreadyClosed =>
          read := Terminated;
          return Failed(NotConnected);
        case OtherError =>
          return Failed(Other);
      }
      return Pending;
    }

    method PollRead(room: nat) returns (r: Poll<Bytes>)
      requires View().Valid()
      modifies this`read, this`inbox
      ensures View().Valid() && (r, View()) == Read(old(View()), room)
    {
      while true
        invariant View().Valid()
        invariant read != Waiting || View() == old(View())
        invariant View() != old(View()) ==>
                    old(read) == Waiting && Fill(old(inbox)) == (Ready(read.Buffered?), View())
        decreases if read == Waiting then 1 else 0
      {
        match read
        case Waiting =>
          var res := FillBufWithNextMsg();
          match res {
            case Pending => return Pending;
            case Failed(e) => return Failed(e);
            case Ready(_) =>
          }
        case Buffered(data, amtRead) =>
          var dataIn := data[amtRead..];
          var len := Min(room, |dataIn|);
          if len == |dataIn| {
            read := Waiting;
          } else {
            read := Buffered(data, amtRead + len);
          }
          return Ready(dataIn[..len]);
        case Terminated =>
          return Ready([]);
      }
    }

    method PollFillBuf() returns (r: Poll<Bytes>)
      requires View().Valid()
      modifies this`read, this`inbox
      ensures View().Valid() && (r, View()) == Peek(old(View()))
    {
      while true
        invariant View().Valid()
        invariant read != Waiting || View() == old(View())
        invariant View() != old(View()) ==>
                    old(read) == Waiting && Fill(old(inbox)) == (Ready(read.Buffered?), View())
        decreases if read == Waiting then 1 else 0
      {
        match read
        case Waiting =>
          var res := FillBufWithNextMsg();
          match res {
            case Pending => return Pending;
            case Failed(e) => return Failed(e);
            case Ready(_) =>
          }
        case Buffered(data, amtRead) =>
          return Ready(data[amtRead..]);
        case Terminated =>
          return Ready([]);
      }
    }

    method Consume(amt: nat)
      requires View().Valid()
      modifies this`read
      ensures View().Valid() && View() == Consumed(old(View()), amt)
    {
      if read.Buffered? {
        var amtRead := Min(|read.data|, read.amtRead + amt);
        read := Buffered(read.data, amtRead);
        if amtRead == |read.data| {
          read := Waiting;
        }
      }
    }

    /** `sinkReady` and `sinkSend` are the answers of the inner sink. */
    method PollWrite(buf: Bytes, sinkReady: Sink, sinkSend: Sink) returns (r: Poll<nat>)
      requires sinkSend != SinkPending
      modifies this`writeClosed, this`sent
      ensures sent == if Accepted(old(writeClosed), sinkReady, sinkSend) then old(sent) + [buf] else old(sent)
      ensures (r, writeClosed) == Written(old(writeClosed), sinkReady, sinkSend, |buf|)
    {
      if writeClosed {
        return Failed(NotConnected);
      }
      match sinkReady {
        case SinkPending => return Pending;
        case SinkIo => return Failed(Io);
        case SinkConnectionClosed =>
          writeClosed := true;
          return Ready(0);
        case SinkAlreadyClosed =>
          writeClosed := true;
          return Failed(NotConnected);
        case SinkOther => return Failed(Other);
        case SinkOk =>
      }
      match sinkSend {
        case SinkIo => return Failed(Io);
        case SinkConnectionClosed =>
          writeClosed := true;
          return Ready(0);
        case SinkAlreadyClosed =>
          writeClosed := true;
          return Failed(NotConnected);
        case SinkOther => return Failed(Other);
        case _ =>
      }
      sent := sent + [buf];
      writeClosed := false;
      return Ready(|buf|);
    }

    method PollFlush(sink: Sink) returns (r: Poll<()>)
      modifies this`writeClosed
      ensures (r, writeClosed) == Flushed(old(writeClosed), sink)
    {
      match sink
      case SinkOk => r := Ready(());
      case SinkPending => r := Pending;
      case SinkIo => r := Failed(Io);
      case SinkConnectionClosed =>
        writeClosed := true;
        r := Ready(());
      case SinkAlreadyClosed =>
        writeClosed := true;
        r := Failed(NotConnected);
      case SinkOther => r := Failed(Other);
    }

    /** The stream is closed for writing whatever the sink answers, even when it is pending. */
    method PollShutdown(sink: Sink) returns (r: Poll<()>)
      modifies this`writeClosed
      ensures writeClosed && r == Flushed(true, sink).0
    {
      writeClosed := true;
      match sink
      case SinkOk => r := Ready(());
      case SinkPending => r := Pending;
      case SinkIo => r := Failed(Io);
      case SinkConnectionClosed => r := Ready(());
      case SinkAlreadyClosed => r := Failed(NotConnected);
      case SinkOther => r := Failed(Other);
    }
  }

  /** The answer to a write of `len` bytes, and whether the stream is closed for writing from
      then on. */
  function Written(closed: bool, sinkReady: Sink, sinkSend: Sink, len: nat): (Poll<nat>, bool) {
    if closed then (Failed(NotConnected), true)
    else
      match if sinkReady == SinkOk then sinkSend else sinkReady
      case SinkOk => (Ready(len), false)
      case SinkPending => (Pending, false)
      case SinkIo => (Failed(Io), false)
      case SinkConnectionClosed => (Ready(0), true)
      case SinkAlreadyClosed => (Failed(NotConnected), true)
      case SinkOther => (Failed(Other), false)
  }

  /** The answer to a flush: a closed connection closes the stream for writing. */
  function Flushed(closed: bool, sink: Sink): (Poll<()>, bool) {
    match sink
    case SinkOk => (Ready(()), closed)
    case SinkPending => (Pending, closed)
    case SinkIo => (Failed(Io), closed)
    case SinkConnectionClosed => (Ready(()), true)
    case SinkAlreadyClosed => (Failed(NotConnected), true)
    case SinkOther => (Failed(Other), closed)
  }

  predicate Accepted(closed: bool, sinkReady: Sink, sinkSend: Sink) {
    !closed && sinkReady == SinkOk && sinkSend == SinkOk
  }

  // ----- Conservation over runs -----

  predicate Terminates(e: Event) {
    e.CloseFrame? || e.EndOfStream? || e.ConnectionClosed? || e.AlreadyClosed?
  }

  /** The binary frames before the first terminator. */
  function Frames(events: seq<Event>): seq<Bytes> {
    if events == [] || Terminates(events[0]) then []
    else (if events[0].Binary? then [events[0].payload] else []) + Frames(events[1..])
  }

  function Concat(frames: seq<Bytes>): Bytes {
    if frames == [] then [] else frames[0] + Concat(frames[1..])
  }

  predicate Ended(events: seq<Event>) {
    exists i :: 0 <= i < |events| && Terminates(events[i])
  }

  /** Everything still to be read: the buffered remainder, then the unread frames. */
  function Outstanding(s: Stream): Bytes {
    if s.read.Terminated? then [] else Ahead(s.read) + Concat(Frames(s.inbox))
  }

  lemma {:induction false} FramesAppend(a: seq<Event>, b: seq<Event>)
    ensures Frames(a + b) == if Ended(a) then Frames(a) else Frames(a) + Frames(b)
  {
    if a == [] {
      assert a + b == b;
    } else {
      assert (a + b)[1..] == a[1..] + b;
      FramesAppend(a[1..], b);
      if !Terminates(a[0]) && Ended(a[1..]) {
        var i :| 0 <= i < |a[1..]| && Terminates(a[1..][i]);
        assert Terminates(a[i + 1]);
      }
    }
  }

  lemma {:induction false} ConcatAppend(a: seq<Bytes>, b: seq<Bytes>)
    ensures Concat(a + b) == Concat(a) + Concat(b)
  {
    if a == [] {
      assert a + b == b;
    } else {
      assert (a + b)[1..] == a[1..] + b;
      ConcatAppend(a[1..], b);
    }
  }

  lemma EndedAppend(a: seq<Event>, b: seq<Event>)
    ensures Ended(a + b) <==> Ended(a) || Ended(b)
  {
    forall i | 0 <= i < |b| ensures (a + b)[|a| + i] == b[i] {
    }
    forall i | 0 <= i < |a| ensures (a + b)[i] == a[i] {
    }
  }

  /** `t` is the stream after polling exactly `polled`: what it buffers is their only binary
      payload, and it has terminated exactly when they have a terminator. */
  ghost predicate Polls(t: Stream, polled: seq<Event>) {
    && t.Valid()
    && (Ended(polled) <==> t.read.Terminated?)
    && Concat(Frames(polled)) == Ahead(t.read)
    && (t.read.Buffered? && Ahead(t.read) == [] ==> [] in Frames(polled))
  }

  /** Polling takes a prefix of the inbox. */
  lemma {:induction false} FillPolls(inbox: seq<Event>) returns (polled: seq<Event>)
    ensures inbox == polled + Fill(inbox).1.inbox && Polls(Fill(inbox).1, polled)
    decreases |inbox|
  {
    if inbox == [] {
      polled := [];
    } else if inbox[0].OtherFrame? {
      var rest := FillPolls(inbox[1..]);
      polled := [inbox[0]] + rest;
      assert Fill(inbox) == Fill(inbox[1..]);
      PollsOther(Fill(inbox).1, inbox[0], rest);
    } else {
      polled := [inbox[0]];
      assert Skip(inbox) == inbox;
      OneEvent(inbox[0]);
      assert inbox[0].Binary? ==> inbox[0].payload[0..] == inbox[0].payload;
    }
  }

  lemma PollsOther(t: Stream, e: Event, polled: seq<Event>)
    requires Polls(t, polled) && e.OtherFrame?
    ensures Polls(t, [e] + polled)
  {
    OneEvent(e);
    FramesAppend([e], polled);
    EndedAppend([e], polled);
    assert [] + Frames(polled) == Frames(polled);
  }

  lemma OneEvent(e: Event)
    ensures Ended([e]) <==> Terminates(e)
    ensures Frames([e]) == if e.Binary? then [e.payload] else []
    ensures Concat(Frames([e])) == if e.Binary? then e.payload else []
  {
    assert Terminates([e][0]) <==> Terminates(e);
    assert Frames([e][1..]) == [];
    if e.Binary? {
      assert Frames([e])[1..] == [] && e.payload + [] == e.payload;
    }
  }

  /** Making bytes visible neither loses nor takes any. */
  lemma PeekConserves(s: Stream)
    requires s.Valid()
    ensures Peek(s).1.Valid() && Outstanding(Peek(s).1) == Outstanding(s)
  {
    if s.read.Waiting? {
      var polled := FillPolls(s.inbox);
      var t := Fill(s.inbox).1;
      FramesAppend(polled, t.inbox);
      ConcatAppend(Frames(polled), Frames(t.inbox));
    }
  }

  lemma TakeSplits(s: Stream, amt: nat)
    requires s.Valid() && s.read.Buffered?
    ensures Take(s, amt).Valid() && Take(s, amt).inbox == s.inbox && !Take(s, amt).read.Terminated?
    ensures var ahead := Ahead(s.read); Ahead(Take(s, amt).read) == ahead[Min(amt, |ahead|)..]
  {
  }

  lemma TakeConserves(s: Stream, amt: nat)
    requires s.Valid() && s.read.Buffered?
    ensures var ahead := Ahead(s.read);
            && Take(s, amt).Valid() && Take(s, amt).inbox == s.inbox
            && ahead == ahead[..Min(amt, |ahead|)] + Ahead(Take(s, amt).read)
            && Outstanding(s) == ahead[..Min(amt, |ahead|)] + Outstanding(Take(s, amt))
  {
    var ahead, n, rest := Ahead(s.read), Min(amt, |Ahead(s.read)|), Concat(Frames(s.inbox));
    TakeSplits(s, amt);
    assert ahead[..n] + (ahead[n..] + rest) == ahead + rest;
  }

  /** A read moves bytes from the outstanding ones to its result, in order, and loses none. */
  lemma ReadConserves(s: Stream, room: nat)
    requires s.Valid()
    ensures var (r, t) := Read(s, room);
            && t.Valid()
            && Outstanding(s) == (if r.Ready? then r.value else []) + Outstanding(t)
            && (r.Ready? ==> |r.value| <= room)
  {
    PeekConserves(s);
    var (r, t) := Peek(s);
    if r.Ready? && t.read.Buffered? {
      assert r.value == Ahead(t.read);
      TakeConserves(t, Min(room, |r.value|));
    }
  }

  // ----- Reads that yield no bytes -----

  /** The first event that is not a frame of another kind is an empty binary frame. */
  ghost predicate EmptyFrameNext(inbox: seq<Event>) {
    exists k :: 0 <= k < |inbox| && inbox[k] == Binary([]) && OthersBefore(inbox, k)
  }

  /** ... is the end of the stream, and not reported as an error. */
  ghost predicate EndNext(inbox: seq<Event>) {
    exists k :: 0 <= k < |inbox| && Terminates(inbox[k]) && !inbox[k].AlreadyClosed? && OthersBefore(inbox, k)
  }

  ghost predicate OthersBefore(inbox: seq<Event>, k: nat)
    requires k <= |inbox|
  {
    forall j :: 0 <= j < k ==> inbox[j].OtherFrame?
  }

  /** The next bytes to be read are those of an empty frame. */
  ghost predicate AtEmptyFrame(s: Stream) {
    match s.read
    case Waiting => EmptyFrameNext(s.inbox)
    case Buffered(data, _) => data == []
    case Terminated => false
  }

  /** A read that yields no bytes although the stream goes on. */
  predicate EarlyEnd(s: Stream, room: nat)
    requires s.Valid()
  {
    Read(s, room).0 == Ready([]) && !Read(s, room).1.read.Terminated?
  }

  lemma {:induction false} SkipFirst(inbox: seq<Event>) returns (k: nat)
    ensures k <= |inbox| && OthersBefore(inbox, k) && Skip(inbox) == inbox[k..]
    ensures k < |inbox| ==> !inbox[k].OtherFrame?
  {
    if inbox != [] && inbox[0].OtherFrame? {
      var n := SkipFirst(inbox[1..]);
      k := n + 1;
      forall j | 0 <= j < k ensures inbox[j].OtherFrame? {
        assert j > 0 ==> inbox[j] == inbox[1..][j - 1];
      }
    } else {
      k := 0;
    }
  }

  lemma SkipDecides(inbox: seq<Event>)
    ensures EmptyFrameNext(inbox) <==> Skip(inbox) != [] && Skip(inbox)[0] == Binary([])
    ensures EndNext(inbox) <==>
              Skip(inbox) != [] && Terminates(Skip(inbox)[0]) && !Skip(inbox)[0].AlreadyClosed?
  {
    var k := SkipFirst(inbox);
    forall i | 0 <= i < |inbox| && !inbox[i].OtherFrame? && OthersBefore(inbox, i) ensures i == k {
    }
  }

  /** A read into a non-empty buffer yields no bytes in exactly two ways: the frame at hand is
      empty, or the stream has ended or ends now. */
  lemma ZeroReadIff(s: Stream, room: nat)
    requires s.Valid() && room > 0
    ensures EarlyEnd(s, room) <==> AtEmptyFrame(s)
    ensures Read(s, room).0 == Ready([]) && Read(s, room).1.read.Terminated? <==>
              s.read.Terminated? || (s.read.Waiting? && EndNext(s.inbox))
  {
    SkipDecides(s.inbox);
    var k := SkipFirst(s.inbox);
  }

  // ----- What a poll answers -----

  /** The first event that is not a frame of another kind is `e`, at position `k`. */
  ghost predicate FirstAt(inbox: seq<Event>, k: nat, e: Event) {
    k < |inbox| && inbox[k] == e && !e.OtherFrame? && OthersBefore(inbox, k)
  }

  ghost predicate First(inbox: seq<Event>, e: Event) {
    exists k :: FirstAt(inbox, k, e)
  }

  lemma FirstIsSkip(inbox: seq<Event>, k: nat, e: Event)
    requires FirstAt(inbox, k, e)
    ensures Skip(inbox) == inbox[k..]
  {
    var i := SkipFirst(inbox);
  }

  lemma FirstSkipped(inbox: seq<Event>)
    ensures Skip(inbox) == [] <==> OthersBefore(inbox, |inbox|)
    ensures forall e :: First(inbox, e) <==> Skip(inbox) != [] && Skip(inbox)[0] == e
  {
    var i := SkipFirst(inbox);
    if i < |inbox| {
      assert FirstAt(inbox, i, inbox[i]);
    }
    forall e ensures First(inbox, e) <==> Skip(inbox) != [] && Skip(inbox)[0] == e {
      if k: nat :| FirstAt(inbox, k, e) {
        FirstIsSkip(inbox, k, e);
      }
    }
  }

  /** Answers of a poll that show no bytes: there is no event but frames of other kinds, or the
      first other event is an error, and which one. */
  ghost predicate AnswersFit<T>(s: Stream, answer: Poll<T>) {
    && (answer.Pending? <==> s.read.Waiting? && OthersBefore(s.inbox, |s.inbox|))
    && (answer == Failed(Io) <==> s.read.Waiting? && First(s.inbox, IoError))
    && (answer == Failed(Other) <==> s.read.Waiting? && First(s.inbox, OtherError))
    && (answer == Failed(NotConnected) <==> s.read.Waiting? && First(s.inbox, AlreadyClosed))
  }

  /** For peeks and for reads. */
  lemma AnswerIff(s: Stream, room: nat)
    requires s.Valid()
    ensures AnswersFit(s, Peek(s).0) && AnswersFit(s, Read(s, room).0)
  {
    FirstSkipped(s.inbox);
  }

  /** The unread part of the frame at hand is `shown`: of a buffered frame what is not taken yet,
      of the next frame all of it; nothing once the stream has ended. */
  ghost predicate AtHand(s: Stream, shown: Bytes) {
    match s.read
    case Buffered(data, amtRead) => amtRead <= |data| && shown == data[amtRead..]
    case Waiting => First(s.inbox, Binary(shown)) || (EndNext(s.inbox) && shown == [])
    case Terminated => shown == []
  }

  /** A peek that answers with bytes shows all of it, and a read takes as much of it as there is
      room for. */
  lemma ShowsAllIff(s: Stream, room: nat, shown: Bytes)
    requires s.Valid()
    ensures Peek(s).0 == Ready(shown) <==> AtHand(s, shown)
    ensures AtHand(s, shown) ==> Read(s, room).0 == Ready(shown[..Min(room, |shown|)])
    ensures Read(s, room).0.Ready? ==> exists all :: AtHand(s, all)
  {
    FirstSkipped(s.inbox);
    SkipDecides(s.inbox);
    if Peek(s).0.Ready? {
      PeekIsAtHand(s);
    }
  }

  lemma PeekIsAtHand(s: Stream)
    requires s.Valid() && Peek(s).0.Ready?
    ensures AtHand(s, Peek(s).0.value)
  {
    if s.read.Waiting? {
      FillIsAtHand(s.inbox);
    }
  }

  lemma FillIsAtHand(inbox: seq<Event>)
    requires Fill(inbox).0.Ready?
    ensures var shown := Ahead(Fill(inbox).1.read);
            First(inbox, Binary(shown)) || (EndNext(inbox) && shown == [])
  {
    var k := SkipFirst(inbox);
    var e := inbox[k];
    assert Skip(inbox)[0] == e;
    if e.Binary? {
      assert e.payload[0..] == e.payload;
      assert FirstAt(inbox, k, e);
    }
  }

  /** A poll of a waiting stream takes the events up to the first one that is not a frame of
      another kind, and no more; other polls take none. */
  lemma TakesEventsUpTo(s: Stream, room: nat)
    requires s.Valid()
    ensures !s.read.Waiting? ==> Peek(s).1.inbox == Read(s, room).1.inbox == s.inbox
    ensures s.read.Waiting? && OthersBefore(s.inbox, |s.inbox|) ==> Peek(s).1.inbox == Read(s, room).1.inbox == []
    ensures forall k, e :: s.read.Waiting? && FirstAt(s.inbox, k, e) ==>
              Peek(s).1.inbox == Read(s, room).1.inbox == s.inbox[k + 1..]
  {
    FirstSkipped(s.inbox);
    forall k, e | s.read.Waiting? && FirstAt(s.inbox, k, e)
      ensures Peek(s).1.inbox == Read(s, room).1.inbox == s.inbox[k + 1..]
    {
      FirstIsSkip(s.inbox, k, e);
    }
  }

  /** Errors of the inner stream leave the stream waiting; only terminators end it. */
  lemma EndsIff(s: Stream, room: nat)
    requires s.Valid()
    ensures Read(s, room).1.read.Terminated? <==>
              s.read.Terminated? || (s.read.Waiting? && exists e :: First(s.inbox, e) && Terminates(e))
    ensures Peek(s).1.read.Terminated? <==>
              s.read.Terminated? || (s.read.Waiting? && exists e :: First(s.inbox, e) && Terminates(e))
  {
    FirstSkipped(s.inbox);
    var rest := Skip(s.inbox);
    assert rest != [] ==> First(s.inbox, rest[0]);
  }

  // ----- What writes, flushes and shutdowns answer -----

  /** The answer that decides a write: that of sending, once the sink is ready. */
  predicate SinkSays(sinkReady: Sink, sinkSend: Sink, answer: Sink) {
    (sinkReady == answer && answer != SinkOk) || (sinkReady == SinkOk && sinkSend == answer)
  }

  lemma WriteAnswerIff(closed: bool, sinkReady: Sink, sinkSend: Sink, len: nat)
    ensures var (answer, after) := Written(closed, sinkReady, sinkSend, len);
            && (answer.Pending? <==> !closed && SinkSays(sinkReady, sinkSend, SinkPending))
            && (answer == Failed(Io) <==> !closed && SinkSays(sinkReady, sinkSend, SinkIo))
            && (answer == Failed(Other) <==> !closed && SinkSays(sinkReady, sinkSend, SinkOther))
            && (answer == Failed(NotConnected) <==> closed || SinkSays(sinkReady, sinkSend, SinkAlreadyClosed))
            && (answer.Ready? <==>
                  Accepted(closed, sinkReady, sinkSend)
                  || (!closed && SinkSays(sinkReady, sinkSend, SinkConnectionClosed)))
            && (answer.Ready? ==> answer.value == if Accepted(closed, sinkReady, sinkSend) then len else 0)
            && (after <==> closed || SinkSays(sinkReady, sinkSend, SinkConnectionClosed)
                           || SinkSays(sinkReady, sinkSend, SinkAlreadyClosed))
  {
  }

  lemma FlushAnswerIff(closed: bool, sink: Sink)
    ensures var (answer, after) := Flushed(closed, sink);
            && (answer.Pending? <==> sink == SinkPending) && (answer == Failed(Io) <==> sink == SinkIo)
            && (answer == Failed(Other) <==> sink == SinkOther)
            && (answer == Failed(NotConnected) <==> sink == SinkAlreadyClosed)
            && (answer == Ready(()) <==> sink == SinkOk || sink == SinkConnectionClosed)
            && (after <==> closed || sink == SinkConnectionClosed || sink == SinkAlreadyClosed)
  {
  }

  // ----- Runs of the read side -----

  datatype Op = Arrive(events: seq<Event>) | DoRead(room: nat) | DoPeek | DoConsume(amt: nat)

  /** A run of the read side: the events that arrived, the stream, the bytes taken so far. */
  datatype Trace = Trace(arrived: seq<Event>, stream: Stream, taken: Bytes)

  function Step(t: Trace, op: Op): Trace
    requires t.stream.Valid()
  {
    match op
    case Arrive(es) => t.(arrived := t.arrived + es, stream := t.stream.(inbox := t.stream.inbox + es))
    case DoRead(room) =>
      var (r, s) := Read(t.stream, room);
      t.(stream := s, taken := t.taken + if r.Ready? then r.value else [])
    case DoPeek => t.(stream := Peek(t.stream).1)
    case DoConsume(amt) =>
      var ahead := Ahead(t.stream.read);
      t.(stream := Consumed(t.stream, amt), taken := t.taken + ahead[..Min(amt, |ahead|)])
  }

  /** The states a stream passes through. */
  ghost predicate IsRun(run: seq<Trace>, ops: seq<Op>) {
    && |run| == |ops| + 1
    && run[0] == Trace([], Stream(Waiting, []), [])
    && forall i :: 0 <= i < |ops| ==> run[i].stream.Valid() && run[i + 1] == Step(run[i], ops[i])
  }

  /** The events polled so far are a prefix of those that arrived, with a terminator exactly if
      the stream has terminated; the bytes add up; an empty frame is the only thing that can
      leave an empty buffer. */
  ghost predicate Consistent(t: Trace) {
    && t.stream.Valid()
    && |t.stream.inbox| <= |t.arrived|
    && t.arrived == Polled(t) + t.stream.inbox
    && (Ended(Polled(t)) <==> t.stream.read.Terminated?)
    && t.taken + Ahead(t.stream.read) == Concat(Frames(Polled(t)))
    && (t.stream.read.Buffered? && Ahead(t.stream.read) == [] ==> [] in Frames(Polled(t)))
  }

  function Polled(t: Trace): seq<Event>
    requires |t.stream.inbox| <= |t.arrived|
  {
    t.arrived[..|t.arrived| - |t.stream.inbox|]
  }

  lemma StepConsistent(t: Trace, op: Op)
    requires Consistent(t)
    ensures Consistent(Step(t, op))
  {
    match op
    case Arrive(es) => ArriveConsistent(t, es);
    case DoPeek => PeekConsistent(t);
    case DoConsume(amt) =>
      if t.stream.read.Buffered? {
        TakeConsistent(t, amt);
      } else {
        assert t.taken + [] == t.taken;
      }
    case DoRead(room) => ReadConsistent(t, room);
  }

  lemma ArriveConsistent(t: Trace, es: seq<Event>)
    requires Consistent(t)
    ensures Consistent(Step(t, Arrive(es)))
  {
    assert Polled(Step(t, Arrive(es))) == Polled(t);
  }

  lemma ReadConsistent(t: Trace, room: nat)
    requires Consistent(t)
    ensures Consistent(Step(t, DoRead(room)))
  {
    PeekConsistent(t);
    var (r, s) := Peek(t.stream);
    if r.Ready? && s.read.Buffered? {
      var u, len := t.(stream := s), Min(room, |r.value|);
      assert r.value == Ahead(s.read);
      TakeConsistent(u, len);
      assert Step(t, DoRead(room)) == u.(stream := Take(s, len), taken := u.taken + r.value[..len]);
    } else {
      NothingTaken(t, room);
    }
  }

  lemma NothingTaken(t: Trace, room: nat)
    requires Consistent(t)
    requires var (r, s) := Peek(t.stream); !(r.Ready? && s.read.Buffered?)
    ensures Step(t, DoRead(room)) == t.(stream := Peek(t.stream).1)
  {
    var (r, s) := Peek(t.stream);
    assert r.Ready? ==> r.value == [];
    assert t.taken + [] == t.taken;
  }

  lemma PeekConsistent(t: Trace)
    requires Consistent(t)
    ensures Consistent(t.(stream := Peek(t.stream).1))
  {
    if t.stream.read.Waiting? {
      var polled := FillPolls(t.stream.inbox);
      PolledMore(t, Fill(t.stream.inbox).1, polled);
    }
  }

  lemma PolledMore(t: Trace, s: Stream, polled: seq<Event>)
    requires Consistent(t) && t.stream.read.Waiting?
    requires t.stream.inbox == polled + s.inbox && Polls(s, polled)
    ensures Consistent(t.(stream := s))
  {
    var before := Polled(t);
    assert t.arrived == (before + polled) + s.inbox && Polled(t.(stream := s)) == before + polled by {
      assert before + (polled + s.inbox) == (before + polled) + s.inbox;
    }
    EndedAppend(before, polled);
    assert Frames(before + polled) == Frames(before) + Frames(polled) by {
      FramesAppend(before, polled);
    }
    assert t.taken + Ahead(s.read) == Concat(Frames(before) + Frames(polled)) by {
      assert t.taken + [] == t.taken;
      ConcatAppend(Frames(before), Frames(polled));
    }
  }

  lemma TakeConsistent(t: Trace, amt: nat)
    requires Consistent(t) && t.stream.read.Buffered?
    ensures var ahead := Ahead(t.stream.read);
            Consistent(t.(stream := Take(t.stream, amt), taken := t.taken + ahead[..Min(amt, |ahead|)]))
  {
    TakeConserves(t.stream, amt);
  }

  /** In every run of arrivals, reads, peeks and consumes, of any sizes: the bytes taken, the
      buffered remainder and the unread frames make up the payload that arrived. */
  lemma {:induction false} RunConserves(run: seq<Trace>, ops: seq<Op>, n: nat)
    requires IsRun(run, ops) && n < |run|
    ensures Consistent(run[n])
    ensures run[n].taken + Outstanding(run[n].stream) == Concat(Frames(run[n].arrived))
  {
    if n > 0 {
      RunConserves(run, ops, n - 1);
      StepConsistent(run[n - 1], ops[n - 1]);
    } else {
      assert Polled(run[0]) == [];
    }
    ConsistentConserves(run[n]);
  }

  lemma ConsistentConserves(t: Trace)
    requires Consistent(t)
    ensures t.taken + Outstanding(t.stream) == Concat(Frames(t.arrived))
  {
    FramesAppend(Polled(t), t.stream.inbox);
    ConcatAppend(Frames(Polled(t)), Frames(t.stream.inbox));
  }

  /** In every run, what makes a read end early is an empty frame that arrived. */
  lemma NoEarlyEnd(run: seq<Trace>, ops: seq<Op>, n: nat, room: nat)
    requires IsRun(run, ops) && n < |run| && room > 0
    ensures run[n].stream.Valid()
    ensures EarlyEnd(run[n].stream, room) <==> AtEmptyFrame(run[n].stream)
    ensures EarlyEnd(run[n].stream, room) ==> [] in Frames(run[n].arrived)
  {
    RunConserves(run, ops, n);
    ZeroReadIff(run[n].stream, room);
    if AtEmptyFrame(run[n].stream) {
      EmptyFrameArrived(run[n]);
    }
  }

  lemma EmptyFrameArrived(t: Trace)
    requires Consistent(t) && AtEmptyFrame(t.stream)
    ensures [] in Frames(t.arrived)
  {
    FramesAppend(Polled(t), t.stream.inbox);
    if t.stream.read.Waiting? {
      EmptyFrameIn(t.stream.inbox);
    }
  }

  lemma {:induction false} EmptyFrameIn(inbox: seq<Event>)
    requires EmptyFrameNext(inbox)
    ensures [] in Frames(inbox)
  {
    SkipDecides(inbox);
    if inbox[0].OtherFrame? {
      SkipDecides(inbox[1..]);
      EmptyFrameIn(inbox[1..]);
    }
  }

  // ----- Every empty frame can end a reader early -----

  ghost predicate Follows(run: seq<Trace>, ops: seq<Op>) {
    && |run| == |ops| + 1
    && forall i :: 0 <= i < |ops| ==> run[i].stream.Valid() && run[i + 1] == Step(run[i], ops[i])
  }

  lemma {:induction false} SkipKeepsFrames(inbox: seq<Event>)
    ensures Frames(Skip(inbox)) == Frames(inbox)
  {
    if inbox != [] && inbox[0].OtherFrame? {
      SkipKeepsFrames(inbox[1..]);
      assert [] + Frames(inbox[1..]) == Frames(inbox[1..]);
    }
  }

  /** How many bytes to ask for to use up the frame at hand. */
  function WholeFrame(s: Stream): nat {
    |Ahead(Peek(s).1.read)|
  }

  /** Reading a whole frame that is not the empty one comes closer to the empty one. */
  lemma ReadCloser(s: Stream)
    requires s.Valid() && !s.read.Terminated? && [] in Frames(s.inbox) && !AtEmptyFrame(s)
    ensures var t := Read(s, WholeFrame(s)).1;
            && t.Valid() && t.read.Waiting? && [] in Frames(t.inbox)
            && |t.inbox| + (if t.read.Waiting? then 0 else 1) < |s.inbox| + (if s.read.Waiting? then 0 else 1)
  {
    if s.read.Waiting? {
      SkipDecides(s.inbox);
      SkipKeepsFrames(s.inbox);
      var k := SkipFirst(s.inbox);
    }
  }

  lemma {:induction false} ReachEmptyFrame(t: Trace) returns (run: seq<Trace>, ops: seq<Op>)
    requires t.stream.Valid() && !t.stream.read.Terminated? && [] in Frames(t.stream.inbox)
    ensures Follows(run, ops) && run[0] == t
    ensures forall i :: 0 <= i < |ops| ==> ops[i].DoRead?
    ensures run[|run| - 1].arrived == t.arrived && run[|run| - 1].stream.Valid()
    ensures AtEmptyFrame(run[|run| - 1].stream)
    decreases |t.stream.inbox| + if t.stream.read.Waiting? then 0 else 1
  {
    if AtEmptyFrame(t.stream) {
      run, ops := [t], [];
    } else {
      ReadCloser(t.stream);
      var op := DoRead(WholeFrame(t.stream));
      var later, more := ReachEmptyFrame(Step(t, op));
      run, ops := [t] + later, [op] + more;
      forall i | 0 <= i < |ops| ensures run[i].stream.Valid() && run[i + 1] == Step(run[i], ops[i]) && ops[i].DoRead? {
        if i > 0 {
          assert run[i] == later[i - 1] && run[i + 1] == later[i] && ops[i] == more[i - 1];
        }
      }
    }
  }

  ghost predicate EndsEarly(run: seq<Trace>, ops: seq<Op>, events: seq<Event>) {
    && IsRun(run, ops) && run[|run| - 1].arrived == events && run[|run| - 1].stream.Valid()
    && EarlyEnd(run[|run| - 1].stream, 1)
  }

  /** A reader of the given events can see the end before it comes exactly when there is an
      empty frame among those before the first terminator. */
  lemma EarlyEndIff(events: seq<Event>)
    ensures (exists run, ops :: EndsEarly(run, ops, events)) <==> [] in Frames(events)
  {
    forall run, ops | EndsEarly(run, ops, events) ensures [] in Frames(events) {
      NoEarlyEnd(run, ops, |run| - 1, 1);
    }
    if [] in Frames(events) {
      var run, ops := ReadUntilEmpty(events);
      assert EndsEarly(run, ops, events);
    }
  }

  lemma ReadUntilEmpty(events: seq<Event>) returns (run: seq<Trace>, ops: seq<Op>)
    requires [] in Frames(events)
    ensures EndsEarly(run, ops, events)
  {
    var start := Trace([], Stream(Waiting, []), []);
    var first := Step(start, Arrive(events));
    assert [] + events == events;
    var later, more := ReachEmptyFrame(first);
    run, ops := [start] + later, [Arrive(events)] + more;
    forall i | 0 <= i < |ops| ensures run[i].stream.Valid() && run[i + 1] == Step(run[i], ops[i]) {
      if i > 0 {
        assert run[i] == later[i - 1] && run[i + 1] == later[i] && ops[i] == more[i - 1];
      }
    }
    assert run[|run| - 1] == later[|later| - 1];
    ZeroReadIff(run[|run| - 1].stream, 1);
  }
}
