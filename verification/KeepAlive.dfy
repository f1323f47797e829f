/** The timing of the `keep_alive` loop of `src/net.rs`, as a timed transition system. */
module KeepAlive {
  import opened Topics

  /** Nanoseconds, the resolution of a duration. */
  type Time = nat

  const SECOND: Time := 1_000_000_000

  /** What the loop is doing: asleep until `wake`, or waiting for room in the channel for a ping. */
  datatype Phase = Asleep(wake: Time) | Sending

  /** `lastPacket` is when the last Control Packet of the connection was written: CONNECT, as
      long as the writer has `written` nothing. `lastSent` is what the loop goes by: the start
      of the session, then the last packet. `pings` are the times at which the pings not yet
      written were decided on, oldest first. */
  datatype Timer = Timer(now: Time, written: bool, lastPacket: Time, lastSent: Time, phase: Phase, pings: seq<Time>)

  /** The duration of the loop; how long after the check a ping may be written; how late a
      timer may fire; how long after CONNECT the session may start. */
  datatype Limits = Limits(duration: Time, delay: Time, late: Time, wait: Time)

  datatype Step = Pass(to: Time) | Check | Enqueue | WritePing | WriteOther

  /** The session starts once the CONNACK has come. The loop starts by checking: it is asleep
      until then. */
  function Started(now: Time, connect: Time): Timer {
    Timer(now, false, connect, now, Asleep(now), [])
  }

  ghost predicate Enabled(x: Limits, s: Timer, a: Step) {
    match a
    case Pass(to) =>
      && s.now <= to
      && (s.phase.Asleep? ==> to <= s.phase.wake + x.late)
      && forall q :: q in s.pings ==> to <= q + x.delay
    case Check => s.phase.Asleep? && s.phase.wake <= s.now
    case Enqueue => s.phase.Sending?
    case WritePing => s.pings != [] && (s.phase.Sending? ==> |s.pings| > 1)
    case WriteOther => true
  }

  ghost function Next(x: Limits, s: Timer, a: Step): Timer
    requires Enabled(x, s, a)
  {
    match a
    case Pass(to) => s.(now := to)
    case Check =>
      if s.now - s.lastSent >= x.duration then s.(phase := Sending, pings := s.pings + [s.now])
      else s.(phase := Asleep(s.now + (x.duration - (s.now - s.lastSent))))
    case Enqueue => s.(phase := Asleep(s.now + x.duration))
    case WritePing => Written(s).(pings := s.pings[1..])
    case WriteOther => Written(s)
  }

  function Written(s: Timer): Timer {
    s.(written := true, lastPacket := s.now, lastSent := s.now)
  }

  /** How much older than `lastSent` the last packet may be. */
  function Behind(x: Limits, s: Timer): Time {
    if s.written then 0 else x.wait
  }

  /** Without a ping on its way the loop wakes no later than a duration after the time it goes
      by; a ping on its way was decided on in time and is not overdue. */
  ghost predicate OnTime(x: Limits, s: Timer) {
    && s.lastPacket <= s.lastSent <= s.now
    && s.lastSent <= s.lastPacket + Behind(x, s)
    && (forall q :: q in s.pings ==> q <= s.now <= q + x.delay)
    && (s.pings != [] ==> s.pings[0] <= s.lastSent + x.duration + x.late)
    && (s.phase.Asleep? ==> s.phase.wake <= s.now + x.duration && s.now <= s.phase.wake + x.late)
    && (s.pings == [] ==> s.phase.Asleep? && s.phase.wake <= s.lastSent + x.duration)
  }

  lemma StepOnTime(x: Limits, s: Timer, a: Step)
    requires OnTime(x, s) && Enabled(x, s, a)
    ensures OnTime(x, Next(x, s, a))
  {
    if a.WritePing? {
      assert forall q :: q in s.pings[1..] ==> q in s.pings;
      assert |s.pings| > 1 ==> s.pings[1] in s.pings;
    }
  }

  ghost predicate Follows(x: Limits, run: seq<Timer>, steps: seq<Step>) {
    && |run| == |steps| + 1
    && forall i :: 0 <= i < |steps| ==> Enabled(x, run[i], steps[i]) && run[i + 1] == Next(x, run[i], steps[i])
  }

  ghost predicate IsRun(x: Limits, run: seq<Timer>, steps: seq<Step>) {
    && Follows(x, run, steps)
    && run[0] == Started(run[0].now, run[0].lastPacket)
    && run[0].lastPacket <= run[0].now <= run[0].lastPacket + x.wait
  }

  lemma {:induction false} RunOnTime(x: Limits, run: seq<Timer>, steps: seq<Step>, i: nat)
    requires IsRun(x, run, steps) && i < |run|
    ensures OnTime(x, run[i])
  {
    if i > 0 {
      RunOnTime(x, run, steps, i - 1);
      StepOnTime(x, run[i - 1], steps[i - 1]);
    }
  }

  /** At no time is the last packet older than the duration, the timer's lateness and the
      writing delay together, and the wait for the session on top while CONNECT is the last
      packet: this bounds the time between consecutive packets. */
  lemma GapBound(x: Limits, run: seq<Timer>, steps: seq<Step>, i: nat)
    requires IsRun(x, run, steps) && i < |run|
    ensures var s := run[i];
            && s.now - s.lastPacket <= x.duration + x.late + x.delay + Behind(x, s)
            && (s.pings == [] ==> s.now - s.lastPacket <= x.duration + x.late + Behind(x, s))
  {
    RunOnTime(x, run, steps, i);
    if run[i].pings != [] {
      assert run[i].pings[0] in run[i].pings;
    }
  }

  // ----- When pings are decided on -----

  predicate Writes(a: Step) {
    a.WritePing? || a.WriteOther?
  }

  /** The last packet that the writer wrote in the first `i` steps was written by step `k`. */
  ghost predicate LastWrite(steps: seq<Step>, i: nat, k: nat)
    requires i <= |steps|
  {
    k < i && Writes(steps[k]) && forall j :: k < j < i ==> !Writes(steps[j])
  }

  ghost predicate NoWrite(steps: seq<Step>, i: nat)
    requires i <= |steps|
  {
    forall j :: 0 <= j < i ==> !Writes(steps[j])
  }

  /** The loop goes by the time of the last write in the run, or by the start of the session. */
  lemma {:induction false} GoesByLastWrite(x: Limits, run: seq<Timer>, steps: seq<Step>, i: nat)
    returns (k: Option<nat>)
    requires IsRun(x, run, steps) && i <= |steps|
    ensures if k.Some? then LastWrite(steps, i, k.value) && run[i].lastSent == run[k.value].now
            else NoWrite(steps, i) && run[i].lastSent == run[0].now
  {
    if i == 0 {
      k := None;
    } else if Writes(steps[i - 1]) {
      k := Some(i - 1);
    } else {
      k := GoesByLastWrite(x, run, steps, i - 1);
    }
  }

  lemma {:induction false} TimePasses(x: Limits, run: seq<Timer>, steps: seq<Step>, i: nat, j: nat)
    requires IsRun(x, run, steps) && i <= j < |run|
    ensures run[i].now <= run[j].now
  {
    if i < j {
      TimePasses(x, run, steps, i, j - 1);
    }
  }

  /** The session started, and every packet of it was written, a duration ago or earlier. */
  ghost predicate Quiet(x: Limits, run: seq<Timer>, steps: seq<Step>, i: nat)
    requires i <= |steps| < |run|
  {
    && run[0].now + x.duration <= run[i].now
    && forall k :: 0 <= k < i && Writes(steps[k]) ==> run[k].now + x.duration <= run[i].now
  }

  /** In every run a step decides on a ping if and only if it is a check after a duration without
      a packet. */
  lemma PingIffQuiet(x: Limits, run: seq<Timer>, steps: seq<Step>, i: nat)
    requires IsRun(x, run, steps) && i < |steps|
    ensures run[i + 1].pings == run[i].pings + [run[i].now] <==> steps[i].Check? && Quiet(x, run, steps, i)
    ensures |run[i + 1].pings| > |run[i].pings| <==> steps[i].Check? && Quiet(x, run, steps, i)
  {
    var k := GoesByLastWrite(x, run, steps, i);
    forall j | 0 <= j < i && Writes(steps[j]) ensures run[j].now <= run[i].lastSent {
      TimePasses(x, run, steps, j, k.value);
    }
    TimePasses(x, run, steps, 0, if k.Some? then k.value else 0);
    assert |run[i].pings + [run[i].now]| == |run[i].pings| + 1;
  }

  /** Any other check leaves the loop asleep until exactly a duration after the last packet, or
      after the start of the session. */
  lemma OtherwiseAsleep(x: Limits, run: seq<Timer>, steps: seq<Step>, i: nat) returns (k: Option<nat>)
    requires IsRun(x, run, steps) && i < |steps| && steps[i].Check? && !Quiet(x, run, steps, i)
    ensures if k.Some? then LastWrite(steps, i, k.value) && run[i + 1].phase == Asleep(run[k.value].now + x.duration)
            else NoWrite(steps, i) && run[i + 1].phase == Asleep(run[0].now + x.duration)
  {
    k := GoesByLastWrite(x, run, steps, i);
    PingIffQuiet(x, run, steps, i);
    RunOnTime(x, run, steps, i);
  }

  /** The loop is awake at the earliest a duration after the check at step `i`. */
  lemma {:induction false} SleepsOn(x: Limits, run: seq<Timer>, steps: seq<Step>, i: nat, j: nat)
    requires IsRun(x, run, steps) && i < j < |run| && |run[i + 1].pings| > |run[i].pings|
    ensures run[j].phase.Asleep? ==> run[i].now + x.duration <= run[j].phase.wake
  {
    if i + 1 < j {
      SleepsOn(x, run, steps, i, j - 1);
      TimePasses(x, run, steps, i, j - 1);
      RunOnTime(x, run, steps, j - 1);
    }
  }

  /** Two decisions are at least a duration apart. */
  lemma PingsApart(x: Limits, run: seq<Timer>, steps: seq<Step>, i: nat, j: nat)
    requires IsRun(x, run, steps) && i < j < |steps|
    requires |run[i + 1].pings| > |run[i].pings| && |run[j + 1].pings| > |run[j].pings|
    ensures run[i].now + x.duration <= run[j].now
  {
    SleepsOn(x, run, steps, i, j);
    PingIffQuiet(x, run, steps, j);
  }

  // ----- The value announced in CONNECT -----

  /** Whole seconds, truncated to 16 bits. */
  function Announced(duration: Time): nat {
    (duration / SECOND) % 0x1_0000
  }

  /** Section 3.1.2.10 of MQTT Version 3.1.1: the server waits one and a half times the
      announced value; 0 turns the mechanism off. */
  predicate Patient(duration: Time, gap: int) {
    Announced(duration) == 0 || 2 * gap <= 3 * SECOND * Announced(duration)
  }

  function WorstGap(x: Limits): Time {
    x.duration + x.late + x.delay + x.wait
  }

  /** The slack that whole seconds leave: the fraction of a second that CONNECT does not
      announce, the lateness, the delay and the wait fit into half the announced time. */
  predicate Fits(x: Limits) {
    && x.duration < 0x1_0000 * SECOND
    && 2 * (x.duration % SECOND + x.late + x.delay + x.wait) <= SECOND * (x.duration / SECOND)
  }

  /** For every duration and any limits. */
  lemma PatientIff(x: Limits)
    ensures Patient(x.duration, WorstGap(x)) <==> Announced(x.duration) == 0 || Fits(x)
  {
    var seconds := x.duration / SECOND;
    var turns := seconds / 0x1_0000;
    assert x.duration == SECOND * seconds + x.duration % SECOND;
    assert seconds == turns * 0x1_0000 + Announced(x.duration);
  }

  /** Half the announced time, less the fraction of a second that is not announced; negative
      for the durations between one and a half and two seconds. */
  function HalvedSlack(duration: Time): int {
    SECOND * (duration / SECOND) - 2 * (duration % SECOND)
  }

  /** With timers and writer on time the durations that fail are those whose seconds overflow
      16 bits without becoming 0; those between one and a half and two seconds; and any other
      one when the CONNACK takes longer than the slack. */
  lemma PatientOnTimeIff(duration: Time, wait: Time)
    ensures Patient(duration, duration + wait) <==>
              Announced(duration) == 0
              || !(|| duration >= 0x1_0000 * SECOND
                   || 3 * SECOND < 2 * duration < 4 * SECOND
                   || 2 * wait > HalvedSlack(duration))
    ensures HalvedSlack(duration) < 0 && duration >= SECOND <==> 3 * SECOND < 2 * duration < 4 * SECOND
  {
    var seconds, part := duration / SECOND, duration % SECOND;
    assert duration == SECOND * seconds + part;
    PatientIff(Limits(duration, 0, 0, wait));
    if seconds >= 2 {
      assert SECOND * seconds >= SECOND * 2;
    }
  }

  /** The worst gap is reached: the CONNACK comes late, the timer fires late and the ping is
      written late. */
  lemma WorstRun(x: Limits) returns (run: seq<Timer>, steps: seq<Step>)
    requires x.duration > 0
    ensures IsRun(x, run, steps) && |run| == 5
    ensures run[4].now - run[4].lastPacket == WorstGap(x)
  {
    var late := x.wait + x.duration + x.late;
    var s0 := Started(x.wait, 0);
    var s1 := s0.(phase := Asleep(x.wait + x.duration));
    var s2 := s1.(now := late);
    var s3 := s2.(phase := Sending, pings := [late]);
    var s4 := s3.(now := late + x.delay);
    run, steps := [s0, s1, s2, s3, s4], [Check, Pass(late), Check, Pass(late + x.delay)];
    assert s2.pings == [] && [] + [late] == [late];
  }

  /** Over whole runs: if no value is announced or the slack fits, the server never runs out
      of patience. */
  lemma ServerNeverTimesOut(x: Limits, run: seq<Timer>, steps: seq<Step>, i: nat)
    requires IsRun(x, run, steps) && i < |run|
    requires Announced(x.duration) == 0 || Fits(x)
    ensures Patient(x.duration, run[i].now - run[i].lastPacket)
  {
    GapBound(x, run, steps, i);
    PatientIff(x);
  }

  /** Otherwise some run makes the server close the connection. */
  lemma ServerTimesOut(x: Limits) returns (run: seq<Timer>, steps: seq<Step>)
    requires Announced(x.duration) != 0 && !Fits(x)
    ensures IsRun(x, run, steps)
    ensures run[|run| - 1].lastPacket <= run[|run| - 1].now
    ensures !Patient(x.duration, run[|run| - 1].now - run[|run| - 1].lastPacket)
  {
    run, steps := WorstRun(x);
    PatientIff(x);
  }

  /** Nothing bounds the wait for the CONNACK: whatever is announced, and with timers and
      writer on time, some run makes the server close the connection. */
  lemma SomeWaitFails(duration: Time) returns (wait: Time, run: seq<Timer>, steps: seq<Step>)
    requires Announced(duration) != 0
    ensures IsRun(Limits(duration, 0, 0, wait), run, steps)
    ensures run[|run| - 1].lastPacket <= run[|run| - 1].now
    ensures !Patient(duration, run[|run| - 1].now - run[|run| - 1].lastPacket)
  {
    wait := duration;
    run, steps := ServerTimesOut(Limits(duration, 0, 0, wait));
  }
}
