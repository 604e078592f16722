/**
 * The frame timer (Source/Core/Application/Timer.h, Timer.cpp): integer
 * performance-counter readings with pause accounting.
 *
 * Every operation that reads the performance counter takes the reading as
 * a parameter `now`. The float seconds the timer reports are the tick
 * differences kept here divided by the counter frequency, so the model
 * keeps the tick differences: deltaTicks for m_deltaTime and totalTicks
 * for m_totalTime.
 */
module Timing {

  /** The timer's integer state. */
  datatype TimerState = TimerState(
    baseTime: int,
    pausedTime: int,
    stopTime: int,
    prevTime: int,
    currTime: int,
    deltaTicks: int,
    totalTicks: int,
    frameCount: nat,
    stopped: bool)

  /** Reset: base and previous time are now; stop time, paused time and the frame count are zero; running. */
  function ResetAt(s: TimerState, now: int): (r: TimerState)
    ensures r.baseTime == now && r.prevTime == now && r.stopTime == 0 && r.pausedTime == 0
    ensures r.frameCount == 0 && !r.stopped
    ensures r.currTime == s.currTime && r.deltaTicks == s.deltaTicks && r.totalTicks == s.totalTicks
  {
    s.(baseTime := now, prevTime := now, stopTime := 0, pausedTime := 0, stopped := false, frameCount := 0)
  }

  /** Start: resumes a stopped timer, counting the stop as paused time; a running timer is unchanged. */
  function StartAt(s: TimerState, now: int): (r: TimerState)
  {
    if s.stopped then
      s.(pausedTime := s.pausedTime + (now - s.stopTime), prevTime := now, stopTime := 0, stopped := false)
    else s
  }

  /** Stop: a running timer remembers when it stopped; a stopped timer is unchanged. */
  function StopAt(s: TimerState, now: int): (r: TimerState)
  {
    if !s.stopped then s.(stopTime := now, stopped := true) else s
  }

  /**
   * Tick: while stopped only the delta is zeroed; while running the delta
   * since the previous tick (never negative), the running total, one more
   * frame and the new previous time.
   */
  function TickAt(s: TimerState, now: int): (r: TimerState)
  {
    if s.stopped then s.(deltaTicks := 0)
    else
      s.(currTime := now,
         deltaTicks := if now - s.prevTime < 0 then 0 else now - s.prevTime,
         totalTicks := (now - s.pausedTime) - s.baseTime,
         frameCount := s.frameCount + 1,
         prevTime := now)
  }

  /** The member initialisers of Timer.h. */
  const Initial: TimerState := TimerState(0, 0, 0, 0, 0, 0, 0, 0, false)

  lemma StopIsIdempotent(s: TimerState, t1: int, t2: int)
    ensures StopAt(StopAt(s, t1), t2) == StopAt(s, t1)
    ensures s.stopped ==> StopAt(s, t1) == s
    ensures !s.stopped ==> StopAt(s, t1).stopTime == t1 && StopAt(s, t1).stopped
  {
  }

  lemma StartOnRunningTimerChangesNothing(s: TimerState, now: int)
    requires !s.stopped
    ensures StartAt(s, now) == s
  {
  }

  /** Start after Stop adds the stopped interval to the paused time and resumes from now. */
  lemma StartAfterStop(s: TimerState, stopAt: int, startAt: int)
    requires !s.stopped
    ensures var r := StartAt(StopAt(s, stopAt), startAt);
            r.pausedTime == s.pausedTime + (startAt - stopAt) && r.prevTime == startAt &&
            r.stopTime == 0 && !r.stopped && r.baseTime == s.baseTime && r.frameCount == s.frameCount
  {
  }

  /** A stopped tick zeroes the delta and keeps the frame count and previous time. */
  lemma TickWhileStopped(s: TimerState, now: int)
    requires s.stopped
    ensures TickAt(s, now).deltaTicks == 0
    ensures TickAt(s, now).frameCount == s.frameCount && TickAt(s, now).prevTime == s.prevTime
    ensures TickAt(s, now).totalTicks == s.totalTicks
  {
  }

  /** A running tick counts one frame, moves the previous time to now and never reports a negative delta. */
  lemma TickWhileRunning(s: TimerState, now: int)
    requires !s.stopped
    ensures TickAt(s, now).frameCount == s.frameCount + 1 && TickAt(s, now).prevTime == now
    ensures TickAt(s, now).deltaTicks >= 0
    ensures now >= s.prevTime ==> TickAt(s, now).deltaTicks == now - s.prevTime
  {
  }

  /**
   * An independent stopwatch: the ticks spent running since the last reset,
   * whether it is stopped, and the last reading it took while running.
   */
  datatype Watch = Watch(running: int, stopped: bool, last: int)

  datatype Event = ResetEvent(time: int) | StartEvent(time: int) | StopEvent(time: int) | TickEvent(time: int)

  /** What the stopwatch sees: running time accumulates between readings taken while running. */
  function Observe(w: Watch, e: Event): Watch
  {
    match e
    case ResetEvent(t) => Watch(0, false, t)
    case StartEvent(t) => if w.stopped then Watch(w.running, false, t) else w
    case StopEvent(t) => if w.stopped then w else Watch(w.running + (t - w.last), true, t)
    case TickEvent(t) => if w.stopped then w else Watch(w.running + (t - w.last), false, t)
  }

  /** The timer operation an event stands for. */
  function Apply(s: TimerState, e: Event): TimerState
  {
    match e
    case ResetEvent(t) => ResetAt(s, t)
    case StartEvent(t) => StartAt(s, t)
    case StopEvent(t) => StopAt(s, t)
    case TickEvent(t) => TickAt(s, t)
  }

  /** A timer constructed at t0 (Timer() resets) after the events, in order. */
  function Replay(t0: int, es: seq<Event>): TimerState
  {
    if es == [] then ResetAt(Initial, t0) else Apply(Replay(t0, es[..|es| - 1]), es[|es| - 1])
  }

  /** The stopwatch started at t0 after the same events. */
  function WatchAfter(t0: int, es: seq<Event>): Watch
  {
    if es == [] then Watch(0, false, t0) else Observe(WatchAfter(t0, es[..|es| - 1]), es[|es| - 1])
  }

  /**
   * The pause accounting: the current reading (the stop time while stopped)
   * minus the paused time and the base time is exactly the running time; a
   * stopped timer's stop time is the stopwatch's last reading; paused time
   * is never negative.
   */
  ghost predicate Accounted(s: TimerState, w: Watch)
  {
    s.stopped == w.stopped &&
    (if s.stopped then s.stopTime else w.last) - s.pausedTime - s.baseTime == w.running &&
    (s.stopped ==> s.stopTime == w.last) &&
    s.pausedTime >= 0
  }

  /** Each operation keeps the accounting, given a reading no earlier than the last one. */
  lemma ApplyKeepsAccounted(s: TimerState, w: Watch, e: Event)
    requires Accounted(s, w) && e.time >= w.last
    ensures Accounted(Apply(s, e), Observe(w, e))
    ensures Observe(w, e).last >= w.last
  {
  }

  /** The event times never decrease, starting from t0. */
  predicate Chronological(t0: int, es: seq<Event>)
  {
    (forall i :: 0 <= i < |es| ==> t0 <= es[i].time) &&
    (forall i, j :: 0 <= i < j < |es| ==> es[i].time <= es[j].time)
  }

  /** Over any chronological history the timer's accounting matches the stopwatch. */
  lemma {:induction false} ReplayIsAccounted(t0: int, es: seq<Event>)
    requires Chronological(t0, es)
    ensures Accounted(Replay(t0, es), WatchAfter(t0, es))
    ensures WatchAfter(t0, es).last == t0 || exists i :: 0 <= i < |es| && WatchAfter(t0, es).last == es[i].time
  {
    if es != [] {
      var prefix := es[..|es| - 1];
      assert Chronological(t0, prefix);
      ReplayIsAccounted(t0, prefix);
      var w := WatchAfter(t0, prefix);
      if w.last != t0 {
        var i :| 0 <= i < |prefix| && w.last == prefix[i].time;
        assert es[i].time <= es[|es| - 1].time;
      }
      ApplyKeepsAccounted(Replay(t0, prefix), w, es[|es| - 1]);
      var e := es[|es| - 1];
      if Observe(w, e) != w && Observe(w, e).last != t0 {
        assert Observe(w, e).last == es[|es| - 1].time;
      } else if Observe(w, e).last != t0 {
        var i :| 0 <= i < |prefix| && w.last == prefix[i].time;
        assert es[i] == prefix[i];
      }
    }
  }

  /**
   * The total a running tick reports is the time the timer has been
   * running since it was last reset, paused intervals excluded; the paused
   * time is never negative.
   */
  lemma TotalTimeExcludesPauses(t0: int, es: seq<Event>, now: int)
    requires Chronological(t0, es + [TickEvent(now)])
    requires !Replay(t0, es).stopped
    ensures Replay(t0, es + [TickEvent(now)]).totalTicks == WatchAfter(t0, es + [TickEvent(now)]).running
    ensures Replay(t0, es + [TickEvent(now)]).pausedTime >= 0
  {
    var all := es + [TickEvent(now)];
    assert all[..|all| - 1] == es;
    ReplayIsAccounted(t0, all);
  }

  /** Timer: the counter state; the frequency, FPS and float conversions are not modelled. */
  class Timer {
    var baseTime: int
    var pausedTime: int
    var stopTime: int
    var prevTime: int
    var currTime: int
    var deltaTicks: int
    var totalTicks: int
    var frameCount: nat
    var stopped: bool

    function State(): TimerState
      reads this
    {
      TimerState(baseTime, pausedTime, stopTime, prevTime, currTime, deltaTicks, totalTicks, frameCount, stopped)
    }

    /** Timer(): the initialisers, then Reset at the first reading. */
    constructor (now: int)
      ensures State() == Replay(now, [])
    {
      baseTime, pausedTime, stopTime, prevTime, currTime := 0, 0, 0, 0, 0;
      deltaTicks, totalTicks, frameCount, stopped := 0, 0, 0, false;
      new;
      Reset(now);
    }

    method Start(now: int)
      modifies this
      ensures State() == StartAt(old(State()), now)
    {
      var startTime := now;
      if stopped {
        pausedTime := pausedTime + (startTime - stopTime);
        prevTime := startTime;
        stopTime := 0;
        stopped := false;
      }
    }

    method Stop(now: int)
      modifies this
      ensures State() == StopAt(old(State()), now)
    {
      if !stopped {
        stopTime := now;
        stopped := true;
      }
    }

    method Reset(now: int)
      modifies this
      ensures State() == ResetAt(old(State()), now)
    {
      baseTime := now;
      prevTime := now;
      stopTime := 0;
      pausedTime := 0;
      stopped := false;
      frameCount := 0;
    }

    method Tick(now: int)
      modifies this
      ensures State() == TickAt(old(State()), now)
    {
      if stopped {
        deltaTicks := 0;
        return;
      }
      currTime := now;
      deltaTicks := currTime - prevTime;
      if deltaTicks < 0 {
        deltaTicks := 0;
      }
      totalTicks := (currTime - pausedTime) - baseTime;
      frameCount := frameCount + 1;
      prevTime := currTime;
    }

    /** IsRunning: the timer is not paused. */
    predicate IsRunning(): (running: bool)
      reads this
      ensures running <==> !State().stopped
    {
      !stopped
    }
  }
}
