/**
 * The stopwatch hook: displayed time, running flag, sampling interval and
 * the accumulated time that lets a stopped watch resume where it stopped.
 * Instants are integer milliseconds handed in by the caller; the displayed
 * time is in integer centiseconds.
 */
module Timer {

  /** Milliseconds rounded to the nearest centisecond, halves upwards. */
  function Centis(ms: int): int
  {
    (ms + 5) / 10
  }

  lemma CentisMonotone(a: int, b: int)
    requires a <= b
    ensures Centis(a) <= Centis(b)
  {
  }

  /** Rounding is off by at most half a centisecond. */
  lemma CentisNearest(ms: int)
    ensures ms - 5 < 10 * Centis(ms) <= ms + 5
  {
  }

  /** A whole number of centiseconds rounds to itself. */
  lemma CentisOfWhole(t: int)
    ensures Centis(10 * t) == t
  {
  }

  /**
   * The watch's state: `time` as displayed, `running`, whether the sampling
   * interval is scheduled, the accumulated milliseconds kept across a stop,
   * and the reference instant the sampling interval measures from.
   */
  datatype WatchState = WatchState(time: int, running: bool, sampling: bool, accumulated: int, startTime: int)
  {
    function Start(now: int): WatchState
    {
      if running then this
      else this.(startTime := now - accumulated, sampling := true, running := true)
    }

    function Stop(): WatchState
    {
      if !running then this
      else this.(sampling := false, accumulated := time * 10, running := false)
    }

    function Reset(): WatchState
    {
      this.(sampling := false, time := 0, running := false, accumulated := 0)
    }

    function ResetAndStart(autoStart: bool, now: int): WatchState
    {
      if autoStart then Reset().Start(now) else Reset()
    }

    function Toggle(now: int): WatchState
    {
      if running then Stop() else Start(now)
    }

    /** One firing of the sampling interval at instant now. */
    function Sample(now: int): WatchState
    {
      if sampling then this.(time := Centis(now - startTime)) else this
    }
  }

  const Stopped: WatchState := WatchState(0, false, false, 0, 0)

  /**
   * The watch invariant, given the latest instant the watch has seen: the
   * interval is scheduled exactly while running, a stopped watch keeps its
   * displayed time as its accumulated time, and a running watch's display
   * is never ahead of what a sample at `clock` would show.
   */
  ghost predicate Inv(s: WatchState, clock: int)
  {
    && s.sampling == s.running
    && s.time >= 0
    && (!s.running ==> s.accumulated == 10 * s.time)
    && (s.running ==> s.startTime <= clock && s.time <= Centis(clock - s.startTime))
  }

  lemma InitialInv(clock: int)
    ensures Inv(Stopped, clock)
  {
  }

  /** start is a no-op while running; otherwise it runs and samples from the accumulated offset. */
  lemma StartKeepsInv(s: WatchState, clock: int, now: int)
    requires Inv(s, clock) && clock <= now
    ensures Inv(s.Start(now), now)
    ensures s.running ==> s.Start(now) == s
    ensures !s.running ==> && s.Start(now).running && s.Start(now).sampling
                           && s.Start(now).time == s.time
                           && s.Start(now).startTime == now - s.accumulated
  {
    if s.running {
      CentisMonotone(clock - s.startTime, now - s.startTime);
    } else {
      CentisOfWhole(s.time);
    }
  }

  /** A sample at a later instant keeps the invariant and never moves the display backwards. */
  lemma SampleKeepsInv(s: WatchState, clock: int, now: int)
    requires Inv(s, clock) && clock <= now
    ensures Inv(s.Sample(now), now)
    ensures s.running ==> s.Sample(now).time == Centis(now - s.startTime) >= s.time
    ensures !s.running ==> s.Sample(now) == s
  {
    if s.running {
      CentisMonotone(clock - s.startTime, now - s.startTime);
    }
  }

  /** stop is a no-op when stopped; otherwise it freezes the display and banks it in milliseconds. */
  lemma StopKeepsInv(s: WatchState, clock: int)
    requires Inv(s, clock)
    ensures Inv(s.Stop(), clock)
    ensures !s.running ==> s.Stop() == s
    ensures !s.Stop().running && !s.Stop().sampling
    ensures s.Stop().time == s.time && s.Stop().accumulated == 10 * s.time
  {
  }

  /** reset clears everything, whatever state the watch was in. */
  lemma ResetClears(s: WatchState, clock: int)
    ensures Inv(s.Reset(), clock)
    ensures var r := s.Reset(); r.time == 0 && !r.running && !r.sampling && r.accumulated == 0
  {
  }

  /** toggleTimer flips the running flag. */
  lemma ToggleFlips(s: WatchState, clock: int, now: int)
    requires Inv(s, clock) && clock <= now
    ensures s.Toggle(now).running == !s.running
    ensures Inv(s.Toggle(now), if s.running then clock else now)
  {
    if s.running { StopKeepsInv(s, clock); } else { StartKeepsInv(s, clock, now); }
  }

  /** resetAndStart(true) runs from zero at now; resetAndStart(false) is reset. */
  lemma ResetAndStartRule(s: WatchState, clock: int, now: int)
    requires clock <= now
    ensures var r := s.ResetAndStart(true, now);
      && Inv(r, now) && r.running && r.sampling && r.time == 0 && r.accumulated == 0 && r.startTime == now
    ensures s.ResetAndStart(false, now) == s.Reset()
  {
    ResetClears(s, clock);
    StartKeepsInv(s.Reset(), clock, now);
  }

  /**
   * Stopping and starting again without a reset resumes: whenever the
   * restarted watch is sampled, it shows at least the time it stopped at.
   */
  lemma ResumeNotBehind(s: WatchState, clock: int, restart: int, now: int)
    requires Inv(s, clock) && clock <= restart <= now
    ensures s.Stop().Start(restart).Sample(now).time >= s.time
  {
    StopKeepsInv(s, clock);
    var stopped := s.Stop();
    StartKeepsInv(stopped, clock, restart);
    SampleKeepsInv(stopped.Start(restart), restart, now);
  }

  /** From a reset, a sample at now shows the time since the start, to within half a centisecond. */
  lemma ElapsedSinceFreshStart(s: WatchState, begin: int, now: int)
    requires begin <= now
    ensures var t := s.Reset().Start(begin).Sample(now).time;
      t == Centis(now - begin) && now - begin - 5 < 10 * t <= now - begin + 5
  {
    CentisNearest(now - begin);
  }

  /** The watch as an object whose fields the hook updates in place. */
  class Stopwatch {
    var time: int
    var running: bool
    var sampling: bool
    var accumulated: int
    var startTime: int
    /** The latest instant the watch has been handed; instants never go backwards. */
    ghost var clock: int

    ghost function State(): WatchState
      reads this
    {
      WatchState(time, running, sampling, accumulated, startTime)
    }

    ghost predicate Valid()
      reads this
    {
      Inv(State(), clock)
    }

    constructor (ghost now: int)
      ensures Valid() && State() == Stopped && clock == now
    {
      time, running, sampling, accumulated, startTime := 0, false, false, 0, 0;
      clock := now;
    }

    method Start(now: int)
      requires Valid() && clock <= now
      modifies this
      ensures Valid() && clock == now
      ensures State() == old(State()).Start(now)
    {
      StartKeepsInv(State(), clock, now);
      clock := now;
      if running {
        return;
      }
      startTime := now - accumulated;
      sampling := true;
      running := true;
    }

    method Stop()
      requires Valid()
      modifies this
      ensures Valid() && clock == old(clock)
      ensures State() == old(State()).Stop()
    {
      StopKeepsInv(State(), clock);
      if !running {
        return;
      }
      sampling := false;
      accumulated := time * 10;
      running := false;
    }

    method Reset()
      modifies this
      ensures Valid() && clock == old(clock)
      ensures State() == old(State()).Reset()
    {
      ResetClears(State(), clock);
      if sampling {
        sampling := false;
      }
      time := 0;
      running := false;
      accumulated := 0;
    }

    method ResetAndStart(autoStart: bool, now: int)
      requires Valid() && clock <= now
      modifies this
      ensures Valid() && clock == if autoStart then now else old(clock)
      ensures State() == old(State()).ResetAndStart(autoStart, now)
    {
      Reset();
      if autoStart {
        Start(now);
      }
    }

    method ToggleTimer(now: int)
      requires Valid() && clock <= now
      modifies this
      ensures Valid() && clock == if old(running) then old(clock) else now
      ensures State() == old(State()).Toggle(now)
      ensures running == !old(running)
    {
      ToggleFlips(State(), clock, now);
      if running {
        Stop();
      } else {
        Start(now);
      }
    }

    /** One firing of the sampling interval. */
    method Tick(now: int)
      requires Valid() && clock <= now
      modifies this
      ensures Valid() && clock == now
      ensures State() == old(State()).Sample(now)
      ensures running ==> time >= old(time)
    {
      SampleKeepsInv(State(), clock, now);
      clock := now;
      if sampling {
        time := Centis(now - startTime);
      }
    }
  }
}
