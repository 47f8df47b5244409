/**
 * The dashboard's hold-to-ready controller. A press starts a hold and a poll;
 * the poll arms the timer once the hold has lasted HoldDuration; a release
 * stops a running solve and records it, starts a solve from zero when armed,
 * and otherwise just ends the hold. Instants are integer milliseconds handed
 * in by the caller; times are integer centiseconds.
 */
module Dashboard {
  import opened Options
  import opened Scramble
  import opened Timer
  import Display

  /** Milliseconds a press must last before a release starts a solve. */
  const HoldDuration: int := 500

  const PuzzleType: string := "3x3"

  /** A completed solve, as handed to the backend log. */
  datatype SolveRecord = SolveRecord(puzzleType: string, scramble: string, time: int)

  datatype Phase = Idle | Holding | Ready | Running

  /**
   * The controller's state: the hold flag and its start instant, whether the
   * poll's handle is kept (`holdInterval`) and whether the poll is still
   * scheduled (`polling`: a poll that armed the timer cancels itself but its
   * handle stays until the release), the armed flag, the session's times,
   * the current scramble, the records sent to the log, and the stopwatch.
   */
  datatype ControllerState = ControllerState(
    isHolding: bool, holdStart: int, holdInterval: bool, polling: bool, ready: bool,
    times: seq<int>, scramble: seq<Move>, emitted: seq<SolveRecord>, watch: WatchState)
  {
    function Phase(): Phase
    {
      if watch.running then Running
      else if ready then Ready
      else if isHolding then Holding
      else Idle
    }

    /** A press at instant now. */
    function BeginHold(now: int): ControllerState
    {
      if watch.running then this
      else if isHolding then this
      else this.(isHolding := true, holdStart := now, ready := false, holdInterval := true, polling := true)
    }

    /** One firing of the hold poll at instant now. */
    function PollTick(now: int): ControllerState
    {
      if polling && isHolding && now - holdStart >= HoldDuration
      then this.(ready := true, polling := false)
      else this
    }

    function PollTicks(instants: seq<int>): ControllerState
      decreases |instants|
    {
      if |instants| == 0 then this else PollTick(instants[0]).PollTicks(instants[1..])
    }

    /** A release at instant now; `next` is the scramble the generator would produce. */
    function EndHold(now: int, next: seq<Move>): ControllerState
    {
      var s := if holdInterval then this.(polling := false, holdInterval := false) else this;
      if s.watch.running then
        s.(watch := s.watch.Stop(), times := s.times + [s.watch.time],
           emitted := s.emitted + [SolveRecord(PuzzleType, Join(s.scramble), s.watch.time)],
           scramble := next, isHolding := false, ready := false)
      else if !s.ready then s.(isHolding := false)
      else s.(watch := s.watch.Reset().Start(now), isHolding := false, ready := false)
    }

    /** The "Clear All Times" button. */
    function ClearTimes(): ControllerState
    {
      this.(times := [])
    }

    /** A new scramble, on mount and from the "New" button. */
    function NewScramble(next: seq<Move>): ControllerState
    {
      this.(scramble := next)
    }

    /** One firing of the stopwatch's sampling interval. */
    function SampleTick(now: int): ControllerState
    {
      this.(watch := watch.Sample(now))
    }
  }

  /** The status label under the timer. */
  function StatusText(s: ControllerState): string
  {
    if s.watch.running then "SOLVING..."
    else if s.ready then "READY - RELEASE TO START"
    else "HOLD TO GET READY"
  }

  /** The page turns green exactly while armed. */
  function ArmedBackground(s: ControllerState): bool
  {
    s.ready
  }

  function Initial(): ControllerState
  {
    ControllerState(false, 0, false, false, false, [], [], [], Stopped)
  }

  /** The generated scramble, or no moves if the random source ran dry. */
  function NextScramble(draws: seq<Draw>): seq<Move>
  {
    match Generate(draws, DefaultLength)
    case Some(ms) => ms
    case None => []
  }

  /**
   * The controller invariant: a poll handle is kept exactly while holding; a
   * scheduled poll means holding and not armed; armed means holding with the
   * poll finished; a hold is either polling or armed; nothing is held while
   * a solve runs.
   */
  ghost predicate HoldInv(s: ControllerState)
  {
    && s.holdInterval == s.isHolding
    && (s.polling ==> s.isHolding && !s.ready)
    && (s.ready ==> s.isHolding && !s.polling)
    && (s.isHolding ==> s.polling || s.ready)
    && (s.watch.running ==> !s.isHolding)
  }

  /** Under the invariant the label names the phase, a hold not yet armed reading as idle. */
  lemma StatusNamesPhase(s: ControllerState)
    requires HoldInv(s)
    ensures StatusText(s) == "SOLVING..." <==> s.Phase() == Running
    ensures StatusText(s) == "READY - RELEASE TO START" <==> s.Phase() == Ready
    ensures StatusText(s) == "HOLD TO GET READY" <==> s.Phase() in {Idle, Holding}
    ensures ArmedBackground(s) <==> s.Phase() == Ready
  {
  }

  lemma InitialHoldInv()
    ensures HoldInv(Initial()) && Initial().Phase() == Idle
  {
  }

  /** A press during a solve is ignored. */
  lemma BeginHoldWhileRunning(s: ControllerState, now: int)
    requires s.watch.running
    ensures s.BeginHold(now) == s
  {
  }

  /** A second press without a release in between has no further effect. */
  lemma BeginHoldIdempotent(s: ControllerState, first: int, second: int)
    ensures s.BeginHold(first).BeginHold(second) == s.BeginHold(first)
  {
  }

  /** A press when idle starts a hold at now with the poll scheduled. */
  lemma BeginHoldFromIdle(s: ControllerState, now: int)
    requires HoldInv(s) && s.Phase() == Idle
    ensures var r := s.BeginHold(now);
      && HoldInv(r) && r.Phase() == Holding && r.holdStart == now && r.polling && !r.ready
      && r.times == s.times && r.scramble == s.scramble && r.watch == s.watch
  {
  }

  lemma BeginHoldKeepsInv(s: ControllerState, now: int)
    requires HoldInv(s)
    ensures HoldInv(s.BeginHold(now))
    ensures s.Phase() != Idle ==> s.BeginHold(now) == s
  {
  }

  /**
   * The poll arms the timer, and cancels itself, exactly when it finds a hold
   * that has lasted the hold duration; otherwise it changes nothing.
   */
  lemma PollTickRule(s: ControllerState, now: int)
    requires HoldInv(s)
    ensures var fires := s.polling && s.isHolding && now - s.holdStart >= HoldDuration;
      var r := s.PollTick(now);
      && HoldInv(r)
      && (r.ready <==> s.ready || fires)
      && (r.polling <==> s.polling && !fires)
      && r.(ready := s.ready, polling := s.polling) == s
      && r.Phase() == (if fires then Ready else s.Phase())
  {
  }

  lemma {:induction false} PollTicksKeepInv(s: ControllerState, instants: seq<int>)
    requires HoldInv(s)
    ensures var r := s.PollTicks(instants);
      && HoldInv(r)
      && r.(ready := s.ready, polling := s.polling) == s
      && (s.ready ==> r.ready)
    decreases |instants|
  {
    if |instants| > 0 {
      PollTickRule(s, instants[0]);
      PollTicksKeepInv(s.PollTick(instants[0]), instants[1..]);
    }
  }

  /** Polls that all come before the hold duration has passed leave the hold unarmed. */
  lemma {:induction false} EarlyPollsNeverArm(s: ControllerState, instants: seq<int>)
    requires HoldInv(s) && !s.ready
    requires forall k :: 0 <= k < |instants| ==> instants[k] - s.holdStart < HoldDuration
    ensures s.PollTicks(instants) == s
    decreases |instants|
  {
    if |instants| > 0 {
      assert s.PollTick(instants[0]) == s;
      EarlyPollsNeverArm(s, instants[1..]);
    }
  }

  /**
   * A release during a solve stops the watch, records the time it showed
   * (once, in the list and in the log), replaces the scramble and goes idle.
   */
  lemma EndHoldAfterSolve(s: ControllerState, now: int, next: seq<Move>)
    requires HoldInv(s) && s.watch.running
    ensures var r := s.EndHold(now, next);
      && HoldInv(r) && r.Phase() == Idle
      && r.watch == s.watch.Stop() && !r.watch.running && r.watch.time == s.watch.time
      && r.times == s.times + [s.watch.time]
      && r.emitted == s.emitted + [SolveRecord(PuzzleType, Join(s.scramble), s.watch.time)]
      && r.scramble == next
      && !r.isHolding && !r.ready && !r.polling
  {
  }

  /** A release before the timer was armed records nothing, starts nothing and ends the hold. */
  lemma EndHoldTooEarly(s: ControllerState, now: int, next: seq<Move>)
    requires HoldInv(s) && !s.watch.running && !s.ready
    ensures var r := s.EndHold(now, next);
      && HoldInv(r) && r.Phase() == Idle
      && r.watch == s.watch && r.times == s.times && r.scramble == s.scramble && r.emitted == s.emitted
      && !r.isHolding && !r.polling
  {
  }

  /** A release when armed starts a solve from zero at now and records nothing. */
  lemma EndHoldWhenReady(s: ControllerState, now: int, next: seq<Move>)
    requires HoldInv(s) && !s.watch.running && s.ready
    ensures var r := s.EndHold(now, next);
      && HoldInv(r) && r.Phase() == Running
      && r.watch == s.watch.ResetAndStart(true, now)
      && r.watch.running && r.watch.sampling && r.watch.time == 0 && r.watch.accumulated == 0
      && r.watch.startTime == now
      && r.times == s.times && r.scramble == s.scramble && r.emitted == s.emitted
      && !r.isHolding && !r.ready
  {
  }

  /** A release starts a solve exactly when the timer was armed, and otherwise lands idle. */
  lemma EndHoldPhase(s: ControllerState, now: int, next: seq<Move>)
    requires HoldInv(s)
    ensures HoldInv(s.EndHold(now, next))
    ensures s.EndHold(now, next).Phase() == if s.Phase() == Ready then Running else Idle
  {
    if s.watch.running {
      EndHoldAfterSolve(s, now, next);
    } else if s.ready {
      EndHoldWhenReady(s, now, next);
    } else {
      EndHoldTooEarly(s, now, next);
    }
  }

  /** Press, polls before the hold duration, release: the watch is never started. */
  lemma {:induction false} ShortHoldNeverStarts(s: ControllerState, press: int, polls: seq<int>, release: int, next: seq<Move>)
    requires HoldInv(s) && s.Phase() == Idle
    requires forall k :: 0 <= k < |polls| ==> polls[k] - press < HoldDuration
    ensures var r := s.BeginHold(press).PollTicks(polls).EndHold(release, next);
      && r.Phase() == Idle && r.watch == s.watch && r.times == s.times
  {
    var held := s.BeginHold(press);
    BeginHoldFromIdle(s, press);
    EarlyPollsNeverArm(held, polls);
    EndHoldTooEarly(held, release, next);
  }

  /**
   * In time order: a press, polls, and a release less than the hold duration
   * after the press. Nothing is started or recorded.
   */
  lemma ReleasedTooSoon(s: ControllerState, press: int, polls: seq<int>, release: int, next: seq<Move>)
    requires HoldInv(s) && s.Phase() == Idle
    requires forall k :: 0 <= k < |polls| ==> press <= polls[k] <= release
    requires release - press < HoldDuration
    ensures var r := s.BeginHold(press).PollTicks(polls).EndHold(release, next);
      && r.Phase() == Idle && r.watch == s.watch && r.times == s.times
  {
    ShortHoldNeverStarts(s, press, polls, release, next);
  }

  /**
   * Press, any polls, one poll after the hold duration, release: a solve
   * runs from zero, measured from the release.
   */
  lemma {:induction false} LongHoldStarts(s: ControllerState, press: int, polls: seq<int>, armed: int, release: int, next: seq<Move>)
    requires HoldInv(s) && s.Phase() == Idle
    requires armed - press >= HoldDuration
    ensures var r := s.BeginHold(press).PollTicks(polls).PollTick(armed).EndHold(release, next);
      && r.Phase() == Running && r.watch.time == 0 && r.watch.startTime == release && r.times == s.times
  {
    var held := s.BeginHold(press);
    BeginHoldFromIdle(s, press);
    PollTicksKeepInv(held, polls);
    var polled := held.PollTicks(polls);
    PollTickRule(polled, armed);
    EndHoldWhenReady(polled.PollTick(armed), release, next);
  }

  lemma ClearTimesRule(s: ControllerState)
    requires HoldInv(s)
    ensures var r := s.ClearTimes();
      HoldInv(r) && r.times == [] && Display.RecentTimes(r.times) == Display.NoTimesYet
      && r.(times := s.times) == s
  {
  }

  lemma NewScrambleRule(s: ControllerState, draws: seq<Draw>)
    requires HoldInv(s) && Generate(draws, DefaultLength).Some?
    ensures var r := s.NewScramble(NextScramble(draws));
      && HoldInv(r) && |r.scramble| == DefaultLength && NoAdjacentFace(r.scramble)
      && r.(scramble := s.scramble) == s
  {
    GeneratedWellFormed(draws, DefaultLength, None);
  }

  /** Sampling changes only the displayed time, and never lowers it while running. */
  lemma SampleTickRule(s: ControllerState, clock: int, now: int)
    requires HoldInv(s) && Inv(s.watch, clock) && clock <= now
    ensures var r := s.SampleTick(now);
      && HoldInv(r) && Inv(r.watch, now) && r.Phase() == s.Phase()
      && (s.watch.running ==> r.watch.time >= s.watch.time)
      && r.(watch := s.watch) == s
  {
    SampleKeepsInv(s.watch, clock, now);
  }

  /**
   * A whole solve: hold 600 ms from an idle start, release, solve for 3.47 s,
   * press and release: one time of 3.47 s is recorded and listed as "#1".
   */
  lemma {:induction false} SolveScenario(s: ControllerState, next: seq<Move>)
    requires HoldInv(s) && s.Phase() == Idle && s.times == []
    ensures var held := s.BeginHold(1000).PollTicks([1050, 1100, 1450]).PollTick(1500);
      var solving := held.EndHold(1600, next).SampleTick(5070);
      var done := solving.BeginHold(5070).EndHold(5070, next);
      && solving.Phase() == Running && solving.watch.time == 347
      && done.Phase() == Idle && done.times == [347]
      && Display.RecentTimes(done.times) == Display.Listed([Display.Row(1, 347)])
      && Display.StatText(347) == "3.47s"
  {
    var held0 := s.BeginHold(1000);
    BeginHoldFromIdle(s, 1000);
    EarlyPollsNeverArm(held0, [1050, 1100, 1450]);
    var held := held0.PollTicks([1050, 1100, 1450]).PollTick(1500);
    EndHoldWhenReady(held0.PollTick(1500), 1600, next);
    var solving := held.EndHold(1600, next).SampleTick(5070);
    assert solving.watch.time == Centis(3470) == 347;
    EndHoldAfterSolve(solving, 5070, next);
    var rows := Display.RecentTimes([347]).rows;
    assert rows[0] == Display.Row(1, 347);
    assert rows == [Display.Row(1, 347)];
    assert Display.NatText(3) == "3";
    assert Display.SecondsText(347) == "3.47";
  }

  /** The controller as the dashboard holds it: refs and state updated in place, and the stopwatch. */
  class HoldController {
    const watch: Stopwatch
    var isHolding: bool
    var holdStart: int
    var holdInterval: bool
    var polling: bool
    var ready: bool
    var times: seq<int>
    var scramble: seq<Move>
    /** The records handed to the backend log, in order. */
    ghost var emitted: seq<SolveRecord>
    /** The latest instant the controller has been handed; instants never go backwards. */
    ghost var clock: int

    ghost function State(): ControllerState
      reads this, watch
    {
      ControllerState(isHolding, holdStart, holdInterval, polling, ready, times, scramble, emitted, watch.State())
    }

    ghost predicate Valid()
      reads this, watch
    {
      && watch.Valid() && HoldInv(State())
      && watch.clock <= clock
      && (isHolding ==> holdStart <= clock)
    }

    constructor (ghost now: int)
      ensures Valid() && fresh(watch) && State() == Initial() && clock == now
    {
      watch := new Stopwatch(now);
      isHolding, holdStart, holdInterval, polling, ready := false, 0, false, false, false;
      times, scramble := [], [];
      emitted := [];
      clock := now;
    }

    method BeginHold(now: int)
      requires Valid() && clock <= now
      modifies this
      ensures Valid() && clock == now
      ensures State() == old(State()).BeginHold(now)
    {
      BeginHoldKeepsInv(State(), now);
      clock := now;
      if watch.running {
        return;
      }
      if !isHolding {
        isHolding := true;
        holdStart := now;
        ready := false;
        holdInterval := true;
        polling := true;
      }
    }

    /** One firing of the hold poll. */
    method PollTick(now: int)
      requires Valid() && clock <= now
      modifies this
      ensures Valid() && clock == now
      ensures State() == old(State()).PollTick(now)
    {
      PollTickRule(State(), now);
      clock := now;
      if polling {
        if isHolding {
          var holdTime := now - holdStart;
          if holdTime >= HoldDuration {
            ready := true;
            polling := false;
          }
        }
      }
    }

    method EndHold(now: int, draws: seq<Draw>)
      requires Valid() && clock <= now
      requires watch.running ==> Generate(draws, DefaultLength).Some?
      modifies this, watch
      ensures Valid() && clock == now
      ensures State() == old(State()).EndHold(now, NextScramble(draws))
      ensures old(watch.running) ==> |scramble| == DefaultLength && NoAdjacentFace(scramble)
    {
      EndHoldPhase(State(), now, NextScramble(draws));
      clock := now;
      if holdInterval {
        polling := false;
        holdInterval := false;
      }
      if watch.running {
        var finalTime := watch.time;
        watch.Stop();
        times := times + [finalTime];
        emitted := emitted + [SolveRecord(PuzzleType, Join(scramble), finalTime)];
        var next := GenerateScramble(draws, DefaultLength);
        scramble := next.value;
        isHolding := false;
        ready := false;
        return;
      }
      if !ready {
        isHolding := false;
        return;
      }
      watch.Reset();
      watch.Start(now);
      isHolding := false;
      ready := false;
    }

    method ClearTimes()
      requires Valid()
      modifies this
      ensures Valid() && State() == old(State()).ClearTimes()
      ensures clock == old(clock)
    {
      times := [];
    }

    method NewScramble(draws: seq<Draw>)
      requires Valid() && Generate(draws, DefaultLength).Some?
      modifies this
      ensures Valid() && State() == old(State()).NewScramble(NextScramble(draws))
      ensures clock == old(clock)
      ensures |scramble| == DefaultLength && NoAdjacentFace(scramble)
    {
      var next := GenerateScramble(draws, DefaultLength);
      scramble := next.value;
    }

    /** One firing of the stopwatch's sampling interval. */
    method SampleTick(now: int)
      requires Valid() && clock <= now
      modifies this, watch
      ensures Valid() && clock == now
      ensures State() == old(State()).SampleTick(now)
    {
      watch.Tick(now);
      clock := now;
    }
  }

  /**
   * The same solve driven through the objects: the one recorded time is the
   * 3.47 s the watch showed when the solve was stopped.
   */
  method SolveSession(draws: seq<Draw>) returns (recorded: seq<int>)
    requires Generate(draws, DefaultLength).Some?
    ensures recorded == [347]
  {
    var c := new HoldController(0);
    c.NewScramble(draws);
    c.BeginHold(1000);
    c.PollTick(1050);
    c.PollTick(1500);
    c.EndHold(1600, draws);
    c.SampleTick(5070);
    c.BeginHold(5070);
    c.EndHold(5070, draws);
    recorded := c.times;
  }
}
