/** The passage of time, and the session as the front end drives it.

    The library timer and stopwatch are replaced by whole seconds: while the
    timer is ticking the stopwatch counts up, and when it reaches the length
    of the interval in progress the timer fires the interval-elapsed
    handler, which restarts the stopwatch. A timer armed with no handler
    attached fires into nothing and the stopwatch runs on. */
module Clock {
  import opened CSharp
  import opened Pomodoro
  import Cycle

  /** What holds of a session between any two calls: the round index is in
      range, and a running timer with its handler attached has not yet
      overrun the interval in progress. */
  predicate Inv(c: Config, s: State) {
    && 0 <= s.roundi < c.numberOfRounds
    && (s.ticking && s.subscribed ==> s.elapsed < IntervalSeconds(c, s))
  }

  /** `dt` seconds of wall-clock time. Only the handler's firings are
      notified; nothing outside the timer fields and the log changes. */
  function Advance(c: Config, s: State, dt: nat): (r: State)
    requires c.Valid() && Inv(c, s)
    ensures Inv(c, r)
    ensures r.ticking == s.ticking && r.subscribed == s.subscribed
    ensures r.tasks == s.tasks && r.disposed == s.disposed
    ensures !s.ticking ==> r == s
    ensures |s.log| <= |r.log| && r.log[..|s.log|] == s.log
    ensures forall i :: |s.log| <= i < |r.log| ==> r.log[i].StartingRound? || r.log[i].StartingBreak?
    decreases dt
  {
    if !s.ticking then s
    else if !s.subscribed then s.(elapsed := s.elapsed + dt)
    else
      var left := IntervalSeconds(c, s) - s.elapsed;
      if dt < left then s.(elapsed := s.elapsed + dt)
      else
        var t := OnTimedEvent(c, s);
        var r := Advance(c, t, dt - left);
        assert r.log[..|t.log|] == t.log;
        r
  }

  /** Waiting `a` seconds and then `b` more is waiting `a + b`. */
  lemma {:induction false} AdvanceSplit(c: Config, s: State, a: nat, b: nat)
    requires c.Valid() && Inv(c, s)
    ensures Advance(c, s, a + b) == Advance(c, Advance(c, s, a), b)
    decreases a
  {
    if s.ticking && s.subscribed {
      var left := IntervalSeconds(c, s) - s.elapsed;
      if a >= left {
        AdvanceSplit(c, OnTimedEvent(c, s), a - left, b);
        assert a + b - left == (a - left) + b;
      } else if a + b >= left {
        var s' := Advance(c, s, a);
        assert s' == s.(elapsed := s.elapsed + a);
        assert OnTimedEvent(c, s') == OnTimedEvent(c, s);
      }
    }
  }

  /** Waiting out the first `m` intervals of a freshly started interval is
      exactly `m` firings of the handler: the durations summed by
      `Cycle.Duration` are the time the clock takes. */
  lemma {:induction false} AdvanceThroughDuration(c: Config, s: State, m: nat)
    requires c.Valid() && Inv(c, s)
    requires s.ticking && s.subscribed && s.elapsed == 0
    ensures Advance(c, s, Cycle.Duration(c, s, m)) == Cycle.Fire(c, s, m)
    decreases m
  {
    if m > 0 {
      var p := Cycle.Fire(c, s, m - 1);
      AdvanceThroughDuration(c, s, m - 1);
      AdvanceSplit(c, s, Cycle.Duration(c, s, m - 1), IntervalSeconds(c, p));
      assert p.elapsed == 0 && Inv(c, p) && p.ticking && p.subscribed;
      FiresWhenTimeRunsOut(c, p);
    }
  }

  /** A full cycle on the clock: `Cycle.CycleSeconds` after round 0 begins
      (`n` rounds, `n - 1` short breaks and one long break), the timer
      begins round 0 again with the whole schedule announced. */
  lemma ClockCycle(c: Config, s: State)
    requires c.Valid() && Inv(c, s)
    requires s.ticking && s.subscribed && s.elapsed == 0
    requires s.roundi == 0 && s.inRound
    ensures var t := Advance(c, s, Cycle.CycleSeconds(c));
            && t.roundi == 0 && t.inRound && t.elapsed == 0
            && t.log == s.log + Cycle.CycleLog(c.numberOfRounds, c.numberOfRounds)
  {
    var n: int := c.numberOfRounds;
    var total := Cycle.CycleSeconds(c);
    Cycle.CycleDuration(c, s);
    assert Cycle.Duration(c, s, 2 * n) == total;
    AdvanceThroughDuration(c, s, 2 * n);
    FiredCycle(c, s);
    assert Advance(c, s, total) == Cycle.Fire(c, s, 2 * n);
  }

  /** The state `2n` firings after round 0 begins. */
  lemma FiredCycle(c: Config, s: State)
    requires c.Valid()
    requires s.roundi == 0 && s.inRound
    ensures Cycle.Fire(c, s, 2 * c.numberOfRounds).roundi == 0
    ensures Cycle.Fire(c, s, 2 * c.numberOfRounds).inRound
    ensures Cycle.Fire(c, s, 2 * c.numberOfRounds).elapsed == 0
    ensures Cycle.Fire(c, s, 2 * c.numberOfRounds).log == s.log + Cycle.CycleLog(c.numberOfRounds, c.numberOfRounds)
  {
    var n: int := c.numberOfRounds;
    assert Cycle.Fire(c, s, 2 * n) == OnTimedEvent(c, Cycle.Fire(c, s, 2 * n - 1));
    Cycle.FollowsSchedule(c, s, n);
    Cycle.CycleReturnsToStart(c, s);
  }

  /** Within an interval time only counts the remaining time down. */
  lemma CountsDown(c: Config, s: State, dt: nat)
    requires c.Valid() && Inv(c, s)
    requires s.ticking && dt < GetRemainingTime(c, s).1
    ensures Advance(c, s, dt).log == s.log
    ensures GetRemainingTime(c, Advance(c, s, dt)).1 == GetRemainingTime(c, s).1 - dt
  {
  }

  /** The moment the remaining time runs out the handler fires, and the
      next interval starts in full. */
  lemma FiresWhenTimeRunsOut(c: Config, s: State)
    requires c.Valid() && Inv(c, s)
    requires s.ticking && s.subscribed
    ensures Advance(c, s, GetRemainingTime(c, s).1) == OnTimedEvent(c, s)
    ensures GetRemainingTime(c, OnTimedEvent(c, s)).1 == IntervalSeconds(c, OnTimedEvent(c, s))
  {
    var t := OnTimedEvent(c, s);
    assert Advance(c, t, 0) == t;
  }

  /** Once the remaining time has run out the handler fires and the rest of
      the time passes in the next interval. */
  lemma FiresAfter(c: Config, s: State, dt: nat)
    requires c.Valid() && Inv(c, s)
    requires s.ticking && s.subscribed && dt >= GetRemainingTime(c, s).1
    ensures Advance(c, s, dt) == Advance(c, OnTimedEvent(c, s), dt - GetRemainingTime(c, s).1)
  {
  }

  /** While the timer runs with its handler attached there is always time
      left, and never more than the interval. */
  lemma RemainingInRange(c: Config, s: State)
    requires c.Valid() && Inv(c, s)
    requires s.ticking && s.subscribed
    ensures 0 < GetRemainingTime(c, s).1 <= IntervalSeconds(c, s)
  {
  }

  /** Before the first `Start` the field defaults make the remaining time
      that of a break: the long one when the cycle has a single round. */
  lemma IdleRemainingTime(c: Config)
    requires c.Valid()
    ensures Inv(c, New())
    ensures GetRemainingTime(c, New()).1 ==
              if c.numberOfRounds == 1 then c.longbreakTime else c.breakTime
  {
  }

  /** `Reset` on a timer that was never started arms the timer without
      attaching the handler: the round never ends, and the remaining time
      runs negative. */
  lemma ResetBeforeStartNeverAdvances(c: Config, dt: nat)
    requires c.Valid()
    ensures Advance(c, Reset(c, New()), dt).log == [Resetting, StartingRound(0)]
    ensures GetRemainingTime(c, Advance(c, Reset(c, New()), dt)).1 == c.roundTime - dt
  {
  }

  /** One call of the public surface of the class, as the front end makes
      it; `Wait` lets time pass between calls. */
  datatype Call =
    | CallStart
    | CallStop
    | CallReset
    | CallGetRemainingTime
    | CallAddTask(task: Int32)
    | CallFinishTask
    | CallDispose
    | Wait(seconds: nat)

  /** One call. A refused call leaves the session as it was: both checks
      come before any effect. */
  function Step(c: Config, s: State, call: Call): (r: Result<State>)
    requires c.Valid() && Inv(c, s)
    ensures r.Ok? ==> Inv(c, r.value)
    ensures r.Err? <==> (call == CallStart || call == CallFinishTask) && |s.tasks| == 0
    ensures r.Ok? && !call.CallAddTask? && !call.CallFinishTask? ==> r.value.tasks == s.tasks
    ensures r.Ok? ==> |s.log| <= |r.value.log| && r.value.log[..|s.log|] == s.log
  {
    match call
    case CallStart => Start(c, s)
    case CallStop => Ok(Stop(s))
    case CallReset => Ok(Reset(c, s))
    case CallGetRemainingTime => Ok(GetRemainingTime(c, s).0)
    case CallAddTask(t) => Ok(AddTask(s, t))
    case CallFinishTask => FinishTask(s)
    case CallDispose => Ok(Dispose(s))
    case Wait(dt) => Ok(Advance(c, s, dt))
  }

  /** A sequence of calls, each refused one skipped. */
  function Run(c: Config, s: State, calls: seq<Call>): (r: State)
    requires c.Valid() && Inv(c, s)
    ensures Inv(c, r)
    ensures (forall i :: 0 <= i < |calls| ==> !calls[i].CallAddTask? && !calls[i].CallFinishTask?) ==> r.tasks == s.tasks
    decreases |calls|
  {
    if |calls| == 0 then s
    else
      var t := match Step(c, s, calls[0]) case Ok(t) => t case Err(_) => s;
      Run(c, t, calls[1..])
  }

  /** A session that has started stays stopped after a `Dispose`, however
      long the front end then waits, and a second `Dispose` adds nothing. */
  lemma DisposeIsFinal(c: Config, s: State, dt: nat)
    requires c.Valid() && Inv(c, s)
    ensures Dispose(Dispose(s)) == Dispose(s)
    ensures !s.disposed ==> Advance(c, Dispose(s), dt) == Dispose(s)
    ensures !s.disposed ==> Dispose(s).log == s.log + [Stopping]
  {
  }

  /** The console front end's configuration: 5-second rounds, 2-second
      breaks, 4-second long breaks, 3 rounds. The session below, with a
      single task, is a scenario of its own on that configuration; the front
      end itself queues tasks 0 to 9. */
  function DemoConfig(): (c: Config)
    ensures c.Valid()
  {
    Config(5, 2, 4, 3)
  }

  /** The demo session at the start of an interval, with one task queued. */
  function DemoAt(roundi: int, inRound: bool, log: seq<Event>): State {
    State(roundi, inRound, 0, true, true, [1], false, [AddingTask(1), Starting, StartingRound(0)] + log)
  }

  /** One task, `Start`, and the first round begins. */
  lemma DemoStart()
    ensures Start(DemoConfig(), AddTask(New(), 1)) == Ok(DemoAt(0, true, []))
  {
    var r := Start(DemoConfig(), AddTask(New(), 1));
    assert r.value.tasks == [1];
    assert r.value.log == [AddingTask(1), Starting, StartingRound(0)] + [];
  }

  /** The demo session's states at the start of each interval of its
      first cycle, and back at round 0. */
  function DemoState(k: nat): State
    requires k <= 6
  {
    var logs := [StartingBreak(0, false), StartingRound(1),
                 StartingBreak(1, false), StartingRound(2),
                 StartingBreak(2, true), StartingRound(0)];
    var rounds := [0, 0, 1, 1, 2, 2, 0];
    DemoAt(rounds[k], k % 2 == 0, logs[..k])
  }

  /** Each firing moves the demo session on to its next interval. */
  lemma DemoFirings(k: nat)
    requires k < 6
    ensures Inv(DemoConfig(), DemoState(k))
    ensures DemoState(k).ticking && DemoState(k).subscribed
    ensures GetRemainingTime(DemoConfig(), DemoState(k)).1 == [5, 2, 5, 2, 5, 4][k]
    ensures OnTimedEvent(DemoConfig(), DemoState(k)) == DemoState(k + 1)
  {
    var s, t := DemoState(k), DemoState(k + 1);
    assert t.log == s.log + [t.log[|s.log|]];
  }

  /** Seconds from the start of the demo session's `k`-th interval to the
      start of round 0 of the next cycle. */
  function DemoTimeLeft(k: nat): nat
    requires k <= 6
  {
    [23, 18, 16, 11, 9, 4, 0][k]
  }

  /** From the start of its `k`-th interval the demo session reaches round 0
      of the next cycle after the lengths of the intervals still to come. */
  lemma {:induction false} DemoFromInterval(k: nat)
    requires k <= 6
    ensures Inv(DemoConfig(), DemoState(k))
    ensures Advance(DemoConfig(), DemoState(k), DemoTimeLeft(k)) == DemoState(6)
    decreases 6 - k
  {
    if k < 6 {
      DemoFromInterval(k + 1);
      DemoStepBack(k);
    } else {
      DemoFirings(5);
    }
  }

  /** One interval of the demo session, seen backwards. */
  lemma DemoStepBack(k: nat)
    requires k < 6
    requires Inv(DemoConfig(), DemoState(k + 1))
    requires Advance(DemoConfig(), DemoState(k + 1), DemoTimeLeft(k + 1)) == DemoState(6)
    ensures Inv(DemoConfig(), DemoState(k))
    ensures Advance(DemoConfig(), DemoState(k), DemoTimeLeft(k)) == DemoState(6)
  {
    DemoFirings(k);
    FiresAfter(DemoConfig(), DemoState(k), DemoTimeLeft(k));
  }

  /** 23 seconds after `Start` a whole cycle of the demo session has
      passed: three rounds, two short breaks, the long break after round 2,
      and round 0 again. */
  lemma DemoCycle()
    ensures Advance(DemoConfig(), DemoState(0), 23).log ==
              [AddingTask(1), Starting, StartingRound(0),
               StartingBreak(0, false), StartingRound(1),
               StartingBreak(1, false), StartingRound(2),
               StartingBreak(2, true), StartingRound(0)]
  {
    DemoFromInterval(0);
    DemoEndLog();
  }

  /** The demo session's log once round 0 has come round again. */
  lemma DemoEndLog()
    ensures DemoState(6).log ==
              [AddingTask(1), Starting, StartingRound(0),
               StartingBreak(0, false), StartingRound(1),
               StartingBreak(1, false), StartingRound(2),
               StartingBreak(2, true), StartingRound(0)]
  {
  }
}
