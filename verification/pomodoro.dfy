/** The Pomodoro timer of `rm.Timers.Pomodoro`: rounds of work alternating
    with breaks, the break after the last round of a cycle being a long one,
    plus the FIFO queue of task identifiers the session carries.

    The object's mutable fields become one immutable `State`; each public or
    private member of the class becomes a pure transition. The wall clock is
    replaced by an explicit `elapsed` count of whole seconds, the library
    timer by the `ticking` flag (and the firing itself by `OnTimedEvent`,
    driven from the `Clock` module), and the notifier callback by a log of
    abstract `Event`s. */
module Pomodoro {
  import opened CSharp
  import TaskQueue

  /** The constructor's arguments, fixed for the life of a session. */
  datatype Config = Config(
    roundTime: UInt32,
    breakTime: UInt32,
    longbreakTime: UInt32,
    numberOfRounds: UInt16)
  {
    /** What the class needs of its arguments without checking them: rounds
        are counted modulo `numberOfRounds`, and the library timer refuses
        a zero interval. */
    predicate Valid() {
      numberOfRounds > 0 && roundTime > 0 && breakTime > 0 && longbreakTime > 0
    }
  }

  /** One notification, in place of the formatted string handed to the
      notifier. */
  datatype Event =
    | Starting
    | Stopping
    | Resetting
    | StartingRound(round: int)
    | StartingBreak(round: int, isLong: bool)
    | AddingTask(task: Int32)
    | FinishingTask(task: Int32, remaining: nat)
    | TimeLeft(seconds: int)

  /** The two `InvalidOperationException`s the class throws. */
  datatype Error =
    | NoTasksAdded     // Start with an empty queue
    | NoMoreTasksLeft  // FinishTask with an empty queue

  datatype Result<T> = Ok(value: T) | Err(error: Error)

  /** The fields of a `Pomodoro` object.
      - `roundi`: index of the current round;
      - `inRound`: a round (rather than a break) is in progress;
      - `elapsed`: seconds on the stopwatch since the current interval began;
      - `ticking`: the timer and the stopwatch are running;
      - `subscribed`: the interval-elapsed handler is attached to the timer;
      - `tasks`: the task queue;
      - `disposed`: `Dispose` has run;
      - `log`: every notification sent so far, oldest first. */
  datatype State = State(
    roundi: int,
    inRound: bool,
    elapsed: nat,
    ticking: bool,
    subscribed: bool,
    tasks: TaskQueue.Queue,
    disposed: bool,
    log: seq<Event>)

  /** A freshly constructed timer: the field defaults `roundi == 0` and
      `isInRound == false`, an empty queue, a stopped stopwatch. */
  function New(): (r: State)
    ensures r.roundi == 0 && !r.inRound && r.elapsed == 0
    ensures r.tasks == [] && r.log == []
    ensures !r.ticking && !r.subscribed && !r.disposed
  {
    State(0, false, 0, false, false, [], false, [])
  }

  /** Sends one message to the notifier; nothing else changes. */
  function Notify(s: State, e: Event): (r: State)
    ensures r.log == s.log + [e]
    ensures r.(log := s.log) == s
  {
    s.(log := s.log + [e])
  }

  /** Disables the timer and pauses the stopwatch; `elapsed` is kept. */
  function StopTicking(s: State): (r: State)
    ensures !r.ticking
    ensures r.(ticking := s.ticking) == s
  {
    s.(ticking := false)
  }

  /** Detaching then re-attaching the handler leaves exactly one attached. */
  function SubscribeHandler(s: State): (r: State)
    ensures r.subscribed
    ensures r.(subscribed := s.subscribed) == s
  {
    s.(subscribed := true)
  }

  /** Sets up for the first round: `StartRound` increments before use. */
  function ResetInner(s: State): (r: State)
    ensures r.roundi == -1 && !r.inRound
    ensures r.(roundi := s.roundi, inRound := s.inRound) == s
  {
    s.(roundi := -1, inRound := false)
  }

  /** Increments the round index and wraps it around `numberOfRounds`, with
      C#'s truncating remainder. */
  function NextRound(c: Config, i: int): (r: int)
    requires c.numberOfRounds > 0
    ensures -1 <= i ==> 0 <= r < c.numberOfRounds
    ensures -1 <= i < c.numberOfRounds - 1 ==> r == i + 1
    ensures i == c.numberOfRounds - 1 ==> r == 0
  {
    var n := c.numberOfRounds;
    if 0 <= i + 1 < n then
      ModUnique(i + 1, n, 0, i + 1);
      TruncRem(i + 1, n)
    else if i + 1 == n then
      ModUnique(i + 1, n, 1, 0);
      TruncRem(i + 1, n)
    else
      TruncRem(i + 1, n)
  }

  /** Length in seconds of the interval in progress: a round, a break, or
      the long break when the round just finished was the last of the
      cycle. */
  function IntervalSeconds(c: Config, s: State): (r: UInt32)
    ensures r == c.roundTime || r == c.breakTime || r == c.longbreakTime
    ensures c.Valid() ==> r > 0
  {
    if s.inRound then c.roundTime
    else if s.roundi + 1 < c.numberOfRounds then c.breakTime
    else c.longbreakTime
  }

  /** Whether a break after round `i` is announced as the long one. */
  predicate IsLongBreak(c: Config, i: int) {
    i + 1 == c.numberOfRounds
  }

  /** Begins the next round: stop the timer, advance the index, announce
      it, flip the phase flag, re-arm the timer for a round with the
      stopwatch at zero. */
  function StartRound(c: Config, s: State): (r: State)
    requires c.numberOfRounds > 0
    ensures -1 <= s.roundi ==> 0 <= r.roundi < c.numberOfRounds
    ensures r.roundi == NextRound(c, s.roundi)
    ensures r.log == s.log + [StartingRound(r.roundi)]
    ensures r.inRound == !s.inRound
    ensures !s.inRound ==> IntervalSeconds(c, r) == c.roundTime
    ensures r.ticking && r.elapsed == 0
    ensures r.tasks == s.tasks && r.subscribed == s.subscribed && r.disposed == s.disposed
  {
    var next := NextRound(c, s.roundi);
    s.(roundi := next, inRound := !s.inRound, log := s.log + [StartingRound(next)],
       ticking := true, elapsed := 0)
  }

  /** Begins the break after the current round: stop the timer, announce
      the break (as long when the round was the last of the cycle), flip the
      phase flag, re-arm the timer for the break's length with the
      stopwatch at zero. */
  function StartBreak(c: Config, s: State): (r: State)
    ensures r.roundi == s.roundi
    ensures r.log == s.log + [StartingBreak(s.roundi, IsLongBreak(c, s.roundi))]
    ensures r.inRound == !s.inRound
    ensures s.inRound && 0 <= s.roundi < c.numberOfRounds ==>
              IntervalSeconds(c, r) == (if IsLongBreak(c, s.roundi) then c.longbreakTime else c.breakTime)
    ensures r.ticking && r.elapsed == 0
    ensures r.tasks == s.tasks && r.subscribed == s.subscribed && r.disposed == s.disposed
  {
    s.(inRound := !s.inRound, log := s.log + [StartingBreak(s.roundi, IsLongBreak(c, s.roundi))],
       ticking := true, elapsed := 0)
  }

  /** The timer's interval-elapsed handler: a break is followed by the next
      round, a round by its break. */
  function OnTimedEvent(c: Config, s: State): (r: State)
    requires c.numberOfRounds > 0
    ensures r.inRound == !s.inRound
    ensures !s.inRound ==> r.roundi == NextRound(c, s.roundi) && r.log == s.log + [StartingRound(r.roundi)]
    ensures s.inRound ==> r.roundi == s.roundi && r.log == s.log + [StartingBreak(s.roundi, IsLongBreak(c, s.roundi))]
    ensures 0 <= s.roundi < c.numberOfRounds ==> 0 <= r.roundi < c.numberOfRounds
    ensures 0 <= s.roundi < c.numberOfRounds ==>
              IntervalSeconds(c, r) ==
                if !s.inRound then c.roundTime
                else if IsLongBreak(c, s.roundi) then c.longbreakTime
                else c.breakTime
    ensures r.ticking && r.elapsed == 0
    ensures r.tasks == s.tasks && r.subscribed == s.subscribed && r.disposed == s.disposed
  {
    if !s.inRound then StartRound(c, s) else StartBreak(c, s)
  }

  /** Where `Start` and `Reset` both leave the timer: the first round of a
      cycle just begun, the queue untouched, the log extended by the
      operation's own notification and the round's. */
  predicate Restarted(s: State, r: State, first: Event) {
    && r.roundi == 0 && r.inRound
    && r.ticking && r.elapsed == 0
    && r.tasks == s.tasks && r.disposed == s.disposed
    && r.log == s.log + [first, StartingRound(0)]
  }

  /** `Start`: refuses an empty queue before doing anything; otherwise
      (re)starts the cycle at round 0 whatever state it was in. */
  function Start(c: Config, s: State): (r: Result<State>)
    requires c.numberOfRounds > 0
    ensures r.Err? <==> |s.tasks| == 0
    ensures r.Err? ==> r.error == NoTasksAdded
    ensures r.Ok? ==> Restarted(s, r.value, Starting) && r.value.subscribed
  {
    if |s.tasks| == 0 then Err(NoTasksAdded)
    else
      var t := StopTicking(s);
      var t := Notify(t, Starting);
      var t := SubscribeHandler(t);
      var t := ResetInner(t);
      Ok(StartRound(c, t))
  }

  /** `Stop`: disables the timer and pauses the stopwatch, nothing else. */
  function Stop(s: State): (r: State)
    ensures !r.ticking && r.log == s.log + [Stopping]
    ensures r.roundi == s.roundi && r.inRound == s.inRound && r.elapsed == s.elapsed
    ensures r.tasks == s.tasks && r.subscribed == s.subscribed && r.disposed == s.disposed
  {
    Notify(StopTicking(s), Stopping)
  }

  /** `Reset`: restarts the cycle at round 0 like `Start`, but without the
      empty-queue check and without attaching the handler. */
  function Reset(c: Config, s: State): (r: State)
    requires c.numberOfRounds > 0
    ensures Restarted(s, r, Resetting) && r.subscribed == s.subscribed
  {
    var t := StopTicking(s);
    var t := Notify(t, Resetting);
    var t := ResetInner(t);
    StartRound(c, t)
  }

  /** `GetRemainingTime`: the seconds left in the interval in progress,
      negative once the stopwatch has run past it; reported through the
      notifier and otherwise without effect. */
  function GetRemainingTime(c: Config, s: State): (r: (State, int))
    ensures r.1 + s.elapsed == IntervalSeconds(c, s)
    ensures r.0 == s.(log := s.log + [TimeLeft(r.1)])
  {
    var remaining := IntervalSeconds(c, s) - s.elapsed;
    (Notify(s, TimeLeft(remaining)), remaining)
  }

  /** `AddTask`: announces the task and queues it at the tail. */
  function AddTask(s: State, task: Int32): (r: State)
    ensures |r.tasks| == |s.tasks| + 1
    ensures r.tasks[..|s.tasks|] == s.tasks && r.tasks[|s.tasks|] == task
    ensures r.log == s.log + [AddingTask(task)]
    ensures r.(tasks := s.tasks, log := s.log) == s
  {
    Notify(s, AddingTask(task)).(tasks := TaskQueue.Enqueue(s.tasks, task))
  }

  /** `FinishTask`: refuses an empty queue; otherwise removes the oldest
      task and announces it together with how many are left. */
  function FinishTask(s: State): (r: Result<State>)
    ensures r.Err? <==> |s.tasks| == 0
    ensures r.Err? ==> r.error == NoMoreTasksLeft
    ensures r.Ok? ==> r.value.tasks == s.tasks[1..] && |r.value.tasks| == |s.tasks| - 1
    ensures r.Ok? ==> r.value.log == s.log + [FinishingTask(s.tasks[0], |r.value.tasks|)]
    ensures r.Ok? ==> r.value.(tasks := s.tasks, log := s.log) == s
  {
    match TaskQueue.Dequeue(s.tasks)
    case None => Err(NoMoreTasksLeft)
    case Some((task, rest)) => Ok(Notify(s.(tasks := rest), FinishingTask(task, |rest|)))
  }

  /** `Dispose(bool disposing)`: the first call stops the timer when
      `disposing` and marks the object disposed; any later call is a no-op. */
  function DisposeManaged(s: State, disposing: bool): (r: State)
    ensures r.disposed
    ensures s.disposed ==> r == s
    ensures !s.disposed ==> r.log == s.log + (if disposing then [Stopping] else [])
    ensures !s.disposed && disposing ==> !r.ticking
    ensures !s.disposed && !disposing ==> r == s.(disposed := true)
    ensures r.roundi == s.roundi && r.inRound == s.inRound && r.elapsed == s.elapsed
    ensures r.tasks == s.tasks && r.subscribed == s.subscribed
  {
    if s.disposed then s
    else
      var t := if disposing then Stop(s) else s;
      t.(disposed := true)
  }

  /** The public `Dispose()`. */
  function Dispose(s: State): (r: State)
    ensures !s.disposed ==> r.log == s.log + [Stopping] && !r.ticking
    ensures s.disposed ==> r == s
    ensures r.disposed && r.tasks == s.tasks
    ensures !s.disposed ==> r == Stop(s).(disposed := true)
  {
    DisposeManaged(s, true)
  }

  /** The task queue is what makes `Start` possible: with no tasks it is
      refused, after one `AddTask` it goes ahead, and one `FinishTask`
      then hands that task back and empties the queue again. */
  lemma AddTaskThenFinish(c: Config, s: State, task: Int32)
    requires c.numberOfRounds > 0 && |s.tasks| == 0
    ensures Start(c, s) == Err(NoTasksAdded)
    ensures Start(c, AddTask(s, task)).Ok?
    ensures FinishTask(AddTask(s, task)).Ok?
    ensures FinishTask(AddTask(s, task)).value.tasks == []
    ensures FinishTask(AddTask(s, task)).value.log == s.log + [AddingTask(task), FinishingTask(task, 0)]
  {
    TaskQueue.EnqueueOnEmpty(task);
  }

  /** `Stop` followed by `Start` does not resume where the timer stopped:
      the cycle begins again at round 0 with the stopwatch at zero. */
  lemma StopThenStartRestarts(c: Config, s: State)
    requires c.numberOfRounds > 0 && |s.tasks| > 0
    ensures Start(c, Stop(s)).Ok?
    ensures Start(c, Stop(s)).value.roundi == 0 && Start(c, Stop(s)).value.inRound
    ensures GetRemainingTime(c, Start(c, Stop(s)).value).1 == c.roundTime
    ensures Start(c, Stop(s)).value.log == s.log + [Stopping, Starting, StartingRound(0)]
  {
  }

  /** `ResetInner` followed by `StartRound` always begins round 0, whatever
      round the timer was in. */
  lemma ResetInnerStartsRoundZero(c: Config, s: State)
    requires c.numberOfRounds > 0
    ensures StartRound(c, ResetInner(s)).roundi == 0
    ensures StartRound(c, ResetInner(s)).inRound
    ensures IntervalSeconds(c, StartRound(c, ResetInner(s))) == c.roundTime
    ensures StartRound(c, ResetInner(s)).log == s.log + [StartingRound(0)]
  {
  }

  /** Attaching the handler twice leaves it attached once. A flag is exact
      for the handler because `SubscribeHandler` detaches it before
      attaching it again, so at most one subscription ever exists. */
  lemma SubscribeHandlerIdempotent(s: State)
    ensures SubscribeHandler(SubscribeHandler(s)) == SubscribeHandler(s)
  {
  }
}
