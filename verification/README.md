# Pomodoro timer, modelled in Dafny

A model of `rm.Timers.Pomodoro`, a single-session Pomodoro timer: fixed-length
work rounds alternate with breaks, the break after the last of
`numberOfRounds` rounds is a long one, and the cycle then starts again at
round 0. The session also carries a FIFO queue of integer task identifiers
and reports every step through a notifier callback.

The object's fields become one immutable `State` record
(`roundi`, `inRound`, `elapsed`, `ticking`, `subscribed`, `tasks`, `disposed`,
`log`), and every member of the class becomes a pure transition on it:

- `csharp.dfy` (`CSharp`): C#'s `int`/`uint`/`ushort` ranges and its
  truncating `%`.
- `task_queue.dfy` (`TaskQueue`): the `Queue<int>` of tasks and its FIFO law.
- `pomodoro.dfy` (`Pomodoro`): configuration, events, errors, state, and the
  class's members: `Start`, `Stop`, `Reset`, `GetRemainingTime`, `AddTask`,
  `FinishTask`, `Dispose`, and the private `OnTimedEvent`, `StartRound`,
  `StartBreak`, `ResetInner`, `NextRound`, `GetIntervalInSeconds`
  (`IntervalSeconds` here).
- `cycle.dfy` (`Cycle`): what repeated firings of the interval-elapsed
  handler do once round 0 has begun — the announced rounds and breaks, the
  round index wrap, the long-break rule, the length of a full cycle.
- `clock.dfy` (`Clock`): the passage of time in whole seconds (`Advance`),
  the invariant every public call keeps, the public surface as a sequence of
  calls (`Step`, `Run`), and a one-task demo session on the console front
  end's configuration (5 s rounds, 2 s breaks, 4 s long break, 3 rounds);
  the front end itself queues tasks 0 to 9, the demo a single task.

Abstractions: the notifier becomes a log of `Event`s (`Starting`,
`StartingRound(i)`, `StartingBreak(i, isLong)`, `AddingTask(t)`,
`FinishingTask(t, remaining)`, `Stopping`, `Resetting`, `TimeLeft(secs)`);
the two `InvalidOperationException`s become `Err(NoTasksAdded)` and
`Err(NoMoreTasksLeft)`; the stopwatch becomes `elapsed`, a count of whole
seconds that restarts at every interval start and pauses on `Stop`; the
library timer becomes the `ticking` flag, and its firing the explicit
`OnTimedEvent` transition, which `Advance` takes whenever the stopwatch
reaches the current interval's length and a handler is attached.

Three behaviours of the code a reader may not expect, kept as written:

- Before the first `Start` the fields hold their defaults, `roundi == 0`
  and `isInRound == false`, so the remaining time of an idle timer is a
  break's (the long break's when there is one round), not a round's
  (`Clock.IdleRemainingTime`).
- `Reset` performs neither the empty-queue check of `Start` nor its
  `SubscribeHandler` call. On a timer that was never started, `Reset` arms
  the timer with no handler attached: the round never ends and the
  remaining time goes negative (`Clock.ResetBeforeStartNeverAdvances`).
- `StartRound` and `StartBreak` flip `isInRound` rather than set it; every
  caller reaches them in the opposite phase, so the flip always lands on
  the intended phase (`Pomodoro.OnTimedEvent`, `Pomodoro.Start`).

## Model

| member | source | states |
|---|---|---|
| `CSharp.TruncRem` | rm.Timers/Pomodoro.cs:173 | C#'s remainder keeps the dividend's sign; on a non-negative dividend it lies in `[0, b)` and equals Dafny's `%` |
| `TaskQueue.Enqueue` | rm.Timers/Pomodoro.cs:105 | the task goes to the tail; every queued task keeps its place |
| `TaskQueue.Dequeue` | rm.Timers/Pomodoro.cs:110-114 | fails exactly on the empty queue; otherwise returns the oldest task and the rest, one shorter |
| `TaskQueue.EnqueueBehindHead` | rm.Timers/Pomodoro.cs:102-116 | a task added behind others does not change which task comes out next |
| `TaskQueue.EnqueueOnEmpty` | rm.Timers/Pomodoro.cs:102-116 | a task added to an empty queue is the one handed back, leaving the queue empty |
| `TaskQueue.DrainOrderIsContents` | rm.Timers/Pomodoro.cs:108-116 | finishing tasks one by one hands back the queue's contents front to back |
| `TaskQueue.FirstInFirstOut` | rm.Timers/Pomodoro.cs:102-116 | tasks come back out in the order they were added, after those already queued |
| `Pomodoro.New` | rm.Timers/Pomodoro.cs:27-53 | a fresh timer has round index 0 with no interval in progress (`isInRound == false`), an empty queue, a stopped timer with no handler, and nothing notified |
| `Pomodoro.Notify` | rm.Timers/Pomodoro.cs:236-242 | the message is appended to what the notifier has received; no other field changes |
| `Pomodoro.StopTicking` | rm.Timers/Pomodoro.cs:229-234 | the timer is stopped and the stopwatch paused with its reading kept; no other field changes |
| `Pomodoro.SubscribeHandler` | rm.Timers/Pomodoro.cs:152-156 | afterwards the handler is attached; no other field changes |
| `Pomodoro.SubscribeHandlerIdempotent` | rm.Timers/Pomodoro.cs:152-156 | a second call leaves the same state as one; the model's flag can stand for the handler only because line 154 detaches before line 155 attaches, so at most one subscription ever exists |
| `Pomodoro.ResetInner` | rm.Timers/Pomodoro.cs:162-166 | the round index becomes -1 and no round is in progress; no other field changes |
| `Pomodoro.ResetInnerStartsRoundZero` | rm.Timers/Pomodoro.cs:158-166 | whatever round the timer was in, `ResetInner` then `StartRound` begins round 0 with a round's length armed, announcing only `StartingRound(0)` |
| `Pomodoro.NextRound` | rm.Timers/Pomodoro.cs:171-174 | from any index `>= -1` the next index lies in `[0, numberOfRounds)`; it is the successor below the last round and wraps to 0 after it |
| `Pomodoro.IntervalSeconds` | rm.Timers/Pomodoro.cs:180-199 | the current interval is always one of the three configured durations, and positive for a valid configuration |
| `Pomodoro.StartRound` | rm.Timers/Pomodoro.cs:133-141 | announces the advanced, in-range round index, enters the round phase from a break, arms a round-length interval with the stopwatch at zero, touches neither tasks nor disposal |
| `Pomodoro.StartBreak` | rm.Timers/Pomodoro.cs:143-150 | keeps the round index, announces the break as long exactly when it follows the last round, and arms the long-break length exactly then (the short one otherwise) |
| `Pomodoro.OnTimedEvent` | rm.Timers/Pomodoro.cs:121-131 | alternates phases: a break is followed by the next round (index advanced and wrapped), a round by its break (index kept); the index stays in range and the armed length matches the new phase |
| `Pomodoro.Start` | rm.Timers/Pomodoro.cs:58-69 | refused with `NoTasksAdded` exactly when the queue is empty, before any effect; otherwise from any state: round 0 in progress, stopwatch at zero, handler attached, queue untouched, log extended by `Starting, StartingRound(0)` |
| `Pomodoro.Stop` | rm.Timers/Pomodoro.cs:74-79 | the timer stops and `Stopping` is logged; round, phase, elapsed time and queue are kept |
| `Pomodoro.Reset` | rm.Timers/Pomodoro.cs:84-90 | from any state, with or without tasks: round 0 in progress, stopwatch at zero, queue untouched, log extended by `Resetting, StartingRound(0)`; the handler is left as it was |
| `Pomodoro.GetRemainingTime` | rm.Timers/Pomodoro.cs:95-100 | elapsed plus remaining make up the current interval (remaining may be negative); only a `TimeLeft` notification is added |
| `Pomodoro.AddTask` | rm.Timers/Pomodoro.cs:102-106 | the task is appended at the tail and announced; nothing else changes |
| `Pomodoro.FinishTask` | rm.Timers/Pomodoro.cs:108-116 | refused with `NoMoreTasksLeft` exactly when the queue is empty; otherwise the head is removed and announced with the new queue length; nothing else changes |
| `Pomodoro.DisposeManaged` | rm.Timers/Pomodoro.cs:256-267 | always leaves the object disposed; a second call changes nothing; the first logs one `Stopping` and stops the timer when disposing managed resources, and otherwise only marks the object disposed; round, phase, elapsed time and queue are kept |
| `Pomodoro.Dispose` | rm.Timers/Pomodoro.cs:250-254 | the first call is exactly `Stop` followed by marking the object disposed: one `Stopping` logged, the timer stopped, round, phase, elapsed time, handler and queue kept; later calls change nothing |
| `Pomodoro.AddTaskThenFinish` | rm.Timers/Pomodoro.cs:58-116 | with no tasks `Start` is refused; after one `AddTask` it succeeds, and one `FinishTask` returns that task and empties the queue |
| `Pomodoro.StopThenStartRestarts` | rm.Timers/Pomodoro.cs:58-79 | `Start` after `Stop` begins again at round 0 with a full round's time left |
| `Cycle.RoundThenBreak` | rm.Timers/Pomodoro.cs:121-150 | from the start of round `k mod n`, one firing starts that round's break (index kept) and the next starts round `(k+1) mod n`, announcing the break as long exactly after the last round |
| `Cycle.FollowsSchedule` | rm.Timers/Pomodoro.cs:121-174 | after `k` rounds and their breaks from the start of round 0 the timer starts round `k mod n` and has announced exactly rounds 0,1,…,n-1,0,… each followed by its break, long exactly after round n-1 |
| `Cycle.InBreak` | rm.Timers/Pomodoro.cs:143-150 | between rounds `k` and `k+1` of the schedule the timer is in the break after round `k mod n` |
| `Cycle.CycleReturnsToStart` | rm.Timers/Pomodoro.cs:171-174 | `n` rounds and `n` breaks bring the timer back to the start of round 0 |
| `Cycle.RoundInterval` | rm.Timers/Pomodoro.cs:183-186 | every round of the cycle lasts `roundTime` |
| `Cycle.BreakInterval` | rm.Timers/Pomodoro.cs:187-196 | the break after round `i` lasts `longbreakTime` when `i` is the last round and `breakTime` otherwise |
| `Cycle.DurationStep` | rm.Timers/Pomodoro.cs:180-199 | round `i` and its break together add a round and a short break, or a round and the long break after the last round |
| `Cycle.DurationBeforeLastRound` | rm.Timers/Pomodoro.cs:180-199 | the first `k < n` rounds and breaks last `k` rounds and `k` short breaks |
| `Cycle.CycleDuration` | rm.Timers/Pomodoro.cs:180-199 | a full cycle lasts `n` rounds, `n-1` short breaks and one long break |
| `Clock.Advance` | rm.Timers/Pomodoro.cs:215-234 | passing time keeps the session invariant, never touches tasks, disposal or the timer's running state, only appends round/break announcements, and does nothing while the timer is stopped |
| `Clock.AdvanceSplit` | rm.Timers/Pomodoro.cs:121-150 | waiting `a` seconds and then `b` more leaves the session exactly as waiting `a + b` |
| `Clock.AdvanceThroughDuration` | rm.Timers/Pomodoro.cs:121-150 | from a freshly started interval, waiting the summed lengths of the next `m` intervals is exactly `m` firings of the handler, so `Cycle.Duration` is time on the clock |
| `Clock.FiredCycle` | rm.Timers/Pomodoro.cs:121-174 | `2n` firings from the start of round 0 leave the timer at the start of round 0, with the whole cycle announced |
| `Clock.ClockCycle` | rm.Timers/Pomodoro.cs:121-199 | waiting `n` rounds, `n-1` short breaks and one long break after round 0 begins brings the timer to the start of round 0 again, with rounds 0..n-1 and their breaks announced in order |
| `Clock.CountsDown` | rm.Timers/Pomodoro.cs:95-100 | within an interval, waiting `dt` seconds lowers the remaining time by `dt` and announces nothing |
| `Clock.FiresWhenTimeRunsOut` | rm.Timers/Pomodoro.cs:133-150 | once the remaining time has passed the handler fires, and the next interval starts with its full length left |
| `Clock.FiresAfter` | rm.Timers/Pomodoro.cs:121-131 | time past the end of an interval is spent in the next interval |
| `Clock.RemainingInRange` | rm.Timers/Pomodoro.cs:95-100 | while the timer runs with its handler attached, the remaining time is positive and at most the interval |
| `Clock.IdleRemainingTime` | rm.Timers/Pomodoro.cs:24-32 | a freshly constructed timer satisfies the invariant and reports a break's remaining time, the long break's when there is one round |
| `Clock.ResetBeforeStartNeverAdvances` | rm.Timers/Pomodoro.cs:84-90 | `Reset` on a never-started timer announces round 0 and then nothing more, however long one waits; the remaining time runs below zero |
| `Clock.Step` | rm.Timers/Pomodoro.cs:58-116 | each public call keeps the invariant and only extends the log; exactly `Start` and `FinishTask` on an empty queue are refused; only the task calls change the queue |
| `Clock.Run` | rm.Timers/Pomodoro.cs:58-116 | any sequence of calls keeps the invariant; without task calls the queue is unchanged |
| `Clock.DisposeIsFinal` | rm.Timers/Pomodoro.cs:248-267 | disposing twice equals disposing once; after the first disposal time passes without any event |
| `Clock.DemoStart` | rm.Timers/Pomodoro.cs:58-69 | on the 5/2/4/3 configuration, one task and `Start` begin round 0 |
| `Clock.DemoCycle` | rm.Timers/Pomodoro.cs:121-150 | on the 5/2/4/3 configuration with one task, 23 seconds after `Start` the log reads rounds 0,1,2 with short breaks after 0 and 1, the long break after 2, and round 0 again |

## Left out

- The library timer's arming (`Enabled`, `Start`, `Stop` and their order) and its background-thread callback: the firing is the explicit `OnTimedEvent` transition, taken by `Advance` exactly when the stopwatch reaches the interval.
- Real-time measurement by `Stopwatch`: `elapsed` counts whole seconds, and timer drift is not modelled.
- The `TimeSpan` and `double` millisecond conversions: durations stay whole seconds.
- The notification strings and the minutes/seconds split of the remaining time: each notification is an abstract `Event`.
- A notifier left `null`: `Notify` then does nothing; the model always logs, the log being what an attached notifier would receive.
- `DisposeInner`, the release of the library timer inside `Stop`, and what a released timer does on a later `Start` or `Reset`: the model re-arms it.
- `Pomodoro.StopThenStartRestarts`: `Stop` releases the library timer (rm.Timers/Pomodoro.cs:78,271), and a later `Start` reaches `timer.Start()` in `StartTicking` (line 220), which on a released `System.Timers.Timer` throws `ObjectDisposedException` after `Starting` and `StartingRound(0)` have been notified; the lemma states the restart of the model, which re-arms the timer, not what the program does there.
- `GC.SuppressFinalize` and the finaliser pattern.
- A configuration with `numberOfRounds == 0`: the constructor accepts it but `NextRound` would divide by zero; the operations that reach `NextRound` require a positive count.
- Zero durations: the library timer refuses a zero interval; only `Clock` (which needs positive lengths for time to move forward) requires positive durations.
- `Clock.Run`: a refused call is skipped; in the class the exception reaches the front end, which does not catch it.
- `rm.TimersTest/Program.cs`, the interactive console loop: it has no logic of its own beyond the configuration used in `Clock.DemoConfig`; its ten queued tasks are replaced by one in the demo session.
