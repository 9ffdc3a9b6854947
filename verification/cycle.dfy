/** The shape of the round/break cycle: what repeated firings of the
    interval-elapsed handler do once a cycle has begun at round 0. */
module Cycle {
  import opened CSharp
  import opened Pomodoro

  /** `m` successive firings of the interval-elapsed handler. */
  function Fire(c: Config, s: State, m: nat): State
    requires c.numberOfRounds > 0
    decreases m
  {
    if m == 0 then s else OnTimedEvent(c, Fire(c, s, m - 1))
  }

  /** What the `k`-th round's end announces, worked out from the cycle
      alone: the break after round `k mod n` (long when that is the last
      round), then the next round. */
  function CycleStep(n: int, k: nat): seq<Event>
    requires n > 0
  {
    [StartingBreak(k % n, k % n + 1 == n), StartingRound((k + 1) % n)]
  }

  /** What the first `k` rounds and their breaks announce. */
  function CycleLog(n: int, k: nat): (r: seq<Event>)
    requires n > 0
    decreases k
  {
    if k == 0 then [] else CycleLog(n, k - 1) + CycleStep(n, k - 1)
  }

  /** Counting modulo `n`: the successor of the last index is 0. */
  lemma ModSuccessor(a: nat, n: int)
    requires n > 0
    ensures (a + 1) % n == if a % n + 1 == n then 0 else a % n + 1
  {
    var q, r := a / n, a % n;
    assert a == n * q + r;
    if r + 1 < n {
      ModUnique(a + 1, n, q, r + 1);
    } else {
      assert a + 1 == n * (q + 1) + 0;
      ModUnique(a + 1, n, q + 1, 0);
    }
  }

  /** The round and the break of the `k`-th point of the cycle. */
  lemma {:induction false} RoundThenBreak(c: Config, p: State, k: nat)
    requires c.numberOfRounds > 0
    requires p.roundi == k % c.numberOfRounds && p.inRound
    ensures OnTimedEvent(c, p).roundi == k % c.numberOfRounds
    ensures !OnTimedEvent(c, p).inRound
    ensures OnTimedEvent(c, OnTimedEvent(c, p)).roundi == (k + 1) % c.numberOfRounds
    ensures OnTimedEvent(c, OnTimedEvent(c, p)).inRound
    ensures OnTimedEvent(c, OnTimedEvent(c, p)).log == p.log + CycleStep(c.numberOfRounds, k)
  {
    ModSuccessor(k, c.numberOfRounds);
    var q := OnTimedEvent(c, p);
    assert OnTimedEvent(c, q).log == (p.log + [q.log[|p.log|]]) + [OnTimedEvent(c, q).log[|q.log|]];
  }

  /** Two firings are a round's end and the next round's start. */
  lemma FireTwice(c: Config, s: State, k: nat)
    requires c.numberOfRounds > 0
    ensures Fire(c, s, 2 * k + 2) == OnTimedEvent(c, OnTimedEvent(c, Fire(c, s, 2 * k)))
  {
    assert Fire(c, s, 2 * k + 1) == OnTimedEvent(c, Fire(c, s, 2 * k));
  }

  /** The timer `t` is at the start of round `k mod n` of the schedule
      begun in `s`, having announced the schedule's first `k` rounds. */
  predicate AtRound(c: Config, s: State, t: State, k: nat)
    requires c.numberOfRounds > 0
  {
    t.roundi == k % c.numberOfRounds && t.inRound && t.log == s.log + CycleLog(c.numberOfRounds, k)
  }

  /** A round and its break move the timer one round along the schedule. */
  lemma NextOnSchedule(c: Config, s: State, p: State, k: nat)
    requires c.numberOfRounds > 0
    requires AtRound(c, s, p, k)
    ensures AtRound(c, s, OnTimedEvent(c, OnTimedEvent(c, p)), k + 1)
  {
    RoundThenBreak(c, p, k);
    AppendAssoc(s.log, CycleLog(c.numberOfRounds, k), CycleStep(c.numberOfRounds, k));
  }

  /** After `k` rounds and their breaks, counted from the start of round 0,
      the timer starts round `k mod n` and has announced exactly the
      cycle's schedule: rounds 0, 1, ..., n-1, 0, ... with a break between
      each, long exactly after round n-1. */
  lemma {:induction false} FollowsSchedule(c: Config, s: State, k: nat)
    requires c.numberOfRounds > 0
    requires s.roundi == 0 && s.inRound
    ensures AtRound(c, s, Fire(c, s, 2 * k), k)
    decreases k
  {
    if k == 0 {
      assert s.log + [] == s.log;
    } else {
      var j := k - 1;
      FollowsSchedule(c, s, j);
      NextOnSchedule(c, s, Fire(c, s, 2 * j), j);
      FireTwice(c, s, j);
    }
  }

  lemma AppendAssoc<T>(a: seq<T>, b: seq<T>, c: seq<T>)
    ensures (a + b) + c == a + (b + c)
  {
  }

  /** Between round `k` and round `k + 1` of the schedule the timer is in
      the break after round `k mod n`. */
  lemma InBreak(c: Config, s: State, k: nat)
    requires c.numberOfRounds > 0
    requires s.roundi == 0 && s.inRound
    ensures Fire(c, s, 2 * k + 1).roundi == k % c.numberOfRounds
    ensures !Fire(c, s, 2 * k + 1).inRound
  {
    FollowsSchedule(c, s, k);
    RoundThenBreak(c, Fire(c, s, 2 * k), k);
  }

  /** A full cycle, `n` rounds and `n` breaks, brings the timer back to the
      start of round 0. */
  lemma CycleReturnsToStart(c: Config, s: State)
    requires c.numberOfRounds > 0
    requires s.roundi == 0 && s.inRound
    ensures Fire(c, s, 2 * c.numberOfRounds).roundi == 0
    ensures Fire(c, s, 2 * c.numberOfRounds).inRound
  {
    FollowsSchedule(c, s, c.numberOfRounds);
    ModUnique(c.numberOfRounds, c.numberOfRounds, 1, 0);
  }

  /** Every round of the schedule lasts `roundTime`. */
  lemma RoundInterval(c: Config, s: State, k: nat)
    requires c.numberOfRounds > 0
    requires s.roundi == 0 && s.inRound
    ensures IntervalSeconds(c, Fire(c, s, 2 * k)) == c.roundTime
  {
    FollowsSchedule(c, s, k);
  }

  /** The break after round `i` of the first cycle is the long one exactly
      when `i` is the last round. */
  lemma BreakInterval(c: Config, s: State, i: nat)
    requires c.numberOfRounds > 0 && i < c.numberOfRounds
    requires s.roundi == 0 && s.inRound
    ensures IntervalSeconds(c, Fire(c, s, 2 * i + 1)) ==
              if i == c.numberOfRounds - 1 then c.longbreakTime else c.breakTime
  {
    InBreak(c, s, i);
    ModUnique(i, c.numberOfRounds, 0, i);
  }

  /** Seconds spent in the first `m` intervals from the start of round 0. */
  function Duration(c: Config, s: State, m: nat): nat
    requires c.numberOfRounds > 0
    decreases m
  {
    if m == 0 then 0 else Duration(c, s, m - 1) + IntervalSeconds(c, Fire(c, s, m - 1))
  }

  /** Round `i` of the first cycle and the break after it, long exactly
      after the last round. */
  lemma DurationStep(c: Config, s: State, i: nat)
    requires c.numberOfRounds > 0 && i < c.numberOfRounds
    requires s.roundi == 0 && s.inRound
    ensures Duration(c, s, 2 * i + 2) ==
              Duration(c, s, 2 * i) + c.roundTime
              + (if i == c.numberOfRounds - 1 then c.longbreakTime else c.breakTime)
  {
    RoundInterval(c, s, i);
    BreakInterval(c, s, i);
    assert Duration(c, s, 2 * i + 2) == Duration(c, s, 2 * i + 1) + IntervalSeconds(c, Fire(c, s, 2 * i + 1));
  }

  /** Before the last round every break is a short one. */
  lemma {:induction false} DurationBeforeLastRound(c: Config, s: State, k: nat)
    requires c.numberOfRounds > 0 && k < c.numberOfRounds
    requires s.roundi == 0 && s.inRound
    ensures Duration(c, s, 2 * k) == k * (c.roundTime + c.breakTime)
    decreases k
  {
    if k > 0 {
      DurationBeforeLastRound(c, s, k - 1);
      DurationStep(c, s, k - 1);
      assert (k - 1) * (c.roundTime + c.breakTime) + c.roundTime + c.breakTime
          == k * (c.roundTime + c.breakTime);
    }
  }

  /** One full cycle lasts `n` rounds, `n - 1` short breaks and one long
      break. */
  lemma CycleDuration(c: Config, s: State)
    requires c.numberOfRounds > 0
    requires s.roundi == 0 && s.inRound
    ensures Duration(c, s, 2 * c.numberOfRounds) ==
              c.numberOfRounds * c.roundTime + (c.numberOfRounds - 1) * c.breakTime + c.longbreakTime
  {
    var n: nat := c.numberOfRounds;
    var k: nat := n - 1;
    DurationBeforeLastRound(c, s, k);
    DurationStep(c, s, k);
    Distribute(c.roundTime, c.breakTime, n, k);
  }

  /** The length of one full cycle: `n` rounds, `n - 1` short breaks and
      one long break. */
  function CycleSeconds(c: Config): nat
    requires c.numberOfRounds > 0
  {
    var n: nat := c.numberOfRounds;
    var k: nat := n - 1;
    n * c.roundTime + k * c.breakTime + c.longbreakTime
  }

  lemma Distribute(r: int, b: int, n: int, k: int)
    requires k == n - 1
    ensures k * (r + b) + r == n * r + k * b
  {
    assert k * (r + b) == k * r + k * b;
    assert n * r == k * r + r;
  }
}
