/** The FIFO queue of task identifiers the timer carries (`Queue<int>` in the
    source): duplicates allowed, unbounded, oldest task at index 0. */
module TaskQueue {
  import opened CSharp

  type Queue = seq<Int32>

  datatype Option<T> = None | Some(value: T)

  /** `Queue<int>.Enqueue`: the new task goes to the tail, everything
      already queued keeps its place. */
  function Enqueue(q: Queue, t: Int32): (r: Queue)
    ensures |r| == |q| + 1
    ensures r[..|q|] == q && r[|q|] == t
  {
    q + [t]
  }

  /** `Queue<int>.Dequeue`, with the emptiness test the caller makes first
      folded in: `None` exactly on the empty queue, otherwise the oldest
      task and the queue behind it. */
  function Dequeue(q: Queue): (r: Option<(Int32, Queue)>)
    ensures r.None? <==> |q| == 0
    ensures r.Some? ==> [r.value.0] + r.value.1 == q
    ensures r.Some? ==> |r.value.1| == |q| - 1
  {
    if |q| == 0 then None else Some((q[0], q[1..]))
  }

  /** Enqueuing every task of `ts` in turn. */
  function EnqueueAll(q: Queue, ts: seq<Int32>): (r: Queue)
    decreases |ts|
  {
    if |ts| == 0 then q else EnqueueAll(Enqueue(q, ts[0]), ts[1..])
  }

  /** The order in which repeated dequeues hand tasks back. */
  function DrainOrder(q: Queue): (r: seq<Int32>)
    decreases |q|
  {
    match Dequeue(q)
    case None => []
    case Some((t, rest)) => [t] + DrainOrder(rest)
  }

  /** Dequeue and enqueue commute on a non-empty queue: a task added behind
      others never overtakes them. */
  lemma EnqueueBehindHead(q: Queue, t: Int32)
    requires |q| > 0
    ensures Dequeue(Enqueue(q, t)) == Some((q[0], Enqueue(q[1..], t)))
  {
    assert (q + [t])[1..] == q[1..] + [t];
  }

  /** On an empty queue the task just added is the one handed back. */
  lemma EnqueueOnEmpty(t: Int32)
    ensures Dequeue(Enqueue([], t)) == Some((t, []))
  {
  }

  /** Draining gives the queue's contents front to back. */
  lemma {:induction false} DrainOrderIsContents(q: Queue)
    ensures DrainOrder(q) == q
    decreases |q|
  {
    if |q| > 0 {
      DrainOrderIsContents(q[1..]);
    }
  }

  /** First in, first out: tasks enqueued one after another come back in
      the order they went in, after everything queued before them. */
  lemma {:induction false} FirstInFirstOut(q: Queue, ts: seq<Int32>)
    ensures DrainOrder(EnqueueAll(q, ts)) == q + ts
    decreases |ts|
  {
    if |ts| == 0 {
      DrainOrderIsContents(q);
    } else {
      FirstInFirstOut(Enqueue(q, ts[0]), ts[1..]);
      assert (q + [ts[0]]) + ts[1..] == q + ts;
    }
  }
}
