/** `class RequestQueue` (redux/slices/cryptoSlice.js): a FIFO of pending tasks
    with a spacing `interval` between dispatch starts. `process()` is an async
    function with one await; its two halves are modelled as two atomic steps
    (`Process` up to the wait, `Resume` after it), and the `finally` block of a
    finished task as `Settle`. Clock readings are parameters.

    As written, `running` is never incremented: it starts at 0 and is only
    decremented (lines 94 and 107), so the guard `running >= concurrency` never
    holds for a positive `concurrency` and does not cap the tasks in flight. */
module RequestQueues {
  import opened Common

  function Max(a: int, b: int): int
  {
    if a >= b then a else b
  }

  class RequestQueue<T> {
    var queue: seq<T>
    var running: int
    const concurrency: int
    const interval: int
    var lastRequestTime: int

    /** `running` only ever decreases from its initial 0. */
    ghost predicate Valid()
      reads this
    {
      running <= 0
    }

    /** `new RequestQueue(concurrency, interval)`. */
    constructor (concurrency: int, interval: int)
      ensures Valid()
      ensures queue == [] && running == 0 && lastRequestTime == 0
      ensures this.concurrency == concurrency && this.interval == interval
    {
      queue := [];
      running := 0;
      this.concurrency := concurrency;
      this.interval := interval;
      lastRequestTime := 0;
    }

    /** `add(fn)`: the task goes to the back; earlier entries keep their order.
        (`add` then calls `process()`, which is the caller's next step here.) */
    method Add(task: T)
      requires Valid()
      modifies this
      ensures Valid()
      ensures queue == old(queue) + [task]
      ensures |queue| == |old(queue)| + 1 && queue[..|old(queue)|] == old(queue)
      ensures running == old(running) && lastRequestTime == old(lastRequestTime)
    {
      queue := queue + [task];
    }

    /** Lines 81-91: the guard, then the time at which the call wakes from its
        wait: `now` when `interval` has already passed since the last dispatch,
        otherwise the moment it will have. Nothing changes. */
    method Process(now: int) returns (wake: Option<int>)
      requires Valid()
      ensures wake == None <==> running >= concurrency || queue == []
      ensures wake.Some? ==> wake.value == Max(now, lastRequestTime + interval)
      ensures concurrency > 0 ==> (wake == None <==> queue == [])
    {
      if running >= concurrency || |queue| == 0 {
        return None;
      }
      var timeSinceLastRequest := now - lastRequestTime;
      if timeSinceLastRequest < interval {
        wake := Some(now + (interval - timeSinceLastRequest));
      } else {
        wake := Some(now);
      }
    }

    /** Lines 93-99, run at time `now` after the wait: a queue emptied in the
        meantime decrements `running`; otherwise the head task is taken and
        its start time recorded. */
    method Resume(now: int) returns (started: Option<T>)
      requires Valid()
      modifies this
      ensures Valid()
      ensures old(queue) == [] ==>
        started == None && queue == [] && running == old(running) - 1 && lastRequestTime == old(lastRequestTime)
      ensures old(queue) != [] ==>
        && started == Some(old(queue)[0]) && queue == old(queue)[1..]
        && lastRequestTime == now && running == old(running)
    {
      if |queue| == 0 {
        running := running - 1;
        return None;
      }
      started := Some(queue[0]);
      queue := queue[1..];
      lastRequestTime := now;
    }

    /** Lines 106-107: the `finally` of a finished task (success or failure). */
    method Settle()
      requires Valid()
      modifies this
      ensures Valid()
      ensures running == old(running) - 1
      ensures queue == old(queue) && lastRequestTime == old(lastRequestTime)
    {
      running := running - 1;
    }

    /** One whole `process()` call when no other call interleaves with its
        wait: the head task starts, at a time no earlier than `now` and at
        least `interval` after the previous start. */
    method Dispatch(now: int) returns (started: Option<T>, startTime: int)
      requires Valid()
      modifies this
      ensures Valid()
      ensures started == None <==> old(running) >= concurrency || old(queue) == []
      ensures started == None ==> queue == old(queue) && running == old(running) && lastRequestTime == old(lastRequestTime)
      ensures started.Some? ==>
        && started.value == old(queue)[0] && queue == old(queue)[1..]
        && startTime == lastRequestTime
        && startTime >= now && startTime >= old(lastRequestTime) + interval
        && running == old(running)
    {
      var wake := Process(now);
      startTime := now;
      if wake.None? {
        return None, startTime;
      }
      startTime := wake.value;
      started := Resume(startTime);
    }
  }

  /** With the queue's own defaults for this call site (two at a time, 500 ms
      apart), two back-to-back dispatches start their tasks in FIFO order and
      at least 500 ms apart. */
  method TwoDispatches<T>(x: T, y: T, t1: int, t2: int)
    returns (first: Option<T>, second: Option<T>, start1: int, start2: int)
    ensures first == Some(x) && second == Some(y)
    ensures start1 >= t1 && start2 >= t2 && start2 >= start1 + 500
  {
    var q := new RequestQueue<T>(2, 500);
    q.Add(x);
    q.Add(y);
    first, start1 := q.Dispatch(t1);
    second, start2 := q.Dispatch(t2);
  }

  /** `add` calls `process()` every time, so two tasks added together start two
      `process()` calls that both read `lastRequestTime` before either waits:
      after an earlier task started at `start0`, both wake at the same moment
      and both tasks start then, zero apart. The spacing holds per `process()`
      call, not across interleaved ones. */
  method InterleavedStarts<T>(w: T, x: T, y: T, t0: int, t: int)
    returns (start0: int, first: Option<T>, second: Option<T>, wake1: Option<int>, wake2: Option<int>)
    ensures start0 >= t0
    ensures first == Some(x) && second == Some(y)
    ensures wake1 == wake2 == Some(Max(t, start0 + 500))
  {
    var q := new RequestQueue<T>(2, 500);
    q.Add(w);
    var earlier;
    earlier, start0 := q.Dispatch(t0);
    q.Add(x);
    wake1 := q.Process(t);
    q.Add(y);
    wake2 := q.Process(t);
    first := q.Resume(wake1.value);
    second := q.Resume(wake1.value);
  }
}
