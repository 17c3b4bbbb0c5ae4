/** The job queue of the thread pool: a singly linked list threaded through `prev`, and
    the binary semaphore that announces it. */

module JobQueues {

  /** What one pull does to the queued values: the job handed out (none when the queue is
      empty), what stays queued, and whether the puller must announce the rest. */
  datatype Pulled<T> = Nothing | Taken(job: T, rest: seq<T>, repost: bool)

  /** The abstract effect of `jobqueue_pull`. */
  function Pull<T>(queue: seq<T>): Pulled<T> {
    if queue == [] then Nothing else Taken(queue[0], queue[1..], |queue| > 1)
  }

  /** The abstract effect of `jobqueue_push`. */
  function Push<T>(queue: seq<T>, job: T): seq<T> {
    queue + [job]
  }

  /** The binary semaphore's bit; the threads blocked on it belong to module ThreadPool. */
  class BinarySemaphore {
    var v: int

    constructor ()
      ensures v == 0
    {
      v := 0;
    }

    method Post()
      modifies this
      ensures v == 1
    {
      v := 1;
    }

    method Reset()
      modifies this
      ensures v == 0
    {
      v := 0;
    }
  }

  class Job {
    var prev: Job?
    const work: nat

    constructor (work: nat)
      ensures this.work == work
    {
      this.work := work;
    }
  }

  class JobQueue {
    var front: Job?
    var rear: Job?
    var len: int
    const hasJobs: BinarySemaphore
    ghost var jobs: seq<Job>

    /** The pointer structure holds exactly the jobs of the ghost sequence, in order. */
    ghost predicate Valid()
      reads this, jobs
    {
      && len == |jobs|
      && (jobs == [] <==> front == null)
      && (jobs == [] <==> rear == null)
      && (jobs != [] ==> front == jobs[0] && rear == jobs[|jobs| - 1] && rear.prev == null)
      && (forall i :: 0 <= i < |jobs| - 1 ==> jobs[i].prev == jobs[i + 1])
      && (forall i, k :: 0 <= i < k < |jobs| ==> jobs[i] != jobs[k])
    }

    /** The job reached from `front` by following `prev` `steps` times. */
    ghost function Walk(steps: nat): Job?
      reads this, jobs, set i | 0 <= i < |jobs| :: jobs[i]
      requires Valid()
    {
      if steps == 0 then front
      else
        var j := Walk(steps - 1);
        if j == null || j !in jobs then null else j.prev
    }

    constructor ()
      ensures Valid() && jobs == []
      ensures fresh(hasJobs) && hasJobs.v == 0
    {
      front, rear, len := null, null, 0;
      hasJobs := new BinarySemaphore();
      jobs := [];
    }

    method PushJob(newJob: Job)
      requires Valid() && newJob !in jobs
      modifies this, hasJobs, newJob, rear
      ensures Valid() && jobs == Push(old(jobs), newJob)
      ensures hasJobs.v == 1
    {
      newJob.prev := null;
      if len == 0 {
        front := newJob;
        rear := newJob;
      } else {
        rear.prev := newJob;
        rear := newJob;
      }
      len := len + 1;
      jobs := jobs + [newJob];
      hasJobs.Post();
    }

    method PullJob() returns (job: Job?)
      requires Valid()
      modifies this, hasJobs
      ensures Valid()
      ensures match Pull(old(jobs))
              case Nothing => job == null && jobs == old(jobs) && hasJobs.v == old(hasJobs.v)
              case Taken(j, rest, repost) =>
                job == j && jobs == rest && hasJobs.v == if repost then 1 else old(hasJobs.v)
      ensures hasJobs.v == if jobs != [] then 1 else old(hasJobs.v)
    {
      job := front;
      if len == 0 {
      } else if len == 1 {
        front, rear, len := null, null, 0;
        jobs := jobs[1..];  assert jobs == [];
      } else {
        front := job.prev;  assert front == jobs[1];
        len := len - 1;
        jobs := jobs[1..];
        hasJobs.Post();
      }
    }

    method Clear()
      requires Valid()
      modifies this, hasJobs
      ensures Valid() && jobs == [] && hasJobs.v == 0
    {
      while len != 0
        invariant Valid()
        decreases len
      {
        var job := PullJob();
      }
      front, rear := null, null;
      hasJobs.Reset();
      len := 0;
    }

    /** Following `prev` from `front` visits the queued jobs in order and then stops. */
    lemma {:induction false} WalkVisitsAll(steps: nat)
      requires Valid()
      ensures Walk(steps) == if steps < |jobs| then jobs[steps] else null
    {
      if steps > 0 {
        WalkVisitsAll(steps - 1);
      }
    }
  }

  datatype QueueOp<T> = Add(job: T) | Remove

  function Added<T>(ops: seq<QueueOp<T>>): seq<T> {
    if ops == [] then [] else (if ops[0].Add? then [ops[0].job] else []) + Added(ops[1..])
  }

  /** What a sequence of pushes and pulls hands out, in order, and what it leaves queued. */
  function Serve<T>(queue: seq<T>, ops: seq<QueueOp<T>>): (seq<T>, seq<T>)
    decreases |ops|
  {
    if ops == [] then ([], queue)
    else match ops[0]
      case Add(job) => Serve(Push(queue, job), ops[1..])
      case Remove =>
        match Pull(queue)
        case Nothing => Serve(queue, ops[1..])
        case Taken(j, rest, _) => var (out, left) := Serve(rest, ops[1..]); ([j] + out, left)
  }

  /** Jobs come out in the order in which they went in, none lost, repeated or invented,
      however pushes and pulls are interleaved. */
  lemma {:induction false} FirstInFirstOut<T>(queue: seq<T>, ops: seq<QueueOp<T>>)
    ensures var (out, left) := Serve(queue, ops); out + left == queue + Added(ops)
    decreases |ops|
  {
    if ops != [] {
      match ops[0] {
        case Add(job) =>
          FirstInFirstOut(Push(queue, job), ops[1..]);
          assert queue + Added(ops) == Push(queue, job) + Added(ops[1..]);
        case Remove =>
          assert Added(ops) == Added(ops[1..]);
          if queue == [] {
            FirstInFirstOut(queue, ops[1..]);
          } else {
            var rest := queue[1..];
            FirstInFirstOut(rest, ops[1..]);
            var (out, left) := Serve(rest, ops[1..]);
            assert Serve(queue, ops) == ([queue[0]] + out, left);
            assert [queue[0]] + out + left == [queue[0]] + (rest + Added(ops[1..]));
          }
      }
    }
  }
}
