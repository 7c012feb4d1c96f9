/** TinyHUD's process-wide serial queue: the operations in the order they were
    added, how many of them the queue has handed to `start()`, and the
    `isQueueEnabled` flag that picks between waiting in line and preempting. */
module Scheduling {
  import opened Common
  import opened Lifecycle

  /** `currentHUD`: the position of the first job, in queue order, that is
      neither cancelled nor finished; none when there is no such job. */
  function CurrentHud(jobs: seq<Job>): (r: Option<nat>)
    ensures r.Some? ==> r.value < |jobs| && Live(jobs[r.value])
    ensures r.Some? ==> forall k :: 0 <= k < r.value ==> !Live(jobs[k])
    ensures r.None? ==> forall k :: 0 <= k < |jobs| ==> !Live(jobs[k])
  {
    if jobs == [] then None
    else if Live(jobs[0]) then Some(0)
    else match CurrentHud(jobs[1..])
      case None => None
      case Some(k) => Some(k + 1)
  }

  /** `cancelAllOperations()`: every operation still in the queue, that is,
      every job not yet finished, is cancelled; finished jobs have left the
      queue and are not touched. */
  function CancelEvery(jobs: seq<Job>): seq<Job> {
    seq(|jobs|, k requires 0 <= k < |jobs| => if jobs[k].finished then jobs[k] else CancelJob(jobs[k]))
  }

  /** The queue after `show()`: with queueing disabled every queued job is
      cancelled first; the new job is then added at the end. */
  function ShowJobs(jobs: seq<Job>, queueEnabled: bool, job: Job): seq<Job> {
    (if queueEnabled then jobs else CancelEvery(jobs)) + [job]
  }

  /** The serial queue may start another job: none was started yet, or the
      last one it started has finished. */
  predicate SlotFree(jobs: seq<Job>, dispatched: nat)
    requires dispatched <= |jobs|
  {
    dispatched == 0 || jobs[dispatched - 1].finished
  }

  /** The queue's invariant: the first `dispatched` jobs were handed to
      `start()` in order, all but the last of them have finished, and none of
      the others has been started. */
  ghost predicate SingleSlot(jobs: seq<Job>, dispatched: nat) {
    && dispatched <= |jobs|
    && (forall k :: 0 <= k < dispatched - 1 ==> jobs[k].finished)
    && (forall k :: dispatched <= k < |jobs| ==> Pristine(jobs[k]))
  }

  /** Job k has been started and has not finished. */
  predicate Running(jobs: seq<Job>, dispatched: nat, k: nat) {
    k < dispatched <= |jobs| && !jobs[k].finished
  }

  class Scheduler {
    var jobs: seq<Job>
    var dispatched: nat
    var isQueueEnabled: bool

    ghost predicate Valid()
      reads this
    {
      SingleSlot(jobs, dispatched)
    }

    constructor ()
      ensures Valid()
      ensures jobs == [] && dispatched == 0 && isQueueEnabled
    {
      jobs, dispatched, isQueueEnabled := [], 0, true;
    }

    /** `queue.addOperation(_:)` */
    method Enqueue(job: Job)
      requires Valid() && Pristine(job)
      modifies this`jobs
      ensures Valid()
      ensures jobs == old(jobs) + [job]
    {
      jobs := jobs + [job];
    }

    /** `TinyHUD.cancelAll()` */
    method CancelAll()
      requires Valid()
      modifies this`jobs
      ensures Valid()
      ensures jobs == CancelEvery(old(jobs))
    {
      jobs := CancelEvery(jobs);
    }

    /** `cancel()` called on the operation at position i. */
    method Cancel(i: nat)
      requires Valid() && i < |jobs|
      modifies this`jobs
      ensures Valid()
      ensures jobs == old(jobs)[i := CancelJob(old(jobs)[i])]
    {
      jobs := jobs[i := CancelJob(jobs[i])];
    }

    /** The serial queue's step: when its single slot is free it calls
      `start()` on the next job in line; `start()` is the one as written. */
    method Dispatch(screen: Screen)
      requires Valid() && screen.Valid()
      modifies this`jobs, this`dispatched
      ensures Valid()
      ensures old(dispatched) < |old(jobs)| && SlotFree(old(jobs), old(dispatched)) ==>
        && jobs == old(jobs)[old(dispatched) := StartAsWritten(old(jobs)[old(dispatched)], screen)]
        && dispatched == old(dispatched) + 1
      ensures !(old(dispatched) < |old(jobs)| && SlotFree(old(jobs), old(dispatched))) ==>
        jobs == old(jobs) && dispatched == old(dispatched)
    {
      if dispatched < |jobs| && SlotFree(jobs, dispatched) {
        jobs := jobs[dispatched := StartAsWritten(jobs[dispatched], screen)];
        dispatched := dispatched + 1;
      }
    }

    /** A callback of the job at position i comes due. */
    method Fire(i: nat, callback: Callback)
      requires Valid() && i < |jobs|
      modifies this`jobs
      ensures Valid()
      ensures jobs == old(jobs)[i := Step(old(jobs)[i], Event.Fire(callback))]
    {
      jobs := jobs[i := Step(jobs[i], Event.Fire(callback))];
    }
  }

  // ---------------------------------------------------------------------------
  // Properties
  // ---------------------------------------------------------------------------

  /** With queueing enabled, `show()` appends the job and leaves every queued
      job as it was; `currentHUD` stays the same job, or becomes the new job
      when there was none. */
  lemma {:induction false} ShowWaitsInLine(jobs: seq<Job>, job: Job)
    ensures ShowJobs(jobs, true, job) == jobs + [job]
    ensures CurrentHud(jobs + [job]) ==
      if CurrentHud(jobs).Some? then CurrentHud(jobs)
      else if Live(job) then Some(|jobs|) else None
  {
    var r := jobs + [job];
    match CurrentHud(jobs)
    case Some(c) =>
      assert r[c] == jobs[c];
      assert forall k :: 0 <= k < c ==> r[k] == jobs[k];
    case None =>
      assert forall k :: 0 <= k < |jobs| ==> r[k] == jobs[k];
      assert r[|jobs|] == job;
  }

  /** `cancelAll()` cancels every job that had not finished, leaves finished
      jobs alone, and leaves no `currentHUD`. */
  lemma CancelAllStopsEverything(jobs: seq<Job>)
    ensures var r := CancelEvery(jobs);
      && |r| == |jobs|
      && (forall k :: 0 <= k < |jobs| ==> r[k].finished)
      && (forall k :: 0 <= k < |jobs| && !jobs[k].finished ==> r[k] == CancelJob(jobs[k]) && Dismissed(r[k]))
      && (forall k :: 0 <= k < |jobs| && jobs[k].finished ==> r[k] == jobs[k])
      && CurrentHud(r) == None
  {
  }

  /** With queueing disabled, `show()` cancels every job that had not
      finished before adding the new one: the new job becomes `currentHUD`,
      and `start()` is a no-op on every job ahead of it. */
  lemma ShowPreempts(jobs: seq<Job>, job: Job, screen: Screen)
    requires screen.Valid()
    requires Live(job)
    ensures var r := ShowJobs(jobs, false, job);
      && |r| == |jobs| + 1 && r[|jobs|] == job
      && (forall k :: 0 <= k < |jobs| && !jobs[k].finished ==> Dismissed(r[k]))
      && (forall k :: 0 <= k < |jobs| ==> StartAsWritten(r[k], screen) == r[k])
      && CurrentHud(r) == Some(|jobs|)
  {
    var r := ShowJobs(jobs, false, job);
    CancelAllStopsEverything(jobs);
    assert forall k :: 0 <= k < |jobs| ==> r[k] == CancelEvery(jobs)[k];
  }

  /** The queue keeps its invariant across `show()`. */
  lemma ShowKeepsSingleSlot(jobs: seq<Job>, dispatched: nat, queueEnabled: bool, job: Job)
    requires SingleSlot(jobs, dispatched) && Pristine(job)
    ensures SingleSlot(ShowJobs(jobs, queueEnabled, job), dispatched)
  {
    var c := if queueEnabled then jobs else CancelEvery(jobs);
    assert SingleSlot(c, dispatched);
    assert forall k :: 0 <= k < |c| ==> (c + [job])[k] == c[k];
  }

  /** At most one job has been started and not finished. */
  lemma OneAtATime(jobs: seq<Job>, dispatched: nat, a: nat, b: nat)
    requires SingleSlot(jobs, dispatched)
    requires Running(jobs, dispatched, a) && Running(jobs, dispatched, b)
    ensures a == b && a == dispatched - 1
  {
  }

  /** A job that is attached and not finished is the last one started, and
      every job added before it has finished: jobs are shown in the order
      they were added. */
  lemma ShownInOrder(jobs: seq<Job>, dispatched: nat, k: nat)
    requires SingleSlot(jobs, dispatched)
    requires k < |jobs| && jobs[k].superview.Some? && !jobs[k].finished
    ensures k == dispatched - 1
    ensures forall i :: 0 <= i < k ==> jobs[i].finished
  {
  }

  /** The duration timer frees the queue's slot while the job's background is
      still attached and fading: the next job can be started and mounted
      beside it. */
  lemma SlotFreedWhileFading(jobs: seq<Job>, dispatched: nat)
    requires SingleSlot(jobs, dispatched) && 0 < dispatched
    requires DurationElapsed in jobs[dispatched - 1].pending
    requires jobs[dispatched - 1].superview.Some?
    ensures var r := jobs[dispatched - 1 := OnTimer(jobs[dispatched - 1], DurationElapsed)];
      && SingleSlot(r, dispatched)
      && SlotFree(r, dispatched)
      && r[dispatched - 1].superview.Some?
  {
  }
}
