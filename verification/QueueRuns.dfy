/** Theorems about whole runs of the event queue, with crashes anywhere. */
module QueueRuns {
  import opened Prelude
  import opened QueueModel
  import opened QueueInvariants
  import opened QueueOrder

  lemma {:induction false} RunIsSafe(ss: seq<State>, steps: seq<Step>, n: nat)
    requires IsRun(ss, steps) && Init(ss[0]) && n < |ss|
    ensures Safe(ss[n])
  {
    if n == 0 {
      InitSafe(ss[0]);
    } else {
      RunIsSafe(ss, steps, n - 1);
      StepSafe(ss[n - 1], steps[n - 1]);
    }
  }

  // ----- The history variables say what happened -----

  /** The events behind the first `n` steps' job creations. */
  ghost function CreatedFor(ss: seq<State>, steps: seq<Step>, n: nat): seq<EventId>
    requires IsRun(ss, steps) && n <= |steps|
  {
    if n == 0 then [] else
      CreatedFor(ss, steps, n - 1) + (if steps[n - 1].CreateJob? then [ss[n - 1].worker.event.id] else [])
  }

  /** Among the first `n` steps the worker went down while the row of `id` carried a job. */
  ghost predicate WentDownMarked(ss: seq<State>, steps: seq<Step>, n: nat, id: EventId)
    requires |ss| == |steps| + 1 && n <= |steps|
  {
    exists i :: 0 <= i < n && TakesDown(steps[i]) && id in MarkedRows(ss[i].queue)
  }

  /** Among the first `n` steps the worker went down between evicting `id` and creating its second job. */
  ghost predicate WentDownEvicted(ss: seq<State>, steps: seq<Step>, n: nat, id: EventId)
    requires |ss| == |steps| + 1 && n <= |steps|
  {
    exists i :: 0 <= i < n && TakesDown(steps[i]) && id in Evicted(ss[i])
  }

  lemma JobLogOfStep(s: State, step: Step)
    requires Enabled(s, step)
    ensures step.CreateJob? ==> Apply(s, step).h.jobLog == s.h.jobLog + [s.worker.event.id]
    ensures !step.CreateJob? ==> Apply(s, step).h.jobLog == s.h.jobLog
  {
  }

  lemma DownsOfStep(s: State, step: Step, id: EventId)
    requires Enabled(s, step)
    ensures id in Apply(s, step).h.interrupted <==>
            id in s.h.interrupted || (TakesDown(step) && id in MarkedRows(s.queue))
    ensures id in Apply(s, step).h.abandoned <==>
            id in s.h.abandoned || (TakesDown(step) && id in Evicted(s))
  {
  }

  lemma {:induction false} JobLogIsFaithful(ss: seq<State>, steps: seq<Step>, n: nat)
    requires IsRun(ss, steps) && Init(ss[0]) && n <= |steps|
    ensures ss[n].h.jobLog == CreatedFor(ss, steps, n)
  {
    if n > 0 {
      JobLogIsFaithful(ss, steps, n - 1);
      JobLogOfStep(ss[n - 1], steps[n - 1]);
    }
  }

  lemma WentDownUnfolds(ss: seq<State>, steps: seq<Step>, n: nat, id: EventId)
    requires |ss| == |steps| + 1 && 0 < n <= |steps|
    ensures WentDownMarked(ss, steps, n, id) <==>
            WentDownMarked(ss, steps, n - 1, id) || (TakesDown(steps[n - 1]) && id in MarkedRows(ss[n - 1].queue))
    ensures WentDownEvicted(ss, steps, n, id) <==>
            WentDownEvicted(ss, steps, n - 1, id) || (TakesDown(steps[n - 1]) && id in Evicted(ss[n - 1]))
  {
  }

  lemma DownsOneStepOn(ss: seq<State>, steps: seq<Step>, n: nat, id: EventId)
    requires |ss| == |steps| + 1 && 0 < n <= |steps|
    requires Enabled(ss[n - 1], steps[n - 1]) && ss[n] == Apply(ss[n - 1], steps[n - 1])
    requires id in ss[n - 1].h.interrupted <==> WentDownMarked(ss, steps, n - 1, id)
    requires id in ss[n - 1].h.abandoned <==> WentDownEvicted(ss, steps, n - 1, id)
    ensures id in ss[n].h.interrupted <==> WentDownMarked(ss, steps, n, id)
    ensures id in ss[n].h.abandoned <==> WentDownEvicted(ss, steps, n, id)
  {
    DownsOfStep(ss[n - 1], steps[n - 1], id);
    WentDownUnfolds(ss, steps, n, id);
  }

  lemma {:induction false} DownsAreFaithful(ss: seq<State>, steps: seq<Step>, n: nat, id: EventId)
    requires IsRun(ss, steps) && Init(ss[0]) && n <= |steps|
    ensures id in ss[n].h.interrupted <==> WentDownMarked(ss, steps, n, id)
    ensures id in ss[n].h.abandoned <==> WentDownEvicted(ss, steps, n, id)
  {
    if n > 0 {
      DownsAreFaithful(ss, steps, n - 1, id);
      DownsOneStepOn(ss, steps, n, id);
    }
  }

  /** The ids inserted by the first `n` steps. */
  function InsertedBy(steps: seq<Step>, n: nat): seq<EventId>
    requires n <= |steps|
  {
    if n == 0 then [] else
      InsertedBy(steps, n - 1) + (if steps[n - 1].EnqueueInsert? then [steps[n - 1].row.id] else [])
  }

  /** Among the first `n` steps this row was enqueued. */
  ghost predicate Enqueued(steps: seq<Step>, n: nat, row: QueuedEvent)
    requires n <= |steps|
  {
    exists i :: 0 <= i < n && steps[i] == EnqueueInsert(row)
  }

  lemma ArrivalsOfStep(s: State, step: Step)
    requires Enabled(s, step)
    ensures step.EnqueueInsert? ==>
              && Apply(s, step).h.order == s.h.order + [step.row.id]
              && Apply(s, step).h.arrivals == s.h.arrivals[step.row.id := step.row]
    ensures !step.EnqueueInsert? ==>
              Apply(s, step).h.order == s.h.order && Apply(s, step).h.arrivals == s.h.arrivals
  {
  }

  lemma {:induction false} ArrivalsAreFaithful(ss: seq<State>, steps: seq<Step>, n: nat, id: EventId)
    requires IsRun(ss, steps) && Init(ss[0]) && n <= |steps|
    ensures ss[n].h.order == ss[0].h.order + InsertedBy(steps, n)
    ensures id in ss[n].h.arrivals && id !in ss[0].queue ==> Enqueued(steps, n, ss[n].h.arrivals[id])
    ensures id in ss[0].queue ==> id in ss[n].h.arrivals && ss[n].h.arrivals[id] == ss[0].queue[id]
  {
    if n > 0 {
      ArrivalsAreFaithful(ss, steps, n - 1, id);
      ArrivalsOfStep(ss[n - 1], steps[n - 1]);
      RunIsSafe(ss, steps, n - 1);
      if id in ss[n].h.arrivals && id !in ss[0].queue {
        if steps[n - 1].EnqueueInsert? && steps[n - 1].row.id == id {
          assert steps[n - 1] == EnqueueInsert(ss[n].h.arrivals[id]);
        } else {
          var i :| 0 <= i < n - 1 && steps[i] == EnqueueInsert(ss[n - 1].h.arrivals[id]);
        }
      }
    }
  }

  /**
   A handler only ever sees an allowed event exactly as it was enqueued (or found in the
   table at the start), whatever crashes came between.
   */
  lemma HandlersSeeEnqueuedEvents(ss: seq<State>, steps: seq<Step>, n: nat)
    requires IsRun(ss, steps) && Init(ss[0]) && n <= |steps| && ss[n].worker.Handling?
    ensures var row := ss[n].worker.event.(jobId := None);
            && Allowed(row.event)
            && (Enqueued(steps, n, row) || (row.id in ss[0].queue && ss[0].queue[row.id] == row))
  {
    RunIsSafe(ss, steps, n);
    var id := ss[n].worker.event.id;
    ArrivalsAreFaithful(ss, steps, n, id);
  }

  // ----- How often an event is handled -----

  /** How many of the first `n` steps created a job for `id`. */
  ghost function JobsFor(ss: seq<State>, steps: seq<Step>, n: nat, id: EventId): nat
    requires IsRun(ss, steps) && n <= |steps|
  {
    multiset(CreatedFor(ss, steps, n))[id]
  }

  /** The event has left the queue for good: no row, and the worker is not about to retry it. */
  ghost predicate Departed(s: State, id: EventId) {
    id in s.h.arrivals && id !in s.queue && id !in Evicted(s)
  }

  /**
   Whatever crashes happen, no event gets more than two jobs, and one that has left the
   queue got at least one. It got two exactly when the worker went down between the
   creation of its first job and its deletion and did not go down again between evicting
   it and creating the second job.
   */
  lemma JobsPerEvent(ss: seq<State>, steps: seq<Step>, n: nat, id: EventId)
    requires IsRun(ss, steps) && Init(ss[0]) && n <= |steps|
    ensures JobsFor(ss, steps, n, id) <= 2
    ensures id !in ss[n].h.arrivals || !Allowed(ss[n].h.arrivals[id].event) ==> JobsFor(ss, steps, n, id) == 0
    ensures id in ss[n].h.arrivals && Allowed(ss[n].h.arrivals[id].event) && id !in ss[n].queue ==>
              1 <= JobsFor(ss, steps, n, id)
    ensures Departed(ss[n], id) && Allowed(ss[n].h.arrivals[id].event) ==>
              (JobsFor(ss, steps, n, id) == 2 <==>
                 WentDownMarked(ss, steps, n, id) && !WentDownEvicted(ss, steps, n, id))
  {
    RunIsSafe(ss, steps, n);
    JobLogIsFaithful(ss, steps, n);
    DownsAreFaithful(ss, steps, n, id);
    if id !in ss[n].h.arrivals {
      assert id !in ss[n].h.jobLog;
    }
  }

  // ----- Order -----

  lemma {:induction false} OrderedThroughout(ss: seq<State>, steps: seq<Step>, n: nat, k: nat)
    requires IsRun(ss, steps) && Init(ss[0]) && k <= n < |ss| && TimestampOrdered(ss[n].h)
    ensures TimestampOrdered(ss[k].h)
    decreases n - k
  {
    if k < n {
      OrderedThroughout(ss, steps, n, k + 1);
      RunIsSafe(ss, steps, k);
      OrderedBefore(ss[k], steps[k]);
    }
  }

  lemma {:induction false} RunInOrder(ss: seq<State>, steps: seq<Step>, n: nat)
    requires IsRun(ss, steps) && Init(ss[0]) && n < |ss| && TimestampOrdered(ss[n].h)
    ensures InOrder(ss[n].queue, ss[n].h, Due(ss[n].worker))
  {
    if n > 0 {
      var s, step := ss[n - 1], steps[n - 1];
      assert Enabled(s, step) && ss[n] == Apply(s, step);
      OrderedThroughout(ss, steps, n, n - 1);
      RunInOrder(ss, steps, n - 1);
      RunIsSafe(ss, steps, n - 1);
      StepInOrder(s, step);
    }
  }

  /** How many jobs an event gets in all, told from its crash history. */
  function JobsInAll(h: History): EventId -> nat {
    id => if id !in h.arrivals || !Allowed(h.arrivals[id].event) then 0
          else if id in h.interrupted && id !in h.abandoned then 2 else 1
  }

  /**
   In a timestamp-ordered run, whatever crashes happen, the job-creation log is the
   enqueue log with every event repeated once per job it got; once the queue is empty,
   every allowed event appears once or twice, and twice exactly as `JobsPerEvent` says.
   */
  lemma {:induction false} JobsFollowArrivals(ss: seq<State>, steps: seq<Step>, n: nat)
    requires IsRun(ss, steps) && Init(ss[0]) && n <= |steps| && TimestampOrdered(ss[n].h)
    ensures CreatedFor(ss, steps, n) == Schedule(ss[n])
    ensures ss[n].queue == map[] && ss[n].worker.Receiving? ==>
              CreatedFor(ss, steps, n) == RepeatEach(ss[n].h.order, JobsInAll(ss[n].h))
  {
    RunIsSafe(ss, steps, n);
    RunInOrder(ss, steps, n);
    JobLogIsFaithful(ss, steps, n);
    JobLogIsSchedule(ss[n]);
    if ss[n].queue == map[] && ss[n].worker.Receiving? {
      RepeatEachSame(ss[n].h.order, JobsSoFar(ss[n].queue, ss[n].h, Evicted(ss[n])), JobsInAll(ss[n].h));
    }
  }

  // ----- No lost wake-up -----

  /** The token in the worker's hands, as long as the row it stands for is still queued. */
  function Held(s: State): nat {
    if s.worker.Gated? || s.worker.Fetching? then 1
    else if s.worker.HasEvent() && s.worker.event.id in s.queue then 1
    else 0
  }

  function StartupLeft(w: Worker): nat {
    if w.Announcing? then w.more + 1 else 0
  }

  /** Once the startup count is done, every queued row has a token on its way. */
  ghost predicate Covered(s: State) {
    s.worker.Alive() && !s.worker.Counting? ==>
      |s.queue| <= s.tokens + StartupLeft(s.worker) + s.unsent + Held(s)
  }

  lemma RemoveOne(queue: map<EventId, QueuedEvent>, id: EventId)
    ensures |queue - {id}| == if id in queue then |queue| - 1 else |queue|
  {
    assert (queue - {id}).Keys == queue.Keys - {id};
    assert |queue| == |queue.Keys| && |queue - {id}| == |(queue - {id}).Keys|;
  }

  lemma InsertOne(queue: map<EventId, QueuedEvent>, id: EventId, row: QueuedEvent)
    ensures |queue[id := row]| == if id in queue then |queue| else |queue| + 1
  {
    assert queue[id := row].Keys == queue.Keys + {id};
    assert |queue| == |queue.Keys| && |queue[id := row]| == |queue[id := row].Keys|;
  }

  lemma WriteCovered(s: State, step: Step)
    requires WorkerOk(s) && RowsOk(s.queue, s.h.arrivals, s.jobs.Keys)
    requires Covered(s) && Enabled(s, step) && (step.EnqueueInsert? || step.CreateJob?)
    ensures Covered(Apply(s, step))
  {
    match step
    case EnqueueInsert(row) => InsertOne(s.queue, row.id, row);
    case CreateJob(job, _) =>
      var id := s.worker.event.id;
      if id in s.queue {
        InsertOne(s.queue, id, s.queue[id].(jobId := Some(job)));
      }
  }

  lemma DeleteCovered(s: State, step: Step)
    requires Covered(s) && Enabled(s, step) && Deletes(step)
    ensures Covered(Apply(s, step))
  {
    RemoveOne(s.queue, s.worker.event.id);
  }

  lemma OtherCovered(s: State, step: Step)
    requires Covered(s) && Enabled(s, step) && !step.EnqueueInsert? && !step.CreateJob? && !Deletes(step)
    ensures Covered(Apply(s, step))
  {
  }

  lemma StepCovered(s: State, step: Step)
    requires Safe(s) && Covered(s) && Enabled(s, step)
    ensures Covered(Apply(s, step))
  {
    if step.EnqueueInsert? || step.CreateJob? {
      WriteCovered(s, step);
    } else if Deletes(step) {
      DeleteCovered(s, step);
    } else {
      OtherCovered(s, step);
    }
  }

  lemma {:induction false} RunCovered(ss: seq<State>, steps: seq<Step>, n: nat)
    requires IsRun(ss, steps) && Init(ss[0]) && n < |ss|
    ensures Covered(ss[n])
  {
    if n > 0 {
      RunCovered(ss, steps, n - 1);
      RunIsSafe(ss, steps, n - 1);
      StepCovered(ss[n - 1], steps[n - 1]);
    }
  }

  /** A worker that waits for a token while none is coming has nothing left to do. */
  lemma IdleMeansEmpty(ss: seq<State>, steps: seq<Step>, n: nat)
    requires IsRun(ss, steps) && Init(ss[0]) && n < |ss|
    requires ss[n].worker.Receiving? && ss[n].tokens == 0 && ss[n].unsent == 0
    ensures ss[n].queue == map[]
  {
    RunCovered(ss, steps, n);
  }

  // ----- The channel -----

  /** Tokens sent less tokens received since the process was last started. */
  function ChannelBalance(steps: seq<Step>, n: nat): int
    requires n <= |steps|
  {
    if n == 0 || steps[n - 1].RestartProcess? then 0
    else ChannelBalance(steps, n - 1)
         + (if steps[n - 1].EnqueueSend? || steps[n - 1].SendStartupToken? then 1 else 0)
         - (if steps[n - 1].ReceiveToken? then 1 else 0)
  }

  /** Inserts less sends since the process was last started. */
  function SendsDue(steps: seq<Step>, n: nat): int
    requires n <= |steps|
  {
    if n == 0 || steps[n - 1].RestartProcess? then 0
    else SendsDue(steps, n - 1)
         + (if steps[n - 1].EnqueueInsert? then 1 else 0) - (if steps[n - 1].EnqueueSend? then 1 else 0)
  }

  lemma ChannelOfStep(s: State, step: Step)
    requires Enabled(s, step)
    ensures var s' := Apply(s, step);
            if step.RestartProcess? then s'.tokens == s'.unsent == 0
            else
              && s'.tokens == s.tokens + (if step.EnqueueSend? || step.SendStartupToken? then 1 else 0)
                              - (if step.ReceiveToken? then 1 else 0)
              && s'.unsent == s.unsent + (if step.EnqueueInsert? then 1 else 0) - (if step.EnqueueSend? then 1 else 0)
  {
  }

  /**
   Conservation over every run: the channel holds exactly what was sent and not received since
   the process was last started, across crashes of the worker; no other step makes or loses a
   token.
   */
  lemma {:induction false} TokensAreConserved(ss: seq<State>, steps: seq<Step>, n: nat)
    requires IsRun(ss, steps) && Init(ss[0]) && n <= |steps|
    ensures ss[n].tokens == ChannelBalance(steps, n) && ss[n].unsent == SendsDue(steps, n)
  {
    if n > 0 {
      TokensAreConserved(ss, steps, n - 1);
      ChannelOfStep(ss[n - 1], steps[n - 1]);
    }
  }

  // ----- Restarts -----

  /** How far the supervisor got between the steps `a` and `k`: reset, restarted, rows counted. */
  ghost predicate Reset(steps: seq<Step>, a: nat, k: nat)
    requires k <= |steps|
  {
    exists p :: a < p < k && steps[p] == ResetActive
  }

  ghost predicate Restarted(steps: seq<Step>, a: nat, k: nat)
    requires k <= |steps|
  {
    exists q :: a < q < k && steps[q] == RestartWorker && Reset(steps, a, q)
  }

  ghost predicate Recounted(steps: seq<Step>, a: nat, k: nat)
    requires k <= |steps|
  {
    exists r :: a < r < k && steps[r] == CountQueued && Restarted(steps, a, r)
  }

  lemma RestartUnfolds(steps: seq<Step>, a: nat, k: nat)
    requires a < k < |steps|
    ensures Reset(steps, a, k) ==> Reset(steps, a, k + 1)
    ensures Restarted(steps, a, k) ==> Restarted(steps, a, k + 1)
    ensures Recounted(steps, a, k) ==> Recounted(steps, a, k + 1)
    ensures steps[k] == ResetActive ==> Reset(steps, a, k + 1)
    ensures steps[k] == RestartWorker && Reset(steps, a, k) ==> Restarted(steps, a, k + 1)
    ensures steps[k] == CountQueued && Restarted(steps, a, k) ==> Recounted(steps, a, k + 1)
  {
  }

  /** What of its restart a worker in this place has behind it. */
  ghost predicate RestartSoFar(w: Worker, steps: seq<Step>, a: nat, k: nat)
    requires k <= |steps|
  {
    || w.Crashed? || (w.Sleeping? && Reset(steps, a, k)) || (w.Counting? && Restarted(steps, a, k))
    || Recounted(steps, a, k)
  }

  lemma RestartOfStep(s: State, step: Step)
    requires Enabled(s, step) && !step.RestartProcess?
    ensures var w, w' := s.worker, Apply(s, step).worker;
            && (w.Crashed? ==> w'.Crashed? || (step == ResetActive && w'.Sleeping?))
            && (w.Sleeping? ==> w'.Sleeping? || (step == RestartWorker && w'.Counting?))
            && (w.Counting? ==> w'.Counting? || w'.Crashed? || step == CountQueued)
            && (TakesDown(step) ==> w'.Crashed?)
  {
  }

  lemma {:induction false} RestartProgress(ss: seq<State>, steps: seq<Step>, a: nat, k: nat)
    requires IsRun(ss, steps) && a < k <= |steps| && TakesDown(steps[a])
    requires forall i :: a <= i < k ==> steps[i] != RestartProcess
    ensures RestartSoFar(ss[k].worker, steps, a, k)
    decreases k - a
  {
    RestartOfStep(ss[k - 1], steps[k - 1]);
    if a + 1 < k {
      RestartProgress(ss, steps, a, k - 1);
      RestartUnfolds(steps, a, k - 1);
    }
  }

  /**
   However the worker goes down, by a crash or because it found nothing to fetch, and unless the
   whole process is restarted: before it takes another token the supervisor has reset the active
   job, then restarted it, and then it has counted the queued rows.
   */
  lemma NoTokenBeforeRestart(ss: seq<State>, steps: seq<Step>, a: nat, b: nat)
    requires IsRun(ss, steps) && a < b < |steps| && TakesDown(steps[a]) && steps[b] == ReceiveToken
    requires forall i :: a <= i < b ==> steps[i] != RestartProcess
    ensures Recounted(steps, a, b)
  {
    RestartProgress(ss, steps, a, b);
    assert Enabled(ss[b], steps[b]);
  }
}
