/** What every step of the event queue keeps. */
module QueueInvariants {
  import opened Prelude
  import opened QueueModel

  /** Rows are stored under their own id and are what was inserted, up to the job mark. */
  ghost predicate RowsOk(queue: map<EventId, QueuedEvent>, arrivals: map<EventId, QueuedEvent>, jobs: set<JobId>) {
    && (forall id :: id in queue ==>
          && queue[id].id == id
          && id in arrivals && arrivals[id] == queue[id].(jobId := None)
          && (queue[id].Marked() ==> queue[id].jobId.value in jobs && Allowed(queue[id].event)))
    && (forall id :: id in arrivals ==> arrivals[id].id == id && !arrivals[id].Marked())
  }

  /** A job is finished exactly when its outcome is known, and the active job exists. */
  ghost predicate JobsOk(jobs: map<JobId, BenchJob>, active: Option<JobId>) {
    && (forall j :: j in jobs ==> (jobs[j].finished.Some? <==> jobs[j].success.Some?))
    && (active.Some? ==> active.value in jobs)
  }

  /** The row a live worker carries, compared with the tables. */
  ghost predicate WorkerOk(s: State) {
    match s.worker
    case Discarding(e) => e.id in s.queue && s.queue[e.id] == e && !Allowed(e.event)
    case Evicting(e) => e.id in s.queue && s.queue[e.id] == e && Allowed(e.event) && e.Marked()
    case Creating(e) =>
      && e.id in s.h.arrivals && s.h.arrivals[e.id] == e.(jobId := None) && Allowed(e.event)
      && (e.Marked() <==> e.id !in s.queue)
      && (!e.Marked() ==> s.queue[e.id] == e)
      && (e.Marked() ==> e.id in s.h.interrupted && e.id !in s.h.abandoned)
    case Handling(e, job) => CarriesJob(s, e, job) && s.jobs[job].success.None?
    case Finishing(e, job, _) => CarriesJob(s, e, job) && s.jobs[job].success.None?
    case Deleting(e, job) => CarriesJob(s, e, job) && s.jobs[job].success.Some?
    case _ => true
  }

  ghost predicate CarriesJob(s: State, e: QueuedEvent, job: JobId) {
    && s.active == Some(job) && job in s.jobs
    && e.id in s.h.arrivals && Allowed(e.event)
    && s.h.arrivals[e.id] == e.(jobId := None)
    && (e.Marked() <==> e.id !in s.queue)
    && (!e.Marked() ==> s.queue[e.id].jobId == Some(job) && e.id !in s.h.interrupted)
    && (e.Marked() ==> e.id in s.h.interrupted && e.id !in s.h.abandoned)
  }

  /**
   How many jobs an event that arrived has been given, told from the tables and the crash
   history; `evicted` holds the event about to get its second job.
   */
  function ExpectedJobs(queue: map<EventId, QueuedEvent>, h: History, evicted: set<EventId>, id: EventId): nat
    requires id in h.arrivals
  {
    if !Allowed(h.arrivals[id].event) then 0
    else if id in queue then (if queue[id].Marked() then 1 else 0)
    else if id in evicted then 1
    else if id in h.interrupted && id !in h.abandoned then 2
    else 1
  }

  ghost predicate LogOk(queue: map<EventId, QueuedEvent>, h: History, evicted: set<EventId>) {
    && (forall i :: 0 <= i < |h.jobLog| ==> h.jobLog[i] in h.arrivals)
    && (forall id :: id in h.arrivals ==> multiset(h.jobLog)[id] == ExpectedJobs(queue, h, evicted, id))
  }

  /** The event whose job is being run, finished or cleaned up. */
  function Busy(s: State): set<EventId> {
    if s.worker.HasJob() then {s.worker.event.id} else {}
  }

  /** How the crash history relates to the rows still queued. */
  ghost predicate CrashesOk(queue: map<EventId, QueuedEvent>, h: History, busy: set<EventId>) {
    && h.interrupted <= h.arrivals.Keys && h.abandoned <= h.arrivals.Keys
    && (forall id :: id in queue ==> id !in h.abandoned)
    && (forall id :: id in queue && !queue[id].Marked() ==> id !in h.interrupted)
    && (forall id :: id in queue && queue[id].Marked() ==> id in h.interrupted || id in busy)
  }

  ghost predicate Safe(s: State) {
    && RowsOk(s.queue, s.h.arrivals, s.jobs.Keys)
    && Lists(s.h.order, s.h.arrivals)
    && JobsOk(s.jobs, s.active)
    && WorkerOk(s)
    && LogOk(s.queue, s.h, Evicted(s))
    && CrashesOk(s.queue, s.h, Busy(s))
  }

  lemma InitSafe(s: State)
    requires Init(s)
    ensures Safe(s)
  {
  }

  lemma RowsAfterMark(queue: map<EventId, QueuedEvent>, arrivals: map<EventId, QueuedEvent>, jobs: set<JobId>,
                      id: EventId, job: JobId)
    requires RowsOk(queue, arrivals, jobs)
    requires id in arrivals && Allowed(arrivals[id].event)
    ensures RowsOk(MarkRow(queue, id, job), arrivals, jobs + {job})
  {
  }

  lemma KeepsRows(s: State, step: Step)
    requires RowsOk(s.queue, s.h.arrivals, s.jobs.Keys) && WorkerOk(s) && Enabled(s, step)
    ensures var s' := Apply(s, step); RowsOk(s'.queue, s'.h.arrivals, s'.jobs.Keys)
  {
    var s' := Apply(s, step);
    match step
    case CreateJob(job, _) =>
      RowsAfterMark(s.queue, s.h.arrivals, s.jobs.Keys, s.worker.event.id, job);
      assert s'.jobs.Keys == s.jobs.Keys + {job};
    case FinishJob(_) => assert s'.jobs.Keys == s.jobs.Keys;
    case _ =>
  }

  lemma KeepsJobs(s: State, step: Step)
    requires JobsOk(s.jobs, s.active) && WorkerOk(s) && Enabled(s, step)
    ensures var s' := Apply(s, step); JobsOk(s'.jobs, s'.active)
  {
  }

  lemma InsertKeepsWorker(s: State, step: Step)
    requires RowsOk(s.queue, s.h.arrivals, s.jobs.Keys) && JobsOk(s.jobs, s.active)
    requires WorkerOk(s) && CrashesOk(s.queue, s.h, Busy(s)) && Enabled(s, step)
    requires step.EnqueueInsert?
    ensures WorkerOk(Apply(s, step))
  {
  }

  lemma FetchKeepsWorker(s: State, step: Step)
    requires RowsOk(s.queue, s.h.arrivals, s.jobs.Keys) && JobsOk(s.jobs, s.active)
    requires WorkerOk(s) && CrashesOk(s.queue, s.h, Busy(s)) && Enabled(s, step)
    requires step.FetchNext?
    ensures WorkerOk(Apply(s, step))
  {
  }

  lemma WritesKeepWorker(s: State, step: Step)
    requires RowsOk(s.queue, s.h.arrivals, s.jobs.Keys) && JobsOk(s.jobs, s.active)
    requires WorkerOk(s) && CrashesOk(s.queue, s.h, Busy(s)) && Enabled(s, step)
    requires step.EvictMarked? || step.CreateJob?
    ensures WorkerOk(Apply(s, step))
  {
  }

  lemma HandlingKeepsWorker(s: State, step: Step)
    requires RowsOk(s.queue, s.h.arrivals, s.jobs.Keys) && JobsOk(s.jobs, s.active)
    requires WorkerOk(s) && CrashesOk(s.queue, s.h, Busy(s)) && Enabled(s, step)
    requires step.HandlerReturns? || step.FinishJob?
    ensures WorkerOk(Apply(s, step))
  {
  }

  lemma OthersKeepWorker(s: State, step: Step)
    requires RowsOk(s.queue, s.h.arrivals, s.jobs.Keys) && JobsOk(s.jobs, s.active)
    requires WorkerOk(s) && CrashesOk(s.queue, s.h, Busy(s)) && Enabled(s, step)
    requires !step.EnqueueInsert? && !step.FetchNext? && !step.EvictMarked? && !step.CreateJob?
    requires !step.HandlerReturns? && !step.FinishJob?
    ensures WorkerOk(Apply(s, step))
  {
  }

  lemma KeepsWorker(s: State, step: Step)
    requires RowsOk(s.queue, s.h.arrivals, s.jobs.Keys) && JobsOk(s.jobs, s.active)
    requires WorkerOk(s) && CrashesOk(s.queue, s.h, Busy(s)) && Enabled(s, step)
    ensures WorkerOk(Apply(s, step))
  {
    match step
    case EnqueueInsert(_) => InsertKeepsWorker(s, step);
    case FetchNext(_) => FetchKeepsWorker(s, step);
    case EvictMarked => WritesKeepWorker(s, step);
    case CreateJob(_, _) => WritesKeepWorker(s, step);
    case HandlerReturns(_) => HandlingKeepsWorker(s, step);
    case FinishJob(_) => HandlingKeepsWorker(s, step);
    case _ => OthersKeepWorker(s, step);
  }

  lemma KeepsOrder(s: State, step: Step)
    requires Lists(s.h.order, s.h.arrivals) && Enabled(s, step)
    ensures Lists(Apply(s, step).h.order, Apply(s, step).h.arrivals)
  {
  }

  /** The steps that write the queue table or the history. */
  predicate Writes(step: Step) {
    || step.EnqueueInsert? || step.DiscardForbidden? || step.EvictMarked? || step.CreateJob? || step.DeleteHandled?
    || step.FetchNothing? || step.WorkerDown? || step.RestartProcess?
  }

  lemma OthersWriteNothing(s: State, step: Step)
    requires Enabled(s, step) && !Writes(step)
    ensures var s' := Apply(s, step);
            s'.queue == s.queue && s'.h == s.h && Evicted(s') == Evicted(s) && Busy(s') == Busy(s)
  {
  }

  lemma LogAfterInsert(queue: map<EventId, QueuedEvent>, h: History, evicted: set<EventId>, row: QueuedEvent)
    requires LogOk(queue, h, evicted) && row.id !in h.arrivals && !row.Marked()
    ensures LogOk(queue[row.id := row], h.(arrivals := h.arrivals[row.id := row], order := h.order + [row.id]), evicted)
  {
    assert row.id !in h.jobLog;
  }

  /** Removing the row: a forbidden event, a marked one about to be retried, or one that is done. */
  lemma LogAfterDelete(queue: map<EventId, QueuedEvent>, h: History, id: EventId, evicted: set<EventId>)
    requires LogOk(queue, h, {}) && id in queue && id in h.arrivals
    requires !Allowed(h.arrivals[id].event) || queue[id].Marked()
    requires evicted == {} || evicted == {id}
    requires Allowed(h.arrivals[id].event) && evicted == {} ==> id !in h.interrupted
    ensures LogOk(queue - {id}, h, evicted)
  {
  }

  lemma LogAfterCreate(queue: map<EventId, QueuedEvent>, h: History, evicted: set<EventId>, id: EventId,
                       job: JobId)
    requires LogOk(queue, h, evicted) && id in h.arrivals && Allowed(h.arrivals[id].event)
    requires id in queue ==> !queue[id].Marked() && evicted == {}
    requires id !in queue ==> evicted == {id} && id in h.interrupted && id !in h.abandoned
    ensures LogOk(MarkRow(queue, id, job), h.(jobLog := h.jobLog + [id]), {})
  {
    assert multiset(h.jobLog + [id]) == multiset(h.jobLog) + multiset{id};
  }

  lemma LogAfterDown(queue: map<EventId, QueuedEvent>, h: History, evicted: set<EventId>, marked: set<EventId>)
    requires LogOk(queue, h, evicted) && marked <= queue.Keys
    requires forall id :: id in evicted ==> id !in queue && id in h.interrupted && id !in h.abandoned
    ensures LogOk(queue, h.(interrupted := h.interrupted + marked, abandoned := h.abandoned + evicted), {})
  {
  }

  predicate Deletes(step: Step) {
    step.DiscardForbidden? || step.EvictMarked? || step.DeleteHandled?
  }

  predicate TakesDown(step: Step) {
    step.FetchNothing? || step.WorkerDown? || step.RestartProcess?
  }

  lemma DeletesKeepLog(s: State, step: Step)
    requires RowsOk(s.queue, s.h.arrivals, s.jobs.Keys) && WorkerOk(s) && LogOk(s.queue, s.h, Evicted(s))
    requires Enabled(s, step) && Deletes(step)
    ensures var s' := Apply(s, step); LogOk(s'.queue, s'.h, Evicted(s'))
  {
    var id := s.worker.event.id;
    if step.EvictMarked? {
      LogAfterDelete(s.queue, s.h, id, {id});
    } else if id in s.queue {
      LogAfterDelete(s.queue, s.h, id, {});
    } else {
      assert s.queue - {id} == s.queue;
    }
  }

  lemma DownsKeepLog(s: State, step: Step)
    requires RowsOk(s.queue, s.h.arrivals, s.jobs.Keys) && WorkerOk(s) && LogOk(s.queue, s.h, Evicted(s))
    requires Enabled(s, step) && TakesDown(step)
    ensures var s' := Apply(s, step); LogOk(s'.queue, s'.h, Evicted(s'))
  {
    LogAfterDown(s.queue, s.h, Evicted(s), MarkedRows(s.queue));
  }

  lemma WritesKeepLog(s: State, step: Step)
    requires RowsOk(s.queue, s.h.arrivals, s.jobs.Keys) && WorkerOk(s) && LogOk(s.queue, s.h, Evicted(s))
    requires Enabled(s, step) && (step.EnqueueInsert? || step.CreateJob?)
    ensures var s' := Apply(s, step); LogOk(s'.queue, s'.h, Evicted(s'))
  {
    match step
    case EnqueueInsert(row) => LogAfterInsert(s.queue, s.h, Evicted(s), row);
    case CreateJob(job, _) => LogAfterCreate(s.queue, s.h, Evicted(s), s.worker.event.id, job);
  }

  lemma KeepsLog(s: State, step: Step)
    requires Safe(s) && Enabled(s, step)
    ensures var s' := Apply(s, step); LogOk(s'.queue, s'.h, Evicted(s'))
  {
    if Deletes(step) {
      DeletesKeepLog(s, step);
    } else if TakesDown(step) {
      DownsKeepLog(s, step);
    } else if Writes(step) {
      WritesKeepLog(s, step);
    } else {
      OthersWriteNothing(s, step);
    }
  }

  lemma DownsKeepCrashes(s: State, step: Step)
    requires RowsOk(s.queue, s.h.arrivals, s.jobs.Keys) && WorkerOk(s) && CrashesOk(s.queue, s.h, Busy(s))
    requires Enabled(s, step) && TakesDown(step)
    ensures var s' := Apply(s, step); CrashesOk(s'.queue, s'.h, Busy(s'))
  {
    assert forall id :: id in Evicted(s) ==> id !in s.queue;
  }

  lemma DeletesKeepCrashes(s: State, step: Step)
    requires RowsOk(s.queue, s.h.arrivals, s.jobs.Keys) && WorkerOk(s) && CrashesOk(s.queue, s.h, Busy(s))
    requires Enabled(s, step) && Deletes(step)
    ensures var s' := Apply(s, step); CrashesOk(s'.queue, s'.h, Busy(s'))
  {
  }

  lemma WritesKeepCrashes(s: State, step: Step)
    requires RowsOk(s.queue, s.h.arrivals, s.jobs.Keys) && WorkerOk(s) && CrashesOk(s.queue, s.h, Busy(s))
    requires Enabled(s, step) && (step.EnqueueInsert? || step.CreateJob?)
    ensures var s' := Apply(s, step); CrashesOk(s'.queue, s'.h, Busy(s'))
  {
  }

  lemma KeepsCrashes(s: State, step: Step)
    requires Safe(s) && Enabled(s, step)
    ensures var s' := Apply(s, step); CrashesOk(s'.queue, s'.h, Busy(s'))
  {
    if TakesDown(step) {
      DownsKeepCrashes(s, step);
    } else if Deletes(step) {
      DeletesKeepCrashes(s, step);
    } else if Writes(step) {
      WritesKeepCrashes(s, step);
    } else {
      OthersWriteNothing(s, step);
    }
  }

  lemma StepSafe(s: State, step: Step)
    requires Safe(s) && Enabled(s, step)
    ensures Safe(Apply(s, step))
  {
    KeepsRows(s, step);
    KeepsJobs(s, step);
    KeepsWorker(s, step);
    KeepsOrder(s, step);
    KeepsLog(s, step);
    KeepsCrashes(s, step);
  }
}
