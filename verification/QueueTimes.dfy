/** When a job was created and finished, told from the steps of the run. */
module QueueTimes {
  import opened Prelude
  import opened QueueModel
  import opened QueueInvariants
  import opened QueueRuns
  import opened QueueJobs

  // ----- Creation -----

  /** The `i`-th step created `job` at time `t`, for the event that arrived as `row`. */
  ghost predicate Creates(ss: seq<State>, steps: seq<Step>, i: nat, job: JobId, t: Instant, row: QueuedEvent)
    requires |ss| == |steps| + 1 && i < |steps|
  {
    steps[i] == CreateJob(job, t) && ss[i].worker.Creating? && ss[i].worker.event.(jobId := None) == row
  }

  ghost predicate CreatedAt(ss: seq<State>, steps: seq<Step>, n: nat, job: JobId, t: Instant, queued: Instant)
    requires |ss| == |steps| + 1 && n <= |steps|
  {
    exists i, row :: 0 <= i < n && Creates(ss, steps, i, job, t, row) && row.created == queued
  }

  lemma CreationOfStep(s: State, step: Step, job: JobId)
    requires WorkerOk(s) && Enabled(s, step) && job in Apply(s, step).jobs
    ensures var after := Apply(s, step).jobs[job];
            || (job in s.jobs && after.created == s.jobs[job].created && after.eventQueued == s.jobs[job].eventQueued)
            || (step == CreateJob(job, after.created) && after.eventQueued == s.worker.event.created)
  {
    match step
    case CreateJob(_, _) =>
    case FinishJob(_) =>
    case _ =>
  }

  lemma {:induction false} JobsHaveCreations(ss: seq<State>, steps: seq<Step>, n: nat, job: JobId)
    requires IsRun(ss, steps) && Init(ss[0]) && n <= |steps| && job in ss[n].jobs
    ensures CreatedAt(ss, steps, n, job, ss[n].jobs[job].created, ss[n].jobs[job].eventQueued)
  {
    if n > 0 {
      var s, step := ss[n - 1], steps[n - 1];
      assert Enabled(s, step) && ss[n] == Apply(s, step);
      RunIsSafe(ss, steps, n - 1);
      CreationOfStep(s, step, job);
      var created, queued := ss[n].jobs[job].created, ss[n].jobs[job].eventQueued;
      if step == CreateJob(job, created) && queued == s.worker.event.created {
        assert Creates(ss, steps, n - 1, job, created, s.worker.event.(jobId := None));
      } else {
        JobsHaveCreations(ss, steps, n - 1, job);
        var i, row :| 0 <= i < n - 1 && Creates(ss, steps, i, job, created, row) && row.created == queued;
      }
    }
  }

  /** The row the worker is going to create a job for, up to the mark, is one that arrived. */
  lemma CreatingIsOriginal(ss: seq<State>, steps: seq<Step>, n: nat)
    requires IsRun(ss, steps) && Init(ss[0]) && n <= |steps| && ss[n].worker.Creating?
    ensures Arrived(ss, steps, n, ss[n].worker.event.(jobId := None))
  {
    RunIsSafe(ss, steps, n);
    ArrivalsAreFaithful(ss, steps, n, ss[n].worker.event.id);
  }

  /** The row was enqueued within the first `n` steps, or was stored when the run began. */
  ghost predicate Arrived(ss: seq<State>, steps: seq<Step>, n: nat, row: QueuedEvent)
    requires |ss| == |steps| + 1 && n <= |steps|
  {
    Enqueued(steps, n, row) || (row.id in ss[0].queue && ss[0].queue[row.id] == row)
  }

  /** A job is created once: its view never shows another time. */
  lemma CreationTimeIsUnique(ss: seq<State>, steps: seq<Step>, n: nat, i: nat, job: JobId, t: Instant)
    requires IsRun(ss, steps) && Init(ss[0]) && i < n <= |steps| && steps[i] == CreateJob(job, t)
    ensures Viewable(ss[n]) && ViewOf(ss[n], job).Some? && ViewOf(ss[n], job).value.created == t
  {
    assert Enabled(ss[i], steps[i]) && ss[i + 1] == Apply(ss[i], steps[i]);
    assert job in ss[i + 1].jobs && ss[i + 1].jobs[job].created == t;
    JobStatusIsMonotone(ss, steps, i + 1, n, job);
  }

  // ----- Finishing -----

  ghost predicate FinishedAt(ss: seq<State>, steps: seq<Step>, n: nat, job: JobId, t: Instant)
    requires |ss| == |steps| + 1 && n <= |steps|
  {
    exists i :: 0 <= i < n && steps[i] == FinishJob(t) && ss[i].worker.Finishing? && ss[i].worker.job == job
  }

  predicate HasFinish(s: State, job: JobId, t: Instant) {
    job in s.jobs && s.jobs[job].finished == Some(t)
  }

  lemma FinishOfStep(s: State, step: Step, job: JobId, t: Instant)
    requires WorkerOk(s) && JobsOk(s.jobs, s.active) && Enabled(s, step)
    ensures HasFinish(Apply(s, step), job, t) <==>
            HasFinish(s, job, t) || (step == FinishJob(t) && s.worker.Finishing? && s.worker.job == job)
  {
    match step
    case CreateJob(_, _) =>
    case FinishJob(_) =>
    case _ => assert Apply(s, step).jobs == s.jobs;
  }

  lemma FinishedAtUnfolds(ss: seq<State>, steps: seq<Step>, n: nat, job: JobId, t: Instant)
    requires |ss| == |steps| + 1 && 0 < n <= |steps|
    ensures FinishedAt(ss, steps, n, job, t) <==>
            || FinishedAt(ss, steps, n - 1, job, t)
            || (steps[n - 1] == FinishJob(t) && ss[n - 1].worker.Finishing? && ss[n - 1].worker.job == job)
  {
  }

  lemma {:induction false} FinishTimes(ss: seq<State>, steps: seq<Step>, n: nat, job: JobId, t: Instant)
    requires IsRun(ss, steps) && Init(ss[0]) && n <= |steps|
    ensures HasFinish(ss[n], job, t) <==> FinishedAt(ss, steps, n, job, t)
  {
    if n > 0 {
      FinishTimes(ss, steps, n - 1, job, t);
      RunIsSafe(ss, steps, n - 1);
      FinishOfStep(ss[n - 1], steps[n - 1], job, t);
      FinishedAtUnfolds(ss, steps, n, job, t);
    }
  }

  // ----- What users see -----

  /**
   The times of every job over every run. It was created by exactly one step, at the time its
   view shows, for an event that had arrived by then and whose own time is the one stored with
   the job; it shows a finish time if and only if a step finished it at that time.
   */
  lemma JobTimes(ss: seq<State>, steps: seq<Step>, n: nat, job: JobId)
    requires IsRun(ss, steps) && Init(ss[0]) && n <= |steps| && job in ss[n].jobs
    ensures Viewable(ss[n]) && ViewOf(ss[n], job).Some?
    ensures var created := ViewOf(ss[n], job).value.created;
            exists i, row ::
              && 0 <= i < n && Creates(ss, steps, i, job, created, row)
              && Arrived(ss, steps, i, row) && ss[n].jobs[job].eventQueued == row.created
    ensures forall i, t :: 0 <= i < n && steps[i] == CreateJob(job, t) ==> ViewOf(ss[n], job).value.created == t
    ensures forall t :: ViewOf(ss[n], job).value.finished == Some(t) <==> FinishedAt(ss, steps, n, job, t)
  {
    RunIsSafe(ss, steps, n);
    SafeIsViewable(ss[n]);
    JobsHaveCreations(ss, steps, n, job);
    var created, queued := ss[n].jobs[job].created, ss[n].jobs[job].eventQueued;
    var i, row :| 0 <= i < n && Creates(ss, steps, i, job, created, row) && row.created == queued;
    CreatingIsOriginal(ss, steps, i);
    forall i, t | 0 <= i < n && steps[i] == CreateJob(job, t) ensures ViewOf(ss[n], job).value.created == t {
      CreationTimeIsUnique(ss, steps, n, i, job, t);
    }
    forall t ensures ViewOf(ss[n], job).value.finished == Some(t) <==> FinishedAt(ss, steps, n, job, t) {
      FinishTimes(ss, steps, n, job, t);
    }
  }

  /** The worker deletes the row of a handled event only after the outcome its handler returned is recorded. */
  lemma OutcomeBeforeDeletion(ss: seq<State>, steps: seq<Step>, n: nat)
    requires IsRun(ss, steps) && Init(ss[0]) && n < |steps| && steps[n] == DeleteHandled
    ensures ss[n].worker.Deleting?
    ensures var job := ss[n].worker.job;
            && job in ss[n].jobs && ss[n].jobs[job].success.Some?
            && HandlerReturned(ss, steps, n, job, ss[n].jobs[job].success.value)
            && exists t :: FinishedAt(ss, steps, n, job, t)
  {
    RunIsSafe(ss, steps, n);
    assert Enabled(ss[n], steps[n]);
    var job := ss[n].worker.job;
    OutcomesComeFromHandlers(ss, steps, n, job, ss[n].jobs[job].success.value);
    FinishTimes(ss, steps, n, job, ss[n].jobs[job].finished.value);
  }
}
