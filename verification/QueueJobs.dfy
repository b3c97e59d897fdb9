/** What users see of a job over a whole run, and what the pause file guarantees. */
module QueueJobs {
  import opened Prelude
  import opened QueueModel
  import opened QueueInvariants
  import opened QueueRuns

  datatype JobStatus = Pending | Success | Failure

  datatype JobView = JobView(created: Instant, finished: Option<Instant>, status: JobStatus)

  /** The `requires` is what makes the source's `unreachable!` unreachable. */
  function FromJob(job: BenchJob, active: bool): JobView
    requires job.finished.Some? ==> job.success.Some?
  {
    var status :=
      match job.success
      case None => if active then Pending else Failure
      case Some(true) => Success
      case Some(false) => Failure;
    JobView(job.created, job.finished, status)
  }

  predicate Viewable(s: State) {
    forall j :: j in s.jobs && s.jobs[j].finished.Some? ==> s.jobs[j].success.Some?
  }

  function ViewOf(s: State, job: JobId): Option<JobView>
    requires Viewable(s)
  {
    if job in s.jobs then Some(FromJob(s.jobs[job], s.active == Some(job))) else None
  }

  /** An unfinished active job is the one the worker carries, or the worker has just crashed. */
  ghost predicate ActiveOk(s: State) {
    s.active.Some? && s.active.value in s.jobs && s.jobs[s.active.value].success.None? ==>
      s.worker.Crashed? || ((s.worker.Handling? || s.worker.Finishing?) && s.worker.job == s.active.value)
  }

  lemma StepActiveOk(s: State, step: Step)
    requires Safe(s) && ActiveOk(s) && Enabled(s, step)
    ensures ActiveOk(Apply(s, step))
  {
  }

  /** What a step can do to an existing job: nothing, or end the unfinished one that is active. */
  lemma StepOnJob(s: State, step: Step, job: JobId)
    requires Safe(s) && Enabled(s, step) && job in s.jobs
    ensures var s' := Apply(s, step);
            && job in s'.jobs && s'.jobs[job].created == s.jobs[job].created
            && (s'.jobs[job] != s.jobs[job] ==> s.active == Some(job) && s.jobs[job].success.None?)
            && (s'.active == Some(job) ==> s.active == Some(job))
  {
  }

  /** `Pending` may become anything; `Success` and `Failure` stay. */
  predicate Follows(before: JobView, after: JobView) {
    && after.created == before.created
    && (before.status.Pending? || after.status == before.status)
  }

  lemma SafeIsViewable(s: State)
    requires Safe(s)
    ensures Viewable(s)
  {
  }

  lemma StepOnView(s: State, step: Step, job: JobId)
    requires Safe(s) && Enabled(s, step) && job in s.jobs
    ensures var s' := Apply(s, step);
            && Viewable(s) && Viewable(s') && ViewOf(s', job).Some?
            && Follows(ViewOf(s, job).value, ViewOf(s', job).value)
  {
    StepSafe(s, step);
    SafeIsViewable(s);
    SafeIsViewable(Apply(s, step));
    StepOnJob(s, step, job);
  }

  /**
   Over any run a job keeps existing, moves at most from `Pending` to `Success` or
   `Failure`, and both of those are final, across worker crashes, supervisor resets and
   process restarts. Looking a job up never hits the unreachable case.
   */
  lemma {:induction false} JobStatusIsMonotone(ss: seq<State>, steps: seq<Step>, i: nat, k: nat, job: JobId)
    requires IsRun(ss, steps) && Init(ss[0]) && i <= k < |ss| && job in ss[i].jobs
    ensures Viewable(ss[i]) && Viewable(ss[k]) && ViewOf(ss[k], job).Some?
    ensures Follows(ViewOf(ss[i], job).value, ViewOf(ss[k], job).value)
  {
    if i == k {
      RunIsSafe(ss, steps, i);
      SafeIsViewable(ss[i]);
    } else {
      var s, step := ss[k - 1], steps[k - 1];
      assert Enabled(s, step) && ss[k] == Apply(s, step);
      JobStatusIsMonotone(ss, steps, i, k - 1, job);
      RunIsSafe(ss, steps, k - 1);
      StepOnView(s, step, job);
    }
  }

  lemma {:induction false} RunActiveOk(ss: seq<State>, steps: seq<Step>, n: nat)
    requires IsRun(ss, steps) && Init(ss[0]) && n < |ss|
    ensures ActiveOk(ss[n])
  {
    if n > 0 {
      RunActiveOk(ss, steps, n - 1);
      RunIsSafe(ss, steps, n - 1);
      StepActiveOk(ss[n - 1], steps[n - 1]);
    }
  }

  ghost predicate IsPending(s: State, job: JobId)
    requires Viewable(s)
  {
    ViewOf(s, job).Some? && ViewOf(s, job).value.status.Pending?
  }

  /** At most one job is pending, and it is the one being run (or was, until a crash just noticed). */
  lemma OnePendingJob(ss: seq<State>, steps: seq<Step>, n: nat, j1: JobId, j2: JobId)
    requires IsRun(ss, steps) && Init(ss[0]) && n < |ss|
    ensures Viewable(ss[n])
    ensures IsPending(ss[n], j1) && IsPending(ss[n], j2) ==> j1 == j2
    ensures IsPending(ss[n], j1) ==>
              ss[n].worker.Crashed? || ((ss[n].worker.Handling? || ss[n].worker.Finishing?) && ss[n].worker.job == j1)
  {
    RunIsSafe(ss, steps, n);
    RunActiveOk(ss, steps, n);
  }

  /** Among the first `n` steps the handler of `job` returned `ok`. */
  ghost predicate HandlerReturned(ss: seq<State>, steps: seq<Step>, n: nat, job: JobId, ok: bool)
    requires IsRun(ss, steps) && n <= |steps|
  {
    exists i :: 0 <= i < n && steps[i] == HandlerReturns(ok) && ss[i].worker.Handling? && ss[i].worker.job == job
  }

  /** The outcome of a job, recorded or about to be. */
  predicate HasOutcome(s: State, job: JobId, ok: bool) {
    || (job in s.jobs && s.jobs[job].success == Some(ok))
    || (s.worker.Finishing? && s.worker.job == job && s.worker.ok == ok)
  }

  lemma OutcomeOfStep(s: State, step: Step, job: JobId, ok: bool)
    requires Enabled(s, step) && HasOutcome(Apply(s, step), job, ok)
    ensures HasOutcome(s, job, ok) || (step == HandlerReturns(ok) && s.worker.job == job)
  {
  }

  /** A job succeeds or fails only because its handler returned so; one that never returned has no outcome. */
  lemma {:induction false} OutcomesComeFromHandlers(ss: seq<State>, steps: seq<Step>, n: nat, job: JobId, ok: bool)
    requires IsRun(ss, steps) && Init(ss[0]) && n <= |steps|
    ensures HasOutcome(ss[n], job, ok) ==> HandlerReturned(ss, steps, n, job, ok)
  {
    if n > 0 && HasOutcome(ss[n], job, ok) {
      OutcomesComeFromHandlers(ss, steps, n - 1, job, ok);
      OutcomeOfStep(ss[n - 1], steps[n - 1], job, ok);
      if HasOutcome(ss[n - 1], job, ok) {
        var i :| 0 <= i < n - 1 && steps[i] == HandlerReturns(ok) && ss[i].worker.Handling? && ss[i].worker.job == job;
      } else {
        assert steps[n - 1] == HandlerReturns(ok) && ss[n - 1].worker.job == job;
      }
    }
  }

  /** The worker has the job in its hands and no outcome is recorded yet. */
  predicate Running(w: Worker, job: JobId) {
    (w.Handling? || w.Finishing?) && w.job == job
  }

  /** Among the first `n` steps the worker went down while it was running `job`. */
  ghost predicate WentDownRunning(ss: seq<State>, steps: seq<Step>, n: nat, job: JobId)
    requires |ss| == |steps| + 1 && n <= |steps|
  {
    exists i :: 0 <= i < n && TakesDown(steps[i]) && Running(ss[i].worker, job)
  }

  /** The job will never have an outcome. */
  predicate Lost(s: State, job: JobId) {
    job in s.jobs && s.jobs[job].success.None? && !Running(s.worker, job)
  }

  lemma LostOfWrite(s: State, step: Step, job: JobId)
    requires WorkerOk(s) && Enabled(s, step) && (step.CreateJob? || step.FinishJob?)
    ensures Lost(Apply(s, step), job) <==> Lost(s, job)
  {
  }

  lemma DownLosesJob(s: State, step: Step, job: JobId)
    requires Enabled(s, step) && TakesDown(step)
    ensures Apply(s, step).jobs == s.jobs && !Running(Apply(s, step).worker, job)
  {
    match step
    case FetchNothing =>
    case WorkerDown =>
    case RestartProcess =>
  }

  lemma OthersKeepJob(s: State, step: Step, job: JobId)
    requires Enabled(s, step) && !step.CreateJob? && !step.FinishJob? && !TakesDown(step)
    ensures Apply(s, step).jobs == s.jobs
    ensures Running(Apply(s, step).worker, job) <==> Running(s.worker, job)
  {
    match step
    case EnqueueInsert(_) =>
    case EnqueueSend =>
    case CountQueued =>
    case SendStartupToken =>
    case ReceiveToken =>
    case PassGate =>
    case FetchNext(_) =>
    case DiscardForbidden =>
    case EvictMarked =>
    case HandlerReturns(_) =>
    case DeleteHandled =>
    case ResetActive =>
    case RestartWorker =>
    case Pause =>
    case Resume =>
  }

  lemma LostOfOthers(s: State, step: Step, job: JobId)
    requires Enabled(s, step) && !step.CreateJob? && !step.FinishJob?
    requires Running(s.worker, job) ==> job in s.jobs && s.jobs[job].success.None?
    ensures Lost(Apply(s, step), job) <==> Lost(s, job) || (TakesDown(step) && Running(s.worker, job))
  {
    if TakesDown(step) {
      DownLosesJob(s, step, job);
    } else {
      OthersKeepJob(s, step, job);
    }
  }

  lemma LostOfStep(s: State, step: Step, job: JobId)
    requires WorkerOk(s) && Enabled(s, step)
    ensures Lost(Apply(s, step), job) <==> Lost(s, job) || (TakesDown(step) && Running(s.worker, job))
  {
    if step.CreateJob? || step.FinishJob? {
      LostOfWrite(s, step, job);
    } else {
      LostOfOthers(s, step, job);
    }
  }

  lemma WentDownRunningUnfolds(ss: seq<State>, steps: seq<Step>, n: nat, job: JobId)
    requires |ss| == |steps| + 1 && 0 < n <= |steps|
    ensures WentDownRunning(ss, steps, n, job) <==>
            WentDownRunning(ss, steps, n - 1, job) || (TakesDown(steps[n - 1]) && Running(ss[n - 1].worker, job))
  {
  }

  lemma {:induction false} LostBecauseDown(ss: seq<State>, steps: seq<Step>, n: nat, job: JobId)
    requires IsRun(ss, steps) && Init(ss[0]) && n <= |steps|
    ensures Lost(ss[n], job) <==> WentDownRunning(ss, steps, n, job)
  {
    if n > 0 {
      LostBecauseDown(ss, steps, n - 1, job);
      RunIsSafe(ss, steps, n - 1);
      LostOfStep(ss[n - 1], steps[n - 1], job);
      WentDownRunningUnfolds(ss, steps, n, job);
    }
  }

  /**
   What a user who looks a job up learns. `Success` and `Failure` with a finish time: the
   handler returned just that. `Pending`: the job is active and has no outcome. `Failure`
   without a finish time: the worker went down while running the job, and it is not active
   any more; so a job the worker went down on never shows an outcome.
   */
  lemma StatusTellsOutcome(ss: seq<State>, steps: seq<Step>, n: nat, job: JobId)
    requires IsRun(ss, steps) && Init(ss[0]) && n <= |steps| && job in ss[n].jobs
    ensures Viewable(ss[n]) && ViewOf(ss[n], job).Some?
    ensures var view := ViewOf(ss[n], job).value;
            && (view.status.Success? ==> view.finished.Some? && HandlerReturned(ss, steps, n, job, true))
            && (view.status.Failure? && view.finished.Some? ==> HandlerReturned(ss, steps, n, job, false))
            && (view.status.Pending? <==> view.finished.None? && ss[n].active == Some(job))
            && (view.status.Failure? && view.finished.None? <==>
                  WentDownRunning(ss, steps, n, job) && ss[n].active != Some(job))
  {
    RunIsSafe(ss, steps, n);
    OutcomesComeFromHandlers(ss, steps, n, job, true);
    OutcomesComeFromHandlers(ss, steps, n, job, false);
    LostBecauseDown(ss, steps, n, job);
    LostIsFailure(ss[n], job);
  }

  lemma LostIsFailure(s: State, job: JobId)
    requires Safe(s) && job in s.jobs
    ensures Viewable(s)
    ensures var view := ViewOf(s, job).value;
            view.status.Failure? && view.finished.None? <==> Lost(s, job) && s.active != Some(job)
  {
  }

  // ----- Pausing -----

  /** Job creations among the steps from `a` up to `b`. */
  function Creations(steps: seq<Step>, a: nat, b: nat): nat
    requires a <= b <= |steps|
    decreases b - a
  {
    if a == b then 0 else Creations(steps, a, b - 1) + (if steps[b - 1].CreateJob? then 1 else 0)
  }

  /** The worker is past the gate and may still create one job. */
  function Ticket(w: Worker): nat {
    if w.Fetching? || w.Evicting? || w.Creating? then 1 else 0
  }

  lemma StepSpendsTicket(s: State, step: Step)
    requires Enabled(s, step) && !s.enabled
    ensures (if step.CreateJob? then 1 else 0) + Ticket(Apply(s, step).worker) <= Ticket(s.worker)
  {
  }

  /**
   While processing is paused at most one job is created, and none unless the worker had
   already passed the gate when the pause began, whatever is enqueued and whatever
   crashes or restarts happen meanwhile.
   */
  lemma {:induction false} PauseStopsNewJobs(ss: seq<State>, steps: seq<Step>, a: nat, b: nat)
    requires IsRun(ss, steps) && a <= b <= |steps|
    requires forall i :: a <= i <= b ==> !ss[i].enabled
    ensures Creations(steps, a, b) + Ticket(ss[b].worker) <= Ticket(ss[a].worker) <= 1
    decreases b - a
  {
    if a < b {
      PauseStopsNewJobs(ss, steps, a, b - 1);
      StepSpendsTicket(ss[b - 1], steps[b - 1]);
    }
  }

  /** The last of the first `n` steps that paused or resumed processing, if any: whether it resumed. */
  function LastSwitch(steps: seq<Step>, n: nat): Option<bool>
    requires n <= |steps|
  {
    if n == 0 then None
    else if steps[n - 1].Pause? then Some(false)
    else if steps[n - 1].Resume? then Some(true)
    else LastSwitch(steps, n - 1)
  }

  /** Processing is enabled as the pause file was last switched; nothing else touches it. */
  lemma {:induction false} EnabledAsLastSwitched(ss: seq<State>, steps: seq<Step>, n: nat)
    requires IsRun(ss, steps) && n <= |steps|
    ensures ss[n].enabled == if LastSwitch(steps, n).Some? then LastSwitch(steps, n).value else ss[0].enabled
  {
    if n > 0 {
      EnabledAsLastSwitched(ss, steps, n - 1);
      SwitchOfStep(ss[n - 1], steps[n - 1]);
    }
  }

  lemma SwitchOfStep(s: State, step: Step)
    requires Enabled(s, step)
    ensures Apply(s, step).enabled == (step.Resume? || (s.enabled && !step.Pause?))
  {
  }

  lemma {:induction false} StaysPaused(ss: seq<State>, steps: seq<Step>, a: nat, b: nat)
    requires IsRun(ss, steps) && a < b <= |steps| && steps[a] == Pause
    requires forall i :: a < i < b ==> steps[i] != Resume
    ensures !ss[b].enabled
    decreases b - a
  {
    if a + 1 < b {
      StaysPaused(ss, steps, a, b - 1);
    }
    SwitchOfStep(ss[b - 1], steps[b - 1]);
  }

  /** From a pause to the next resumption at most one job is created, told from the steps alone. */
  lemma PauseUntilResume(ss: seq<State>, steps: seq<Step>, a: nat, b: nat)
    requires IsRun(ss, steps) && a < b <= |steps| && steps[a] == Pause
    requires forall i :: a < i < b ==> steps[i] != Resume
    ensures Creations(steps, a + 1, b) <= 1
  {
    forall i | a + 1 <= i <= b ensures !ss[i].enabled {
      StaysPaused(ss, steps, a, i);
    }
    PauseStopsNewJobs(ss, steps, a + 1, b);
  }

  /** A job that is running when the pause begins can run to completion while paused. */
  lemma RunningJobFinishesWhilePaused(s: State, ok: bool, now: Instant)
    requires Safe(s) && s.worker.Handling? && !s.enabled
    ensures Enabled(s, HandlerReturns(ok))
    ensures var s1 := Apply(s, HandlerReturns(ok));
            && Enabled(s1, FinishJob(now))
            && var s2 := Apply(s1, FinishJob(now));
               && Enabled(s2, DeleteHandled)
               && var s3 := Apply(s2, DeleteHandled);
                  && !s3.enabled && s3.worker.Receiving? && s.worker.event.id !in s3.queue
                  && s.worker.job in s3.jobs && s3.jobs[s.worker.job].success == Some(ok)
  {
  }
}
