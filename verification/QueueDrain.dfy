/**
 Draining: with nothing new enqueued, processing enabled and a working database, the queue
 empties after boundedly many tokens, even if every handler panics.
 */
module QueueDrain {
  import opened Prelude
  import opened QueueModel
  import opened QueueInvariants
  import opened QueueRuns
  import opened QueueCost
  import opened Sorting

  /** The steps left when the environment is quiet and only a handler may bring the worker down. */
  predicate Drains(s: State, step: Step) {
    && !step.EnqueueInsert? && !step.EnqueueSend? && !step.RestartProcess? && !step.Pause? && !step.Resume?
    && (step.WorkerDown? ==> s.worker.Handling?)
  }

  ghost predicate IsDrain(ss: seq<State>, steps: seq<Step>) {
    IsRun(ss, steps) && forall i :: 0 <= i < |steps| ==> Drains(ss[i], steps[i])
  }

  /** The worker is going to restart, or may go down, with the queue as it is now. */
  predicate AtRisk(w: Worker) {
    w.Crashed? || w.Sleeping? || w.Counting? || w.Handling?
  }

  /** One restart with this queue, and then whatever the queue can still cause. */
  ghost function Risked(queue: Queue): nat {
    Refills(queue) + |queue|
  }

  /**
   The most tokens that restarts can still add. A worker that is down, or that is going to
   handle an event, can cause one more restart with the queue as it is by then.
   */
  ghost function Debt(queue: Queue, w: Worker): nat {
    if w.Evicting? then Risked(queue - {w.event.id})
    else if w.Creating? then Risked(MarkRow(queue, w.event.id, JobId(0)))
    else if AtRisk(w) then Risked(queue)
    else Refills(queue)
  }

  /** The most tokens the worker may still receive. */
  ghost function Load(s: State): nat {
    s.tokens + StartupLeft(s.worker) + Debt(s.queue, s.worker)
  }

  /** How far the worker is from the end of its current round. */
  function Rank(w: Worker): nat {
    match w
    case Receiving => 0
    case Announcing(_) => 1
    case Counting => 2
    case Sleeping => 3
    case Crashed => 4
    case Deleting(_, _) => 5
    case Finishing(_, _, _) => 6
    case Handling(_, _) => 7
    case Creating(_) => 8
    case Evicting(_) => 9
    case Discarding(_) => 9
    case Fetching => 10
    case Gated => 11
  }

  /** Decreases with every step, so it bounds the length of a drain. */
  ghost function Measure(s: State): nat {
    12 * s.tokens + 13 * (StartupLeft(s.worker) + Debt(s.queue, s.worker)) + Rank(s.worker)
  }

  // ----- One step -----

  lemma FetchPays(queue: Queue, e: QueuedEvent)
    requires IsNext(queue, e)
    ensures Debt(queue, Dispatch(e)) <= Debt(queue, Fetching)
  {
    assert IsEarliest(queue, e.id);
    if Untried(e) {
      MarkRefills(queue, e.id, JobId(0));
    } else if Allowed(e.event) {
      EvictRefills(queue, e.id);
    }
  }

  lemma CreatePays(queue: Queue, e: QueuedEvent, job: JobId)
    ensures Debt(MarkRow(queue, e.id, job), Handling(e, job)) == Debt(queue, Creating(e))
  {
    MarkedBy(queue, e.id, job, JobId(0));
    MarkKeepsSize(queue, e.id, job);
  }

  lemma EvictPays(queue: Queue, e: QueuedEvent)
    ensures Debt(queue - {e.id}, Creating(e)) == Debt(queue, Evicting(e))
  {
    NothingToMark(queue - {e.id}, e.id, JobId(0));
  }

  lemma NothingToMark(queue: Queue, id: EventId, job: JobId)
    requires id !in queue
    ensures MarkRow(queue, id, job) == queue
  {
  }

  /** The steps that change the table or set a row's fate. */
  predicate Decides(step: Step) {
    Deletes(step) || step.CreateJob? || step.FetchNext?
  }

  lemma CreateStepPays(s: State, step: Step)
    requires Enabled(s, step) && step.CreateJob?
    ensures var s' := Apply(s, step); Debt(s'.queue, s'.worker) <= Debt(s.queue, s.worker)
  {
    CreatePays(s.queue, s.worker.event, step.newJob);
  }

  lemma EvictStepPays(s: State, step: Step)
    requires Enabled(s, step) && step.EvictMarked?
    ensures var s' := Apply(s, step); Debt(s'.queue, s'.worker) <= Debt(s.queue, s.worker)
  {
    EvictPays(s.queue, s.worker.event);
  }

  lemma DropPays(queue: Queue, w: Worker, id: EventId)
    requires w.Discarding? || w.Deleting?
    ensures Debt(queue - {id}, Receiving) <= Debt(queue, w)
  {
    DropRefills(queue, id);
  }

  lemma DeleteStepPays(s: State, step: Step)
    requires Enabled(s, step) && (step.DiscardForbidden? || step.DeleteHandled?)
    ensures var s' := Apply(s, step); Debt(s'.queue, s'.worker) <= Debt(s.queue, s.worker)
  {
    DropPays(s.queue, s.worker, s.worker.event.id);
  }

  lemma DecidingPays(s: State, step: Step)
    requires Enabled(s, step) && Decides(step)
    ensures var s' := Apply(s, step); Debt(s'.queue, s'.worker) <= Debt(s.queue, s.worker)
  {
    if step.FetchNext? {
      FetchPays(s.queue, step.next);
    } else if step.CreateJob? {
      CreateStepPays(s, step);
    } else if step.EvictMarked? {
      EvictStepPays(s, step);
    } else {
      DeleteStepPays(s, step);
    }
  }

  lemma WriteRanks(s: State, step: Step)
    requires Enabled(s, step) && Decides(step)
    ensures var s' := Apply(s, step);
            && Rank(s'.worker) < Rank(s.worker) && s'.tokens == s.tokens
            && StartupLeft(s'.worker) == StartupLeft(s.worker) == 0
  {
    if step.CreateJob? {
      assert Rank(s.worker) == 8;
    } else if step.FetchNext? {
      assert Rank(s.worker) == 10;
    } else {
      assert s.worker.Discarding? || s.worker.Evicting? || s.worker.Deleting?;
    }
  }

  /** Every other step moves the worker on, at most spending its debt on startup tokens. */
  lemma OthersPay(s: State, step: Step)
    requires Enabled(s, step) && Drains(s, step) && !Decides(step)
    ensures var s' := Apply(s, step);
            && s'.queue == s.queue
            && !s.worker.Evicting? && !s.worker.Creating? && !s'.worker.Evicting? && !s'.worker.Creating?
            && var risk := if AtRisk(s.worker) then |s.queue| else 0;
               var risk' := if AtRisk(s'.worker) then |s.queue| else 0;
               && s'.tokens + StartupLeft(s'.worker) + risk' + (if step.ReceiveToken? then 1 else 0)
                  <= s.tokens + StartupLeft(s.worker) + risk
               && 12 * s'.tokens + 13 * (StartupLeft(s'.worker) + risk') + Rank(s'.worker)
                  < 12 * s.tokens + 13 * (StartupLeft(s.worker) + risk) + Rank(s.worker)
  {
    match step
    case ReceiveToken =>
    case PassGate =>
    case FetchNothing =>
    case CountQueued =>
    case SendStartupToken =>
    case HandlerReturns(_) =>
    case FinishJob(_) =>
    case WorkerDown =>
    case ResetActive =>
    case RestartWorker =>
  }

  /** Every step is paid for, from any state whatever: restarts and the tokens they add included. */
  lemma StepPays(s: State, step: Step)
    requires Enabled(s, step) && Drains(s, step)
    ensures Measure(Apply(s, step)) < Measure(s)
    ensures Load(Apply(s, step)) + (if step.ReceiveToken? then 1 else 0) <= Load(s)
  {
    if Decides(step) {
      WriteRanks(s, step);
      DecidingPays(s, step);
    } else {
      OthersPay(s, step);
    }
  }

  // ----- Whole drains -----

  predicate TakesToken(step: Step) { step.ReceiveToken? }

  /** How many of these steps took a token. */
  ghost function Receipts(steps: seq<Step>): nat {
    Count(steps, TakesToken)
  }

  /** The worker can be left alone: nobody is enqueuing and processing is enabled. */
  ghost predicate Quiet(s: State) {
    Safe(s) && Covered(s) && s.unsent == 0 && s.enabled
  }

  lemma StepQuiet(s: State, step: Step)
    requires Quiet(s) && Enabled(s, step) && Drains(s, step)
    ensures Quiet(Apply(s, step))
  {
    StepSafe(s, step);
    StepCovered(s, step);
    DrainFrame(s, step);
  }

  lemma DrainFrame(s: State, step: Step)
    requires Enabled(s, step) && Drains(s, step)
    ensures Apply(s, step).unsent == s.unsent && Apply(s, step).enabled == s.enabled
  {
  }

  lemma OneMoreStep(steps: seq<Step>, n: nat)
    requires 0 < n <= |steps|
    ensures Receipts(steps[..n]) == Receipts(steps[..n - 1]) + (if steps[n - 1].ReceiveToken? then 1 else 0)
  {
    assert steps[..n] == steps[..n - 1] + [steps[n - 1]];
    CountConcat(steps[..n - 1], [steps[n - 1]], TakesToken);
  }

  /** What was received plus what may still be received never exceeds the initial load. */
  lemma {:induction false} DrainPays(ss: seq<State>, steps: seq<Step>, n: nat)
    requires IsDrain(ss, steps) && n <= |steps|
    ensures Receipts(steps[..n]) + Load(ss[n]) <= Load(ss[0])
    ensures n + Measure(ss[n]) <= Measure(ss[0])
  {
    if n > 0 {
      DrainPays(ss, steps, n - 1);
      OneMoreStep(steps, n);
      StepPays(ss[n - 1], steps[n - 1]);
    }
  }

  lemma {:induction false} DrainStaysQuiet(ss: seq<State>, steps: seq<Step>, n: nat)
    requires IsDrain(ss, steps) && n <= |steps| && Quiet(ss[0])
    ensures Quiet(ss[n])
  {
    if n > 0 {
      var s, step := ss[n - 1], steps[n - 1];
      assert Enabled(s, step) && Drains(s, step) && ss[n] == Apply(s, step);
      DrainStaysQuiet(ss, steps, n - 1);
      StepQuiet(s, step);
    }
  }

  /** Some draining step leads from `s` to `s'`; `took` tells whether it took a token. */
  ghost predicate DrainStep(s: State, s': State, took: bool) {
    exists step :: Enabled(s, step) && Drains(s, step) && s' == Apply(s, step) && step.ReceiveToken? == took
  }

  lemma TakeStep(s: State, step: Step)
    requires Enabled(s, step) && Drains(s, step)
    ensures DrainStep(s, Apply(s, step), step.ReceiveToken?)
  {
  }

  lemma DrainStepPays(s: State, s': State, took: bool)
    requires Quiet(s) && DrainStep(s, s', took)
    ensures Quiet(s') && Measure(s') < Measure(s)
    ensures Load(s') + (if took then 1 else 0) <= Load(s)
  {
    var step :| Enabled(s, step) && Drains(s, step) && s' == Apply(s, step) && step.ReceiveToken? == took;
    StepQuiet(s, step);
    StepPays(s, step);
  }

  ghost predicate Stuck(s: State) {
    forall step :: Enabled(s, step) ==> !Drains(s, step)
  }

  lemma {:induction false} EarliestExists(queue: map<EventId, QueuedEvent>)
    requires queue != map[] && forall id :: id in queue ==> queue[id].id == id
    ensures exists e :: IsNext(queue, e)
    decreases |queue|
  {
    var id :| id in queue;
    var rest := queue - {id};
    if rest == map[] {
      assert forall x :: x in queue && x != id ==> x in rest;
      assert IsNext(queue, queue[id]);
    } else {
      RemoveOne(queue, id);
      EarliestExists(rest);
      var e :| IsNext(rest, e);
      assert IsNext(queue, if queue[id].created < e.created then queue[id] else e) by {
        assert forall x :: x in queue && x != id ==> x in rest && rest[x] == queue[x];
      }
    }
  }

  ghost predicate Above(n: nat, jobs: set<JobId>) {
    forall j :: j in jobs ==> j.uuid < n
  }

  lemma {:induction false} FreshJobExists(jobs: set<JobId>)
    ensures exists n: nat :: Above(n, jobs)
  {
    if jobs == {} {
      assert Above(0, jobs);
    } else {
      var j :| j in jobs;
      FreshJobExists(jobs - {j});
      var n: nat :| Above(n, jobs - {j});
      assert Above(if j.uuid < n then n else j.uuid + 1, jobs);
    }
  }

  lemma FetchingIsNotStuck(s: State)
    requires RowsOk(s.queue, s.h.arrivals, s.jobs.Keys) && s.worker.Fetching?
    ensures !Stuck(s)
  {
    if s.queue == map[] {
      assert Enabled(s, FetchNothing);
    } else {
      EarliestExists(s.queue);
      var e :| IsNext(s.queue, e);
      assert Enabled(s, FetchNext(e));
    }
  }

  lemma CreatingIsNotStuck(s: State)
    requires s.worker.Creating?
    ensures !Stuck(s)
  {
    FreshJobExists(s.jobs.Keys);
    var n: nat :| Above(n, s.jobs.Keys);
    assert Enabled(s, CreateJob(JobId(n), 0));
  }

  /** Unless the worker waits for a token and there is none, something can happen. */
  lemma OnlyRestIsStuck(s: State)
    requires RowsOk(s.queue, s.h.arrivals, s.jobs.Keys) && s.enabled
    requires !s.worker.Receiving? || s.tokens > 0
    ensures !Stuck(s)
  {
    match s.worker
    case Crashed => assert Enabled(s, ResetActive);
    case Sleeping => assert Enabled(s, RestartWorker);
    case Counting => assert Enabled(s, CountQueued);
    case Announcing(_) => assert Enabled(s, SendStartupToken);
    case Receiving => assert Enabled(s, ReceiveToken);
    case Gated => assert Enabled(s, PassGate);
    case Fetching => FetchingIsNotStuck(s);
    case Discarding(_) => assert Enabled(s, DiscardForbidden);
    case Evicting(_) => assert Enabled(s, EvictMarked);
    case Creating(_) => CreatingIsNotStuck(s);
    case Handling(_, _) => assert Enabled(s, HandlerReturns(true));
    case Finishing(_, _, _) => assert Enabled(s, FinishJob(0));
    case Deleting(_, _) => assert Enabled(s, DeleteHandled);
  }

  /** The worker waits with the queue and the channel empty. */
  predicate AtRest(s: State) {
    s.worker.Receiving? && s.tokens == 0 && s.queue == map[]
  }

  lemma StuckIsAtRest(s: State)
    requires Quiet(s) && Stuck(s)
    ensures AtRest(s)
  {
    if !s.worker.Receiving? || s.tokens > 0 {
      OnlyRestIsStuck(s);
    }
  }

  lemma QuietDrain(ss: seq<State>, steps: seq<Step>)
    requires IsDrain(ss, steps) && Quiet(ss[0])
    ensures Receipts(steps) <= Load(ss[0]) && |steps| <= Measure(ss[0])
    ensures Stuck(ss[|steps|]) ==> AtRest(ss[|steps|])
  {
    assert steps[..|steps|] == steps;
    DrainPays(ss, steps, |steps|);
    DrainStaysQuiet(ss, steps, |steps|);
    if Stuck(ss[|steps|]) {
      StuckIsAtRest(ss[|steps|]);
    }
  }

  /** The worker waits for a token, nobody is enqueuing, and no queued event was tried before. */
  ghost predicate Idle(s: State) {
    Quiet(s) && s.worker.Receiving? && forall id :: id in s.queue ==> !s.queue[id].Marked()
  }

  lemma IdleLoad(s: State)
    requires s.worker.Receiving?
    ensures var t, m, ties := s.tokens, |s.queue|, TiedPairs(s.queue);
            && Load(s) <= t + m * m + ties
            && Measure(s) <= 12 * t + 13 * (m * m + ties)
            && (DistinctStamps(s.queue) ==> Load(s) <= t + m * m)
  {
    RefillsBound(s.queue);
    NoTiesMeansDistinct(s.queue);
  }

  lemma IdleBound(s: State, received: nat)
    requires received <= Load(s)
    ensures Idle(s) ==>
              var t, m := s.tokens, |s.queue|;
              && received <= t + m * m + TiedPairs(s.queue)
              && (DistinctStamps(s.queue) ==> received <= t + m * m)
  {
    if Idle(s) {
      IdleLoad(s);
    }
  }

  lemma CoveredAtRest(s: State)
    requires Quiet(s) && s.worker.Receiving? && s.tokens == 0
    ensures AtRest(s)
  {
  }

  /**
   Bounded drain. From an idle worker with t tokens and m queued events, however the handlers
   end, the worker takes at most t + m * m tokens plus one for each pair of events with equal
   timestamps; once no step is left, it waits with queue and channel empty.
   */
  lemma BoundedDrain(ss: seq<State>, steps: seq<Step>)
    requires IsDrain(ss, steps) && Idle(ss[0])
    ensures var t, m, ties := ss[0].tokens, |ss[0].queue|, TiedPairs(ss[0].queue);
            && Receipts(steps) <= t + m * m + ties
            && |steps| <= 12 * t + 13 * (m * m + ties)
            && (DistinctStamps(ss[0].queue) ==> Receipts(steps) <= t + m * m)
    ensures Stuck(ss[|steps|]) ==> AtRest(ss[|steps|])
  {
    QuietDrain(ss, steps);
    IdleLoad(ss[0]);
  }

  /** At worst one more restart is due, on top of what an idle worker could cause. */
  lemma DebtBound(queue: Queue, w: Worker)
    ensures Debt(queue, w) <= |queue| * |queue| + TiedPairs(queue) + |queue|
  {
    RefillsBound(queue);
    if w.HasEvent() {
      EvictedBound(queue, w.event.id);
      MarkedBound(queue, w.event.id);
    }
    DebtAtMost(queue, w, |queue| * |queue| + TiedPairs(queue));
  }

  lemma DebtAtMost(queue: Queue, w: Worker, bound: nat)
    requires Refills(queue) <= bound
    requires w.Evicting? ==> Risked(queue - {w.event.id}) <= bound + |queue|
    requires w.Creating? ==> Risked(MarkRow(queue, w.event.id, JobId(0))) <= bound + |queue|
    ensures Debt(queue, w) <= bound + |queue|
  {
  }

  lemma EvictedBound(queue: Queue, id: EventId)
    ensures Risked(queue - {id}) <= |queue| * |queue| + TiedPairs(queue) + |queue|
  {
    RemoveOne(queue, id);
    DropRefills(queue, id);
    RefillsBound(queue);
  }

  lemma MarkedBound(queue: Queue, id: EventId)
    ensures Risked(MarkRow(queue, id, JobId(0))) <= |queue| * |queue| + TiedPairs(queue) + |queue|
  {
    MarkKeepsSize(queue, id, JobId(0));
    RefillsBound(MarkRow(queue, id, JobId(0)));
    assert Ties(MarkRow(queue, id, JobId(0))) == Ties(queue);
  }

  lemma LoadBound(s: State)
    ensures var m := |s.queue|;
            var bound := StartupLeft(s.worker) + m * m + TiedPairs(s.queue) + m;
            && Load(s) <= s.tokens + bound
            && Measure(s) <= 12 * s.tokens + 13 * bound + 11
  {
    DebtBound(s.queue, s.worker);
  }

  /**
   From every reachable state, with crashes anywhere before and whatever the worker is doing, a
   drain is bounded and can only end at rest, provided no enqueue call is half done and
   processing is enabled.
   */
  lemma EveryStateDrains(ss: seq<State>, steps: seq<Step>, n: nat, drained: seq<State>, drain: seq<Step>)
    requires IsRun(ss, steps) && Init(ss[0]) && n < |ss| && ss[n].unsent == 0 && ss[n].enabled
    requires IsDrain(drained, drain) && drained[0] == ss[n]
    ensures var m := |ss[n].queue|;
            var bound := StartupLeft(ss[n].worker) + m * m + TiedPairs(ss[n].queue) + m;
            && Receipts(drain) <= ss[n].tokens + bound
            && |drain| <= 12 * ss[n].tokens + 13 * bound + 11
    ensures Stuck(drained[|drain|]) ==> AtRest(drained[|drain|])
  {
    ReachableIsQuiet(ss, steps, n);
    QuietDrain(drained, drain);
    LoadBound(ss[n]);
  }

  lemma ReachableIsQuiet(ss: seq<State>, steps: seq<Step>, n: nat)
    requires IsRun(ss, steps) && Init(ss[0]) && n < |ss| && ss[n].unsent == 0 && ss[n].enabled
    ensures Quiet(ss[n])
  {
    RunIsSafe(ss, steps, n);
    RunCovered(ss, steps, n);
  }
}
