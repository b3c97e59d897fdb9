/**
 The event queue service: each method is one stretch of code between two `await`s and takes
 the corresponding step of the state machine.
 */
module EventQueueService {
  import opened Prelude
  import opened QueueModel
  import opened QueueInvariants
  import opened QueueRuns
  import opened QueueCost
  import opened QueueDrain
  import opened QueueJobs
  import opened Database

  datatype Outcome = ReturnsOk | ReturnsErr | Panics

  class EventQueue {
    const db: Db
    var activeJobId: Option<JobId>
    /** Tokens in the channel, and enqueue calls between their insert and their send. */
    var tokens: nat
    var unsent: nat
    var worker: Worker
    var processingEnabled: bool
    ghost var history: History

    ghost function View(): State
      reads this, db
    {
      State(db.eventQueue, db.jobs, tokens, unsent, worker, activeJobId, processingEnabled, history)
    }

    constructor (db: Db, pauseFileExists: bool, ghost order: seq<EventId>)
      requires db.jobs == map[] && Lists(order, db.eventQueue)
      requires forall id :: id in db.eventQueue ==> db.eventQueue[id].id == id && !db.eventQueue[id].Marked()
      ensures this.db == db && Init(View()) && processingEnabled == !pauseFileExists
    {
      this.db := db;
      activeJobId, tokens, unsent, worker := None, 0, 0, Counting;
      processingEnabled := !pauseFileExists;
      history := History(db.eventQueue, order, [], {}, {});
    }

    // ----- Enqueuing -----

    /** The part of `enqueue` up to the insert; forbidden events are turned away. */
    method BeginEnqueue(id: EventId, now: Instant, event: string, payload: seq<Byte>) returns (admitted: bool)
      requires Safe(View()) && id !in history.arrivals
      modifies this`unsent, this`history, db`eventQueue
      ensures admitted <==> event in ["issue_comment", "push", "pull_request", "pull_request_review"]
      ensures !admitted ==> View() == old(View())
      ensures var step := EnqueueInsert(QueuedEvent(id, None, event, payload, now));
              admitted ==> Enabled(old(View()), step) && View() == Apply(old(View()), step)
    {
      EventNames(event);
      if FromEventString(event).None? {
        return false;
      }
      history := Apply(View(), EnqueueInsert(QueuedEvent(id, None, event, payload, now))).h;
      db.EnqueueEvent(id, now, event, payload);
      unsent := unsent + 1;
      return true;
    }

    /** The rest of `enqueue`: sends the token. */
    method EndEnqueue()
      requires unsent > 0
      modifies this`unsent, this`tokens
      ensures Enabled(old(View()), EnqueueSend) && View() == Apply(old(View()), EnqueueSend)
    {
      unsent, tokens := unsent - 1, tokens + 1;
    }

    // ----- The supervisor -----

    method ResetActiveJob()
      requires worker.Crashed?
      modifies this`activeJobId, this`worker
      ensures Enabled(old(View()), ResetActive) && View() == Apply(old(View()), ResetActive)
    {
      activeJobId, worker := None, Sleeping;
    }

    method SpawnWorker()
      requires worker.Sleeping?
      modifies this`worker
      ensures Enabled(old(View()), RestartWorker) && View() == Apply(old(View()), RestartWorker)
    {
      worker := Counting;
    }

    // ----- The worker -----

    method CountQueuedEvents()
      requires worker.Counting?
      modifies this`worker
      ensures Enabled(old(View()), CountQueued) && View() == Apply(old(View()), CountQueued)
    {
      var events := db.QueuedEventCount();
      worker := if events == 0 then Receiving else Announcing(events - 1);
    }

    method AnnounceOne()
      requires worker.Announcing?
      modifies this`worker, this`tokens
      ensures Enabled(old(View()), SendStartupToken) && View() == Apply(old(View()), SendStartupToken)
    {
      tokens := tokens + 1;
      worker := if worker.more == 0 then Receiving else Announcing(worker.more - 1);
    }

    method Receive()
      requires worker.Receiving? && tokens > 0
      modifies this`worker, this`tokens
      ensures Enabled(old(View()), ReceiveToken) && View() == Apply(old(View()), ReceiveToken)
    {
      tokens, worker := tokens - 1, Gated;
    }

    method WaitForProcessingEnabled()
      requires worker.Gated? && processingEnabled
      modifies this`worker
      ensures Enabled(old(View()), PassGate) && View() == Apply(old(View()), PassGate)
    {
      worker := Fetching;
    }

    /** Fetches the next row and classifies it; without a row the task ends with an error. */
    method Fetch()
      requires worker.Fetching? && forall id :: id in db.eventQueue ==> db.eventQueue[id].id == id
      modifies this`worker, this`history
      ensures old(db.eventQueue) == map[] ==>
                Enabled(old(View()), FetchNothing) && View() == Apply(old(View()), FetchNothing)
      ensures old(db.eventQueue) != map[] ==>
                exists e :: IsNext(old(db.eventQueue), e)
                         && Enabled(old(View()), FetchNext(e)) && View() == Apply(old(View()), FetchNext(e))
    {
      var next := db.NextQueuedEvent();
      if next.None? {
        history := RecordDown(View());
        worker := Crashed;
        return;
      }
      var event := next.value;
      if FromEventString(event.event).None? {
        worker := Discarding(event);
      } else if event.jobId.Some? {
        worker := Evicting(event);
      } else {
        worker := Creating(event);
      }
      assert IsNext(old(db.eventQueue), event);
    }

    method Discard()
      requires worker.Discarding?
      modifies this`worker, db`eventQueue
      ensures Enabled(old(View()), DiscardForbidden) && View() == Apply(old(View()), DiscardForbidden)
    {
      db.DeleteEvent(worker.event.id);
      worker := Receiving;
    }

    /** Removes the row of an event that was being handled when the worker went down; it is still handled. */
    method Evict()
      requires worker.Evicting?
      modifies this`worker, db`eventQueue
      ensures Enabled(old(View()), EvictMarked) && View() == Apply(old(View()), EvictMarked)
    {
      db.DeleteEvent(worker.event.id);
      worker := Creating(worker.event);
    }

    method StartJob(job: JobId, now: Instant)
      requires worker.Creating? && job !in db.jobs
      modifies this`worker, this`activeJobId, this`history, db`eventQueue, db`jobs
      ensures Enabled(old(View()), CreateJob(job, now)) && View() == Apply(old(View()), CreateJob(job, now))
    {
      var event := worker.event;
      history := history.(jobLog := history.jobLog + [event.id]);
      db.NewJobForEvent(job, event.id, event.created, now);
      activeJobId := Some(job);
      worker := Handling(event, job);
    }

    /** The handler ends: with a result, or by panicking, which takes the task down. */
    method EndHandler(outcome: Outcome)
      requires worker.Handling?
      modifies this`worker, this`history
      ensures outcome.Panics? ==> Enabled(old(View()), WorkerDown) && View() == Apply(old(View()), WorkerDown)
      ensures !outcome.Panics? ==>
                var step := HandlerReturns(outcome.ReturnsOk?);
                Enabled(old(View()), step) && View() == Apply(old(View()), step)
    {
      if outcome.Panics? {
        history := RecordDown(View());
        worker := Crashed;
      } else {
        worker := Finishing(worker.event, worker.job, outcome.ReturnsOk?);
      }
    }

    method Finish(now: Instant)
      requires worker.Finishing?
      modifies this`worker, db`jobs
      ensures Enabled(old(View()), FinishJob(now)) && View() == Apply(old(View()), FinishJob(now))
    {
      db.JobFinished(worker.job, worker.ok, now);
      worker := Deleting(worker.event, worker.job);
    }

    method Delete()
      requires worker.Deleting?
      modifies this`worker, db`eventQueue
      ensures Enabled(old(View()), DeleteHandled) && View() == Apply(old(View()), DeleteHandled)
    {
      db.DeleteEvent(worker.event.id);
      worker := Receiving;
    }

    // ----- The environment -----

    /** A database error or a panic ends the task at any point. */
    method Crash()
      requires worker.Alive()
      modifies this`worker, this`history
      ensures Enabled(old(View()), WorkerDown) && View() == Apply(old(View()), WorkerDown)
    {
      history := RecordDown(View());
      worker := Crashed;
    }

    /** The process is restarted on the same database. */
    method RestartedProcess()
      modifies this
      ensures Enabled(old(View()), RestartProcess) && View() == Apply(old(View()), RestartProcess)
    {
      history := RecordDown(View());
      activeJobId, tokens, unsent, worker := None, 0, 0, Counting;
    }

    method SetPaused(paused: bool)
      modifies this`processingEnabled
      ensures View() == Apply(old(View()), if paused then Pause else Resume)
    {
      processingEnabled := !paused;
    }

    // ----- Looking jobs up -----

    method GetJobView(job: JobId) returns (view: Option<JobView>)
      requires Viewable(View())
      ensures view == ViewOf(View(), job)
    {
      var row := db.MaybeJob(job);
      if row.None? {
        return None;
      }
      return Some(FromJob(row.value, activeJobId == Some(job)));
    }

    // ----- Draining -----

    /** The next stretch of the supervised task, whatever it is about to do. */
    method Turn() returns (took: bool)
      requires Safe(View()) && processingEnabled
      requires !worker.Receiving? || tokens > 0
      modifies this, db`eventQueue, db`jobs
      ensures took == old(worker).Receiving?
      ensures DrainStep(old(View()), View(), took)
    {
      took := worker.Receiving?;
      if worker.Fetching? {
        FetchTurn();
      } else if worker.HasEvent() {
        EventTurn();
      } else {
        QuietTurn();
      }
    }

    method QuietTurn()
      requires !worker.Fetching? && !worker.HasEvent() && processingEnabled && (!worker.Receiving? || tokens > 0)
      modifies this
      ensures DrainStep(old(View()), View(), old(worker).Receiving?)
    {
      ghost var s := View();
      match worker
      case Crashed => ResetActiveJob(); TakeStep(s, ResetActive);
      case Sleeping => SpawnWorker(); TakeStep(s, RestartWorker);
      case Counting => CountQueuedEvents(); TakeStep(s, CountQueued);
      case Announcing(_) => AnnounceOne(); TakeStep(s, SendStartupToken);
      case Receiving => Receive(); TakeStep(s, ReceiveToken);
      case Gated => WaitForProcessingEnabled(); TakeStep(s, PassGate);
    }

    method FetchTurn()
      requires worker.Fetching? && forall id :: id in db.eventQueue ==> db.eventQueue[id].id == id
      modifies this
      ensures DrainStep(old(View()), View(), false)
    {
      ghost var s := View();
      Fetch();
      if s.queue == map[] {
        TakeStep(s, FetchNothing);
      } else {
        ghost var e :| IsNext(s.queue, e) && Enabled(s, FetchNext(e)) && View() == Apply(s, FetchNext(e));
        TakeStep(s, FetchNext(e));
      }
    }

    method EventTurn()
      requires worker.HasEvent()
      modifies this, db`eventQueue, db`jobs
      ensures DrainStep(old(View()), View(), false)
    {
      ghost var s := View();
      match worker
      case Discarding(_) => Discard(); TakeStep(s, DiscardForbidden);
      case Evicting(_) => Evict(); TakeStep(s, EvictMarked);
      case Creating(_) =>
        var job := FreshJob();
        var now := ArbitraryTime();
        StartJob(job, now);
        TakeStep(s, CreateJob(job, now));
      case Handling(_, _) =>
        var outcome: Outcome := *;
        EndHandler(outcome);
        TakeStep(s, if outcome.Panics? then WorkerDown else HandlerReturns(outcome.ReturnsOk?));
      case Finishing(_, _, _) =>
        var now := ArbitraryTime();
        Finish(now);
        TakeStep(s, FinishJob(now));
      case Deleting(_, _) => Delete(); TakeStep(s, DeleteHandled);
    }

    /** A job id that was never used, as a fresh UUID is. */
    method FreshJob() returns (job: JobId)
      ensures job !in db.jobs
    {
      FreshJobExists(db.jobs.Keys);
      ghost var n: nat :| Above(n, db.jobs.Keys);
      assert JobId(n) !in db.jobs;
      job :| job !in db.jobs;
    }

    method ArbitraryTime() returns (now: Instant) {
      now := *;
    }

    /**
     Runs the supervised task until it rests, from wherever it is and with handlers that end
     however they like. Terminates with queue and channel empty, after taking at most the
     tokens `Load` allows; from an idle worker that is t + m * m and one per pair of events
     with equal timestamps.
     */
    method RunUntilIdle() returns (received: nat)
      requires Quiet(View())
      modifies this, db`eventQueue, db`jobs
      ensures AtRest(View()) && Quiet(View())
      ensures received <= old(Load(View()))
      ensures old(Idle(View())) ==>
                var t, m := old(tokens), old(|db.eventQueue|);
                && received <= t + m * m + old(TiedPairs(db.eventQueue))
                && (old(DistinctStamps(db.eventQueue)) ==> received <= t + m * m)
    {
      received := 0;
      ghost var s0 := View();
      while !worker.Receiving? || tokens > 0
        invariant Quiet(View())
        invariant received + Load(View()) <= Load(s0)
        decreases Measure(View())
      {
        ghost var s := View();
        var took := Turn();
        DrainStepPays(s, View(), took);
        received := received + (if took then 1 else 0);
      }
      CoveredAtRest(View());
      IdleBound(s0, received);
    }
  }
}
