/**
 The event queue as a state machine.

 The runtime is single-threaded, so the code between two `await`s runs without
 interference; each such stretch is one step below. The environment (incoming
 webhooks, the pause file, crashes) contributes the remaining steps.
 */
module QueueModel {
  import opened Prelude

  datatype EventId = EventId(uuid: nat)
  datatype JobId = JobId(uuid: nat)
  type Instant = int
  newtype Byte = b: int | 0 <= b < 256

  datatype AllowedEvent = IssueComment | PullRequest | PullRequestReview | Push

  function FromEventString(event: string): Option<AllowedEvent> {
    if event == "issue_comment" then Some(IssueComment)
    else if event == "push" then Some(Push)
    else if event == "pull_request" then Some(PullRequest)
    else if event == "pull_request_review" then Some(PullRequestReview)
    else None
  }

  predicate Allowed(event: string) {
    FromEventString(event).Some?
  }

  /** The four names, each with its own event, and no others. */
  lemma EventNames(event: string)
    ensures FromEventString("issue_comment") == Some(IssueComment) && FromEventString("push") == Some(Push)
    ensures FromEventString("pull_request") == Some(PullRequest)
    ensures FromEventString("pull_request_review") == Some(PullRequestReview)
    ensures Allowed(event) <==>
            event in ["issue_comment", "push", "pull_request", "pull_request_review"]
  {
    assert "push"[1] == 'u' && |"pull_request"| != |"pull_request_review"|;
  }

  /** A row of the `event_queue` table. */
  datatype QueuedEvent = QueuedEvent(
    id: EventId, jobId: Option<JobId>, event: string, payload: seq<Byte>, created: Instant)
  {
    predicate Marked() { jobId.Some? }
  }

  /** A row of the `jobs` table. */
  datatype BenchJob = BenchJob(
    eventQueued: Instant, created: Instant, finished: Option<Instant>, success: Option<bool>)

  /**
   Where the supervised background task is.

   `Crashed`: the task ended and the supervisor has not noticed yet; `Sleeping`: the
   supervisor has reset the active job and waits before restarting the task; every other
   constructor names what a live task does next. `Announcing(more)`: it sends one startup
   token now and `more` afterwards.
   */
  datatype Worker =
    | Crashed
    | Sleeping
    | Counting
    | Announcing(more: nat)
    | Receiving
    | Gated
    | Fetching
    | Discarding(event: QueuedEvent)
    | Evicting(event: QueuedEvent)
    | Creating(event: QueuedEvent)
    | Handling(event: QueuedEvent, job: JobId)
    | Finishing(event: QueuedEvent, job: JobId, ok: bool)
    | Deleting(event: QueuedEvent, job: JobId)
  {
    predicate Alive() { !Crashed? && !Sleeping? }

    predicate HasEvent() {
      Discarding? || Evicting? || Creating? || HasJob()
    }

    predicate HasJob() { Handling? || Finishing? || Deleting? }
  }

  /**
   What happened so far; written by the steps, never read to decide what is possible
   (except that fresh identifiers are really fresh).

   `arrivals` and `order`: every row ever inserted, and the order of insertion.
   `jobLog`: the event behind each created job, in order of creation.
   `interrupted`: events whose row already carried a job when the worker went down.
   `abandoned`: events evicted from the queue whose second job was prevented by the
   worker going down once more.
   */
  datatype History = History(
    arrivals: map<EventId, QueuedEvent>, order: seq<EventId>, jobLog: seq<EventId>,
    interrupted: set<EventId>, abandoned: set<EventId>)

  /**
   `queue` and `jobs` persist; `tokens` (the channel), `unsent` (enqueue calls between
   their insert and their send), `worker` and `active` live in memory; `enabled` mirrors
   the absence of the pause file.
   */
  datatype State = State(
    queue: map<EventId, QueuedEvent>, jobs: map<JobId, BenchJob>,
    tokens: nat, unsent: nat, worker: Worker, active: Option<JobId>, enabled: bool,
    h: History)

  datatype Step =
    | EnqueueInsert(row: QueuedEvent)
    | EnqueueSend
    | CountQueued
    | SendStartupToken
    | ReceiveToken
    | PassGate
    | FetchNext(next: QueuedEvent)
    | FetchNothing
    | DiscardForbidden
    | EvictMarked
    | CreateJob(newJob: JobId, now: Instant)
    | HandlerReturns(result: bool)
    | FinishJob(now: Instant)
    | DeleteHandled
    | WorkerDown
    | ResetActive
    | RestartWorker
    | RestartProcess
    | Pause
    | Resume

  /** `ORDER BY created_utc LIMIT 1`: a row nothing else in the table precedes. */
  predicate IsNext(queue: map<EventId, QueuedEvent>, e: QueuedEvent) {
    && e.id in queue && queue[e.id] == e
    && forall id :: id in queue ==> e.created <= queue[id].created
  }

  predicate Enabled(s: State, step: Step) {
    match step
    case EnqueueInsert(row) => row.id !in s.h.arrivals && Allowed(row.event) && !row.Marked()
    case EnqueueSend => s.unsent > 0
    case CountQueued => s.worker.Counting?
    case SendStartupToken => s.worker.Announcing?
    case ReceiveToken => s.worker.Receiving? && s.tokens > 0
    case PassGate => s.worker.Gated? && s.enabled
    case FetchNext(e) => s.worker.Fetching? && IsNext(s.queue, e)
    case FetchNothing => s.worker.Fetching? && s.queue == map[]
    case DiscardForbidden => s.worker.Discarding?
    case EvictMarked => s.worker.Evicting?
    case CreateJob(job, _) => s.worker.Creating? && job !in s.jobs
    case HandlerReturns(_) => s.worker.Handling?
    case FinishJob(_) => s.worker.Finishing?
    case DeleteHandled => s.worker.Deleting?
    case WorkerDown => s.worker.Alive()
    case ResetActive => s.worker.Crashed?
    case RestartWorker => s.worker.Sleeping?
    case RestartProcess => true
    case Pause => true
    case Resume => true
  }

  /** What the worker does with the row it fetched. */
  function Dispatch(e: QueuedEvent): Worker {
    if !Allowed(e.event) then Discarding(e)
    else if e.Marked() then Evicting(e)
    else Creating(e)
  }

  function Announce(left: nat): Worker {
    if left == 0 then Receiving else Announcing(left - 1)
  }

  /** Inserts the job row and, in the same transaction, marks the event's row if it is still there. */
  function MarkRow(queue: map<EventId, QueuedEvent>, id: EventId, job: JobId): map<EventId, QueuedEvent> {
    if id in queue then queue[id := queue[id].(jobId := Some(job))] else queue
  }

  /** `UPDATE jobs SET finished_utc, success WHERE id`: without effect on an unknown id. */
  function CloseJob(jobs: map<JobId, BenchJob>, job: JobId, now: Instant, ok: bool): map<JobId, BenchJob> {
    if job in jobs then jobs[job := jobs[job].(finished := Some(now), success := Some(ok))] else jobs
  }

  function MarkedRows(queue: map<EventId, QueuedEvent>): set<EventId> {
    set id | id in queue && queue[id].Marked()
  }

  /** The event that was evicted from the queue and is about to get its second job, if any. */
  function Evicted(s: State): set<EventId> {
    if s.worker.Creating? && s.worker.event.Marked() then {s.worker.event.id} else {}
  }

  /** The history after the worker (or the whole process) goes down in state `s`. */
  function RecordDown(s: State): History {
    s.h.(interrupted := s.h.interrupted + MarkedRows(s.queue), abandoned := s.h.abandoned + Evicted(s))
  }

  function Apply(s: State, step: Step): State
    requires Enabled(s, step)
  {
    match step
    case EnqueueInsert(row) =>
      s.(queue := s.queue[row.id := row], unsent := s.unsent + 1,
         h := s.h.(arrivals := s.h.arrivals[row.id := row], order := s.h.order + [row.id]))
    case EnqueueSend => s.(unsent := s.unsent - 1, tokens := s.tokens + 1)
    case CountQueued => s.(worker := Announce(|s.queue|))
    case SendStartupToken => s.(worker := Announce(s.worker.more), tokens := s.tokens + 1)
    case ReceiveToken => s.(worker := Gated, tokens := s.tokens - 1)
    case PassGate => s.(worker := Fetching)
    case FetchNext(e) => s.(worker := Dispatch(e))
    case FetchNothing => s.(worker := Crashed, h := RecordDown(s))
    case DiscardForbidden => s.(worker := Receiving, queue := s.queue - {s.worker.event.id})
    case EvictMarked => s.(worker := Creating(s.worker.event), queue := s.queue - {s.worker.event.id})
    case CreateJob(job, now) =>
      var e := s.worker.event;
      s.(worker := Handling(e, job), active := Some(job),
         jobs := s.jobs[job := BenchJob(e.created, now, None, None)],
         queue := MarkRow(s.queue, e.id, job),
         h := s.h.(jobLog := s.h.jobLog + [e.id]))
    case HandlerReturns(ok) => s.(worker := Finishing(s.worker.event, s.worker.job, ok))
    case FinishJob(now) =>
      s.(worker := Deleting(s.worker.event, s.worker.job),
         jobs := CloseJob(s.jobs, s.worker.job, now, s.worker.ok))
    case DeleteHandled => s.(worker := Receiving, queue := s.queue - {s.worker.event.id})
    case WorkerDown => s.(worker := Crashed, h := RecordDown(s))
    case ResetActive => s.(worker := Sleeping, active := None)
    case RestartWorker => s.(worker := Counting)
    case RestartProcess =>
      s.(worker := Counting, active := None, tokens := 0, unsent := 0, h := RecordDown(s))
    case Pause => s.(enabled := false)
    case Resume => s.(enabled := true)
  }

  /**
   The process starts on a database without jobs; rows left there by an earlier version
   may name events that are no longer allowed.
   */
  ghost predicate Init(s: State) {
    && s.jobs == map[] && s.tokens == 0 && s.unsent == 0 && s.worker == Counting && s.active == None
    && s.h == History(s.queue, s.h.order, [], {}, {})
    && (forall id :: id in s.queue ==> s.queue[id].id == id && !s.queue[id].Marked())
    && Lists(s.h.order, s.queue)
  }

  /** `order` names every key of `arrivals` exactly once. */
  ghost predicate Lists(order: seq<EventId>, arrivals: map<EventId, QueuedEvent>) {
    && (forall i :: 0 <= i < |order| ==> order[i] in arrivals)
    && (forall id :: id in arrivals ==> id in order)
    && (forall i, j :: 0 <= i < j < |order| ==> order[i] != order[j])
  }

  /** A run: states `ss[0]`, `ss[1]`, ... linked by `steps[0]`, `steps[1]`, ... */
  ghost predicate IsRun(ss: seq<State>, steps: seq<Step>) {
    && |ss| == |steps| + 1
    && forall i {:trigger steps[i]} :: 0 <= i < |steps| ==>
         Enabled(ss[i], steps[i]) && ss[i + 1] == Apply(ss[i], steps[i])
  }
}
