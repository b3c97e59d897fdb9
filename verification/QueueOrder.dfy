/** Events are handled in the order in which they were enqueued. */
module QueueOrder {
  import opened Prelude
  import opened QueueModel
  import opened QueueInvariants
  import opened Sorting

  function Stamp(h: History, id: EventId): Instant {
    if id in h.arrivals then h.arrivals[id].created else 0
  }

  function ByStamp(h: History): (EventId, EventId) -> bool {
    (x, y) => Stamp(h, x) <= Stamp(h, y)
  }

  /** Rows were inserted with strictly increasing timestamps. */
  ghost predicate TimestampOrdered(h: History) {
    forall i, j :: 0 <= i < j < |h.order| ==> Stamp(h, h.order[i]) < Stamp(h, h.order[j])
  }

  /** The event the worker has fetched and is going to create a job for, if any. */
  function Due(w: Worker): Option<QueuedEvent> {
    if w.Evicting? || w.Creating? then Some(w.event) else None
  }

  /** No job so far is for an event enqueued after `t`. */
  ghost predicate LogUpTo(h: History, t: Instant) {
    forall i :: 0 <= i < |h.jobLog| ==> Stamp(h, h.jobLog[i]) <= t
  }

  /** Jobs were created in timestamp order, and nothing still to come belongs earlier. */
  ghost predicate InOrder(queue: map<EventId, QueuedEvent>, h: History, due: Option<QueuedEvent>) {
    && SortedBy(h.jobLog, ByStamp(h))
    && (forall id :: id in queue ==> LogUpTo(h, queue[id].created))
    && (due.Some? ==>
          && LogUpTo(h, due.value.created)
          && forall id :: id in queue ==> due.value.created <= queue[id].created)
  }

  lemma OrderedBefore(s: State, step: Step)
    requires Safe(s) && Enabled(s, step) && TimestampOrdered(Apply(s, step).h)
    ensures TimestampOrdered(s.h)
  {
    var h' := Apply(s, step).h;
    forall i, j | 0 <= i < j < |s.h.order| ensures Stamp(s.h, s.h.order[i]) < Stamp(s.h, s.h.order[j]) {
      assert h'.order[i] == s.h.order[i] && h'.order[j] == s.h.order[j];
      assert Stamp(h', h'.order[i]) < Stamp(h', h'.order[j]);
    }
  }

  lemma InsertIsLast(h: History, row: QueuedEvent, h': History)
    requires Lists(h.order, h.arrivals) && row.id !in h.arrivals
    requires h' == h.(arrivals := h.arrivals[row.id := row], order := h.order + [row.id])
    requires TimestampOrdered(h')
    ensures forall id :: id in h.arrivals ==> Stamp(h', id) == Stamp(h, id) < row.created
  {
    forall id | id in h.arrivals ensures Stamp(h', id) == Stamp(h, id) < row.created {
      var i :| 0 <= i < |h.order| && h.order[i] == id;
      assert h'.order[i] == id && h'.order[|h.order|] == row.id;
      assert Stamp(h', id) < Stamp(h', row.id);
    }
  }

  lemma InsertKeepsOrder(queue: map<EventId, QueuedEvent>, h: History, due: Option<QueuedEvent>,
                         row: QueuedEvent, h': History)
    requires InOrder(queue, h, due)
    requires h'.jobLog == h.jobLog
    requires forall i :: 0 <= i < |h.jobLog| ==> h.jobLog[i] in h.arrivals
    requires due.Some? ==> due.value.created < row.created
    requires forall id :: id in h.arrivals ==> Stamp(h', id) == Stamp(h, id) < row.created
    ensures InOrder(queue[row.id := row], h', due)
  {
    assert forall t :: LogUpTo(h, t) ==> LogUpTo(h', t);
  }

  lemma InsertStepKeepsOrder(s: State, step: Step)
    requires Safe(s) && Enabled(s, step) && step.EnqueueInsert?
    requires InOrder(s.queue, s.h, Due(s.worker)) && TimestampOrdered(Apply(s, step).h)
    ensures var s' := Apply(s, step); InOrder(s'.queue, s'.h, Due(s'.worker))
  {
    var s' := Apply(s, step);
    InsertIsLast(s.h, step.row, s'.h);
    assert Due(s.worker).Some? ==> Due(s.worker).value.created == Stamp(s.h, s.worker.event.id);
    InsertKeepsOrder(s.queue, s.h, Due(s.worker), step.row, s'.h);
  }

  lemma CreateKeepsOrder(queue: map<EventId, QueuedEvent>, h: History, e: QueuedEvent, job: JobId)
    requires InOrder(queue, h, Some(e)) && Stamp(h, e.id) == e.created
    ensures InOrder(MarkRow(queue, e.id, job), h.(jobLog := h.jobLog + [e.id]), None)
  {
    var h' := h.(jobLog := h.jobLog + [e.id]);
    assert forall i :: 0 <= i < |h.jobLog| ==> h'.jobLog[i] == h.jobLog[i];
    forall id | id in MarkRow(queue, e.id, job) ensures LogUpTo(h', MarkRow(queue, e.id, job)[id].created) {
      assert LogUpTo(h, queue[id].created) && e.created <= queue[id].created;
    }
    assert LogUpTo(h, e.created);
  }

  lemma CreateStepKeepsOrder(s: State, step: Step)
    requires Safe(s) && Enabled(s, step) && step.CreateJob? && InOrder(s.queue, s.h, Due(s.worker))
    ensures var s' := Apply(s, step); InOrder(s'.queue, s'.h, Due(s'.worker))
  {
    CreateKeepsOrder(s.queue, s.h, s.worker.event, step.newJob);
  }

  /** Losing rows, or forgetting the chosen event, disturbs nothing. */
  lemma FewerKeepOrder(queue: map<EventId, QueuedEvent>, h: History, due: Option<QueuedEvent>,
                       queue': map<EventId, QueuedEvent>, h': History, due': Option<QueuedEvent>)
    requires InOrder(queue, h, due) && (due' == due || due' == None)
    requires forall id :: id in queue' ==> id in queue && queue'[id] == queue[id]
    requires h'.arrivals == h.arrivals && h'.jobLog == h.jobLog
    ensures InOrder(queue', h', due')
  {
    assert forall id :: Stamp(h', id) == Stamp(h, id);
    assert forall id :: id in queue && LogUpTo(h, queue[id].created) ==> LogUpTo(h', queue[id].created);
  }

  lemma OthersOnlyRemove(s: State, step: Step)
    requires Enabled(s, step) && !step.EnqueueInsert? && !step.CreateJob? && !step.FetchNext?
    ensures var s' := Apply(s, step);
            && s'.queue == (if Deletes(step) then s.queue - {s.worker.event.id} else s.queue)
            && s'.h.arrivals == s.h.arrivals && s'.h.jobLog == s.h.jobLog
            && (Due(s'.worker) == Due(s.worker) || Due(s'.worker) == None)
  {
    match step
    case EvictMarked =>
    case DiscardForbidden =>
    case DeleteHandled =>
    case PassGate =>
    case HandlerReturns(_) =>
    case FinishJob(_) =>
    case SendStartupToken =>
    case CountQueued =>
    case ReceiveToken =>
    case FetchNothing =>
    case WorkerDown =>
    case RestartProcess =>
    case _ =>
  }

  lemma OthersKeepOrder(s: State, step: Step)
    requires Enabled(s, step) && !step.EnqueueInsert? && !step.CreateJob?
    requires InOrder(s.queue, s.h, Due(s.worker))
    ensures var s' := Apply(s, step); InOrder(s'.queue, s'.h, Due(s'.worker))
  {
    if !step.FetchNext? {
      OthersOnlyRemove(s, step);
      var s' := Apply(s, step);
      FewerKeepOrder(s.queue, s.h, Due(s.worker), s'.queue, s'.h, Due(s'.worker));
    }
  }

  lemma StepInOrder(s: State, step: Step)
    requires Safe(s) && Enabled(s, step) && InOrder(s.queue, s.h, Due(s.worker))
    requires TimestampOrdered(Apply(s, step).h)
    ensures var s' := Apply(s, step); InOrder(s'.queue, s'.h, Due(s'.worker))
  {
    if step.EnqueueInsert? {
      InsertStepKeepsOrder(s, step);
    } else if step.CreateJob? {
      CreateStepKeepsOrder(s, step);
    } else {
      OthersKeepOrder(s, step);
    }
  }

  function Repeat(id: EventId, n: nat): seq<EventId> {
    seq(n, _ => id)
  }

  /** Each of these ids as many times in a row as `times` says. */
  function RepeatEach(ids: seq<EventId>, times: EventId -> nat): seq<EventId> {
    if ids == [] then [] else
      var last := ids[|ids| - 1];
      RepeatEach(ids[..|ids| - 1], times) + Repeat(last, times(last))
  }

  /** How many jobs an event has been given. */
  function JobsSoFar(queue: map<EventId, QueuedEvent>, h: History, evicted: set<EventId>): EventId -> nat {
    id => if id in h.arrivals then ExpectedJobs(queue, h, evicted, id) else 0
  }

  /** The arrivals in order, each once per job it has been given. */
  function Schedule(s: State): seq<EventId> {
    RepeatEach(s.h.order, JobsSoFar(s.queue, s.h, Evicted(s)))
  }

  lemma {:induction false} RepeatCounts(id: EventId, n: nat)
    ensures multiset(Repeat(id, n)) == multiset{}[id := n]
  {
    if n > 0 {
      RepeatCounts(id, n - 1);
      assert Repeat(id, n) == Repeat(id, n - 1) + [id];
    }
  }

  ghost predicate NoDuplicates(ids: seq<EventId>) {
    forall i, j :: 0 <= i < j < |ids| ==> ids[i] != ids[j]
  }

  lemma {:induction false} RepeatEachCounts(ids: seq<EventId>, times: EventId -> nat, id: EventId)
    requires NoDuplicates(ids)
    ensures multiset(RepeatEach(ids, times))[id] == if id in ids then times(id) else 0
  {
    if ids != [] {
      var rest, last := ids[..|ids| - 1], ids[|ids| - 1];
      RepeatEachCounts(rest, times, id);
      RepeatCounts(last, times(last));
      assert ids == rest + [last];
    }
  }

  lemma {:induction false} RepeatEachMembers(ids: seq<EventId>, times: EventId -> nat)
    ensures forall x :: x in RepeatEach(ids, times) ==> x in ids
  {
    if ids != [] {
      RepeatEachMembers(ids[..|ids| - 1], times);
    }
  }

  /** The ids have strictly increasing timestamps. */
  ghost predicate Increasing(ids: seq<EventId>, h: History) {
    forall i, j :: 0 <= i < j < |ids| ==> Stamp(h, ids[i]) < Stamp(h, ids[j])
  }

  lemma {:induction false} RepeatEachSorted(ids: seq<EventId>, times: EventId -> nat, h: History)
    requires Increasing(ids, h)
    ensures SortedBy(RepeatEach(ids, times), ByStamp(h))
  {
    if ids != [] {
      var rest, last := ids[..|ids| - 1], ids[|ids| - 1];
      RepeatEachSorted(rest, times, h);
      RepeatEachMembers(rest, times);
      forall x | x in rest ensures Stamp(h, x) < Stamp(h, last) {
        var i :| 0 <= i < |rest| && rest[i] == x;
      }
      AppendSorted(RepeatEach(rest, times), last, times(last), h);
    }
  }

  /** Appending copies of something later keeps a sequence sorted. */
  lemma AppendSorted(ids: seq<EventId>, last: EventId, times: nat, h: History)
    requires SortedBy(ids, ByStamp(h)) && forall x :: x in ids ==> Stamp(h, x) < Stamp(h, last)
    ensures SortedBy(ids + Repeat(last, times), ByStamp(h))
  {
  }

  lemma {:induction false} RepeatEachSame(ids: seq<EventId>, times: EventId -> nat, others: EventId -> nat)
    requires forall id :: id in ids ==> times(id) == others(id)
    ensures RepeatEach(ids, times) == RepeatEach(ids, others)
  {
    if ids != [] {
      RepeatEachSame(ids[..|ids| - 1], times, others);
    }
  }

  lemma ScheduleHasTheLog(s: State)
    requires LogOk(s.queue, s.h, Evicted(s)) && Lists(s.h.order, s.h.arrivals)
    ensures multiset(s.h.jobLog) == multiset(Schedule(s))
  {
    forall id: EventId ensures multiset(s.h.jobLog)[id] == multiset(Schedule(s))[id] {
      RepeatEachCounts(s.h.order, JobsSoFar(s.queue, s.h, Evicted(s)), id);
      if id !in s.h.arrivals {
        assert id !in s.h.jobLog;
      }
    }
  }

  /**
   In a timestamp-ordered state the whole job log is determined: it is the arrival order
   with every event repeated once per job, so the jobs of an event are contiguous and no
   event overtakes an earlier one.
   */
  lemma JobLogIsSchedule(s: State)
    requires Safe(s) && InOrder(s.queue, s.h, Due(s.worker)) && TimestampOrdered(s.h)
    ensures s.h.jobLog == Schedule(s)
  {
    ScheduleHasTheLog(s);
    RepeatEachSorted(s.h.order, JobsSoFar(s.queue, s.h, Evicted(s)), s.h);
    StampsSeparate(s);
    SortedUnique(s.h.jobLog, Schedule(s), ByStamp(s.h));
  }

  lemma StampsSeparate(s: State)
    requires Safe(s) && TimestampOrdered(s.h)
    ensures Separates(ByStamp(s.h), s.h.jobLog)
  {
    forall i, j | 0 <= i < |s.h.jobLog| && 0 <= j < |s.h.jobLog| &&
                  Stamp(s.h, s.h.jobLog[i]) == Stamp(s.h, s.h.jobLog[j])
      ensures s.h.jobLog[i] == s.h.jobLog[j]
    {
      var x, y := s.h.jobLog[i], s.h.jobLog[j];
      var p :| 0 <= p < |s.h.order| && s.h.order[p] == x;
      var q :| 0 <= q < |s.h.order| && s.h.order[q] == y;
    }
  }
}
