/** The bound of `QueueDrain` is attained: handlers that always panic force it. */
module QueueWorstCase {
  import opened Prelude
  import opened QueueModel
  import opened QueueInvariants
  import opened QueueRuns
  import opened QueueCost
  import opened QueueDrain
  import opened Sorting

  /** Following `steps`, all of them draining steps, leads from `s` to `s'`. */
  predicate Path(s: State, steps: seq<Step>, s': State)
    decreases |steps|
  {
    if steps == [] then s == s'
    else Enabled(s, steps[0]) && Drains(s, steps[0]) && Path(Apply(s, steps[0]), steps[1..], s')
  }

  function Trace(s: State, steps: seq<Step>, s': State): seq<State>
    requires Path(s, steps, s')
    decreases |steps|
  {
    if steps == [] then [s] else [s] + Trace(Apply(s, steps[0]), steps[1..], s')
  }

  lemma {:induction false} PathIsDrain(s: State, steps: seq<Step>, s': State)
    requires Path(s, steps, s')
    ensures var ss := Trace(s, steps, s'); IsDrain(ss, steps) && ss[0] == s && ss[|steps|] == s'
    decreases |steps|
  {
    if steps != [] {
      PathIsDrain(Apply(s, steps[0]), steps[1..], s');
      var rest := Trace(Apply(s, steps[0]), steps[1..], s');
      assert forall i :: 1 <= i < |steps| ==> steps[i] == steps[1..][i - 1];
    }
  }

  lemma {:induction false} PathConcat(a: State, p: seq<Step>, b: State, q: seq<Step>, c: State)
    requires Path(a, p, b) && Path(b, q, c)
    ensures Path(a, p + q, c)
    decreases |p|
  {
    if p == [] {
      assert p + q == q;
    } else {
      PathConcat(Apply(a, p[0]), p[1..], b, q, c);
      assert (p + q)[0] == p[0] && (p + q)[1..] == p[1..] + q;
    }
  }

  /** The worker waits with `t` tokens in the channel. */
  predicate Waits(s: State, t: nat, queue: map<EventId, QueuedEvent>) {
    s.worker.Receiving? && s.enabled && s.tokens == t && s.queue == queue
  }

  /** Some drain of `s` takes exactly `n` tokens and ends waiting with `t` tokens and these rows. */
  ghost predicate CanReach(s: State, n: nat, t: nat, queue: map<EventId, QueuedEvent>) {
    exists steps, s' :: Path(s, steps, s') && Receipts(steps) == n && Waits(s', t, queue)
  }

  lemma {:induction false} CanReachThen(s: State, n: nat, s1: State, steps1: seq<Step>, m: nat, t: nat,
                                        queue: map<EventId, QueuedEvent>)
    requires Path(s, steps1, s1) && Receipts(steps1) == n && CanReach(s1, m, t, queue)
    ensures CanReach(s, n + m, t, queue)
  {
    var steps2, s2 :| Path(s1, steps2, s2) && Receipts(steps2) == m && Waits(s2, t, queue);
    PathConcat(s, steps1, s1, steps2, s2);
    CountConcat(steps1, steps2, TakesToken);
  }

  lemma FirstStep(s: State, step: Step, m: nat, t: nat, queue: map<EventId, QueuedEvent>)
    requires Enabled(s, step) && Drains(s, step) && CanReach(Apply(s, step), m, t, queue)
    ensures CanReach(s, m + (if step.ReceiveToken? then 1 else 0), t, queue)
  {
    var s1 := Apply(s, step);
    assert Path(s1, [], s1) && [step][1..] == [];
    assert Path(s, [step], s1);
    CanReachThen(s, Receipts([step]), s1, [step], m, t, queue);
  }

  /** From a worker that is down, the restart adds one token per row. */
  lemma {:induction false} RestartRefills(s: State)
    requires s.enabled
    requires || s.worker.Crashed? || s.worker.Sleeping? || s.worker.Counting?
             || s.worker.Announcing? || s.worker.Receiving?
    ensures var added := if s.worker.Announcing? then s.worker.more + 1
                         else if s.worker.Receiving? then 0 else |s.queue|;
            CanReach(s, 0, s.tokens + added, s.queue)
    decreases Rank(s.worker), StartupLeft(s.worker)
  {
    match s.worker
    case Crashed =>
      RestartRefills(Apply(s, ResetActive));
      FirstStep(s, ResetActive, 0, s.tokens + |s.queue|, s.queue);
    case Sleeping =>
      RestartRefills(Apply(s, RestartWorker));
      FirstStep(s, RestartWorker, 0, s.tokens + |s.queue|, s.queue);
    case Counting =>
      RestartRefills(Apply(s, CountQueued));
      FirstStep(s, CountQueued, 0, s.tokens + |s.queue|, s.queue);
    case Announcing(more) =>
      RestartRefills(Apply(s, SendStartupToken));
      FirstStep(s, SendStartupToken, 0, s.tokens + more + 1, s.queue);
    case Receiving => assert Path(s, [], s) && Receipts([]) == 0 && Waits(s, s.tokens, s.queue);
  }

  /** From every state that waits with `t` tokens and these rows, `m` more tokens lead to rest. */
  ghost predicate Onward(t: nat, queue: map<EventId, QueuedEvent>, m: nat) {
    forall s :: Waits(s, t, queue) ==> CanReach(s, m, 0, map[])
  }

  lemma RefilledThen(s: State, t: nat, m: nat)
    requires s.enabled && s.worker.Crashed? && t == s.tokens + |s.queue| && Onward(t, s.queue, m)
    ensures CanReach(s, m, 0, map[])
  {
    RestartRefills(s);
    var steps, s1 :| Path(s, steps, s1) && Receipts(steps) == 0 && Waits(s1, t, s.queue);
    CanReachThen(s, 0, s1, steps, m, 0, map[]);
  }

  /** Taking a token with nothing queued costs the worker a restart, and nothing is refilled. */
  lemma SurplusRound(s: State, m: nat)
    requires s.worker.Receiving? && s.enabled && s.tokens > 0 && s.queue == map[]
    requires Onward(s.tokens - 1, map[], m)
    ensures CanReach(s, m + 1, 0, map[])
  {
    var s1 := Apply(s, ReceiveToken);
    var s2 := Apply(s1, PassGate);
    RefilledThen(Apply(s2, FetchNothing), s.tokens - 1, m);
    FirstStep(s2, FetchNothing, m, 0, map[]);
    FirstStep(s1, PassGate, m, 0, map[]);
    FirstStep(s, ReceiveToken, m, 0, map[]);
  }

  /** The worker takes a token and fetches `e`. */
  lemma TakeAndFetch(s: State, e: QueuedEvent, m: nat)
    requires s.worker.Receiving? && s.enabled && s.tokens > 0 && IsNext(s.queue, e)
    requires CanReach(s.(worker := Dispatch(e), tokens := s.tokens - 1), m, 0, map[])
    ensures CanReach(s, m + 1, 0, map[])
  {
    var s1 := Apply(s, ReceiveToken);
    var s2 := Apply(s1, PassGate);
    assert Apply(s2, FetchNext(e)) == s.(worker := Dispatch(e), tokens := s.tokens - 1);
    FirstStep(s2, FetchNext(e), m, 0, map[]);
    FirstStep(s1, PassGate, m, 0, map[]);
    FirstStep(s, ReceiveToken, m, 0, map[]);
  }

  /** The handler of a fresh event panics. */
  lemma FirstPanic(s: State, e: QueuedEvent, job: JobId, m: nat)
    requires s.worker.Receiving? && s.enabled && s.tokens > 0
    requires IsNext(s.queue, e) && Allowed(e.event) && !e.Marked() && job !in s.jobs
    requires Onward(s.tokens - 1 + |s.queue|, MarkRow(s.queue, e.id, job), m)
    ensures CanReach(s, m + 1, 0, map[])
  {
    CreateThenPanic(s.(worker := Creating(e), tokens := s.tokens - 1), job, s.tokens - 1 + |s.queue|, m);
    TakeAndFetch(s, e, m);
  }

  lemma CreateThenPanic(s: State, job: JobId, t: nat, m: nat)
    requires s.worker.Creating? && s.enabled && job !in s.jobs && t == s.tokens + |s.queue|
    requires Onward(t, MarkRow(s.queue, s.worker.event.id, job), m)
    ensures CanReach(s, m, 0, map[])
  {
    var id := s.worker.event.id;
    if id in s.queue {
      InsertOne(s.queue, id, s.queue[id].(jobId := Some(job)));
    }
    var s1 := Apply(s, CreateJob(job, 0));
    RefilledThen(Apply(s1, WorkerDown), t, m);
    FirstStep(s1, WorkerDown, m, 0, map[]);
    FirstStep(s, CreateJob(job, 0), m, 0, map[]);
  }

  /** The handler of an event retried after a crash panics again. */
  lemma SecondPanic(s: State, e: QueuedEvent, job: JobId, m: nat)
    requires s.worker.Receiving? && s.enabled && s.tokens > 0
    requires IsNext(s.queue, e) && Allowed(e.event) && e.Marked() && job !in s.jobs
    requires Onward(s.tokens - 1 + (|s.queue| - 1), s.queue - {e.id}, m)
    ensures CanReach(s, m + 1, 0, map[])
  {
    var fetched := s.(worker := Evicting(e), tokens := s.tokens - 1);
    var evicted := Apply(fetched, EvictMarked);
    RemoveOne(s.queue, e.id);
    assert MarkRow(evicted.queue, e.id, job) == evicted.queue;
    CreateThenPanic(evicted, job, s.tokens - 1 + (|s.queue| - 1), m);
    FirstStep(fetched, EvictMarked, m, 0, map[]);
    TakeAndFetch(s, e, m);
  }

  /** The row of a forbidden event is discarded. */
  lemma DiscardRound(s: State, e: QueuedEvent, m: nat)
    requires s.worker.Receiving? && s.enabled && s.tokens > 0
    requires IsNext(s.queue, e) && !Allowed(e.event)
    requires Onward(s.tokens - 1, s.queue - {e.id}, m)
    ensures CanReach(s, m + 1, 0, map[])
  {
    var fetched := s.(worker := Discarding(e), tokens := s.tokens - 1);
    assert Waits(Apply(fetched, DiscardForbidden), s.tokens - 1, s.queue - {e.id});
    FirstStep(fetched, DiscardForbidden, m, 0, map[]);
    TakeAndFetch(s, e, m);
  }

  /** Rows under their own ids; only allowed events were ever tried. */
  ghost predicate Regular(queue: Queue) {
    forall id :: id in queue ==> queue[id].id == id && (queue[id].Marked() ==> Allowed(queue[id].event))
  }

  lemma {:induction false} SurplusWorstCase(t: nat)
    ensures Onward(t, map[], t)
  {
    forall s | Waits(s, t, map[]) ensures CanReach(s, t, 0, map[]) {
      if t == 0 {
        assert Path(s, [], s) && Receipts([]) == 0;
      } else {
        SurplusWorstCase(t - 1);
        SurplusRound(s, t - 1);
      }
    }
  }

  /**
   Among the earliest rows: an untried one if there is one, else one to retry if there is
   one, else a forbidden one. Taking them in this order wastes no refill.
   */
  ghost predicate IsCostliest(queue: Queue, e: QueuedEvent) {
    && IsNext(queue, e)
    && (!Untried(e) ==> UntriedAreLater(queue, e.id))
    && (!Allowed(e.event) ==> forall x :: x in queue && Allowed(queue[x].event) ==> e.created < queue[x].created)
  }

  lemma CostliestExists(queue: Queue)
    requires queue != map[] && Regular(queue)
    ensures exists e :: IsCostliest(queue, e)
  {
    EarliestExists(queue);
    var first :| IsNext(queue, first);
    if x :| x in queue && queue[x].created == first.created && Untried(queue[x]) {
      assert IsCostliest(queue, queue[x]);
    } else if x :| x in queue && queue[x].created == first.created && Allowed(queue[x].event) {
      assert IsCostliest(queue, queue[x]);
    } else {
      assert IsCostliest(queue, first);
    }
  }

  function UntriedRows(queue: Queue): set<EventId> {
    set id | id in queue && Untried(queue[id])
  }

  /**
   Whatever rows are queued, tried before or not, with or without equal timestamps: t tokens,
   one per row at least, can make the worker take all the tokens `Refills` allows. Every handler
   panics, and so does every retry.
   */
  lemma {:induction false} WorstCase(t: nat, queue: Queue)
    requires Regular(queue) && |queue| <= t
    ensures Onward(t, queue, t + Refills(queue))
    decreases |queue|, |UntriedRows(queue)|, 1
  {
    if queue == map[] {
      SurplusWorstCase(t);
      NothingToRefill(queue);
    } else {
      CostliestExists(queue);
      var e :| IsCostliest(queue, e);
      forall s | Waits(s, t, queue) ensures CanReach(s, t + Refills(queue), 0, map[]) {
        FreshJobExists(s.jobs.Keys);
        var n: nat :| Above(n, s.jobs.Keys);
        if Untried(e) {
          WorstFirst(s, e, JobId(n));
        } else if Allowed(e.event) {
          WorstRetry(s, e, JobId(n));
        } else {
          WorstDiscard(s, e);
        }
      }
    }
  }

  lemma NothingToRefill(queue: Queue)
    requires queue == map[]
    ensures Refills(queue) == 0
  {
    assert FirstPairs(queue) == {} && LatePairs(queue) == {} && AllowedRows(queue) == {};
  }

  lemma {:induction false} WorstFirst(s: State, e: QueuedEvent, job: JobId)
    requires s.worker.Receiving? && s.enabled && Regular(s.queue) && 0 < |s.queue| <= s.tokens
    requires IsCostliest(s.queue, e) && Untried(e) && job !in s.jobs
    ensures CanReach(s, s.tokens + Refills(s.queue), 0, map[])
    decreases |s.queue|, |UntriedRows(s.queue)|, 0
  {
    hide Refills;
    var rest := MarkRow(s.queue, e.id, job);
    AfterFirst(s.queue, e, job);
    WorstCase(s.tokens - 1 + |s.queue|, rest);
    FirstPanic(s, e, job, s.tokens - 1 + |s.queue| + Refills(rest));
  }

  lemma {:induction false} WorstRetry(s: State, e: QueuedEvent, job: JobId)
    requires s.worker.Receiving? && s.enabled && Regular(s.queue) && 0 < |s.queue| <= s.tokens
    requires IsCostliest(s.queue, e) && Allowed(e.event) && e.Marked() && job !in s.jobs
    ensures CanReach(s, s.tokens + Refills(s.queue), 0, map[])
    decreases |s.queue|, |UntriedRows(s.queue)|, 0
  {
    hide Refills;
    var rest := s.queue - {e.id};
    AfterRetry(s.queue, e);
    WorstCase(s.tokens - 1 + (|s.queue| - 1), rest);
    SecondPanic(s, e, job, s.tokens - 1 + (|s.queue| - 1) + Refills(rest));
  }

  lemma {:induction false} WorstDiscard(s: State, e: QueuedEvent)
    requires s.worker.Receiving? && s.enabled && Regular(s.queue) && 0 < |s.queue| <= s.tokens
    requires IsCostliest(s.queue, e) && !Allowed(e.event)
    ensures CanReach(s, s.tokens + Refills(s.queue), 0, map[])
    decreases |s.queue|, |UntriedRows(s.queue)|, 0
  {
    hide Refills;
    var rest := s.queue - {e.id};
    AfterDiscard(s.queue, e);
    WorstCase(s.tokens - 1, rest);
    DiscardRound(s, e, s.tokens - 1 + Refills(rest));
  }

  lemma AfterFirst(queue: Queue, e: QueuedEvent, job: JobId)
    requires Regular(queue) && IsNext(queue, e) && Untried(e)
    ensures var queue' := MarkRow(queue, e.id, job);
            && Regular(queue') && |queue'| == |queue| && |UntriedRows(queue')| < |UntriedRows(queue)|
            && Refills(queue) == |queue| + Refills(queue')
  {
    assert UntriedRows(MarkRow(queue, e.id, job)) == UntriedRows(queue) - {e.id};
    assert e.id in UntriedRows(queue);
    MarkKeepsSize(queue, e.id, job);
    MarkRefills(queue, e.id, job);
  }

  lemma AfterRetry(queue: Queue, e: QueuedEvent)
    requires Regular(queue) && IsCostliest(queue, e) && Allowed(e.event) && e.Marked()
    ensures var rest := queue - {e.id};
            Regular(rest) && |rest| == |queue| - 1 && Refills(queue) == |queue| - 1 + Refills(rest)
  {
    EvictRefills(queue, e.id);
  }

  lemma AfterDiscard(queue: Queue, e: QueuedEvent)
    requires Regular(queue) && IsCostliest(queue, e) && !Allowed(e.event)
    ensures var rest := queue - {e.id};
            Regular(rest) && |rest| == |queue| - 1 && Refills(queue) == Refills(rest)
  {
    RemoveOne(queue, e.id);
    DiscardRefills(queue, e.id);
  }

  // ----- The exact bound -----

  /** From `s` a drain can take exactly `n` tokens before the worker rests on an empty queue. */
  ghost predicate Attains(s: State, n: nat) {
    exists ss: seq<State>, steps: seq<Step> ::
      IsDrain(ss, steps) && ss[0] == s && Receipts(steps) == n && AtRest(ss[|steps|])
  }

  /** No drain from `s` takes more than `n` tokens. */
  ghost predicate AlwaysWithin(s: State, n: nat) {
    forall ss: seq<State>, steps: seq<Step> :: IsDrain(ss, steps) && ss[0] == s ==> Receipts(steps) <= n
  }

  lemma OnwardAttains(s: State, t: nat, n: nat)
    requires Waits(s, t, s.queue) && Onward(t, s.queue, n)
    ensures Attains(s, n)
  {
    assert CanReach(s, n, 0, map[]);
    var steps, s' :| Path(s, steps, s') && Receipts(steps) == n && Waits(s', 0, map[]);
    PathIsDrain(s, steps, s');
  }

  lemma AttainedIsLeast(s: State, n: nat, bound: nat)
    requires Attains(s, n) && AlwaysWithin(s, bound)
    ensures n <= bound
  {
    var ss: seq<State>, steps: seq<Step> :|
      IsDrain(ss, steps) && ss[0] == s && Receipts(steps) == n && AtRest(ss[|steps|]);
  }

  lemma AlwaysWithinLoad(s: State)
    requires Quiet(s)
    ensures AlwaysWithin(s, Load(s))
  {
    forall ss: seq<State>, steps: seq<Step> | IsDrain(ss, steps) && ss[0] == s
      ensures Receipts(steps) <= Load(s)
    {
      QuietDrain(ss, steps);
    }
  }

  lemma RowsAreRegular(s: State)
    requires Quiet(s) && s.worker.Receiving?
    ensures Regular(s.queue) && |s.queue| <= s.tokens
  {
  }

  /**
   The exact bound. From every state in which the worker waits and nobody is enqueuing,
   whatever is queued: some drain takes exactly the tokens in the channel plus `Refills`
   before it comes to rest, and none takes more.
   */
  lemma DrainBoundIsExact(s: State)
    requires Quiet(s) && s.worker.Receiving?
    ensures Attains(s, s.tokens + Refills(s.queue))
    ensures AlwaysWithin(s, s.tokens + Refills(s.queue))
  {
    RowsAreRegular(s);
    WorstCase(s.tokens, s.queue);
    OnwardAttains(s, s.tokens, s.tokens + Refills(s.queue));
    AlwaysWithinLoad(s);
    assert Load(s) == s.tokens + Refills(s.queue);
  }

  lemma WithinExactly(s: State, bound: nat)
    requires Quiet(s) && s.worker.Receiving?
    ensures AlwaysWithin(s, bound) <==> s.tokens + Refills(s.queue) <= bound
  {
    DrainBoundIsExact(s);
    if AlwaysWithin(s, bound) {
      AttainedIsLeast(s, s.tokens + Refills(s.queue), bound);
    }
  }

  /** t + m * m, for t tokens and m rows. */
  function SquareBound(s: State): nat { s.tokens + Squared(|s.queue|) }

  function Squared(m: nat): nat { m * m }

  ghost predicate AllAllowed(queue: Queue) {
    forall id :: id in queue ==> Allowed(queue[id].event)
  }

  lemma IdleRefills(s: State)
    requires Idle(s) && AllAllowed(s.queue)
    ensures Refills(s.queue) == Squared(|s.queue|) + TiedPairs(s.queue)
  {
    UntriedRefills(s.queue);
  }

  /**
   With t tokens and m untried rows of allowed events, the exact bound is t + m * m plus the
   number of pairs with equal timestamps. So every drain stays within t + m * m if and only
   if all timestamps are distinct.
   */
  lemma SquareBoundNeedsDistinctStamps(s: State)
    requires Idle(s) && AllAllowed(s.queue)
    ensures Attains(s, SquareBound(s) + TiedPairs(s.queue))
    ensures AlwaysWithin(s, SquareBound(s) + TiedPairs(s.queue))
    ensures AlwaysWithin(s, SquareBound(s)) <==> DistinctStamps(s.queue)
  {
    DrainBoundIsExact(s);
    IdleRefills(s);
    NoTiesMeansDistinct(s.queue);
    WithinExactly(s, SquareBound(s));
  }

  /** Rows of forbidden events only lower the cost: distinct timestamps still suffice. */
  lemma DistinctStampsSuffice(s: State)
    requires Idle(s) && DistinctStamps(s.queue)
    ensures AlwaysWithin(s, SquareBound(s))
  {
    IdleLoad(s);
    AlwaysWithinLoad(s);
  }
}
