/** The strongly-typed database interface: each method's effect on the tables, and nothing else. */
module Database {
  import opened Prelude
  import opened Results
  import opened QueueModel
  import opened ComparisonStore
  import opened RunHistory
  import opened Sorting
  import opened CommentModel

  class Db {
    var eventQueue: map<EventId, QueuedEvent>
    var jobs: map<JobId, BenchJob>
    var benchRuns: seq<BenchRun>
    var benchResults: seq<ResultRow>
    var comparisonRuns: seq<ComparisonRun>
    var scenarioDiffs: seq<DiffRow>
    var resultComments: map<PrNumber, CommentId>

    constructor ()
      ensures eventQueue == map[] && jobs == map[] && benchRuns == [] && benchResults == []
      ensures comparisonRuns == [] && scenarioDiffs == [] && resultComments == map[]
    {
      eventQueue, jobs, benchRuns, benchResults := map[], map[], [], [];
      comparisonRuns, scenarioDiffs, resultComments := [], [], map[];
    }

    ghost function History(): HistoryTables reads this {
      HistoryTables(benchRuns, benchResults)
    }

    ghost function Comparisons(): Tables reads this {
      Tables(comparisonRuns, scenarioDiffs)
    }

    // ----- Event queue and jobs -----

    method EnqueueEvent(id: EventId, now: Instant, event: string, payload: seq<Byte>)
      requires id !in eventQueue
      modifies this`eventQueue
      ensures eventQueue == old(eventQueue)[id := QueuedEvent(id, None, event, payload, now)]
    {
      eventQueue := eventQueue[id := QueuedEvent(id, None, event, payload, now)];
    }

    /** The earliest row, or nothing when there is no row to fetch. */
    method NextQueuedEvent() returns (next: Option<QueuedEvent>)
      requires forall id :: id in eventQueue ==> eventQueue[id].id == id
      ensures next == None <==> eventQueue == map[]
      ensures next.Some? ==> IsNext(eventQueue, next.value)
    {
      next := None;
      var left := eventQueue.Keys;
      while left != {}
        invariant left <= eventQueue.Keys
        invariant next == None <==> left == eventQueue.Keys
        invariant next.Some? ==> next.value.id in eventQueue && eventQueue[next.value.id] == next.value
        invariant next.Some? ==>
                    forall id :: id in eventQueue && id !in left ==> next.value.created <= eventQueue[id].created
        decreases left
      {
        var id :| id in left;
        left := left - {id};
        if next.None? || eventQueue[id].created < next.value.created {
          next := Some(eventQueue[id]);
        }
      }
    }

    method QueuedEventCount() returns (count: nat)
      ensures count == |eventQueue|
    {
      count := |eventQueue|;
    }

    method DeleteEvent(id: EventId)
      modifies this`eventQueue
      ensures eventQueue == old(eventQueue) - {id}
    {
      eventQueue := eventQueue - {id};
    }

    /** Inserts the job and marks the event's row, if it is still there, in one transaction. */
    method NewJobForEvent(job: JobId, eventId: EventId, eventCreated: Instant, now: Instant)
      requires job !in jobs
      modifies this`eventQueue, this`jobs
      ensures jobs == old(jobs)[job := BenchJob(eventCreated, now, None, None)]
      ensures eventQueue == MarkRow(old(eventQueue), eventId, job)
    {
      jobs := jobs[job := BenchJob(eventCreated, now, None, None)];
      if eventId in eventQueue {
        eventQueue := eventQueue[eventId := eventQueue[eventId].(jobId := Some(job))];
      }
    }

    method JobFinished(job: JobId, success: bool, now: Instant)
      modifies this`jobs
      ensures jobs == CloseJob(old(jobs), job, now, success)
    {
      if job in jobs {
        jobs := jobs[job := jobs[job].(finished := Some(now), success := Some(success))];
      }
    }

    method MaybeJob(job: JobId) returns (row: Option<BenchJob>)
      ensures row == if job in jobs then Some(jobs[job]) else None
    {
      row := if job in jobs then Some(jobs[job]) else None;
    }

    // ----- Results of the main branch -----

    method StoreRunResults(id: RunId, now: Instant, results: seq<BenchResult>)
      modifies this`benchRuns, this`benchResults
      ensures History() == StoreRun(old(History()), RunCall(id, now, results))
    {
      benchRuns := benchRuns + [BenchRun(id, now)];
      for i := 0 to |results|
        invariant benchRuns == old(benchRuns) + [BenchRun(id, now)]
        invariant benchResults == old(benchResults) + RowsFor(id, results)[..i]
      {
        assert RowsFor(id, results)[..i + 1] == RowsFor(id, results)[..i] + [ResultRow(id, results[i])];
        benchResults := benchResults + [ResultRow(id, results[i])];
      }
      assert RowsFor(id, results)[..|results|] == RowsFor(id, results);
    }

    method ResultHistory(cutoff: Instant) returns (history: seq<BenchResult>)
      ensures history == RunHistory.History(History(), cutoff)
    {
      var runs := Sort(Recent(benchRuns, cutoff), EarlierFirst);
      history := [];
      for i := 0 to |runs|
        invariant history + Joined(runs[i..], benchResults) == Joined(runs, benchResults)
      {
        assert runs[i..][1..] == runs[i + 1..];
        history := history + ResultsOf(benchResults, runs[i].id);
      }
    }

    // ----- Comparisons -----

    method StoreComparisonResult(id: RunId, baselineCommit: string, candidateCommit: string, result: ComparisonResult)
      modifies this`comparisonRuns, this`scenarioDiffs
      ensures Comparisons() == Store(old(Comparisons()), StoreCall(id, baselineCommit, candidateCommit, result))
    {
      var run := RunRow(id, baselineCommit, candidateCommit, result);
      comparisonRuns := comparisonRuns + [run];
      var diffs := result.icount.diffs + result.walltime.diffs + result.memory.diffs;
      for i := 0 to |diffs|
        invariant comparisonRuns == old(comparisonRuns) + [run]
        invariant scenarioDiffs == old(scenarioDiffs) + Rows(id, diffs)[..i]
      {
        assert Rows(id, diffs)[..i + 1] == Rows(id, diffs)[..i] + [DiffRow(id, diffs[i])];
        scenarioDiffs := scenarioDiffs + [DiffRow(id, diffs[i])];
      }
      assert Rows(id, diffs)[..|diffs|] == Rows(id, diffs);
    }

    method LoadComparisonResult(baselineCommit: string, candidateCommit: string) returns (out: Option<ComparisonResult>)
      ensures Loads(Comparisons(), baselineCommit, candidateCommit, out)
    {
      for i := 0 to |comparisonRuns|
        invariant forall k :: 0 <= k < i ==> !comparisonRuns[k].For(baselineCommit, candidateCommit)
      {
        var run := comparisonRuns[i];
        if run.For(baselineCommit, candidateCommit) {
          var result := ComparisonResult(
            ComparisonSubResult(DiffsOf(scenarioDiffs, run.id, Icount), FromJsonArray(run.icountMissing), None),
            ComparisonSubResult(DiffsOf(scenarioDiffs, run.id, Walltime), FromJsonArray(run.walltimeMissing), None),
            ComparisonSubResult(DiffsOf(scenarioDiffs, run.id, Memory), FromJsonArray(run.memoryMissing), None));
          assert LoadsRun(Comparisons(), run, result);
          return Some(result);
        }
      }
      return None;
    }

    // ----- Comment registry -----

    method StoreResultCommentId(pr: PrNumber, comment: CommentId)
      modifies this`resultComments
      ensures resultComments == old(resultComments)[pr := comment]
    {
      resultComments := resultComments[pr := comment];
    }

    method ResultCommentId(pr: PrNumber) returns (comment: Option<CommentId>)
      ensures comment == if pr in resultComments then Some(resultComments[pr]) else None
    {
      comment := if pr in resultComments then Some(resultComments[pr]) else None;
    }
  }
}
