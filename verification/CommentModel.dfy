/** Reporting results in pull request comments, reusing one comment per pull request. */
module CommentModel {
  import opened Prelude

  type PrNumber = nat
  datatype CommentId = CommentId(id: nat)
  datatype Comment = Comment(pr: PrNumber, body: string)

  /** The registry table and the comments that exist on GitHub. */
  datatype World = World(registry: map<PrNumber, CommentId>, comments: map<CommentId, Comment>)

  /** Which of a run's calls succeed: registry lookup, update, creation, registry store. */
  datatype Calls = Calls(lookupOk: bool, updateOk: bool, createOk: bool, storeOk: bool)

  /** A benchmark run that reports `body` on `pr`; `newId` is what GitHub calls a comment it creates. */
  datatype PrRun = PrRun(pr: PrNumber, body: string, calls: Calls, newId: CommentId)

  /** The registered comment gets updated. */
  predicate Updates(w: World, run: PrRun) {
    run.calls.lookupOk && run.pr in w.registry && run.calls.updateOk && w.registry[run.pr] in w.comments
  }

  /** Updating fails and a comment gets created instead. */
  predicate Creates(w: World, run: PrRun) {
    !Updates(w, run) && run.calls.createOk
  }

  /** The reporting part of the run returns `Ok`. */
  predicate ReturnsOk(w: World, run: PrRun) {
    Updates(w, run) || (Creates(w, run) && run.calls.storeOk)
  }

  function Report(w: World, run: PrRun): World {
    if Updates(w, run) then w.(comments := w.comments[w.registry[run.pr] := Comment(run.pr, run.body)])
    else if !Creates(w, run) then w
    else
      var created := w.(comments := w.comments[run.newId := Comment(run.pr, run.body)]);
      if run.calls.storeOk then created.(registry := w.registry[run.pr := run.newId]) else created
  }

  const EMPTY: World := World(map[], map[])

  function After(runs: seq<PrRun>, n: nat): World
    requires n <= |runs|
  {
    if n == 0 then EMPTY else Report(After(runs, n - 1), runs[n - 1])
  }

  /** GitHub never reuses a comment id. */
  ghost predicate FreshComments(runs: seq<PrRun>) {
    forall i, j :: 0 <= i < j < |runs| ==> runs[i].newId != runs[j].newId
  }

  /** Told from the calls: run `i` is on a registered pull request and both reading and updating work. */
  predicate ReusesAt(runs: seq<PrRun>, i: nat)
    requires i < |runs|
  {
    runs[i].pr in After(runs, i).registry && runs[i].calls.lookupOk && runs[i].calls.updateOk
  }

  /** Told from the calls: run `i` has nothing it can update, and creating a comment works. */
  predicate FallsBackAt(runs: seq<PrRun>, i: nat)
    requires i < |runs|
  {
    !ReusesAt(runs, i) && runs[i].calls.createOk
  }

  /** Told from the calls: run `i` is on `pr` and reports its result there. */
  predicate OkAt(runs: seq<PrRun>, i: nat, pr: PrNumber)
    requires i < |runs|
  {
    runs[i].pr == pr && (ReusesAt(runs, i) || (runs[i].calls.createOk && runs[i].calls.storeOk))
  }

  /** The body reported by the latest of the first `n` runs on `pr` that returned `Ok`. */
  function LatestOk(runs: seq<PrRun>, n: nat, pr: PrNumber): Option<string>
    requires n <= |runs|
  {
    if n == 0 then None
    else if OkAt(runs, n - 1, pr) then Some(runs[n - 1].body)
    else LatestOk(runs, n - 1, pr)
  }

  /** Comments that exist for `pr`. */
  function CommentsOn(w: World, pr: PrNumber): set<CommentId> {
    set id | id in w.comments && w.comments[id].pr == pr
  }

  /** Runs on `pr`, from the `a`-th up to the `b`-th, that fell back to creating a comment. */
  function Creations(runs: seq<PrRun>, a: nat, b: nat, pr: PrNumber): nat
    requires a <= b <= |runs|
    decreases b - a
  {
    if a == b then 0 else
      Creations(runs, a, b - 1, pr) + (if runs[b - 1].pr == pr && FallsBackAt(runs, b - 1) then 1 else 0)
  }

  /** Registered comments exist and belong to the pull request they are registered for. */
  ghost predicate Sound(w: World) {
    forall pr :: pr in w.registry ==> w.registry[pr] in w.comments && w.comments[w.registry[pr]].pr == pr
  }

  lemma {:induction false} CommentsComeFromRuns(runs: seq<PrRun>, n: nat)
    requires n <= |runs|
    ensures forall id :: id in After(runs, n).comments ==> exists i :: 0 <= i < n && runs[i].newId == id
  {
    if n > 0 {
      CommentsComeFromRuns(runs, n - 1);
      forall id | id in After(runs, n).comments ensures exists i :: 0 <= i < n && runs[i].newId == id {
        if id in After(runs, n - 1).comments {
          var i :| 0 <= i < n - 1 && runs[i].newId == id;
        } else {
          assert runs[n - 1].newId == id;
        }
      }
    }
  }

  lemma {:induction false} NewCommentIsFresh(runs: seq<PrRun>, n: nat)
    requires n < |runs| && FreshComments(runs)
    ensures runs[n].newId !in After(runs, n).comments
  {
    CommentsComeFromRuns(runs, n);
  }

  lemma {:induction false} AlwaysSound(runs: seq<PrRun>, n: nat)
    requires n <= |runs| && FreshComments(runs)
    ensures Sound(After(runs, n))
  {
    if n > 0 {
      AlwaysSound(runs, n - 1);
      NewCommentIsFresh(runs, n - 1);
    }
  }

  /** What the model of a run does is what the outcomes of its calls say. */
  lemma {:induction false} RunByCalls(runs: seq<PrRun>, n: nat)
    requires n < |runs| && FreshComments(runs)
    ensures Updates(After(runs, n), runs[n]) <==> ReusesAt(runs, n)
    ensures Creates(After(runs, n), runs[n]) <==> FallsBackAt(runs, n)
    ensures ReturnsOk(After(runs, n), runs[n]) <==> OkAt(runs, n, runs[n].pr)
  {
    AlwaysSound(runs, n);
  }

  /**
   Reuse. A run on a pull request with a registered comment, with reading and updating working,
   creates nothing: same registry, same comments, the registered one showing the run's body and all
   others untouched. Any other run adds one new comment with its body if and only if creating
   works, and registers it if and only if storing works too.
   */
  lemma RegisteredCommentIsReused(runs: seq<PrRun>, n: nat)
    requires n < |runs| && FreshComments(runs)
    ensures var w, w', run := After(runs, n), After(runs, n + 1), runs[n];
            if run.pr in w.registry && run.calls.lookupOk && run.calls.updateOk then
              && w'.registry == w.registry && w'.comments.Keys == w.comments.Keys
              && w.registry[run.pr] in w'.comments && w'.comments[w.registry[run.pr]] == Comment(run.pr, run.body)
              && forall id :: id in w.comments && id != w.registry[run.pr] ==> w'.comments[id] == w.comments[id]
            else
              && run.newId !in w.comments
              && w'.comments.Keys == w.comments.Keys + (if run.calls.createOk then {run.newId} else {})
              && (run.calls.createOk ==> w'.comments[run.newId] == Comment(run.pr, run.body))
              && (forall id :: id in w.comments ==> w'.comments[id] == w.comments[id])
              && w'.registry ==
                 if run.calls.createOk && run.calls.storeOk then w.registry[run.pr := run.newId] else w.registry
  {
    AlwaysSound(runs, n);
    NewCommentIsFresh(runs, n);
  }

  /**
   Over any sequence of runs, whatever calls fail: a pull request has a registered comment
   exactly when some run on it returned `Ok`; that comment exists, belongs to the pull
   request and shows the latest such run.
   */
  lemma {:induction false} RegisteredShowsLatest(runs: seq<PrRun>, n: nat, pr: PrNumber)
    requires n <= |runs| && FreshComments(runs)
    ensures var w := After(runs, n);
            && (pr in w.registry <==> LatestOk(runs, n, pr).Some?)
            && (pr in w.registry ==>
                  && w.registry[pr] in w.comments
                  && w.comments[w.registry[pr]] == Comment(pr, LatestOk(runs, n, pr).value))
  {
    if n > 0 {
      RegisteredShowsLatest(runs, n - 1, pr);
      RunByCalls(runs, n - 1);
      AlwaysSound(runs, n - 1);
      NewCommentIsFresh(runs, n - 1);
      var w, run := After(runs, n - 1), runs[n - 1];
      if run.pr != pr && Updates(w, run) && pr in w.registry {
        assert w.comments[w.registry[run.pr]].pr == run.pr;
        assert w.registry[run.pr] != w.registry[pr];
      }
    }
  }

  lemma ReportAddsAtMostOne(w: World, run: PrRun, pr: PrNumber)
    requires Sound(w) && run.newId !in w.comments
    ensures CommentsOn(Report(w, run), pr) ==
            CommentsOn(w, pr) + (if run.pr == pr && Creates(w, run) then {run.newId} else {})
  {
  }

  lemma {:induction false} CommentsCount(runs: seq<PrRun>, n: nat, pr: PrNumber)
    requires n <= |runs| && FreshComments(runs)
    ensures |CommentsOn(After(runs, n), pr)| == Creations(runs, 0, n, pr)
  {
    if n == 0 {
      assert CommentsOn(After(runs, 0), pr) == {};
    } else {
      CommentsCount(runs, n - 1, pr);
      AlwaysSound(runs, n - 1);
      NewCommentIsFresh(runs, n - 1);
      RunByCalls(runs, n - 1);
      ReportAddsAtMostOne(After(runs, n - 1), runs[n - 1], pr);
    }
  }

  lemma {:induction false} CreationsSplit(runs: seq<PrRun>, a: nat, b: nat, c: nat, pr: PrNumber)
    requires a <= b <= c <= |runs|
    ensures Creations(runs, a, c, pr) == Creations(runs, a, b, pr) + Creations(runs, b, c, pr)
    decreases c - b
  {
    if b < c {
      CreationsSplit(runs, a, b, c - 1, pr);
    }
  }

  /** Every comment the first `f` runs created for `pr` could be registered. */
  ghost predicate Registers(runs: seq<PrRun>, f: nat, pr: PrNumber)
    requires f <= |runs|
  {
    forall i :: 0 <= i < f && runs[i].pr == pr && FallsBackAt(runs, i) ==> runs[i].calls.storeOk
  }

  /** Before any run returned `Ok`, a creation can only have failed to be registered. */
  lemma {:induction false} OrphansBeforeFirstOk(runs: seq<PrRun>, f: nat, pr: PrNumber)
    requires f <= |runs| && forall i :: 0 <= i < f ==> !OkAt(runs, i, pr)
    ensures Creations(runs, 0, f, pr) == 0 <==> Registers(runs, f, pr)
  {
    if f > 0 {
      OrphansBeforeFirstOk(runs, f - 1, pr);
      assert !OkAt(runs, f - 1, pr);
    }
  }

  lemma {:induction false} NoOkMeansNone(runs: seq<PrRun>, f: nat, pr: PrNumber)
    requires f <= |runs| && forall i :: 0 <= i < f ==> !OkAt(runs, i, pr)
    ensures LatestOk(runs, f, pr) == None
  {
    if f > 0 {
      NoOkMeansNone(runs, f - 1, pr);
    }
  }

  /**
   Once a run on a pull request has returned `Ok` (the first of them being the `f`-th run), the
   pull request has the comments whose registration failed before, one more, and one for each
   later run that fell back to creating a comment. So it has one comment plus the later
   fallbacks exactly when every comment created before the `f`-th run could be registered.
   */
  lemma {:induction false} OneCommentPlusFallbacks(runs: seq<PrRun>, n: nat, f: nat, pr: PrNumber)
    requires f < n <= |runs| && FreshComments(runs)
    requires OkAt(runs, f, pr) && forall i :: 0 <= i < f ==> !OkAt(runs, i, pr)
    ensures |CommentsOn(After(runs, n), pr)| ==
            |CommentsOn(After(runs, f), pr)| + 1 + Creations(runs, f + 1, n, pr)
    ensures |CommentsOn(After(runs, n), pr)| == 1 + Creations(runs, f + 1, n, pr) <==> Registers(runs, f, pr)
  {
    CommentsCount(runs, f, pr);
    CommentsCount(runs, n, pr);
    OrphansBeforeFirstOk(runs, f, pr);
    NoOkMeansNone(runs, f, pr);
    RegisteredShowsLatest(runs, f, pr);
    CreationsSplit(runs, 0, f + 1, n, pr);
  }
}
