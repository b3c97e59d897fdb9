/** The reporting end of a pull request run: update the registered comment, or create one. */
module PrReporter {
  import opened Prelude
  import opened CommentModel
  import opened Database

  class Reporter {
    const db: Db
    /** The comments on GitHub. */
    var comments: map<CommentId, Comment>

    constructor (db: Db)
      ensures this.db == db && comments == map[]
    {
      this.db := db;
      comments := map[];
    }

    ghost function View(): World reads this, db {
      World(db.resultComments, comments)
    }

    /** Returns whether the registered comment was updated. */
    method TryUpdateComment(pr: PrNumber, body: string, calls: Calls) returns (updated: bool)
      modifies this`comments
      ensures forall newId :: var run := PrRun(pr, body, calls, newId);
                updated == Updates(old(View()), run)
                && (updated ==> View() == Report(old(View()), run)) && (!updated ==> View() == old(View()))
    {
      if !calls.lookupOk {
        return false;
      }
      var comment := db.ResultCommentId(pr);
      if comment.None? || !calls.updateOk || comment.value !in comments {
        return false;
      }
      comments := comments[comment.value := Comment(pr, body)];
      return true;
    }

    method BenchPr(run: PrRun) returns (ok: bool)
      modifies this`comments, db`resultComments
      ensures View() == Report(old(View()), run) && ok == ReturnsOk(old(View()), run)
    {
      var updated := TryUpdateComment(run.pr, run.body, run.calls);
      if !updated {
        // Fall back to creating a comment
        if !run.calls.createOk {
          return false;
        }
        comments := comments[run.newId := Comment(run.pr, run.body)];
        if !run.calls.storeOk {
          return false;
        }
        db.StoreResultCommentId(run.pr, run.newId);
      }
      return true;
    }
  }
}
