/**
 How many tokens restarts can still add, told from the queue table alone.

 The worker can go down twice on account of an allowed event: while it is handled for the
 first time, with its row still there, and while it is retried, with its row gone. Each time
 the restart adds one token per row in the table.
 */
module QueueCost {
  import opened Prelude
  import opened QueueModel
  import opened QueueRuns

  type Queue = map<EventId, QueuedEvent>
  type Pairs = set<(EventId, EventId)>

  /** The event's first handling is still to come. */
  predicate Untried(e: QueuedEvent) {
    Allowed(e.event) && !e.Marked()
  }

  /** Pairs of an untried row and a row still there when it is handled for the first time. */
  ghost function FirstPairs(queue: Queue): Pairs {
    set x, y | x in queue && y in queue && Untried(queue[x]) && queue[x].created <= queue[y].created :: (x, y)
  }

  /** Pairs of an allowed row and a forbidden one still there when it is retried. */
  ghost function LatePairs(queue: Queue): Pairs {
    set x, y | x in queue && y in queue && Allowed(queue[x].event) && !Allowed(queue[y].event)
               && queue[x].created <= queue[y].created :: (x, y)
  }

  ghost function AllowedRows(queue: Queue): set<EventId> {
    set id | id in queue && Allowed(queue[id].event)
  }

  ghost function ForbiddenRows(queue: Queue): set<EventId> {
    set id | id in queue && !Allowed(queue[id].event)
  }

  /** 0 + 1 + ... + (k - 1), the number of pairs among k rows. */
  function Triangle(k: nat): nat {
    if k == 0 then 0 else k - 1 + Triangle(k - 1)
  }

  /**
   The most tokens restarts can still add: one for each row that is there during a first
   handling, and one for each row that is there during a retry. Of two allowed rows one is
   retried first, with the other still there.
   */
  ghost function Refills(queue: Queue): nat {
    |FirstPairs(queue)| + |LatePairs(queue)| + Triangle(|AllowedRows(queue)|)
  }

  /** No row has an earlier timestamp. */
  ghost predicate IsEarliest(queue: Queue, id: EventId) {
    id in queue && forall y :: y in queue ==> queue[id].created <= queue[y].created
  }

  // ----- Counting pairs -----

  ghost function RowOf(x: EventId, ys: set<EventId>): Pairs {
    set y | y in ys :: (x, y)
  }

  lemma {:induction false} RowSize(x: EventId, ys: set<EventId>)
    ensures |RowOf(x, ys)| == |ys|
  {
    if ys != {} {
      var y :| y in ys;
      RowSize(x, ys - {y});
      assert RowOf(x, ys) == RowOf(x, ys - {y}) + {(x, y)};
    }
  }

  lemma SubsetSize<T>(a: set<T>, b: set<T>)
    requires a <= b
    ensures |a| <= |b|
  {
    assert b == a + (b - a);
  }

  lemma AllowedOrForbidden(queue: Queue)
    ensures |AllowedRows(queue)| + |ForbiddenRows(queue)| == |queue|
  {
    assert queue.Keys == AllowedRows(queue) + ForbiddenRows(queue);
    assert |queue.Keys| == |queue|;
  }

  lemma {:induction false} TriangleGrows(a: nat, b: nat)
    requires a <= b
    ensures Triangle(a) <= Triangle(b)
  {
    if a < b {
      TriangleGrows(a, b - 1);
    }
  }

  // ----- What each write does -----

  lemma FirstAfterMark(queue: Queue, id: EventId, job: JobId)
    requires IsEarliest(queue, id) && Untried(queue[id])
    ensures |FirstPairs(queue)| == |queue| + |FirstPairs(MarkRow(queue, id, job))|
  {
    var before, after, mine := FirstPairs(queue), FirstPairs(MarkRow(queue, id, job)), RowOf(id, queue.Keys);
    forall x, y ensures (x, y) in before <==> (x, y) in after || (x, y) in mine {
      assert x != id && x in queue ==> MarkRow(queue, id, job)[x] == queue[x];
    }
    assert before == after + mine;
    assert after !! mine;
    RowSize(id, queue.Keys);
    assert |queue.Keys| == |queue|;
  }

  lemma OthersAfterMark(queue: Queue, id: EventId, job: JobId)
    ensures LatePairs(MarkRow(queue, id, job)) == LatePairs(queue)
    ensures AllowedRows(MarkRow(queue, id, job)) == AllowedRows(queue)
  {
  }

  /** Handling an earliest untried row for the first time uses up one refill per row. */
  lemma MarkRefills(queue: Queue, id: EventId, job: JobId)
    requires IsEarliest(queue, id) && Untried(queue[id])
    ensures Refills(queue) == |queue| + Refills(MarkRow(queue, id, job))
  {
    FirstAfterMark(queue, id, job);
    OthersAfterMark(queue, id, job);
  }

  lemma MarkedBy(queue: Queue, id: EventId, j1: JobId, j2: JobId)
    ensures Refills(MarkRow(queue, id, j1)) == Refills(MarkRow(queue, id, j2))
  {
    var a, b := MarkRow(queue, id, j1), MarkRow(queue, id, j2);
    assert FirstPairs(a) == FirstPairs(b);
    assert LatePairs(a) == LatePairs(b);
    assert AllowedRows(a) == AllowedRows(b);
  }

  lemma MarkKeepsSize(queue: Queue, id: EventId, job: JobId)
    ensures |MarkRow(queue, id, job)| == |queue|
  {
    if id in queue {
      InsertOne(queue, id, queue[id].(jobId := Some(job)));
    }
  }

  lemma LateAfterEvict(queue: Queue, id: EventId)
    requires IsEarliest(queue, id) && Allowed(queue[id].event)
    ensures |LatePairs(queue)| == |LatePairs(queue - {id})| + |ForbiddenRows(queue)|
  {
    assert LatePairs(queue) == LatePairs(queue - {id}) + RowOf(id, ForbiddenRows(queue));
    assert LatePairs(queue - {id}) !! RowOf(id, ForbiddenRows(queue));
    RowSize(id, ForbiddenRows(queue));
  }

  /** The untried rows all come later. */
  ghost predicate UntriedAreLater(queue: Queue, id: EventId)
    requires id in queue
  {
    forall x :: x in queue && Untried(queue[x]) ==> queue[id].created < queue[x].created
  }

  lemma FirstAfterEvict(queue: Queue, id: EventId)
    requires id in queue && !Untried(queue[id])
    ensures |FirstPairs(queue - {id})| <= |FirstPairs(queue)|
    ensures UntriedAreLater(queue, id) ==> |FirstPairs(queue - {id})| == |FirstPairs(queue)|
  {
    SubsetSize(FirstPairs(queue - {id}), FirstPairs(queue));
    if UntriedAreLater(queue, id) {
      assert FirstPairs(queue - {id}) == FirstPairs(queue);
    }
  }

  /** Retrying an earliest row uses up one refill for every other row. */
  lemma EvictRefills(queue: Queue, id: EventId)
    requires IsEarliest(queue, id) && Allowed(queue[id].event) && queue[id].Marked()
    ensures |queue - {id}| == |queue| - 1
    ensures |queue - {id}| + Refills(queue - {id}) <= Refills(queue)
    ensures UntriedAreLater(queue, id) ==> |queue - {id}| + Refills(queue - {id}) == Refills(queue)
  {
    RemoveOne(queue, id);
    LateAfterEvict(queue, id);
    FirstAfterEvict(queue, id);
    AllowedOrForbidden(queue);
    assert AllowedRows(queue - {id}) == AllowedRows(queue) - {id};
  }

  /** A row that goes without a restart adds no refills. */
  lemma DropRefills(queue: Queue, id: EventId)
    ensures Refills(queue - {id}) <= Refills(queue)
  {
    SubsetSize(FirstPairs(queue - {id}), FirstPairs(queue));
    SubsetSize(LatePairs(queue - {id}), LatePairs(queue));
    SubsetSize(AllowedRows(queue - {id}), AllowedRows(queue));
    TriangleGrows(|AllowedRows(queue - {id})|, |AllowedRows(queue)|);
  }

  /** Discarding a forbidden row before any allowed one loses nothing. */
  lemma DiscardRefills(queue: Queue, id: EventId)
    requires id in queue && !Allowed(queue[id].event)
    requires forall x :: x in queue && Allowed(queue[x].event) ==> queue[id].created < queue[x].created
    ensures Refills(queue - {id}) == Refills(queue)
  {
    assert FirstPairs(queue - {id}) == FirstPairs(queue);
    assert LatePairs(queue - {id}) == LatePairs(queue);
    assert AllowedRows(queue - {id}) == AllowedRows(queue);
  }

  // ----- How large it is -----

  /** The ordered pairs of different rows with equal timestamps. */
  ghost function Ties(queue: Queue): Pairs {
    set x, y | x in queue && y in queue && x != y && queue[x].created == queue[y].created :: (x, y)
  }

  /** Unordered pairs of rows with equal timestamps: `Ties` has each of them in both orders. */
  ghost function TiedPairs(queue: Queue): nat {
    |Ties(queue)| / 2
  }

  predicate DistinctStamps(queue: Queue) {
    forall x, y :: x in queue && y in queue && queue[x].created == queue[y].created ==> x == y
  }

  ghost function OrderedPairs(queue: Queue): Pairs {
    set x, y | x in queue && y in queue && queue[x].created <= queue[y].created :: (x, y)
  }

  ghost function Product(xs: set<EventId>, ys: set<EventId>): Pairs {
    set x, y | x in xs && y in ys :: (x, y)
  }

  lemma {:induction false} ProductSize(xs: set<EventId>, ys: set<EventId>)
    ensures |Product(xs, ys)| == |xs| * |ys|
  {
    if xs == {} {
      assert Product(xs, ys) == {};
    } else {
      var x :| x in xs;
      ProductSize(xs - {x}, ys);
      RowSize(x, ys);
      assert Product(xs, ys) == Product(xs - {x}, ys) + RowOf(x, ys);
      assert |xs - {x}| == |xs| - 1;
      OneRowMore(|xs|, |ys|);
    }
  }

  lemma OneRowMore(m: nat, n: nat)
    requires m > 0
    ensures (m - 1) * n + n == m * n
  {
  }

  ghost function Swapped(pairs: Pairs): Pairs {
    set p | p in pairs :: (p.1, p.0)
  }

  lemma {:induction false} SwappedSize(pairs: Pairs)
    ensures |Swapped(pairs)| == |pairs|
  {
    if pairs != {} {
      var p :| p in pairs;
      SwappedSize(pairs - {p});
      assert Swapped(pairs) == Swapped(pairs - {p}) + {(p.1, p.0)};
    }
  }

  ghost function Diagonal(xs: set<EventId>): Pairs {
    set x | x in xs :: (x, x)
  }

  lemma {:induction false} DiagonalSize(xs: set<EventId>)
    ensures |Diagonal(xs)| == |xs|
  {
    if xs != {} {
      var x :| x in xs;
      DiagonalSize(xs - {x});
      assert Diagonal(xs) == Diagonal(xs - {x}) + {(x, x)};
    }
  }

  /** Of two rows, one is not later than the other, and both are exactly when they tie. */
  lemma OrderedPairsCount(queue: Queue)
    ensures 2 * |OrderedPairs(queue)| == |queue| * |queue| + |queue| + |Ties(queue)|
  {
    var forwards, backwards := OrderedPairs(queue), Swapped(OrderedPairs(queue));
    var both := Ties(queue) + Diagonal(queue.Keys);
    assert |queue.Keys| == |queue|;
    ProductSize(queue.Keys, queue.Keys);
    SwappedSize(forwards);
    DiagonalSize(queue.Keys);
    Backwards(queue);
    assert forwards + backwards == Product(queue.Keys, queue.Keys);
    assert forwards * backwards == both;
    assert Ties(queue) !! Diagonal(queue.Keys);
    UnionSize(forwards, backwards);
  }

  lemma Backwards(queue: Queue)
    ensures forall x, y :: (x, y) in Swapped(OrderedPairs(queue)) <==>
              x in queue && y in queue && queue[y].created <= queue[x].created
  {
    forall x, y ensures (x, y) in Swapped(OrderedPairs(queue)) <==> (y, x) in OrderedPairs(queue) {
      if (y, x) in OrderedPairs(queue) {
        var p := (y, x);
        assert (p.1, p.0) == (x, y);
      }
    }
  }

  lemma UnionSize<T>(a: set<T>, b: set<T>)
    ensures |a + b| + |a * b| == |a| + |b|
  {
  }

  lemma {:induction false} TriangleDoubled(k: nat)
    ensures 2 * Triangle(k) == k * k - k
  {
    if k > 0 {
      TriangleDoubled(k - 1);
      assert (k - 1) * (k - 1) == k * k - 2 * k + 1;
    }
  }

  lemma {:induction false} RefillsArithmetic(first: nat, late: nat, a: nat, f: nat, ties: nat)
    requires 2 * first <= (a + f) * (a + f) + (a + f) + ties && late <= a * f
    ensures first + late + Triangle(a) <= (a + f) * (a + f) + ties / 2
    ensures f == 0 && 2 * first == a * a + a + ties ==> first + Triangle(a) == a * a + ties / 2
  {
    TriangleDoubled(a);
    TriangleDoubled(f);
    assert (a + f) * (a + f) == a * a + 2 * (a * f) + f * f;
  }

  /** m rows cost at most m * m refills plus one per tied pair. */
  lemma RefillsBound(queue: Queue)
    ensures Refills(queue) <= |queue| * |queue| + TiedPairs(queue)
  {
    AllowedOrForbidden(queue);
    OrderedPairsCount(queue);
    SubsetSize(FirstPairs(queue), OrderedPairs(queue));
    LateBound(queue);
    RefillsArithmetic(|FirstPairs(queue)|, |LatePairs(queue)|,
                      |AllowedRows(queue)|, |ForbiddenRows(queue)|, |Ties(queue)|);
  }

  /** Exactly that many if all are untried. */
  lemma UntriedRefills(queue: Queue)
    requires forall id :: id in queue ==> Untried(queue[id])
    ensures Refills(queue) == |queue| * |queue| + TiedPairs(queue)
  {
    OrderedPairsCount(queue);
    AllUntried(queue);
    RefillsArithmetic(|FirstPairs(queue)|, 0, |queue|, 0, |Ties(queue)|);
  }

  lemma LateBound(queue: Queue)
    ensures |LatePairs(queue)| <= |AllowedRows(queue)| * |ForbiddenRows(queue)|
  {
    SubsetSize(LatePairs(queue), Product(AllowedRows(queue), ForbiddenRows(queue)));
    ProductSize(AllowedRows(queue), ForbiddenRows(queue));
  }

  lemma AllUntried(queue: Queue)
    requires forall id :: id in queue ==> Untried(queue[id])
    ensures FirstPairs(queue) == OrderedPairs(queue) && |LatePairs(queue)| == 0
    ensures |AllowedRows(queue)| == |queue| && |ForbiddenRows(queue)| == 0
  {
    assert LatePairs(queue) == {};
    assert ForbiddenRows(queue) == {};
    AllowedOrForbidden(queue);
  }

  lemma NoTiesMeansDistinct(queue: Queue)
    ensures TiedPairs(queue) == 0 <==> DistinctStamps(queue)
  {
    OrderedPairsCount(queue);
    TriangleDoubled(|queue|);
    if DistinctStamps(queue) {
      assert Ties(queue) == {};
    } else {
      var x, y :| x in queue && y in queue && queue[x].created == queue[y].created && x != y;
      assert (x, y) in Ties(queue);
    }
  }
}
