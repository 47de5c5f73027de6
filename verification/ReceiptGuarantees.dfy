/**
 What the receipt pipeline promises in every reachable state: no photo is lost, few duplicates
 stay unflagged, and rows are what their deliveries made them
 (birr-track-backend/src/processing/processing.service.ts).
 */
module ReceiptGuarantees {
  import opened Common
  import opened Transactions
  import opened ReceiptPipeline

  /** The four places of an acknowledged photo, as 0 or 1 each. */
  ghost function Places(p: Pipe, id: JobId): nat {
    (if id in p.queue then 1 else 0) + (if exists w :: Working(p, w, id) then 1 else 0)
    + (if id in p.done then 1 else 0) + (if id in p.failed then 1 else 0)
  }

  /**
   Every acknowledged photo is in exactly one place: queued, in flight, done or failed. Done
   means that its captured Business has, or was given and deleted, its row; failed means that
   it threw three times.
   */
  lemma AcknowledgedPhotoIsNeverLost(p: Pipe, id: JobId)
    requires Reachable(p) && id in p.accepted
    ensures Places(p, id) == 1
    ensures id in p.done ==> p.accepted[id].UniqueKey() in p.table || p.accepted[id].UniqueKey() in p.removed
    ensures id in p.failed ==> p.failed[id] == ATTEMPTS
  {
    var steps :| Runs(Start(p.limit), steps) && p == After(Start(p.limit), steps);
    RunConserves(Start(p.limit), steps);
    assert QueuedOk(p, id) && EndOk(p, id);
    if exists w :: Working(p, w, id) {
      var w :| Working(p, w, id);
      assert TaskOk(p, w);
    }
  }

  // ------------------------------------------------------- how many duplicates stay unflagged

  /** What makes two transactions of a Business the same. */
  datatype Claim = Claim(businessId: BusinessId, transactionId: string, amount: nat, timestamp: int)

  predicate Unflagged(table: Table, k: Key, c: Claim) {
    k in table && k.businessId == c.businessId && table[k].status == Recorded && !table[k].isDuplicate
    && Matches(table[k], c.transactionId, c.amount, c.timestamp)
  }

  function UnflaggedRows(table: Table, c: Claim): set<Key> {
    set k | k in table && Unflagged(table, k, c)
  }

  /** A job about to write an unflagged row for the claim. */
  predicate Unwarned(d: Draft, c: Claim) {
    && d.photo.businessId == c.businessId && d.parsed.Complete() && !d.isDuplicate
    && d.parsed.transactionId == Some(c.transactionId) && d.parsed.amount == Some(c.amount)
    && d.parsed.timestamp == Some(c.timestamp)
  }

  predicate Holds(active: map<WorkerId, Task>, w: WorkerId, c: Claim) {
    w in active && !active[w].Taken? && Unwarned(active[w].draft, c)
  }

  function Holders(active: map<WorkerId, Task>, c: Claim): set<WorkerId> {
    set w | w in active && Holds(active, w, c)
  }

  ghost predicate Bounded(p: Pipe, c: Claim) {
    |p.active| <= p.limit && |UnflaggedRows(p.table, c)| + |Holders(p.active, c)| <= p.limit
  }

  /** A job that finds no duplicate finds no row of the claim at all. */
  lemma DraftsStaysBounded(p: Pipe, w: WorkerId, stages: Stages, c: Claim)
    requires Bounded(p, c) && Enabled(p, Drafts(w, stages))
    ensures Bounded(Next(p, Drafts(w, stages)), c)
  {
    var q := Next(p, Drafts(w, stages));
    assert q.active.Keys == p.active.Keys;
    if Unwarned(q.active[w].draft, c) {
      assert UnflaggedRows(p.table, c) == {};
      SubsetIsSmaller(Holders(q.active, c), p.active.Keys);
    } else {
      assert Holders(q.active, c) == Holders(p.active, c);
    }
  }

  /** Writing one row turns at most one holder into at most one more unflagged row. */
  lemma WriteStaysBounded(p: Pipe, w: WorkerId, row: Row, c: Claim)
    requires Bounded(p, c) && w in p.active && !p.active[w].Taken?
    requires var d := p.active[w].draft;
             Unflagged(p.table[d.photo.UniqueKey() := row], d.photo.UniqueKey(), c) ==>
               Unwarned(d, c) || Unflagged(p.table, d.photo.UniqueKey(), c)
    ensures var k := p.active[w].draft.photo.UniqueKey();
            |UnflaggedRows(p.table[k := row], c)| + |Holders(p.active - {w}, c)| <= p.limit
  {
    var k := p.active[w].draft.photo.UniqueKey();
    var before, after := UnflaggedRows(p.table, c), UnflaggedRows(p.table[k := row], c);
    assert Holders(p.active - {w}, c) == Holders(p.active, c) - {w};
    if Holds(p.active, w, c) {
      assert w in Holders(p.active, c);
      assert after <= before + {k};
      SubsetIsSmaller(after, before + {k});
    } else {
      assert after <= before;
      SubsetIsSmaller(after, before);
    }
  }

  lemma CreatesStaysBounded(p: Pipe, w: WorkerId, c: Claim)
    requires Bounded(p, c) && Enabled(p, Creates(w))
    ensures Bounded(Next(p, Creates(w)), c)
  {
    var q := Next(p, Creates(w));
    if p.active[w].draft.photo.UniqueKey() in p.table {
      assert q.active.Keys == p.active.Keys;
      assert Holders(q.active, c) == Holders(p.active, c);
    } else {
      assert q.active.Keys == p.active.Keys - {w};
      WriteStaysBounded(p, w, NewRow(p.active[w].draft), c);
    }
  }

  lemma RepairsStaysBounded(p: Pipe, w: WorkerId, c: Claim)
    requires Bounded(p, c) && Enabled(p, Repairs(w))
    ensures Bounded(Next(p, Repairs(w)), c)
  {
    var q := Next(p, Repairs(w));
    assert q.active.Keys == p.active.Keys - {w};
    var d := p.active[w].draft;
    if d.photo.UniqueKey() in p.table {
      WriteStaysBounded(p, w, RepairedRow(p.table[d.photo.UniqueKey()], d), c);
    } else {
      assert Holders(q.active, c) == Holders(p.active, c) - {w};
    }
  }

  /** A job just taken holds nothing yet. */
  lemma TakenHoldsNothing(active: map<WorkerId, Task>, w: WorkerId, job: Job, c: Claim)
    requires w !in active
    ensures Holders(active[w := Taken(job)], c) == Holders(active, c)
    ensures |active[w := Taken(job)]| == |active| + 1
  {
    assert active[w := Taken(job)].Keys == active.Keys + {w};
  }

  lemma TakesStaysBounded(p: Pipe, w: WorkerId, id: JobId, c: Claim)
    requires Bounded(p, c) && Enabled(p, Takes(w, id))
    ensures Bounded(Next(p, Takes(w, id)), c)
  {
    TakenHoldsNothing(p.active, w, Next(p, Takes(w, id)).active[w].job, c);
  }

  lemma ThrowsStaysBounded(p: Pipe, w: WorkerId, c: Claim)
    requires Bounded(p, c) && Enabled(p, Throws(w))
    ensures Bounded(Next(p, Throws(w)), c)
  {
    LettingGoHolds(p.active, w, c);
  }

  lemma LettingGoHolds(active: map<WorkerId, Task>, w: WorkerId, c: Claim)
    requires w in active
    ensures |active - {w}| < |active| && |Holders(active - {w}, c)| <= |Holders(active, c)|
  {
    assert (active - {w}).Keys == active.Keys - {w};
    assert Holders(active - {w}, c) == Holders(active, c) - {w};
  }

  lemma StepStaysBounded(p: Pipe, step: Step, c: Claim)
    requires Bounded(p, c) && Enabled(p, step)
    ensures Bounded(Next(p, step), c)
  {
    match step
    case Accepts(_, _) =>
    case Takes(w, id) => TakesStaysBounded(p, w, id, c);
    case Drafts(w, stages) => DraftsStaysBounded(p, w, stages, c);
    case Creates(w) => CreatesStaysBounded(p, w, c);
    case Repairs(w) => RepairsStaysBounded(p, w, c);
    case Throws(w) => ThrowsStaysBounded(p, w, c);
    case Removes(k) => assert UnflaggedRows(p.table - {k}, c) == UnflaggedRows(p.table, c);
  }

  lemma {:induction false} RunStaysBounded(p: Pipe, steps: seq<Step>, c: Claim)
    requires Bounded(p, c) && Runs(p, steps)
    ensures Bounded(After(p, steps), c) && After(p, steps).limit == p.limit
    decreases |steps|
  {
    if steps != [] {
      StepStaysBounded(p, steps[0], c);
      RunStaysBounded(Next(p, steps[0]), steps[1..], c);
    }
  }

  /**
   With at most `limit` jobs in flight, any interleaving over any redeliveries leaves at most
   `limit` unflagged recorded rows of one Business with the same transaction id, amount and
   time.
   */
  lemma UnflaggedDuplicatesAreBounded(p: Pipe, c: Claim)
    requires Reachable(p)
    ensures |UnflaggedRows(p.table, c)| <= p.limit
  {
    var steps :| Runs(Start(p.limit), steps) && p == After(Start(p.limit), steps);
    assert UnflaggedRows(map[], c) == {} && Holders(map[], c) == {};
    RunStaysBounded(Start(p.limit), steps, c);
  }

  // ------------------------------------------------------------------ the bound is attained

  lemma {:induction false} Extend(p: Pipe, steps: seq<Step>, step: Step)
    requires Runs(p, steps) && Enabled(After(p, steps), step)
    ensures Runs(p, steps + [step]) && After(p, steps + [step]) == Next(After(p, steps), step)
    decreases |steps|
  {
    if steps == [] {
      assert [step][1..] == [] && [] + [step] == [step];
    } else {
      assert (steps + [step])[1..] == steps[1..] + [step];
      Extend(Next(p, steps[0]), steps[1..], step);
    }
  }

  lemma ReachedBy(p: Pipe, steps: seq<Step>)
    requires Runs(Start(p.limit), steps) && p == After(Start(p.limit), steps)
    ensures Reachable(p)
  {
  }

  lemma StepFromReachable(p: Pipe, step: Step)
    requires Reachable(p) && Enabled(p, step)
    ensures Reachable(Next(p, step))
  {
    var steps :| Runs(Start(p.limit), steps) && p == After(Start(p.limit), steps);
    Extend(Start(p.limit), steps, step);
    ReachedBy(Next(p, step), steps + [step]);
  }

  /** Different photos of receipts for one payment. */
  function PhotoOf(c: Claim, i: nat): Photo { Photo(c.businessId, 0, "", FileName(i)) }

  function FileName(i: nat): (s: string)
    ensures |s| == i
  {
    if i == 0 then "" else FileName(i - 1) + "r"
  }

  function KeyOf(c: Claim, i: nat): Key { PhotoOf(c, i).UniqueKey() }

  function ReadingOf(c: Claim): Extraction {
    Extraction(Some(c.amount), Some(c.transactionId), Some(c.timestamp), Some("bank"), 1)
  }

  function TaskOf(c: Claim, i: nat): Task {
    Drafted(Job(i, PhotoOf(c, i), 1), Draft(PhotoOf(c, i), Some("image"), ReadingOf(c), false))
  }

  /** The first `n` workers have all looked, and found nothing. */
  ghost predicate AllLooked(p: Pipe, c: Claim, n: nat) {
    && p.table == map[] && p.queue == map[] && |p.active| == n
    && (forall w :: w in p.active <==> 0 <= w < n) && (forall w :: 0 <= w < n ==> p.active[w] == TaskOf(c, w))
    && (forall id :: id in p.accepted <==> 0 <= id < n)
  }

  /** One more job comes in and is taken. */
  lemma {:induction false} OneTakes(p: Pipe, c: Claim, i: nat) returns (q: Pipe)
    requires Reachable(p) && p.queue == map[] && i !in p.active && i !in p.accepted && |p.active| < p.limit
    ensures Reachable(q)
    ensures q == p.(accepted := p.accepted[i := PhotoOf(c, i)],
                    active := p.active[i := Taken(Job(i, PhotoOf(c, i), 1))])
  {
    var photo := PhotoOf(c, i);
    StepFromReachable(p, Accepts(i, photo));
    var p1 := Next(p, Accepts(i, photo));
    assert p1.queue == map[i := Job(i, photo, 0)];
    StepFromReachable(p1, Takes(i, i));
    q := Next(p1, Takes(i, i));
    assert p1.queue - {i} == map[];
  }

  /** And looks at the empty table. */
  lemma OneLooks(p: Pipe, c: Claim, i: nat)
    requires Reachable(p) && p.table == map[] && p.queue == map[] && i !in p.active && i !in p.accepted
             && |p.active| < p.limit
    ensures Reachable(WithOneMore(p, c, i))
  {
    var q := OneTakes(p, c, i);
    var stages := Extracted("image", ReadingOf(c));
    StepFromReachable(q, Drafts(i, stages));
    assert DraftOf(map[], PhotoOf(c, i), stages) == TaskOf(c, i).draft;
    assert Next(q, Drafts(i, stages)).active == p.active[i := TaskOf(c, i)];
  }

  function WithOneMore(p: Pipe, c: Claim, i: nat): Pipe {
    p.(accepted := p.accepted[i := PhotoOf(c, i)], active := p.active[i := TaskOf(c, i)])
  }

  lemma StartIsReachable(limit: nat)
    ensures Reachable(Start(limit))
  {
    assert Runs(Start(limit), []) && Start(limit) == After(Start(limit), []);
  }

  lemma OneMoreLooked(p: Pipe, c: Claim, i: nat)
    requires AllLooked(p, c, i)
    ensures AllLooked(WithOneMore(p, c, i), c, i + 1)
  {
    var q := WithOneMore(p, c, i);
    assert i !in p.active && q.active.Keys == p.active.Keys + {i};
    forall w | 0 <= w < i + 1 ensures w in q.active && q.active[w] == TaskOf(c, w) {
      if w < i { assert w in p.active; }
    }
  }

  lemma {:induction false} LookTogether(limit: nat, c: Claim, n: nat) returns (p: Pipe)
    requires n <= limit
    ensures Reachable(p) && p.limit == limit && AllLooked(p, c, n)
    decreases n
  {
    if n == 0 {
      StartIsReachable(limit);
      return Start(limit);
    }
    p := LookTogether(limit, c, n - 1);
    OneLooks(p, c, n - 1);
    OneMoreLooked(p, c, n - 1);
    p := WithOneMore(p, c, n - 1);
  }

  /** The first `m` of them have written their rows. */
  ghost predicate SomeWrote(p: Pipe, c: Claim, m: nat, n: nat) {
    && (forall w :: w in p.active <==> m <= w < n) && (forall w :: m <= w < n ==> p.active[w] == TaskOf(c, w))
    && (forall k :: k in p.table ==> exists i :: 0 <= i < m && k == KeyOf(c, i))
    && (forall i :: 0 <= i < m ==> Unflagged(p.table, KeyOf(c, i), c))
  }

  lemma OneCanWrite(p: Pipe, c: Claim, w: nat, n: nat)
    requires w < n && SomeWrote(p, c, w, n)
    ensures Enabled(p, Creates(w)) && KeyOf(c, w) !in p.table && p.active[w] == TaskOf(c, w)
  {
    assert w in p.active;
  }

  lemma OneWrites(p: Pipe, c: Claim, w: nat, n: nat)
    requires w < n && SomeWrote(p, c, w, n) && Enabled(p, Creates(w)) && KeyOf(c, w) !in p.table
             && p.active[w] == TaskOf(c, w)
    ensures SomeWrote(Next(p, Creates(w)), c, w + 1, n)
  {
    var k, q := KeyOf(c, w), Next(p, Creates(w));
    assert q.table == p.table[k := NewRow(TaskOf(c, w).draft)];
    forall i | 0 <= i < w + 1 ensures Unflagged(q.table, KeyOf(c, i), c) {
      if i < w { assert Unflagged(p.table, KeyOf(c, i), c); }
    }
    forall x | x in q.table ensures exists i :: 0 <= i < w + 1 && x == KeyOf(c, i) {
      if x == k {
        assert x == KeyOf(c, w);
      } else {
        var i :| 0 <= i < w && x == KeyOf(c, i);
      }
    }
  }

  lemma NoneWrote(p: Pipe, c: Claim, n: nat)
    requires AllLooked(p, c, n)
    ensures SomeWrote(p, c, 0, n)
  {
  }

  lemma {:induction false} NextWrites(p: Pipe, c: Claim, w: nat, n: nat) returns (q: Pipe)
    requires w < n && SomeWrote(p, c, w, n) && Reachable(p)
    ensures Reachable(q) && q.limit == p.limit && SomeWrote(q, c, w + 1, n)
  {
    OneCanWrite(p, c, w, n);
    OneWrites(p, c, w, n);
    StepFromReachable(p, Creates(w));
    q := Next(p, Creates(w));
  }

  lemma {:induction false} WriteInTurn(start: Pipe, c: Claim, m: nat, n: nat) returns (p: Pipe)
    requires Reachable(start) && AllLooked(start, c, n) && m <= n
    ensures Reachable(p) && p.limit == start.limit && SomeWrote(p, c, m, n)
    decreases m
  {
    if m == 0 {
      NoneWrote(start, c, n);
      return start;
    }
    p := WriteInTurn(start, c, m - 1, n);
    p := NextWrites(p, c, m - 1, n);
  }

  lemma {:induction false} KeysCount(c: Claim, n: nat)
    ensures |set i | 0 <= i < n :: KeyOf(c, i)| == n
    decreases n
  {
    var all := set i | 0 <= i < n :: KeyOf(c, i);
    if n > 0 {
      var front := set i | 0 <= i < n - 1 :: KeyOf(c, i);
      KeysCount(c, n - 1);
      assert all == front + {KeyOf(c, n - 1)};
    }
  }

  /** The bound is exact: for every claim some run leaves `limit` unflagged rows. */
  lemma BoundIsAttained(limit: nat, c: Claim)
    ensures exists p :: Reachable(p) && p.limit == limit && |UnflaggedRows(p.table, c)| == limit
  {
    var start := LookTogether(limit, c, limit);
    var p := WriteInTurn(start, c, limit, limit);
    KeysCount(c, limit);
    SubsetIsSmaller(set i | 0 <= i < limit :: KeyOf(c, i), UnflaggedRows(p.table, c));
    UnflaggedDuplicatesAreBounded(p, c);
  }

  // -------------------------------------------------------------- the table is its deliveries

  /** A row that no user deleted is what its photo's deliveries made it. */
  predicate RowIsDeliveries(p: Pipe, k: Key) {
    var written := WrittenAll(map[], p.writes);
    k !in p.removed ==> (k in p.table <==> k in written) && (k in p.table ==> p.table[k] == written[k])
  }

  ghost predicate TableIsDeliveries(p: Pipe) {
    && (forall k :: RowIsDeliveries(p, k))
    && (forall k :: k in p.table ==> RowOk(p.table[k]))
  }

  lemma WriteKeepsDeliveries(p: Pipe, q: Pipe, d: Draft)
    requires TableIsDeliveries(p) && q.removed == p.removed
    requires (q.table == p.table && q.writes == p.writes)
             || (q.table == Written(p.table, d) && q.writes == p.writes + [d])
    ensures TableIsDeliveries(q)
  {
    var ds := p.writes + [d];
    assert ds[..|ds| - 1] == p.writes;
    WritingKeepsRowsOk(p.table, d);
    forall k ensures RowIsDeliveries(q, k) { assert RowIsDeliveries(p, k); }
  }

  lemma StepKeepsDeliveries(p: Pipe, step: Step)
    requires TableIsDeliveries(p) && Enabled(p, step)
    ensures TableIsDeliveries(Next(p, step))
  {
    var q := Next(p, step);
    match step
    case Creates(w) => WriteKeepsDeliveries(p, q, p.active[w].draft);
    case Repairs(w) => WriteKeepsDeliveries(p, q, p.active[w].draft);
    case _ => forall k ensures RowIsDeliveries(q, k) { assert RowIsDeliveries(p, k); }
  }

  lemma {:induction false} RunKeepsDeliveries(p: Pipe, steps: seq<Step>)
    requires TableIsDeliveries(p) && Runs(p, steps)
    ensures TableIsDeliveries(After(p, steps))
    decreases |steps|
  {
    if steps != [] {
      StepKeepsDeliveries(p, steps[0]);
      RunKeepsDeliveries(Next(p, steps[0]), steps[1..]);
    }
  }

  /**
   In every run a recorded row has all four fields; and unless a user deleted the row before, it
   is the merge of its photo's deliveries in the order in which they were written.
   */
  lemma RowsMergeTheirDeliveries(p: Pipe, k: Key)
    requires Reachable(p) && k in p.table
    ensures p.table[k].status == Recorded ==> p.table[k].HasAllFields()
    ensures k !in p.removed ==> Of(p.writes, k) != [] && Merged(p.table[k], Of(p.writes, k))
  {
    var steps :| Runs(Start(p.limit), steps) && p == After(Start(p.limit), steps);
    RunKeepsDeliveries(Start(p.limit), steps);
    assert RowOk(p.table[k]) && RowIsDeliveries(p, k);
    DeliveriesMerge(p.writes, k);
  }
}
