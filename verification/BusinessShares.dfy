/**
 What one Business sees of the receipt pipeline, although all Businesses share its queue, its
 workers and its table (birr-track-backend/src/transactions/transactions.service.ts and
 processing/processing.service.ts).
 */
module BusinessShares {
  import opened Common
  import opened Transactions
  import opened ReceiptPipeline

  // ------------------------------------------------------------------------- the flag

  /** A row of the Business with the reading's transaction id, amount and time. */
  predicate HasReading(table: Table, k: Key, b: BusinessId, x: Extraction) {
    && k in table && k.businessId == b
    && table[k].transactionId == x.transactionId && table[k].amount == x.amount && table[k].timestamp == x.timestamp
  }

  /** A job is flagged exactly if all four fields were read and its own Business has a row with three of them. */
  lemma FlaggedExactlyIf(table: Table, photo: Photo, stages: Stages)
    ensures DraftOf(table, photo, stages).isDuplicate <==>
            && stages.Extracted?
            && var x := stages.parsed;
               && x.transactionId.Some? && x.amount.Some? && x.timestamp.Some? && x.bankName.Some?
               && exists k :: HasReading(table, k, photo.businessId, x)
  {
    var x := stages.Parsed();
    if x.Complete() {
      forall k ensures HasReading(table, k, photo.businessId, x) <==>
                       k in table && k.businessId == photo.businessId
                       && Matches(table[k], x.transactionId.value, x.amount.value, x.timestamp.value)
      {
      }
    }
  }

  // ------------------------------------------------------------------------- the share

  function WritesOf(writes: seq<Draft>, b: BusinessId): seq<Draft>
    decreases |writes|
  {
    if writes == [] then []
    else
      var front, last := writes[..|writes| - 1], writes[|writes| - 1];
      if last.photo.businessId == b then WritesOf(front, b) + [last] else WritesOf(front, b)
  }

  ghost predicate TableShared(table: Table, mine: Table, b: BusinessId) {
    forall k :: (k in mine <==> k in table && k.businessId == b) && (k in mine ==> mine[k] == table[k])
  }

  ghost predicate RemovedShared(removed: set<Key>, mine: set<Key>, b: BusinessId) {
    forall k :: k in mine <==> k in removed && k.businessId == b
  }

  ghost predicate QueueShared(queue: map<JobId, Job>, mine: map<JobId, Job>, b: BusinessId) {
    forall id ::
      (id in mine <==> id in queue && queue[id].photo.businessId == b) && (id in mine ==> mine[id] == queue[id])
  }

  ghost predicate ActiveShared(active: map<WorkerId, Task>, mine: map<WorkerId, Task>, b: BusinessId) {
    forall w ::
      (w in mine <==> w in active && active[w].job.photo.businessId == b) && (w in mine ==> mine[w] == active[w])
  }

  ghost predicate AcceptedShared(accepted: map<JobId, Photo>, mine: map<JobId, Photo>, b: BusinessId) {
    forall id ::
      (id in mine <==> id in accepted && accepted[id].businessId == b) && (id in mine ==> mine[id] == accepted[id])
  }

  /** Of the jobs that are over, those whose photos were accepted for the Business. */
  ghost predicate DoneShared(done: set<JobId>, mine: set<JobId>, accepted: map<JobId, Photo>, b: BusinessId) {
    forall id :: id in mine <==> id in done && id in accepted && accepted[id].businessId == b
  }

  ghost predicate FailedShared(
    failed: map<JobId, nat>, mine: map<JobId, nat>, accepted: map<JobId, Photo>, b: BusinessId)
  {
    forall id ::
      (id in mine <==> id in failed && id in accepted && accepted[id].businessId == b)
      && (id in mine ==> mine[id] == failed[id])
  }

  /** `s` has in it what `p` has of the Business, unchanged and complete, and nothing else. */
  ghost predicate IsShare(p: Pipe, s: Pipe, b: BusinessId) {
    && s.limit == p.limit && s.writes == WritesOf(p.writes, b)
    && TableShared(p.table, s.table, b) && RemovedShared(p.removed, s.removed, b)
    && QueueShared(p.queue, s.queue, b) && ActiveShared(p.active, s.active, b)
    && AcceptedShared(p.accepted, s.accepted, b)
    && DoneShared(p.done, s.done, p.accepted, b) && FailedShared(p.failed, s.failed, p.accepted, b)
  }

  /** The step accepts, handles or removes something of the Business. */
  predicate Concerns(p: Pipe, step: Step, b: BusinessId)
    requires Enabled(p, step)
  {
    match step
    case Accepts(_, photo) => photo.businessId == b
    case Takes(_, id) => p.queue[id].photo.businessId == b
    case Drafts(w, _) => p.active[w].job.photo.businessId == b
    case Creates(w) => p.active[w].job.photo.businessId == b
    case Repairs(w) => p.active[w].job.photo.businessId == b
    case Throws(w) => p.active[w].job.photo.businessId == b
    case Removes(k) => k.businessId == b
  }

  lemma WritesGrow(writes: seq<Draft>, d: Draft, b: BusinessId)
    ensures WritesOf(writes + [d], b) ==
            if d.photo.businessId == b then WritesOf(writes, b) + [d] else WritesOf(writes, b)
  {
    assert (writes + [d])[..|writes|] == writes;
  }

  lemma ShareIsNoLarger(p: Pipe, s: Pipe, b: BusinessId)
    requires IsShare(p, s, b)
    ensures |s.active| <= |p.active|
  {
    SubsetIsSmaller(s.active.Keys, p.active.Keys);
  }

  /** The look-up of a job finds in the share what it finds in the whole table. */
  lemma SameDraft(table: Table, mine: Table, photo: Photo, stages: Stages)
    requires TableShared(table, mine, photo.businessId)
    ensures DraftOf(mine, photo, stages) == DraftOf(table, photo, stages)
  {
    var b, x := photo.businessId, stages.Parsed();
    FlaggedExactlyIf(table, photo, stages);
    FlaggedExactlyIf(mine, photo, stages);
    forall k ensures HasReading(mine, k, b, x) <==> HasReading(table, k, b, x) {
    }
  }

  // ------------------------------------------------------------------------- part by part

  lemma TableWritten(table: Table, mine: Table, k: Key, row: Row, b: BusinessId)
    requires TableShared(table, mine, b)
    ensures k.businessId == b ==> TableShared(table[k := row], mine[k := row], b)
    ensures k.businessId == b ==> TableShared(table - {k}, mine - {k}, b)
    ensures k.businessId != b ==> TableShared(table[k := row], mine, b) && TableShared(table - {k}, mine, b)
  {
  }

  lemma QueueChanged(queue: map<JobId, Job>, mine: map<JobId, Job>, id: JobId, job: Job, b: BusinessId)
    requires QueueShared(queue, mine, b) && (id in queue ==> queue[id].photo == job.photo)
    ensures job.photo.businessId == b ==> QueueShared(queue[id := job], mine[id := job], b)
    ensures job.photo.businessId == b ==> QueueShared(queue - {id}, mine - {id}, b)
    ensures job.photo.businessId != b ==> QueueShared(queue[id := job], mine, b) && QueueShared(queue - {id}, mine, b)
  {
  }

  lemma ActiveChanged(active: map<WorkerId, Task>, mine: map<WorkerId, Task>, w: WorkerId, task: Task, b: BusinessId)
    requires ActiveShared(active, mine, b) && (w in active ==> active[w].job.photo == task.job.photo)
    ensures task.job.photo.businessId == b ==> ActiveShared(active[w := task], mine[w := task], b)
    ensures task.job.photo.businessId == b ==> ActiveShared(active - {w}, mine - {w}, b)
    ensures task.job.photo.businessId != b ==> ActiveShared(active[w := task], mine, b)
    ensures task.job.photo.businessId != b ==> ActiveShared(active - {w}, mine, b)
  {
  }

  lemma OverChanged(p: Pipe, s: Pipe, id: JobId, n: nat, b: BusinessId)
    requires IsShare(p, s, b) && id in p.accepted
    ensures p.accepted[id].businessId == b ==>
              && DoneShared(p.done + {id}, s.done + {id}, p.accepted, b)
              && FailedShared(p.failed[id := n], s.failed[id := n], p.accepted, b)
    ensures p.accepted[id].businessId != b ==>
              && DoneShared(p.done + {id}, s.done, p.accepted, b)
              && FailedShared(p.failed[id := n], s.failed, p.accepted, b)
  {
  }

  lemma AcceptedChanged(p: Pipe, s: Pipe, id: JobId, photo: Photo, b: BusinessId)
    requires IsShare(p, s, b) && id !in p.accepted && id !in p.done && id !in p.failed
    ensures photo.businessId == b ==> AcceptedShared(p.accepted[id := photo], s.accepted[id := photo], b)
    ensures photo.businessId != b ==> AcceptedShared(p.accepted[id := photo], s.accepted, b)
    ensures DoneShared(p.done, s.done, p.accepted[id := photo], b)
    ensures FailedShared(p.failed, s.failed, p.accepted[id := photo], b)
  {
  }

  // ------------------------------------------------------------------------ step by step

  /** The step does to the share what it does to the whole, or nothing. */
  ghost predicate Shared(p: Pipe, s: Pipe, step: Step, b: BusinessId)
    requires Enabled(p, step)
  {
    if Concerns(p, step, b) then Enabled(s, step) && IsShare(Next(p, step), Next(s, step), b)
    else IsShare(Next(p, step), s, b)
  }

  /** A job in flight is of the Business that its photo was accepted for. */
  predicate Known(p: Pipe, w: WorkerId) {
    w in p.active ==>
      var task := p.active[w];
      && task.job.id in p.accepted && p.accepted[task.job.id] == task.job.photo && task.job.id !in p.queue
      && (!task.Taken? ==> task.draft.photo == task.job.photo)
  }

  lemma AcceptsShared(p: Pipe, s: Pipe, id: JobId, photo: Photo, b: BusinessId)
    requires IsShare(p, s, b) && Enabled(p, Accepts(id, photo))
    requires id !in p.queue && id !in p.done && id !in p.failed
    ensures Shared(p, s, Accepts(id, photo), b)
  {
    QueueChanged(p.queue, s.queue, id, Job(id, photo, 0), b);
    AcceptedChanged(p, s, id, photo, b);
    assert id !in s.accepted;
    if photo.businessId == b {
      assert IsShare(Next(p, Accepts(id, photo)), Next(s, Accepts(id, photo)), b);
    } else {
      assert IsShare(Next(p, Accepts(id, photo)), s, b);
    }
  }

  lemma OwnTakeShared(p: Pipe, s: Pipe, w: WorkerId, id: JobId, b: BusinessId)
    requires IsShare(p, s, b) && Enabled(p, Takes(w, id)) && p.queue[id].photo.businessId == b
    ensures Enabled(s, Takes(w, id)) && IsShare(Next(p, Takes(w, id)), Next(s, Takes(w, id)), b)
  {
    ShareIsNoLarger(p, s, b);
    QueueChanged(p.queue, s.queue, id, p.queue[id], b);
    ActiveChanged(p.active, s.active, w, Next(p, Takes(w, id)).active[w], b);
  }

  lemma OthersTakeShared(p: Pipe, s: Pipe, w: WorkerId, id: JobId, b: BusinessId)
    requires IsShare(p, s, b) && Enabled(p, Takes(w, id)) && p.queue[id].photo.businessId != b
    ensures IsShare(Next(p, Takes(w, id)), s, b)
  {
    QueueChanged(p.queue, s.queue, id, p.queue[id], b);
    ActiveChanged(p.active, s.active, w, Next(p, Takes(w, id)).active[w], b);
  }

  lemma DraftsShared(p: Pipe, s: Pipe, w: WorkerId, stages: Stages, b: BusinessId)
    requires IsShare(p, s, b) && Enabled(p, Drafts(w, stages))
    ensures Shared(p, s, Drafts(w, stages), b)
  {
    if Concerns(p, Drafts(w, stages), b) {
      SameDraft(p.table, s.table, p.active[w].job.photo, stages);
    }
    ActiveChanged(p.active, s.active, w, Next(p, Drafts(w, stages)).active[w], b);
  }

  /** The step of a worker whose draft reaches the table, or finds no row left to repair. */
  predicate Finishes(p: Pipe, step: Step, w: WorkerId) {
    && Enabled(p, step) && (step == Creates(w) || step == Repairs(w))
    && (step == Creates(w) ==> p.active[w].draft.photo.UniqueKey() !in p.table)
  }

  lemma OwnFinishShared(p: Pipe, s: Pipe, step: Step, w: WorkerId, b: BusinessId)
    requires Known(p, w) && IsShare(p, s, b) && Finishes(p, step, w) && p.active[w].job.photo.businessId == b
    ensures Enabled(s, step) && IsShare(Next(p, step), Next(s, step), b)
  {
    var task, k := p.active[w], p.active[w].draft.photo.UniqueKey();
    WritesGrow(p.writes, task.draft, b);
    ActiveChanged(p.active, s.active, w, task, b);
    OverChanged(p, s, task.job.id, 0, b);
    if k in Next(p, step).table {
      TableWritten(p.table, s.table, k, Next(p, step).table[k], b);
    }
  }

  lemma OthersFinishShared(p: Pipe, s: Pipe, step: Step, w: WorkerId, b: BusinessId)
    requires Known(p, w) && IsShare(p, s, b) && Finishes(p, step, w) && p.active[w].job.photo.businessId != b
    ensures IsShare(Next(p, step), s, b)
  {
    var task, k := p.active[w], p.active[w].draft.photo.UniqueKey();
    WritesGrow(p.writes, task.draft, b);
    ActiveChanged(p.active, s.active, w, task, b);
    OverChanged(p, s, task.job.id, 0, b);
    if k in Next(p, step).table {
      TableWritten(p.table, s.table, k, Next(p, step).table[k], b);
    }
  }

  lemma FinishShared(p: Pipe, s: Pipe, step: Step, w: WorkerId, b: BusinessId)
    requires Known(p, w) && IsShare(p, s, b) && Finishes(p, step, w)
    ensures Shared(p, s, step, b)
  {
    if Concerns(p, step, b) {
      OwnFinishShared(p, s, step, w, b);
    } else {
      OthersFinishShared(p, s, step, w, b);
    }
  }

  lemma ClashShared(p: Pipe, s: Pipe, w: WorkerId, b: BusinessId)
    requires Known(p, w) && IsShare(p, s, b) && Enabled(p, Creates(w))
    requires p.active[w].draft.photo.UniqueKey() in p.table
    ensures Shared(p, s, Creates(w), b)
  {
    ActiveChanged(p.active, s.active, w, Clashed(p.active[w].job, p.active[w].draft), b);
  }

  lemma OwnThrowShared(p: Pipe, s: Pipe, w: WorkerId, b: BusinessId)
    requires Known(p, w) && IsShare(p, s, b) && Enabled(p, Throws(w)) && p.active[w].job.photo.businessId == b
    ensures Enabled(s, Throws(w)) && IsShare(Next(p, Throws(w)), Next(s, Throws(w)), b)
  {
    var job := p.active[w].job;
    ActiveChanged(p.active, s.active, w, p.active[w], b);
    if job.attempts < ATTEMPTS {
      QueueChanged(p.queue, s.queue, job.id, job, b);
    } else {
      OverChanged(p, s, job.id, job.attempts, b);
    }
  }

  lemma OthersThrowShared(p: Pipe, s: Pipe, w: WorkerId, b: BusinessId)
    requires Known(p, w) && IsShare(p, s, b) && Enabled(p, Throws(w)) && p.active[w].job.photo.businessId != b
    ensures IsShare(Next(p, Throws(w)), s, b)
  {
    var job := p.active[w].job;
    ActiveChanged(p.active, s.active, w, p.active[w], b);
    if job.attempts < ATTEMPTS {
      QueueChanged(p.queue, s.queue, job.id, job, b);
    } else {
      OverChanged(p, s, job.id, job.attempts, b);
    }
  }

  lemma RemovesShared(p: Pipe, s: Pipe, k: Key, b: BusinessId)
    requires IsShare(p, s, b) && Enabled(p, Removes(k))
    ensures Shared(p, s, Removes(k), b)
  {
    TableWritten(p.table, s.table, k, p.table[k], b);
  }

  lemma StepShared(p: Pipe, s: Pipe, step: Step, b: BusinessId)
    requires Conserved(p) && IsShare(p, s, b) && Enabled(p, step)
    ensures Shared(p, s, step, b)
  {
    if step.Drafts? || step.Creates? || step.Repairs? || step.Throws? {
      assert TaskOk(p, step.w);
    }
    match step
    case Accepts(id, photo) =>
      assert QueuedOk(p, id) && EndOk(p, id);
      AcceptsShared(p, s, id, photo, b);
    case Takes(w, id) =>
      if Concerns(p, step, b) {
        OwnTakeShared(p, s, w, id, b);
      } else {
        OthersTakeShared(p, s, w, id, b);
      }
    case Drafts(w, stages) => DraftsShared(p, s, w, stages, b);
    case Creates(w) =>
      if p.active[w].draft.photo.UniqueKey() in p.table {
        ClashShared(p, s, w, b);
      } else {
        FinishShared(p, s, step, w, b);
      }
    case Repairs(w) => FinishShared(p, s, step, w, b);
    case Throws(w) =>
      if Concerns(p, step, b) {
        OwnThrowShared(p, s, w, b);
      } else {
        OthersThrowShared(p, s, w, b);
      }
    case Removes(k) => RemovesShared(p, s, k, b);
  }

  // ------------------------------------------------------------------------------ over runs

  /** The run's steps that concern the Business, in order. */
  function OwnSteps(p: Pipe, steps: seq<Step>, b: BusinessId): seq<Step>
    requires Runs(p, steps)
    decreases |steps|
  {
    if steps == [] then []
    else
      var rest := OwnSteps(Next(p, steps[0]), steps[1..], b);
      if Concerns(p, steps[0], b) then [steps[0]] + rest else rest
  }

  /**
   However the jobs of all Businesses interleave, a Business has at the end what it would have if
   it were alone: its own steps of the run are a run, and leave the same rows, flags and jobs.
   */
  lemma {:induction false} BusinessesRunApart(p: Pipe, s: Pipe, steps: seq<Step>, b: BusinessId)
    requires Conserved(p) && IsShare(p, s, b) && Runs(p, steps)
    ensures var own := OwnSteps(p, steps, b);
            Runs(s, own) && IsShare(After(p, steps), After(s, own), b)
    decreases |steps|
  {
    if steps != [] {
      var step, q := steps[0], Next(p, steps[0]);
      StepShared(p, s, step, b);
      StepConserves(p, step);
      if Concerns(p, step, b) {
        BusinessesRunApart(q, Next(s, step), steps[1..], b);
        assert OwnSteps(p, steps, b)[1..] == OwnSteps(q, steps[1..], b);
      } else {
        BusinessesRunApart(q, s, steps[1..], b);
      }
    }
  }

  /** What a reachable pipeline has of a Business is a pipeline that the Business reaches alone. */
  lemma SharesAreReachable(p: Pipe, b: BusinessId)
    requires Reachable(p)
    ensures exists s :: Reachable(s) && IsShare(p, s, b)
  {
    var start := Start(p.limit);
    var steps :| Runs(start, steps) && p == After(start, steps);
    BusinessesRunApart(start, start, steps, b);
    var s := After(start, OwnSteps(start, steps, b));
    assert Reachable(s);
  }
}
