/**
 The receipt queue and its workers, one database call at a time: a job looks for duplicates,
 inserts its row and, on a clash of the unique index, repairs the row that is there. Jobs that
 throw are tried again, three attempts in all
 (birr-track-backend/src/queue/queue.service.ts, queue/image-processing.worker.ts,
 processing/processing.service.ts and telegram/flows/receipt.service.ts).
 */
module ReceiptPipeline {
  import opened Common
  import opened Transactions

  const ATTEMPTS: nat := 3

  type JobId = nat

  type WorkerId = nat

  /** `attempts` counts the attempts already begun. */
  datatype Job = Job(id: JobId, photo: Photo, attempts: nat)

  datatype Task = Taken(job: Job) | Drafted(job: Job, draft: Draft) | Clashed(job: Job, draft: Draft)

  /**
   `limit` is how many jobs may be in flight over all workers. `accepted`, `removed` and
   `writes` are history: every acknowledged photo, every row a user deleted, and every draft
   that reached the table, in order.
   */
  datatype Pipe = Pipe(
    limit: nat,
    table: Table,
    queue: map<JobId, Job>,
    active: map<WorkerId, Task>,
    done: set<JobId>,
    failed: map<JobId, nat>,
    accepted: map<JobId, Photo>,
    removed: set<Key>,
    writes: seq<Draft>)

  datatype Step =
    | Accepts(id: JobId, photo: Photo)
    | Takes(w: WorkerId, id: JobId)
    | Drafts(w: WorkerId, stages: Stages)
    | Creates(w: WorkerId)
    | Repairs(w: WorkerId)
    | Throws(w: WorkerId)
    | Removes(k: Key)

  predicate Enabled(p: Pipe, step: Step) {
    match step
    case Accepts(id, _) => id !in p.accepted
    case Takes(w, id) => id in p.queue && w !in p.active && |p.active| < p.limit
    case Drafts(w, _) => w in p.active && p.active[w].Taken?
    case Creates(w) => w in p.active && p.active[w].Drafted?
    case Repairs(w) => w in p.active && p.active[w].Clashed?
    case Throws(w) => w in p.active
    case Removes(k) => k in p.table && p.table[k].status == NeedsReview
  }

  function Finish(p: Pipe, w: WorkerId): Pipe
    requires w in p.active
  {
    p.(active := p.active - {w}, done := p.done + {p.active[w].job.id})
  }

  function Next(p: Pipe, step: Step): Pipe
    requires Enabled(p, step)
  {
    match step
    case Accepts(id, photo) => p.(accepted := p.accepted[id := photo], queue := p.queue[id := Job(id, photo, 0)])
    case Takes(w, id) =>
      var job := p.queue[id];
      p.(queue := p.queue - {id}, active := p.active[w := Taken(job.(attempts := job.attempts + 1))])
    case Drafts(w, stages) =>
      var job := p.active[w].job;
      p.(active := p.active[w := Drafted(job, DraftOf(p.table, job.photo, stages))])
    case Creates(w) =>
      var task := p.active[w];
      if task.draft.photo.UniqueKey() in p.table then p.(active := p.active[w := Clashed(task.job, task.draft)])
      else Finish(p, w).(table := p.table[task.draft.photo.UniqueKey() := NewRow(task.draft)],
                         writes := p.writes + [task.draft])
    case Repairs(w) =>
      var draft := p.active[w].draft;
      var k := draft.photo.UniqueKey();
      if k in p.table
      then Finish(p, w).(table := p.table[k := RepairedRow(p.table[k], draft)], writes := p.writes + [draft])
      else Finish(p, w)
    case Throws(w) =>
      var job := p.active[w].job;
      if job.attempts < ATTEMPTS then p.(active := p.active - {w}, queue := p.queue[job.id := job])
      else p.(active := p.active - {w}, failed := p.failed[job.id := job.attempts])
    case Removes(k) => p.(table := p.table - {k}, removed := p.removed + {k})
  }

  // ------------------------------------------------------------------------------ runs

  predicate Runs(p: Pipe, steps: seq<Step>)
    decreases |steps|
  {
    steps == [] || (Enabled(p, steps[0]) && Runs(Next(p, steps[0]), steps[1..]))
  }

  function After(p: Pipe, steps: seq<Step>): Pipe
    requires Runs(p, steps)
    decreases |steps|
  {
    if steps == [] then p else After(Next(p, steps[0]), steps[1..])
  }

  function Start(limit: nat): Pipe { Pipe(limit, map[], map[], map[], {}, map[], map[], {}, []) }

  ghost predicate Reachable(p: Pipe) {
    exists steps :: Runs(Start(p.limit), steps) && p == After(Start(p.limit), steps)
  }

  // ---------------------------------------------------------- no acknowledged photo is lost

  /** The worker that has the job in flight. */
  predicate Working(p: Pipe, w: WorkerId, id: JobId) { w in p.active && p.active[w].job.id == id }

  predicate JobOk(p: Pipe, job: Job) { job.id in p.accepted && p.accepted[job.id] == job.photo }

  predicate QueuedOk(p: Pipe, id: JobId) {
    id in p.queue ==>
      && p.queue[id].id == id && JobOk(p, p.queue[id]) && p.queue[id].attempts < ATTEMPTS
      && id !in p.done && id !in p.failed
  }

  /** The photo has its row, or a user deleted it. */
  predicate Served(p: Pipe, photo: Photo) { photo.UniqueKey() in p.table || photo.UniqueKey() in p.removed }

  predicate TaskOk(p: Pipe, w: WorkerId) {
    w in p.active ==>
      var task := p.active[w];
      && JobOk(p, task.job) && 1 <= task.job.attempts <= ATTEMPTS
      && task.job.id !in p.queue && task.job.id !in p.done && task.job.id !in p.failed
      && (!task.Taken? ==> task.draft.photo == task.job.photo)
      && (task.Clashed? ==> Served(p, task.draft.photo))
  }

  predicate Apart(p: Pipe, v: WorkerId, w: WorkerId) {
    v in p.active && w in p.active && p.active[v].job.id == p.active[w].job.id ==> v == w
  }

  predicate EndOk(p: Pipe, id: JobId) {
    && (id in p.done ==> id in p.accepted && id !in p.failed && Served(p, p.accepted[id]))
    && (id in p.failed ==> id in p.accepted && p.failed[id] == ATTEMPTS)
  }

  ghost predicate Tidy(p: Pipe) {
    && (forall id :: QueuedOk(p, id))
    && (forall w :: TaskOk(p, w))
    && (forall v, w :: Apart(p, v, w))
    && (forall id :: EndOk(p, id))
  }

  ghost predicate NoneLost(p: Pipe) {
    forall id :: id in p.accepted ==> id in p.queue || id in p.done || id in p.failed || exists w :: Working(p, w, id)
  }

  ghost predicate Conserved(p: Pipe) { Tidy(p) && NoneLost(p) }

  /** When one worker lets go of its job and the job is accounted for elsewhere, none is lost. */
  lemma LettingGoLosesNone(p: Pipe, q: Pipe, w: WorkerId)
    requires NoneLost(p) && w in p.active
    requires q.accepted == p.accepted && q.active == p.active - {w}
    requires p.queue.Keys <= q.queue.Keys && p.done <= q.done && p.failed.Keys <= q.failed.Keys
    requires p.active[w].job.id in q.queue || p.active[w].job.id in q.done || p.active[w].job.id in q.failed
    ensures NoneLost(q)
  {
    forall id | id in q.accepted
      ensures id in q.queue || id in q.done || id in q.failed || exists v :: Working(q, v, id)
    {
      if exists v :: Working(p, v, id) {
        var v :| Working(p, v, id);
        if v != w { assert Working(q, v, id); }
      }
    }
  }

  /** A worker that moves on keeps its job. */
  lemma MovingOnLosesNone(p: Pipe, w: WorkerId, task: Task)
    requires NoneLost(p) && w in p.active && task.job.id == p.active[w].job.id
    ensures NoneLost(p.(active := p.active[w := task]))
  {
    var q := p.(active := p.active[w := task]);
    forall id | id in q.accepted
      ensures id in q.queue || id in q.done || id in q.failed || exists v :: Working(q, v, id)
    {
      if exists v :: Working(p, v, id) {
        var v :| Working(p, v, id);
        assert Working(q, v, id);
      }
    }
  }

  /** Jobs in flight stay in flight when the step adds one place and takes none away. */
  lemma KeepingLosesNone(p: Pipe, q: Pipe, id: JobId)
    requires NoneLost(p) && q.accepted.Keys <= p.accepted.Keys + {id}
    requires id in q.queue || id in q.done || id in q.failed || exists w :: Working(q, w, id)
    requires p.queue.Keys - {id} <= q.queue.Keys && p.done <= q.done && p.failed.Keys <= q.failed.Keys
    requires forall w :: w in p.active ==> w in q.active && q.active[w].job.id == p.active[w].job.id
    ensures NoneLost(q)
  {
    forall x | x in q.accepted ensures x in q.queue || x in q.done || x in q.failed || exists v :: Working(q, v, x) {
      if x != id && exists v :: Working(p, v, x) {
        var v :| Working(p, v, x);
        assert Working(q, v, x);
      }
    }
  }

  lemma AcceptsConserves(p: Pipe, id: JobId, photo: Photo)
    requires Conserved(p) && Enabled(p, Accepts(id, photo))
    ensures Conserved(Next(p, Accepts(id, photo)))
  {
    var q := Next(p, Accepts(id, photo));
    KeepingLosesNone(p, q, id);
    forall x ensures QueuedOk(q, x) && EndOk(q, x) { assert QueuedOk(p, x) && EndOk(p, x); }
    forall v ensures TaskOk(q, v) { assert TaskOk(p, v); }
    forall v, x ensures Apart(q, v, x) { assert Apart(p, v, x); }
  }

  lemma TakesConserves(p: Pipe, w: WorkerId, id: JobId)
    requires Conserved(p) && Enabled(p, Takes(w, id))
    ensures Conserved(Next(p, Takes(w, id)))
  {
    var q := Next(p, Takes(w, id));
    assert QueuedOk(p, id);
    assert Working(q, w, id);
    KeepingLosesNone(p, q, id);
    forall x ensures QueuedOk(q, x) && EndOk(q, x) { assert QueuedOk(p, x) && EndOk(p, x); }
    forall v ensures TaskOk(q, v) { assert TaskOk(p, v); }
    forall v, x ensures Apart(q, v, x) { assert Apart(p, v, x) && TaskOk(p, v) && TaskOk(p, x); }
  }

  /** A worker that moves on with its job, or the table losing a row to a user. */
  lemma MovingOnConserves(p: Pipe, q: Pipe, w: WorkerId, task: Task)
    requires Conserved(p) && w in p.active && task.job == p.active[w].job
    requires q == p.(active := p.active[w := task])
    requires !task.Taken? ==> task.draft.photo == task.job.photo
    requires task.Clashed? ==> Served(p, task.draft.photo)
    ensures Conserved(q)
  {
    MovingOnLosesNone(p, w, task);
    forall x ensures QueuedOk(q, x) && EndOk(q, x) { assert QueuedOk(p, x) && EndOk(p, x); }
    forall v ensures TaskOk(q, v) { assert TaskOk(p, v) && TaskOk(p, w); }
    forall v, x ensures Apart(q, v, x) { assert Apart(p, v, x); }
  }

  /** A worker that is done with its job, for good or until the next attempt. */
  lemma LettingGoConserves(p: Pipe, q: Pipe, w: WorkerId)
    requires Conserved(p) && w in p.active
    requires q.accepted == p.accepted && q.active == p.active - {w}
    requires forall photo: Photo :: Served(p, photo) ==> Served(q, photo)
    requires var job := p.active[w].job;
             || (q.queue == p.queue && q.failed == p.failed && q.done == p.done + {job.id} && Served(q, job.photo))
             || (q.queue == p.queue && q.done == p.done && q.failed == p.failed[job.id := ATTEMPTS])
             || (q.done == p.done && q.failed == p.failed && q.queue == p.queue[job.id := job]
                 && job.attempts < ATTEMPTS)
    ensures Conserved(q)
  {
    LettingGoLosesNone(p, q, w);
    assert TaskOk(p, w);
    forall x ensures QueuedOk(q, x) && EndOk(q, x) { assert QueuedOk(p, x) && EndOk(p, x); }
    forall v ensures TaskOk(q, v) { assert TaskOk(p, v) && Apart(p, v, w); }
    forall v, x ensures Apart(q, v, x) { assert Apart(p, v, x); }
  }

  lemma RemovesConserves(p: Pipe, k: Key)
    requires Conserved(p) && Enabled(p, Removes(k))
    ensures Conserved(Next(p, Removes(k)))
  {
    var q := Next(p, Removes(k));
    forall x | x in q.accepted ensures x in q.queue || x in q.done || x in q.failed || exists v :: Working(q, v, x) {
      if exists v :: Working(p, v, x) {
        var v :| Working(p, v, x);
        assert Working(q, v, x);
      }
    }
    forall x ensures QueuedOk(q, x) && EndOk(q, x) { assert QueuedOk(p, x) && EndOk(p, x); }
    forall v ensures TaskOk(q, v) { assert TaskOk(p, v); }
    forall v, x ensures Apart(q, v, x) { assert Apart(p, v, x); }
  }

  lemma StepConserves(p: Pipe, step: Step)
    requires Conserved(p) && Enabled(p, step)
    ensures Conserved(Next(p, step))
  {
    var q := Next(p, step);
    match step
    case Accepts(id, photo) => AcceptsConserves(p, id, photo);
    case Takes(w, id) => TakesConserves(p, w, id);
    case Drafts(w, _) => MovingOnConserves(p, q, w, q.active[w]);
    case Creates(w) =>
      assert TaskOk(p, w);
      if p.active[w].draft.photo.UniqueKey() in p.table {
        MovingOnConserves(p, q, w, q.active[w]);
      } else {
        LettingGoConserves(p, q, w);
      }
    case Repairs(w) =>
      assert TaskOk(p, w);
      LettingGoConserves(p, q, w);
    case Throws(w) =>
      assert TaskOk(p, w);
      LettingGoConserves(p, q, w);
    case Removes(k) => RemovesConserves(p, k);
  }

  lemma {:induction false} RunConserves(p: Pipe, steps: seq<Step>)
    requires Conserved(p) && Runs(p, steps)
    ensures Conserved(After(p, steps))
    decreases |steps|
  {
    if steps != [] {
      StepConserves(p, steps[0]);
      RunConserves(Next(p, steps[0]), steps[1..]);
    }
  }
}
