/**
 From the photo message to the stored row: whose row it is, and in which Business
 (birr-track-backend/src/telegram/flows/receipt.service.ts, queue/queue.service.ts and
 processing/processing.service.ts).
 */
module ReceiptOrigins {
  import opened Common
  import opened Transactions
  import opened ReceiptPipeline
  import ReceiptIntake
  import ReceiptRuns

  /** The photo is the one of an accepted job. */
  predicate Accepted(p: Pipe, id: JobId, photo: Photo) { id in p.accepted && p.accepted[id] == photo }

  /** The row carries the attribution of the photo. */
  predicate Carries(k: Key, row: Row, photo: Photo) {
    k == photo.UniqueKey() && row.userId == photo.userId && row.telegramName == photo.telegramName
  }

  /** Some accepted photo is where the row comes from, and no row has been edited. */
  ghost predicate Originates(p: Pipe, k: Key) {
    k in p.table ==>
      !p.table[k].editedByUploader
      && exists id :: id in p.accepted && Carries(k, p.table[k], p.accepted[id])
  }

  lemma StepOriginates(p: Pipe, step: Step, k: Key)
    requires Conserved(p) && Enabled(p, step) && Originates(p, k)
    ensures Originates(Next(p, step), k)
  {
    var q := Next(p, step);
    if k in p.table && k in q.table && q.table[k] == p.table[k] {
      var id :| id in p.accepted && Carries(k, p.table[k], p.accepted[id]);
      assert id in q.accepted && q.accepted[id] == p.accepted[id];
    } else if step.Creates? || step.Repairs? {
      assert TaskOk(p, step.w);
      assert p.active[step.w].job.id in q.accepted;
    }
  }

  /** A row appears by creation only: a repair that finds none, deleted meanwhile, writes none. */
  lemma RowsAppearOnlyByCreation(p: Pipe, step: Step, k: Key)
    requires Enabled(p, step) && k !in p.table && k in Next(p, step).table
    ensures step.Creates? && p.active[step.w].draft.photo.UniqueKey() == k
  {
  }

  lemma {:induction false} RunOriginates(p: Pipe, steps: seq<Step>, k: Key)
    requires Conserved(p) && Runs(p, steps) && Originates(p, k)
    ensures Originates(After(p, steps), k)
    decreases |steps|
  {
    if steps != [] {
      StepOriginates(p, steps[0], k);
      StepConserves(p, steps[0]);
      RunOriginates(Next(p, steps[0]), steps[1..], k);
    }
  }

  /**
   When the pipeline works on what the intake queued, every row in every reachable state comes from
   a photo whose sender belonged to the row's Business, active at that moment, as the row's user.
   */
  lemma RowsComeFromActiveMembers(s: ReceiptIntake.Intake, p: Pipe, k: Key)
    requires ReceiptRuns.Reachable(s) && Reachable(p) && p.accepted == s.desk.queue && k in p.table
    ensures exists c :: c in s.uploads
              && ReceiptRuns.FromActiveMember(s.uploads[c], Photo(k.businessId, p.table[k].userId,
                                                                  p.table[k].telegramName, k.fileUniqueId))
  {
    var steps :| Runs(Start(p.limit), steps) && p == After(Start(p.limit), steps);
    RunOriginates(Start(p.limit), steps, k);
    var id :| id in p.accepted && Carries(k, p.table[k], p.accepted[id]);
    ReceiptRuns.EachPhotoIsAcknowledgedOnce(s, id);
  }
}
