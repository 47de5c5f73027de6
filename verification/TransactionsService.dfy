/**
 The stored tables of transactions and edits, and the processing of one queued photo
 (birr-track-backend/src/transactions/transactions.service.ts and
 processing/processing.service.ts). Each call is specified by functions of modules
 Transactions and EditLog.
 */
module TransactionsService {
  import opened Common
  import opened Transactions
  import opened EditLog

  datatype Fault = DuplicateKey | NotFound | Conflict

  /** Whose request it is: the checked token. */
  datatype Auth = Auth(role: Role, userId: Option<UserId>, businessId: Option<BusinessId>)

  /** `verifyTransactionAccess`. */
  predicate MayTouch(k: Key, row: Row, auth: Auth) {
    match auth.role
    case PlatformOwner => true
    case Waiter => auth.userId == Some(row.userId)
    case _ => auth.businessId == Some(k.businessId)
  }

  /** `applyAuthScope`: which rows a caller is shown. */
  predicate MaySee(k: Key, row: Row, auth: Auth) {
    auth.role == PlatformOwner
    || (auth.businessId == Some(k.businessId)
        && (auth.role == Waiter && auth.userId.Some? ==> auth.userId == Some(row.userId)))
  }

  datatype LoggedEdit = LoggedEdit(key: Key, entry: Entry, editedBy: Option<UserId>)

  function Logged(k: Key, entries: seq<Entry>, editedBy: Option<UserId>): seq<LoggedEdit> {
    seq(|entries|, i requires 0 <= i < |entries| => LoggedEdit(k, entries[i], editedBy))
  }

  /** The entries of all other rows. */
  function Without(log: seq<LoggedEdit>, k: Key): seq<LoggedEdit>
    decreases |log|
  {
    if log == [] then []
    else
      var front, last := log[..|log| - 1], log[|log| - 1];
      if last.key == k then Without(front, k) else Without(front, k) + [last]
  }

  /** The stored rows, and the log of their edits. */
  datatype Books = Books(rows: Table, log: seq<LoggedEdit>)

  datatype Request = Edits(key: Key, update: Update, auth: Auth) | Deletes(key: Key, auth: Auth)

  /** The foreign key of the log deletes a row's entries together with the row. */
  function Answered(texts: Texts, books: Books, r: Request): (Books, Result<(), Fault>) {
    if r.key !in books.rows || !MayTouch(r.key, books.rows[r.key], r.auth) then (books, Err(NotFound))
    else
      var row := books.rows[r.key];
      match r
      case Edits(k, u, auth) =>
        (Books(books.rows[k := UpdatedRow(texts, row, u)],
               books.log + Logged(k, Entries(texts, row, u, FIELDS), auth.userId)),
         Ok(()))
      case Deletes(k, _) =>
        if row.status != NeedsReview then (books, Err(Conflict))
        else (Books(books.rows - {k}, Without(books.log, k)), Ok(()))
  }

  /** An edit keeps a recorded row complete: fields are replaced, never cleared. */
  lemma EditKeepsRowOk(texts: Texts, row: Row, u: Update)
    requires RowOk(row)
    ensures RowOk(UpdatedRow(texts, row, u)) && UpdatedRow(texts, row, u).status == row.status
  {
  }

  class TransactionStore {
    var rows: Table
    var editLogs: seq<LoggedEdit>

    function State(): Books
      reads this
    {
      Books(rows, editLogs)
    }

    method Create(d: Draft) returns (outcome: Result<Row, Fault>)
      modifies this`rows
      ensures if d.photo.UniqueKey() in old(rows) then outcome == Err(DuplicateKey) && rows == old(rows)
              else outcome == Ok(NewRow(d)) && rows == old(rows)[d.photo.UniqueKey() := NewRow(d)]
    {
      var k := d.photo.UniqueKey();
      if k in rows {
        return Err(DuplicateKey);
      }
      var row := NewRow(d);
      rows := rows[k := row];
      return Ok(row);
    }

    method RepairIdempotentRedelivery(d: Draft) returns (repaired: Option<Row>)
      modifies this`rows
      ensures if d.photo.UniqueKey() in old(rows)
              then repaired == Some(RepairedRow(old(rows)[d.photo.UniqueKey()], d))
                && rows == old(rows)[d.photo.UniqueKey() := repaired.value]
              else repaired == None && rows == old(rows)
    {
      var k := d.photo.UniqueKey();
      if k !in rows {
        return None;
      }
      var existing := rows[k];
      if existing.editedByUploader {
        assert rows == rows[k := existing];
        return Some(existing);
      }
      var saved := RepairedRow(existing, d);
      rows := rows[k := saved];
      return Some(saved);
    }

    /**
     One attempt at a job. Whatever stage fails, the attempt ends with the photo's row in the
     table of its captured Business: a failed stage only leaves fields unread.
     */
    method ProcessImageJob(photo: Photo, stages: Stages)
      modifies this`rows
      ensures rows == Written(old(rows), DraftOf(old(rows), photo, stages))
      ensures photo.UniqueKey() in rows
    {
      var imageKey: Option<string> := None;
      var parsed := NOTHING_READ;
      match stages {
        case FailedBeforeUpload =>
        case FailedToExtract(key) => imageKey := Some(key);
        case Extracted(key, x) =>
          imageKey := Some(key);
          parsed := x;
      }
      var isComplete :=
        parsed.amount.Some? && parsed.transactionId.Some? && parsed.timestamp.Some? && parsed.bankName.Some?;
      var duplicate := false;
      if isComplete {
        duplicate := FindDuplicate(rows, photo.businessId, parsed.transactionId.value, parsed.amount.value,
                                   parsed.timestamp.value);
      }
      var draft := Draft(photo, imageKey, parsed, duplicate);
      var created := Create(draft);
      if created == Err(DuplicateKey) {
        var repaired := RepairIdempotentRedelivery(draft);
      }
    }

    method FindById(k: Key, auth: Auth) returns (found: Result<Row, Fault>)
      ensures found == if k in rows && MaySee(k, rows[k], auth) then Ok(rows[k]) else Err(NotFound)
    {
      if k !in rows || !MaySee(k, rows[k], auth) {
        return Err(NotFound);
      }
      return Ok(rows[k]);
    }

    /** Stores the update and one log entry for each field whose text differs. */
    method UpdateRow(texts: Texts, k: Key, u: Update, auth: Auth) returns (outcome: Result<Row, Fault>)
      modifies this
      ensures var (after, answer) := Answered(texts, old(State()), Edits(k, u, auth));
              && State() == after
              && outcome == if answer.Ok? then Ok(UpdatedRow(texts, old(rows)[k], u)) else Err(answer.error)
    {
      if k !in rows || !MayTouch(k, rows[k], auth) {
        return Err(NotFound);
      }
      var existing := rows[k];
      for i := 0 to |FIELDS|
        invariant rows == old(rows)
        invariant editLogs == old(editLogs) + Logged(k, Entries(texts, existing, u, FIELDS[..i]), auth.userId)
      {
        var field := FIELDS[i];
        LogGrows(texts, k, existing, u, i, auth.userId);
        var oldValue, newValue := StoredText(texts, existing, field), SubmittedText(texts, u, field);
        if newValue.Some? && oldValue != newValue {
          editLogs := editLogs + [LoggedEdit(k, Entry(field, oldValue, newValue), auth.userId)];
        }
      }
      assert FIELDS[..|FIELDS|] == FIELDS;
      var saved := UpdatedRow(texts, existing, u);
      rows := rows[k := saved];
      return Ok(saved);
    }

    /** Only a row that still needs review can be deleted, and its log goes with it. */
    method Remove(texts: Texts, k: Key, auth: Auth) returns (outcome: Result<(), Fault>)
      modifies this
      ensures (State(), outcome) == Answered(texts, old(State()), Deletes(k, auth))
    {
      if k !in rows || !MayTouch(k, rows[k], auth) {
        return Err(NotFound);
      }
      if rows[k].status != NeedsReview {
        return Err(Conflict);
      }
      rows := rows - {k};
      editLogs := Without(editLogs, k);
      return Ok(());
    }
  }

  lemma LogGrows(texts: Texts, k: Key, row: Row, u: Update, i: nat, editedBy: Option<UserId>)
    requires i < |FIELDS|
    ensures var before, after := StoredText(texts, row, FIELDS[i]), SubmittedText(texts, u, FIELDS[i]);
            var last :=
              if after.None? || before == after then [] else [LoggedEdit(k, Entry(FIELDS[i], before, after), editedBy)];
            Logged(k, Entries(texts, row, u, FIELDS[..i + 1]), editedBy)
              == Logged(k, Entries(texts, row, u, FIELDS[..i]), editedBy) + last
  {
    assert FIELDS[..i + 1][..i] == FIELDS[..i];
  }
}
