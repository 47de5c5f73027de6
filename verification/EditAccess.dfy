/**
 Runs of edits and deletions by many callers on one table: what each caller can reach, and what
 the log can give back (birr-track-backend/src/transactions/transactions.service.ts).
 */
module EditAccess {
  import opened Common
  import opened Transactions
  import opened EditLog
  import opened TransactionsService

  /** Not the platform owner, no waiter whose row it is, and no manager or owner of its Business. */
  predicate Stranger(auth: Auth, k: Key, row: Row) {
    && auth.role != PlatformOwner
    && (auth.role == Waiter ==> auth.userId != Some(row.userId))
    && (auth.role == Manager || auth.role == Owner ==> auth.businessId != Some(k.businessId))
  }

  /** The log of one row. */
  function LogOf(log: seq<LoggedEdit>, k: Key): seq<Entry>
    decreases |log|
  {
    if log == [] then []
    else
      var front, last := log[..|log| - 1], log[|log| - 1];
      if last.key == k then LogOf(front, k) + [last.entry] else LogOf(front, k)
  }

  /** The row and its log are as before, or there is still none. */
  predicate SameAt(books: Books, after: Books, k: Key) {
    && (k in after.rows <==> k in books.rows)
    && (k in books.rows ==> after.rows[k] == books.rows[k])
    && LogOf(after.log, k) == LogOf(books.log, k)
  }

  lemma {:induction false} LogOfLogged(log: seq<LoggedEdit>, at: Key, entries: seq<Entry>, who: Option<UserId>, k: Key)
    ensures LogOf(log + Logged(at, entries, who), k) == LogOf(log, k) + (if at == k then entries else [])
    decreases |entries|
  {
    var added := Logged(at, entries, who);
    if entries == [] {
      assert log + added == log;
    } else {
      var front := entries[..|entries| - 1];
      assert added == Logged(at, front, who) + [LoggedEdit(at, entries[|entries| - 1], who)];
      assert (log + added)[..|log + added| - 1] == log + Logged(at, front, who);
      LogOfLogged(log, at, front, who, k);
      assert front + [entries[|entries| - 1]] == entries;
    }
  }

  lemma {:induction false} LogOfWithout(log: seq<LoggedEdit>, gone: Key, k: Key)
    ensures LogOf(Without(log, gone), k) == if gone == k then [] else LogOf(log, k)
    ensures forall e :: e in Without(log, gone) ==> e in log && e.key != gone
    decreases |log|
  {
    if log != [] {
      var front, last := log[..|log| - 1], log[|log| - 1];
      LogOfWithout(front, gone, k);
      if last.key != gone {
        assert (Without(front, gone) + [last])[..|Without(front, gone)|] == Without(front, gone);
      }
    }
  }

  // ------------------------------------------------------------------------- one request

  /** Who gets which answer; a refusal changes nothing, and no request touches another row or its log. */
  lemma AnswersAreExact(texts: Texts, books: Books, r: Request, other: Key)
    ensures var (after, answer) := Answered(texts, books, r);
            var mayTouch := r.key in books.rows && !Stranger(r.auth, r.key, books.rows[r.key]);
            && (answer == Err(NotFound) <==> !mayTouch)
            && (answer == Err(Conflict) <==> mayTouch && r.Deletes? && books.rows[r.key].status == Recorded)
            && (answer.Ok? && r.Deletes? ==> r.key !in after.rows && LogOf(after.log, r.key) == [])
            && (answer.Ok? && r.Edits? ==> r.key in after.rows)
            && (answer.Err? ==> after == books)
            && (other != r.key ==> SameAt(books, after, other))
  {
    var (after, answer) := Answered(texts, books, r);
    if answer.Ok? {
      match r
      case Edits(k, u, auth) =>
        LogOfLogged(books.log, k, Entries(texts, books.rows[k], u, FIELDS), auth.userId, other);
      case Deletes(k, _) =>
        LogOfWithout(books.log, k, k);
        LogOfWithout(books.log, k, other);
    }
  }

  /** Callers may edit all they see and see all they may edit, but for these two kinds of waiter. */
  lemma SeeingAndTouchingDifferExactlyFor(k: Key, row: Row, auth: Auth)
    ensures MayTouch(k, row, auth) && !MaySee(k, row, auth) <==>
            auth.role == Waiter && auth.userId == Some(row.userId) && auth.businessId != Some(k.businessId)
    ensures MaySee(k, row, auth) && !MayTouch(k, row, auth) <==>
            auth.role == Waiter && auth.userId == None && auth.businessId == Some(k.businessId)
  {
  }

  // ------------------------------------------------------------------------------ runs

  function Run(texts: Texts, books: Books, rs: seq<Request>): Books
    decreases |rs|
  {
    if rs == [] then books else Run(texts, Answered(texts, books, rs[0]).0, rs[1..])
  }

  /** Requests by strangers to a row, among requests for other rows, leave it and its log alone. */
  lemma {:induction false} StrangersChangeNothing(texts: Texts, books: Books, rs: seq<Request>, k: Key)
    requires forall i :: 0 <= i < |rs| && rs[i].key == k && k in books.rows ==> Stranger(rs[i].auth, k, books.rows[k])
    ensures SameAt(books, Run(texts, books, rs), k)
    decreases |rs|
  {
    if rs != [] {
      AnswersAreExact(texts, books, rs[0], k);
      assert rs[0].key == k && k in books.rows ==> Stranger(rs[0].auth, k, books.rows[k]);
      StrangersChangeNothing(texts, Answered(texts, books, rs[0]).0, rs[1..], k);
    }
  }

  /** Whatever managers and owners of one Business request, every other Business keeps its rows and logs. */
  lemma StaffKeepToTheirBusiness(texts: Texts, books: Books, rs: seq<Request>, b: BusinessId, k: Key)
    requires forall i :: 0 <= i < |rs| ==>
               (rs[i].auth.role == Manager || rs[i].auth.role == Owner) && rs[i].auth.businessId == Some(b)
    requires k.businessId != b
    ensures SameAt(books, Run(texts, books, rs), k)
  {
    StrangersChangeNothing(texts, books, rs, k);
  }

  /** Whatever a waiter requests, every row of somebody else stays, with its log. */
  lemma WaitersKeepToTheirRows(texts: Texts, books: Books, rs: seq<Request>, u: UserId, k: Key)
    requires forall i :: 0 <= i < |rs| ==> rs[i].auth.role == Waiter && rs[i].auth.userId == Some(u)
    requires k in books.rows && books.rows[k].userId != u
    ensures SameAt(books, Run(texts, books, rs), k)
  {
    StrangersChangeNothing(texts, books, rs, k);
  }

  // ------------------------------------------------------------------- the log of the table

  /** The entries that lead from one log to a longer one. */
  function Tail(before: seq<Entry>, after: seq<Entry>): seq<Entry> {
    if |before| <= |after| then after[|before|..] else []
  }

  /** The log grew from one state of the row to the other, and says the way both forwards and back. */
  ghost predicate Explains(texts: Texts, books: Books, after: Books, k: Key) {
    k in after.rows ==>
      && k in books.rows
      && var tail := Tail(LogOf(books.log, k), LogOf(after.log, k));
         && LogOf(after.log, k) == LogOf(books.log, k) + tail
         && Undo(texts, after.rows[k], tail) == books.rows[k]
         && AllNew(tail) && Redo(texts, books.rows[k], tail) == after.rows[k]
  }

  lemma RequestIsExplained(texts: Texts, books: Books, r: Request, k: Key)
    requires texts.Faithful()
    ensures Explains(texts, books, Answered(texts, books, r).0, k)
  {
    AnswersAreExact(texts, books, r, k);
    var (after, answer) := Answered(texts, books, r);
    var log := LogOf(books.log, k);
    if k in after.rows && answer.Ok? && r.key == k {
      var entries := Entries(texts, books.rows[k], r.update, FIELDS);
      LogOfLogged(books.log, k, entries, r.auth.userId, k);
      assert (log + entries)[|log|..] == entries;
      UndoUpdate(texts, books.rows[k], r.update);
      RedoUpdate(texts, books.rows[k], r.update);
    } else {
      assert LogOf(after.log, k) == log ==> Tail(log, LogOf(after.log, k)) == [];
      assert log + [] == log;
    }
  }

  /**
   For every row that a run of requests by whatever callers leaves in the table, the entries that
   its log has gained undo the run and redo it, entries of other rows and deletions between them
   notwithstanding.
   */
  lemma {:induction false} LogExplainsEveryRun(texts: Texts, books: Books, rs: seq<Request>, k: Key)
    requires texts.Faithful()
    ensures Explains(texts, books, Run(texts, books, rs), k)
    decreases |rs|
  {
    var end, log := Run(texts, books, rs), LogOf(books.log, k);
    if rs == [] {
      assert Tail(log, log) == [] && log + [] == log;
    } else {
      var next := Answered(texts, books, rs[0]).0;
      RequestIsExplained(texts, books, rs[0], k);
      LogExplainsEveryRun(texts, next, rs[1..], k);
      if k in end.rows {
        var first, rest := Tail(log, LogOf(next.log, k)), Tail(LogOf(next.log, k), LogOf(end.log, k));
        assert log + first + rest == log + (first + rest);
        assert (log + (first + rest))[|log|..] == first + rest;
        UndoConcat(texts, end.rows[k], first, rest);
        RedoConcat(texts, books.rows[k], first, rest);
      }
    }
  }

  /** The request that an entry comes from. */
  predicate Wrote(r: Request, e: LoggedEdit, row: Row) {
    r.Edits? && r.key == e.key && r.auth.userId == e.editedBy && !Stranger(r.auth, e.key, row)
  }

  /** Every entry that a run adds names as its editor a caller who asked for an edit of that row and may. */
  lemma {:induction false} EntriesNameTheirEditor(texts: Texts, books: Books, rs: seq<Request>, e: LoggedEdit)
    requires e in Run(texts, books, rs).log && e !in books.log
    ensures e.key in books.rows && exists i :: 0 <= i < |rs| && Wrote(rs[i], e, books.rows[e.key])
    decreases |rs|
  {
    var next := Answered(texts, books, rs[0]).0;
    if rs[0].Deletes? {
      LogOfWithout(books.log, rs[0].key, e.key);
    }
    if e in next.log {
      assert Wrote(rs[0], e, books.rows[e.key]);
    } else {
      EntriesNameTheirEditor(texts, next, rs[1..], e);
      var i :| 0 <= i < |rs[1..]| && Wrote(rs[1..][i], e, next.rows[e.key]);
      assert Wrote(rs[i + 1], e, books.rows[e.key]);
    }
  }
}
