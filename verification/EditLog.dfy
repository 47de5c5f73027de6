/**
 Manual edits of a transaction and the log they leave
 (birr-track-backend/src/transactions/transactions.service.ts).
 */
module EditLog {
  import opened Common
  import opened Transactions

  // --------------------------------------------------------------------------- decimals

  function Digit(n: nat): char
    requires n < 10
  {
    (n + 48) as char
  }

  function Decimal(n: nat): (s: string)
    ensures s != ""
  {
    if n < 10 then [Digit(n)] else Decimal(n / 10) + [Digit(n % 10)]
  }

  function DigitValue(c: char): nat { if '0' <= c <= '9' then c as nat - 48 else 0 }

  function DecimalValue(s: string): nat
    decreases |s|
  {
    if s == "" then 0 else 10 * DecimalValue(s[..|s| - 1]) + DigitValue(s[|s| - 1])
  }

  /** `numeric(14,2)` as the database returns it, and `toFixed(2)`. */
  function StoredAmount(cents: nat): string {
    Decimal(cents / 100) + "." + [Digit(cents / 10 % 10), Digit(cents % 10)]
  }

  /** `String(amount)` of a number with at most two decimals: no trailing zeros. */
  function SubmittedAmount(cents: nat): string {
    if cents % 100 == 0 then Decimal(cents / 100)
    else if cents % 10 == 0 then Decimal(cents / 100) + "." + [Digit(cents / 10 % 10)]
    else StoredAmount(cents)
  }

  function ParseStoredAmount(s: string): nat {
    if |s| < 3 then 0
    else 100 * DecimalValue(s[..|s| - 3]) + 10 * DigitValue(s[|s| - 2]) + DigitValue(s[|s| - 1])
  }

  lemma {:induction false} DecimalRoundTrip(n: nat)
    ensures DecimalValue(Decimal(n)) == n
    ensures '.' !in Decimal(n)
    decreases n
  {
    if n >= 10 {
      DecimalRoundTrip(n / 10);
      var s := Decimal(n);
      assert s[..|s| - 1] == Decimal(n / 10);
    } else {
      assert [Digit(n)][..0] == "";
    }
  }

  lemma StoredAmountRoundTrip(cents: nat)
    ensures ParseStoredAmount(StoredAmount(cents)) == cents
  {
    var s := StoredAmount(cents);
    DecimalRoundTrip(cents / 100);
    assert s[..|s| - 3] == Decimal(cents / 100);
    assert s[|s| - 2] == Digit(cents / 10 % 10) && s[|s| - 1] == Digit(cents % 10);
  }

  /** Equal texts mean equal amounts, although the two sides print differently. */
  lemma EqualAmountTexts(stored: nat, submitted: nat)
    ensures StoredAmount(stored) == SubmittedAmount(submitted) <==> stored == submitted && submitted % 10 != 0
  {
    var s, d := StoredAmount(stored), SubmittedAmount(submitted);
    DecimalRoundTrip(submitted / 100);
    assert s[|s| - 3] == '.';
    if s == d && submitted % 10 != 0 {
      StoredAmountRoundTrip(stored);
      StoredAmountRoundTrip(submitted);
    }
    if submitted % 10 == 0 && submitted % 100 != 0 {
      var whole := Decimal(submitted / 100);
      assert d[|d| - 3] == whole[|whole| - 1];
    }
  }

  // ------------------------------------------------------------------------- the edit

  /** The editable fields, in the order in which an update visits them. */
  datatype Field = AmountField | TransactionIdField | TimestampField | BankNameField | ConfidenceField | ImageKeyField

  const FIELDS := [AmountField, TransactionIdField, TimestampField, BankNameField, ConfidenceField, ImageKeyField]

  /** An update request: a field that is absent stays as it is; the timestamp is still text. */
  datatype Update = Update(
    amount: Option<nat>, transactionId: Option<string>, timestamp: Option<string>, bankName: Option<string>,
    confidence: Option<Confidence>, imageKey: Option<string>)

  /** `toISOString`, `new Date(text)`, `String(confidence)` and the column it is stored in. */
  datatype Texts = Texts(iso: int -> string, instant: string -> int, number: Confidence -> string,
                         parseNumber: string -> Confidence)
  {
    ghost predicate Faithful() {
      (forall t :: instant(iso(t)) == t) && (forall c :: parseNumber(number(c)) == c)
    }
  }

  /** Signed decimals. */
  function Signed(n: int): string { if n < 0 then "-" + Decimal(-n) else Decimal(n) }

  function SignedValue(s: string): int {
    if s != "" && s[0] == '-' then 0 - DecimalValue(s[1..]) else DecimalValue(s)
  }

  lemma {:induction false} SignedRoundTrip(n: int)
    ensures SignedValue(Signed(n)) == n
  {
    DecimalRoundTrip(if n < 0 then -n else n);
    if n < 0 {
      assert ("-" + Decimal(-n))[1..] == Decimal(-n);
    } else {
      DecimalStartsWithDigit(n);
    }
  }

  lemma {:induction false} DecimalStartsWithDigit(n: nat)
    ensures '0' <= Decimal(n)[0] <= '9'
  {
    if n >= 10 {
      DecimalStartsWithDigit(n / 10);
    }
  }

  /** Text forms that can be read back exist. */
  lemma FaithfulTextsExist()
    ensures exists texts: Texts :: texts.Faithful()
  {
    var texts := Texts(Signed, SignedValue, Signed, SignedValue);
    forall n: int ensures SignedValue(Signed(n)) == n { SignedRoundTrip(n); }
    assert texts.Faithful();
  }

  datatype Entry = Entry(field: Field, oldValue: Option<string>, newValue: Option<string>)

  /** `readFieldValue` of a stored row. */
  function StoredText(texts: Texts, row: Row, field: Field): Option<string> {
    match field
    case AmountField => if row.amount.Some? then Some(StoredAmount(row.amount.value)) else None
    case TransactionIdField => row.transactionId
    case TimestampField => if row.timestamp.Some? then Some(texts.iso(row.timestamp.value)) else None
    case BankNameField => row.bankName
    case ConfidenceField => Some(texts.number(row.confidence))
    case ImageKeyField => row.imageKey
  }

  /** `readFieldValue` of an update request. */
  function SubmittedText(texts: Texts, u: Update, field: Field): Option<string> {
    match field
    case AmountField => if u.amount.Some? then Some(SubmittedAmount(u.amount.value)) else None
    case TransactionIdField => u.transactionId
    case TimestampField => u.timestamp
    case BankNameField => u.bankName
    case ConfidenceField => if u.confidence.Some? then Some(texts.number(u.confidence.value)) else None
    case ImageKeyField => u.imageKey
  }

  /** The row after one field of `prepareUpdatePayload` has been stored. */
  function SetField(texts: Texts, row: Row, u: Update, field: Field): Row {
    match field
    case AmountField => row.(amount := Or(u.amount, row.amount))
    case TransactionIdField => row.(transactionId := Or(u.transactionId, row.transactionId))
    case TimestampField => if u.timestamp.Some? then row.(timestamp := Some(texts.instant(u.timestamp.value))) else row
    case BankNameField => row.(bankName := Or(u.bankName, row.bankName))
    case ConfidenceField => if u.confidence.Some? then row.(confidence := u.confidence.value) else row
    case ImageKeyField => row.(imageKey := Or(u.imageKey, row.imageKey))
  }

  function SetFields(texts: Texts, row: Row, u: Update, fields: seq<Field>): Row
    decreases |fields|
  {
    if fields == [] then row
    else SetField(texts, SetFields(texts, row, u, fields[..|fields| - 1]), u, fields[|fields| - 1])
  }

  /** `prepareUpdatePayload` stored over the row. */
  function UpdatedRow(texts: Texts, row: Row, u: Update): Row {
    row.(amount := Or(u.amount, row.amount),
         transactionId := Or(u.transactionId, row.transactionId),
         timestamp := if u.timestamp.Some? then Some(texts.instant(u.timestamp.value)) else row.timestamp,
         bankName := Or(u.bankName, row.bankName),
         confidence := if u.confidence.Some? then u.confidence.value else row.confidence,
         imageKey := Or(u.imageKey, row.imageKey))
  }

  /** One entry for each present field whose two texts differ. */
  function Entries(texts: Texts, row: Row, u: Update, fields: seq<Field>): seq<Entry>
    decreases |fields|
  {
    if fields == [] then []
    else
      var front, field := fields[..|fields| - 1], fields[|fields| - 1];
      var before, after := StoredText(texts, row, field), SubmittedText(texts, u, field);
      Entries(texts, row, u, front) + (if after.None? || before == after then [] else [Entry(field, before, after)])
  }

  // ------------------------------------------------------------------------- undoing

  /** Puts one logged old value back. */
  function Restore(texts: Texts, row: Row, e: Entry): Row {
    match e.field
    case AmountField => row.(amount := if e.oldValue.Some? then Some(ParseStoredAmount(e.oldValue.value)) else None)
    case TransactionIdField => row.(transactionId := e.oldValue)
    case TimestampField => row.(timestamp := if e.oldValue.Some? then Some(texts.instant(e.oldValue.value)) else None)
    case BankNameField => row.(bankName := e.oldValue)
    case ConfidenceField => if e.oldValue.Some? then row.(confidence := texts.parseNumber(e.oldValue.value)) else row
    case ImageKeyField => row.(imageKey := e.oldValue)
  }

  /** Replays old values from the newest entry to the oldest. */
  function Undo(texts: Texts, row: Row, log: seq<Entry>): Row
    decreases |log|
  {
    if log == [] then row else Undo(texts, Restore(texts, row, log[|log| - 1]), log[..|log| - 1])
  }

  lemma {:induction false} UndoConcat(texts: Texts, row: Row, a: seq<Entry>, b: seq<Entry>)
    ensures Undo(texts, row, a + b) == Undo(texts, Undo(texts, row, b), a)
    decreases |b|
  {
    if b == [] {
      assert a + b == a;
    } else {
      var front := b[..|b| - 1];
      assert (a + b)[..|a + b| - 1] == a + front;
      UndoConcat(texts, Restore(texts, row, b[|b| - 1]), a, front);
    }
  }

  /** A field that the update leaves out of the log did not change. */
  lemma UnloggedFieldIsUnchanged(texts: Texts, row: Row, original: Row, u: Update, field: Field)
    requires texts.Faithful()
    requires StoredText(texts, row, field) == StoredText(texts, original, field)
    requires SubmittedText(texts, u, field).None?
             || StoredText(texts, original, field) == SubmittedText(texts, u, field)
    ensures SetField(texts, row, u, field) == row
  {
    if field == AmountField && u.amount.Some? {
      EqualAmountTexts(row.amount.value, u.amount.value);
    } else if field == TimestampField && u.timestamp.Some? {
      assert texts.instant(texts.iso(row.timestamp.value)) == row.timestamp.value;
    } else if field == ConfidenceField && u.confidence.Some? {
      assert texts.parseNumber(texts.number(row.confidence)) == row.confidence;
      assert texts.parseNumber(texts.number(u.confidence.value)) == u.confidence.value;
    }
  }

  /** The logged old value is the value that was there. */
  lemma RestoreUndoesSetField(texts: Texts, row: Row, original: Row, u: Update, field: Field)
    requires texts.Faithful()
    requires StoredText(texts, row, field) == StoredText(texts, original, field)
    ensures Restore(texts, SetField(texts, row, u, field),
                    Entry(field, StoredText(texts, original, field), SubmittedText(texts, u, field))) == row
  {
    if field == AmountField && row.amount.Some? {
      StoredAmountRoundTrip(row.amount.value);
    } else if field == TimestampField && row.timestamp.Some? {
      assert texts.instant(texts.iso(row.timestamp.value)) == row.timestamp.value;
    } else if field == ConfidenceField {
      assert texts.parseNumber(texts.number(row.confidence)) == row.confidence;
    }
  }

  predicate NoRepeats(fields: seq<Field>) {
    forall i, j :: 0 <= i < j < |fields| ==> fields[i] != fields[j]
  }

  lemma {:induction false} OtherFieldsDoNotShow(texts: Texts, row: Row, u: Update, fields: seq<Field>, field: Field)
    requires field !in fields
    ensures StoredText(texts, SetFields(texts, row, u, fields), field) == StoredText(texts, row, field)
    decreases |fields|
  {
    if fields != [] {
      var front, last := fields[..|fields| - 1], fields[|fields| - 1];
      OtherFieldsDoNotShow(texts, row, u, front, field);
    }
  }

  lemma {:induction false} UndoFields(texts: Texts, row: Row, u: Update, fields: seq<Field>)
    requires texts.Faithful() && NoRepeats(fields)
    ensures Undo(texts, SetFields(texts, row, u, fields), Entries(texts, row, u, fields)) == row
    decreases |fields|
  {
    if fields != [] {
      var front, field := fields[..|fields| - 1], fields[|fields| - 1];
      var before := SetFields(texts, row, u, front);
      OtherFieldsDoNotShow(texts, row, u, front, field);
      UndoFields(texts, row, u, front);
      var log := Entries(texts, row, u, front);
      if SubmittedText(texts, u, field).None? || StoredText(texts, row, field) == SubmittedText(texts, u, field) {
        UnloggedFieldIsUnchanged(texts, before, row, u, field);
        assert log + [] == log;
      } else {
        var e := Entry(field, StoredText(texts, row, field), SubmittedText(texts, u, field));
        RestoreUndoesSetField(texts, before, row, u, field);
        assert (log + [e])[..|log|] == log;
      }
    }
  }

  lemma AllFieldsAreTheUpdate(texts: Texts, row: Row, u: Update)
    ensures SetFields(texts, row, u, FIELDS) == UpdatedRow(texts, row, u)
  {
    var r := row;
    for k := 0 to 6
      invariant r == SetFields(texts, row, u, FIELDS[..k])
      invariant r == row.(
        amount := if k > 0 then Or(u.amount, row.amount) else row.amount,
        transactionId := if k > 1 then Or(u.transactionId, row.transactionId) else row.transactionId,
        timestamp := if k > 2 && u.timestamp.Some? then Some(texts.instant(u.timestamp.value)) else row.timestamp,
        bankName := if k > 3 then Or(u.bankName, row.bankName) else row.bankName,
        confidence := if k > 4 && u.confidence.Some? then u.confidence.value else row.confidence,
        imageKey := if k > 5 then Or(u.imageKey, row.imageKey) else row.imageKey)
    {
      assert FIELDS[..k + 1][..k] == FIELDS[..k];
      r := SetField(texts, r, u, FIELDS[k]);
    }
    assert FIELDS[..6] == FIELDS;
  }

  /** One update is undone by its own log. */
  lemma UndoUpdate(texts: Texts, row: Row, u: Update)
    requires texts.Faithful()
    ensures Undo(texts, UpdatedRow(texts, row, u), Entries(texts, row, u, FIELDS)) == row
  {
    AllFieldsAreTheUpdate(texts, row, u);
    UndoFields(texts, row, u, FIELDS);
  }

  // ------------------------------------------------------------------------- redoing

  /** Each submitted field has the submitted value afterwards, and nothing else has changed. */
  lemma UpdateTakesEffect(texts: Texts, row: Row, u: Update)
    ensures var r := UpdatedRow(texts, row, u);
            && r == row.(amount := r.amount, transactionId := r.transactionId, timestamp := r.timestamp,
                         bankName := r.bankName, confidence := r.confidence, imageKey := r.imageKey)
            && r.amount == (if u.amount.Some? then u.amount else row.amount)
            && r.transactionId == (if u.transactionId.Some? then u.transactionId else row.transactionId)
            && (u.timestamp.Some? ==> r.timestamp == Some(texts.instant(u.timestamp.value)))
            && (u.timestamp.None? ==> r.timestamp == row.timestamp)
            && r.bankName == (if u.bankName.Some? then u.bankName else row.bankName)
            && Some(r.confidence) == (if u.confidence.Some? then u.confidence else Some(row.confidence))
            && r.imageKey == (if u.imageKey.Some? then u.imageKey else row.imageKey)
  {
  }

  /** `Number` of a submitted amount, which has no, one or two decimals. */
  function ParseSubmittedAmount(s: string): nat {
    if |s| >= 3 && s[|s| - 3] == '.' then ParseStoredAmount(s)
    else if |s| >= 2 && s[|s| - 2] == '.' then 100 * DecimalValue(s[..|s| - 2]) + 10 * DigitValue(s[|s| - 1])
    else 100 * DecimalValue(s)
  }

  lemma ParseWhole(whole: nat)
    ensures ParseSubmittedAmount(Decimal(whole)) == 100 * whole
  {
    DecimalRoundTrip(whole);
  }

  lemma ParseOneDecimal(whole: nat, d: nat)
    requires d < 10
    ensures ParseSubmittedAmount(Decimal(whole) + "." + [Digit(d)]) == 100 * whole + 10 * d
  {
    var text, s := Decimal(whole), Decimal(whole) + "." + [Digit(d)];
    DecimalRoundTrip(whole);
    assert s[..|s| - 2] == text && s[|s| - 2] == '.' && s[|s| - 1] == Digit(d);
    assert |s| >= 3 && s[|s| - 3] == text[|text| - 1];
  }

  lemma SubmittedAmountRoundTrip(cents: nat)
    ensures ParseSubmittedAmount(SubmittedAmount(cents)) == cents
  {
    if cents % 100 == 0 {
      ParseWhole(cents / 100);
    } else if cents % 10 == 0 {
      ParseOneDecimal(cents / 100, cents / 10 % 10);
    } else {
      StoredAmountRoundTrip(cents);
      var s, whole := StoredAmount(cents), Decimal(cents / 100);
      assert |s| == |whole| + 3 && s[|s| - 3] == '.';
    }
  }

  /** Puts one logged new value in. */
  function Replace(texts: Texts, row: Row, e: Entry): Row
    requires e.newValue.Some?
  {
    match e.field
    case AmountField => row.(amount := Some(ParseSubmittedAmount(e.newValue.value)))
    case TransactionIdField => row.(transactionId := e.newValue)
    case TimestampField => row.(timestamp := Some(texts.instant(e.newValue.value)))
    case BankNameField => row.(bankName := e.newValue)
    case ConfidenceField => row.(confidence := texts.parseNumber(e.newValue.value))
    case ImageKeyField => row.(imageKey := e.newValue)
  }

  predicate AllNew(log: seq<Entry>) { forall i :: 0 <= i < |log| ==> log[i].newValue.Some? }

  /** Replays new values from the oldest entry to the newest. */
  function Redo(texts: Texts, row: Row, log: seq<Entry>): Row
    requires AllNew(log)
    decreases |log|
  {
    if log == [] then row else Replace(texts, Redo(texts, row, log[..|log| - 1]), log[|log| - 1])
  }

  lemma {:induction false} RedoConcat(texts: Texts, row: Row, a: seq<Entry>, b: seq<Entry>)
    requires AllNew(a) && AllNew(b)
    ensures AllNew(a + b) && Redo(texts, row, a + b) == Redo(texts, Redo(texts, row, a), b)
    decreases |b|
  {
    if b == [] {
      assert a + b == a;
    } else {
      var front := b[..|b| - 1];
      assert (a + b)[..|a + b| - 1] == a + front;
      RedoConcat(texts, row, a, front);
    }
  }

  /** The logged new value is the value that was submitted. */
  lemma ReplaceIsSetField(texts: Texts, row: Row, u: Update, e: Entry)
    requires texts.Faithful() && e.newValue.Some? && e.newValue == SubmittedText(texts, u, e.field)
    ensures Replace(texts, row, e) == SetField(texts, row, u, e.field)
  {
    if e.field == AmountField {
      SubmittedAmountRoundTrip(u.amount.value);
    } else if e.field == ConfidenceField {
      assert texts.parseNumber(texts.number(u.confidence.value)) == u.confidence.value;
    }
  }

  lemma {:induction false} RedoFields(texts: Texts, row: Row, u: Update, fields: seq<Field>)
    requires texts.Faithful() && NoRepeats(fields)
    ensures AllNew(Entries(texts, row, u, fields))
    ensures Redo(texts, row, Entries(texts, row, u, fields)) == SetFields(texts, row, u, fields)
    decreases |fields|
  {
    if fields != [] {
      var front, field := fields[..|fields| - 1], fields[|fields| - 1];
      var before, log := SetFields(texts, row, u, front), Entries(texts, row, u, front);
      OtherFieldsDoNotShow(texts, row, u, front, field);
      RedoFields(texts, row, u, front);
      if SubmittedText(texts, u, field).None? || StoredText(texts, row, field) == SubmittedText(texts, u, field) {
        UnloggedFieldIsUnchanged(texts, before, row, u, field);
        assert log + [] == log;
      } else {
        var e := Entry(field, StoredText(texts, row, field), SubmittedText(texts, u, field));
        ReplaceIsSetField(texts, before, u, e);
        assert (log + [e])[..|log|] == log;
      }
    }
  }

  /** One update is what its own log says: replaying the new values gives the updated row. */
  lemma RedoUpdate(texts: Texts, row: Row, u: Update)
    requires texts.Faithful()
    ensures AllNew(Entries(texts, row, u, FIELDS))
    ensures Redo(texts, row, Entries(texts, row, u, FIELDS)) == UpdatedRow(texts, row, u)
  {
    AllFieldsAreTheUpdate(texts, row, u);
    RedoFields(texts, row, u, FIELDS);
  }

  /** A series of updates, with the whole log. */
  function UpdateAll(texts: Texts, row: Row, us: seq<Update>): (Row, seq<Entry>)
    decreases |us|
  {
    if us == [] then (row, [])
    else
      var (before, log) := UpdateAll(texts, row, us[..|us| - 1]);
      var u := us[|us| - 1];
      (UpdatedRow(texts, before, u), log + Entries(texts, before, u, FIELDS))
  }

  /** Replaying the logged old values backwards restores the row as it was before all updates. */
  lemma {:induction false} LogUndoesEveryRun(texts: Texts, row: Row, us: seq<Update>)
    requires texts.Faithful()
    ensures var (after, log) := UpdateAll(texts, row, us); Undo(texts, after, log) == row
    decreases |us|
  {
    if us != [] {
      var front, u := us[..|us| - 1], us[|us| - 1];
      var (before, log) := UpdateAll(texts, row, front);
      UndoUpdate(texts, before, u);
      UndoConcat(texts, UpdatedRow(texts, before, u), log, Entries(texts, before, u, FIELDS));
      LogUndoesEveryRun(texts, row, front);
    }
  }

  /** And replaying the logged new values forwards gives the row as it is after all updates. */
  lemma {:induction false} LogRedoesEveryRun(texts: Texts, row: Row, us: seq<Update>)
    requires texts.Faithful()
    ensures var (after, log) := UpdateAll(texts, row, us); AllNew(log) && Redo(texts, row, log) == after
    decreases |us|
  {
    if us != [] {
      var front, u := us[..|us| - 1], us[|us| - 1];
      var (before, log) := UpdateAll(texts, row, front);
      LogRedoesEveryRun(texts, row, front);
      RedoUpdate(texts, before, u);
      RedoConcat(texts, row, log, Entries(texts, before, u, FIELDS));
    }
  }

  /**
   The log also holds entries for values that did not change: resubmitting a stored amount is
   logged exactly when it has a trailing zero, because the two sides print it differently.
   */
  lemma ResubmittedAmountIsLogged(texts: Texts, row: Row)
    requires row.amount.Some?
    ensures Entries(texts, row, Update(row.amount, None, None, None, None, None), [AmountField]) == [] <==>
            row.amount.value % 10 != 0
  {
    EqualAmountTexts(row.amount.value, row.amount.value);
    assert [AmountField][..0] == [];
  }
}
