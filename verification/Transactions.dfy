/**
 Stored transactions: creation from a processed receipt, repair on redelivery, edits with
 their log, and removal (birr-track-backend/src/transactions/transactions.service.ts and
 src/processing/processing.service.ts). Amounts are integer cents, times are instants.
 */
module Transactions {
  import opened Common

  type BusinessId = nat

  type UserId = nat

  /** A stored double; which number it stands for does not matter here, only that there are countably many. */
  type Confidence = int

  /** The unique index on Business and Telegram file. */
  datatype Key = Key(businessId: BusinessId, fileUniqueId: string)

  datatype Status = Recorded | NeedsReview

  datatype Row = Row(
    userId: UserId, telegramName: string, status: Status,
    amount: Option<nat>, transactionId: Option<string>, timestamp: Option<int>, bankName: Option<string>,
    confidence: Confidence, imageKey: Option<string>,
    isDuplicate: bool, editedByUploader: bool)
  {
    predicate HasAllFields() { amount.Some? && transactionId.Some? && timestamp.Some? && bankName.Some? }
  }

  type Table = map<Key, Row>

  /** A queued photo with the membership captured when it was accepted. */
  datatype Photo = Photo(businessId: BusinessId, userId: UserId, telegramName: string, fileUniqueId: string) {
    function UniqueKey(): Key { Key(businessId, fileUniqueId) }
  }

  /** What the model read off the image; any field may be missing. */
  datatype Extraction = Extraction(
    amount: Option<nat>, transactionId: Option<string>, timestamp: Option<int>, bankName: Option<string>,
    confidence: Confidence)
  {
    predicate Complete() { amount.Some? && transactionId.Some? && timestamp.Some? && bankName.Some? }

    function Status(): Status { if Complete() then Recorded else NeedsReview }
  }

  const NOTHING_READ := Extraction(None, None, None, None, 0)

  /** How far the stages download, upload, extract came. */
  datatype Stages =
    | FailedBeforeUpload
    | FailedToExtract(imageKey: string)
    | Extracted(imageKey: string, parsed: Extraction)
  {
    function Parsed(): Extraction { if Extracted? then parsed else NOTHING_READ }

    function Image(): Option<string> { if FailedBeforeUpload? then None else Some(imageKey) }
  }

  /** One processed job: what is about to be written. */
  datatype Draft = Draft(photo: Photo, image: Option<string>, parsed: Extraction, isDuplicate: bool)

  // ------------------------------------------------------------------ create and repair

  predicate Matches(row: Row, transactionId: string, amount: nat, timestamp: int) {
    row.transactionId == Some(transactionId) && row.amount == Some(amount) && row.timestamp == Some(timestamp)
  }

  /** Any row of the Business counts, whatever its status, the job's own earlier row included. */
  predicate FindDuplicate(table: Table, b: BusinessId, transactionId: string, amount: nat, timestamp: int) {
    exists k :: k in table && k.businessId == b && Matches(table[k], transactionId, amount, timestamp)
  }

  /** The duplicate flag of a job: looked up for complete extractions only. */
  predicate Duplicates(table: Table, b: BusinessId, x: Extraction) {
    x.Complete() && FindDuplicate(table, b, x.transactionId.value, x.amount.value, x.timestamp.value)
  }

  function NewRow(d: Draft): Row {
    Row(d.photo.userId, d.photo.telegramName, d.parsed.Status(),
        d.parsed.amount, d.parsed.transactionId, d.parsed.timestamp, d.parsed.bankName,
        d.parsed.confidence, d.image, d.isDuplicate, false)
  }

  function Or<T>(first: Option<T>, second: Option<T>): Option<T> { if first.Some? then first else second }

  function RepairedRow(row: Row, d: Draft): Row {
    if row.editedByUploader then row
    else
      row.(userId := d.photo.userId,
           telegramName := d.photo.telegramName,
           amount := Or(d.parsed.amount, row.amount),
           transactionId := Or(d.parsed.transactionId, row.transactionId),
           timestamp := Or(d.parsed.timestamp, row.timestamp),
           bankName := Or(d.parsed.bankName, row.bankName),
           confidence := d.parsed.confidence,
           isDuplicate := d.isDuplicate,
           imageKey := Or(d.image, row.imageKey),
           status := d.parsed.Status())
  }

  /** Insert, or on a clash of the unique index repair. */
  function Written(table: Table, d: Draft): Table {
    var k := d.photo.UniqueKey();
    table[k := if k in table then RepairedRow(table[k], d) else NewRow(d)]
  }

  function DraftOf(table: Table, photo: Photo, stages: Stages): Draft {
    Draft(photo, stages.Image(), stages.Parsed(), Duplicates(table, photo.businessId, stages.Parsed()))
  }

  /** A draft carries what the stages got as far as: the stored image, and what was read off it. */
  lemma DraftSaysHowFarItCame(table: Table, photo: Photo, stages: Stages)
    ensures var d := DraftOf(table, photo, stages);
            && d.photo == photo
            && (d.image.None? <==> stages.FailedBeforeUpload?)
            && (stages.FailedToExtract? ==> d.image == Some(stages.imageKey))
            && (stages.Extracted? ==> d.image == Some(stages.imageKey) && d.parsed == stages.parsed)
            && (!stages.Extracted? ==> d.parsed == Extraction(None, None, None, None, 0) && !d.isDuplicate)
  {
  }

  /** A redelivery never overwrites a row that its uploader has edited. */
  lemma EditedRowsArePreserved(table: Table, d: Draft)
    requires d.photo.UniqueKey() in table && table[d.photo.UniqueKey()].editedByUploader
    ensures Written(table, d) == table
  {
    assert table[d.photo.UniqueKey() := table[d.photo.UniqueKey()]] == table;
  }

  // ------------------------------------------------------------ a redelivery's own row

  /** Some other row of the Business has the reading. */
  predicate OthersMatch(table: Table, k: Key, x: Extraction)
    requires x.Complete()
  {
    exists other :: other in table && other != k && other.businessId == k.businessId && OwnMatches(table[other], x)
  }

  predicate OwnMatches(row: Row, x: Extraction)
    requires x.Complete()
  {
    row.transactionId == x.transactionId && row.amount == x.amount && row.timestamp == x.timestamp
  }

  /** A redelivery flags the row if another row has its reading, and also if only its own row does. */
  lemma RedeliveryFlagsExactlyIf(table: Table, photo: Photo, stages: Stages)
    requires photo.UniqueKey() in table && !table[photo.UniqueKey()].editedByUploader
    ensures var k, x := photo.UniqueKey(), stages.Parsed();
            var flagged := Written(table, DraftOf(table, photo, stages))[k].isDuplicate;
            flagged <==> (x.Complete() && (OwnMatches(table[k], x) || OthersMatch(table, k, x)))
  {
    var k, x := photo.UniqueKey(), stages.Parsed();
    if x.Complete() && Duplicates(table, photo.businessId, x) && !OwnMatches(table[k], x) {
      var other :| other in table && other.businessId == photo.businessId
                   && Matches(table[other], x.transactionId.value, x.amount.value, x.timestamp.value);
      assert other != k && OwnMatches(table[other], x);
    }
  }

  /**
   Delivering the same complete reading again always leaves the row flagged, so the second
   delivery keeps the flag of the first exactly if the first had found a duplicate already.
   */
  lemma SameReadingFlagsItself(table: Table, photo: Photo, stages: Stages)
    requires stages.Parsed().Complete()
    requires photo.UniqueKey() in table ==> !table[photo.UniqueKey()].editedByUploader
    ensures var k := photo.UniqueKey();
            var once := Written(table, DraftOf(table, photo, stages));
            var twice := Written(once, DraftOf(once, photo, stages));
            && twice[k].isDuplicate
            && (twice[k].isDuplicate == once[k].isDuplicate <==> Duplicates(table, photo.businessId, stages.Parsed()))
  {
    var once := Written(table, DraftOf(table, photo, stages));
    assert OwnMatches(once[photo.UniqueKey()], stages.Parsed());
    RedeliveryFlagsExactlyIf(once, photo, stages);
  }

  // ------------------------------------------------------------- repeated deliveries

  function WrittenAll(table: Table, ds: seq<Draft>): Table
    decreases |ds|
  {
    if ds == [] then table else Written(WrittenAll(table, ds[..|ds| - 1]), ds[|ds| - 1])
  }

  /** The last value that is present. */
  function Latest<T>(xs: seq<Option<T>>): Option<T>
    decreases |xs|
  {
    if xs == [] then None else Or(xs[|xs| - 1], Latest(xs[..|xs| - 1]))
  }

  function Amounts(ds: seq<Draft>): seq<Option<nat>> { seq(|ds|, i requires 0 <= i < |ds| => ds[i].parsed.amount) }

  function TransactionIds(ds: seq<Draft>): seq<Option<string>> {
    seq(|ds|, i requires 0 <= i < |ds| => ds[i].parsed.transactionId)
  }

  function Timestamps(ds: seq<Draft>): seq<Option<int>> {
    seq(|ds|, i requires 0 <= i < |ds| => ds[i].parsed.timestamp)
  }

  function BankNames(ds: seq<Draft>): seq<Option<string>> {
    seq(|ds|, i requires 0 <= i < |ds| => ds[i].parsed.bankName)
  }

  function Images(ds: seq<Draft>): seq<Option<string>> { seq(|ds|, i requires 0 <= i < |ds| => ds[i].image) }

  lemma ColumnsSplit(ds: seq<Draft>)
    requires ds != []
    ensures var front, last := ds[..|ds| - 1], ds[|ds| - 1];
            && Amounts(ds) == Amounts(front) + [last.parsed.amount]
            && TransactionIds(ds) == TransactionIds(front) + [last.parsed.transactionId]
            && Timestamps(ds) == Timestamps(front) + [last.parsed.timestamp]
            && BankNames(ds) == BankNames(front) + [last.parsed.bankName]
            && Images(ds) == Images(front) + [last.image]
  {
  }

  /** The row that a non-empty series of deliveries of one photo should leave. */
  ghost predicate Merged(row: Row, ds: seq<Draft>)
    requires ds != []
  {
    var last := ds[|ds| - 1];
    && row.amount == Latest(Amounts(ds))
    && row.transactionId == Latest(TransactionIds(ds))
    && row.timestamp == Latest(Timestamps(ds))
    && row.bankName == Latest(BankNames(ds))
    && row.imageKey == Latest(Images(ds))
    && row.confidence == last.parsed.confidence
    && row.userId == last.photo.userId && row.telegramName == last.photo.telegramName
    && row.isDuplicate == last.isDuplicate && !row.editedByUploader
    && (row.status == Recorded <==> last.parsed.Complete())
  }

  lemma MergedStep(row: Row, front: seq<Draft>, d: Draft)
    requires front != [] && Merged(row, front)
    ensures Merged(RepairedRow(row, d), front + [d])
  {
    var ds := front + [d];
    assert ds[..|ds| - 1] == front;
    ColumnsSplit(ds);
  }

  /** The deliveries of one photo among others, in order. */
  function Of(ds: seq<Draft>, k: Key): seq<Draft>
    decreases |ds|
  {
    if ds == [] then []
    else
      var front, last := ds[..|ds| - 1], ds[|ds| - 1];
      if last.photo.UniqueKey() == k then Of(front, k) + [last] else Of(front, k)
  }

  /**
   However the deliveries of many photos interleave, each delivered photo has one row: every
   field is the latest that was read for it, and the status says whether its last delivery was
   complete.
   */
  lemma {:induction false} DeliveriesMerge(ds: seq<Draft>, k: Key)
    ensures var table := WrittenAll(map[], ds);
            && (k in table <==> Of(ds, k) != [])
            && (k in table ==> Merged(table[k], Of(ds, k)))
    decreases |ds|
  {
    if ds != [] {
      var front, last := ds[..|ds| - 1], ds[|ds| - 1];
      DeliveriesMerge(front, k);
      if last.photo.UniqueKey() == k {
        if Of(front, k) == [] {
          assert Of(ds, k) == [last];
        } else {
          MergedStep(WrittenAll(map[], front)[k], Of(front, k), last);
        }
      }
    }
  }

  /** A recorded row has all four fields. */
  predicate RowOk(row: Row) { row.status == Recorded ==> row.HasAllFields() }

  lemma WritingKeepsRowsOk(table: Table, d: Draft)
    requires forall k :: k in table ==> RowOk(table[k])
    ensures forall k :: k in Written(table, d) ==> RowOk(Written(table, d)[k])
  {
  }
}
