/**
 Photo intake by the bot: the gates in front of the queue, the queue, and the acknowledgements,
 one per album (birr-track-backend/src/telegram/flows/receipt.service.ts).

 `processPhotoMessage` awaits the limiter and the queue, so several calls overlap. The state
 machine below lets every other step happen at each of those awaits; the class runs one call
 at a time over the same functions.
 */
module ReceiptIntake {
  import opened Common
  import opened RateLimit
  import Transactions
  import Membership

  /** One call of `processPhotoMessage`; it also names the job that the call adds. */
  type CallId = nat

  /** The identity of one `mediaGroupAcks` value, which its timer holds on to. */
  type AckId = nat

  datatype Album = Album(chatId: int, mediaGroupId: string)

  datatype KnownBusiness = KnownBusiness(id: nat, status: Membership.BusinessStatus)

  /** A photo message together with what the identity middleware found out about its sender. */
  datatype Upload = Upload(
    from: string, telegramName: string, fileUniqueId: string,
    user: Option<nat>, business: Option<KnownBusiness>, album: Option<Album>)

  datatype Reply =
    | UnknownPhotoUser
    | SuspendedBusiness
    | OwnerRejected
    | PendingBusiness
    | Throttled(to: string)
    | ReceivedOne
    | ReceivedMany(album: Album, count: nat)

  datatype Ack = Ack(album: Album, count: nat)

  datatype Desk = Desk(
    limit: nat, windowSeconds: nat,
    counters: map<string, Counter>, clock: int,
    queue: map<CallId, Transactions.Photo>,
    mediaGroupAcks: map<Album, AckId>, acks: map<AckId, Ack>, nextAck: AckId,
    timers: set<AckId>,
    sent: seq<Reply>)

  // ------------------------------------------------------------- the operations, as functions

  /** The reply that turns a photo away before the limiter is asked. */
  function Gate(u: Upload): Option<Reply> {
    if u.user.None? then Some(UnknownPhotoUser)
    else if u.business.Some? && u.business.value.status == Membership.Suspended then Some(SuspendedBusiness)
    else if u.business.Some? && u.business.value.status == Membership.Rejected then Some(OwnerRejected)
    else if u.business.None? || u.business.value.status != Membership.Active then Some(PendingBusiness)
    else None
  }

  /** The job: whose photo it is, and for which Business, as captured on arrival. */
  function Captured(u: Upload): Transactions.Photo
    requires Gate(u).None?
  {
    Transactions.Photo(u.business.value.id, u.user.value, u.telegramName, u.fileUniqueId)
  }

  function Kept(d: Desk, from: string): Option<Counter> { if from in d.counters then Some(d.counters[from]) else None }

  function Counted(d: Desk, u: Upload): Counter {
    Consumed(Kept(d, u.from), d.clock, 1000 * d.windowSeconds)
  }

  predicate LetsIn(d: Desk, u: Upload) { Gate(u).None? && Counted(d, u).count <= d.limit }

  /** Gates and limiter. Only the first photo over the limit is answered. */
  function Arrived(d: Desk, u: Upload): Desk {
    if Gate(u).Some? then d.(sent := d.sent + [Gate(u).value])
    else
      var counted := d.(counters := d.counters[u.from := Counted(d, u)]);
      if Counted(d, u).count == d.limit + 1 then counted.(sent := d.sent + [Throttled(u.from)]) else counted
  }

  function Enqueued(d: Desk, c: CallId, u: Upload): Desk
    requires Gate(u).None?
  {
    d.(queue := d.queue[c := Captured(u)])
  }

  function CountOf(d: Desk, id: AckId): nat { if id in d.acks then d.acks[id].count else 0 }

  /** `sendMediaGroupAck` */
  function Acknowledged(d: Desk, album: Option<Album>): Desk {
    match album
    case None => d.(sent := d.sent + [ReceivedOne])
    case Some(a) =>
      if a in d.mediaGroupAcks then
        var id := d.mediaGroupAcks[a];
        d.(acks := d.acks[id := Ack(a, CountOf(d, id) + 1)])
      else
        var id := d.nextAck;
        d.(mediaGroupAcks := d.mediaGroupAcks[a := id], acks := d.acks[id := Ack(a, 1)], nextAck := id + 1,
           timers := d.timers + {id})
  }

  /** The timer set up with the album's first photo. */
  function Fired(d: Desk, id: AckId): Desk
    requires id in d.acks
  {
    var ack := d.acks[id];
    d.(sent := d.sent + [ReceivedMany(ack.album, ack.count)], mediaGroupAcks := d.mediaGroupAcks - {ack.album},
       timers := d.timers - {id})
  }

  // --------------------------------------------------------------------------- the service

  class ReceiptService {
    const limiter: RateLimitService
    const limit: nat
    const windowSeconds: nat
    var queue: map<CallId, Transactions.Photo>
    var mediaGroupAcks: map<Album, AckId>
    var acks: map<AckId, Ack>
    var nextAck: AckId
    var timers: set<AckId>
    var sent: seq<Reply>

    function State(): Desk
      reads this, limiter
    {
      Desk(limit, windowSeconds, limiter.counters, limiter.clock, queue, mediaGroupAcks, acks, nextAck, timers, sent)
    }

    constructor (limiter: RateLimitService, limit: nat, windowSeconds: nat)
      ensures this.limiter == limiter
      ensures State() == Desk(limit, windowSeconds, limiter.counters, limiter.clock, map[], map[], map[], 0, {}, [])
    {
      this.limiter := limiter;
      this.limit := limit;
      this.windowSeconds := windowSeconds;
      queue, mediaGroupAcks, acks, nextAck, timers, sent := map[], map[], map[], 0, {}, [];
    }

    method ProcessPhotoMessage(c: CallId, u: Upload)
      modifies this, limiter`counters
      ensures var before := old(State());
              State() == if LetsIn(before, u) then Acknowledged(Enqueued(Arrived(before, u), c, u), u.album)
                         else Arrived(before, u)
    {
      if u.user.None? {
        sent := sent + [UnknownPhotoUser];
        return;
      }
      if u.business.Some? && u.business.value.status == Membership.Suspended {
        sent := sent + [SuspendedBusiness];
        return;
      }
      if u.business.Some? && u.business.value.status == Membership.Rejected {
        sent := sent + [OwnerRejected];
        return;
      }
      if u.business.None? || u.business.value.status != Membership.Active {
        sent := sent + [PendingBusiness];
        return;
      }
      var allowed, count := limiter.Consume(u.from, limit, windowSeconds, None);
      if !allowed {
        if count == limit + 1 {
          sent := sent + [Throttled(u.from)];
        }
        return;
      }
      queue := queue[c := Transactions.Photo(u.business.value.id, u.user.value, u.telegramName, u.fileUniqueId)];
      SendMediaGroupAck(u.album);
    }

    method SendMediaGroupAck(album: Option<Album>)
      modifies this
      ensures State() == Acknowledged(old(State()), album)
    {
      if album.None? {
        sent := sent + [ReceivedOne];
        return;
      }
      var key := album.value;
      if key in mediaGroupAcks {
        var id := mediaGroupAcks[key];
        acks := acks[id := Ack(key, (if id in acks then acks[id].count else 0) + 1)];
      } else {
        acks := acks[nextAck := Ack(key, 1)];
        timers := timers + {nextAck};
        mediaGroupAcks := mediaGroupAcks[key := nextAck];
        nextAck := nextAck + 1;
      }
    }

    method TimerFires(id: AckId)
      requires id in acks
      modifies this
      ensures State() == Fired(old(State()), id)
    {
      var ack := acks[id];
      sent := sent + [ReceivedMany(ack.album, ack.count)];
      mediaGroupAcks := mediaGroupAcks - {ack.album};
      timers := timers - {id};
    }
  }

  // --------------------------------------------------------------------- overlapping calls

  datatype Stage = LetIn | Queued

  /** An upload's place among its sender's arrivals at the limiter. */
  datatype Turn = Turn(from: string, index: nat)

  /**
   `calls` are the calls under way. The rest is history: all uploads let in and their turns,
   every sender's arrivals at the limiter with the counters they left, the acknowledgement each album photo was counted
   in, the photos answered on their own, and the acknowledgements that went out.
   */
  datatype Intake = Intake(
    desk: Desk,
    calls: map<CallId, Stage>,
    uploads: map<CallId, Upload>,
    turns: map<CallId, Turn>,
    arrivals: map<string, seq<Tally>>,
    countedIn: map<CallId, AckId>,
    answered: set<CallId>,
    announced: map<AckId, Ack>)

  datatype Step =
    | Arrives(c: CallId, u: Upload)
    | Enqueues(c: CallId)
    | EnqueueThrows(c: CallId)
    | Acknowledges(c: CallId)
    | Fires(id: AckId)
    | Waits(ms: nat)

  predicate Enabled(s: Intake, step: Step) {
    match step
    case Arrives(c, _) => c !in s.uploads
    case Enqueues(c) => c in s.calls && s.calls[c] == LetIn && c in s.uploads && Gate(s.uploads[c]).None?
    case EnqueueThrows(c) => c in s.calls && s.calls[c] == LetIn
    case Acknowledges(c) => c in s.calls && s.calls[c] == Queued && c in s.uploads
    case Fires(id) => id in s.desk.timers && id in s.desk.acks
    case Waits(_) => true
  }

  function ArrivalsOf(s: Intake, from: string): seq<Tally> { if from in s.arrivals then s.arrivals[from] else [] }

  /** The acknowledgement that the next photo of the album is counted in. */
  function AckFor(d: Desk, a: Album): AckId { if a in d.mediaGroupAcks then d.mediaGroupAcks[a] else d.nextAck }

  function Next(s: Intake, step: Step): Intake
    requires Enabled(s, step)
  {
    match step
    case Arrives(c, u) => AfterArrival(s, c, u)
    case Enqueues(c) => s.(desk := Enqueued(s.desk, c, s.uploads[c]), calls := s.calls[c := Queued])
    case EnqueueThrows(c) => s.(calls := s.calls - {c})
    case Acknowledges(c) =>
      var album := s.uploads[c].album;
      var after := s.(desk := Acknowledged(s.desk, album), calls := s.calls - {c});
      (match album
       case None => after.(answered := s.answered + {c})
       case Some(a) => after.(countedIn := s.countedIn[c := AckFor(s.desk, a)]))
    case Fires(id) => s.(desk := Fired(s.desk, id), announced := s.announced[id := s.desk.acks[id]])
    case Waits(ms) => s.(desk := s.desk.(clock := s.desk.clock + ms))
  }

  function AfterArrival(s: Intake, c: CallId, u: Upload): Intake {
    var tally := Tally(s.desk.clock, Counted(s.desk, u));
    var counted :=
      if Gate(u).Some? then s
      else s.(arrivals := s.arrivals[u.from := ArrivalsOf(s, u.from) + [tally]]);
    if LetsIn(s.desk, u)
    then counted.(desk := Arrived(s.desk, u), calls := s.calls[c := LetIn], uploads := s.uploads[c := u],
                  turns := s.turns[c := Turn(u.from, |ArrivalsOf(s, u.from)|)])
    else counted.(desk := Arrived(s.desk, u))
  }

  predicate Runs(s: Intake, steps: seq<Step>)
    decreases |steps|
  {
    steps == [] || (Enabled(s, steps[0]) && Runs(Next(s, steps[0]), steps[1..]))
  }

  function After(s: Intake, steps: seq<Step>): Intake
    requires Runs(s, steps)
    decreases |steps|
  {
    if steps == [] then s else After(Next(s, steps[0]), steps[1..])
  }

  function Start(limit: nat, windowSeconds: nat, clock: int): Intake {
    var desk := Desk(limit, windowSeconds, map[], clock, map[], map[], map[], 0, {}, []);
    Intake(desk, map[], map[], map[], map[], map[], {}, map[])
  }

  // ------------------------------------------------------------ each photo is counted once

  predicate CallOk(s: Intake, c: CallId) {
    && (c in s.calls || c in s.desk.queue ==> c in s.uploads)
    && (c in s.uploads ==> Gate(s.uploads[c]).None?)
    && (c in s.calls ==> (c in s.desk.queue <==> s.calls[c] == Queued) && c !in s.countedIn && c !in s.answered)
  }

  /** A queued photo is still to be acknowledged, was answered, or is counted: one of the three. */
  predicate JobOk(s: Intake, c: CallId) {
    && (c in s.desk.queue ==> c in s.uploads && Gate(s.uploads[c]).None? && s.desk.queue[c] == Captured(s.uploads[c]))
    && (c in s.desk.queue && c !in s.calls ==> if s.uploads[c].album.None? then c in s.answered else c in s.countedIn)
    && (c in s.answered ==> c in s.desk.queue && s.uploads[c].album.None?)
    && (c in s.countedIn ==>
        && c in s.desk.queue && s.countedIn[c] in s.desk.acks
        && s.uploads[c].album == Some(s.desk.acks[s.countedIn[c]].album))
  }

  function CountedIn(s: Intake, id: AckId): set<CallId> { set c | c in s.countedIn && s.countedIn[c] == id }

  /** An acknowledgement waits under its album's key, or went out with its final count. */
  predicate AckOk(s: Intake, id: AckId) {
    && (id in s.desk.timers ==> id in s.desk.acks && id !in s.announced)
    && (id in s.announced ==> id in s.desk.acks && s.announced[id] == s.desk.acks[id] && id !in s.desk.timers)
    && (id in s.desk.acks ==>
        && id < s.desk.nextAck
        && (id in s.desk.timers || id in s.announced)
        && (id in s.desk.timers <==>
            s.desk.acks[id].album in s.desk.mediaGroupAcks && s.desk.mediaGroupAcks[s.desk.acks[id].album] == id)
        && s.desk.acks[id].count == |CountedIn(s, id)|)
  }

  predicate KeyOk(s: Intake, a: Album) {
    a in s.desk.mediaGroupAcks ==>
      s.desk.mediaGroupAcks[a] in s.desk.acks && s.desk.acks[s.desk.mediaGroupAcks[a]].album == a
  }

  ghost predicate Tidy(s: Intake) {
    && (forall c :: CallOk(s, c))
    && (forall c :: JobOk(s, c))
    && (forall id :: AckOk(s, id))
    && (forall a :: KeyOk(s, a))
  }

  /** What a step that neither queues nor acknowledges leaves alone. */
  predicate SameAcks(s: Intake, t: Intake) {
    && t.desk.acks == s.desk.acks && t.desk.mediaGroupAcks == s.desk.mediaGroupAcks && t.desk.nextAck == s.desk.nextAck
    && t.desk.timers == s.desk.timers && t.announced == s.announced && t.countedIn == s.countedIn
    && t.answered == s.answered
  }

  lemma AcksStayTidy(s: Intake, t: Intake)
    requires Tidy(s) && SameAcks(s, t)
    ensures (forall id :: AckOk(t, id)) && (forall a :: KeyOk(t, a))
  {
    forall id ensures AckOk(t, id) { assert AckOk(s, id) && CountedIn(t, id) == CountedIn(s, id); }
    forall a ensures KeyOk(t, a) { assert KeyOk(s, a); }
  }

  lemma ArrivesAppends(s: Intake, c: CallId, u: Upload)
    requires Enabled(s, Arrives(c, u))
    ensures var t := Next(s, Arrives(c, u));
            && SameAcks(s, t) && t.desk.queue == s.desk.queue
            && t.calls == (if LetsIn(s.desk, u) then s.calls[c := LetIn] else s.calls)
            && t.uploads == (if LetsIn(s.desk, u) then s.uploads[c := u] else s.uploads)
            && (|| t.desk.sent == s.desk.sent
                || exists reply: Reply :: !reply.ReceivedMany? && t.desk.sent == s.desk.sent + [reply])
  {
    assert Gate(u).Some? ==>
             !Gate(u).value.ReceivedMany? && Next(s, Arrives(c, u)).desk.sent == s.desk.sent + [Gate(u).value];
    assert Gate(u).None? ==> Next(s, Arrives(c, u)).desk.sent in {s.desk.sent, s.desk.sent + [Throttled(u.from)]};
  }

  lemma LetInTidy(s: Intake, t: Intake, c: CallId, u: Upload)
    requires Tidy(s) && c !in s.uploads && Gate(u).None?
    requires SameAcks(s, t) && t.desk.queue == s.desk.queue
    requires t.calls == s.calls[c := LetIn] && t.uploads == s.uploads[c := u]
    ensures Tidy(t)
  {
    AcksStayTidy(s, t);
    assert CallOk(s, c) && JobOk(s, c);
    forall x ensures CallOk(t, x) && JobOk(t, x) { assert CallOk(s, x) && JobOk(s, x); }
  }

  lemma TurnedAwayTidy(s: Intake, t: Intake)
    requires Tidy(s) && SameAcks(s, t) && t.desk.queue == s.desk.queue && t.calls == s.calls && t.uploads == s.uploads
    ensures Tidy(t)
  {
    AcksStayTidy(s, t);
    forall x ensures CallOk(t, x) && JobOk(t, x) { assert CallOk(s, x) && JobOk(s, x); }
  }

  lemma ArrivesTidy(s: Intake, c: CallId, u: Upload)
    requires Tidy(s) && Enabled(s, Arrives(c, u))
    ensures Tidy(Next(s, Arrives(c, u)))
  {
    ArrivesAppends(s, c, u);
    if LetsIn(s.desk, u) {
      LetInTidy(s, Next(s, Arrives(c, u)), c, u);
    } else {
      TurnedAwayTidy(s, Next(s, Arrives(c, u)));
    }
  }

  lemma CallMovesTidy(s: Intake, step: Step, c: CallId)
    requires Tidy(s) && Enabled(s, step) && (step == Enqueues(c) || step == EnqueueThrows(c))
    ensures Tidy(Next(s, step))
  {
    var t := Next(s, step);
    AcksStayTidy(s, t);
    forall x ensures CallOk(t, x) && JobOk(t, x) { assert CallOk(s, x) && JobOk(s, x); }
  }

  lemma AnswersTidy(s: Intake, c: CallId)
    requires Tidy(s) && Enabled(s, Acknowledges(c)) && s.uploads[c].album.None?
    ensures Tidy(Next(s, Acknowledges(c)))
  {
    var t := Next(s, Acknowledges(c));
    forall x ensures CallOk(t, x) && JobOk(t, x) { assert CallOk(s, x) && JobOk(s, x); }
    forall id ensures AckOk(t, id) { assert AckOk(s, id) && CountedIn(t, id) == CountedIn(s, id); }
    forall a ensures KeyOk(t, a) { assert KeyOk(s, a); }
  }

  lemma CountsKeepsAck(s: Intake, c: CallId, id: AckId)
    requires Enabled(s, Acknowledges(c)) && s.uploads[c].album.Some?
    requires KeyOk(s, s.uploads[c].album.value) && AckOk(s, AckFor(s.desk, s.uploads[c].album.value)) && AckOk(s, id)
    requires c !in s.countedIn && forall x :: x in s.countedIn ==> s.countedIn[x] in s.desk.acks
    ensures AckOk(Next(s, Acknowledges(c)), id)
  {
    CountsOneMore(s, c, AckFor(s.desk, s.uploads[c].album.value), id);
  }

  lemma CountsTidy(s: Intake, c: CallId)
    requires Tidy(s) && Enabled(s, Acknowledges(c)) && s.uploads[c].album.Some?
    ensures Tidy(Next(s, Acknowledges(c)))
  {
    var t := Next(s, Acknowledges(c));
    var a := s.uploads[c].album.value;
    assert KeyOk(s, a) && AckOk(s, AckFor(s.desk, a)) && CallOk(s, c);
    forall x | x in s.countedIn ensures s.countedIn[x] in s.desk.acks { assert JobOk(s, x); }
    forall x ensures CallOk(t, x) && JobOk(t, x) { assert CallOk(s, x) && JobOk(s, x); }
    forall id ensures AckOk(t, id) {
      assert AckOk(s, id);
      CountsKeepsAck(s, c, id);
    }
    forall b ensures KeyOk(t, b) { assert KeyOk(s, b); }
  }

  lemma CountsOneMore(s: Intake, c: CallId, mine: AckId, id: AckId)
    requires c !in s.countedIn && forall x :: x in s.countedIn ==> s.countedIn[x] in s.desk.acks
    ensures |CountedIn(s.(countedIn := s.countedIn[c := mine]), id)| ==
            |CountedIn(s, id)| + (if id == mine then 1 else 0)
    ensures mine !in s.desk.acks ==> |CountedIn(s, mine)| == 0
  {
    var t := s.(countedIn := s.countedIn[c := mine]);
    assert CountedIn(t, id) == CountedIn(s, id) + (if id == mine then {c} else {});
    if mine !in s.desk.acks {
      assert CountedIn(s, mine) == {};
    }
  }

  lemma FiresTidy(s: Intake, id: AckId)
    requires Tidy(s) && Enabled(s, Fires(id))
    ensures Tidy(Next(s, Fires(id)))
  {
    var t := Next(s, Fires(id));
    assert AckOk(s, id);
    forall x ensures CallOk(t, x) && JobOk(t, x) { assert CallOk(s, x) && JobOk(s, x); }
    forall x ensures AckOk(t, x) { assert AckOk(s, x) && CountedIn(t, x) == CountedIn(s, x); }
    forall a ensures KeyOk(t, a) { assert KeyOk(s, a); }
  }

  lemma StepTidy(s: Intake, step: Step)
    requires Tidy(s) && Enabled(s, step)
    ensures Tidy(Next(s, step))
  {
    match step
    case Arrives(c, u) => ArrivesTidy(s, c, u);
    case Enqueues(c) => CallMovesTidy(s, step, c);
    case EnqueueThrows(c) => CallMovesTidy(s, step, c);
    case Acknowledges(c) => if s.uploads[c].album.None? { AnswersTidy(s, c); } else { CountsTidy(s, c); }
    case Fires(id) => FiresTidy(s, id);
    case Waits(ms) => TurnedAwayTidy(s, Next(s, step));
  }

  // -------------------------------------------------------------- the counts add up, per album

  function Announced(sent: seq<Reply>, a: Album): nat {
    if sent == [] then 0
    else
      var last := sent[|sent| - 1];
      Announced(sent[..|sent| - 1], a) + if last.ReceivedMany? && last.album == a then last.count else 0
  }

  function Pending(d: Desk, a: Album): nat { if a in d.mediaGroupAcks then CountOf(d, d.mediaGroupAcks[a]) else 0 }

  predicate OfAlbum(s: Intake, c: CallId, a: Album) {
    c in s.desk.queue && c in s.uploads && s.uploads[c].album == Some(a)
  }

  function QueuedFor(s: Intake, a: Album): set<CallId> { set c | c in s.desk.queue && OfAlbum(s, c, a) }

  /** Queued, and still on the way to its acknowledgement. */
  function OnTheWay(s: Intake, a: Album): set<CallId> {
    set c | c in s.calls && s.calls[c] == Queued && OfAlbum(s, c, a)
  }

  ghost predicate Balanced(s: Intake, a: Album) {
    |QueuedFor(s, a)| == Announced(s.desk.sent, a) + Pending(s.desk, a) + |OnTheWay(s, a)|
  }

  /** Every queued photo was let in. */
  predicate QueueKnown(s: Intake) { s.desk.queue.Keys <= s.uploads.Keys }

  lemma SameQueueBalanced(s: Intake, t: Intake, a: Album)
    requires Balanced(s, a) && SameAcks(s, t) && t.desk.queue == s.desk.queue && QueueKnown(s)
    requires Announced(t.desk.sent, a) == Announced(s.desk.sent, a)
    requires forall c :: c in s.uploads ==> c in t.uploads && t.uploads[c] == s.uploads[c]
    requires forall c :: c in s.desk.queue ==>
             ((c in t.calls && t.calls[c] == Queued) <==> (c in s.calls && s.calls[c] == Queued))
    ensures Balanced(t, a)
  {
    assert QueuedFor(t, a) == QueuedFor(s, a);
    assert OnTheWay(t, a) == OnTheWay(s, a);
  }

  lemma ArrivesBalanced(s: Intake, c: CallId, u: Upload, a: Album)
    requires QueueKnown(s) && Balanced(s, a) && Enabled(s, Arrives(c, u))
    ensures Balanced(Next(s, Arrives(c, u)), a)
  {
    var t := Next(s, Arrives(c, u));
    ArrivesAppends(s, c, u);
    if t.desk.sent != s.desk.sent {
      var reply: Reply :| !reply.ReceivedMany? && t.desk.sent == s.desk.sent + [reply];
    }
    SameQueueBalanced(s, t, a);
  }

  lemma QueueingBalanced(s: Intake, t: Intake, c: CallId, a: Album)
    requires Balanced(s, a) && c in s.uploads && c !in s.desk.queue
    requires t.uploads == s.uploads && t.desk.queue.Keys == s.desk.queue.Keys + {c} && t.calls == s.calls[c := Queued]
    requires t.desk.sent == s.desk.sent && Pending(t.desk, a) == Pending(s.desk, a)
    ensures Balanced(t, a)
  {
    var mine := s.uploads[c].album == Some(a);
    forall x ensures x in QueuedFor(t, a) <==> x in QueuedFor(s, a) || (mine && x == c) {
      assert OfAlbum(t, x, a) <==> OfAlbum(s, x, a) || (mine && x == c);
    }
    OneMore(QueuedFor(s, a), QueuedFor(t, a), c, mine);
    forall x ensures x in OnTheWay(t, a) <==> x in OnTheWay(s, a) || (mine && x == c) {
      assert OfAlbum(t, x, a) <==> OfAlbum(s, x, a) || (mine && x == c);
    }
    OneMore(OnTheWay(s, a), OnTheWay(t, a), c, mine);
  }

  lemma AnsweringBalanced(s: Intake, t: Intake, c: CallId, a: Album)
    requires Balanced(s, a) && c in s.uploads && s.uploads[c].album.None?
    requires t.desk.queue == s.desk.queue && t.calls == s.calls - {c} && t.uploads == s.uploads
    requires t.desk.sent == s.desk.sent + [ReceivedOne] && Pending(t.desk, a) == Pending(s.desk, a)
    ensures Balanced(t, a)
  {
    assert QueuedFor(t, a) == QueuedFor(s, a);
    assert OnTheWay(t, a) == OnTheWay(s, a);
  }

  lemma CountingBalanced(s: Intake, t: Intake, c: CallId, b: Album, a: Album)
    requires Balanced(s, a) && Enabled(s, Acknowledges(c)) && s.uploads[c].album == Some(b) && c in s.desk.queue
    requires t.desk.queue == s.desk.queue && t.desk.sent == s.desk.sent && t.uploads == s.uploads
             && t.calls == s.calls - {c}
    requires Pending(t.desk, a) == Pending(s.desk, a) + if a == b then 1 else 0
    ensures Balanced(t, a)
  {
    var gone := if a == b then {c} else {};
    assert QueuedFor(t, a) == QueuedFor(s, a);
    assert gone <= OnTheWay(s, a) && OnTheWay(t, a) == OnTheWay(s, a) - gone;
  }

  lemma AnnouncingBalanced(s: Intake, t: Intake, ack: Ack, a: Album)
    requires Balanced(s, a) && t.desk.queue == s.desk.queue && t.calls == s.calls && t.uploads == s.uploads
    requires t.desk.sent == s.desk.sent + [ReceivedMany(ack.album, ack.count)]
    requires Pending(s.desk, a) == Pending(t.desk, a) + if a == ack.album then ack.count else 0
    ensures Balanced(t, a)
  {
    assert QueuedFor(t, a) == QueuedFor(s, a);
    assert OnTheWay(t, a) == OnTheWay(s, a);
  }

  lemma PendingGrows(s: Intake, b: Album, a: Album)
    requires KeyOk(s, a) && KeyOk(s, b) && AckOk(s, AckFor(s.desk, a))
    ensures Pending(Acknowledged(s.desk, Some(b)), a) == Pending(s.desk, a) + if a == b then 1 else 0
  {
  }

  lemma AcknowledgesBalanced(s: Intake, c: CallId, a: Album)
    requires Balanced(s, a) && Enabled(s, Acknowledges(c)) && CallOk(s, c)
    requires KeyOk(s, a) && AckOk(s, AckFor(s.desk, a))
    requires s.uploads[c].album.Some? ==> KeyOk(s, s.uploads[c].album.value)
    ensures Balanced(Next(s, Acknowledges(c)), a)
  {
    if s.uploads[c].album.None? {
      AnsweringBalanced(s, Next(s, Acknowledges(c)), c, a);
    } else {
      var b := s.uploads[c].album.value;
      PendingGrows(s, b, a);
      CountingBalanced(s, Next(s, Acknowledges(c)), c, b, a);
    }
  }

  lemma FiresBalanced(s: Intake, id: AckId, a: Album)
    requires Balanced(s, a) && Enabled(s, Fires(id)) && AckOk(s, id) && KeyOk(s, a)
    ensures Balanced(Next(s, Fires(id)), a)
  {
    AnnouncingBalanced(s, Next(s, Fires(id)), s.desk.acks[id], a);
  }

  lemma StepBalanced(s: Intake, step: Step, a: Album)
    requires Tidy(s) && Balanced(s, a) && Enabled(s, step)
    ensures Balanced(Next(s, step), a)
  {
    var t := Next(s, step);
    assert KeyOk(s, a);
    forall x | x in s.desk.queue ensures x in s.uploads { assert CallOk(s, x); }
    match step
    case Arrives(c, u) => ArrivesBalanced(s, c, u, a);
    case Enqueues(c) =>
      assert CallOk(s, c);
      QueueingBalanced(s, t, c, a);
    case EnqueueThrows(c) => SameQueueBalanced(s, t, a);
    case Acknowledges(c) =>
      assert CallOk(s, c) && AckOk(s, AckFor(s.desk, a));
      assert s.uploads[c].album.Some? ==> KeyOk(s, s.uploads[c].album.value);
      AcknowledgesBalanced(s, c, a);
    case Fires(id) =>
      assert AckOk(s, id);
      FiresBalanced(s, id, a);
    case Waits(ms) => SameQueueBalanced(s, t, a);
  }

  // ------------------------------------------------------------ the limiter in front of it all

  function Window(s: Intake): int { 1000 * s.desk.windowSeconds }

  /** How many throttle replies went to the sender. */
  function Replies(sent: seq<Reply>, to: string): nat {
    if sent == [] then 0 else Replies(sent[..|sent| - 1], to) + if sent[|sent| - 1] == Throttled(to) then 1 else 0
  }

  /** The key holds what the latest arrival left, and the replies so far are the throttled arrivals. */
  ghost predicate Matched(run: seq<Tally>, kept: Option<Counter>, w: int, clock: int, limit: nat, replies: nat) {
    && Run(run, w) && Found(run, |run|) == kept
    && (run != [] ==> run[|run| - 1].time <= clock)
    && replies == Throttles(run, limit)
  }

  ghost predicate SenderOk(s: Intake, from: string) {
    Matched(ArrivalsOf(s, from), Kept(s.desk, from), Window(s), s.desk.clock, s.desk.limit, Replies(s.desk.sent, from))
  }

  predicate TurnOk(s: Intake, c: CallId) {
    c in s.uploads ==>
      && c in s.turns && s.turns[c].from == s.uploads[c].from
      && s.turns[c].index < |ArrivalsOf(s, s.turns[c].from)|
      && Admitted(ArrivalsOf(s, s.turns[c].from), s.desk.limit, s.turns[c].index)
  }

  predicate OwnTurn(s: Intake, c: CallId, x: CallId) {
    c in s.uploads && x in s.uploads && c in s.turns && x in s.turns && s.turns[c] == s.turns[x] ==> c == x
  }

  ghost predicate Limited(s: Intake) {
    && (forall from :: SenderOk(s, from))
    && (forall c :: TurnOk(s, c))
    && (forall c, x :: OwnTurn(s, c, x))
  }

  /** How an arrival shows at the limiter: one more tally and, for the first over the limit, a reply. */
  predicate Counts(s: Intake, t: Intake, u: Upload) {
    && t.arrivals == s.arrivals[u.from := ArrivalsOf(s, u.from) + [Tally(s.desk.clock, Counted(s.desk, u))]]
    && t.desk.counters == s.desk.counters[u.from := Counted(s.desk, u)]
    && t.desk.sent == (if Counted(s.desk, u).count == s.desk.limit + 1 then s.desk.sent + [Throttled(u.from)]
                       else s.desk.sent)
    && t.desk.clock == s.desk.clock && t.desk.limit == s.desk.limit && t.desk.windowSeconds == s.desk.windowSeconds
  }

  /** And how every other step does. */
  ghost predicate CountsNothing(s: Intake, t: Intake) {
    && t.arrivals == s.arrivals && t.uploads == s.uploads && t.turns == s.turns
    && t.desk.counters == s.desk.counters && t.desk.clock >= s.desk.clock
    && t.desk.limit == s.desk.limit && t.desk.windowSeconds == s.desk.windowSeconds
    && (t.desk.sent == s.desk.sent || exists reply: Reply :: !reply.Throttled? && t.desk.sent == s.desk.sent + [reply])
  }

  lemma OthersCountNothing(s: Intake, step: Step)
    requires Enabled(s, step) && (step.Arrives? ==> Gate(step.u).Some?)
    ensures CountsNothing(s, Next(s, step))
  {
    var sent := Next(s, step).desk.sent;
    match step
    case Arrives(_, u) => assert sent == s.desk.sent + [Gate(u).value];
    case Acknowledges(c) => assert s.uploads[c].album.None? ==> sent == s.desk.sent + [ReceivedOne];
    case Fires(id) => assert sent == s.desk.sent + [ReceivedMany(s.desk.acks[id].album, s.desk.acks[id].count)];
    case _ =>
  }

  lemma OneMoreReply(sent: seq<Reply>, reply: Reply, to: string)
    ensures Replies(sent + [reply], to) == Replies(sent, to) + if reply == Throttled(to) then 1 else 0
  {
    assert (sent + [reply])[..|sent|] == sent;
  }

  lemma OneMoreArrival(run: seq<Tally>, kept: Option<Counter>, w: int, clock: int, limit: nat, replies: nat)
    requires Matched(run, kept, w, clock, limit, replies)
    ensures var c := Consumed(kept, clock, w);
            Matched(run + [Tally(clock, c)], Some(c), w, clock, limit, replies + if c.count == limit + 1 then 1 else 0)
  {
    var more := run + [Tally(clock, Consumed(kept, clock, w))];
    assert more[..|run|] == run;
  }

  lemma CountsKeepsOthers(s: Intake, t: Intake, u: Upload, from: string)
    requires SenderOk(s, from) && Counts(s, t, u) && from != u.from
    ensures SenderOk(t, from)
  {
    OneMoreReply(s.desk.sent, Throttled(u.from), from);
    assert ArrivalsOf(t, from) == ArrivalsOf(s, from) && Kept(t.desk, from) == Kept(s.desk, from);
  }

  lemma CountsKeepsSender(s: Intake, t: Intake, u: Upload)
    requires SenderOk(s, u.from) && Counts(s, t, u)
    ensures SenderOk(t, u.from)
  {
    var run, kept := ArrivalsOf(s, u.from), Kept(s.desk, u.from);
    OneMoreReply(s.desk.sent, Throttled(u.from), u.from);
    OneMoreArrival(run, kept, Window(s), s.desk.clock, s.desk.limit, Replies(s.desk.sent, u.from));
    assert ArrivalsOf(t, u.from) == run + [Tally(s.desk.clock, Counted(s.desk, u))];
    assert Kept(t.desk, u.from) == Some(Counted(s.desk, u));
  }

  lemma CountsLimited(s: Intake, t: Intake, c: CallId, u: Upload)
    requires Limited(s) && Counts(s, t, u) && c !in s.uploads
    requires t.uploads == (if LetsIn(s.desk, u) then s.uploads[c := u] else s.uploads)
    requires t.turns == (if LetsIn(s.desk, u) then s.turns[c := Turn(u.from, |ArrivalsOf(s, u.from)|)] else s.turns)
    ensures Limited(t)
  {
    forall from ensures SenderOk(t, from) {
      if from == u.from {
        CountsKeepsSender(s, t, u);
      } else {
        CountsKeepsOthers(s, t, u, from);
      }
    }
    forall x ensures TurnOk(t, x) { assert TurnOk(s, x); }
    forall x, y ensures OwnTurn(t, x, y) { assert OwnTurn(s, x, y) && TurnOk(s, x) && TurnOk(s, y); }
  }

  lemma CountsNothingLimited(s: Intake, t: Intake)
    requires Limited(s) && CountsNothing(s, t)
    ensures Limited(t)
  {
    forall from ensures SenderOk(t, from) {
      assert SenderOk(s, from);
      if t.desk.sent != s.desk.sent {
        var reply: Reply :| !reply.Throttled? && t.desk.sent == s.desk.sent + [reply];
        OneMoreReply(s.desk.sent, reply, from);
      }
    }
    forall x ensures TurnOk(t, x) { assert TurnOk(s, x); }
    forall x, y ensures OwnTurn(t, x, y) { assert OwnTurn(s, x, y); }
  }

  lemma StepLimited(s: Intake, step: Step)
    requires Limited(s) && Enabled(s, step)
    ensures Limited(Next(s, step))
  {
    if step.Arrives? && Gate(step.u).None? {
      CountsLimited(s, Next(s, step), step.c, step.u);
    } else {
      OthersCountNothing(s, step);
      CountsNothingLimited(s, Next(s, step));
    }
  }
}
