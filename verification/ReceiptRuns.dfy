/**
 What every run of the photo intake keeps, however calls and timers interleave
 (birr-track-backend/src/telegram/flows/receipt.service.ts).
 */
module ReceiptRuns {
  import opened Common
  import RateLimit
  import Transactions
  import Membership
  import opened ReceiptIntake

  ghost predicate Reachable(s: Intake) {
    exists clock, steps ::
      var start := Start(s.desk.limit, s.desk.windowSeconds, clock);
      Runs(start, steps) && s == After(start, steps)
  }

  ghost predicate Inv(s: Intake) { Tidy(s) && Limited(s) && forall a :: Balanced(s, a) }

  lemma {:induction false} RunKeepsInv(s: Intake, steps: seq<Step>)
    requires Inv(s) && Runs(s, steps)
    ensures Inv(After(s, steps))
    decreases |steps|
  {
    if steps != [] {
      StepTidy(s, steps[0]);
      StepLimited(s, steps[0]);
      forall a ensures Balanced(Next(s, steps[0]), a) { StepBalanced(s, steps[0], a); }
      RunKeepsInv(Next(s, steps[0]), steps[1..]);
    }
  }

  lemma StartIsInv(limit: nat, windowSeconds: nat, clock: int)
    ensures Inv(Start(limit, windowSeconds, clock))
  {
    var start := Start(limit, windowSeconds, clock);
    forall a ensures Balanced(start, a) {
      assert QueuedFor(start, a) == {} && OnTheWay(start, a) == {};
    }
  }

  lemma ReachableInv(s: Intake)
    requires Reachable(s)
    ensures Inv(s)
  {
    var clock, steps :|
      var start := Start(s.desk.limit, s.desk.windowSeconds, clock);
      Runs(start, steps) && s == After(start, steps);
    StartIsInv(s.desk.limit, s.desk.windowSeconds, clock);
    RunKeepsInv(Start(s.desk.limit, s.desk.windowSeconds, clock), steps);
  }

  /**
   However calls and timers interleave, the photos queued for an album are those announced,
   plus those pending, plus those queued by a call that is just about to count them.
   */
  lemma AlbumCountsAddUp(s: Intake, a: Album)
    requires Reachable(s)
    ensures |QueuedFor(s, a)| == Announced(s.desk.sent, a) + Pending(s.desk, a) + |OnTheWay(s, a)|
  {
    ReachableInv(s);
    assert Balanced(s, a);
  }

  /** Once no call is under way and no timer is running, an album's announcements cover it exactly. */
  lemma QuietAlbumsAreAnnounced(s: Intake, a: Album)
    requires Reachable(s) && s.calls == map[] && s.desk.timers == {}
    ensures Announced(s.desk.sent, a) == |QueuedFor(s, a)|
  {
    AlbumCountsAddUp(s, a);
    ReachableInv(s);
    assert OnTheWay(s, a) == {};
    assert KeyOk(s, a) && AckOk(s, AckFor(s.desk, a));
  }

  /** The sender had an account in an active Business on arrival, and the job says whose and which. */
  predicate FromActiveMember(u: Upload, photo: Transactions.Photo) {
    && u.user == Some(photo.userId) && u.business == Some(KnownBusiness(photo.businessId, Membership.Active))
    && photo.telegramName == u.telegramName && photo.fileUniqueId == u.fileUniqueId
  }

  /** Who is turned away with which reply; that costs the sender no turn and changes nothing else. */
  lemma TurnedAwayByStatus(s: Intake, c: CallId, u: Upload)
    requires c !in s.uploads
    ensures var reply :=
              if u.user.None? then Some(UnknownPhotoUser)
              else match u.business
                case None => Some(PendingBusiness)
                case Some(business) =>
                  (match business.status
                   case Suspended => Some(SuspendedBusiness)
                   case Rejected => Some(OwnerRejected)
                   case Pending => Some(PendingBusiness)
                   case Active => None);
            var t := Next(s, Arrives(c, u));
            && (reply.Some? ==> t == s.(desk := s.desk.(sent := s.desk.sent + [reply.value])))
            && (reply.None? ==> |ArrivalsOf(t, u.from)| == |ArrivalsOf(s, u.from)| + 1)
  {
  }

  /** A photo that reached the limiter is let in exactly if its window has not had more than the limit by then. */
  lemma LetInExactlyIf(s: Intake, c: CallId, u: Upload)
    requires Reachable(s) && c !in s.uploads && u.user.Some?
    requires u.business.Some? && u.business.value.status == Membership.Active
    ensures var t := Next(s, Arrives(c, u));
            var run := ArrivalsOf(t, u.from);
            && run != [] && run[|run| - 1].time == s.desk.clock && run[..|run| - 1] == ArrivalsOf(s, u.from)
            && RateLimit.Run(run, Window(s))
            && (c in t.uploads <==> RateLimit.Count(run, |run| - 1) <= s.desk.limit)
  {
    ReachableInv(s);
    assert SenderOk(s, u.from);
    ArrivalIsCounted(s, c, u);
    OneMoreArrival(ArrivalsOf(s, u.from), Kept(s.desk, u.from), Window(s), s.desk.clock, s.desk.limit,
                   Replies(s.desk.sent, u.from));
  }

  lemma ArrivalIsCounted(s: Intake, c: CallId, u: Upload)
    requires c !in s.uploads && Gate(u).None?
    ensures var t := Next(s, Arrives(c, u));
            && ArrivalsOf(t, u.from) == ArrivalsOf(s, u.from) + [RateLimit.Tally(s.desk.clock, Counted(s.desk, u))]
            && (c in t.uploads <==> Counted(s.desk, u).count <= s.desk.limit)
  {
  }

  function SinglesSent(sent: seq<Reply>): nat {
    if sent == [] then 0 else SinglesSent(sent[..|sent| - 1]) + if sent[|sent| - 1] == ReceivedOne then 1 else 0
  }

  lemma SinglesGrow(sent: seq<Reply>, reply: Reply)
    ensures SinglesSent(sent + [reply]) == SinglesSent(sent) + if reply == ReceivedOne then 1 else 0
  {
    assert (sent + [reply])[..|sent|] == sent;
  }

  lemma ArrivedSendsNoSingle(d: Desk, u: Upload)
    ensures SinglesSent(Arrived(d, u).sent) == SinglesSent(d.sent)
  {
    var sent := Arrived(d, u).sent;
    if Gate(u).Some? {
      SinglesGrow(d.sent, Gate(u).value);
    } else if Counted(d, u).count == d.limit + 1 {
      SinglesGrow(d.sent, Throttled(u.from));
      assert sent == d.sent + [Throttled(u.from)];
    } else {
      assert sent == d.sent;
    }
  }

  lemma AcknowledgingSendsSingles(d: Desk, album: Option<Album>)
    ensures SinglesSent(Acknowledged(d, album).sent) == SinglesSent(d.sent) + if album.None? then 1 else 0
  {
    SinglesGrow(d.sent, ReceivedOne);
  }

  /** Only the call that acknowledges a photo outside an album counts it as answered. */
  lemma AcknowledgingAnswers(s: Intake, c: CallId)
    requires Enabled(s, Acknowledges(c))
    ensures var album, t := s.uploads[c].album, Next(s, Acknowledges(c));
            && t.desk == Acknowledged(s.desk, album)
            && t.answered == if album.None? then s.answered + {c} else s.answered
  {
  }

  lemma FiringSendsNoSingle(d: Desk, id: AckId)
    requires id in d.acks
    ensures SinglesSent(Fired(d, id).sent) == SinglesSent(d.sent)
  {
    SinglesGrow(d.sent, ReceivedMany(d.acks[id].album, d.acks[id].count));
  }

  lemma ArrivingAnswersNone(s: Intake, c: CallId, u: Upload)
    requires c !in s.uploads
    ensures var t := Next(s, Arrives(c, u)); t.desk == Arrived(s.desk, u) && t.answered == s.answered
  {
  }

  lemma StepAnswersSingles(s: Intake, step: Step)
    requires Enabled(s, step) && (step.Acknowledges? ==> step.c !in s.answered)
    requires SinglesSent(s.desk.sent) == |s.answered|
    ensures SinglesSent(Next(s, step).desk.sent) == |Next(s, step).answered|
  {
    match step
    case Arrives(c, u) =>
      ArrivingAnswersNone(s, c, u);
      ArrivedSendsNoSingle(s.desk, u);
    case Acknowledges(c) =>
      AcknowledgingAnswers(s, c);
      AcknowledgingSendsSingles(s.desk, s.uploads[c].album);
    case Fires(id) => FiringSendsNoSingle(s.desk, id);
    case _ =>
  }

  lemma {:induction false} RunAnswersSingles(s: Intake, steps: seq<Step>)
    requires Tidy(s) && Runs(s, steps) && SinglesSent(s.desk.sent) == |s.answered|
    ensures SinglesSent(After(s, steps).desk.sent) == |After(s, steps).answered|
    decreases |steps|
  {
    if steps != [] {
      assert steps[0].Acknowledges? ==> CallOk(s, steps[0].c);
      StepAnswersSingles(s, steps[0]);
      StepTidy(s, steps[0]);
      RunAnswersSingles(Next(s, steps[0]), steps[1..]);
    }
  }

  /** As many single replies went out as photos outside albums were answered. */
  lemma SinglesAreAnsweredOnce(s: Intake)
    requires Reachable(s)
    ensures SinglesSent(s.desk.sent) == |s.answered|
  {
    var clock, steps :|
      var start := Start(s.desk.limit, s.desk.windowSeconds, clock);
      Runs(start, steps) && s == After(start, steps);
    var start := Start(s.desk.limit, s.desk.windowSeconds, clock);
    StartIsInv(s.desk.limit, s.desk.windowSeconds, clock);
    RunAnswersSingles(start, steps);
  }

  /**
   Every queued photo was let in with the attribution it arrived with; once its call is over it
   was answered on its own or counted in one acknowledgement of its own album, whose count is
   the number of its photos and, once sent, stays what was sent.
   */
  lemma EachPhotoIsAcknowledgedOnce(s: Intake, c: CallId)
    requires Reachable(s) && c in s.desk.queue
    ensures c in s.uploads && FromActiveMember(s.uploads[c], s.desk.queue[c])
    ensures c !in s.calls ==>
            (c in s.answered <==> s.uploads[c].album.None?) && (c in s.countedIn <==> s.uploads[c].album.Some?)
    ensures c in s.countedIn ==>
              var id := s.countedIn[c];
              && id in s.desk.acks && s.uploads[c].album == Some(s.desk.acks[id].album)
              && s.desk.acks[id].count == |CountedIn(s, id)|
              && (id in s.desk.timers || (id in s.announced && s.announced[id] == s.desk.acks[id]))
  {
    ReachableInv(s);
    assert CallOk(s, c) && JobOk(s, c);
    if c in s.countedIn {
      assert AckOk(s, s.countedIn[c]);
    }
  }

  function QueuedWithin(s: Intake, from: string, start: int): set<CallId> {
    set c | c in s.desk.queue && SentWithin(s, c, from, start)
  }

  /** The photo reached the limiter in the window's length from `start` on. */
  predicate SentWithin(s: Intake, c: CallId, from: string, start: int) {
    && c in s.turns && s.turns[c].from == from && s.turns[c].index < |ArrivalsOf(s, from)|
    && start <= ArrivalsOf(s, from)[s.turns[c].index].time < start + Window(s)
  }

  /** No sender gets `2 * limit` photos of one window's length into the queue. */
  lemma QueueTakesLessThanTwiceLimit(s: Intake, from: string, start: int)
    requires Reachable(s) && s.desk.windowSeconds > 0
    ensures |QueuedWithin(s, from, start)| <= Max(0, 2 * s.desk.limit - 1)
  {
    ReachableInv(s);
    var run := ArrivalsOf(s, from);
    assert SenderOk(s, from);
    var mine := QueuedWithin(s, from, start);
    var index := (c: nat) => if c in s.turns then s.turns[c].index else 0;
    forall c, x | c in mine && x in mine && index(c) == index(x) ensures c == x {
      assert CallOk(s, c) && CallOk(s, x) && OwnTurn(s, c, x);
    }
    RateLimit.ImageSize(mine, index);
    var indices := set c | c in mine :: index(c);
    var admitted := RateLimit.AdmittedWithin(run, Window(s), s.desk.limit, start);
    forall i | i in indices ensures i in admitted {
      var c :| c in mine && i == index(c);
      assert CallOk(s, c) && TurnOk(s, c);
    }
    SubsetIsSmaller(indices, admitted);
    RateLimit.IntervalAdmitsLessThanTwiceLimit(run, Window(s), s.desk.limit, start);
  }

  /** A sender gets exactly one throttle reply for each of their windows with too many photos. */
  lemma ThrottleRepliesAreOverfullWindows(s: Intake, from: string)
    requires Reachable(s) && s.desk.windowSeconds > 0
    ensures RateLimit.Run(ArrivalsOf(s, from), Window(s))
    ensures Replies(s.desk.sent, from) == |RateLimit.Overfull(ArrivalsOf(s, from), Window(s), s.desk.limit)|
  {
    ReachableInv(s);
    assert SenderOk(s, from);
    RateLimit.OneThrottleReplyPerOverfullWindow(ArrivalsOf(s, from), Window(s), s.desk.limit);
  }
}
