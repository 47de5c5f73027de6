/**
 The session store seen from one session id. Its history is read off the calls alone, with no
 Redis keys, lifetimes or indexes; in every run the store answers exactly as the history says
 (birr-track-backend/src/auth/admin-panel-session.service.ts).
 */
module SessionHistory {
  import opened Common
  import opened AdminPanelSessions

  /** What the calls so far say: the last creation, the last renewal since, and whether it was revoked since. */
  datatype History =
    | NeverCreated
    | Session(hash: nat, payload: SessionPayload, createdAt: int, renewedAt: int, revoked: bool)

  predicate Lives(h: History, life: Lifetimes, now: int) {
    h.Session? && !h.revoked && now < h.renewedAt + life.idleTtl && now < h.createdAt + life.maxTtl
  }

  function Told(h: History, life: Lifetimes, now: int, op: Op, sid: SessionId): History {
    match op
    case CreateSession(x, hash, payload) => if x == sid then Session(hash, payload, now, now, false) else h
    case RenewSession(x, hash) =>
      if x == sid && Lives(h, life, now) && h.hash == hash then h.(renewedAt := now) else h
    case RevokeSession(x) => if x == sid && h.Session? then h.(revoked := true) else h
    case RevokeUser(user) => if h.Session? && h.payload.userId == Some(user) then h.(revoked := true) else h
    case _ => h
  }

  /** The history after more calls, the first of them at millisecond `clock`. */
  function HistoryOf(h: History, life: Lifetimes, clock: nat, ops: seq<Op>, sid: SessionId): History
    decreases |ops|
  {
    if ops == [] then h
    else
      HistoryOf(Told(h, life, clock / 1000, ops[0], sid), life,
                if ops[0].Wait? then clock + ops[0].ms else clock, ops[1..], sid)
  }

  /** A stored record is the one of the history, and the sessions that live are the active ones. */
  predicate Agrees(s: Store, life: Lifetimes, sid: SessionId, h: History) {
    && (sid in s.records ==>
        var r := s.records[sid].value;
        && h.Session? && r.refreshTokenHash == h.hash && r.payload == h.payload
        && r.createdAt == h.createdAt && r.lastRenewedAt == h.renewedAt)
    && (s.Active(sid) <==> Lives(h, life, s.Now()))
  }

  /** Calls that may take the record away, whose absence is what the history says. */
  lemma RevokingAgrees(s: Store, life: Lifetimes, op: Op, sid: SessionId, h: History)
    requires Inv(s, life) && Agrees(s, life, sid, h) && (op.AssertSession? || op.RevokeSession? || op.RevokeUser?)
    ensures Agrees(Apply(s, life, op), life, sid, Told(h, life, s.Now(), op, sid))
  {
    if sid in s.records {
      assert RecordOk(life, s.records[sid], s.Now()) && Indexed(s, sid);
    }
    if op.RevokeUser? {
      assert OwnMember(s, op.user, sid);
    }
  }

  lemma RenewingAgrees(s: Store, life: Lifetimes, x: SessionId, hash: nat, sid: SessionId, h: History)
    requires life.Valid() && Inv(s, life) && Agrees(s, life, sid, h)
    ensures Agrees(Renewed(s, life, x, hash).0, life, sid, Told(h, life, s.Now(), RenewSession(x, hash), sid))
  {
    if sid in s.records {
      assert RecordOk(life, s.records[sid], s.Now());
    }
  }

  lemma CreatingAgrees(s: Store, life: Lifetimes, op: Op, sid: SessionId, h: History)
    requires life.Valid() && Inv(s, life) && Agrees(s, life, sid, h) && op.CreateSession?
    ensures Agrees(Apply(s, life, op), life, sid, Told(h, life, s.Now(), op, sid))
  {
  }

  lemma WaitingAgrees(s: Store, life: Lifetimes, ms: nat, sid: SessionId, h: History)
    requires Inv(s, life) && Agrees(s, life, sid, h)
    ensures Agrees(s.(clock := s.clock + ms), life, sid, h)
  {
    if sid in s.records {
      assert RecordOk(life, s.records[sid], s.Now());
    }
  }

  lemma StepAgrees(s: Store, life: Lifetimes, op: Op, sid: SessionId, h: History)
    requires life.Valid() && Inv(s, life) && Agrees(s, life, sid, h)
    ensures Agrees(Apply(s, life, op), life, sid, Told(h, life, s.Now(), op, sid))
  {
    match op
    case CreateSession(_, _, _) => CreatingAgrees(s, life, op, sid, h);
    case RenewSession(x, hash) => RenewingAgrees(s, life, x, hash, sid, h);
    case Wait(ms) => WaitingAgrees(s, life, ms, sid, h);
    case _ => RevokingAgrees(s, life, op, sid, h);
  }

  lemma {:induction false} RunAgrees(s: Store, life: Lifetimes, ops: seq<Op>, sid: SessionId, h: History)
    requires life.Valid() && Inv(s, life) && FreshIds(s, life, ops) && Agrees(s, life, sid, h)
    ensures Inv(Run(s, life, ops), life)
    ensures Agrees(Run(s, life, ops), life, sid, HistoryOf(h, life, s.clock, ops, sid))
    decreases |ops|
  {
    if ops != [] {
      StepAgrees(s, life, ops[0], sid, h);
      ApplyKeepsInv(s, life, ops[0]);
      OnlyWaitingTakesTime(s, life, ops[0]);
      RunAgrees(Apply(s, life, ops[0]), life, ops[1..], sid, Told(h, life, s.Now(), ops[0], sid));
    }
  }

  lemma OnlyWaitingTakesTime(s: Store, life: Lifetimes, op: Op)
    ensures Apply(s, life, op).clock == if op.Wait? then s.clock + op.ms else s.clock
  {
  }

  /** The store after a run from the empty one. */
  function StoreOf(clock: nat, life: Lifetimes, ops: seq<Op>): Store { Run(Store(map[], map[], clock), life, ops) }

  ghost predicate RunsFresh(clock: nat, life: Lifetimes, ops: seq<Op>) {
    life.Valid() && FreshIds(Store(map[], map[], clock), life, ops)
  }

  function TaleOf(clock: nat, life: Lifetimes, ops: seq<Op>, sid: SessionId): History {
    HistoryOf(NeverCreated, life, clock, ops, sid)
  }

  /** The record that a history tells of. */
  function RecordOf(h: History, life: Lifetimes): SessionRecord
    requires h.Session?
  {
    SessionRecord(h.hash, h.payload, h.createdAt, h.renewedAt, h.createdAt + life.maxTtl,
                  Min(h.createdAt + life.maxTtl, h.renewedAt + life.idleTtl))
  }

  lemma RunTells(clock: nat, life: Lifetimes, ops: seq<Op>, sid: SessionId)
    requires RunsFresh(clock, life, ops)
    ensures Inv(StoreOf(clock, life, ops), life)
    ensures Agrees(StoreOf(clock, life, ops), life, sid, TaleOf(clock, life, ops, sid))
  {
    RunAgrees(Store(map[], map[], clock), life, ops, sid, NeverCreated);
  }

  /**
   After every run from an empty store the session is active exactly if its history says that it
   lives, and its record is the one that the history tells of.
   */
  lemma ActiveExactlyIfItLives(clock: nat, life: Lifetimes, ops: seq<Op>, sid: SessionId)
    requires RunsFresh(clock, life, ops)
    ensures var s, h := StoreOf(clock, life, ops), TaleOf(clock, life, ops, sid);
            s.Active(sid) <==> Lives(h, life, s.Now())
    ensures var s, h := StoreOf(clock, life, ops), TaleOf(clock, life, ops, sid);
            s.Active(sid) ==> s.records[sid].value == RecordOf(h, life)
  {
    var s := StoreOf(clock, life, ops);
    RunTells(clock, life, ops, sid);
    if s.Active(sid) {
      assert RecordOk(life, s.records[sid], s.Now());
    }
  }

  /** The token is the one that the session was created with. */
  predicate Knows(h: History, hash: nat) { h.Session? && h.hash == hash }

  /**
   After every run a renewal succeeds exactly if the session lives and the token is the one it was
   created with. Any other token changes nothing, whatever has become of the session.
   */
  lemma RenewalNeedsTheToken(clock: nat, life: Lifetimes, ops: seq<Op>, sid: SessionId, hash: nat)
    requires RunsFresh(clock, life, ops)
    ensures var s, h := StoreOf(clock, life, ops), TaleOf(clock, life, ops, sid);
            Renewed(s, life, sid, hash).1.Ok? <==> Lives(h, life, s.Now()) && Knows(h, hash)
    ensures var s, h := StoreOf(clock, life, ops), TaleOf(clock, life, ops, sid);
            !Knows(h, hash) ==> Renewed(s, life, sid, hash).0 == s
    ensures var s := StoreOf(clock, life, ops);
            RenewalIsRight(s, life, sid, hash, TaleOf(clock, life, ops, sid))
  {
    ActiveExactlyIfItLives(clock, life, ops, sid);
    RunTells(clock, life, ops, sid);
    var s := StoreOf(clock, life, ops);
    if s.Active(sid) {
      assert RecordOk(life, s.records[sid], s.Now());
    }
  }

  /** The renewed record is the one stored; a session that is over loses its record to its own token only. */
  predicate RenewalIsRight(s: Store, life: Lifetimes, sid: SessionId, hash: nat, h: History) {
    var (after, answer) := Renewed(s, life, sid, hash);
    && (answer.Ok? ==> after.Active(sid) && after.records[sid].value == answer.value)
    && (answer.Err? && Knows(h, hash) ==> after.Get(sid).None? && answer == Err(SessionExpired))
    && (Lives(h, life, s.Now()) && !Knows(h, hash) ==> answer == Err(InvalidSession))
    && (answer == Err(InvalidSession) ==> h.Session? && h.hash != hash)
  }

  /** After a check only an active session has its record left. */
  lemma CheckedSessionsAreActiveOrGone(s: Store, sid: SessionId, x: SessionId)
    ensures Asserted(s, sid).Get(sid).Some? <==> s.Active(sid)
    ensures Asserted(s, sid).Active(x) <==> s.Active(x)
  {
  }

  /** A revoked session is not active and not listed, and every other session is as before. */
  lemma RevokeEndsExactlyOne(s: Store, sid: SessionId, x: SessionId)
    ensures Revoked(s, sid).Active(x) <==> s.Active(x) && x != sid
    ensures forall user: UserId ::
              (x in Revoked(s, sid).Members(user) <==>
               x in s.Members(user)
               && !(x == sid && s.Get(sid).Some? && s.Get(sid).value.payload.userId == Some(user)))
  {
  }

  predicate NoEmptyIndex(s: Store) { forall user :: user in s.index ==> s.index[user].value != {} }

  /** No call leaves an index without a member: Redis has no empty sets. */
  lemma IndexesAreNeverEmpty(s: Store, life: Lifetimes, op: Op)
    requires NoEmptyIndex(s)
    ensures NoEmptyIndex(Apply(s, life, op))
  {
  }

  /** The index of the user is empty afterwards, and nobody else's has changed. */
  lemma RevokeAllEmptiesOneIndex(s: Store, user: UserId, other: UserId)
    ensures AllRevoked(s, user).Members(other) == if other == user then {} else s.Members(other)
  {
  }
}
