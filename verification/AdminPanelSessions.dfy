/**
 Redis-backed Admin Panel Sessions: session records, the per-user index and their expiries
 (birr-track-backend/src/auth/admin-panel-session.service.ts).

 Time is a millisecond clock; the service itself reads it in whole seconds, and Redis drops
 a key at the millisecond its lifetime runs out.
 */
module AdminPanelSessions {
  import opened Common

  type SessionId = nat

  type UserId = nat

  /** What the session says about its bearer. `userId` is None for the platform owner. */
  datatype SessionPayload = SessionPayload(userId: Option<UserId>, businessId: Option<nat>, role: Role,
                                           telegramUserId: nat)

  /** Times in seconds. `refreshTokenHash` is the digest of the opaque refresh token. */
  datatype SessionRecord = SessionRecord(
    refreshTokenHash: nat, payload: SessionPayload,
    createdAt: int, lastRenewedAt: int, expiresAt: int, idleExpiresAt: int)

  /** A Redis value and the millisecond at which Redis drops it. */
  datatype Kept<+T> = Kept(value: T, dropAt: int)

  /** The three configured lifetimes, in seconds; `positiveConfig` admits no others. */
  datatype Lifetimes = Lifetimes(accessTtl: int, idleTtl: int, maxTtl: int) {
    predicate Valid() { accessTtl > 0 && idleTtl > 0 && maxTtl > 0 }
  }

  datatype Store = Store(records: map<SessionId, Kept<SessionRecord>>, index: map<UserId, Kept<set<SessionId>>>,
                         clock: nat) {
    /** `Math.floor(Date.now() / 1000)` */
    function Now(): int { clock / 1000 }

    /** GET: the record, unless Redis has dropped it. */
    function Get(sid: SessionId): Option<SessionRecord> {
      if sid in records && clock < records[sid].dropAt then Some(records[sid].value) else None
    }

    /** SMEMBERS: empty when the key is missing or dropped. */
    function Members(user: UserId): set<SessionId> {
      if user in index && clock < index[user].dropAt then index[user].value else {}
    }

    /** The answer of `assertActive`. */
    predicate Active(sid: SessionId) {
      var record := Get(sid);
      record.Some? && Now() < record.value.expiresAt && Now() < record.value.idleExpiresAt
    }
  }

  datatype SessionError = SessionExpired | InvalidSession

  // ---------------------------------------------------------- the operations, as functions

  function NewRecord(life: Lifetimes, now: int, hash: nat, payload: SessionPayload): SessionRecord {
    var expiresAt := now + life.maxTtl;
    SessionRecord(hash, payload, now, now, expiresAt, Min(expiresAt, now + life.idleTtl))
  }

  function RenewedRecord(life: Lifetimes, now: int, record: SessionRecord): SessionRecord {
    record.(lastRenewedAt := now, idleExpiresAt := Min(record.expiresAt, now + life.idleTtl))
  }

  /** SET with the remaining idle lifetime. */
  function Put(s: Store, sid: SessionId, record: SessionRecord): Store {
    s.(records := s.records[sid := Kept(record, s.clock + 1000 * Max(1, record.idleExpiresAt - s.Now()))])
  }

  /** SADD, then EXPIRE with the session's absolute lifetime. */
  function AddToIndex(s: Store, user: UserId, sid: SessionId, expiresAt: int): Store {
    s.(index := s.index[user := Kept(s.Members(user) + {sid}, s.clock + 1000 * Max(1, expiresAt - s.Now()))])
  }

  /** SREM: Redis deletes a set that becomes empty. */
  function RemoveFromIndex(s: Store, user: UserId, sid: SessionId): Store {
    if user !in s.index then s
    else
      var rest := s.index[user].value - {sid};
      s.(index := if rest == {} then s.index - {user} else s.index[user := s.index[user].(value := rest)])
  }

  function Created(s: Store, life: Lifetimes, sid: SessionId, hash: nat, payload: SessionPayload): Store {
    var record := NewRecord(life, s.Now(), hash, payload);
    var stored := Put(s, sid, record);
    match payload.userId
    case None => stored
    case Some(user) => AddToIndex(stored, user, sid, record.expiresAt)
  }

  function Revoked(s: Store, sid: SessionId): Store {
    var deleted := s.(records := s.records - {sid});
    match s.Get(sid)
    case None => deleted
    case Some(record) =>
      match record.payload.userId
      case None => deleted
      case Some(user) => RemoveFromIndex(deleted, user, sid)
  }

  function Renewed(s: Store, life: Lifetimes, sid: SessionId, hash: nat): (Store, Result<SessionRecord, SessionError>) {
    match s.Get(sid)
    case None => (s, Err(SessionExpired))
    case Some(record) =>
      if record.refreshTokenHash != hash then (s, Err(InvalidSession))
      else if record.expiresAt <= s.Now() || record.idleExpiresAt <= s.Now() then (Revoked(s, sid), Err(SessionExpired))
      else
        var renewed := RenewedRecord(life, s.Now(), record);
        (Put(s, sid, renewed), Ok(renewed))
  }

  /** `assertActive` revokes a record that has outlived either expiry. */
  function Asserted(s: Store, sid: SessionId): Store {
    if s.Get(sid).Some? && !s.Active(sid) then Revoked(s, sid) else s
  }

  function AllRevoked(s: Store, user: UserId): Store {
    s.(records := s.records - s.Members(user), index := s.index - {user})
  }

  // ------------------------------------------------------------------------- invariant

  /** Absolute and idle expiry of one record, against the clock and the key's own lifetime. */
  predicate RecordOk(life: Lifetimes, kept: Kept<SessionRecord>, now: int) {
    var r := kept.value;
    && r.createdAt <= r.lastRenewedAt <= now
    && r.lastRenewedAt < r.expiresAt
    && r.expiresAt == r.createdAt + life.maxTtl
    && r.idleExpiresAt == Min(r.expiresAt, r.lastRenewedAt + life.idleTtl)
    && 1000 * r.idleExpiresAt <= kept.dropAt < 1000 * r.idleExpiresAt + 1000
  }

  /** A record short of its absolute expiry is in its user's index, which lasts at least as long. */
  predicate Indexed(s: Store, sid: SessionId)
    requires sid in s.records
  {
    var r := s.records[sid].value;
    match r.payload.userId
    case None => true
    case Some(user) =>
      s.clock < 1000 * r.expiresAt ==>
        user in s.index && sid in s.index[user].value && 1000 * r.expiresAt <= s.index[user].dropAt
  }

  /** An index never lists a live record of somebody else. */
  predicate OwnMember(s: Store, user: UserId, sid: SessionId)
  {
    user in s.index && sid in s.index[user].value && sid in s.records ==>
      s.records[sid].value.payload.userId == Some(user)
  }

  ghost predicate Inv(s: Store, life: Lifetimes) {
    && (forall sid :: sid in s.records ==> RecordOk(life, s.records[sid], s.Now()))
    && (forall sid :: sid in s.records ==> Indexed(s, sid))
    && (forall user, sid :: OwnMember(s, user, sid))
    && (forall user :: user in s.index ==> s.index[user].dropAt <= s.clock + 1000 * life.maxTtl)
  }

  /** A session id that the random source has not produced before. */
  ghost predicate Fresh(s: Store, sid: SessionId) {
    sid !in s.records && forall user :: user in s.index ==> sid !in s.index[user].value
  }

  lemma CreatedKeepsInv(s: Store, life: Lifetimes, sid: SessionId, hash: nat, payload: SessionPayload)
    requires life.Valid() && Inv(s, life) && Fresh(s, sid)
    ensures Inv(Created(s, life, sid, hash, payload), life)
  {
    var t := Created(s, life, sid, hash, payload);
    forall x | x in t.records ensures RecordOk(life, t.records[x], t.Now()) {
      if x != sid { assert RecordOk(life, s.records[x], s.Now()); }
    }
    forall x | x in t.records ensures Indexed(t, x) {
      if x != sid {
        assert Indexed(s, x) && RecordOk(life, s.records[x], s.Now());
      }
    }
    forall user, x ensures OwnMember(t, user, x) {
      assert OwnMember(s, user, x);
    }
  }

  lemma RemovalKeepsInv(s: Store, life: Lifetimes, t: Store, gone: set<SessionId>)
    requires Inv(s, life)
    requires t.clock == s.clock && t.records == s.records - gone
    requires forall user :: user in s.index && (s.index[user].value - gone != {}) ==>
               user in t.index && t.index[user].dropAt == s.index[user].dropAt
                 && s.index[user].value - gone <= t.index[user].value
    requires forall user :: user in t.index ==>
               user in s.index && t.index[user].dropAt == s.index[user].dropAt
                 && t.index[user].value <= s.index[user].value
    ensures Inv(t, life)
  {
    forall x | x in t.records ensures RecordOk(life, t.records[x], t.Now()) {
      assert RecordOk(life, s.records[x], s.Now());
    }
    forall x | x in t.records ensures Indexed(t, x) {
      assert Indexed(s, x);
      match s.records[x].value.payload.userId
      case None =>
      case Some(user) =>
        if s.clock < 1000 * s.records[x].value.expiresAt {
          assert x in s.index[user].value - gone;
        }
    }
    forall user, x ensures OwnMember(t, user, x) {
      assert OwnMember(s, user, x);
    }
  }

  lemma RevokedKeepsInv(s: Store, life: Lifetimes, sid: SessionId)
    requires Inv(s, life)
    ensures Inv(Revoked(s, sid), life)
  {
    RemovalKeepsInv(s, life, Revoked(s, sid), {sid});
  }

  /** Members of an index that Redis has dropped are past their absolute expiry. */
  lemma AllRevokedKeepsInv(s: Store, life: Lifetimes, user: UserId)
    requires Inv(s, life)
    ensures Inv(AllRevoked(s, user), life)
  {
    var t := AllRevoked(s, user);
    forall x | x in t.records ensures RecordOk(life, t.records[x], t.Now()) {
      assert RecordOk(life, s.records[x], s.Now());
    }
    forall x | x in t.records ensures Indexed(t, x) {
      assert Indexed(s, x);
    }
    forall u, x ensures OwnMember(t, u, x) {
      assert OwnMember(s, u, x);
    }
  }

  lemma RenewedKeepsInv(s: Store, life: Lifetimes, sid: SessionId, hash: nat)
    requires life.Valid() && Inv(s, life)
    ensures Inv(Renewed(s, life, sid, hash).0, life)
  {
    var t := Renewed(s, life, sid, hash).0;
    if Renewed(s, life, sid, hash).1.Ok? {
      assert RecordOk(life, s.records[sid], s.Now());
      forall x | x in t.records ensures RecordOk(life, t.records[x], t.Now()) {
        if x != sid { assert RecordOk(life, s.records[x], s.Now()); }
      }
      forall x | x in t.records ensures Indexed(t, x) {
        assert Indexed(s, x);
      }
      forall user, x ensures OwnMember(t, user, x) {
        assert OwnMember(s, user, x);
      }
    } else {
      RevokedKeepsInv(s, life, sid);
    }
  }

  lemma TickKeepsInv(s: Store, life: Lifetimes, ms: nat)
    requires Inv(s, life)
    ensures Inv(s.(clock := s.clock + ms), life)
  {
    var t := s.(clock := s.clock + ms);
    forall x | x in t.records ensures RecordOk(life, t.records[x], t.Now()) {
      assert RecordOk(life, s.records[x], s.Now());
    }
    forall x | x in t.records ensures Indexed(t, x) {
      assert Indexed(s, x);
    }
    forall user, x ensures OwnMember(t, user, x) {
      assert OwnMember(s, user, x);
    }
  }

  // ------------------------------------------------------------------------------ runs

  datatype Op =
    | CreateSession(sid: SessionId, hash: nat, payload: SessionPayload)
    | RenewSession(sid: SessionId, hash: nat)
    | AssertSession(sid: SessionId)
    | RevokeSession(sid: SessionId)
    | RevokeUser(user: UserId)
    | Wait(ms: nat)

  function Apply(s: Store, life: Lifetimes, op: Op): Store {
    match op
    case CreateSession(sid, hash, payload) => Created(s, life, sid, hash, payload)
    case RenewSession(sid, hash) => Renewed(s, life, sid, hash).0
    case AssertSession(sid) => Asserted(s, sid)
    case RevokeSession(sid) => Revoked(s, sid)
    case RevokeUser(user) => AllRevoked(s, user)
    case Wait(ms) => s.(clock := s.clock + ms)
  }

  function Run(s: Store, life: Lifetimes, ops: seq<Op>): Store
    decreases |ops|
  {
    if ops == [] then s else Run(Apply(s, life, ops[0]), life, ops[1..])
  }

  /** Every created session gets an id of its own. */
  ghost predicate FreshIds(s: Store, life: Lifetimes, ops: seq<Op>)
    decreases |ops|
  {
    ops == [] || ((ops[0].CreateSession? ==> Fresh(s, ops[0].sid)) && FreshIds(Apply(s, life, ops[0]), life, ops[1..]))
  }

  lemma ApplyKeepsInv(s: Store, life: Lifetimes, op: Op)
    requires life.Valid() && Inv(s, life)
    requires op.CreateSession? ==> Fresh(s, op.sid)
    ensures Inv(Apply(s, life, op), life)
  {
    match op
    case CreateSession(sid, hash, payload) => CreatedKeepsInv(s, life, sid, hash, payload);
    case RenewSession(sid, hash) => RenewedKeepsInv(s, life, sid, hash);
    case AssertSession(sid) => RevokedKeepsInv(s, life, sid);
    case RevokeSession(sid) => RevokedKeepsInv(s, life, sid);
    case RevokeUser(user) => AllRevokedKeepsInv(s, life, user);
    case Wait(ms) => TickKeepsInv(s, life, ms);
  }

  /** In every run from an empty store the records and the index agree. */
  lemma {:induction false} RunKeepsInv(s: Store, life: Lifetimes, ops: seq<Op>)
    requires life.Valid() && Inv(s, life) && FreshIds(s, life, ops)
    ensures Inv(Run(s, life, ops), life)
    decreases |ops|
  {
    if ops != [] {
      ApplyKeepsInv(s, life, ops[0]);
      RunKeepsInv(Apply(s, life, ops[0]), life, ops[1..]);
    }
  }

  ghost predicate Reachable(s: Store, life: Lifetimes) {
    exists clock: nat, ops ::
      FreshIds(Store(map[], map[], clock), life, ops) && s == Run(Store(map[], map[], clock), life, ops)
  }

  lemma ReachableInv(s: Store, life: Lifetimes)
    requires life.Valid() && Reachable(s, life)
    ensures Inv(s, life)
  {
    var clock: nat, ops :|
      FreshIds(Store(map[], map[], clock), life, ops) && s == Run(Store(map[], map[], clock), life, ops);
    RunKeepsInv(Store(map[], map[], clock), life, ops);
  }

  /** In every reachable store, revoking a user leaves that user no active session and nobody else fewer. */
  lemma RevokeAllLeavesNoneActive(s: Store, life: Lifetimes, user: UserId)
    requires life.Valid() && Reachable(s, life)
    ensures var t := AllRevoked(s, user);
            forall sid :: t.Active(sid) <==> s.Active(sid) && s.records[sid].value.payload.userId != Some(user)
  {
    ReachableInv(s, life);
    var t := AllRevoked(s, user);
    forall sid
      ensures t.Active(sid) <==> s.Active(sid) && s.records[sid].value.payload.userId != Some(user)
    {
      assert OwnMember(s, user, sid);
      if s.Active(sid) {
        assert Indexed(s, sid) && RecordOk(life, s.records[sid], s.Now());
      }
    }
  }

  /** An active session is in its user's index, and the index outlives it. */
  lemma ActiveSessionIsIndexed(s: Store, life: Lifetimes, sid: SessionId, user: UserId)
    requires life.Valid() && Reachable(s, life)
    requires s.Active(sid) && s.records[sid].value.payload.userId == Some(user)
    ensures sid in s.Members(user) && 1000 * s.records[sid].value.expiresAt <= s.index[user].dropAt
  {
    ReachableInv(s, life);
    assert Indexed(s, sid) && RecordOk(life, s.records[sid], s.Now());
  }

  /**
   Both expiries bound every active session, and they alone end it: a record still in Redis
   is active exactly while it is within its idle window and within its absolute lifetime.
   */
  lemma ActiveWithinBothWindows(s: Store, life: Lifetimes, sid: SessionId)
    requires life.Valid() && Reachable(s, life)
    ensures s.Active(sid) <==>
            sid in s.records
            && s.Now() < s.records[sid].value.lastRenewedAt + life.idleTtl
            && s.Now() < s.records[sid].value.createdAt + life.maxTtl
  {
    ReachableInv(s, life);
    if sid in s.records {
      assert RecordOk(life, s.records[sid], s.Now());
    }
  }

  lemma ApplyRevivesNothing(s: Store, life: Lifetimes, op: Op, sid: SessionId)
    requires Inv(s, life) && !s.Active(sid)
    requires op.CreateSession? ==> op.sid != sid
    ensures !Apply(s, life, op).Active(sid)
  {
    if sid in s.records {
      assert RecordOk(life, s.records[sid], s.Now());
    }
  }

  /** A session that is not active stays so, whatever happens, unless its id is created anew. */
  lemma {:induction false} InactiveStaysInactive(s: Store, life: Lifetimes, ops: seq<Op>, sid: SessionId)
    requires life.Valid() && Inv(s, life) && FreshIds(s, life, ops) && !s.Active(sid)
    requires forall i :: 0 <= i < |ops| && ops[i].CreateSession? ==> ops[i].sid != sid
    ensures !Run(s, life, ops).Active(sid)
    decreases |ops|
  {
    if ops != [] {
      ApplyKeepsInv(s, life, ops[0]);
      ApplyRevivesNothing(s, life, ops[0], sid);
      InactiveStaysInactive(Apply(s, life, ops[0]), life, ops[1..], sid);
    }
  }

  // --------------------------------------------------------------------------- the service

  /** The service over its two families of Redis keys. */
  class AdminPanelSessionService {
    var records: map<SessionId, Kept<SessionRecord>>
    var index: map<UserId, Kept<set<SessionId>>>
    var clock: nat
    const life: Lifetimes

    function State(): Store
      reads this
    {
      Store(records, index, clock)
    }

    constructor (life: Lifetimes, clock: nat)
      ensures State() == Store(map[], map[], clock) && this.life == life
    {
      this.life := life;
      this.clock := clock;
      records := map[];
      index := map[];
    }

    method Create(sid: SessionId, hash: nat, payload: SessionPayload) returns (record: SessionRecord)
      modifies this
      ensures State() == Created(old(State()), life, sid, hash, payload)
      ensures record == records[sid].value
    {
      var now := clock / 1000;
      var expiresAt := now + life.maxTtl;
      var idleExpiresAt := Min(expiresAt, now + life.idleTtl);
      record := SessionRecord(hash, payload, now, now, expiresAt, idleExpiresAt);
      records := records[sid := Kept(record, clock + 1000 * Max(1, idleExpiresAt - now))];
      if payload.userId.Some? {
        var user := payload.userId.value;
        var members := if user in index && clock < index[user].dropAt then index[user].value else {};
        index := index[user := Kept(members + {sid}, clock + 1000 * Max(1, expiresAt - now))];
      }
    }

    method Renew(sid: SessionId, hash: nat) returns (outcome: Result<SessionRecord, SessionError>)
      modifies this
      ensures (State(), outcome) == Renewed(old(State()), life, sid, hash)
    {
      var record := State().Get(sid);
      if record.None? {
        return Err(SessionExpired);
      }
      if record.value.refreshTokenHash != hash {
        return Err(InvalidSession);
      }
      var now := clock / 1000;
      if record.value.expiresAt <= now || record.value.idleExpiresAt <= now {
        Revoke(sid);
        return Err(SessionExpired);
      }
      var idleExpiresAt := Min(record.value.expiresAt, now + life.idleTtl);
      var renewed := record.value.(lastRenewedAt := now, idleExpiresAt := idleExpiresAt);
      records := records[sid := Kept(renewed, clock + 1000 * Max(1, idleExpiresAt - now))];
      return Ok(renewed);
    }

    method AssertActive(sid: Option<SessionId>) returns (active: bool)
      modifies this
      ensures active <==> sid.Some? && old(State()).Active(sid.value)
      ensures State() == if sid.Some? then Asserted(old(State()), sid.value) else old(State())
    {
      if sid.None? {
        return false;
      }
      var record := State().Get(sid.value);
      if record.None? {
        return false;
      }
      var now := clock / 1000;
      if record.value.expiresAt <= now || record.value.idleExpiresAt <= now {
        Revoke(sid.value);
        return false;
      }
      return true;
    }

    method Revoke(sid: SessionId)
      modifies this
      ensures State() == Revoked(old(State()), sid)
    {
      var record := State().Get(sid);
      records := records - {sid};
      if record.Some? && record.value.payload.userId.Some? {
        var user := record.value.payload.userId.value;
        if user in index {
          var rest := index[user].value - {sid};
          if rest == {} {
            index := index - {user};
          } else {
            index := index[user := index[user].(value := rest)];
          }
        }
      }
    }

    /** Deletes the listed session keys one by one, then the index itself. */
    method RevokeAllForUser(user: UserId)
      modifies this
      ensures State() == AllRevoked(old(State()), user)
    {
      var sessionIds := State().Members(user);
      var todo := sessionIds;
      while todo != {}
        invariant todo <= sessionIds
        invariant index == old(index) && clock == old(clock)
        invariant records == old(records) - (sessionIds - todo)
      {
        var sid :| sid in todo;
        records := records - {sid};
        todo := todo - {sid};
      }
      index := index - {user};
    }

    /** Time passes between calls. */
    method Pass(ms: nat)
      modifies this`clock
      ensures State() == old(State()).(clock := old(clock) + ms)
    {
      clock := clock + ms;
    }
  }
}
