/** The session store: users, sessions with rotating refresh tokens, three indexes over them, and the shared state that
    another service validates against. Hashing, signing, random bytes and the clock are parameters. */
module SessionStore {
  import opened Wrappers
  import opened RefreshToken

  type UserId = int
  type SessionId = string

  datatype User = User(phone: string, passwordHash: string, version: int, active: bool)

  datatype Session = Session(
    userId: UserId,
    device: string,
    version: int,
    hash: string,
    previousHash: string,
    secret: string,
    generation: int,
    expiresAt: int,
    revoked: bool)

  datatype Snapshot = Snapshot(userId: UserId, device: string, version: int)

  datatype Keys = Keys(hash: string -> string, mac: (string, string) -> seq<Byte>)

  /** The store, and with it the shared state: a snapshot per session and the current version per user. */
  datatype World = World(
    nextUserId: UserId,
    users: map<UserId, User>,
    phones: map<string, UserId>,
    sessions: map<SessionId, Session>,
    refreshIndex: map<string, SessionId>,
    userSessions: map<UserId, set<SessionId>>,
    snapshots: map<SessionId, Snapshot>,
    versions: map<UserId, int>)

  /** Which writes to the shared state take effect; the store ignores their errors. */
  datatype Writes = Writes(snapshot: bool, sessionVersion: bool, userVersion: bool, deleted: set<SessionId>)

  datatype Outcome =
    | Done
    | Issued(id: SessionId, token: string)
    | UserExists
    | UserNotFound
    | InvalidCredentials
    | HashFailed
    | TokenInvalid
    | TokenReplayed

  const DEMO_PHONE := "13800000001"
  const ADMIN_PHONE := "13800000002"
  const STATUS_ACTIVE := 1
  const STATUS_DISABLED := 2
  const DEFAULT_TTL := 7 * 24 * 60 * 60
  const DEFAULT_DEVICE := "web"

  function Ttl(ttl: int): int {
    if ttl <= 0 then DEFAULT_TTL else ttl
  }

  function Token(k: Keys, id: SessionId, generation: int, secret: string): string {
    BuildRefreshToken(k.mac, id, generation, secret)
  }

  function IdsOf(w: World, u: UserId): set<SessionId> {
    if u in w.userSessions then w.userSessions[u] else {}
  }

  // ------------------------------------------------------------------------------------------------------------
  // Shared state
  // ------------------------------------------------------------------------------------------------------------

  function SnapshotOf(s: Session): Snapshot {
    Snapshot(s.userId, s.device, s.version)
  }

  /** Saving a session writes its snapshot and, as the current version of its user, the version of the session. */
  function Saved(w: World, id: SessionId, s: Session, writes: Writes): World {
    w.(snapshots := if writes.snapshot then w.snapshots[id := SnapshotOf(s)] else w.snapshots,
       versions := if writes.sessionVersion then w.versions[s.userId := s.version] else w.versions)
  }

  function VersionSynced(w: World, u: UserId, writes: Writes): World {
    if u in w.users && writes.userVersion then w.(versions := w.versions[u := w.users[u].version]) else w
  }

  // ------------------------------------------------------------------------------------------------------------
  // Revoking
  // ------------------------------------------------------------------------------------------------------------

  function Revoked(w: World, id: SessionId, deleted: bool): World {
    if id !in w.sessions then w
    else
      var s := w.sessions[id];
      w.(sessions := w.sessions[id := s.(revoked := true)],
         refreshIndex := if s.hash != "" then w.refreshIndex - {s.hash} else w.refreshIndex,
         userSessions := if s.userId in w.userSessions then w.userSessions[s.userId := w.userSessions[s.userId] - {id}]
                         else w.userSessions,
         snapshots := if deleted && id != "" then w.snapshots - {id} else w.snapshots)
  }

  function HashesOf(w: World, ids: set<SessionId>): set<string> {
    set id | id in ids && id in w.sessions && w.sessions[id].hash != "" :: w.sessions[id].hash
  }

  function DeletedOf(w: World, ids: set<SessionId>, deleted: set<SessionId>): set<SessionId> {
    set id | id in ids && id in deleted && id in w.sessions && id != ""
  }

  /** What is left of a user's set of sessions. */
  function Kept(w: World, ids: set<SessionId>, u: UserId): set<SessionId> {
    set id | id in IdsOf(w, u) && !(id in ids && id in w.sessions && w.sessions[id].userId == u)
  }

  /** All of `ids` revoked, in no particular order. */
  function RevokedAll(w: World, ids: set<SessionId>, deleted: set<SessionId>): World {
    w.(sessions := map id | id in w.sessions :: if id in ids then w.sessions[id].(revoked := true) else w.sessions[id],
       refreshIndex := w.refreshIndex - HashesOf(w, ids),
       userSessions := map u | u in w.userSessions :: Kept(w, ids, u),
       snapshots := w.snapshots - DeletedOf(w, ids, deleted))
  }

  function Forgotten(w: World, u: UserId, ids: set<SessionId>): World {
    if u in w.userSessions then w.(userSessions := w.userSessions[u := w.userSessions[u] - ids]) else w
  }

  function Dropped(w: World, u: UserId, ids: set<SessionId>, deleted: set<SessionId>): World {
    Forgotten(RevokedAll(w, ids, deleted), u, ids)
  }

  lemma RevokedAllNone(w: World, deleted: set<SessionId>)
    ensures RevokedAll(w, {}, deleted) == w
  {
    var w' := RevokedAll(w, {}, deleted);
    assert w'.sessions == w.sessions && w'.refreshIndex == w.refreshIndex && w'.snapshots == w.snapshots;
    forall u | u in w.userSessions
      ensures w'.userSessions[u] == w.userSessions[u]
    {
    }
    assert w'.userSessions == w.userSessions;
  }

  function Device(device: string): string {
    if device == "" then DEFAULT_DEVICE else device
  }

  /** The sessions of a user that a login on `device` replaces. */
  function Replaced(w: World, u: UserId, device: string): set<SessionId> {
    set id | id in IdsOf(w, u) && (id in w.sessions ==> w.sessions[id].device == device)
  }

  /** Revoking one more session after `ids`. */
  lemma RevokeMore(w: World, ids: set<SessionId>, id: SessionId, deleted: set<SessionId>)
    ensures Revoked(RevokedAll(w, ids, deleted), id, id in deleted) == RevokedAll(w, ids + {id}, deleted)
  {
    MoreSessions(w, ids, id, deleted);
    MoreIndex(w, ids, id, deleted);
    MoreSnapshots(w, ids, id, deleted);
    MoreIds(w, ids, id, deleted);
  }

  lemma MoreSessions(w: World, ids: set<SessionId>, id: SessionId, deleted: set<SessionId>)
    ensures Revoked(RevokedAll(w, ids, deleted), id, id in deleted).sessions
            == RevokedAll(w, ids + {id}, deleted).sessions
  {
  }

  lemma MoreSnapshots(w: World, ids: set<SessionId>, id: SessionId, deleted: set<SessionId>)
    ensures Revoked(RevokedAll(w, ids, deleted), id, id in deleted).snapshots
            == RevokedAll(w, ids + {id}, deleted).snapshots
  {
    MoreDeleted(w, ids, id, deleted);
  }

  lemma MoreDeleted(w: World, ids: set<SessionId>, id: SessionId, deleted: set<SessionId>)
    ensures DeletedOf(w, ids + {id}, deleted)
            == DeletedOf(w, ids, deleted) + (if id in deleted && id in w.sessions && id != "" then {id} else {})
  {
  }

  lemma MoreIndex(w: World, ids: set<SessionId>, id: SessionId, deleted: set<SessionId>)
    ensures Revoked(RevokedAll(w, ids, deleted), id, id in deleted).refreshIndex
            == RevokedAll(w, ids + {id}, deleted).refreshIndex
  {
    MoreHashes(w, ids, id);
  }

  lemma MoreHashes(w: World, ids: set<SessionId>, id: SessionId)
    ensures HashesOf(w, ids + {id})
            == HashesOf(w, ids) + (if id in w.sessions && w.sessions[id].hash != "" then {w.sessions[id].hash} else {})
  {
  }

  lemma MoreIds(w: World, ids: set<SessionId>, id: SessionId, deleted: set<SessionId>)
    ensures Revoked(RevokedAll(w, ids, deleted), id, id in deleted).userSessions
            == RevokedAll(w, ids + {id}, deleted).userSessions
  {
    var a, b := Revoked(RevokedAll(w, ids, deleted), id, id in deleted).userSessions,
        RevokedAll(w, ids + {id}, deleted).userSessions;
    assert a.Keys == b.Keys;
    forall u | u in a
      ensures a[u] == b[u]
    {
      KeptMore(w, ids, id, u);
    }
  }

  lemma KeptMore(w: World, ids: set<SessionId>, id: SessionId, u: UserId)
    ensures Kept(w, ids + {id}, u)
            == Kept(w, ids, u) - (if id in w.sessions && w.sessions[id].userId == u then {id} else {})
  {
  }

  lemma DropNone(w: World, u: UserId, deleted: set<SessionId>)
    ensures Dropped(w, u, {}, deleted) == w
  {
    RevokedAllNone(w, deleted);
    if u in w.userSessions {
      assert w.userSessions[u] - {} == w.userSessions[u];
    }
  }

  lemma DropKeeps(w: World, u: UserId, ids: set<SessionId>, id: SessionId, deleted: set<SessionId>)
    ensures var w' := Dropped(w, u, ids, deleted);
            (id in w'.sessions <==> id in w.sessions)
                && (id in w.sessions ==> w'.sessions[id].device == w.sessions[id].device)
  {
  }

  lemma NextReplaced(w: World, u: UserId, device: string, todo: set<SessionId>, id: SessionId)
    requires id in todo && todo <= IdsOf(w, u)
    ensures var next, done := Replaced(w, u, device) - (todo - {id}), Replaced(w, u, device) - todo;
            next == if id in w.sessions && w.sessions[id].device != device then done else done + {id}
  {
  }

  lemma DropMore(w: World, u: UserId, ids: set<SessionId>, id: SessionId, deleted: set<SessionId>)
    requires u in w.userSessions
    ensures Forgotten(Revoked(Dropped(w, u, ids, deleted), id, id in deleted), u, {id})
            == Dropped(w, u, ids + {id}, deleted)
  {
    var all := RevokedAll(w, ids, deleted);
    RevokeMore(w, ids, id, deleted);
    RevokeForgets(all, u, ids, id, id in deleted);
    ForgetTwice(RevokedAll(w, ids + {id}, deleted), u, ids, id);
  }

  lemma ForgetTwice(w: World, u: UserId, ids: set<SessionId>, id: SessionId)
    requires u in w.userSessions
    ensures Forgotten(Forgotten(w, u, ids), u, {id}) == Forgotten(w, u, ids + {id})
  {
    assert w.userSessions[u] - ids - {id} == w.userSessions[u] - (ids + {id});
  }

  lemma RevokeForgets(w: World, u: UserId, ids: set<SessionId>, id: SessionId, deleted: bool)
    ensures Revoked(Forgotten(w, u, ids), id, deleted) == Forgotten(Revoked(w, id, deleted), u, ids)
  {
    if id in w.sessions && u in w.userSessions {
      var a, b := Revoked(Forgotten(w, u, ids), id, deleted), Forgotten(Revoked(w, id, deleted), u, ids);
      forall x | x in a.userSessions
        ensures a.userSessions[x] == b.userSessions[x]
      {
      }
      assert a.userSessions == b.userSessions;
    }
  }

  // ------------------------------------------------------------------------------------------------------------
  // The operations as functions
  // ------------------------------------------------------------------------------------------------------------

  function Bumped(w: World, u: UserId): World {
    if u !in w.users then w
    else
      var v := w.users[u].version + 1;
      w.(users := w.users[u := w.users[u].(version := if v <= 0 then 1 else v)])
  }

  function UserCreated(w: World, phone: string, password: string, hashed: Option<string>, writes: Writes): (World,
                       Outcome) {
    if phone == "" || password == "" then (w, InvalidCredentials)
    else if phone in w.phones then (w, UserExists)
    else if hashed.None? then (w, HashFailed)
    else
      var u := w.nextUserId;
      var w' := w.(nextUserId := u + 1, users := w.users[u := User(phone, hashed.value, 1, true)],
          phones := w.phones[phone := u]);
      (VersionSynced(w', u, writes), Done)
  }

  /** The active user that a password proves, by phone if one is given and by id otherwise; `matches` compares a stored
      hash with a password. */
  function Authenticated(w: World, u: UserId, phone: string, password: string, matches: (string, string) -> bool)
      : Option<UserId> {
    var found := if phone == "" then Some(u) else if phone in w.phones then Some(w.phones[phone]) else None;
    if found.None? || found.value !in w.users || !w.users[found.value].active
        || !matches(w.users[found.value].passwordHash, password) then None
    else found
  }

  /** A user made at the start, under a fixed id. */
  function DemoUser(w: World, u: UserId, phone: string, hash: string, writes: Writes): World {
    VersionSynced(w.(users := w.users[u := User(phone, hash, 1, true)], phones := w.phones[phone := u]), u, writes)
  }

  /** The store at its start: two demo users, the second only after the first, as far as their passwords hash. The
      shared state is as an earlier store left it. */
  function DemoStore(hash: Option<string>, adminHash: Option<string>, snapshots: map<SessionId, Snapshot>,
                     versions: map<UserId, int>, writes: Writes): World {
    var w := World(1002, map[], map[], map[], map[], map[], snapshots, versions);
    if hash.None? then w
    else
      var w1 := DemoUser(w, 1001, DEMO_PHONE, hash.value, writes);
      if adminHash.None? then w1
      else DemoUser(w1.(nextUserId := 1003), 1002, ADMIN_PHONE, adminHash.value, writes)
  }

  /** Disabling a user revokes every session; activating one keeps them, at their old version. */
  function StatusSet(w: World, u: UserId, active: bool, writes: Writes): (World, Outcome) {
    if u !in w.users then (w, UserNotFound)
    else
      var w1 := w.(users := w.users[u := w.users[u].(active := active, version := w.users[u].version + 1)]);
      var w2 := if active then w1 else RevokedAll(w1, IdsOf(w1, u), writes.deleted);
      (VersionSynced(w2, u, writes), Done)
  }

  /** Only these two statuses can be asked for. */
  function StatusAsked(w: World, u: UserId, status: int, writes: Writes): (World, Outcome) {
    if status != STATUS_ACTIVE && status != STATUS_DISABLED then (w, InvalidCredentials)
    else StatusSet(w, u, status == STATUS_ACTIVE, writes)
  }

  function Created(k: Keys, w: World, u: UserId, device: string, ttl: int, id: SessionId, secret: string, now: int,
                   writes: Writes): (World, Outcome) {
    if u !in w.users then (w, UserNotFound)
    else
      var d, token := Device(device), Token(k, id, 1, secret);
      var w1 := Dropped(w, u, Replaced(w, u, d), writes.deleted);
      var s := Session(u, d, w.users[u].version, k.hash(token), "", secret, 1, now + Ttl(ttl), false);
      var w2 := w1.(sessions := w1.sessions[id := s],
                    refreshIndex := w1.refreshIndex[k.hash(token) := id],
                    userSessions := w1.userSessions[u := IdsOf(w1, u) + {id}]);
      (Saved(w2, id, s, writes), Issued(id, token))
  }

  predicate Alive(w: World, id: SessionId, now: int) {
    id in w.sessions && !w.sessions[id].revoked && now <= w.sessions[id].expiresAt
  }

  datatype Check = Current(id: SessionId) | Stale(id: SessionId) | Bad

  /** What a presented refresh token is worth. */
  function Checked(k: Keys, w: World, token: string, now: int): Check {
    match ParseRefreshToken(token)
    case None => Bad
    case Some(t) =>
      if !Alive(w, t.id, now) then Bad
      else if t.signature != SignRefreshToken(k.mac, t.id, t.generation, w.sessions[t.id].secret) then Bad
      else if t.generation < w.sessions[t.id].generation then Stale(t.id)
      else if t.generation > w.sessions[t.id].generation then Bad
      else Current(t.id)
  }

  function Rotated(k: Keys, s: Session, id: SessionId, ttl: int, now: int): Session {
    s.(previousHash := s.hash, hash := k.hash(Token(k, id, s.generation + 1, s.secret)), generation := s.generation + 1,
       expiresAt := now + Ttl(ttl))
  }

  function Refreshed(k: Keys, w: World, token: string, ttl: int, now: int, writes: Writes): (World, Outcome) {
    match Checked(k, w, token, now)
    case Bad => (w, TokenInvalid)
    case Stale(id) => (if id in w.sessions then Revoked(w, id, id in writes.deleted) else w, TokenReplayed)
    case Current(id) =>
      if id !in w.sessions then (w, TokenInvalid)
      else
        var s := w.sessions[id];
        var s' := Rotated(k, s, id, ttl, now);
        var w' := w.(sessions := w.sessions[id := s'], refreshIndex := (w.refreshIndex - {s.hash})[s'.hash := id]);
        (Saved(w', id, s', writes), Issued(id, Token(k, id, s'.generation, s.secret)))
  }

  function LoggedOut(k: Keys, w: World, token: string, now: int, writes: Writes): (World, Outcome) {
    match Checked(k, w, token, now)
    case Bad => (w, TokenInvalid)
    case Stale(id) => (Revoked(w, id, id in writes.deleted), TokenReplayed)
    case Current(id) => (Revoked(w, id, id in writes.deleted), Done)
  }

  function LoggedOutAll(w: World, u: UserId, writes: Writes): World {
    var w1 := VersionSynced(Bumped(w, u), u, writes);
    Dropped(w1, u, IdsOf(w1, u), writes.deleted)
  }

  function PasswordUpdated(w: World, phone: string, password: string, hashed: Option<string>, writes: Writes): (World,
                           Outcome) {
    if phone == "" || password == "" then (w, InvalidCredentials)
    else if hashed.None? then (w, HashFailed)
    else if phone !in w.phones || w.phones[phone] !in w.users then (w, UserNotFound)
    else
      var u := w.phones[phone];
      (LoggedOutAll(w.(users := w.users[u := w.users[u].(passwordHash := hashed.value)]), u, writes), Done)
  }

  // ------------------------------------------------------------------------------------------------------------
  // The stores, updated in place
  // ------------------------------------------------------------------------------------------------------------

  class SharedState {
    var snapshots: map<SessionId, Snapshot>
    var versions: map<UserId, int>

    constructor ()
      ensures snapshots == map[] && versions == map[]
    {
      snapshots, versions := map[], map[];
    }

    method SaveSession(id: SessionId, s: Session, writes: Writes)
      modifies this
      ensures snapshots == if writes.snapshot then old(snapshots)[id := SnapshotOf(s)] else old(snapshots)
      ensures versions == if writes.sessionVersion then old(versions)[s.userId := s.version] else old(versions)
    {
      if writes.snapshot {
        snapshots := snapshots[id := SnapshotOf(s)];
      }
      if writes.sessionVersion {
        versions := versions[s.userId := s.version];
      }
    }

    method DeleteSession(id: SessionId, effective: bool)
      modifies this`snapshots
      ensures snapshots == if effective then old(snapshots) - {id} else old(snapshots)
    {
      if effective {
        snapshots := snapshots - {id};
      }
    }

    method SetUserVersion(u: UserId, version: int, effective: bool)
      modifies this`versions
      ensures versions == if effective then old(versions)[u := version] else old(versions)
    {
      if effective {
        versions := versions[u := version];
      }
    }
  }

  class AuthStore {
    const keys: Keys
    const state: SharedState
    var nextUserId: UserId
    var users: map<UserId, User>
    var phones: map<string, UserId>
    var sessions: map<SessionId, Session>
    var refreshIndex: map<string, SessionId>
    var userSessions: map<UserId, set<SessionId>>

    constructor (keys: Keys, state: SharedState, hash: Option<string>, adminHash: Option<string>, writes: Writes)
      modifies state
      ensures this.keys == keys && this.state == state
      ensures Value() == DemoStore(hash, adminHash, old(state.snapshots), old(state.versions), writes)
    {
      this.keys, this.state := keys, state;
      nextUserId, users, phones := 1002, map[], map[];
      sessions, refreshIndex, userSessions := map[], map[], map[];
      new;
      SeedDemoUser(hash, adminHash, writes);
    }

    /** An error of hashing a demo password is ignored. */
    method SeedDemoUser(hash: Option<string>, adminHash: Option<string>, writes: Writes)
      requires Value() == World(1002, map[], map[], map[], map[], map[], state.snapshots, state.versions)
      modifies this, state
      ensures Value() == DemoStore(hash, adminHash, old(state.snapshots), old(state.versions), writes)
    {
      if hash.None? {
        return;
      }
      users := users[1001 := User(DEMO_PHONE, hash.value, 1, true)];
      phones := phones[DEMO_PHONE := 1001];
      SyncUserVersion(1001, writes);
      if adminHash.None? {
        return;
      }
      users := users[1002 := User(ADMIN_PHONE, adminHash.value, 1, true)];
      phones := phones[ADMIN_PHONE := 1002];
      nextUserId := 1003;
      SyncUserVersion(1002, writes);
    }

    function Value(): World
      reads this, state
    {
      World(nextUserId, users, phones, sessions, refreshIndex, userSessions, state.snapshots, state.versions)
    }

    method CreateUser(phone: string, password: string, hashed: Option<string>, writes: Writes) returns (out: Outcome)
      modifies this, state
      ensures (Value(), out) == UserCreated(old(Value()), phone, password, hashed, writes)
    {
      if phone == "" || password == "" {
        return InvalidCredentials;
      }
      if phone in phones {
        return UserExists;
      }
      if hashed.None? {
        return HashFailed;
      }
      var u := nextUserId;
      nextUserId := nextUserId + 1;
      users := users[u := User(phone, hashed.value, 1, true)];
      phones := phones[phone := u];
      SyncUserVersion(u, writes);
      return Done;
    }

    method Authenticate(u: UserId, phone: string, password: string, matches: (string, string) -> bool)
      returns (user: Option<UserId>)
      ensures user == Authenticated(Value(), u, phone, password, matches)
    {
      var id := u;
      if phone != "" {
        if phone !in phones {
          return None;
        }
        id := phones[phone];
      }
      if id !in users || !users[id].active {
        return None;
      }
      if !matches(users[id].passwordHash, password) {
        return None;
      }
      return Some(id);
    }

    method SetUserStatus(u: UserId, status: int, writes: Writes) returns (out: Outcome)
      modifies this, state
      ensures (Value(), out) == StatusAsked(old(Value()), u, status, writes)
    {
      if status != STATUS_ACTIVE && status != STATUS_DISABLED {
        return InvalidCredentials;
      }
      if u !in users {
        return UserNotFound;
      }
      users := users[u := users[u].(active := status == STATUS_ACTIVE, version := users[u].version + 1)];
      if status != STATUS_ACTIVE {
        ghost var w := Value();
        var todo := IdsOf(Value(), u);
        ghost var all := todo;
        RevokedAllNone(w, writes.deleted);
        assert all - todo == {};
        while todo != {}
          invariant todo <= all
          invariant Value() == RevokedAll(w, all - todo, writes.deleted)
        {
          var id :| id in todo;
          RevokeMore(w, all - todo, id, writes.deleted);
          RevokeSession(id, id in writes.deleted);
          assert all - todo + {id} == all - (todo - {id});
          todo := todo - {id};
        }
        assert all - {} == all;
      }
      SyncUserVersion(u, writes);
      return Done;
    }

    method CreateSessionForDevice(u: UserId, device: string, ttl: int, id: SessionId, secret: string, now: int,
                                  writes: Writes)
      returns (out: Outcome)
      modifies this, state
      ensures (Value(), out) == Created(keys, old(Value()), u, device, ttl, id, secret, now, writes)
    {
      var d := if device == "" then DEFAULT_DEVICE else device;
      var token := Token(keys, id, 1, secret);
      var expiresAt := now + Ttl(ttl);
      if u !in users {
        return UserNotFound;
      }
      RevokeUserDeviceSessions(u, d, writes);
      ghost var ids, before := IdsOf(Value(), u), userSessions;
      var s := Session(u, d, users[u].version, keys.hash(token), "", secret, 1, expiresAt, false);
      sessions := sessions[id := s];
      refreshIndex := refreshIndex[keys.hash(token) := id];
      if u !in userSessions {
        userSessions := userSessions[u := {}];
      }
      userSessions := userSessions[u := userSessions[u] + {id}];
      assert userSessions == before[u := ids + {id}];
      state.SaveSession(id, s, writes);
      return Issued(id, token);
    }

    method RefreshSession(token: string, ttl: int, now: int, writes: Writes) returns (out: Outcome)
      modifies this, state
      ensures (Value(), out) == Refreshed(keys, old(Value()), token, ttl, now, writes)
    {
      var parsed := ParseRefreshToken(token);
      if parsed.None? {
        return TokenInvalid;
      }
      var t := parsed.value;
      if t.id !in sessions || sessions[t.id].revoked || now > sessions[t.id].expiresAt {
        return TokenInvalid;
      }
      var s := sessions[t.id];
      if t.signature != SignRefreshToken(keys.mac, t.id, t.generation, s.secret) {
        return TokenInvalid;
      }
      if t.generation < s.generation {
        RevokeSession(t.id, t.id in writes.deleted);
        return TokenReplayed;
      }
      if t.generation > s.generation {
        return TokenInvalid;
      }
      var newToken := Token(keys, t.id, s.generation + 1, s.secret);
      refreshIndex := refreshIndex - {s.hash};
      var s' := s.(previousHash := s.hash, hash := keys.hash(newToken), generation := s.generation + 1,
          expiresAt := now + Ttl(ttl));
      sessions := sessions[t.id := s'];
      refreshIndex := refreshIndex[s'.hash := t.id];
      state.SaveSession(t.id, s', writes);
      return Issued(t.id, newToken);
    }

    method Logout(token: string, now: int, writes: Writes) returns (out: Outcome)
      modifies this, state
      ensures (Value(), out) == LoggedOut(keys, old(Value()), token, now, writes)
    {
      var parsed := ParseRefreshToken(token);
      if parsed.None? {
        return TokenInvalid;
      }
      var t := parsed.value;
      if t.id !in sessions || sessions[t.id].revoked || now > sessions[t.id].expiresAt {
        return TokenInvalid;
      }
      var s := sessions[t.id];
      if t.signature != SignRefreshToken(keys.mac, t.id, t.generation, s.secret) {
        return TokenInvalid;
      }
      if t.generation < s.generation {
        RevokeSession(t.id, t.id in writes.deleted);
        return TokenReplayed;
      }
      if t.generation > s.generation {
        return TokenInvalid;
      }
      RevokeSession(t.id, t.id in writes.deleted);
      return Done;
    }

    method LogoutAll(u: UserId, writes: Writes)
      modifies this, state
      ensures Value() == LoggedOutAll(old(Value()), u, writes)
    {
      BumpUserSessionVersion(u);
      SyncUserVersion(u, writes);
      RevokeUserSessions(u, writes);
    }

    method UpdatePassword(phone: string, password: string, hashed: Option<string>,
                          writes: Writes) returns (out: Outcome)
      modifies this, state
      ensures (Value(), out) == PasswordUpdated(old(Value()), phone, password, hashed, writes)
    {
      if phone == "" || password == "" {
        return InvalidCredentials;
      }
      if hashed.None? {
        return HashFailed;
      }
      if phone !in phones || phones[phone] !in users {
        return UserNotFound;
      }
      var u := phones[phone];
      users := users[u := users[u].(passwordHash := hashed.value)];
      BumpUserSessionVersion(u);
      SyncUserVersion(u, writes);
      RevokeUserSessions(u, writes);
      return Done;
    }

    method BumpUserSessionVersion(u: UserId)
      modifies this`users
      ensures Value() == Bumped(old(Value()), u)
    {
      if u !in users {
        return;
      }
      var user := users[u];
      user := user.(version := user.version + 1);
      if user.version <= 0 {
        user := user.(version := 1);
      }
      users := users[u := user];
    }

    method SyncUserVersion(u: UserId, writes: Writes)
      modifies state
      ensures Value() == VersionSynced(old(Value()), u, writes)
    {
      if u !in users {
        return;
      }
      state.SetUserVersion(u, users[u].version, writes.userVersion);
    }

    method RevokeUserSessions(u: UserId, writes: Writes)
      modifies this, state
      ensures Value() == Dropped(old(Value()), u, IdsOf(old(Value()), u), writes.deleted)
    {
      ghost var w := Value();
      DropNone(w, u, writes.deleted);
      if u !in userSessions {
        return;
      }
      var todo := userSessions[u];
      ghost var all := todo;
      assert all - todo == {};
      while todo != {}
        invariant todo <= all
        invariant Value() == Dropped(w, u, all - todo, writes.deleted)
      {
        var id :| id in todo;
        DropMore(w, u, all - todo, id, writes.deleted);
        RevokeAndForget(u, id, writes);
        assert all - todo + {id} == all - (todo - {id});
        todo := todo - {id};
      }
      assert all - {} == all;
    }

    method RevokeUserDeviceSessions(u: UserId, device: string, writes: Writes)
      modifies this, state
      ensures Value() == Dropped(old(Value()), u, Replaced(old(Value()), u, device), writes.deleted)
    {
      ghost var w := Value();
      DropNone(w, u, writes.deleted);
      if u !in userSessions {
        assert Replaced(w, u, device) == {};
        return;
      }
      var todo := userSessions[u];
      assert Replaced(w, u, device) - todo == {};
      while todo != {}
        invariant todo <= IdsOf(w, u) && u in userSessions
        invariant Value() == Dropped(w, u, Replaced(w, u, device) - todo, writes.deleted)
      {
        var id :| id in todo;
        ghost var done := Replaced(w, u, device) - todo;
        DropKeeps(w, u, done, id, writes.deleted);
        NextReplaced(w, u, device, todo, id);
        todo := todo - {id};
        if id in sessions && sessions[id].device != device {
          continue;
        }
        DropMore(w, u, done, id, writes.deleted);
        RevokeAndForget(u, id, writes);
        assert Value() == Dropped(w, u, done + {id}, writes.deleted);
      }
      assert Replaced(w, u, device) - todo == Replaced(w, u, device);
    }

    method RevokeAndForget(u: UserId, id: SessionId, writes: Writes)
      requires u in userSessions
      modifies this, state
      ensures Value() == Forgotten(Revoked(old(Value()), id, id in writes.deleted), u, {id})
    {
      RevokeSession(id, id in writes.deleted);
      userSessions := userSessions[u := userSessions[u] - {id}];
    }

    method RevokeSession(id: SessionId, deleted: bool)
      modifies this, state
      ensures Value() == Revoked(old(Value()), id, deleted)
    {
      if id !in sessions {
        return;
      }
      var s := sessions[id];
      sessions := sessions[id := s.(revoked := true)];
      if s.hash != "" {
        refreshIndex := refreshIndex - {s.hash};
      }
      if s.userId in userSessions {
        userSessions := userSessions[s.userId := userSessions[s.userId] - {id}];
      }
      if id != "" {
        state.DeleteSession(id, deleted);
      }
    }
  }
}
