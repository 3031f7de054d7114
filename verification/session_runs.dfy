/** Runs of the session store: the three indexes stay in step, and each refresh token is redeemed at most once. */
module SessionRuns {
  import opened Wrappers
  import opened RefreshToken
  import opened SessionStore

  datatype Event =
    | SignUp(phone: string, password: string, hashed: Option<string>, writes: Writes)
    | SetStatus(u: UserId, active: bool, writes: Writes)
    | Login(u: UserId, device: string, ttl: int, id: SessionId, secret: string, now: int, writes: Writes)
    | Refresh(token: string, ttl: int, now: int, writes: Writes)
    | Logout(token: string, now: int, writes: Writes)
    | LogoutAll(u: UserId, writes: Writes)
    | ResetPassword(phone: string, password: string, hashed: Option<string>, writes: Writes)
    | SnapshotExpires(id: SessionId)

  /** Hashes tell strings apart and are never empty; authentication codes are never empty. */
  ghost predicate Sound(k: Keys) {
    && (forall x, y :: k.hash(x) == k.hash(y) ==> x == y)
    && (forall x :: k.hash(x) != "")
    && (forall x, y :: k.mac(x, y) != [])
  }

  predicate GoodId(id: SessionId) {
    id != [] && '.' !in id
  }

  /** Session ids are 32 random bytes in base 64. */
  lemma RandomTokenIsGoodId(bytes: seq<Byte>)
    requires |bytes| == 32
    ensures GoodId(Base64Url(bytes))
  {
    Base64UrlAlphabet(bytes);
  }

  /** Random ids are fresh; a login with a used one does not happen. */
  predicate Fresh(w: World, e: Event) {
    e.Login? ==> GoodId(e.id) && e.id !in w.sessions
  }

  function Apply(k: Keys, w: World, e: Event): (World, Outcome) {
    if !Fresh(w, e) then (w, Done)
    else match e
      case SignUp(phone, password, hashed, writes) => UserCreated(w, phone, password, hashed, writes)
      case SetStatus(u, active, writes) => StatusSet(w, u, active, writes)
      case Login(u, device, ttl, id, secret, now, writes) => Created(k, w, u, device, ttl, id, secret, now, writes)
      case Refresh(token, ttl, now, writes) => Refreshed(k, w, token, ttl, now, writes)
      case Logout(token, now, writes) => LoggedOut(k, w, token, now, writes)
      case LogoutAll(u, writes) => (LoggedOutAll(w, u, writes), Done)
      case ResetPassword(phone, password, hashed, writes) => PasswordUpdated(w, phone, password, hashed, writes)
      case SnapshotExpires(id) => (w.(snapshots := w.snapshots - {id}), Done)
  }

  function Run(k: Keys, w: World, es: seq<Event>): World
    decreases |es|
  {
    if es == [] then w else Run(k, Apply(k, w, es[0]).0, es[1..])
  }

  // ------------------------------------------------------------------------------------------------------------
  // The invariant
  // ------------------------------------------------------------------------------------------------------------

  predicate GoodSession(k: Keys, w: World, id: SessionId)
    requires id in w.sessions
  {
    var s := w.sessions[id];
    && GoodId(id) && s.userId in w.users && s.version <= w.users[s.userId].version
    && s.generation >= 1 && s.hash == k.hash(Token(k, id, s.generation, s.secret))
  }

  predicate Live(w: World, id: SessionId) {
    id in w.sessions && !w.sessions[id].revoked
  }

  ghost predicate SessionsGood(k: Keys, w: World) {
    forall id :: id in w.sessions ==> GoodSession(k, w, id)
  }

  /** The per-user sets hold exactly the live sessions. */
  ghost predicate UserSetsExact(w: World) {
    forall u, id :: id in IdsOf(w, u) <==> Live(w, id) && w.sessions[id].userId == u
  }

  predicate Indexed(w: World, id: SessionId)
    requires id in w.sessions
  {
    w.sessions[id].hash in w.refreshIndex && w.refreshIndex[w.sessions[id].hash] == id
  }

  /** The refresh index maps exactly the current token hashes of the live sessions. */
  ghost predicate IndexExact(w: World) {
    && (forall id :: Live(w, id) ==> Indexed(w, id))
    && (forall h :: h in w.refreshIndex ==> Live(w, w.refreshIndex[h]) && w.sessions[w.refreshIndex[h]].hash == h)
  }

  predicate SamePlace(s: Session, t: Session) {
    s.userId == t.userId && s.device == t.device
  }

  ghost predicate OnePerDevice(w: World) {
    forall a, b :: Live(w, a) && Live(w, b) && SamePlace(w.sessions[a], w.sessions[b]) ==> a == b
  }

  ghost predicate UsersGood(w: World) {
    && (forall u :: u in w.users ==> u < w.nextUserId && w.users[u].version >= 1)
    && (forall phone :: phone in w.phones ==> w.phones[phone] in w.users)
  }

  ghost predicate Inv(k: Keys, w: World) {
    SessionsGood(k, w) && UserSetsExact(w) && IndexExact(w) && OnePerDevice(w) && UsersGood(w)
  }

  lemma DifferentHashes(k: Keys, w: World, a: SessionId, b: SessionId)
    requires Sound(k) && SessionsGood(k, w) && a in w.sessions && b in w.sessions
    requires w.sessions[a].hash == w.sessions[b].hash
    ensures a == b
  {
    var s, t := w.sessions[a], w.sessions[b];
    assert GoodSession(k, w, a) && GoodSession(k, w, b);
    BuildInjective(k.mac, a, s.generation, s.secret, b, t.generation, t.secret);
  }

  // ------------------------------------------------------------------------------------------------------------
  // Revoking keeps it
  // ------------------------------------------------------------------------------------------------------------

  lemma RevokedAllSessions(k: Keys, w: World, ids: set<SessionId>, deleted: set<SessionId>)
    requires Inv(k, w)
    ensures var w' := RevokedAll(w, ids, deleted);
            && SessionsGood(k, w') && OnePerDevice(w') && UsersGood(w')
            && forall id :: Live(w', id) <==> Live(w, id) && id !in ids
  {
    var w' := RevokedAll(w, ids, deleted);
    forall id | id in w'.sessions
      ensures GoodSession(k, w', id)
    {
      assert GoodSession(k, w, id);
    }
    forall a, b | Live(w', a) && Live(w', b) && SamePlace(w'.sessions[a], w'.sessions[b])
      ensures a == b
    {
      assert Live(w, a) && Live(w, b);
    }
  }

  lemma RevokedAllSets(w: World, ids: set<SessionId>, deleted: set<SessionId>)
    requires UserSetsExact(w)
    ensures UserSetsExact(RevokedAll(w, ids, deleted))
  {
    var w' := RevokedAll(w, ids, deleted);
    forall u, id
      ensures id in IdsOf(w', u) <==> Live(w', id) && w'.sessions[id].userId == u
    {
      assert id in IdsOf(w, u) <==> Live(w, id) && w.sessions[id].userId == u;
    }
  }

  lemma RevokedAllIndex(k: Keys, w: World, ids: set<SessionId>, deleted: set<SessionId>)
    requires Sound(k) && Inv(k, w)
    ensures IndexExact(RevokedAll(w, ids, deleted))
  {
    var w' := RevokedAll(w, ids, deleted);
    forall id | Live(w', id)
      ensures Indexed(w', id)
    {
      assert Live(w, id) && Indexed(w, id) && id !in ids;
      if w.sessions[id].hash in HashesOf(w, ids) {
        var other :| other in ids && other in w.sessions && w.sessions[other].hash == w.sessions[id].hash;
        DifferentHashes(k, w, id, other);
        assert false;
      }
    }
    forall h | h in w'.refreshIndex
      ensures Live(w', w'.refreshIndex[h]) && w'.sessions[w'.refreshIndex[h]].hash == h
    {
      var id := w.refreshIndex[h];
      assert Live(w, id) && w.sessions[id].hash == h;
      assert GoodSession(k, w, id);
    }
  }

  lemma RevokedAllKeeps(k: Keys, w: World, ids: set<SessionId>, deleted: set<SessionId>)
    requires Sound(k) && Inv(k, w)
    ensures Inv(k, RevokedAll(w, ids, deleted))
  {
    RevokedAllSessions(k, w, ids, deleted);
    RevokedAllSets(w, ids, deleted);
    RevokedAllIndex(k, w, ids, deleted);
  }

  /** With exact user sets, dropping sessions of a user from its set is part of revoking them. */
  lemma DroppedIsRevoked(w: World, u: UserId, ids: set<SessionId>, deleted: set<SessionId>)
    requires UserSetsExact(w) && ids <= IdsOf(w, u)
    ensures Dropped(w, u, ids, deleted) == RevokedAll(w, ids, deleted)
  {
    var w' := RevokedAll(w, ids, deleted);
    if u in w.userSessions {
      forall id | id in ids
        ensures id in w.sessions && w.sessions[id].userId == u
      {
        assert id in IdsOf(w, u) && (id in IdsOf(w, u) <==> Live(w, id) && w.sessions[id].userId == u);
      }
      assert w'.userSessions[u] - ids == w'.userSessions[u];
      assert w'.userSessions[u := w'.userSessions[u]] == w'.userSessions;
    }
  }

  lemma RevokedIsRevokedAll(w: World, id: SessionId, deleted: set<SessionId>)
    ensures Revoked(w, id, id in deleted) == RevokedAll(w, {id}, deleted)
  {
    RevokedAllNone(w, deleted);
    RevokeMore(w, {}, id, deleted);
    assert {} + {id} == {id};
  }

  lemma RevokedKeeps(k: Keys, w: World, id: SessionId, deleted: set<SessionId>)
    requires Sound(k) && Inv(k, w)
    ensures Inv(k, Revoked(w, id, id in deleted))
  {
    RevokedIsRevokedAll(w, id, deleted);
    RevokedAllKeeps(k, w, {id}, deleted);
  }

  // ------------------------------------------------------------------------------------------------------------
  // Logging in and refreshing keep it
  // ------------------------------------------------------------------------------------------------------------

  /** A world with one new live session. */
  function Added(w: World, id: SessionId, s: Session): World {
    w.(sessions := w.sessions[id := s],
       refreshIndex := w.refreshIndex[s.hash := id],
       userSessions := w.userSessions[s.userId := IdsOf(w, s.userId) + {id}])
  }

  lemma AddedSessions(k: Keys, w: World, id: SessionId, s: Session)
    requires Inv(k, w) && id !in w.sessions && !s.revoked && GoodSession(k, Added(w, id, s), id)
    ensures SessionsGood(k, Added(w, id, s)) && UsersGood(Added(w, id, s))
  {
    var w' := Added(w, id, s);
    forall x | x in w'.sessions
      ensures GoodSession(k, w', x)
    {
      if x != id {
        assert GoodSession(k, w, x);
      }
    }
  }

  lemma AddedDevices(w: World, id: SessionId, s: Session)
    requires OnePerDevice(w) && id !in w.sessions && !s.revoked
    requires forall other :: Live(w, other) ==> !SamePlace(w.sessions[other], s)
    ensures OnePerDevice(Added(w, id, s))
  {
    var w' := Added(w, id, s);
    forall a, b | Live(w', a) && Live(w', b) && SamePlace(w'.sessions[a], w'.sessions[b])
      ensures a == b
    {
      assert (a != id ==> Live(w, a)) && (b != id ==> Live(w, b));
    }
  }

  lemma AddedSets(w: World, id: SessionId, s: Session)
    requires UserSetsExact(w) && id !in w.sessions && !s.revoked
    ensures UserSetsExact(Added(w, id, s))
  {
    var w' := Added(w, id, s);
    forall u, x
      ensures x in IdsOf(w', u) <==> Live(w', x) && w'.sessions[x].userId == u
    {
      assert x in IdsOf(w, u) <==> Live(w, x) && w.sessions[x].userId == u;
    }
  }

  lemma AddedIndex(k: Keys, w: World, id: SessionId, s: Session)
    requires Sound(k) && Inv(k, w) && id !in w.sessions && !s.revoked && SessionsGood(k, Added(w, id, s))
    ensures IndexExact(Added(w, id, s))
  {
    var w' := Added(w, id, s);
    forall x | Live(w', x)
      ensures Indexed(w', x)
    {
      if x != id {
        assert Live(w, x) && Indexed(w, x);
        if w.sessions[x].hash == s.hash {
          DifferentHashes(k, w', x, id);
        }
      }
    }
    forall h | h in w'.refreshIndex
      ensures Live(w', w'.refreshIndex[h]) && w'.sessions[w'.refreshIndex[h]].hash == h
    {
      if h != s.hash {
        assert Live(w, w.refreshIndex[h]) && w.sessions[w.refreshIndex[h]].hash == h;
      }
    }
  }

  lemma SharedIrrelevant(k: Keys, w: World, w': World)
    requires Inv(k, w) && w' == w.(snapshots := w'.snapshots, versions := w'.versions)
    ensures Inv(k, w')
  {
    forall id | id in w'.sessions
      ensures GoodSession(k, w', id)
    {
      assert GoodSession(k, w, id);
    }
    assert forall id :: Live(w', id) <==> Live(w, id);
    forall u, id
      ensures id in IdsOf(w', u) <==> Live(w', id) && w'.sessions[id].userId == u
    {
      assert id in IdsOf(w, u) <==> Live(w, id) && w.sessions[id].userId == u;
    }
    forall id | Live(w', id)
      ensures Indexed(w', id)
    {
      assert Live(w, id) && Indexed(w, id);
    }
  }

  lemma AddedKeeps(k: Keys, w: World, id: SessionId, s: Session)
    requires Sound(k) && Inv(k, w) && id !in w.sessions && !s.revoked && GoodSession(k, Added(w, id, s), id)
    requires forall other :: Live(w, other) ==> !SamePlace(w.sessions[other], s)
    ensures Inv(k, Added(w, id, s))
  {
    AddedSessions(k, w, id, s);
    AddedDevices(w, id, s);
    AddedSets(w, id, s);
    AddedIndex(k, w, id, s);
  }

  function NewSession(k: Keys, w: World, e: Event): Session
    requires e.Login? && e.u in w.users
  {
    Session(e.u, Device(e.device), w.users[e.u].version, k.hash(Token(k, e.id, 1, e.secret)), "", e.secret, 1,
        e.now + Ttl(e.ttl), false)
  }

  /** A login revokes the user's sessions on the device and adds one. */
  lemma LoginAdds(k: Keys, w: World, e: Event)
    requires UserSetsExact(w) && e.Login? && Fresh(w, e) && e.u in w.users
    ensures var w1 := RevokedAll(w, Replaced(w, e.u, Device(e.device)), e.writes.deleted);
            Apply(k, w, e).0 == Saved(Added(w1, e.id, NewSession(k, w, e)), e.id, NewSession(k, w, e), e.writes)
  {
    DroppedIsRevoked(w, e.u, Replaced(w, e.u, Device(e.device)), e.writes.deleted);
  }

  lemma LoginKeeps(k: Keys, w: World, e: Event)
    requires Sound(k) && Inv(k, w) && e.Login? && Fresh(w, e)
    ensures Inv(k, Apply(k, w, e).0)
  {
    if e.u in w.users {
      var ids, s := Replaced(w, e.u, Device(e.device)), NewSession(k, w, e);
      var w1 := RevokedAll(w, ids, e.writes.deleted);
      LoginAdds(k, w, e);
      RevokedAllKeeps(k, w, ids, e.writes.deleted);
      NoneInPlace(w, e.u, Device(e.device), e.writes.deleted);
      AddedKeeps(k, w1, e.id, s);
      SharedIrrelevant(k, Added(w1, e.id, s), Apply(k, w, e).0);
    }
  }

  lemma NoneInPlace(w: World, u: UserId, d: string, deleted: set<SessionId>)
    requires UserSetsExact(w)
    ensures var w' := RevokedAll(w, Replaced(w, u, d), deleted);
            forall x :: Live(w', x) ==> !(w'.sessions[x].userId == u && w'.sessions[x].device == d)
  {
    var w' := RevokedAll(w, Replaced(w, u, d), deleted);
    forall x | Live(w', x) && w'.sessions[x].userId == u
      ensures w'.sessions[x].device != d
    {
      assert Live(w, x) && w.sessions[x].userId == u;
      assert x in IdsOf(w, u);
    }
  }

  function Turned(w: World, id: SessionId, s: Session): World
    requires id in w.sessions
  {
    w.(sessions := w.sessions[id := s], refreshIndex := (w.refreshIndex - {w.sessions[id].hash})[s.hash := id])
  }

  /** A session that keeps its owner, device and version while its token moves on. */
  predicate Rotates(k: Keys, s: Session, s': Session, id: SessionId) {
    && s'.userId == s.userId && s'.device == s.device && s'.version == s.version && s'.secret == s.secret
    && s'.generation == s.generation + 1 && !s'.revoked && s'.hash == k.hash(Token(k, id, s'.generation, s.secret))
  }

  lemma TurnedSessions(k: Keys, w: World, id: SessionId, s: Session)
    requires SessionsGood(k, w) && UsersGood(w) && Live(w, id) && Rotates(k, w.sessions[id], s, id)
    ensures SessionsGood(k, Turned(w, id, s)) && UsersGood(Turned(w, id, s))
  {
    var w' := Turned(w, id, s);
    assert GoodSession(k, w, id);
    forall x | x in w'.sessions
      ensures GoodSession(k, w', x)
    {
      assert GoodSession(k, w, x);
    }
  }

  lemma TurnedDevices(k: Keys, w: World, id: SessionId, s: Session)
    requires OnePerDevice(w) && Live(w, id) && Rotates(k, w.sessions[id], s, id)
    ensures OnePerDevice(Turned(w, id, s))
  {
    var w' := Turned(w, id, s);
    forall a, b | Live(w', a) && Live(w', b) && SamePlace(w'.sessions[a], w'.sessions[b])
      ensures a == b
    {
      assert Live(w, a) && Live(w, b) && SamePlace(w.sessions[a], w.sessions[b]);
    }
  }

  lemma TurnedSets(k: Keys, w: World, id: SessionId, s: Session)
    requires UserSetsExact(w) && Live(w, id) && Rotates(k, w.sessions[id], s, id)
    ensures UserSetsExact(Turned(w, id, s))
  {
    var w' := Turned(w, id, s);
    forall u, x
      ensures x in IdsOf(w', u) <==> Live(w', x) && w'.sessions[x].userId == u
    {
      assert x in IdsOf(w, u) <==> Live(w, x) && w.sessions[x].userId == u;
    }
  }

  lemma TurnedDistinct(k: Keys, w: World, id: SessionId, s: Session, x: SessionId)
    requires Sound(k) && SessionsGood(k, w) && Live(w, id) && SessionsGood(k, Turned(w, id, s)) && x in w.sessions
    requires x != id
    ensures w.sessions[x].hash != s.hash && w.sessions[x].hash != w.sessions[id].hash
  {
    if w.sessions[x].hash == s.hash {
      DifferentHashes(k, Turned(w, id, s), x, id);
    }
    if w.sessions[x].hash == w.sessions[id].hash {
      DifferentHashes(k, w, x, id);
    }
  }

  lemma TurnedIndex(k: Keys, w: World, id: SessionId, s: Session)
    requires Sound(k) && SessionsGood(k, w) && IndexExact(w) && Live(w, id) && !s.revoked
    requires SessionsGood(k, Turned(w, id, s))
    ensures IndexExact(Turned(w, id, s))
  {
    var w' := Turned(w, id, s);
    forall x | Live(w', x)
      ensures Indexed(w', x)
    {
      if x != id {
        assert Live(w, x) && Indexed(w, x);
        TurnedDistinct(k, w, id, s, x);
      }
    }
    forall h | h in w'.refreshIndex
      ensures Live(w', w'.refreshIndex[h]) && w'.sessions[w'.refreshIndex[h]].hash == h
    {
      if h != s.hash {
        assert Live(w, w.refreshIndex[h]) && w.sessions[w.refreshIndex[h]].hash == h;
      }
    }
  }

  lemma TurnedKeeps(k: Keys, w: World, id: SessionId, s: Session)
    requires Sound(k) && Inv(k, w) && Live(w, id) && Rotates(k, w.sessions[id], s, id)
    ensures Inv(k, Turned(w, id, s))
  {
    TurnedSessions(k, w, id, s);
    TurnedDevices(k, w, id, s);
    TurnedSets(k, w, id, s);
    TurnedIndex(k, w, id, s);
  }

  lemma RefreshTurns(k: Keys, w: World, token: string, ttl: int, now: int, writes: Writes)
    requires Checked(k, w, token, now).Current?
    ensures var id := Checked(k, w, token, now).id;
            && Live(w, id) && Rotates(k, w.sessions[id], Rotated(k, w.sessions[id], id, ttl, now), id)
            && Refreshed(k, w, token, ttl, now, writes).0
               == Saved(Turned(w, id, Rotated(k, w.sessions[id], id, ttl, now)), id,
                   Rotated(k, w.sessions[id], id, ttl, now), writes)
  {
  }

  lemma RefreshedKeeps(k: Keys, w: World, token: string, ttl: int, now: int, writes: Writes)
    requires Sound(k) && Inv(k, w)
    ensures Inv(k, Refreshed(k, w, token, ttl, now, writes).0)
  {
    match Checked(k, w, token, now) {
      case Bad =>
      case Stale(id) => RevokedKeeps(k, w, id, writes.deleted);
      case Current(id) =>
        RefreshTurns(k, w, token, ttl, now, writes);
        var s := Rotated(k, w.sessions[id], id, ttl, now);
        TurnedKeeps(k, w, id, s);
        SharedIrrelevant(k, Turned(w, id, s), Refreshed(k, w, token, ttl, now, writes).0);
    }
  }

  lemma LoggedOutKeeps(k: Keys, w: World, token: string, now: int, writes: Writes)
    requires Sound(k) && Inv(k, w)
    ensures Inv(k, LoggedOut(k, w, token, now, writes).0)
  {
    match Checked(k, w, token, now) {
      case Bad =>
      case Stale(id) => RevokedKeeps(k, w, id, writes.deleted);
      case Current(id) => RevokedKeeps(k, w, id, writes.deleted);
    }
  }

  // ------------------------------------------------------------------------------------------------------------
  // Users
  // ------------------------------------------------------------------------------------------------------------

  /** Only users change, and no version goes down. */
  ghost predicate UsersGrow(w: World, w': World) {
    && w' == w.(nextUserId := w'.nextUserId, users := w'.users, phones := w'.phones)
    && (forall u :: u in w.users ==> u in w'.users && w.users[u].version <= w'.users[u].version)
  }

  lemma UsersGrowKeeps(k: Keys, w: World, w': World)
    requires Inv(k, w) && UsersGrow(w, w') && UsersGood(w')
    ensures Inv(k, w')
  {
    forall id | id in w'.sessions
      ensures GoodSession(k, w', id)
    {
      assert GoodSession(k, w, id);
    }
    assert forall id :: Live(w', id) <==> Live(w, id);
    forall u, id
      ensures id in IdsOf(w', u) <==> Live(w', id) && w'.sessions[id].userId == u
    {
      assert id in IdsOf(w, u) <==> Live(w, id) && w.sessions[id].userId == u;
    }
    forall id | Live(w', id)
      ensures Indexed(w', id)
    {
      assert Live(w, id) && Indexed(w, id);
    }
  }

  lemma UserCreatedKeeps(k: Keys, w: World, phone: string, password: string, hashed: Option<string>, writes: Writes)
    requires Inv(k, w)
    ensures Inv(k, UserCreated(w, phone, password, hashed, writes).0)
  {
    var w' := UserCreated(w, phone, password, hashed, writes).0;
    if w' != w {
      var u := w.nextUserId;
      var w1 := w.(nextUserId := u + 1, users := w.users[u := User(phone, hashed.value, 1, true)],
          phones := w.phones[phone := u]);
      UsersGrowKeeps(k, w, w1);
      SharedIrrelevant(k, w1, w');
    }
  }

  lemma BumpedGrows(w: World, u: UserId)
    requires UsersGood(w)
    ensures UsersGrow(w, Bumped(w, u)) && UsersGood(Bumped(w, u))
  {
  }

  lemma SyncedKeeps(k: Keys, w: World, u: UserId, writes: Writes)
    requires Inv(k, w)
    ensures Inv(k, VersionSynced(Bumped(w, u), u, writes))
  {
    BumpedGrows(w, u);
    UsersGrowKeeps(k, w, Bumped(w, u));
    SharedIrrelevant(k, Bumped(w, u), VersionSynced(Bumped(w, u), u, writes));
  }

  lemma LoggedOutAllIs(w: World, u: UserId, writes: Writes)
    requires UserSetsExact(VersionSynced(Bumped(w, u), u, writes))
    ensures LoggedOutAll(w, u, writes)
            == RevokedAll(VersionSynced(Bumped(w, u), u, writes), IdsOf(w, u), writes.deleted)
  {
    DroppedIsRevoked(VersionSynced(Bumped(w, u), u, writes), u, IdsOf(w, u), writes.deleted);
  }

  lemma LoggedOutAllKeeps(k: Keys, w: World, u: UserId, writes: Writes)
    requires Sound(k) && Inv(k, w)
    ensures Inv(k, LoggedOutAll(w, u, writes))
  {
    SyncedKeeps(k, w, u, writes);
    LoggedOutAllIs(w, u, writes);
    RevokedAllKeeps(k, VersionSynced(Bumped(w, u), u, writes), IdsOf(w, u), writes.deleted);
  }

  lemma StatusSetKeeps(k: Keys, w: World, u: UserId, active: bool, writes: Writes)
    requires Sound(k) && Inv(k, w)
    ensures Inv(k, StatusSet(w, u, active, writes).0)
  {
    if u in w.users {
      var w1 := w.(users := w.users[u := w.users[u].(active := active, version := w.users[u].version + 1)]);
      UsersGrowKeeps(k, w, w1);
      var w2 := if active then w1 else RevokedAll(w1, IdsOf(w1, u), writes.deleted);
      if !active {
        RevokedAllKeeps(k, w1, IdsOf(w1, u), writes.deleted);
      }
      SharedIrrelevant(k, w2, StatusSet(w, u, active, writes).0);
    }
  }

  lemma PasswordUpdatedKeeps(k: Keys, w: World, phone: string, password: string, hashed: Option<string>, writes: Writes)
    requires Sound(k) && Inv(k, w)
    ensures Inv(k, PasswordUpdated(w, phone, password, hashed, writes).0)
  {
    if PasswordUpdated(w, phone, password, hashed, writes).1 == Done {
      var u := w.phones[phone];
      var w1 := w.(users := w.users[u := w.users[u].(passwordHash := hashed.value)]);
      UsersGrowKeeps(k, w, w1);
      LoggedOutAllKeeps(k, w1, u, writes);
    }
  }

  lemma ApplyKeeps(k: Keys, w: World, e: Event)
    requires Sound(k) && Inv(k, w)
    ensures Inv(k, Apply(k, w, e).0)
  {
    if Fresh(w, e) {
      match e {
        case SignUp(phone, password, hashed, writes) => UserCreatedKeeps(k, w, phone, password, hashed, writes);
        case SetStatus(u, active, writes) => StatusSetKeeps(k, w, u, active, writes);
        case Login(_, _, _, _, _, _, _) => LoginKeeps(k, w, e);
        case Refresh(token, ttl, now, writes) => RefreshedKeeps(k, w, token, ttl, now, writes);
        case Logout(token, now, writes) => LoggedOutKeeps(k, w, token, now, writes);
        case LogoutAll(u, writes) => LoggedOutAllKeeps(k, w, u, writes);
        case ResetPassword(phone, password, hashed, writes) => PasswordUpdatedKeeps(k, w, phone, password, hashed,
            writes);
        case SnapshotExpires(_) => SharedIrrelevant(k, w, Apply(k, w, e).0);
      }
    }
  }

  /** In every reachable state the user sets hold exactly the live sessions, the refresh index exactly their current
      token hashes, each user has at most one live session per device, and no session is ahead of its user. */
  lemma {:induction false} RunKeeps(k: Keys, w: World, es: seq<Event>)
    requires Sound(k) && Inv(k, w)
    ensures Inv(k, Run(k, w, es))
    decreases |es|
  {
    if es != [] {
      ApplyKeeps(k, w, es[0]);
      RunKeeps(k, Apply(k, w, es[0]).0, es[1..]);
    }
  }

  // ------------------------------------------------------------------------------------------------------------
  // The start
  // ------------------------------------------------------------------------------------------------------------

  /** The store starts in such a state, whatever an earlier one left in the shared state and whether or not the demo
      users could be made. */
  lemma DemoStoreInv(k: Keys, hash: Option<string>, adminHash: Option<string>, snapshots: map<SessionId, Snapshot>,
                     versions: map<UserId, int>, writes: Writes)
    ensures Inv(k, DemoStore(hash, adminHash, snapshots, versions, writes))
  {
  }

  // ------------------------------------------------------------------------------------------------------------
  // Rotation
  // ------------------------------------------------------------------------------------------------------------

  /** How session `id` may change: nothing but its token, and only forward; revoked is for ever. */
  predicate Onward(w: World, w': World, id: SessionId) {
    id in w.sessions ==>
      && id in w'.sessions
      && SamePlace(w.sessions[id], w'.sessions[id]) && w'.sessions[id].version == w.sessions[id].version
      && w'.sessions[id].secret == w.sessions[id].secret
      && w.sessions[id].generation <= w'.sessions[id].generation
      && (w.sessions[id].revoked ==> w'.sessions[id] == w.sessions[id])
  }

  lemma RevokedOnward(w: World, ids: set<SessionId>, deleted: set<SessionId>, id: SessionId)
    ensures Onward(w, RevokedAll(w, ids, deleted), id)
  {
  }

  lemma LoginOnward(k: Keys, w: World, e: Event, id: SessionId)
    requires UserSetsExact(w) && e.Login? && Fresh(w, e)
    ensures Onward(w, Apply(k, w, e).0, id)
  {
    if e.u in w.users {
      LoginAdds(k, w, e);
      RevokedOnward(w, Replaced(w, e.u, Device(e.device)), e.writes.deleted, id);
    }
  }

  lemma OneRevokedOnward(w: World, id: SessionId, deleted: bool, x: SessionId)
    ensures Onward(w, Revoked(w, id, deleted), x)
  {
  }

  lemma RefreshOnward(k: Keys, w: World, token: string, ttl: int, now: int, writes: Writes, x: SessionId)
    ensures Onward(w, Refreshed(k, w, token, ttl, now, writes).0, x)
  {
    match Checked(k, w, token, now) {
      case Bad =>
      case Stale(id) => OneRevokedOnward(w, id, id in writes.deleted, x);
      case Current(id) => RefreshTurns(k, w, token, ttl, now, writes);
    }
  }

  lemma LogoutOnward(k: Keys, w: World, token: string, now: int, writes: Writes, x: SessionId)
    ensures Onward(w, LoggedOut(k, w, token, now, writes).0, x)
  {
    match Checked(k, w, token, now) {
      case Bad =>
      case Stale(id) => OneRevokedOnward(w, id, id in writes.deleted, x);
      case Current(id) => OneRevokedOnward(w, id, id in writes.deleted, x);
    }
  }

  lemma LogoutAllOnward(w: World, u: UserId, writes: Writes, id: SessionId)
    ensures Onward(w, LoggedOutAll(w, u, writes), id)
  {
    var w1 := VersionSynced(Bumped(w, u), u, writes);
    RevokedOnward(w1, IdsOf(w1, u), writes.deleted, id);
    assert LoggedOutAll(w, u, writes).sessions == RevokedAll(w1, IdsOf(w1, u), writes.deleted).sessions;
  }

  lemma ApplyOnward(k: Keys, w: World, e: Event, id: SessionId)
    requires UserSetsExact(w)
    ensures Onward(w, Apply(k, w, e).0, id)
  {
    if Fresh(w, e) {
      match e {
        case Login(_, _, _, _, _, _, _) => LoginOnward(k, w, e, id);
        case Refresh(token, ttl, now, writes) => RefreshOnward(k, w, token, ttl, now, writes, id);
        case Logout(token, now, writes) => LogoutOnward(k, w, token, now, writes, id);
        case LogoutAll(u, writes) => LogoutAllOnward(w, u, writes, id);
        case ResetPassword(phone, password, hashed, writes) => ResetOnward(w, phone, password, hashed, writes, id);
        case SetStatus(u, active, writes) => StatusOnward(w, u, active, writes, id);
        case SignUp(_, _, _, _) =>
        case SnapshotExpires(_) =>
      }
    }
  }

  lemma ResetOnward(w: World, phone: string, password: string, hashed: Option<string>, writes: Writes, id: SessionId)
    ensures Onward(w, PasswordUpdated(w, phone, password, hashed, writes).0, id)
  {
    if PasswordUpdated(w, phone, password, hashed, writes).1 == Done {
      var u := w.phones[phone];
      LogoutAllOnward(w.(users := w.users[u := w.users[u].(passwordHash := hashed.value)]), u, writes, id);
    }
  }

  lemma StatusOnward(w: World, u: UserId, active: bool, writes: Writes, id: SessionId)
    ensures Onward(w, StatusSet(w, u, active, writes).0, id)
  {
    if u in w.users {
      var w1 := w.(users := w.users[u := w.users[u].(active := active, version := w.users[u].version + 1)]);
      RevokedOnward(w1, IdsOf(w1, u), writes.deleted, id);
    }
  }

  lemma {:induction false} RunOnward(k: Keys, w: World, es: seq<Event>, id: SessionId)
    requires Sound(k) && Inv(k, w)
    ensures Onward(w, Run(k, w, es), id)
    decreases |es|
  {
    if es != [] {
      ApplyKeeps(k, w, es[0]);
      ApplyOnward(k, w, es[0], id);
      RunOnward(k, Apply(k, w, es[0]).0, es[1..], id);
    }
  }

  /** The session and generation redeemed by an event, if it is a refresh that succeeds. */
  function Redeems(k: Keys, w: World, e: Event): Option<(SessionId, int)> {
    if e.Refresh? && Apply(k, w, e).1.Issued? && Apply(k, w, e).1.id in w.sessions
    then Some((Apply(k, w, e).1.id, w.sessions[Apply(k, w, e).1.id].generation)) else None
  }

  /** A redeemed generation is the one the token names, and it is over. */
  lemma RedeemAdvances(k: Keys, w: World, e: Event)
    requires Redeems(k, w, e).Some?
    ensures var (id, g) := Redeems(k, w, e).value;
            && ParseRefreshToken(e.token).Some? && ParseRefreshToken(e.token).value.id
                 == id && ParseRefreshToken(e.token).value.generation == g
            && Live(w, id) && id in Apply(k, w, e).0.sessions && Apply(k, w, e).0.sessions[id].generation == g + 1
  {
  }

  lemma {:induction false} RunConcat(k: Keys, w: World, a: seq<Event>, b: seq<Event>)
    ensures Run(k, w, a + b) == Run(k, Run(k, w, a), b)
    decreases |a|
  {
    if a == [] {
      assert a + b == b;
    } else {
      assert (a + b)[0] == a[0] && (a + b)[1..] == a[1..] + b;
      RunConcat(k, Apply(k, w, a[0]).0, a[1..], b);
    }
  }

  lemma RunThrough(k: Keys, w: World, es: seq<Event>, i: nat, j: nat)
    requires i < j < |es|
    ensures Run(k, w, es[..j]) == Run(k, Apply(k, Run(k, w, es[..i]), es[i]).0, es[i + 1..j])
  {
    var rest := es[i + 1..j];
    assert es[..j] == es[..i] + ([es[i]] + rest);
    RunConcat(k, w, es[..i], [es[i]] + rest);
    assert ([es[i]] + rest)[1..] == rest;
  }

  lemma RedeemsMoreLater(k: Keys, w: World, e: Event, between: seq<Event>, e': Event)
    requires Sound(k) && Inv(k, w) && Redeems(k, w, e).Some?
    ensures match Redeems(k, Run(k, Apply(k, w, e).0, between), e')
            case None => true
            case Some((id, g)) => id == Redeems(k, w, e).value.0 ==> Redeems(k, w, e).value.1 < g
  {
    RedeemAdvances(k, w, e);
    ApplyKeeps(k, w, e);
    RunOnward(k, Apply(k, w, e).0, between, Redeems(k, w, e).value.0);
  }

  /** Over any run, no generation of a session is redeemed twice: later redemptions are of later generations. */
  lemma RedeemedOnce(k: Keys, w: World, es: seq<Event>, i: nat, j: nat, id: SessionId, g: int, g': int)
    requires Sound(k) && Inv(k, w) && i < j < |es|
    requires Redeems(k, Run(k, w, es[..i]), es[i]) == Some((id, g))
    requires Redeems(k, Run(k, w, es[..j]), es[j]) == Some((id, g'))
    ensures g < g'
  {
    RunKeeps(k, w, es[..i]);
    RunThrough(k, w, es, i, j);
    RedeemsMoreLater(k, Run(k, w, es[..i]), es[i], es[i + 1..j], es[j]);
  }

  /** Of a revoked session no refresh token is accepted again, for refreshing or for logging out. */
  lemma RevokedFamilyIsDead(k: Keys, w: World, id: SessionId, es: seq<Event>, token: string, now: int)
    requires Sound(k) && Inv(k, w) && id in w.sessions && w.sessions[id].revoked
    requires ParseRefreshToken(token).Some? && ParseRefreshToken(token).value.id == id
    ensures Checked(k, Run(k, w, es), token, now) == Bad
  {
    RunOnward(k, w, es, id);
  }

  lemma ReplayIsStale(k: Keys, w: World, e: Event, es: seq<Event>, now: int)
    requires Sound(k) && Inv(k, w) && Redeems(k, w, e).Some?
    ensures var id, w' := Redeems(k, w, e).value.0, Run(k, Apply(k, w, e).0, es);
            Checked(k, w', e.token, now) == if Alive(w', id, now) then Stale(id) else Bad
  {
    var id := Redeems(k, w, e).value.0;
    RedeemAdvances(k, w, e);
    ApplyKeeps(k, w, e);
    ApplyOnward(k, w, e, id);
    RunOnward(k, Apply(k, w, e).0, es, id);
  }

  /** A redeemed token never works again. Presented while its session is alive, it revokes the session. */
  lemma ReplayRevokes(k: Keys, w: World, e: Event, es: seq<Event>, ttl: int, now: int, writes: Writes)
    requires Sound(k) && Inv(k, w) && Redeems(k, w, e).Some?
    ensures var id, w' := Redeems(k, w, e).value.0, Run(k, Apply(k, w, e).0, es);
            var (w2, out) := Refreshed(k, w', e.token, ttl, now, writes);
            && out == (if Alive(w', id, now) then TokenReplayed else TokenInvalid)
            && w2 == (if Alive(w', id, now) then Revoked(w', id, id in writes.deleted) else w')
            && LoggedOut(k, w', e.token, now, writes) == (w2, out)
            && (Alive(w', id, now) ==> !Live(w2, id))
  {
    ReplayIsStale(k, w, e, es, now);
  }

  /** The current token of an unexpired live session is redeemed, and for the next one. */
  lemma CurrentIsRedeemed(k: Keys, w: World, id: SessionId, ttl: int, now: int, writes: Writes)
    requires Sound(k) && Inv(k, w) && Alive(w, id, now)
    ensures var s := w.sessions[id];
            Refreshed(k, w, Token(k, id, s.generation, s.secret), ttl, now, writes).1
            == if s.generation <= MAX_INT64 then Issued(id, Token(k, id, s.generation + 1, s.secret)) else TokenInvalid
  {
    assert GoodSession(k, w, id);
    ParseBuild(k.mac, id, w.sessions[id].generation, w.sessions[id].secret);
  }
}
