/** The validator of another service, which sees only the shared state: what it accepts, and how far revoking a user's
    sessions reaches it. */
module SessionValidator {
  import opened Wrappers
  import opened RefreshToken
  import opened SessionStore
  import opened SessionRuns

  /** The claims of an access token, once its signature and expiry are checked; absent or unreadable ones are `None`. */
  datatype Claims = Claims(sub: Option<UserId>, userId: Option<UserId>, sid: SessionId, version: Option<int>)

  datatype Verdict = Accepted | Unauthenticated | Unavailable

  datatype Read<T> = Found(value: T) | Missing | ReadFailed

  function Load<K, V>(m: map<K, V>, key: K, fails: bool): Read<V> {
    if fails then ReadFailed else if key in m then Found(m[key]) else Missing
  }

  function Subject(c: Claims): Option<UserId> {
    if c.sub.Some? then c.sub else c.userId
  }

  method Validate(snapshots: map<SessionId, Snapshot>, versions: map<UserId, int>, c: Claims, firstFails: bool,
                  secondFails: bool)
    returns (verdict: Verdict)
    ensures verdict == Accepted <==> Accepts(snapshots, versions, c) && !firstFails && !secondFails
    ensures verdict == Unavailable <==> Complete(c) && (firstFails || (Matches(snapshots, c) && secondFails))
  {
    var subject := c.sub;
    if subject.None? {
      subject := c.userId;
    }
    if subject.None? || c.sid == "" || c.version.None? {
      return Unauthenticated;
    }
    var snapshot := Load(snapshots, c.sid, firstFails);
    if snapshot.ReadFailed? {
      return Unavailable;
    }
    if snapshot.Missing? {
      return Unauthenticated;
    }
    if snapshot.value.userId != subject.value || snapshot.value.version != c.version.value {
      return Unauthenticated;
    }
    var current := Load(versions, subject.value, secondFails);
    if current.ReadFailed? {
      return Unavailable;
    }
    if current.Missing? || current.value != c.version.value {
      return Unauthenticated;
    }
    return Accepted;
  }

  predicate Complete(c: Claims) {
    Subject(c).Some? && c.sid != "" && c.version.Some?
  }

  predicate Matches(snapshots: map<SessionId, Snapshot>, c: Claims)
    requires Complete(c)
  {
    c.sid in snapshots && snapshots[c.sid].userId == Subject(c).value && snapshots[c.sid].version == c.version.value
  }

  /** The session is known, belongs to the subject, and its version is both the token's and the user's current one. */
  predicate Accepts(snapshots: map<SessionId, Snapshot>, versions: map<UserId, int>, c: Claims) {
    && Complete(c) && Matches(snapshots, c)
    && Subject(c).value in versions && versions[Subject(c).value] == c.version.value
  }

  /** An accepted token names a known session of its own subject, at the version of that session's snapshot, which is
      also the subject's current version; and nothing more is needed. */
  lemma AcceptedExactly(snapshots: map<SessionId, Snapshot>, versions: map<UserId, int>, c: Claims)
    ensures Accepts(snapshots, versions, c) <==>
            exists u, device, v :: c.sid != "" && c.version == Some(v)
              && (c.sub == Some(u) || (c.sub == None && c.userId == Some(u)))
              && c.sid in snapshots && snapshots[c.sid] == Snapshot(u, device, v) && u in versions && versions[u] == v
  {
    if Accepts(snapshots, versions, c) {
      var u, v := Subject(c).value, c.version.value;
      assert snapshots[c.sid] == Snapshot(u, snapshots[c.sid].device, v);
    }
  }

  /** The access token minted for a session, at login or at any refresh: its version is fixed at login. */
  function Minted(w: World, id: SessionId): Claims
    requires id in w.sessions
  {
    Claims(Some(w.sessions[id].userId), Some(w.sessions[id].userId), id, Some(w.sessions[id].version))
  }

  predicate Valid(w: World, c: Claims) {
    Accepts(w.snapshots, w.versions, c)
  }

  lemma MintedNeverChanges(k: Keys, w: World, es: seq<Event>, id: SessionId)
    requires Sound(k) && Inv(k, w) && id in w.sessions
    ensures id in Run(k, w, es).sessions && Minted(Run(k, w, es), id) == Minted(w, id)
  {
    RunOnward(k, w, es, id);
  }

  /** A session just saved, by a login or a refresh whose writes took effect, validates. */
  lemma SavedValidates(k: Keys, w: World, id: SessionId, writes: Writes)
    requires Inv(k, w) && id in w.sessions && writes.snapshot && writes.sessionVersion
    ensures Valid(Saved(w, id, w.sessions[id], writes), Minted(w, id))
  {
    assert GoodSession(k, w, id);
  }

  // ------------------------------------------------------------------------------------------------------------
  // Revocation
  // ------------------------------------------------------------------------------------------------------------

  /** The version of user `u` has moved past `v`, in the store, in the shared state and for every live session. */
  ghost predicate Past(w: World, u: UserId, v: int) {
    && u in w.users && w.users[u].version > v
    && u in w.versions && w.versions[u] > v
    && (forall id :: Live(w, id) && w.sessions[id].userId == u ==> w.sessions[id].version > v)
  }

  predicate Buried(w: World, id: SessionId) {
    id in w.sessions && w.sessions[id].revoked && id !in w.snapshots
  }

  lemma PastIsRejected(w: World, u: UserId, v: int, c: Claims)
    requires Past(w, u, v) && Subject(c) == Some(u) && c.version.Some? && c.version.value <= v
    ensures !Valid(w, c)
  {
  }

  lemma RevokedAllPast(w: World, ids: set<SessionId>, deleted: set<SessionId>, u: UserId, v: int)
    requires Past(w, u, v)
    ensures Past(RevokedAll(w, ids, deleted), u, v)
  {
    var w' := RevokedAll(w, ids, deleted);
    forall id | Live(w', id) && w'.sessions[id].userId == u
      ensures w'.sessions[id].version > v
    {
      assert Live(w, id);
    }
  }

  lemma SavedPast(k: Keys, w: World, id: SessionId, writes: Writes, u: UserId, v: int)
    requires Past(w, u, v) && Live(w, id)
    ensures Past(Saved(w, id, w.sessions[id], writes), u, v)
  {
    var w' := Saved(w, id, w.sessions[id], writes);
    assert forall x :: Live(w', x) <==> Live(w, x);
  }

  lemma UsersPast(w: World, w': World, u: UserId, v: int)
    requires Past(w, u, v) && UsersGrow(w, w')
    ensures Past(w', u, v)
  {
    assert forall x :: Live(w', x) <==> Live(w, x);
  }

  lemma SyncedPast(w: World, x: UserId, writes: Writes, u: UserId, v: int)
    requires Past(w, u, v)
    ensures Past(VersionSynced(w, x, writes), u, v)
  {
    assert forall id :: Live(VersionSynced(w, x, writes), id) <==> Live(w, id);
  }

  lemma LoginPast(k: Keys, w: World, e: Event, u: UserId, v: int)
    requires Inv(k, w) && Past(w, u, v) && e.Login? && Fresh(w, e)
    ensures Past(Apply(k, w, e).0, u, v)
  {
    if e.u in w.users {
      var w1, s := RevokedAll(w, Replaced(w, e.u, Device(e.device)), e.writes.deleted), NewSession(k, w, e);
      LoginAdds(k, w, e);
      RevokedAllPast(w, Replaced(w, e.u, Device(e.device)), e.writes.deleted, u, v);
      AddedPast(w1, e.id, s, u, v);
      SavedPast(k, Added(w1, e.id, s), e.id, e.writes, u, v);
    }
  }

  lemma AddedPast(w: World, id: SessionId, s: Session, u: UserId, v: int)
    requires Past(w, u, v) && (s.userId == u ==> s.version > v)
    ensures Past(Added(w, id, s), u, v)
  {
    var w' := Added(w, id, s);
    forall x | Live(w', x) && w'.sessions[x].userId == u
      ensures w'.sessions[x].version > v
    {
      if x != id {
        assert Live(w, x);
      }
    }
  }

  lemma TurnedPast(k: Keys, w: World, id: SessionId, s: Session, u: UserId, v: int)
    requires Past(w, u, v) && Live(w, id) && Rotates(k, w.sessions[id], s, id)
    ensures Past(Turned(w, id, s), u, v)
  {
    var w' := Turned(w, id, s);
    forall x | Live(w', x) && w'.sessions[x].userId == u
      ensures w'.sessions[x].version > v
    {
      assert Live(w, x);
    }
  }

  lemma RevokedPast(w: World, id: SessionId, deleted: set<SessionId>, u: UserId, v: int)
    requires Past(w, u, v)
    ensures Past(Revoked(w, id, id in deleted), u, v)
  {
    RevokedIsRevokedAll(w, id, deleted);
    RevokedAllPast(w, {id}, deleted, u, v);
  }

  lemma TokenPast(k: Keys, w: World, e: Event, u: UserId, v: int)
    requires Inv(k, w) && Past(w, u, v) && (e.Refresh? || e.Logout?)
    ensures Past(Apply(k, w, e).0, u, v)
  {
    match Checked(k, w, e.token, e.now) {
      case Bad =>
      case Stale(id) => RevokedPast(w, id, e.writes.deleted, u, v);
      case Current(id) =>
        if e.Logout? {
          RevokedPast(w, id, e.writes.deleted, u, v);
        } else {
          RefreshTurns(k, w, e.token, e.ttl, e.now, e.writes);
          var s := Rotated(k, w.sessions[id], id, e.ttl, e.now);
          TurnedPast(k, w, id, s, u, v);
          SavedPast(k, Turned(w, id, s), id, e.writes, u, v);
        }
    }
  }

  lemma LogoutAllPast(k: Keys, w: World, x: UserId, writes: Writes, u: UserId, v: int)
    requires Sound(k) && Inv(k, w) && Past(w, u, v)
    ensures Past(LoggedOutAll(w, x, writes), u, v)
  {
    UsersPast(w, Bumped(w, x), u, v);
    SyncedPast(Bumped(w, x), x, writes, u, v);
    SyncedKeeps(k, w, x, writes);
    LoggedOutAllIs(w, x, writes);
    RevokedAllPast(VersionSynced(Bumped(w, x), x, writes), IdsOf(w, x), writes.deleted, u, v);
  }

  lemma ResetPast(k: Keys, w: World, e: Event, u: UserId, v: int)
    requires Sound(k) && Inv(k, w) && Past(w, u, v) && e.ResetPassword?
    ensures Past(Apply(k, w, e).0, u, v)
  {
    if Apply(k, w, e).1 == Done {
      var x := w.phones[e.phone];
      var w1 := w.(users := w.users[x := w.users[x].(passwordHash := e.hashed.value)]);
      UsersPast(w, w1, u, v);
      UsersGrowKeeps(k, w, w1);
      LogoutAllPast(k, w1, x, e.writes, u, v);
    }
  }

  lemma StatusPast(k: Keys, w: World, e: Event, u: UserId, v: int)
    requires Past(w, u, v) && e.SetStatus?
    ensures Past(Apply(k, w, e).0, u, v)
  {
    if e.u in w.users {
      var w1 := w.(users := w.users[e.u := w.users[e.u].(active := e.active, version := w.users[e.u].version + 1)]);
      UsersPast(w, w1, u, v);
      RevokedAllPast(w1, IdsOf(w1, e.u), e.writes.deleted, u, v);
      SyncedPast(if e.active then w1 else RevokedAll(w1, IdsOf(w1, e.u), e.writes.deleted), e.u, e.writes, u, v);
    }
  }

  lemma SignUpPast(k: Keys, w: World, e: Event, u: UserId, v: int)
    requires Inv(k, w) && Past(w, u, v) && e.SignUp?
    ensures Past(Apply(k, w, e).0, u, v)
  {
    if Apply(k, w, e).1 == Done {
      var x := w.nextUserId;
      var w1 := w.(nextUserId := x + 1, users := w.users[x := User(e.phone, e.hashed.value, 1, true)],
          phones := w.phones[e.phone := x]);
      UsersPast(w, w1, u, v);
      SyncedPast(w1, x, e.writes, u, v);
    }
  }

  lemma ExpiryPast(k: Keys, w: World, e: Event, u: UserId, v: int)
    requires Past(w, u, v) && e.SnapshotExpires?
    ensures Past(Apply(k, w, e).0, u, v)
  {
    assert forall id :: Live(Apply(k, w, e).0, id) <==> Live(w, id);
  }

  lemma ApplyPast(k: Keys, w: World, e: Event, u: UserId, v: int)
    requires Sound(k) && Inv(k, w) && Past(w, u, v)
    ensures Past(Apply(k, w, e).0, u, v)
  {
    if Fresh(w, e) {
      match e {
        case SignUp(_, _, _, _) => SignUpPast(k, w, e, u, v);
        case SetStatus(_, _, _) => StatusPast(k, w, e, u, v);
        case Login(_, _, _, _, _, _, _) => LoginPast(k, w, e, u, v);
        case Refresh(_, _, _, _) => TokenPast(k, w, e, u, v);
        case Logout(_, _, _) => TokenPast(k, w, e, u, v);
        case LogoutAll(x, writes) => LogoutAllPast(k, w, x, writes, u, v);
        case ResetPassword(_, _, _, _) => ResetPast(k, w, e, u, v);
        case SnapshotExpires(_) => ExpiryPast(k, w, e, u, v);
      }
    }
  }

  lemma {:induction false} RunPast(k: Keys, w: World, es: seq<Event>, u: UserId, v: int)
    requires Sound(k) && Inv(k, w) && Past(w, u, v)
    ensures Past(Run(k, w, es), u, v)
    decreases |es|
  {
    if es != [] {
      ApplyKeeps(k, w, es[0]);
      ApplyPast(k, w, es[0], u, v);
      RunPast(k, Apply(k, w, es[0]).0, es[1..], u, v);
    }
  }

  lemma SavedBuried(w: World, id: SessionId, s: Session, writes: Writes, x: SessionId)
    requires Buried(w, x) && id != x
    ensures Buried(Saved(w, id, s, writes), x)
  {
  }

  lemma RefreshBuried(k: Keys, w: World, e: Event, id: SessionId)
    requires Buried(w, id) && e.Refresh?
    ensures Buried(Apply(k, w, e).0, id)
  {
    match Checked(k, w, e.token, e.now) {
      case Bad =>
      case Stale(x) =>
      case Current(x) =>
        RefreshTurns(k, w, e.token, e.ttl, e.now, e.writes);
        var s := Rotated(k, w.sessions[x], x, e.ttl, e.now);
        SavedBuried(Turned(w, x, s), x, s, e.writes, id);
    }
  }

  lemma LoginBuried(k: Keys, w: World, e: Event, id: SessionId)
    requires UserSetsExact(w) && Buried(w, id) && e.Login? && Fresh(w, e) && e.u in w.users
    ensures Buried(Apply(k, w, e).0, id)
  {
    LoginAdds(k, w, e);
    var w1, s := RevokedAll(w, Replaced(w, e.u, Device(e.device)), e.writes.deleted), NewSession(k, w, e);
    SavedBuried(Added(w1, e.id, s), e.id, s, e.writes, id);
  }

  /** Only live sessions are ever saved, so a deleted snapshot of a revoked session stays deleted. */
  lemma ApplyBuried(k: Keys, w: World, e: Event, id: SessionId)
    requires UserSetsExact(w) && Buried(w, id)
    ensures Buried(Apply(k, w, e).0, id)
  {
    if Fresh(w, e) {
      if e.Login? {
        if e.u in w.users {
          LoginBuried(k, w, e, id);
        }
      } else if e.Refresh? {
        RefreshBuried(k, w, e, id);
      } else {
        ApplyOnward(k, w, e, id);
        OthersBuried(k, w, e, id);
      }
    }
  }

  lemma LogoutAllDeletes(w: World, u: UserId, writes: Writes)
    ensures LoggedOutAll(w, u, writes).snapshots.Keys <= w.snapshots.Keys
  {
  }

  lemma TokenDeletes(k: Keys, w: World, token: string, now: int, writes: Writes)
    ensures LoggedOut(k, w, token, now, writes).0.snapshots.Keys <= w.snapshots.Keys
  {
  }

  /** Everything but a login or a refresh only ever deletes snapshots. */
  lemma OthersBuried(k: Keys, w: World, e: Event, id: SessionId)
    requires Fresh(w, e) && !e.Login? && !e.Refresh?
    ensures id !in w.snapshots ==> id !in Apply(k, w, e).0.snapshots
  {
    match e {
      case LogoutAll(u, writes) => LogoutAllDeletes(w, u, writes);
      case Logout(token, now, writes) => TokenDeletes(k, w, token, now, writes);
      case ResetPassword(phone, password, hashed, writes) =>
        if Apply(k, w, e).1 == Done {
          var u := w.phones[phone];
          LogoutAllDeletes(w.(users := w.users[u := w.users[u].(passwordHash := hashed.value)]), u, writes);
        }
      case _ =>
    }
  }

  lemma {:induction false} RunBuried(k: Keys, w: World, es: seq<Event>, id: SessionId)
    requires Sound(k) && Inv(k, w) && Buried(w, id)
    ensures Buried(Run(k, w, es), id)
    decreases |es|
  {
    if es != [] {
      ApplyKeeps(k, w, es[0]);
      ApplyBuried(k, w, es[0], id);
      RunBuried(k, Apply(k, w, es[0]).0, es[1..], id);
    }
  }

  /** What logging out everywhere leaves behind for one session of the user. */
  lemma AfterLogoutAll(k: Keys, w: World, u: UserId, writes: Writes, id: SessionId)
    requires Sound(k) && Inv(k, w) && id in w.sessions && w.sessions[id].userId == u
    ensures var w' := LoggedOutAll(w, u, writes);
            && id in w'.sessions && w'.sessions[id].revoked && Minted(w', id) == Minted(w, id)
            && (id in w'.snapshots <==> id in w.snapshots && !(Live(w, id) && id in writes.deleted))
            && (id in w'.snapshots ==> w'.snapshots[id] == w.snapshots[id])
            && (writes.userVersion ==> Past(w', u, w.users[u].version))
            && (!writes.userVersion ==> w'.versions == w.versions)
  {
    assert GoodSession(k, w, id);
    SyncedKeeps(k, w, u, writes);
    LoggedOutAllIs(w, u, writes);
    assert id in IdsOf(w, u) <==> Live(w, id) && w.sessions[id].userId == u;
    if writes.userVersion {
      NoneLeft(k, w, u, writes);
    }
  }

  lemma NoneLeft(k: Keys, w: World, u: UserId, writes: Writes)
    requires Sound(k) && Inv(k, w) && u in w.users && writes.userVersion
    ensures Past(LoggedOutAll(w, u, writes), u, w.users[u].version)
  {
    SyncedKeeps(k, w, u, writes);
    LoggedOutAllIs(w, u, writes);
    var w' := LoggedOutAll(w, u, writes);
    forall x | Live(w', x)
      ensures w'.sessions[x].userId != u
    {
      assert Live(w, x);
      assert x in IdsOf(w, u) <==> Live(w, x) && w.sessions[x].userId == u;
    }
  }

  /** Right after logging out everywhere, an earlier token of the user validates exactly when it did before and
      neither the version write nor the deletion of its session's snapshot took effect. */
  lemma LogoutAllDecides(k: Keys, w: World, u: UserId, writes: Writes, id: SessionId)
    requires Sound(k) && Inv(k, w) && id in w.sessions && w.sessions[id].userId == u
    ensures Valid(LoggedOutAll(w, u, writes), Minted(w, id))
            <==> Valid(w, Minted(w, id)) && !writes.userVersion && !(Live(w, id) && id in writes.deleted)
  {
    AfterLogoutAll(k, w, u, writes, id);
    assert GoodSession(k, w, id);
    if writes.userVersion {
      PastIsRejected(LoggedOutAll(w, u, writes), u, w.users[u].version, Minted(w, id));
    }
  }

  /** Revocation holds for ever: once a user is logged out everywhere, no access token minted earlier for a session of
      that user validates at any later point, if the version write or the deletion of the snapshot took effect. */
  lemma RevocationIsForEver(k: Keys, w: World, u: UserId, writes: Writes, id: SessionId, es: seq<Event>)
    requires Sound(k) && Inv(k, w) && id in w.sessions && w.sessions[id].userId == u
    requires writes.userVersion || id !in LoggedOutAll(w, u, writes).snapshots
    ensures !Valid(Run(k, LoggedOutAll(w, u, writes), es), Minted(w, id))
  {
    var w' := LoggedOutAll(w, u, writes);
    AfterLogoutAll(k, w, u, writes, id);
    LoggedOutAllKeeps(k, w, u, writes);
    assert GoodSession(k, w, id);
    if writes.userVersion {
      RunPast(k, w', es, u, w.users[u].version);
      PastIsRejected(Run(k, w', es), u, w.users[u].version, Minted(w, id));
    } else {
      RunBuried(k, w', es, id);
    }
  }

  /** The same after a password reset. */
  lemma ResetIsForEver(k: Keys, w: World, e: Event, id: SessionId, es: seq<Event>)
    requires Sound(k) && Inv(k, w) && e.ResetPassword? && Apply(k, w, e).1 == Done
    requires id in w.sessions && w.sessions[id].userId == w.phones[e.phone]
    requires e.writes.userVersion || id !in Apply(k, w, e).0.snapshots
    ensures !Valid(Run(k, Apply(k, w, e).0, es), Minted(w, id))
  {
    var u := w.phones[e.phone];
    var w1 := w.(users := w.users[u := w.users[u].(passwordHash := e.hashed.value)]);
    UsersGrowKeeps(k, w, w1);
    RevocationIsForEver(k, w1, u, e.writes, id, es);
  }

  /** And after a change of the user's status, whether to disabled or to active, if its version write took effect: of
      the sessions before, only one that is live and refreshed again may be accepted, and disabling leaves none. */
  lemma DisablingIsForEver(k: Keys, w: World, u: UserId, writes: Writes, id: SessionId, es: seq<Event>)
    requires Sound(k) && Inv(k, w) && u in w.users && id in w.sessions && w.sessions[id].userId == u
    requires writes.userVersion
    ensures !Valid(Run(k, StatusSet(w, u, false, writes).0, es), Minted(w, id))
    ensures !Valid(StatusSet(w, u, true, writes).0, Minted(w, id))
  {
    var w' := StatusSet(w, u, false, writes).0;
    assert GoodSession(k, w, id);
    DisabledPast(k, w, u, writes);
    StatusSetKeeps(k, w, u, false, writes);
    RunPast(k, w', es, u, w.users[u].version);
    PastIsRejected(Run(k, w', es), u, w.users[u].version, Minted(w, id));
  }

  lemma DisabledPast(k: Keys, w: World, u: UserId, writes: Writes)
    requires Inv(k, w) && u in w.users && writes.userVersion
    ensures Past(StatusSet(w, u, false, writes).0, u, w.users[u].version)
  {
    var w' := StatusSet(w, u, false, writes).0;
    forall x | Live(w', x)
      ensures w'.sessions[x].userId != u
    {
      assert Live(w, x);
      assert x in IdsOf(w, u) <==> Live(w, x) && w.sessions[x].userId == u;
    }
  }

  // ------------------------------------------------------------------------------------------------------------
  // Refreshing an old session
  // ------------------------------------------------------------------------------------------------------------

  /** Saving a session writes its own version as the user's current one. So after an effective save, another session
      of the user whose snapshot is in place validates exactly when it has the same version, whichever of the two
      versions the store holds current. */
  lemma SavingSetsTheVersion(k: Keys, w: World, id: SessionId, other: SessionId, writes: Writes)
    requires Inv(k, w) && id in w.sessions && other in w.sessions && other != id && writes.snapshot
    requires writes.sessionVersion
    requires w.sessions[other].userId == w.sessions[id].userId
    requires other in w.snapshots && w.snapshots[other] == SnapshotOf(w.sessions[other])
    ensures Valid(Saved(w, id, w.sessions[id], writes), Minted(w, other)) <==>
            w.sessions[other].version == w.sessions[id].version
  {
    assert GoodSession(k, w, other);
  }

  /** What a login with all its writes leaves: the new session, saved; sessions on other devices untouched. */
  lemma AfterLogin(k: Keys, w: World, e: Event, other: SessionId)
    requires Inv(k, w) && e.Login? && Fresh(w, e) && e.u in w.users && e.writes.snapshot && e.writes.sessionVersion
    ensures var w', s := Apply(k, w, e).0, NewSession(k, w, e);
            && e.id in w'.sessions && w'.sessions[e.id] == s && e.id in w'.snapshots && w'.snapshots[e.id]
                 == SnapshotOf(s)
            && e.u in w'.versions && w'.versions[e.u] == s.version && w'.users == w.users
            && (other in w.sessions && w.sessions[other].device != s.device ==>
                  other in w'.sessions && w'.sessions[other] == w.sessions[other])
  {
    LoginAdds(k, w, e);
  }

  lemma AfterActivation(w: World, u: UserId, writes: Writes)
    requires u in w.users
    ensures var w' := StatusSet(w, u, true, writes).0;
            && w'.sessions == w.sessions && u in w'.users && w'.users[u].version == w.users[u].version + 1
  {
  }

  /** Two logins of a user on different devices with an activation in between: the first session is left at the old
      version, the second has the new one. */
  lemma TwoVersions(k: Keys, w: World, e1: Event, e2: Event, e3: Event) returns (w3: World)
    requires Sound(k) && Inv(k, w) && e1.Login? && e3.Login? && Fresh(w, e1) && Fresh(w, e3) && e1.u == e3.u
    requires e1.u in w.users
    requires e1.id != e3.id && Device(e1.device) != Device(e3.device) && e2.SetStatus? && e2.u == e1.u && e2.active
    requires e1.writes.snapshot && e1.writes.sessionVersion && e3.writes.snapshot && e3.writes.sessionVersion
    ensures w3 == Apply(k, Apply(k, Apply(k, w, e1).0, e2).0, e3).0 && Inv(k, w3)
    ensures e1.id in w3.sessions && w3.sessions[e1.id] == NewSession(k, w, e1)
    ensures e3.id in w3.sessions && w3.sessions[e3.id].userId == e1.u && Live(w3, e3.id)
    ensures e1.u in w3.users && w3.sessions[e3.id].version == w3.users[e1.u].version == w.users[e1.u].version + 1
  {
    var w1 := Apply(k, w, e1).0;
    AfterLogin(k, w, e1, e3.id);
    ApplyKeeps(k, w, e1);
    OnlyNew(k, w, e1, e3.id);
    var w2 := Apply(k, w1, e2).0;
    ApplyKeeps(k, w1, e2);
    AfterActivation(w1, e1.u, e2.writes);
    w3 := SecondLogin(k, w2, e3, e1.id, NewSession(k, w, e1));
  }

  lemma SecondLogin(k: Keys, w: World, e: Event, a: SessionId, s: Session) returns (w': World)
    requires Sound(k) && Inv(k, w) && e.Login? && Fresh(w, e) && e.u in w.users && e.writes.snapshot
    requires e.writes.sessionVersion
    requires a in w.sessions && w.sessions[a] == s && s.device != Device(e.device)
    ensures w' == Apply(k, w, e).0 && Inv(k, w') && a in w'.sessions && w'.sessions[a] == s
    ensures e.id in w'.sessions && w'.sessions[e.id] == NewSession(k, w, e) && w'.users == w.users
  {
    w' := Apply(k, w, e).0;
    AfterLogin(k, w, e, a);
    ApplyKeeps(k, w, e);
  }

  lemma RunFour(k: Keys, w: World, es: seq<Event>)
    requires |es| == 4
    ensures Run(k, w, es) == Apply(k, Apply(k, Apply(k, Apply(k, w, es[0]).0, es[1]).0, es[2]).0, es[3]).0
  {
    var w1 := Apply(k, w, es[0]).0;
    var w2 := Apply(k, w1, es[1]).0;
    var w3 := Apply(k, w2, es[2]).0;
    assert Run(k, w, es) == Run(k, w1, es[1..]);
    assert Run(k, w1, es[1..]) == Run(k, w2, es[1..][1..]);
    assert es[1..][1..] == es[2..] && es[2..][1..] == es[3..] && es[3..][1..] == [];
    assert Run(k, w2, es[2..]) == Run(k, w3, es[3..]);
    var w4 := Apply(k, w3, es[3..][0]).0;
    assert Run(k, w3, es[3..]) == Run(k, w4, es[3..][1..]) == Run(k, w4, []) == w4;
  }

  /** A session left at an old version by an activation, once refreshed, validates again, and the session that is at
      the user's current version no longer does. */
  lemma OldVersionReturns(k: Keys, w: World, es: seq<Event>, u: UserId, a: SessionId, b: SessionId, secret: string,
                          now: int, writes: Writes)
    requires Sound(k) && Inv(k, w) && u in w.users && GoodId(a) && GoodId(b) && a != b && a !in w.sessions
    requires b !in w.sessions
    requires writes.snapshot && writes.sessionVersion && |es| == 4
    requires es[0] == Login(u, "web", 0, a, secret, now, writes) && es[1] == SetStatus(u, true, writes)
    requires es[2] == Login(u, "app", 0, b, secret, now, writes)
    requires es[3] == Refresh(Token(k, a, 1, secret), 0, now, writes)
    ensures var w' := Run(k, w, es);
            && a in w'.sessions && b in w'.sessions && u in w'.users
            && w'.sessions[a].version < w'.sessions[b].version == w'.users[u].version
            && Live(w', a) && Live(w', b) && Valid(w', Minted(w', a)) && !Valid(w', Minted(w', b))
  {
    var w3 := TwoVersions(k, w, es[0], es[1], es[2]);
    RunFour(k, w, es);
    RefreshRestores(k, w3, a, b, secret, now, writes);
  }

  lemma OnlyNew(k: Keys, w: World, e: Event, b: SessionId)
    requires Inv(k, w) && e.Login? && Fresh(w, e) && e.u in w.users && b !in w.sessions && b != e.id
    ensures b !in Apply(k, w, e).0.sessions
  {
    LoginAdds(k, w, e);
  }

  lemma RefreshRestores(k: Keys, w: World, a: SessionId, b: SessionId, secret: string, now: int, writes: Writes)
    requires Sound(k) && Inv(k, w) && Alive(w, a, now) && Live(w, b) && a != b
    requires w.sessions[a].userId == w.sessions[b].userId && w.sessions[a].version < w.sessions[b].version
    requires w.sessions[a].generation == 1 && w.sessions[a].secret == secret && writes.snapshot && writes.sessionVersion
    ensures var w' := Refreshed(k, w, Token(k, a, 1, secret), 0, now, writes).0;
            && Live(w', a) && Live(w', b) && w'.users == w.users
            && w'.sessions[a].version == w.sessions[a].version && w'.sessions[b] == w.sessions[b]
            && Valid(w', Minted(w', a)) && !Valid(w', Minted(w', b))
  {
    assert GoodSession(k, w, a);
    ParseBuild(k.mac, a, 1, secret);
    RefreshTurns(k, w, Token(k, a, 1, secret), 0, now, writes);
  }
}
