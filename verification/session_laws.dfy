/** What single calls of the session store give their callers: a login and a refresh a token that works and for how
    long, a logout the end of its session, a new password the only one that counts, and nobody else a change. */
module SessionLaws {
  import opened Wrappers
  import opened RefreshToken
  import opened SessionStore
  import opened SessionRuns

  /** The session and its snapshot are as they were. */
  predicate SameSession(w: World, w': World, id: SessionId) {
    && (id in w'.sessions <==> id in w.sessions) && (id in w.sessions ==> w'.sessions[id] == w.sessions[id])
    && (id in w'.snapshots <==> id in w.snapshots) && (id in w.snapshots ==> w'.snapshots[id] == w.snapshots[id])
  }

  predicate SameUser(w: World, w': World, u: UserId) {
    && (u in w'.users <==> u in w.users) && (u in w.users ==> w'.users[u] == w.users[u])
    && (u in w'.versions <==> u in w.versions) && (u in w.versions ==> w'.versions[u] == w.versions[u])
  }

  ghost predicate OthersKept(w: World, w': World, id: SessionId) {
    forall other :: other != id ==> SameSession(w, w', other)
  }

  ghost predicate UsersKept(w: World, w': World, u: UserId) {
    forall other :: other != u ==> SameUser(w, w', other)
  }

  function CurrentToken(k: Keys, w: World, id: SessionId): string
    requires id in w.sessions
  {
    Token(k, id, w.sessions[id].generation, w.sessions[id].secret)
  }

  /** Refused at every later time, whatever happens in between. */
  ghost predicate NeverAgain(k: Keys, w: World, token: string) {
    forall es, t :: Checked(k, Run(k, w, es), token, t) == Bad
  }

  lemma CurrentIsCurrent(k: Keys, w: World, id: SessionId, now: int)
    requires Sound(k) && id in w.sessions && GoodId(id) && 1 <= w.sessions[id].generation <= MAX_INT64
    ensures Checked(k, w, CurrentToken(k, w, id), now) == if Alive(w, id, now) then Current(id) else Bad
  {
    ParseBuild(k.mac, id, w.sessions[id].generation, w.sessions[id].secret);
  }

  lemma OlderIsStale(k: Keys, w: World, id: SessionId, generation: int, now: int)
    requires Sound(k) && id in w.sessions && GoodId(id) && 1 <= generation <= MAX_INT64
    requires generation < w.sessions[id].generation
    ensures Checked(k, w, Token(k, id, generation, w.sessions[id].secret), now)
            == if Alive(w, id, now) then Stale(id) else Bad
  {
    ParseBuild(k.mac, id, generation, w.sessions[id].secret);
  }

  /** What the store takes for the token of a generation: any text that spells the session's id, the generation, and
      the signature of both under the session's own secret. */
  predicate SpellsGeneration(k: Keys, w: World, token: string, id: SessionId, generation: int) {
    && id in w.sessions
    && ParseRefreshToken(token)
       == Some(Parsed(id, generation, SignRefreshToken(k.mac, id, generation, w.sessions[id].secret)))
  }

  /** A token is current exactly if it spells the current generation of a live session, and a replay exactly if it
      spells an earlier one; everything else is refused. */
  lemma CheckedExactly(k: Keys, w: World, token: string, id: SessionId, now: int)
    ensures Checked(k, w, token, now) == Current(id) <==>
            Alive(w, id, now) && SpellsGeneration(k, w, token, id, w.sessions[id].generation)
    ensures Checked(k, w, token, now) == Stale(id) <==>
            Alive(w, id, now) && exists g :: g < w.sessions[id].generation && SpellsGeneration(k, w, token, id, g)
  {
    if Checked(k, w, token, now) == Stale(id) {
      assert SpellsGeneration(k, w, token, id, ParseRefreshToken(token).value.generation);
    }
  }

  /** A token whose signature is not the code of its id and generation under the session's secret does nothing. */
  lemma ForgedIsRefused(k: Keys, w: World, token: string, t: Parsed, ttl: int, now: int, writes: Writes)
    requires ParseRefreshToken(token) == Some(t)
    requires t.id in w.sessions ==>
      t.signature != Base64Url(k.mac(w.sessions[t.id].secret, SignedMessage(t.id, t.generation)))
    ensures Refreshed(k, w, token, ttl, now, writes) == (w, TokenInvalid)
    ensures LoggedOut(k, w, token, now, writes) == (w, TokenInvalid)
  {
  }

  // ------------------------------------------------------------------------------------------------------------
  // Logging out
  // ------------------------------------------------------------------------------------------------------------

  lemma LogoutRevokes(k: Keys, w: World, id: SessionId, now: int, writes: Writes)
    requires Sound(k) && Inv(k, w) && Alive(w, id, now) && w.sessions[id].generation <= MAX_INT64
    ensures LoggedOut(k, w, CurrentToken(k, w, id), now, writes) == (Revoked(w, id, id in writes.deleted), Done)
  {
    assert GoodSession(k, w, id);
    CurrentIsCurrent(k, w, id, now);
  }

  lemma RevokedEnds(w: World, id: SessionId, deleted: bool)
    requires id in w.sessions && id != "" && w.sessions[id].hash != ""
    ensures var s, w' := w.sessions[id], Revoked(w, id, deleted);
            && id in w'.sessions && w'.sessions[id] == s.(revoked := true)
            && id !in IdsOf(w', s.userId) && s.hash !in w'.refreshIndex
            && (id in w'.snapshots <==> id in w.snapshots && !deleted)
            && w'.users == w.users && w'.phones == w.phones && w'.versions == w.versions
  {
  }

  lemma RevokedKeepsOthers(w: World, id: SessionId, deleted: bool)
    ensures OthersKept(w, Revoked(w, id, deleted), id)
  {
    forall other | other != id
      ensures SameSession(w, Revoked(w, id, deleted), other)
    {
    }
  }

  /** Logging out with the current token of a live session answers success and ends it: its snapshot goes if the
      deletion takes effect, it leaves the user's set and the refresh index, and nothing else changes. */
  lemma LogoutEnds(k: Keys, w: World, id: SessionId, now: int, writes: Writes)
    requires Sound(k) && Inv(k, w) && Alive(w, id, now) && w.sessions[id].generation <= MAX_INT64
    ensures var s, (w', out) := w.sessions[id], LoggedOut(k, w, CurrentToken(k, w, id), now, writes);
            && out == Done && OthersKept(w, w', id)
            && id in w'.sessions && w'.sessions[id] == s.(revoked := true)
            && id !in IdsOf(w', s.userId) && s.hash !in w'.refreshIndex
            && (id in w'.snapshots <==> id in w.snapshots && id !in writes.deleted)
            && w'.users == w.users && w'.phones == w.phones && w'.versions == w.versions
  {
    assert GoodSession(k, w, id);
    LogoutRevokes(k, w, id, now, writes);
    RevokedEnds(w, id, id in writes.deleted);
    RevokedKeepsOthers(w, id, id in writes.deleted);
  }

  /** After it no token of the session is ever accepted again, by a refresh or by another logout. */
  lemma LogoutIsForEver(k: Keys, w: World, id: SessionId, now: int, writes: Writes, token: string)
    requires Sound(k) && Inv(k, w) && Alive(w, id, now) && w.sessions[id].generation <= MAX_INT64
    requires ParseRefreshToken(token).Some? && ParseRefreshToken(token).value.id == id
    ensures NeverAgain(k, LoggedOut(k, w, CurrentToken(k, w, id), now, writes).0, token)
  {
    LogoutEnds(k, w, id, now, writes);
    LoggedOutKeeps(k, w, CurrentToken(k, w, id), now, writes);
    RevokedNeverAgain(k, LoggedOut(k, w, CurrentToken(k, w, id), now, writes).0, id, token);
  }

  lemma RevokedNeverAgain(k: Keys, w: World, id: SessionId, token: string)
    requires Sound(k) && Inv(k, w) && id in w.sessions && w.sessions[id].revoked
    requires ParseRefreshToken(token).Some? && ParseRefreshToken(token).value.id == id
    ensures NeverAgain(k, w, token)
  {
    forall es, t
      ensures Checked(k, Run(k, w, es), token, t) == Bad
    {
      RevokedFamilyIsDead(k, w, id, es, token, t);
    }
  }

  /** Every session of the user ends, and no other user's does. */
  ghost predicate EndsAll(w: World, w': World, u: UserId, deleted: set<SessionId>) {
    && (forall id :: Live(w', id) <==> Live(w, id) && w.sessions[id].userId != u)
    && IdsOf(w', u) == {}
    && (forall id :: !(Live(w, id) && w.sessions[id].userId == u) ==> SameSession(w, w', id))
    && (forall id :: Live(w, id) && w.sessions[id].userId == u ==>
          (id in w'.snapshots <==> id in w.snapshots && id !in deleted))
  }

  lemma RevokedAllOne(k: Keys, w: World, u: UserId, deleted: set<SessionId>, id: SessionId)
    requires Inv(k, w)
    ensures var w', ends := RevokedAll(w, IdsOf(w, u), deleted), Live(w, id) && w.sessions[id].userId == u;
            && (Live(w', id) <==> Live(w, id) && !ends)
            && (!ends ==> SameSession(w, w', id))
            && (ends ==> (id in w'.snapshots <==> id in w.snapshots && id !in deleted))
  {
    assert id in IdsOf(w, u) <==> Live(w, id) && w.sessions[id].userId == u;
    assert id in w.sessions ==> GoodSession(k, w, id);
  }

  lemma RevokedAllNobody(w: World, u: UserId, deleted: set<SessionId>)
    requires UserSetsExact(w)
    ensures IdsOf(RevokedAll(w, IdsOf(w, u), deleted), u) == {}
  {
    forall id | id in IdsOf(w, u)
      ensures id in w.sessions && w.sessions[id].userId == u
    {
      assert id in IdsOf(w, u) <==> Live(w, id) && w.sessions[id].userId == u;
    }
  }

  lemma RevokedAllEnds(k: Keys, w: World, u: UserId, deleted: set<SessionId>)
    requires Inv(k, w)
    ensures EndsAll(w, RevokedAll(w, IdsOf(w, u), deleted), u, deleted)
  {
    RevokedAllNobody(w, u, deleted);
    var w' := RevokedAll(w, IdsOf(w, u), deleted);
    forall id
      ensures Live(w', id) <==> Live(w, id) && w.sessions[id].userId != u
      ensures !(Live(w, id) && w.sessions[id].userId == u) ==> SameSession(w, w', id)
      ensures Live(w, id) && w.sessions[id].userId == u ==>
                (id in w'.snapshots <==> id in w.snapshots && id !in deleted)
    {
      RevokedAllOne(k, w, u, deleted, id);
    }
  }

  lemma LogoutAllEnds(k: Keys, w: World, u: UserId, writes: Writes)
    requires Sound(k) && Inv(k, w)
    ensures EndsAll(w, LoggedOutAll(w, u, writes), u, writes.deleted)
  {
    SyncedKeeps(k, w, u, writes);
    var w1, w' := VersionSynced(Bumped(w, u), u, writes), LoggedOutAll(w, u, writes);
    BumpedHolders(w, u);
    SyncedHolders(Bumped(w, u), u, writes);
    assert w' == RevokedAll(w1, IdsOf(w, u), writes.deleted) by {
      LoggedOutAllIs(w, u, writes);
    }
    EndsAfter(k, w, w1, w', u, writes.deleted);
  }

  /** A user's version moves up by one, and never to less than one. */
  lemma BumpIsPositive(w: World, u: UserId)
    requires u in w.users
    ensures u in Bumped(w, u).users && Bumped(w, u).users[u].version >= 1
    ensures w.users[u].version >= 0 ==> Bumped(w, u).users[u].version == w.users[u].version + 1
  {
  }

  lemma LogoutAllCounts(w: World, u: UserId, writes: Writes)
    requires UsersGood(w)
    ensures var w' := LoggedOutAll(w, u, writes);
            && (u in w.users ==> u in w'.users && w'.users[u] == w.users[u].(version := w.users[u].version + 1))
            && w'.phones == w.phones
            && forall other :: other != u ==> SameUser(w, w', other)
  {
  }

  predicate SameHolders(w: World, w': World) {
    w'.sessions == w.sessions && w'.snapshots == w.snapshots && w'.userSessions == w.userSessions
  }

  lemma BumpedHolders(w: World, u: UserId)
    ensures SameHolders(w, Bumped(w, u))
  {
  }

  lemma SyncedHolders(w: World, u: UserId, writes: Writes)
    ensures SameHolders(w, VersionSynced(w, u, writes))
  {
  }

  /** Revoking after a change to users only. */
  lemma EndsAfter(k: Keys, w: World, w1: World, w': World, u: UserId, deleted: set<SessionId>)
    requires Inv(k, w1) && w' == RevokedAll(w1, IdsOf(w, u), deleted)
    requires SameHolders(w, w1)
    ensures EndsAll(w, w', u, deleted)
  {
    RevokedAllEnds(k, w1, u, deleted);
    SameSessionsEnd(w, w1, w', u, deleted);
  }

  /** Logging out everywhere ends every session of the user, moves the user's version on and touches nobody else. */
  lemma LogoutAllLaw(k: Keys, w: World, u: UserId, writes: Writes)
    requires Sound(k) && Inv(k, w)
    ensures var w' := LoggedOutAll(w, u, writes);
            && EndsAll(w, w', u, writes.deleted) && UsersKept(w, w', u) && w'.phones == w.phones
            && (u in w.users ==> u in w'.users && w'.users[u] == w.users[u].(version := w.users[u].version + 1))
  {
    LogoutAllEnds(k, w, u, writes);
    LogoutAllCounts(w, u, writes);
  }

  lemma SameSessionsEnd(w: World, w1: World, w': World, u: UserId, deleted: set<SessionId>)
    requires EndsAll(w1, w', u, deleted) && w1.sessions == w.sessions && w1.snapshots == w.snapshots
    ensures EndsAll(w, w', u, deleted)
  {
    assert forall id :: Live(w1, id) <==> Live(w, id);
    forall id | !(Live(w, id) && w.sessions[id].userId == u)
      ensures SameSession(w, w', id)
    {
      assert SameSession(w1, w', id);
    }
  }

  // ------------------------------------------------------------------------------------------------------------
  // Tokens
  // ------------------------------------------------------------------------------------------------------------

  /** A login answers a token that is current until the session expires, for the given time or a week. It ends the
      user's other session on the device and touches nothing else. */
  lemma LoginGives(k: Keys, w: World, e: Event, t: int)
    requires Sound(k) && Inv(k, w) && e.Login? && Fresh(w, e) && e.u in w.users
    ensures var (w', out) := Apply(k, w, e);
            && out.Issued? && out.id == e.id && e.id in w'.sessions && w'.sessions[e.id].userId == e.u
            && w'.sessions[e.id].device == (if e.device == "" then "web" else e.device)
            && Checked(k, w', out.token, t)
               == (if t <= e.now + (if e.ttl > 0 then e.ttl else 604800) then Current(e.id) else Bad)
            && w'.users == w.users && w'.phones == w.phones
  {
    LoginAdds(k, w, e);
    CurrentIsCurrent(k, Apply(k, w, e).0, e.id, t);
  }

  /** What it leaves on file: the session at the user's version, without an earlier token, and, as far as the writes
      take effect, the snapshot and the version that say the same. */
  lemma LoginSaves(k: Keys, w: World, e: Event)
    requires Sound(k) && Inv(k, w) && e.Login? && Fresh(w, e) && e.u in w.users
    ensures var w', version := Apply(k, w, e).0, w.users[e.u].version;
            && e.id in w'.sessions && w'.sessions[e.id].version == version && w'.sessions[e.id].previousHash == ""
            && (e.writes.snapshot ==> e.id in w'.snapshots && w'.snapshots[e.id]
                                      == Snapshot(e.u, if e.device == "" then "web" else e.device, version))
            && (e.writes.sessionVersion ==> e.u in w'.versions && w'.versions[e.u] == version)
  {
    LoginAdds(k, w, e);
  }

  lemma LoginReplaces(k: Keys, w: World, e: Event, other: SessionId)
    requires Sound(k) && Inv(k, w) && e.Login? && Fresh(w, e) && e.u in w.users && other != e.id
    ensures var w', replaced := Apply(k, w, e).0, Live(w, other) && SamePlace(w.sessions[other], NewSession(k, w, e));
            && (replaced ==> other in w'.sessions && w'.sessions[other] == w.sessions[other].(revoked := true)
                               && (other in w'.snapshots <==> other in w.snapshots && other !in e.writes.deleted))
            && (!replaced ==> SameSession(w, w', other))
  {
    LoginAdds(k, w, e);
    assert other in IdsOf(w, e.u) <==> Live(w, other) && w.sessions[other].userId == e.u;
    assert other in w.sessions ==> GoodSession(k, w, other);
  }

  /** A refresh with the current token answers the next one, current until the new expiry, and leaves the presented one
      as a replay. */
  lemma RefreshGives(k: Keys, w: World, id: SessionId, ttl: int, now: int, writes: Writes, t: int)
    requires Sound(k) && Inv(k, w) && Alive(w, id, now) && w.sessions[id].generation < MAX_INT64
    ensures var token := CurrentToken(k, w, id);
            var (w', out) := Refreshed(k, w, token, ttl, now, writes);
            var lives := t <= now + (if ttl > 0 then ttl else 604800);
            && out.Issued? && out.id == id
            && Checked(k, w', out.token, t) == (if lives then Current(id) else Bad)
            && Checked(k, w', token, t) == (if lives then Stale(id) else Bad)
  {
    var s := w.sessions[id];
    assert GoodSession(k, w, id);
    CurrentIsCurrent(k, w, id, now);
    var w' := Refreshed(k, w, CurrentToken(k, w, id), ttl, now, writes).0;
    CurrentIsCurrent(k, w', id, t);
    OlderIsStale(k, w', id, s.generation, t);
  }

  lemma TurnedKeepsOthers(k: Keys, w: World, id: SessionId, ttl: int, now: int, writes: Writes)
    requires id in w.sessions
    ensures var s := Rotated(k, w.sessions[id], id, ttl, now);
            OthersKept(w, Saved(Turned(w, id, s), id, s, writes), id)
  {
  }

  /** The session keeps its owner, its device, its version and the hash of the presented token as the previous one. */
  lemma RefreshKeeps(k: Keys, w: World, id: SessionId, ttl: int, now: int, writes: Writes)
    requires Sound(k) && Inv(k, w) && Alive(w, id, now) && w.sessions[id].generation < MAX_INT64
    ensures var token := CurrentToken(k, w, id);
            var w' := Refreshed(k, w, token, ttl, now, writes).0;
            && id in w'.sessions && SamePlace(w.sessions[id], w'.sessions[id]) && OthersKept(w, w', id)
            && w'.sessions[id].version == w.sessions[id].version && w'.sessions[id].previousHash == k.hash(token)
            && w'.users == w.users && w'.phones == w.phones
            && (writes.snapshot ==> id in w'.snapshots && w'.snapshots[id] == SnapshotOf(w.sessions[id]))
  {
    assert GoodSession(k, w, id);
    CurrentIsCurrent(k, w, id, now);
    RefreshTurns(k, w, CurrentToken(k, w, id), ttl, now, writes);
    TurnedKeepsOthers(k, w, id, ttl, now, writes);
  }

  // ------------------------------------------------------------------------------------------------------------
  // Passwords
  // ------------------------------------------------------------------------------------------------------------

  /** A user who signed up is let in by phone with the passwords that match the hash, and with no others. */
  lemma SignUpLetsIn(k: Keys, w: World, phone: string, password: string, hashed: Option<string>, writes: Writes,
                     asked: UserId, attempt: string, matches: (string, string) -> bool)
    requires Inv(k, w) && UserCreated(w, phone, password, hashed, writes).1 == Done
    ensures var w' := UserCreated(w, phone, password, hashed, writes).0;
            hashed.Some? && Authenticated(w', asked, phone, attempt, matches)
                            == if matches(hashed.value, attempt) then Some(w.nextUserId) else None
  {
  }

  /** A sign-up is refused without phone or password, for a phone in use and when hashing fails, in this order, and a
      refusal changes nothing. */
  lemma SignUpOutcome(w: World, phone: string, password: string, hashed: Option<string>, writes: Writes)
    ensures var (w', out) := UserCreated(w, phone, password, hashed, writes);
            && (out == InvalidCredentials <==> phone == "" || password == "")
            && (out == UserExists <==> phone != "" && password != "" && phone in w.phones)
            && (out == HashFailed <==> phone != "" && password != "" && phone !in w.phones && hashed.None?)
            && (out == Done || w' == w)
  {
  }

  /** Otherwise the next id is a new user, at version 1 in the shared state too if that write takes effect, and
      everything else is as before. */
  lemma SignUpAdds(w: World, phone: string, password: string, hashed: Option<string>, writes: Writes)
    requires UsersGood(w) && UserCreated(w, phone, password, hashed, writes).1 == Done
    ensures var u, w' := w.nextUserId, UserCreated(w, phone, password, hashed, writes).0;
            && u !in w.users && w'.users.Keys == w.users.Keys + {u} && w'.nextUserId == u + 1
            && (writes.userVersion ==> u in w'.versions && w'.versions[u] == 1)
            && UsersKept(w, w', u) && w'.sessions == w.sessions && w'.snapshots == w.snapshots
  {
  }

  /** Other users get in by phone as before a sign-up. */
  lemma SignUpKeepsOthers(k: Keys, w: World, phone: string, password: string, hashed: Option<string>, writes: Writes,
                          other: string, attempt: string, matches: (string, string) -> bool)
    requires Inv(k, w) && other != phone && other != ""
    ensures Authenticated(UserCreated(w, phone, password, hashed, writes).0, 0, other, attempt, matches)
            == Authenticated(w, 0, other, attempt, matches)
  {
    assert other in w.phones ==> w.phones[other] in w.users;
  }

  lemma ResetEnds(k: Keys, w: World, phone: string, password: string, hashed: Option<string>, writes: Writes)
    requires Sound(k) && Inv(k, w) && PasswordUpdated(w, phone, password, hashed, writes).1 == Done
    ensures hashed.Some? && phone in w.phones && w.phones[phone] in w.users
    ensures EndsAll(w, PasswordUpdated(w, phone, password, hashed, writes).0, w.phones[phone], writes.deleted)
  {
    var u := w.phones[phone];
    var w1 := w.(users := w.users[u := w.users[u].(passwordHash := hashed.value)]);
    UsersGrowKeeps(k, w, w1);
    LogoutAllEnds(k, w1, u, writes);
    SameSessionsEnd(w, w1, LoggedOutAll(w1, u, writes), u, writes.deleted);
  }

  lemma ResetLetsIn(w: World, phone: string, password: string, hashed: Option<string>, writes: Writes, asked: UserId,
                    other: string, attempt: string, matches: (string, string) -> bool)
    requires UsersGood(w) && PasswordUpdated(w, phone, password, hashed, writes).1 == Done
    ensures var w' := PasswordUpdated(w, phone, password, hashed, writes).0;
            var user := if other == "" then Some(asked) else if other in w.phones then Some(w.phones[other]) else None;
            Authenticated(w', asked, other, attempt, matches)
            == (if user == Some(w.phones[phone]) then
                  if w.users[w.phones[phone]].active && matches(hashed.value, attempt) then user else None
                else Authenticated(w, asked, other, attempt, matches))
  {
    var u := w.phones[phone];
    var w1 := w.(users := w.users[u := w.users[u].(passwordHash := hashed.value)]);
    LogoutAllCounts(w1, u, writes);
    var w' := LoggedOutAll(w1, u, writes);
    if other == "" {
      assert asked != u ==> SameUser(w1, w', asked);
    } else if other in w.phones && w.phones[other] != u {
      assert SameUser(w1, w', w.phones[other]);
    }
  }

  /** After a password reset an active user is let in exactly with the passwords that match the new hash, and everyone
      else as before; all sessions of the user are over. */
  lemma ResetChangesPassword(k: Keys, w: World, phone: string, password: string, hashed: Option<string>,
                             writes: Writes, asked: UserId, other: string, attempt: string,
                             matches: (string, string) -> bool)
    requires Sound(k) && Inv(k, w) && PasswordUpdated(w, phone, password, hashed, writes).1 == Done
    ensures hashed.Some? && phone in w.phones && w.phones[phone] in w.users
    ensures var w' := PasswordUpdated(w, phone, password, hashed, writes).0;
            var user := if other == "" then Some(asked) else if other in w.phones then Some(w.phones[other]) else None;
            && EndsAll(w, w', w.phones[phone], writes.deleted)
            && Authenticated(w', asked, other, attempt, matches)
               == (if user == Some(w.phones[phone]) then
                     if w.users[w.phones[phone]].active && matches(hashed.value, attempt) then user else None
                   else Authenticated(w, asked, other, attempt, matches))
  {
    ResetEnds(k, w, phone, password, hashed, writes);
    ResetLetsIn(w, phone, password, hashed, writes, asked, other, attempt, matches);
  }

  /** A reset is refused, without any change, for an empty phone or password, when hashing fails, and for an unknown
      phone, in this order. */
  lemma ResetOutcome(w: World, phone: string, password: string, hashed: Option<string>, writes: Writes)
    requires UsersGood(w)
    ensures var (w', out) := PasswordUpdated(w, phone, password, hashed, writes);
            && (out == InvalidCredentials <==> phone == "" || password == "")
            && (out == HashFailed <==> phone != "" && password != "" && hashed.None?)
            && (out == UserNotFound <==> phone != "" && password != "" && hashed.Some? && phone !in w.phones)
            && (out == Done || w' == w)
  {
  }

  function Disabled(w: World, u: UserId): World
    requires u in w.users
  {
    w.(users := w.users[u := w.users[u].(active := false, version := w.users[u].version + 1)])
  }

  lemma DisablingEnds(k: Keys, w: World, u: UserId, writes: Writes)
    requires Sound(k) && Inv(k, w) && u in w.users
    ensures EndsAll(w, StatusSet(w, u, false, writes).0, u, writes.deleted)
  {
    var w1 := Disabled(w, u);
    var w2, w' := RevokedAll(w1, IdsOf(w, u), writes.deleted), StatusSet(w, u, false, writes).0;
    assert w'.sessions == w2.sessions && w'.snapshots == w2.snapshots && w'.userSessions == w2.userSessions;
    DisabledKeeps(k, w, u);
    EndsAfter(k, w, w1, w2, u, writes.deleted);
    EndsAllAlike(w, w2, w', u, writes.deleted);
  }

  lemma DisabledKeeps(k: Keys, w: World, u: UserId)
    requires Inv(k, w) && u in w.users
    ensures Inv(k, Disabled(w, u))
  {
    UsersGrowKeeps(k, w, Disabled(w, u));
  }

  /** Disabling a user ends every session; activating keeps them. Either way the user's version moves on and nobody
      else changes. */
  lemma StatusDecides(k: Keys, w: World, u: UserId, status: int, writes: Writes)
    requires Sound(k) && Inv(k, w) && u in w.users && (status == 1 || status == 2)
    ensures var (w', out) := StatusAsked(w, u, status, writes);
            && out == Done
            && (status == 2 ==> EndsAll(w, w', u, writes.deleted))
            && (status == 1 ==> w'.sessions == w.sessions && w'.snapshots == w.snapshots)
  {
    if status == 2 {
      DisablingEnds(k, w, u, writes);
    }
  }

  /** A disabled user is let in by nothing; an active one by the password of before. */
  lemma StatusLetsIn(w: World, u: UserId, status: int, writes: Writes, attempt: string,
                     matches: (string, string) -> bool)
    requires u in w.users && (status == 1 || status == 2)
    ensures var w' := StatusAsked(w, u, status, writes).0;
            && u in w'.users && w'.users[u].version == w.users[u].version + 1
            && UsersKept(w, w', u) && w'.phones == w.phones
            && Authenticated(w', u, "", attempt, matches)
               == (if status == 1 && matches(w.users[u].passwordHash, attempt) then Some(u) else None)
  {
  }

  lemma EndsAllAlike(w: World, w1: World, w': World, u: UserId, deleted: set<SessionId>)
    requires EndsAll(w, w1, u, deleted) && w'.sessions == w1.sessions && w'.snapshots == w1.snapshots
    requires w'.userSessions == w1.userSessions
    ensures EndsAll(w, w', u, deleted)
  {
    assert forall id :: Live(w', id) <==> Live(w1, id);
    forall id | !(Live(w, id) && w.sessions[id].userId == u)
      ensures SameSession(w, w', id)
    {
      assert SameSession(w, w1, id);
    }
  }

  /** Every other status, and an unknown user, is refused without a change. */
  lemma StatusRefused(w: World, u: UserId, status: int, writes: Writes)
    ensures var (w', out) := StatusAsked(w, u, status, writes);
            && (out == InvalidCredentials <==> status !in {1, 2})
            && (out == UserNotFound <==> status in {1, 2} && u !in w.users)
            && (out == Done || w' == w)
  {
  }

  /** At the start exactly the demo users are let in, as far as their passwords hashed, the second only with the
      first. */
  lemma DemoLetsIn(hash: Option<string>, adminHash: Option<string>, snapshots: map<SessionId, Snapshot>,
                   versions: map<UserId, int>, writes: Writes, asked: UserId, phone: string, attempt: string,
                   matches: (string, string) -> bool)
    requires phone != ""
    ensures Authenticated(DemoStore(hash, adminHash, snapshots, versions, writes), asked, phone, attempt, matches)
            == if phone == "13800000001" && hash.Some? && matches(hash.value, attempt) then Some(1001)
               else if phone == "13800000002" && hash.Some? && adminHash.Some? && matches(adminHash.value, attempt)
               then Some(1002)
               else None
  {
    assert DEMO_PHONE[10] != ADMIN_PHONE[10];
  }
}
