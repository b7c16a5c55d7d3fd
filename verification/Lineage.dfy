// What every run keeps true of the token store.
module Lineage {
  import opened Basics
  import opened ScopeLists
  import opened TokenStore

  // ---------------------------------------------------------------------
  // The invariant
  // ---------------------------------------------------------------------

  ghost predicate Below<V>(table: map<Id, V>, next: Id) {
    forall k :: k in table ==> k < next
  }

  // Every identifier in the store has been handed out.
  ghost predicate Fresh(s: Store) {
    && 0 <= s.next
    && Below(s.codes, s.next) && Below(s.ats, s.next) && Below(s.rts, s.next) && Below(s.devices, s.next)
    && Below(s.sessions, s.next) && Below(s.users, s.next) && Below(s.denied, s.next)
    && Below(s.minted, s.next) && Below(s.log, s.next) && Below(s.issuedWith, s.next)
    && (forall k :: k in s.rts ==> s.rts[k].familyId < s.next)
    && (forall k :: k in s.minted ==> s.minted[k].jti < s.next)
  }

  ghost predicate Disjoint<V, W>(a: map<Id, V>, b: map<Id, W>) {
    forall k :: k in a ==> k !in b
  }

  // No identifier names rows of two kinds.
  ghost predicate Separate(s: Store) {
    && Disjoint(s.codes, s.rts) && Disjoint(s.codes, s.devices) && Disjoint(s.rts, s.devices)
    && Disjoint(s.ats, s.rts) && Disjoint(s.minted, s.rts)
  }

  ghost predicate Owned(users: map<Id, User>, sessions: map<Id, Session>, userId: Option<Id>, sessionId: Option<Id>) {
    (userId.Some? ==> userId.value in users) && (sessionId.Some? ==> sessionId.value in sessions)
  }

  ghost predicate CodesOwned(users: map<Id, User>, sessions: map<Id, Session>, codes: map<Id, AuthCode>) {
    forall k :: k in codes ==> Owned(users, sessions, Some(codes[k].userId), Some(codes[k].sessionId))
  }

  ghost predicate RefreshOwned(users: map<Id, User>, sessions: map<Id, Session>, rts: map<Id, RefreshToken>) {
    forall k :: k in rts ==> Owned(users, sessions, Some(rts[k].userId), Some(rts[k].sessionId))
  }

  ghost predicate DevicesOwned(users: map<Id, User>, sessions: map<Id, Session>, devices: map<Id, DeviceCode>) {
    forall k :: k in devices ==> Owned(users, sessions, devices[k].userId, devices[k].sessionId)
  }

  ghost predicate AccessOwned(users: map<Id, User>, sessions: map<Id, Session>, ats: map<Id, AccessToken>) {
    forall k :: k in ats ==> Owned(users, sessions, ats[k].userId, ats[k].sessionId)
  }

  ghost predicate SessionsOwned(users: map<Id, User>, sessions: map<Id, Session>) {
    forall x :: x in sessions ==> sessions[x].userId in users
  }

  // The foreign keys hold.
  ghost predicate Referential(s: Store) {
    && SessionsOwned(s.users, s.sessions)
    && CodesOwned(s.users, s.sessions, s.codes)
    && RefreshOwned(s.users, s.sessions, s.rts)
    && DevicesOwned(s.users, s.sessions, s.devices)
    && AccessOwned(s.users, s.sessions, s.ats)
    && PendingUnowned(s.devices)
  }

  // A device code has no owner until it is approved.
  ghost predicate PendingUnowned(devices: map<Id, DeviceCode>) {
    forall k :: k in devices && devices[k].status == Pending ==> devices[k].userId.None? && devices[k].sessionId.None?
  }

  ghost predicate Child(log: map<Id, Entry>, p: Id, r: Id) {
    r in log && log[r].parent == Some(p)
  }

  // What an exchange hands down: the same client and audience, the same user
  // and session once there is one, and no new scope.
  ghost predicate Descends(p: Entry, r: Entry) {
    && r.clientId == p.clientId
    && r.audience == p.audience
    && (p.userId.Some? ==> r.userId == p.userId)
    && (p.sessionId.Some? ==> r.sessionId == p.sessionId)
    && Within(r.scopes, p.scopes)
  }

  // Exchanges point backwards in time, hand down only what they hold, and
  // each grant is exchanged at most once.
  ghost predicate LogSound(log: map<Id, Entry>) {
    && (forall k :: k in log ==> 0 <= k)
    && (forall p, r :: Child(log, p, r) ==> p in log && p < r && Descends(log[p], log[r]))
    && (forall p, r, q :: Child(log, p, r) && Child(log, p, q) ==> r == q)
  }

  ghost predicate CodesSpent(log: map<Id, Entry>, codes: map<Id, AuthCode>) {
    forall p, r :: Child(log, p, r) && p in codes ==> codes[p].used
  }

  ghost predicate RefreshSpent(log: map<Id, Entry>, rts: map<Id, RefreshToken>) {
    forall p, r :: Child(log, p, r) && p in rts ==> rts[p].rotatedAt.Some?
  }

  ghost predicate DevicesSpent(log: map<Id, Entry>, devices: map<Id, DeviceCode>) {
    forall p, r :: Child(log, p, r) && p in devices ==> devices[p].status == Consumed
  }

  // A grant that has been exchanged can no longer be.
  ghost predicate Spent(s: Store) {
    CodesSpent(s.log, s.codes) && RefreshSpent(s.log, s.rts) && DevicesSpent(s.log, s.devices)
  }

  ghost predicate CodesLogged(log: map<Id, Entry>, codes: map<Id, AuthCode>) {
    forall k :: k in codes ==> k in log && log[k] == CodeEntry(codes[k])
  }

  ghost predicate DevicesLogged(log: map<Id, Entry>, devices: map<Id, DeviceCode>) {
    forall k :: k in devices ==> k in log && log[k] == DeviceEntry(devices[k])
  }

  ghost predicate RefreshLogged(log: map<Id, Entry>, rts: map<Id, RefreshToken>) {
    forall k :: k in rts ==> k in log && log[k].parent.Some? && log[k] == RefreshEntry(log[k].parent, rts[k])
  }

  // Rows carry what was logged when they were created.
  ghost predicate RowsLogged(s: Store) {
    CodesLogged(s.log, s.codes) && DevicesLogged(s.log, s.devices) && RefreshLogged(s.log, s.rts)
  }

  ghost predicate CarriesEntry(t: AccessToken, e: Entry) {
    && t.clientId == e.clientId && t.userId == e.userId && t.sessionId == e.sessionId
    && t.audience == e.audience && t.scopes == e.scopes
  }

  // A user's access token carries what its refresh token, or code, was granted.
  ghost predicate AccessLogged(log: map<Id, Entry>, issuedWith: map<Id, Id>, ats: map<Id, AccessToken>) {
    forall k :: k in ats && ats[k].userId.Some? ==>
      k in issuedWith && issuedWith[k] in log && CarriesEntry(ats[k], log[issuedWith[k]])
  }

  // An unrevoked refresh-linked access token hangs on an un-rotated token.
  ghost predicate AccessLinked(rts: map<Id, RefreshToken>, issuedWith: map<Id, Id>, ats: map<Id, AccessToken>) {
    forall k :: k in ats && ats[k].refreshId.Some? ==>
      && ats[k].userId.Some?
      && ats[k].refreshId.value in rts
      && k in issuedWith && issuedWith[k] == ats[k].refreshId.value
      && (!ats[k].revoked ==> rts[ats[k].refreshId.value].rotatedAt.None?)
  }

  ghost predicate Tables(s: Store) {
    Fresh(s) && Separate(s) && Referential(s)
  }

  ghost predicate History(s: Store) {
    && LogSound(s.log) && Spent(s) && RowsLogged(s)
    && AccessLogged(s.log, s.issuedWith, s.ats) && AccessLinked(s.rts, s.issuedWith, s.ats)
  }

  ghost predicate Inv(s: Store) {
    Tables(s) && History(s)
  }

  // ---------------------------------------------------------------------
  // Every step keeps it
  // ---------------------------------------------------------------------

  lemma GrantedScopesShrink(scopes: Scopes, audience: Option<string>, env: Env)
    ensures Within(GrantedScopes(scopes, audience, env), scopes)
  {
  }

  // A grant that has been marked spent and not exchanged yet, and hands down e.
  ghost predicate Exchangeable(s: Store, origin: Id, e: Entry) {
    && origin in s.log
    && (forall r :: !Child(s.log, origin, r))
    && (origin in s.codes ==> s.codes[origin].used)
    && (origin in s.rts ==> s.rts[origin].rotatedAt.Some?)
    && (origin in s.devices ==> s.devices[origin].status == Consumed)
    && Descends(s.log[origin], e)
  }

  // Logging a new identifier adds at most one exchange.
  lemma LogGrows(log: map<Id, Entry>, next: Id, id: Id, e: Entry, log': map<Id, Entry>)
    requires LogSound(log) && Below(log, next) && 0 <= next <= id && log' == log[id := e]
    requires e.parent.Some? ==>
               && e.parent.value in log && Descends(log[e.parent.value], e)
               && forall r :: !Child(log, e.parent.value, r)
    ensures forall p, r :: Child(log', p, r) <==> Child(log, p, r) || (r == id && e.parent == Some(p))
    ensures LogSound(log')
  {
    forall p, r | Child(log', p, r) ensures p in log' && p < r && Descends(log'[p], log'[r]) {
      assert r == id || Child(log, p, r);
    }
    forall p, r, q | Child(log', p, r) && Child(log', p, q) ensures r == q {
      assert r == id || Child(log, p, r);
      assert q == id || Child(log, p, q);
    }
  }

  // After an exchange of origin logged as id, every other spent grant is one
  // that was spent before.
  lemma SpentGrows(s: Store, origin: Option<Id>, id: Id, e: Entry, log': map<Id, Entry>)
    requires LogSound(s.log) && Spent(s) && Below(s.log, s.next) && 0 <= s.next <= id && e.parent == origin
    requires origin.Some? ==> Exchangeable(s, origin.value, e)
    requires log' == s.log[id := e]
    ensures LogSound(log') && CodesSpent(log', s.codes) && RefreshSpent(log', s.rts) && DevicesSpent(log', s.devices)
    ensures forall p, r :: Child(log', p, r) ==> p < s.next
  {
    LogGrows(s.log, s.next, id, e, log');
  }

  lemma LoggedGrows(log: map<Id, Entry>, next: Id, id: Id, e: Entry, s: Store)
    requires Below(log, next) && next <= id
    ensures CodesLogged(log, s.codes) ==> CodesLogged(log[id := e], s.codes)
    ensures DevicesLogged(log, s.devices) ==> DevicesLogged(log[id := e], s.devices)
    ensures RefreshLogged(log, s.rts) ==> RefreshLogged(log[id := e], s.rts)
    ensures AccessLogged(log, s.issuedWith, s.ats) ==> AccessLogged(log[id := e], s.issuedWith, s.ats)
  {
  }

  lemma AddPairKeepsTables(s: Store, origin: Id, row: RefreshToken, at: AccessToken, jwt: Option<Jwt>)
    requires Tables(s)
    requires Owned(s.users, s.sessions, Some(row.userId), Some(row.sessionId))
    requires Owned(s.users, s.sessions, at.userId, at.sessionId)
    requires row.familyId < s.next + 4 && (jwt.Some? ==> jwt.value.jti < s.next + 4)
    ensures Tables(AddPair(s, origin, row, at, jwt))
  {
    var s' := AddPair(s, origin, row, at, jwt);
    assert Fresh(s');
    assert Separate(s');
  }

  lemma AddPairKeepsHistory(s: Store, origin: Id, row: RefreshToken, at: AccessToken, jwt: Option<Jwt>)
    requires Fresh(s) && History(s) && Exchangeable(s, origin, RefreshEntry(Some(origin), row))
    requires CarriesEntry(at, RefreshEntry(Some(origin), row)) && at.refreshId == Some(s.next + 1)
    requires row.rotatedAt.None?
    ensures History(AddPair(s, origin, row, at, jwt))
  {
    var s' := AddPair(s, origin, row, at, jwt);
    SpentGrows(s, Some(origin), s.next + 1, RefreshEntry(Some(origin), row), s'.log);
    LoggedGrows(s.log, s.next, s.next + 1, RefreshEntry(Some(origin), row), s);
    assert Spent(s');
    assert RowsLogged(s');
    assert AccessLogged(s'.log, s'.issuedWith, s'.ats);
    assert AccessLinked(s'.rts, s'.issuedWith, s'.ats);
  }

  lemma IssueKeeps(s: Store, c: Client, userId: Id, sessionId: Id, scopes: Scopes,
                   audience: Option<string>, origin: Id, env: Env)
    requires Inv(s)
    requires Exchangeable(s, origin, Entry(None, c.id, Some(userId), Some(sessionId), audience, scopes))
    ensures Inv(Issue(s, c, userId, sessionId, scopes, audience, origin, env).0)
  {
    GrantedScopesShrink(scopes, audience, env);
    if IssueError(s, userId, sessionId, audience, env).None? {
      var rt := NewRefresh(s, c, userId, sessionId, GrantedScopes(scopes, audience, env), audience, env);
      var at := NewAccess(s, c, rt, env);
      AddPairKeepsTables(s, origin, rt, at, SignedClaims(at, s.next + 3, env.signer));
      AddPairKeepsHistory(s, origin, rt, at, SignedClaims(at, s.next + 3, env.signer));
    }
  }

  function MarkCode(s: Store, code: Id): Store
    requires code in s.codes
  {
    s.(codes := s.codes[code := s.codes[code].(used := true)])
  }

  function MarkRotated(s: Store, rt: Id): Store
    requires rt in s.rts
  {
    s.(rts := s.rts[rt := s.rts[rt].(rotatedAt := Some(s.now))], ats := RevokeByRefresh(s.ats, rt))
  }

  lemma MarkCodeKeeps(s: Store, code: Id)
    requires Inv(s) && code in s.codes
    ensures Inv(MarkCode(s, code))
  {
  }

  lemma MarkRotatedKeeps(s: Store, rt: Id)
    requires Inv(s) && rt in s.rts
    ensures Inv(MarkRotated(s, rt))
  {
    var s' := MarkRotated(s, rt);
    assert Tables(s');
  }

  // Device rows may change any field that was not logged.
  lemma UpdateDeviceKeeps(s: Store, device: Id, row: DeviceCode)
    requires Inv(s) && device in s.devices
    requires DeviceEntry(row) == DeviceEntry(s.devices[device])
    requires Owned(s.users, s.sessions, row.userId, row.sessionId)
    requires s.devices[device].status == Consumed ==> row.status == Consumed
    requires row.status == Pending ==> row.userId.None? && row.sessionId.None?
    ensures Inv(s.(devices := s.devices[device := row]))
  {
  }

  lemma RedeemCodeKeeps(s: Store, c: Client, code: Id, redirectUri: string, verifier: string, env: Env)
    requires Inv(s)
    ensures Inv(RedeemCode(s, c, code, redirectUri, verifier, env).0)
  {
    if CodeError(s, c, code, redirectUri, verifier).None? {
      var row := s.codes[code];
      MarkCodeKeeps(s, code);
      IssueKeeps(MarkCode(s, code), c, row.userId, row.sessionId, row.scopes, row.audience, code, env);
    }
  }

  lemma RedeemRefreshKeeps(s: Store, c: Client, rt: Id, requested: Scopes, verdict: Verdict, env: Env)
    requires Inv(s)
    ensures Inv(RedeemRefresh(s, c, rt, requested, verdict, env).0)
  {
    if RefreshError(s, c, rt, requested, verdict).None? {
      var row := s.rts[rt];
      var scopes := RefreshScopes(row.scopes, requested, verdict).1;
      MarkRotatedKeeps(s, rt);
      IssueKeeps(MarkRotated(s, rt), c, row.userId, row.sessionId, scopes, row.audience, rt, env);
    }
  }

  lemma PollDeviceKeeps(s: Store, c: Client, device: Id, env: Env)
    requires Inv(s)
    ensures Inv(PollDevice(s, c, device, env).0)
  {
    if ThrottleError(s, c, device).None? {
      var row := s.devices[device].(lastPolledAt := Some(s.now));
      var s1 := s.(devices := s.devices[device := row]);
      UpdateDeviceKeeps(s, device, row);
      if row.status == Authorized && row.userId.Some? && row.sessionId.Some? {
        var u, x := row.userId.value, row.sessionId.value;
        var marked := s1.(devices := s1.devices[device := row.(status := Consumed)]);
        UpdateDeviceKeeps(s1, device, row.(status := Consumed));
        IssueKeeps(marked, c, u, x, row.scopes, None, device, env);
        IssueIgnoresDevices(s1, marked.devices, c, u, x, row.scopes, device, env);
      }
    }
  }

  lemma IssueIgnoresDevices(s: Store, devices: map<Id, DeviceCode>, c: Client, userId: Id, sessionId: Id,
                            scopes: Scopes, origin: Id, env: Env)
    ensures Issue(s.(devices := devices), c, userId, sessionId, scopes, None, origin, env)
         == (Issue(s, c, userId, sessionId, scopes, None, origin, env).0.(devices := devices),
             Issue(s, c, userId, sessionId, scopes, None, origin, env).1)
  {
    var s' := s.(devices := devices);
    var rt := NewRefresh(s, c, userId, sessionId, GrantedScopes(scopes, None, env), None, env);
    assert rt == NewRefresh(s', c, userId, sessionId, GrantedScopes(scopes, None, env), None, env);
    assert NewAccess(s, c, rt, env) == NewAccess(s', c, rt, env);
  }

  lemma AddSessionKeeps(s: Store, x: Session)
    requires Inv(s) && x.userId in s.users
    ensures Inv(AddSession(s, x))
  {
  }

  lemma AddCodeKeeps(s: Store, row: AuthCode)
    requires Inv(s) && Owned(s.users, s.sessions, Some(row.userId), Some(row.sessionId))
    ensures Inv(AddCode(s, row))
  {
    SpentGrows(s, None, s.next, CodeEntry(row), s.log[s.next := CodeEntry(row)]);
    LoggedGrows(s.log, s.next, s.next, CodeEntry(row), s);
    assert Tables(AddCode(s, row));
  }

  lemma AddHybridKeeps(s: Store, code: Id, t: AccessToken)
    requires Inv(s) && code in s.log && t.refreshId.None? && CarriesEntry(t, s.log[code])
    requires Owned(s.users, s.sessions, t.userId, t.sessionId)
    ensures Inv(AddHybrid(s, code, t))
  {
    var s' := AddHybrid(s, code, t);
    assert Tables(s');
    assert AccessLogged(s'.log, s'.issuedWith, s'.ats);
  }

  lemma AddSessionAndCodeKeeps(s: Store, x: Session, row: AuthCode)
    requires Inv(s) && x.userId in s.users && row.userId == x.userId && row.sessionId == s.next
    ensures Inv(AddCode(AddSession(s, x), row))
  {
    AddSessionKeeps(s, x);
    AddCodeKeeps(AddSession(s, x), row);
  }

  lemma AddAllThreeKeeps(s: Store, x: Session, row: AuthCode, t: AccessToken)
    requires Inv(s) && x.userId in s.users && row.userId == x.userId && row.sessionId == s.next
    requires t.refreshId.None? && CarriesEntry(t, CodeEntry(row))
    ensures Inv(AddHybrid(AddCode(AddSession(s, x), row), s.next + 1, t))
  {
    AddSessionAndCodeKeeps(s, x, row);
    AddHybridKeeps(AddCode(AddSession(s, x), row), s.next + 1, t);
  }

  // A grant is the insertion of a session, a code and possibly a token.
  lemma GrantShape(s: Store, clientId: Id, userId: Id, redirectUri: string, scopes: Scopes,
                   challenge: Option<string>, audience: Option<string>, codeTTL: int, sessionTTL: int,
                   hybrid: Hybrid) returns (x: Session, row: AuthCode, t: AccessToken)
    requires userId in s.users
    ensures x.userId == userId && row.userId == userId && row.sessionId == s.next
    ensures t.refreshId.None? && t.userId.Some? && CarriesEntry(t, CodeEntry(row))
    ensures Grant(s, clientId, userId, redirectUri, scopes, challenge, audience, codeTTL, sessionTTL, hybrid).0
         == if hybrid.WithToken? then AddHybrid(AddCode(AddSession(s, x), row), s.next + 1, t)
            else AddCode(AddSession(s, x), row)
  {
    x := Session(userId, s.now + sessionTTL, false, 0);
    row := AuthCode(clientId, userId, redirectUri, scopes, challenge, s.next, audience, s.now + codeTTL, false);
    t := AccessToken(clientId, Some(userId), Some(s.next), None, scopes, audience, None,
                     s.now + (if hybrid.WithToken? then hybrid.ttl else 0) * SECOND, false, s.now);
  }

  lemma GrantKeeps(s: Store, clientId: Id, userId: Id, redirectUri: string, scopes: Scopes,
                   challenge: Option<string>, audience: Option<string>, codeTTL: int, sessionTTL: int,
                   hybrid: Hybrid)
    requires Inv(s)
    ensures Inv(Grant(s, clientId, userId, redirectUri, scopes, challenge, audience, codeTTL, sessionTTL, hybrid).0)
  {
    if userId in s.users {
      var x, row, t := GrantShape(s, clientId, userId, redirectUri, scopes, challenge, audience, codeTTL,
                                  sessionTTL, hybrid);
      AddSessionAndCodeKeeps(s, x, row);
      AddAllThreeKeeps(s, x, row, t);
    }
  }

  lemma AddDeviceKeeps(s: Store, row: DeviceCode)
    requires Inv(s) && row.userId.None? && row.sessionId.None?
    ensures Inv(s.(next := s.next + 1, devices := s.devices[s.next := row], log := s.log[s.next := DeviceEntry(row)]))
  {
    SpentGrows(s, None, s.next, DeviceEntry(row), s.log[s.next := DeviceEntry(row)]);
    LoggedGrows(s.log, s.next, s.next, DeviceEntry(row), s);
  }

  lemma InitDeviceKeeps(s: Store, c: Client, requested: Scopes, ttl: int)
    requires Inv(s)
    ensures Inv(InitDevice(s, c, requested, ttl).0)
  {
    if DeviceGrant in c.grantTypes {
      var row := InitDevice(s, c, requested, ttl).0.devices[s.next];
      AddDeviceKeeps(s, row);
    }
  }

  lemma ApproveDeviceKeeps(s: Store, device: Id, userId: Id, approved: bool, denies: bool, ttl: int)
    requires Inv(s)
    ensures Inv(ApproveDevice(s, device, userId, approved, denies, ttl).0)
  {
    if ApproveError(s, device, userId, approved, denies).None? {
      if approved {
        var x := Session(userId, s.now + ttl, false, 0);
        var s1 := AddSession(s, x);
        AddSessionKeeps(s, x);
        UpdateDeviceKeeps(s1, device, s.devices[device].(status := Authorized, userId := Some(userId),
                                                         sessionId := Some(s.next)));
      } else {
        UpdateDeviceKeeps(s, device, s.devices[device].(status := Denied));
      }
    }
  }

  lemma AddAccessKeeps(s: Store, at: AccessToken, minted: map<Id, Jwt>)
    requires Inv(s) && at.userId.None? && at.sessionId.None? && at.refreshId.None?
    requires minted == s.minted || exists j: Jwt :: minted == s.minted[s.next := j] && j.jti == s.next + 1
    ensures Inv(s.(next := s.next + 2, ats := s.ats[s.next := at], minted := minted))
  {
    var s' := s.(next := s.next + 2, ats := s.ats[s.next := at], minted := minted);
    assert Fresh(s') && Separate(s');
    assert Referential(s');
  }

  lemma CredentialsKeep(s: Store, c: Client, requested: Scopes, audience: Option<string>,
                        clientPerms: Scopes, env: Env)
    requires Inv(s)
    ensures Inv(ClientCredentials(s, c, requested, audience, clientPerms, env).0)
  {
    var s' := ClientCredentials(s, c, requested, audience, clientPerms, env).0;
    if CredentialError(c, requested, audience, clientPerms, env).None? {
      AddAccessKeeps(s, s'.ats[s.next], s'.minted);
    }
  }

  lemma RevokeAccessKeeps(s: Store, ats: map<Id, AccessToken>)
    requires Inv(s) && ats.Keys == s.ats.Keys
    requires forall k :: k in ats ==> ats[k] == s.ats[k] || ats[k] == s.ats[k].(revoked := true)
    ensures Inv(s.(ats := ats))
  {
    assert forall k :: k in s.ats <==> k in ats.Keys;
  }

  lemma RevokeRefreshKeeps(s: Store, familyId: Id)
    requires Inv(s)
    ensures Inv(s.(rts := RevokeFamily(s.rts, familyId)))
  {
    var s' := s.(rts := RevokeFamily(s.rts, familyId));
    assert Tables(s');
    assert RowsLogged(s') && Spent(s');
  }

  lemma RevokeRowsKeeps(s: Store, token: Id, hint: Hint, c: Client)
    requires Inv(s)
    ensures Inv(RevokeRows(s, token, hint, c))
  {
    if MayBeRefresh(hint) && token in s.rts {
      RevokeRefreshKeeps(s, s.rts[token].familyId);
      RevokeAccessKeeps(s.(rts := RevokeFamily(s.rts, s.rts[token].familyId)),
                        RevokeBySession(s.ats, s.rts[token].sessionId));
    } else if token in s.ats {
      RevokeAccessKeeps(s, s.ats[token := s.ats[token].(revoked := true)]);
    }
  }

  lemma RevokeKeeps(s: Store, token: Id, hint: Hint, c: Client)
    requires Inv(s)
    ensures Inv(Revoke(s, token, hint, c))
  {
    RevokeRowsKeeps(s, token, hint, c);
    if MayBeAccess(hint) && JwtVerifies(s, token) {
      var j := s.minted[token];
      RevokeRowsKeeps(s.(denied := s.denied[j.jti := j.exp]), token, hint, c);
    }
  }

  lemma SweepKeepsKeys(s: Store)
    requires Fresh(s) && Separate(s)
    ensures Fresh(Sweep(s)) && Separate(Sweep(s))
  {
  }

  lemma SweepKeepsOwners(s: Store)
    requires Referential(s)
    ensures Referential(Sweep(s))
  {
  }

  lemma SweepKeepsLog(s: Store)
    requires History(s)
    ensures History(Sweep(s))
  {
  }

  lemma AddUserKeeps(s: Store)
    requires Inv(s)
    ensures Inv(Step(s, AddUser).0)
  {
  }

  lemma SchedulePurgeKeeps(s: Store, u: Id, at: Option<Time>)
    requires Inv(s)
    ensures Inv(Step(s, SchedulePurge(u, at)).0)
  {
  }

  lemma RevokeSessionKeeps(s: Store, x: Id)
    requires Inv(s)
    ensures Inv(Step(s, RevokeSession(x)).0)
  {
  }

  ghost predicate Exchanges(op: Op) {
    op.DoGrant? || op.DoRedeemCode? || op.DoRefresh? || op.DoCredentials? || op.DoPoll?
  }

  lemma ExchangesKeep(s: Store, op: Op)
    requires Inv(s) && Exchanges(op)
    ensures Inv(Step(s, op).0)
  {
    match op
    case DoGrant(c, u, uri, scopes, ch, aud, codeTTL, sessionTTL, hybrid) =>
      GrantKeeps(s, c, u, uri, scopes, ch, aud, codeTTL, sessionTTL, hybrid);
    case DoRedeemCode(c, code, uri, verifier, env) => RedeemCodeKeeps(s, c, code, uri, verifier, env);
    case DoRefresh(c, rt, requested, verdict, env) => RedeemRefreshKeeps(s, c, rt, requested, verdict, env);
    case DoCredentials(c, requested, audience, perms, env) => CredentialsKeep(s, c, requested, audience, perms, env);
    case DoPoll(c, d, env) => PollDeviceKeeps(s, c, d, env);
  }

  lemma StepKeeps(s: Store, op: Op)
    requires Inv(s)
    ensures Inv(Step(s, op).0)
  {
    match op
    case DoInitDevice(c, requested, ttl) => InitDeviceKeeps(s, c, requested, ttl);
    case DoApprove(d, u, approved, denies, ttl) => ApproveDeviceKeeps(s, d, u, approved, denies, ttl);
    case DoRevoke(t, hint, c) => RevokeKeeps(s, t, hint, c);
    case DoSweep => SweepKeepsKeys(s); SweepKeepsOwners(s); SweepKeepsLog(s);
    case Tick(d) =>
    case AddUser => AddUserKeeps(s);
    case SchedulePurge(u, at) => SchedulePurgeKeeps(s, u, at);
    case RevokeSession(x) => RevokeSessionKeeps(s, x);
    case LoadKeys(keys) =>
    case DoLookup(t) =>
    case DoIntrospect(t, hint, denies) =>
    case _ => ExchangesKeep(s, op);
  }

  lemma {:induction false} RunKeeps(s: Store, ops: seq<Op>)
    requires Inv(s)
    ensures Inv(Run(s, ops))
    decreases |ops|
  {
    if ops != [] {
      StepKeeps(s, ops[0]);
      RunKeeps(Step(s, ops[0]).0, ops[1..]);
    }
  }

  // Every store a server can reach from the empty one satisfies the invariant.
  lemma Reachable(ops: seq<Op>)
    ensures Inv(Run(Empty, ops))
  {
    RunKeeps(Empty, ops);
  }

  // ---------------------------------------------------------------------
  // What the invariant says about lineages
  // ---------------------------------------------------------------------

  // The code or device code a token descends from.
  ghost function Root(log: map<Id, Entry>, r: Id): (g: Id)
    requires LogSound(log) && r in log
    ensures g in log && g <= r && log[g].parent.None?
    decreases r
  {
    if log[r].parent.None? then r
    else
      assert Child(log, log[r].parent.value, r);
      Root(log, log[r].parent.value)
  }

  // a was exchanged, directly or not, for r.
  ghost predicate Ancestor(log: map<Id, Entry>, a: Id, r: Id)
    requires LogSound(log) && r in log
    decreases r
  {
    && log[r].parent.Some?
    && (assert Child(log, log[r].parent.value, r);
        log[r].parent.value == a || Ancestor(log, a, log[r].parent.value))
  }

  // An ancestor has been exchanged, and its only exchange leads to r.
  lemma {:induction false} AncestorHasChild(log: map<Id, Entry>, a: Id, r: Id) returns (c: Id)
    requires LogSound(log) && r in log && Ancestor(log, a, r)
    ensures Child(log, a, c) && c <= r && (c == r || Ancestor(log, c, r))
    decreases r
  {
    var p := log[r].parent.value;
    assert Child(log, p, r);
    if p == a {
      c := r;
    } else {
      c := AncestorHasChild(log, a, p);
    }
  }

  // A lineage is a chain: of two members, one was exchanged for the other.
  lemma {:induction false} LineageIsChain(log: map<Id, Entry>, r: Id, q: Id)
    requires LogSound(log) && r in log && q in log && Root(log, r) == Root(log, q)
    ensures r == q || Ancestor(log, r, q) || Ancestor(log, q, r)
    decreases r + q, r
  {
    if q < r {
      LineageIsChain(log, q, r);
    } else if r < q {
      assert log[q].parent.Some?;
      var p := log[q].parent.value;
      assert Child(log, p, q);
      LineageIsChain(log, r, p);
      if r != p && Ancestor(log, p, r) {
        var c := AncestorHasChild(log, p, r);
      }
    }
  }

  // At most one refresh token of a lineage is un-rotated.
  lemma OneLiveTokenPerLineage(s: Store, r: Id, q: Id)
    requires Inv(s) && r in s.rts && q in s.rts
    requires s.rts[r].rotatedAt.None? && s.rts[q].rotatedAt.None?
    requires Root(s.log, r) == Root(s.log, q)
    ensures r == q
  {
    LineageIsChain(s.log, r, q);
    if Ancestor(s.log, r, q) {
      var c := AncestorHasChild(s.log, r, q);
    }
    if Ancestor(s.log, q, r) {
      var c := AncestorHasChild(s.log, q, r);
    }
  }

  // A code or device code is exchanged for at most one refresh token, and is
  // spent once it has been.
  lemma GrantRootsOneLineage(s: Store, grant: Id, r: Id, q: Id)
    requires Inv(s) && Child(s.log, grant, r) && Child(s.log, grant, q)
    ensures r == q
    ensures grant in s.codes ==> !CodeValid(s.codes[grant], s.now)
    ensures grant in s.devices ==> s.devices[grant].status == Consumed
    ensures grant in s.rts ==> !RefreshValid(s.rts[grant], s.now)
  {
  }

  lemma {:induction false} DescendsFromRoot(log: map<Id, Entry>, r: Id)
    requires LogSound(log) && r in log
    ensures Descends(log[Root(log, r)], log[r])
    decreases r
  {
    if log[r].parent.Some? {
      var p := log[r].parent.value;
      assert Child(log, p, r);
      DescendsFromRoot(log, p);
    }
  }

  // Client and audience never change down a lineage, nor user and session
  // once they are bound, and no scope is ever gained.
  lemma RefreshDescendsFromGrant(s: Store, r: Id)
    requires Inv(s) && r in s.rts
    ensures var e := s.log[Root(s.log, r)];
            && s.rts[r].clientId == e.clientId && s.rts[r].audience == e.audience
            && (e.userId.Some? ==> Some(s.rts[r].userId) == e.userId)
            && (e.sessionId.Some? ==> Some(s.rts[r].sessionId) == e.sessionId)
            && Within(s.rts[r].scopes, e.scopes)
  {
    DescendsFromRoot(s.log, r);
  }

  // Two tokens of one lineage serve the same client, user, session, audience.
  lemma {:induction false} LineageIsConstant(log: map<Id, Entry>, a: Id, r: Id)
    requires LogSound(log) && r in log && Ancestor(log, a, r)
    ensures a in log && Descends(log[a], log[r])
    decreases r
  {
    var p := log[r].parent.value;
    assert Child(log, p, r);
    if p != a {
      LineageIsConstant(log, a, p);
    }
  }

  // Every access token of a user stays within the scopes of the grant it
  // traces back to, for the same client and audience.
  lemma AccessDescendsFromGrant(s: Store, a: Id)
    requires Inv(s) && a in s.ats && s.ats[a].userId.Some?
    ensures a in s.issuedWith && s.issuedWith[a] in s.log
    ensures var e := s.log[Root(s.log, s.issuedWith[a])];
            s.ats[a].clientId == e.clientId && s.ats[a].audience == e.audience && Within(s.ats[a].scopes, e.scopes)
  {
    DescendsFromRoot(s.log, s.issuedWith[a]);
  }

  // RBAC narrowing takes away exactly the permissions of the targeted resource
  // that the user lacks, and nothing else.
  lemma RolesDropOnlyPermissions(scopes: Scopes, resource: Option<Resource>, userPerms: Option<Scopes>, x: string)
    ensures x in NarrowByRoles(scopes, resource, userPerms) <==>
            x in scopes && !(resource.Some? && x in resource.value.perms && userPerms.Some? && x !in userPerms.value)
  {
    if resource.Some? {
      var perms := Elements(resource.value.perms);
      var held := Filter(scopes, perms);
      assert x in scopes && x in perms ==> x in held;
    }
  }

  // Refreshing never gains a scope over the token that was presented.
  lemma RefreshOnlyNarrows(s: Store, c: Client, rt: Id, requested: Scopes, verdict: Verdict, env: Env)
    requires rt in s.rts
    ensures var out := RedeemRefresh(s, c, rt, requested, verdict, env).1;
            out.Issued? ==> Within(out.scopes, s.rts[rt].scopes)
                            && (requested != [] ==> Within(out.scopes, requested))
  {
    GrantedScopesShrink(RefreshScopes(s.rts[rt].scopes, requested, verdict).1, s.rts[rt].audience, env);
  }
}
