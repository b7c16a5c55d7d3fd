// The token service as the code runs it: one object over the tables, whose
// methods read and write rows in the order of the source. Each is proved to
// end in the snapshot, and with the outcome, that TokenStore gives for it.
module TokenService {
  import opened Basics
  import opened ScopeLists
  import opened TokenStore

  // The tables a transaction may write.
  datatype Tables = Tables(next: Id, codes: map<Id, AuthCode>, ats: map<Id, AccessToken>,
                           rts: map<Id, RefreshToken>, minted: map<Id, Jwt>)

  class Service {
    var now: Time
    var next: Id
    var codes: map<Id, AuthCode>
    var ats: map<Id, AccessToken>
    var rts: map<Id, RefreshToken>
    var devices: map<Id, DeviceCode>
    var sessions: map<Id, Session>
    var users: map<Id, User>
    var denied: map<Id, Time>
    var minted: map<Id, Jwt>
    var keys: set<Id>
    ghost var log: map<Id, Entry>
    ghost var issuedWith: map<Id, Id>

    ghost function State(): Store
      reads this
    {
      Store(now, next, codes, ats, rts, devices, sessions, users, denied, minted, keys, log, issuedWith)
    }

    constructor ()
      ensures State() == Empty
    {
      now, next := 0, 0;
      codes, ats, rts, devices := map[], map[], map[], map[];
      sessions, users, denied, minted, keys := map[], map[], map[], map[], {};
      log, issuedWith := map[], map[];
    }

    // -------------------------------------------------------------------
    // Repository
    // -------------------------------------------------------------------

    method CreateSession(userId: Id, ttl: int) returns (r: Option<Id>)
      modifies this`next, this`sessions
      ensures r == if userId in users then Some(old(next)) else None
      ensures r.None? ==> sessions == old(sessions) && next == old(next)
      ensures r.Some? ==> next == old(next) + 1 &&
                          sessions == old(sessions)[old(next) := Session(userId, now + ttl, false, 0)]
    {
      if userId !in users {
        return None;
      }
      r := Some(next);
      sessions := sessions[next := Session(userId, now + ttl, false, 0)];
      next := next + 1;
    }

    method CreateAuthCode(row: AuthCode) returns (id: Id)
      modifies this`next, this`codes, this`log
      ensures id == old(next) && next == id + 1
      ensures codes == old(codes)[id := row] && log == old(log)[id := CodeEntry(row)]
    {
      id := next;
      next := next + 1;
      codes := codes[id := row];
      log := log[id := CodeEntry(row)];
    }

    // Foreign keys to users and sessions reject a row that names neither.
    method CreateRefreshToken(id: Id, row: RefreshToken, ghost origin: Id) returns (stored: bool)
      modifies this`rts, this`log
      ensures stored <==> row.sessionId in sessions && row.userId in users
      ensures stored ==> rts == old(rts)[id := row] && log == old(log)[id := RefreshEntry(Some(origin), row)]
      ensures !stored ==> rts == old(rts) && log == old(log)
    {
      if row.sessionId !in sessions || row.userId !in users {
        return false;
      }
      rts := rts[id := row];
      log := log[id := RefreshEntry(Some(origin), row)];
      return true;
    }

    // kid: the key that signed the token, when it is a JWT.
    method CreateAccessToken(id: Id, row: AccessToken, ghost with: Id, kid: Option<Id>)
      requires kid.Some? ==> row.jti.Some?
      modifies this`ats, this`minted, this`issuedWith
      ensures ats == old(ats)[id := row] && issuedWith == old(issuedWith)[id := with]
      ensures minted == if kid.Some? then old(minted)[id := ClaimsOf(row, kid.value)] else old(minted)
    {
      ats := ats[id := row];
      issuedWith := issuedWith[id := with];
      if kid.Some? {
        minted := minted[id := ClaimsOf(row, kid.value)];
      }
    }

    method CreateHybridToken(row: AccessToken, ghost code: Id)
      modifies this`next, this`ats, this`issuedWith
      ensures State() == AddHybrid(old(State()), code, row)
    {
      ats := ats[next := row];
      issuedWith := issuedWith[next := code];
      next := next + 1;
    }

    // Run in a transaction: the tables as they were when it began.
    method Begin() returns (saved: Tables)
      ensures saved == Tables(next, codes, ats, rts, minted)
    {
      return Tables(next, codes, ats, rts, minted);
    }

    method Rollback(saved: Tables, ghost was: Store)
      requires saved == Tables(was.next, was.codes, was.ats, was.rts, was.minted)
      modifies this`next, this`codes, this`ats, this`rts, this`minted, this`log, this`issuedWith
      ensures next == was.next && codes == was.codes && ats == was.ats && rts == was.rts
      ensures minted == was.minted && log == was.log && issuedWith == was.issuedWith
    {
      next, codes, ats, rts, minted := saved.next, saved.codes, saved.ats, saved.rts, saved.minted;
      log, issuedWith := was.log, was.issuedWith;
    }

    // -------------------------------------------------------------------
    // Issuing
    // -------------------------------------------------------------------

    method ReadModifyScopes(current: Scopes, verdict: Verdict) returns (narrowed: Scopes)
      ensures narrowed == NarrowByPolicy(current, verdict)
    {
      if verdict.scopes.None? {
        return current;
      }
      narrowed := KeepAllowed(current, verdict.scopes.value);
    }

    method NarrowToUser(scopes: Scopes, resource: Option<Resource>, userPerms: Option<Scopes>) returns (r: Scopes)
      ensures r == NarrowByRoles(scopes, resource, userPerms)
    {
      if resource.None? {
        return scopes;
      }
      var resourceScopes, otherScopes := SplitResourceScopes(scopes, resource.value.perms);
      if resourceScopes == [] || userPerms.None? {
        return scopes;
      }
      var allowed := Filter(userPerms.value, Elements(resourceScopes));
      r := UnionScopes(otherScopes, allowed);
    }

    // What the policies and the resource make of a request for tokens.
    method ResolveGrant(c: Client, scopes: Scopes, audience: Option<string>, env: Env)
      returns (granted: Scopes, accessTTL: int, refreshTTL: int, useJwt: bool)
      ensures granted == GrantedScopes(scopes, audience, env)
      ensures accessTTL == AccessTTL(c, audience, env) && refreshTTL == RefreshTTL(c, env)
      ensures useJwt == UsesJwt(audience, env)
    {
      accessTTL, refreshTTL := c.accessTTL, c.refreshTTL;
      if env.verdict.accessTTL.Some? {
        accessTTL := env.verdict.accessTTL.value;
      }
      if env.verdict.refreshTTL.Some? {
        refreshTTL := env.verdict.refreshTTL.value;
      }
      granted := ReadModifyScopes(scopes, env.verdict);
      var resource: Option<Resource> := None;
      if audience.Some? {
        resource := env.resource;
      }
      granted := NarrowToUser(granted, resource, env.userPerms);
      useJwt := resource.Some? && resource.value.jwt && env.signer != Absent;
      if resource.Some? && resource.value.accessTTL > 0 {
        accessTTL := resource.value.accessTTL;
      }
    }

    // The refresh token, then the access token that points to it.
    method StorePair(row: RefreshToken, token: AccessToken, kid: Option<Id>, ghost origin: Id)
      returns (stored: bool)
      requires kid.Some? ==> token.jti.Some?
      modifies this`next, this`ats, this`rts, this`minted, this`log, this`issuedWith
      ensures stored <==> row.sessionId in sessions && row.userId in users
      ensures stored ==> State() == AddPair(old(State()), origin, row, token,
                                            if kid.Some? then Some(ClaimsOf(token, kid.value)) else None)
    {
      stored := CreateRefreshToken(next + 1, row, origin);
      if stored {
        CreateAccessToken(next, token, next + 1, kid);
        next := next + 4;
      }
    }

    // Writes whatever it gets to; a caller rolls back when this fails.
    method IssueTokens(c: Client, userId: Id, sessionId: Id, scopes: Scopes, audience: Option<string>,
                       env: Env, ghost origin: Id) returns (out: Outcome)
      modifies this`next, this`ats, this`rts, this`minted, this`log, this`issuedWith
      ensures out == Issue(old(State()), c, userId, sessionId, scopes, audience, origin, env).1
      ensures !out.Failed? ==>
                State() == Issue(old(State()), c, userId, sessionId, scopes, audience, origin, env).0
    {
      if env.verdict.deny {
        return Failed(AccessDenied);
      }
      var granted, accessTTL, refreshTTL, useJwt := ResolveGrant(c, scopes, audience, env);
      if useJwt && env.signer == Failing {
        return Failed(ServerError);
      }
      var row := RefreshToken(c.id, userId, sessionId, granted, audience, next + 2,
                              now + refreshTTL * SECOND, false, None, now);
      var token := AccessToken(c.id, Some(userId), Some(sessionId), Some(next + 1), granted, audience,
                               if useJwt then Some(next + 3) else None, now + accessTTL * SECOND, false, now);
      out := Issued(next, Some(next + 1), granted, accessTTL);
      assert row == NewRefresh(State(), c, userId, sessionId, GrantedScopes(scopes, audience, env), audience, env);
      assert token == NewAccess(State(), c, row, env);
      var stored := StorePair(row, token, if useJwt then Some(env.signer.kid) else None, origin);
      if !stored {
        return Failed(ServerError);
      }
    }

    // -------------------------------------------------------------------
    // The token endpoint
    // -------------------------------------------------------------------

    // The closure run in the transaction.
    method TryRedeemCode(c: Client, code: Id, redirectUri: string, verifier: string, env: Env)
      returns (out: Outcome)
      modifies this`next, this`codes, this`ats, this`rts, this`minted, this`log, this`issuedWith
      ensures out == RedeemCode(old(State()), c, code, redirectUri, verifier, env).1
      ensures !out.Failed? ==> State() == RedeemCode(old(State()), c, code, redirectUri, verifier, env).0
    {
      if code !in codes {
        return Failed(InvalidGrant);
      }
      var row := codes[code];
      if !CodeValid(row, now) {
        return Failed(InvalidGrant);
      }
      if row.used {
        // Replay detection, which the check above never lets through.
        assert false;
      }
      if row.clientId != c.id {
        return Failed(InvalidGrant);
      }
      if row.redirectUri != redirectUri {
        return Failed(InvalidGrant);
      }
      if HasPKCE(row) {
        if verifier == "" {
          return Failed(InvalidGrant);
        }
        if !VerifyPKCE(verifier, row.challenge.value) {
          return Failed(InvalidGrant);
        }
      } else if c.isPublic {
        return Failed(InvalidRequest);
      }
      codes := codes[code := row.(used := true)];
      out := IssueTokens(c, row.userId, row.sessionId, row.scopes, row.audience, env, code);
    }

    method ExchangeAuthorizationCode(c: Client, code: Id, redirectUri: string, verifier: string, env: Env)
      returns (out: Outcome)
      modifies this
      ensures (State(), out) == RedeemCode(old(State()), c, code, redirectUri, verifier, env)
      ensures out.Failed? ==> State() == old(State())
    {
      var saved := Begin();
      out := TryRedeemCode(c, code, redirectUri, verifier, env);
      if out.Failed? {
        Rollback(saved, old(State()));
      }
    }

    method TryRedeemRefresh(c: Client, rt: Id, requested: Scopes, verdict: Verdict, env: Env)
      returns (out: Outcome)
      requires RefreshGrant in c.grantTypes
      modifies this`next, this`ats, this`rts, this`minted, this`log, this`issuedWith
      ensures out == RedeemRefresh(old(State()), c, rt, requested, verdict, env).1
      ensures !out.Failed? ==> State() == RedeemRefresh(old(State()), c, rt, requested, verdict, env).0
    {
      if rt !in rts {
        return Failed(InvalidGrant);
      }
      var row := rts[rt];
      if row.clientId != c.id {
        return Failed(InvalidGrant);
      }
      if row.expiresAt < now {
        return Failed(InvalidGrant);
      }
      if row.revoked {
        return Failed(InvalidGrant);
      }
      if row.rotatedAt.Some? {
        // Reuse: the error returned here undoes the write.
        rts := RevokeFamily(rts, row.familyId);
        return Failed(InvalidGrant);
      }
      var granted := row.scopes;
      if |requested| > 0 {
        granted := FilterScopes(requested, row.scopes);
        if |granted| == 0 {
          return Failed(InvalidScope);
        }
      }
      if verdict.deny {
        return Failed(AccessDenied);
      }
      if verdict.scopes.Some? {
        granted := ReadModifyScopes(granted, verdict);
        if |granted| == 0 {
          return Failed(AccessDenied);
        }
      }
      rts := rts[rt := row.(rotatedAt := Some(now))];
      ats := RevokeByRefresh(ats, rt);
      out := IssueTokens(c, row.userId, row.sessionId, granted, row.audience, env, rt);
    }

    method ExchangeRefreshToken(c: Client, rt: Id, requested: Scopes, verdict: Verdict, env: Env)
      returns (out: Outcome)
      modifies this
      ensures (State(), out) == RedeemRefresh(old(State()), c, rt, requested, verdict, env)
      ensures out.Failed? ==> State() == old(State())
    {
      if RefreshGrant !in c.grantTypes {
        return Failed(UnauthorizedClient);
      }
      var saved := Begin();
      out := TryRedeemRefresh(c, rt, requested, verdict, env);
      if out.Failed? {
        Rollback(saved, old(State()));
      }
    }

    method ExchangeClientCredentials(c: Client, requested: Scopes, audience: Option<string>, clientPerms: Scopes,
                                     env: Env) returns (out: Outcome)
      modifies this
      ensures (State(), out) == ClientCredentials(old(State()), c, requested, audience, clientPerms, env)
    {
      if c.isPublic {
        return Failed(UnauthorizedClient);
      }
      if CredentialsGrant !in c.grantTypes {
        return Failed(UnauthorizedClient);
      }
      var scopes: Scopes := [];
      var ttl := c.accessTTL;
      var resource: Option<Resource> := None;
      if audience.Some? {
        if env.resource.None? {
          return Failed(NotFound);
        }
        resource := env.resource;
        scopes := Filter(clientPerms, Elements(requested));
        if |scopes| == 0 {
          return Failed(InvalidScope);
        }
        ttl := resource.value.accessTTL;
      } else {
        scopes := ValidateScopes(c.scopes, requested);
      }
      var useJwt := resource.Some? && resource.value.jwt && env.signer != Absent;
      if useJwt && env.signer == Failing {
        return Failed(ServerError);
      }
      var at, jti := next, next + 1;
      next := next + 2;
      var expiresAt := now + ttl * SECOND;
      if useJwt {
        minted := minted[at := Jwt(env.signer.kid, jti, c.id, None, scopes, audience, JwtExp(expiresAt))];
      }
      ats := ats[at := AccessToken(c.id, None, None, None, scopes, audience,
                                   if useJwt then Some(jti) else None, expiresAt, false, now)];
      return Issued(at, None, scopes, ttl);
    }

    // The end of an authorization request: a session, a code, and with a
    // response_type holding "token" an access token.
    method CompleteGrant(clientId: Id, userId: Id, redirectUri: string, scopes: Scopes, challenge: Option<string>,
                         audience: Option<string>, codeTTL: int, sessionTTL: int, hybrid: Hybrid)
      returns (out: Outcome)
      modifies this`next, this`sessions, this`codes, this`ats, this`log, this`issuedWith
      ensures (State(), out) == Grant(old(State()), clientId, userId, redirectUri, scopes, challenge, audience,
                                      codeTTL, sessionTTL, hybrid)
    {
      var session := CreateSession(userId, sessionTTL);
      if session.None? {
        return Failed(ServerError);
      }
      var code := CreateAuthCode(AuthCode(clientId, userId, redirectUri, scopes, challenge, session.value,
                                          audience, now + codeTTL, false));
      match hybrid {
        case CodeOnly =>
          return Started(code);
        case ClientGone =>
          return Failed(ServerError);
        case WithToken(ttl) =>
          CreateHybridToken(AccessToken(clientId, Some(userId), session, None, scopes, audience, None,
                                        now + ttl * SECOND, false, now), code);
          return Started(code);
      }
    }

    // -------------------------------------------------------------------
    // Device codes
    // -------------------------------------------------------------------

    method InitDeviceAuthorization(c: Client, requested: Scopes, ttl: int) returns (out: Outcome)
      modifies this
      ensures (State(), out) == InitDevice(old(State()), c, requested, ttl)
    {
      if DeviceGrant !in c.grantTypes {
        return Failed(UnauthorizedClient);
      }
      var scopes := ValidateScopes(c.scopes, requested);
      var device := next;
      next := next + 1;
      devices := devices[device := DeviceCode(c.id, scopes, None, None, Pending, 5, now + ttl, None)];
      log := log[device := Entry(None, c.id, None, None, None, scopes)];
      return Started(device);
    }

    method DeviceApprove(device: Id, userId: Id, approved: bool, policyDenies: bool, sessionTTL: int)
      returns (out: Outcome)
      modifies this
      ensures (State(), out) == ApproveDevice(old(State()), device, userId, approved, policyDenies, sessionTTL)
    {
      if device !in devices {
        return Failed(InvalidGrant);
      }
      var row := devices[device];
      if row.expiresAt < now {
        return Failed(ExpiredToken);
      }
      if row.status != Pending {
        return Failed(InvalidGrant);
      }
      if !approved {
        devices := devices[device := row.(status := Denied)];
        return Done;
      }
      if userId in users && policyDenies {
        return Failed(AccessDenied);
      }
      var session := CreateSession(userId, sessionTTL);
      if session.None? {
        return Failed(ServerError);
      }
      devices := devices[device := row.(status := Authorized, userId := Some(userId), sessionId := session)];
      return Done;
    }

    method ExchangeDeviceCode(c: Client, device: Id, env: Env) returns (out: Outcome)
      modifies this
      ensures (State(), out) == PollDevice(old(State()), c, device, env)
    {
      if device !in devices {
        return Failed(InvalidGrant);
      }
      var row := devices[device];
      if row.clientId != c.id {
        return Failed(InvalidGrant);
      }
      if row.expiresAt < now {
        return Failed(ExpiredToken);
      }
      if row.lastPolledAt.Some? && now - row.lastPolledAt.value < row.intervalSecs * SECOND {
        return Failed(SlowDown);
      }
      row := row.(lastPolledAt := Some(now));
      devices := devices[device := row];
      match row.status {
        case Pending =>
          return Failed(AuthorizationPending);
        case Denied =>
          return Failed(AccessDenied);
        case Authorized =>
          if row.userId.None? || row.sessionId.None? {
            return Failed(InvalidGrant);
          }
          var saved := Begin();
          ghost var was := State();
          out := IssueTokens(c, row.userId.value, row.sessionId.value, row.scopes, None, env, device);
          if out.Failed? {
            Rollback(saved, was);
            return;
          }
          devices := devices[device := row.(status := Consumed)];
        case Consumed =>
          return Failed(InvalidGrant);
      }
    }

    // -------------------------------------------------------------------
    // Lookup, introspection, revocation
    // -------------------------------------------------------------------

    method LookupActiveAccessToken(token: Id) returns (active: bool)
      ensures active <==> LookupActive(State(), token)
    {
      if token !in ats {
        return false;
      }
      return AccessValid(ats[token], now);
    }

    // The claims of a token that verifies, as the signer reports them.
    method ValidateAccessTokenJWT(token: Id) returns (claims: Option<Jwt>)
      ensures claims.Some? <==> JwtVerifies(State(), token)
      ensures claims.Some? ==> claims.value == minted[token]
    {
      if token !in minted || minted[token].kid !in keys || minted[token].exp <= now {
        return None;
      }
      return Some(minted[token]);
    }

    method IntrospectToken(token: Id, hint: Hint, denies: bool) returns (r: Introspection)
      ensures r == Introspect(State(), token, hint, denies)
    {
      if MayBeAccess(hint) {
        var claims := ValidateAccessTokenJWT(token);
        if claims.Some? {
          var j := claims.value;
          if j.jti in denied && denied[j.jti] > now {
            return Inactive;
          }
          if denies {
            return Inactive;
          }
          return Active(Bearer, j.clientId, j.userId, j.scopes, j.audience, j.exp / SECOND);
        }
      }
      if MayBeAccess(hint) && token in ats {
        var t := ats[token];
        if !AccessValid(t, now) {
          return Inactive;
        }
        if denies {
          return Inactive;
        }
        return Active(Bearer, t.clientId, t.userId, t.scopes, t.audience, t.expiresAt / SECOND);
      }
      if MayBeRefresh(hint) && token in rts {
        var t := rts[token];
        if t.revoked || t.rotatedAt.Some? || t.expiresAt < now {
          return Inactive;
        }
        if denies {
          return Inactive;
        }
        return Active(Refresh, t.clientId, Some(t.userId), t.scopes, t.audience, t.expiresAt / SECOND);
      }
      return Inactive;
    }

    method RevokeToken(token: Id, hint: Hint, c: Client)
      modifies this`denied, this`rts, this`ats
      ensures State() == Revoke(old(State()), token, hint, c)
    {
      if MayBeAccess(hint) {
        var claims := ValidateAccessTokenJWT(token);
        if claims.Some? {
          var j := claims.value;
          if j.clientId != c.id {
            return;
          }
          if j.jti !in denied {
            denied := denied[j.jti := j.exp];
          }
        }
      }
      if MayBeRefresh(hint) && token in rts {
        if rts[token].clientId != c.id {
          return;
        }
        RevokeRefreshToken(rts[token]);
        return;
      }
      if MayBeAccess(hint) && token in ats {
        if ats[token].clientId != c.id {
          return;
        }
        ats := ats[token := ats[token].(revoked := true)];
      }
    }

    method RevokeRefreshToken(row: RefreshToken)
      modifies this`rts, this`ats
      ensures rts == RevokeFamily(old(rts), row.familyId)
      ensures ats == RevokeBySession(old(ats), row.sessionId)
    {
      rts := RevokeFamily(rts, row.familyId);
      ats := RevokeBySession(ats, row.sessionId);
    }

    // -------------------------------------------------------------------
    // The sweep: one statement a table, in order, and what each cascades to
    // -------------------------------------------------------------------

    method Cascade()
      modifies this
      ensures State() == Cascaded(old(State()))
    {
      sessions := SessionsOf(sessions, users.Keys);
      rts := RefreshOf(rts, users.Keys, sessions.Keys);
      codes := CodesOf(codes, users.Keys, sessions.Keys);
      devices := DevicesOf(devices, users.Keys, sessions.Keys);
      ats := AccessOf(ats, users.Keys, sessions.Keys, rts.Keys);
    }

    method DeleteGrants()
      modifies this
      ensures State() == UndoomedGrants(old(State()))
    {
      ats := map a | a in ats && !AccessDoomed(ats[a], now) :: ats[a];
      rts := map r | r in rts && !RefreshDoomed(rts[r], now) :: rts[r];
      codes := map k | k in codes && !(codes[k].expiresAt < now) :: codes[k];
      devices := map d | d in devices && !(devices[d].expiresAt < now) :: devices[d];
    }

    method DeleteSessions()
      modifies this
      ensures State() == UndoomedSessions(old(State()))
    {
      sessions := map x | x in sessions && !SessionDoomed(sessions[x], now) :: sessions[x];
    }

    method DeleteDenied()
      modifies this
      ensures State() == UndoomedDenied(old(State()))
    {
      denied := map j | j in denied && !(denied[j] < now) :: denied[j];
    }

    method DeleteUsers()
      modifies this
      ensures State() == UndoomedUsers(old(State()))
    {
      users := map u | u in users && !UserDoomed(users[u], now) :: users[u];
    }

    method RunCleanup()
      modifies this
      ensures State() == Sweep(old(State()))
    {
      DeleteGrants();
      Cascade();
      DeleteSessions();
      Cascade();
      DeleteDenied();
      DeleteUsers();
      Cascade();
      StatementsMakeSweep(old(State()));
    }
  }

  function ClaimsOf(t: AccessToken, kid: Id): Jwt
    requires t.jti.Some?
  {
    Jwt(kid, t.jti.value, t.clientId, t.userId, t.scopes, t.audience, JwtExp(t.expiresAt))
  }

  // A nullable foreign key names a row.
  predicate Held(id: Option<Id>, table: set<Id>) { id.Some? ==> id.value in table }

  predicate Linked(id: Option<Id>, table: set<Id>) { id.Some? && id.value in table }

  // ON DELETE CASCADE to users and sessions, ON DELETE SET NULL to refresh
  // tokens: what the database leaves of each table after a delete.
  function SessionsOf(sessions: map<Id, Session>, users: set<Id>): map<Id, Session> {
    map x | x in sessions && sessions[x].userId in users :: sessions[x]
  }

  function RefreshOf(rts: map<Id, RefreshToken>, users: set<Id>, sessions: set<Id>): map<Id, RefreshToken> {
    map r | r in rts && rts[r].userId in users && rts[r].sessionId in sessions :: rts[r]
  }

  function CodesOf(codes: map<Id, AuthCode>, users: set<Id>, sessions: set<Id>): map<Id, AuthCode> {
    map k | k in codes && codes[k].userId in users && codes[k].sessionId in sessions :: codes[k]
  }

  function DevicesOf(devices: map<Id, DeviceCode>, users: set<Id>, sessions: set<Id>): map<Id, DeviceCode> {
    map d | d in devices && Held(devices[d].userId, users) && Held(devices[d].sessionId, sessions) :: devices[d]
  }

  function AccessOf(ats: map<Id, AccessToken>, users: set<Id>, sessions: set<Id>, rts: set<Id>)
    : map<Id, AccessToken>
  {
    map a | a in ats && Held(ats[a].userId, users) && Held(ats[a].sessionId, sessions) ::
      Unlinked(ats[a], Linked(ats[a].refreshId, rts))
  }

  function Cascaded(s: Store): Store {
    var users := s.users.Keys;
    var sessions := SessionsOf(s.sessions, users);
    var rts := RefreshOf(s.rts, users, sessions.Keys);
    s.(sessions := sessions,
       rts := rts,
       codes := CodesOf(s.codes, users, sessions.Keys),
       devices := DevicesOf(s.devices, users, sessions.Keys),
       ats := AccessOf(s.ats, users, sessions.Keys, rts.Keys))
  }

  function UndoomedGrants(s: Store): Store {
    s.(ats := map a | a in s.ats && !AccessDoomed(s.ats[a], s.now) :: s.ats[a],
       rts := map r | r in s.rts && !RefreshDoomed(s.rts[r], s.now) :: s.rts[r],
       codes := map k | k in s.codes && !(s.codes[k].expiresAt < s.now) :: s.codes[k],
       devices := map d | d in s.devices && !(s.devices[d].expiresAt < s.now) :: s.devices[d])
  }

  function UndoomedSessions(s: Store): Store {
    s.(sessions := map x | x in s.sessions && !SessionDoomed(s.sessions[x], s.now) :: s.sessions[x])
  }

  function UndoomedDenied(s: Store): Store {
    s.(denied := map j | j in s.denied && !(s.denied[j] < s.now) :: s.denied[j])
  }

  function UndoomedUsers(s: Store): Store {
    s.(users := map u | u in s.users && !UserDoomed(s.users[u], s.now) :: s.users[u])
  }

  // Cascading twice, the second time to fewer owners, is cascading once.
  lemma RefreshComposes(rts: map<Id, RefreshToken>, u: set<Id>, x: set<Id>, u': set<Id>, x': set<Id>)
    requires u' <= u && x' <= x
    ensures RefreshOf(RefreshOf(rts, u, x), u', x') == RefreshOf(rts, u', x')
  {
    var once, twice := RefreshOf(rts, u', x'), RefreshOf(RefreshOf(rts, u, x), u', x');
    assert forall r :: r in once <==> r in twice;
  }

  lemma CodesCompose(codes: map<Id, AuthCode>, u: set<Id>, x: set<Id>, u': set<Id>, x': set<Id>)
    requires u' <= u && x' <= x
    ensures CodesOf(CodesOf(codes, u, x), u', x') == CodesOf(codes, u', x')
  {
    var once, twice := CodesOf(codes, u', x'), CodesOf(CodesOf(codes, u, x), u', x');
    assert forall r :: r in once <==> r in twice;
  }

  lemma DevicesCompose(devices: map<Id, DeviceCode>, u: set<Id>, x: set<Id>, u': set<Id>, x': set<Id>)
    requires u' <= u && x' <= x
    ensures DevicesOf(DevicesOf(devices, u, x), u', x') == DevicesOf(devices, u', x')
  {
    var once, twice := DevicesOf(devices, u', x'), DevicesOf(DevicesOf(devices, u, x), u', x');
    assert forall r :: r in once <==> r in twice;
  }

  lemma AccessComposes(ats: map<Id, AccessToken>, u: set<Id>, x: set<Id>, r: set<Id>,
                       u': set<Id>, x': set<Id>, r': set<Id>)
    requires u' <= u && x' <= x && r' <= r
    ensures AccessOf(AccessOf(ats, u, x, r), u', x', r') == AccessOf(ats, u', x', r')
  {
    var once, twice := AccessOf(ats, u', x', r'), AccessOf(AccessOf(ats, u, x, r), u', x', r');
    var first := AccessOf(ats, u, x, r);
    assert forall a :: a in once <==> a in first && a in twice;
    forall a | a in once ensures once[a] == twice[a] {
      assert twice[a] == Unlinked(first[a], Linked(first[a].refreshId, r'));
    }
  }

  // What one cascade leaves, given the owners that remain.
  ghost predicate CascadesTo(a: Store, b: Store) {
    b.sessions.Keys <= a.sessions.Keys &&
    b.rts == RefreshOf(a.rts, b.users.Keys, b.sessions.Keys) &&
    b.codes == CodesOf(a.codes, b.users.Keys, b.sessions.Keys) &&
    b.devices == DevicesOf(a.devices, b.users.Keys, b.sessions.Keys) &&
    b.ats == AccessOf(a.ats, b.users.Keys, b.sessions.Keys, b.rts.Keys)
  }

  lemma CascadesCompose(a: Store, b: Store, c: Store)
    requires CascadesTo(a, b) && CascadesTo(b, c) && c.users.Keys <= b.users.Keys
    ensures CascadesTo(a, c)
  {
    RefreshComposes(a.rts, b.users.Keys, b.sessions.Keys, c.users.Keys, c.sessions.Keys);
    CodesCompose(a.codes, b.users.Keys, b.sessions.Keys, c.users.Keys, c.sessions.Keys);
    DevicesCompose(a.devices, b.users.Keys, b.sessions.Keys, c.users.Keys, c.sessions.Keys);
    assert c.rts.Keys <= b.rts.Keys;
    AccessComposes(a.ats, b.users.Keys, b.sessions.Keys, b.rts.Keys, c.users.Keys, c.sessions.Keys, c.rts.Keys);
  }

  lemma SessionStages(s: Store, b: map<Id, Session>, c: map<Id, Session>, d: map<Id, Session>, w: map<Id, Session>,
                      users: set<Id>)
    requires b == SessionsOf(s.sessions, s.users.Keys)
    requires c == map x | x in b && !SessionDoomed(b[x], s.now) :: b[x]
    requires d == SessionsOf(c, s.users.Keys) && w == SessionsOf(d, users)
    requires forall u :: u in users <==> UserStays(s, u)
    ensures w == Sweep(s).sessions
    ensures w.Keys <= d.Keys <= b.Keys
  {
    assert forall x :: x in w <==> SessionStays(s, x);
  }

  // Deleting table by table, each delete followed by its cascades, leaves
  // exactly the rows that are not doomed and whose owners are not.
  lemma StatementsMakeSweep(s: Store)
    ensures Cascaded(UndoomedUsers(UndoomedDenied(Cascaded(UndoomedSessions(Cascaded(UndoomedGrants(s))))))) == Sweep(s)
  {
    var a := UndoomedGrants(s);
    var b := Cascaded(a);
    var c := UndoomedSessions(b);
    var d := Cascaded(c);
    var e := UndoomedUsers(UndoomedDenied(d));
    var w := Cascaded(e);
    OwnersAfterAll(s, a, b, c, d, e, w);
    StagesCompose(a, b, c, d, e, w);
    OneCascadeMakesSweep(s, a, w);
  }

  lemma OwnersAfterAll(s: Store, a: Store, b: Store, c: Store, d: Store, e: Store, w: Store)
    requires a == UndoomedGrants(s) && b == Cascaded(a) && c == UndoomedSessions(b) && d == Cascaded(c)
    requires e == UndoomedUsers(UndoomedDenied(d)) && w == Cascaded(e)
    ensures w.users == Sweep(s).users && w.sessions == Sweep(s).sessions && w.denied == Sweep(s).denied
  {
    SessionStages(s, b.sessions, c.sessions, d.sessions, w.sessions, e.users.Keys);
  }

  lemma StagesCompose(a: Store, b: Store, c: Store, d: Store, e: Store, w: Store)
    requires b == Cascaded(a) && c == UndoomedSessions(b) && d == Cascaded(c)
    requires e == UndoomedUsers(UndoomedDenied(d)) && w == Cascaded(e)
    ensures CascadesTo(a, w)
  {
    assert CascadesTo(b, d);
    CascadesCompose(a, b, d);
    CascadesCompose(a, d, w);
  }

  lemma OneCascadeMakesSweep(s: Store, a: Store, w: Store)
    requires a == UndoomedGrants(s) && CascadesTo(a, w)
    requires w.users == Sweep(s).users && w.sessions == Sweep(s).sessions
    ensures w.rts == Sweep(s).rts
    ensures w.codes == Sweep(s).codes
    ensures w.devices == Sweep(s).devices
    ensures w.ats == Sweep(s).ats
  {
    var users, sessions := w.users.Keys, w.sessions.Keys;
    assert forall u :: u in users <==> UserStays(s, u);
    assert forall x :: x in sessions <==> SessionStays(s, x);
    UndoomedRefreshOf(s, a.rts, users, sessions);
    UndoomedCodesOf(s, a.codes, users, sessions);
    UndoomedDevicesOf(s, a.devices, users, sessions);
    UndoomedAccessOf(s, a.ats, users, sessions);
  }

  ghost predicate Owners(s: Store, users: set<Id>, sessions: set<Id>) {
    (forall u :: u in users <==> UserStays(s, u)) && (forall x :: x in sessions <==> SessionStays(s, x))
  }

  lemma UndoomedRefreshOf(s: Store, rts: map<Id, RefreshToken>, users: set<Id>, sessions: set<Id>)
    requires Owners(s, users, sessions)
    requires rts == map r | r in s.rts && !RefreshDoomed(s.rts[r], s.now) :: s.rts[r]
    ensures RefreshOf(rts, users, sessions) == Sweep(s).rts
  {
    assert forall r :: r in RefreshOf(rts, users, sessions) <==> r in Sweep(s).rts;
  }

  lemma UndoomedCodesOf(s: Store, codes: map<Id, AuthCode>, users: set<Id>, sessions: set<Id>)
    requires Owners(s, users, sessions)
    requires codes == map k | k in s.codes && !(s.codes[k].expiresAt < s.now) :: s.codes[k]
    ensures CodesOf(codes, users, sessions) == Sweep(s).codes
  {
    assert forall r :: r in CodesOf(codes, users, sessions) <==> r in Sweep(s).codes;
  }

  lemma UndoomedDevicesOf(s: Store, devices: map<Id, DeviceCode>, users: set<Id>, sessions: set<Id>)
    requires Owners(s, users, sessions)
    requires devices == map d | d in s.devices && !(s.devices[d].expiresAt < s.now) :: s.devices[d]
    ensures DevicesOf(devices, users, sessions) == Sweep(s).devices
  {
    assert forall r :: r in DevicesOf(devices, users, sessions) <==> r in Sweep(s).devices;
  }

  lemma UndoomedAccessOf(s: Store, ats: map<Id, AccessToken>, users: set<Id>, sessions: set<Id>)
    requires Owners(s, users, sessions)
    requires ats == map a | a in s.ats && !AccessDoomed(s.ats[a], s.now) :: s.ats[a]
    ensures AccessOf(ats, users, sessions, Sweep(s).rts.Keys) == Sweep(s).ats
  {
    assert forall r :: r in Sweep(s).rts <==> r in s.rts && RefreshStays(s, s.rts[r]);
    var swept := AccessOf(ats, users, sessions, Sweep(s).rts.Keys);
    assert forall a :: a in swept <==> a in Sweep(s).ats;
    forall a | a in swept ensures swept[a] == Sweep(s).ats[a] {
      var link := s.ats[a].refreshId;
      assert Linked(link, Sweep(s).rts.Keys) <==>
             link.Some? && link.value in s.rts && RefreshStays(s, s.rts[link.value]);
    }
  }
}
