// Revoking an access token, and when that is permanent.
module Revocation {
  import opened Basics
  import opened TokenStore
  import opened Lineage

  // A jti belongs to one JWT, and a denylist entry lasts as long as its JWT.
  ghost predicate JtisSound(next: Id, minted: map<Id, Jwt>, denied: map<Id, Time>) {
    && (forall t, u :: t in minted && u in minted && minted[t].jti == minted[u].jti ==> t == u)
    && (forall t :: t in minted && minted[t].jti in denied ==> denied[minted[t].jti] == minted[t].exp)
    && (forall t :: t in minted ==> minted[t].jti < next)
    && (forall j :: j in denied ==> j < next)
  }

  ghost predicate Sound(s: Store) {
    Inv(s) && JtisSound(s.next, s.minted, s.denied)
  }

  // ---------------------------------------------------------------------
  // What no step ever undoes
  // ---------------------------------------------------------------------

  // A row is only ever marked revoked and cut off from its refresh token.
  predicate SameClaims(t: AccessToken, u: AccessToken) {
    t.clientId == u.clientId && t.userId == u.userId && t.sessionId == u.sessionId && t.scopes == u.scopes &&
    t.audience == u.audience && t.jti == u.jti && t.expiresAt == u.expiresAt
  }

  ghost predicate AccessAdvances(next: Id, ats: map<Id, AccessToken>, ats': map<Id, AccessToken>) {
    forall k :: k in ats' ==>
      next <= k || (k in ats && (ats[k].revoked ==> ats'[k].revoked) && SameClaims(ats[k], ats'[k]))
  }

  ghost predicate RefreshAdvances(next: Id, rts: map<Id, RefreshToken>, rts': map<Id, RefreshToken>) {
    forall k :: k in rts' ==> next <= k || (k in rts && (rts[k].revoked ==> rts'[k].revoked))
  }

  // Signed tokens stay signed; at most one is added, with a fresh jti.
  ghost predicate MintedAdvances(next: Id, next': Id, minted: map<Id, Jwt>, minted': map<Id, Jwt>) {
    && (forall k :: k in minted ==> k in minted' && minted'[k] == minted[k])
    && (forall k :: k in minted' && k !in minted ==> k == next && next <= minted'[k].jti < next')
  }

  // Denylist entries stay until they lapse, and new ones match their JWT.
  ghost predicate DeniedAdvances(now: Time, minted: map<Id, Jwt>, denied: map<Id, Time>, denied': map<Id, Time>) {
    && (forall j :: j in denied ==> if j in denied' then denied'[j] == denied[j] else denied[j] < now)
    && (forall j :: j in denied' && j !in denied ==>
          exists t :: t in minted && minted[t].jti == j && minted[t].exp == denied'[j])
  }

  ghost predicate Advances(s: Store, s': Store) {
    && s.now <= s'.now && s.next <= s'.next
    && AccessAdvances(s.next, s.ats, s'.ats)
    && RefreshAdvances(s.next, s.rts, s'.rts)
    && MintedAdvances(s.next, s'.next, s.minted, s'.minted)
    && DeniedAdvances(s'.now, s.minted, s.denied, s'.denied)
  }

  // Marking a grant spent changes rows in place and nothing else.
  ghost predicate Marks(s: Store, m: Store) {
    && m.now == s.now && m.next == s.next && m.minted == s.minted && m.denied == s.denied
    && AccessAdvances(s.next, s.ats, m.ats) && RefreshAdvances(s.next, s.rts, m.rts)
  }

  lemma IssueAdvances(s: Store, m: Store, c: Client, userId: Id, sessionId: Id, scopes: Scopes,
                      audience: Option<string>, origin: Id, env: Env)
    requires Marks(s, m) && Below(s.minted, s.next)
    ensures Advances(s, Issue(m, c, userId, sessionId, scopes, audience, origin, env).0)
  {
    if IssueError(m, userId, sessionId, audience, env).Some? {
    } else {
      var rt := NewRefresh(m, c, userId, sessionId, GrantedScopes(scopes, audience, env), audience, env);
      var at := NewAccess(m, c, rt, env);
      PairAdvances(s, m, origin, rt, at, SignedClaims(at, m.next + 3, env.signer));
    }
  }

  lemma PairAdvances(s: Store, m: Store, origin: Id, row: RefreshToken, at: AccessToken, jwt: Option<Jwt>)
    requires Marks(s, m) && Below(s.minted, s.next) && (jwt.Some? ==> jwt.value.jti == m.next + 3)
    ensures Advances(s, AddPair(m, origin, row, at, jwt))
  {
    if jwt.Some? {} else {}
  }

  lemma RedeemCodeAdvances(s: Store, c: Client, code: Id, redirectUri: string, verifier: string, env: Env)
    requires Below(s.minted, s.next)
    ensures Advances(s, RedeemCode(s, c, code, redirectUri, verifier, env).0)
  {
    if CodeError(s, c, code, redirectUri, verifier).None? {
      var row := s.codes[code];
      IssueAdvances(s, MarkCode(s, code), c, row.userId, row.sessionId, row.scopes, row.audience, code, env);
    }
  }

  lemma RedeemRefreshAdvances(s: Store, c: Client, rt: Id, requested: Scopes, verdict: Verdict, env: Env)
    requires Below(s.minted, s.next)
    ensures Advances(s, RedeemRefresh(s, c, rt, requested, verdict, env).0)
  {
    if RefreshError(s, c, rt, requested, verdict).None? {
      var row := s.rts[rt];
      IssueAdvances(s, MarkRotated(s, rt), c, row.userId, row.sessionId,
                    RefreshScopes(row.scopes, requested, verdict).1, row.audience, rt, env);
    }
  }

  lemma DevicesAdvance(s: Store, s': Store, devices: map<Id, DeviceCode>)
    requires s' == s || Advances(s, s')
    ensures Advances(s, s'.(devices := devices))
  {
  }

  lemma PollDeviceAdvances(s: Store, c: Client, device: Id, env: Env)
    requires Below(s.minted, s.next)
    ensures Advances(s, PollDevice(s, c, device, env).0)
  {
    if ThrottleError(s, c, device).None? {
      var row := s.devices[device].(lastPolledAt := Some(s.now));
      var m := s.(devices := s.devices[device := row]);
      if row.status != Authorized || row.userId.None? || row.sessionId.None? {
        DevicesAdvance(s, s, m.devices);
        assert PollDevice(s, c, device, env).0 == m;
      } else {
        var issued := Issue(m, c, row.userId.value, row.sessionId.value, row.scopes, None, device, env);
        IssueAdvances(s, m, c, row.userId.value, row.sessionId.value, row.scopes, None, device, env);
        DevicesAdvance(s, s, m.devices);
        DevicesAdvance(s, issued.0, issued.0.devices[device := row.(status := Consumed)]);
        assert PollDevice(s, c, device, env).0 ==
               if issued.1.Failed? then m
               else issued.0.(devices := issued.0.devices[device := row.(status := Consumed)]);
      }
    }
  }

  lemma CredentialsAdvance(s: Store, c: Client, requested: Scopes, audience: Option<string>,
                           clientPerms: Scopes, env: Env)
    requires Below(s.minted, s.next)
    ensures Advances(s, ClientCredentials(s, c, requested, audience, clientPerms, env).0)
  {
    if CredentialError(c, requested, audience, clientPerms, env).None? {
      if UsesJwt(audience, env) && env.signer.Signs? {
      } else {
      }
    }
  }

  lemma GrantAdvances(s: Store, clientId: Id, userId: Id, redirectUri: string, scopes: Scopes,
                      challenge: Option<string>, audience: Option<string>, codeTTL: int, sessionTTL: int,
                      hybrid: Hybrid)
    requires 0 <= s.next
    ensures Advances(s, Grant(s, clientId, userId, redirectUri, scopes, challenge, audience, codeTTL, sessionTTL,
                              hybrid).0)
  {
    if userId in s.users {
      var x, row, t := GrantShape(s, clientId, userId, redirectUri, scopes, challenge, audience, codeTTL,
                                  sessionTTL, hybrid);
    }
  }

  lemma InitDeviceAdvances(s: Store, c: Client, requested: Scopes, ttl: int)
    ensures Advances(s, InitDevice(s, c, requested, ttl).0)
  {
    if DeviceGrant in c.grantTypes {
    } else {
    }
  }

  lemma ApproveDeviceAdvances(s: Store, device: Id, userId: Id, approved: bool, denies: bool, ttl: int)
    ensures Advances(s, ApproveDevice(s, device, userId, approved, denies, ttl).0)
  {
  }

  lemma RevokedInPlace(s: Store, familyId: Id, sessionId: Id)
    ensures AccessAdvances(s.next, s.ats, RevokeBySession(s.ats, sessionId))
    ensures RefreshAdvances(s.next, s.rts, RevokeFamily(s.rts, familyId))
  {
  }

  lemma MarksIn(s: Store, rts: map<Id, RefreshToken>, ats: map<Id, AccessToken>, s': Store)
    requires s' == s.(rts := rts, ats := ats)
    requires AccessAdvances(s.next, s.ats, ats) && RefreshAdvances(s.next, s.rts, rts)
    ensures Marks(s, s') && s'.keys == s.keys
  {
  }

  lemma RevokeRowsMarks(s: Store, token: Id, hint: Hint, c: Client)
    ensures Marks(s, RevokeRows(s, token, hint, c))
    ensures RevokeRows(s, token, hint, c).keys == s.keys
  {
    var rts, ats := s.rts, s.ats;
    if MayBeRefresh(hint) && token in s.rts {
      if s.rts[token].clientId == c.id {
        rts, ats := RevokeFamily(s.rts, s.rts[token].familyId), RevokeBySession(s.ats, s.rts[token].sessionId);
        RevokedInPlace(s, s.rts[token].familyId, s.rts[token].sessionId);
      }
    } else if MayBeAccess(hint) && token in s.ats && s.ats[token].clientId == c.id {
      ats := s.ats[token := s.ats[token].(revoked := true)];
    }
    MarksIn(s, rts, ats, RevokeRows(s, token, hint, c));
  }

  lemma RevokeAdvances(s: Store, token: Id, hint: Hint, c: Client)
    ensures Advances(s, Revoke(s, token, hint, c))
  {
    RevokeRowsMarks(s, token, hint, c);
    if MayBeAccess(hint) && JwtVerifies(s, token) {
      var j := s.minted[token];
      RevokeRowsMarks(s.(denied := s.denied[j.jti := j.exp]), token, hint, c);
    }
  }

  lemma SweepAdvances(s: Store)
    ensures Advances(s, Sweep(s))
  {
  }

  lemma ExchangeAdvances(s: Store, op: Op)
    requires 0 <= s.next && Below(s.minted, s.next) && Exchanges(op)
    ensures Advances(s, Step(s, op).0)
  {
    match op
    case DoGrant(c, u, uri, scopes, ch, aud, codeTTL, sessionTTL, hybrid) =>
      GrantAdvances(s, c, u, uri, scopes, ch, aud, codeTTL, sessionTTL, hybrid);
    case DoRedeemCode(c, code, uri, verifier, env) => RedeemCodeAdvances(s, c, code, uri, verifier, env);
    case DoRefresh(c, rt, requested, verdict, env) => RedeemRefreshAdvances(s, c, rt, requested, verdict, env);
    case DoCredentials(c, requested, audience, perms, env) =>
      CredentialsAdvance(s, c, requested, audience, perms, env);
    case DoPoll(c, d, env) => PollDeviceAdvances(s, c, d, env);
  }

  predicate Quiet(op: Op) {
    op.Tick? || op.AddUser? || op.SchedulePurge? || op.RevokeSession? || op.LoadKeys? || op.DoLookup? ||
    op.DoIntrospect?
  }

  // Quiet steps change the clock, users, sessions or keys.
  function Retimed(s: Store, now: Time, next: Id, users: map<Id, User>, sessions: map<Id, Session>, keys: set<Id>)
    : Store
  {
    s.(now := now, next := next, users := users, sessions := sessions, keys := keys)
  }

  lemma QuietShape(s: Store, op: Op)
    requires Quiet(op)
    ensures exists now, next, users, sessions, keys ::
              s.now <= now && s.next <= next && Step(s, op).0 == Retimed(s, now, next, users, sessions, keys)
  {
    match op
    case Tick(d) => assert Step(s, op).0 == Retimed(s, s.now + d, s.next, s.users, s.sessions, s.keys);
    case AddUser =>
      assert Step(s, op).0 == Retimed(s, s.now, s.next + 1, s.users[s.next := User(None)], s.sessions, s.keys);
    case SchedulePurge(u, at) =>
      var users := if u in s.users then s.users[u := User(at)] else s.users;
      assert Step(s, op).0 == Retimed(s, s.now, s.next, users, s.sessions, s.keys);
    case RevokeSession(x) =>
      var sessions := if x in s.sessions && !s.sessions[x].revoked
                      then s.sessions[x := s.sessions[x].(revoked := true, revokedAt := s.now)] else s.sessions;
      assert Step(s, op).0 == Retimed(s, s.now, s.next, s.users, sessions, s.keys);
    case LoadKeys(keys) => assert Step(s, op).0 == Retimed(s, s.now, s.next, s.users, s.sessions, keys);
    case DoLookup(t) => assert Step(s, op).0 == Retimed(s, s.now, s.next, s.users, s.sessions, s.keys);
    case DoIntrospect(t, hint, denies) =>
      assert Step(s, op).0 == Retimed(s, s.now, s.next, s.users, s.sessions, s.keys);
  }

  lemma QuietAdvances(s: Store, op: Op)
    requires Quiet(op)
    ensures Advances(s, Step(s, op).0)
  {
    QuietShape(s, op);
  }

  lemma StepAdvances(s: Store, op: Op)
    requires 0 <= s.next && Below(s.minted, s.next)
    ensures Advances(s, Step(s, op).0)
  {
    match op
    case DoInitDevice(c, requested, ttl) => InitDeviceAdvances(s, c, requested, ttl);
    case DoApprove(d, u, approved, denies, ttl) => ApproveDeviceAdvances(s, d, u, approved, denies, ttl);
    case DoRevoke(t, hint, c) => RevokeAdvances(s, t, hint, c);
    case DoSweep => SweepAdvances(s);
    case _ =>
      if Exchanges(op) { ExchangeAdvances(s, op); } else { QuietAdvances(s, op); }
  }

  lemma AdvanceKeepsJtis(s: Store, s': Store)
    requires JtisSound(s.next, s.minted, s.denied) && Advances(s, s')
    ensures JtisSound(s'.next, s'.minted, s'.denied)
  {
  }

  lemma StepKeepsSound(s: Store, op: Op)
    requires Sound(s)
    ensures Sound(Step(s, op).0)
  {
    StepKeeps(s, op);
    StepAdvances(s, op);
    AdvanceKeepsJtis(s, Step(s, op).0);
  }

  lemma {:induction false} RunKeepsSound(s: Store, ops: seq<Op>)
    requires Sound(s)
    ensures Sound(Run(s, ops))
    decreases |ops|
  {
    if ops != [] {
      StepKeepsSound(s, ops[0]);
      RunKeepsSound(Step(s, ops[0]).0, ops[1..]);
    }
  }

  // ---------------------------------------------------------------------
  // Permanence
  // ---------------------------------------------------------------------

  // Some endpoint still reports the token active.
  predicate Reported(s: Store, token: Id, hint: Hint) {
    LookupActive(s, token) || Introspect(s, token, hint, false).Active?
  }

  // No row is left that could report the token, nor will one ever be.
  ghost predicate Buried(s: Store, token: Id) {
    && token < s.next
    && token !in s.rts
    && (token in s.ats ==> s.ats[token].revoked)
    && (token in s.minted ==> JwtBuried(s, s.minted[token]))
  }

  // Expired, or denied for as long as it would verify.
  ghost predicate JwtBuried(s: Store, j: Jwt) {
    j.exp <= s.now || (j.jti in s.denied && j.exp <= s.denied[j.jti])
  }

  lemma BuriedIsInactive(s: Store, token: Id, hint: Hint)
    requires Buried(s, token)
    ensures !Reported(s, token, hint)
  {
  }

  lemma AdvanceKeepsBuried(s: Store, s': Store, token: Id)
    requires Buried(s, token) && Advances(s, s')
    ensures Buried(s', token)
  {
  }

  lemma {:induction false} RunKeepsBuried(s: Store, token: Id, ops: seq<Op>)
    requires Buried(s, token) && Sound(s)
    ensures Buried(Run(s, ops), token)
    decreases |ops|
  {
    if ops != [] {
      StepAdvances(s, ops[0]);
      AdvanceKeepsBuried(s, Step(s, ops[0]).0, token);
      StepKeepsSound(s, ops[0]);
      RunKeepsBuried(Step(s, ops[0]).0, token, ops[1..]);
    }
  }

  // The caller's own access token, opaque or JWT.
  ghost predicate OwnsAccess(s: Store, token: Id, c: Client) {
    && (token in s.ats || token in s.minted)
    && token < s.next && token !in s.rts
    && (token in s.ats ==> s.ats[token].clientId == c.id)
    && (token in s.minted ==> s.minted[token].clientId == c.id)
  }

  // What the endpoint can see of a JWT when it is asked to revoke it.
  ghost predicate Revocable(s: Store, token: Id) {
    token in s.minted ==>
      || s.minted[token].kid in s.keys
      || s.minted[token].exp <= s.now
      || s.minted[token].jti in s.denied
  }

  lemma RevokeBuries(s: Store, token: Id, hint: Hint, c: Client)
    requires 0 <= s.next && JtisSound(s.next, s.minted, s.denied)
    requires OwnsAccess(s, token, c) && MayBeAccess(hint) && Revocable(s, token)
    ensures Buried(Revoke(s, token, hint, c), token)
  {
    RevokeRowsMarks(s, token, hint, c);
    if JwtVerifies(s, token) {
      var j := s.minted[token];
      RevokeRowsMarks(s.(denied := s.denied[j.jti := j.exp]), token, hint, c);
      if j.jti in s.denied {} else {}
    } else {
    }
  }

  lemma BuriedForever(s: Store, token: Id, ops: seq<Op>, h: Hint)
    requires Buried(s, token) && Sound(s)
    ensures !Reported(Run(s, ops), token, h)
  {
    RunKeepsBuried(s, token, ops);
    BuriedIsInactive(Run(s, ops), token, h);
  }

  // A JWT whose key was not in memory was not denied: loading its key later
  // brings it back.
  lemma UnseenJwtReturns(s: Store, token: Id, hint: Hint, c: Client)
    requires OwnsAccess(s, token, c) && MayBeAccess(hint) && !Revocable(s, token)
    ensures Reported(Run(Revoke(s, token, hint, c), [LoadKeys({s.minted[token].kid})]), token, NoHint)
  {
    var reload := LoadKeys({s.minted[token].kid});
    RevokeRowsMarks(s, token, hint, c);
    var s1 := Revoke(s, token, hint, c);
    assert s1.minted == s.minted && s1.denied == s.denied && s1.now == s.now;
    assert Run(s1, [reload]) == Run(Step(s1, reload).0, []);
  }

  ghost predicate NeverReported(s: Store, token: Id) {
    forall ops: seq<Op>, h: Hint :: !Reported(Run(s, ops), token, h)
  }

  lemma BuriedIsNeverReported(s: Store, token: Id)
    requires Buried(s, token) && Sound(s)
    ensures NeverReported(s, token)
  {
    forall ops: seq<Op>, h: Hint ensures !Reported(Run(s, ops), token, h) {
      BuriedForever(s, token, ops, h);
    }
  }

  lemma RevokeKeepsSound(s: Store, token: Id, hint: Hint, c: Client)
    requires Sound(s)
    ensures Sound(Revoke(s, token, hint, c))
  {
    RevokeKeeps(s, token, hint, c);
    RevokeAdvances(s, token, hint, c);
    AdvanceKeepsJtis(s, Revoke(s, token, hint, c));
  }

  lemma RevocableIsNeverReported(s: Store, token: Id, hint: Hint, c: Client)
    requires Sound(s) && OwnsAccess(s, token, c) && MayBeAccess(hint) && Revocable(s, token)
    ensures NeverReported(Revoke(s, token, hint, c), token)
  {
    RevokeBuries(s, token, hint, c);
    RevokeKeepsSound(s, token, hint, c);
    BuriedIsNeverReported(Revoke(s, token, hint, c), token);
  }

  lemma UnseenIsReported(s: Store, token: Id, hint: Hint, c: Client)
    requires OwnsAccess(s, token, c) && MayBeAccess(hint) && !Revocable(s, token)
    ensures !NeverReported(Revoke(s, token, hint, c), token)
  {
    UnseenJwtReturns(s, token, hint, c);
  }

  // A revoked access token stays inactive at every endpoint, over every later
  // run of exchanges, sweeps, key reloads and further revocations, if and only
  // if it was opaque, or its verification key was in memory when /revoke ran,
  // or nothing was left to revoke.
  lemma RevocationIsPermanentIff(s: Store, token: Id, hint: Hint, c: Client)
    requires Sound(s) && OwnsAccess(s, token, c) && MayBeAccess(hint)
    ensures Revocable(s, token) <==> NeverReported(Revoke(s, token, hint, c), token)
  {
    if Revocable(s, token) {
      RevocableIsNeverReported(s, token, hint, c);
    } else {
      UnseenIsReported(s, token, hint, c);
    }
  }

  // From any reachable store.
  lemma RevocationIsPermanent(before: seq<Op>, token: Id, hint: Hint, c: Client)
    requires OwnsAccess(Run(Empty, before), token, c) && MayBeAccess(hint)
    ensures Revocable(Run(Empty, before), token) <==>
            NeverReported(Revoke(Run(Empty, before), token, hint, c), token)
  {
    RunKeepsSound(Empty, before);
    RevocationIsPermanentIff(Run(Empty, before), token, hint, c);
  }

  // ---------------------------------------------------------------------
  // Refresh tokens
  // ---------------------------------------------------------------------

  // No row is left under which the token could be refreshed or introspected.
  ghost predicate RefreshGone(s: Store, rt: Id) {
    && rt < s.next && rt !in s.ats && rt !in s.minted
    && (rt in s.rts ==> s.rts[rt].revoked)
  }

  // The access token is revoked, or swept.
  ghost predicate AccessGone(s: Store, at: Id) {
    at < s.next && (at in s.ats ==> s.ats[at].revoked)
  }

  lemma {:induction false} RunKeepsGone(s: Store, rt: Id, ats: set<Id>, ops: seq<Op>)
    requires Sound(s) && RefreshGone(s, rt) && forall a :: a in ats ==> AccessGone(s, a)
    ensures RefreshGone(Run(s, ops), rt) && forall a :: a in ats ==> AccessGone(Run(s, ops), a)
    decreases |ops|
  {
    if ops != [] {
      StepAdvances(s, ops[0]);
      StepKeepsSound(s, ops[0]);
      AdvanceKeepsGone(s, Step(s, ops[0]).0, rt, ats);
      RunKeepsGone(Step(s, ops[0]).0, rt, ats, ops[1..]);
    }
  }

  lemma AdvanceKeepsGone(s: Store, s': Store, rt: Id, ats: set<Id>)
    requires RefreshGone(s, rt) && (forall a :: a in ats ==> AccessGone(s, a)) && Advances(s, s')
    ensures RefreshGone(s', rt) && forall a :: a in ats ==> AccessGone(s', a)
  {
  }

  lemma RevokeRefreshBuries(s: Store, rt: Id, hint: Hint, c: Client)
    requires Inv(s) && rt in s.rts && s.rts[rt].clientId == c.id && MayBeRefresh(hint)
    ensures RefreshGone(Revoke(s, rt, hint, c), rt)
    ensures forall a :: a in s.ats && s.ats[a].sessionId == Some(s.rts[rt].sessionId) ==>
              AccessGone(Revoke(s, rt, hint, c), a)
  {
    assert !JwtVerifies(s, rt);
    assert Revoke(s, rt, hint, c) == s.(rts := RevokeFamily(s.rts, s.rts[rt].familyId),
                                        ats := RevokeBySession(s.ats, s.rts[rt].sessionId));
  }

  lemma GoneIsUseless(s: Store, rt: Id, h: Hint, denies: bool, c: Client, requested: Scopes, verdict: Verdict, env: Env)
    requires RefreshGone(s, rt)
    ensures Introspect(s, rt, h, denies) == Inactive
    ensures RedeemRefresh(s, c, rt, requested, verdict, env).1.Failed?
  {
    assert RefreshError(s, c, rt, requested, verdict).Some?;
  }

  lemma EveryRunIsSound(ops: seq<Op>)
    ensures Sound(Run(Empty, ops))
  {
    RunKeepsSound(Empty, ops);
  }

  // The set of a session's access tokens.
  function AccessOf(s: Store, sessionId: Id): set<Id> {
    set a | a in s.ats && s.ats[a].sessionId == Some(sessionId)
  }

  lemma GoneForGood(s: Store, rt: Id, hint: Hint, owner: Client, ops: seq<Op>)
    requires Sound(s) && rt in s.rts && s.rts[rt].clientId == owner.id && MayBeRefresh(hint)
    ensures RefreshGone(Run(Revoke(s, rt, hint, owner), ops), rt)
    ensures forall a :: a in AccessOf(s, s.rts[rt].sessionId) ==> AccessGone(Run(Revoke(s, rt, hint, owner), ops), a)
  {
    RevokeRefreshBuries(s, rt, hint, owner);
    RevokeKeepsSound(s, rt, hint, owner);
    RunKeepsGone(Revoke(s, rt, hint, owner), rt, AccessOf(s, s.rts[rt].sessionId), ops);
  }

  // A refresh token its owner has revoked is good for nothing ever after: over
  // every later run introspection reports it inactive and no client can
  // exchange it, whatever is requested and whatever the policies say; nor is
  // any access token of its session active that existed at the time.
  lemma RefreshRevocationIsPermanent(before: seq<Op>, s: Store, rt: Id, hint: Hint, owner: Client, ops: seq<Op>,
                                     t: Store, a: Id, h: Hint, denies: bool, c: Client, requested: Scopes,
                                     verdict: Verdict, env: Env)
    requires s == Run(Empty, before) && rt in s.rts && s.rts[rt].clientId == owner.id && MayBeRefresh(hint)
    requires t == Run(Revoke(s, rt, hint, owner), ops)
    ensures Introspect(t, rt, h, denies) == Inactive
    ensures RedeemRefresh(t, c, rt, requested, verdict, env).1.Failed?
    ensures a in s.ats && s.ats[a].sessionId == Some(s.rts[rt].sessionId) ==> !LookupActive(t, a)
  {
    EveryRunIsSound(before);
    GoneForGood(s, rt, hint, owner, ops);
    GoneIsUseless(t, rt, h, denies, c, requested, verdict, env);
    assert a in AccessOf(s, s.rts[rt].sessionId) ==> AccessGone(t, a);
  }

  // ---------------------------------------------------------------------
  // What a revocation leaves alone
  // ---------------------------------------------------------------------

  // Nothing is written but what hangs on the presented token, and that only by
  // its own client.
  ghost predicate SparesRefresh(rts: map<Id, RefreshToken>, rts': map<Id, RefreshToken>, token: Id, hint: Hint,
                                c: Client)
  {
    rts'.Keys == rts.Keys && forall k :: k in rts && rts'[k] != rts[k] ==>
      hint != AccessHint && token in rts && rts[token].clientId == c.id && rts[k].familyId == rts[token].familyId
  }

  ghost predicate SparesAccess(rts: map<Id, RefreshToken>, ats: map<Id, AccessToken>, ats': map<Id, AccessToken>,
                               token: Id, hint: Hint, c: Client)
  {
    ats'.Keys == ats.Keys && forall k :: k in ats && ats'[k] != ats[k] ==>
      if token in rts then hint != AccessHint && rts[token].clientId == c.id && ats[k].sessionId == Some(rts[token].sessionId)
      else hint != RefreshHint && k == token && ats[k].clientId == c.id
  }

  ghost predicate SparesDenied(minted: map<Id, Jwt>, denied: map<Id, Time>, denied': map<Id, Time>, token: Id,
                               hint: Hint, c: Client)
  {
    (forall j :: j in denied ==> j in denied' && denied'[j] == denied[j]) &&
    (forall j :: j in denied' && j !in denied ==>
       hint != RefreshHint && token in minted && minted[token].clientId == c.id && minted[token].jti == j)
  }

  ghost predicate Spares(s: Store, t: Store, token: Id, hint: Hint, c: Client) {
    && SparesRefresh(s.rts, t.rts, token, hint, c)
    && SparesAccess(s.rts, s.ats, t.ats, token, hint, c)
    && SparesDenied(s.minted, s.denied, t.denied, token, hint, c)
    && t == s.(rts := t.rts, ats := t.ats, denied := t.denied)
  }

  // A client cannot revoke what is not its own, and its own revocation leaves
  // every token alone that is neither the presented one, nor of the presented
  // refresh token's family or session.
  lemma RevocationSparesOthers(s: Store, token: Id, hint: Hint, c: Client)
    requires Inv(s)
    ensures Spares(s, Revoke(s, token, hint, c), token, hint, c)
  {
    if MayBeAccess(hint) && JwtVerifies(s, token) {
      var j := s.minted[token];
      if j.clientId != c.id {
        assert Revoke(s, token, hint, c) == s;
      } else {
        var denied := if j.jti in s.denied then s.denied else s.denied[j.jti := j.exp];
        assert Revoke(s, token, hint, c) == RevokeRows(s.(denied := denied), token, hint, c);
        RowsSpareOthers(s, denied, token, hint, c);
      }
    } else {
      RowsSpareOthers(s, s.denied, token, hint, c);
    }
  }

  lemma SparesIn(s: Store, rts: map<Id, RefreshToken>, ats: map<Id, AccessToken>, denied: map<Id, Time>, token: Id,
                 hint: Hint, c: Client)
    requires SparesRefresh(s.rts, rts, token, hint, c) && SparesAccess(s.rts, s.ats, ats, token, hint, c)
    requires SparesDenied(s.minted, s.denied, denied, token, hint, c)
    ensures Spares(s, s.(rts := rts, ats := ats, denied := denied), token, hint, c)
  {
  }

  lemma FamilySpares(rts: map<Id, RefreshToken>, ats: map<Id, AccessToken>, token: Id, hint: Hint, c: Client)
    requires hint != AccessHint && token in rts && rts[token].clientId == c.id
    ensures SparesRefresh(rts, RevokeFamily(rts, rts[token].familyId), token, hint, c)
    ensures SparesAccess(rts, ats, RevokeBySession(ats, rts[token].sessionId), token, hint, c)
  {
  }

  lemma RowsWritten(s: Store, token: Id, hint: Hint, c: Client)
      returns (rts: map<Id, RefreshToken>, ats: map<Id, AccessToken>)
    requires Disjoint(s.ats, s.rts)
    ensures RevokeRows(s, token, hint, c) == s.(rts := rts, ats := ats)
    ensures SparesRefresh(s.rts, rts, token, hint, c) && SparesAccess(s.rts, s.ats, ats, token, hint, c)
  {
    rts, ats := s.rts, s.ats;
    if MayBeRefresh(hint) && token in s.rts {
      if s.rts[token].clientId == c.id {
        FamilySpares(s.rts, s.ats, token, hint, c);
        rts, ats := RevokeFamily(s.rts, s.rts[token].familyId), RevokeBySession(s.ats, s.rts[token].sessionId);
      }
    } else if MayBeAccess(hint) && token in s.ats && s.ats[token].clientId == c.id {
      ats := s.ats[token := s.ats[token].(revoked := true)];
    }
  }

  lemma RowsSpareOthers(s: Store, denied: map<Id, Time>, token: Id, hint: Hint, c: Client)
    requires Disjoint(s.ats, s.rts) && SparesDenied(s.minted, s.denied, denied, token, hint, c)
    ensures Spares(s, RevokeRows(s.(denied := denied), token, hint, c), token, hint, c)
  {
    var rts, ats := RowsWritten(s.(denied := denied), token, hint, c);
    SparesIn(s, rts, ats, denied, token, hint, c);
  }
}
