// What each endpoint of the token store answers, said of the rows themselves:
// when tokens are issued and what they carry, when a token is reported active,
// and what a client may hold without a user.
module TokenEndpoints {
  import opened Basics
  import opened ScopeLists
  import opened TokenStore
  import opened Lineage
  import Revoking = Revocation

  // ---------------------------------------------------------------------
  // Issuing
  // ---------------------------------------------------------------------

  predicate PolicyAllows(verdict: Verdict, x: string) { verdict.scopes.Some? ==> x in verdict.scopes.value }

  // A permission of the targeted resource needs a role of the user that has it.
  predicate RolesAllow(audience: Option<string>, env: Env, x: string) {
    audience.Some? && env.resource.Some? && x in env.resource.value.perms && env.userPerms.Some? ==>
      x in env.userPerms.value
  }

  // The resource's lifetime comes first, the policies' next, the client's last.
  predicate AccessLifetime(c: Client, audience: Option<string>, env: Env, ttl: int) {
    var ofResource := audience.Some? && env.resource.Some? && env.resource.value.accessTTL > 0;
    && (ofResource ==> ttl == env.resource.value.accessTTL)
    && (!ofResource && env.verdict.accessTTL.Some? ==> ttl == env.verdict.accessTTL.value)
    && (!ofResource && env.verdict.accessTTL.None? ==> ttl == c.accessTTL)
  }

  predicate RefreshLifetime(c: Client, env: Env, ttl: int) {
    (env.verdict.refreshTTL.Some? ==> ttl == env.verdict.refreshTTL.value) &&
    (env.verdict.refreshTTL.None? ==> ttl == c.refreshTTL)
  }

  predicate CanSign(audience: Option<string>, env: Env) {
    audience.Some? && env.resource.Some? && env.resource.value.jwt ==> env.signer != Failing
  }

  // out names a live access token and the live refresh token it hangs on, both
  // for that client, user, session and audience, and both new.
  ghost predicate Pair(s: Store, t: Store, out: Outcome, c: Client, userId: Id, sessionId: Id, audience: Option<string>,
                       env: Env)
  {
    && out.Issued? && out.refresh.Some? && out.access in t.ats && out.refresh.value in t.rts
    && out.access !in s.ats && out.refresh.value !in s.rts
    && var a, r := t.ats[out.access], t.rts[out.refresh.value];
       && a.clientId == c.id && a.userId == Some(userId) && a.sessionId == Some(sessionId) && a.audience == audience
       && r.clientId == c.id && r.userId == userId && r.sessionId == sessionId && r.audience == audience
       && a.scopes == out.scopes && r.scopes == out.scopes
       && a.refreshId == out.refresh && !a.revoked && !r.revoked && r.rotatedAt.None?
       && AccessLifetime(c, audience, env, out.expiresIn) && a.expiresAt == s.now + out.expiresIn * SECOND
       && (exists ttl :: RefreshLifetime(c, env, ttl) && r.expiresAt == s.now + ttl * SECOND)
  }

  lemma IssueIsExact(s: Store, c: Client, userId: Id, sessionId: Id, scopes: Scopes, audience: Option<string>,
                     origin: Id, env: Env, x: string)
    requires Fresh(s)
    ensures var (t, out) := Issue(s, c, userId, sessionId, scopes, audience, origin, env);
            && (out.Issued? <==> !env.verdict.deny && CanSign(audience, env) && sessionId in s.sessions && userId in s.users)
            && (out.Issued? ==> Pair(s, t, out, c, userId, sessionId, audience, env))
            && (out.Issued? ==>
                  (x in out.scopes <==> x in scopes && PolicyAllows(env.verdict, x) && RolesAllow(audience, env, x)))
  {
    var (t, out) := Issue(s, c, userId, sessionId, scopes, audience, origin, env);
    RolesDropOnlyPermissions(NarrowByPolicy(scopes, env.verdict), ResourceFor(audience, env), env.userPerms, x);
    if out.Issued? {
      assert RefreshLifetime(c, env, RefreshTTL(c, env));
    }
  }

  // ---------------------------------------------------------------------
  // Codes
  // ---------------------------------------------------------------------

  // The code is good, and presented as it was asked for.
  predicate CodePresented(s: Store, c: Client, code: Id, redirectUri: string, verifier: string) {
    && code in s.codes
    && var row := s.codes[code];
       && !row.used && s.now < row.expiresAt && row.clientId == c.id && row.redirectUri == redirectUri
       && (if row.challenge.Some? && row.challenge.value != "" then verifier != "" && verifier == row.challenge.value
           else !c.isPublic)
  }

  // Tokens are issued for a code exactly when it is good, presented by its own
  // client with its redirect URI and proof key, and no policy objects; they
  // carry what the code carried, less what policies and roles take away; and
  // the code is spent. Otherwise nothing changes.
  lemma CodeExchangeIff(s: Store, c: Client, code: Id, redirectUri: string, verifier: string, env: Env, x: string)
    requires Inv(s)
    ensures var (t, out) := RedeemCode(s, c, code, redirectUri, verifier, env);
            && (out.Issued? <==> CodePresented(s, c, code, redirectUri, verifier) && !env.verdict.deny &&
                                 CanSign(s.codes[code].audience, env))
            && (out.Issued? ==>
                  && Pair(s, t, out, c, s.codes[code].userId, s.codes[code].sessionId, s.codes[code].audience, env)
                  && code in t.codes && t.codes[code].used
                  && (x in out.scopes <==> x in s.codes[code].scopes && PolicyAllows(env.verdict, x) &&
                                           RolesAllow(s.codes[code].audience, env, x)))
            && (!out.Issued? ==> out.Failed? && t == s)
  {
    if CodeError(s, c, code, redirectUri, verifier).None? {
      var row := s.codes[code];
      var m := s.(codes := s.codes[code := row.(used := true)]);
      IssueIsExact(m, c, row.userId, row.sessionId, row.scopes, row.audience, code, env, x);
      PairSince(s, m, c, row.userId, row.sessionId, row.scopes, row.audience, code, env);
    }
  }

  // Marking the grant first does not matter to the pair.
  lemma PairSince(s: Store, m: Store, c: Client, userId: Id, sessionId: Id, scopes: Scopes, audience: Option<string>,
                  origin: Id, env: Env)
    requires s.now == m.now && s.ats.Keys == m.ats.Keys && s.rts.Keys == m.rts.Keys
    ensures var (t, out) := Issue(m, c, userId, sessionId, scopes, audience, origin, env);
            Pair(m, t, out, c, userId, sessionId, audience, env) ==> Pair(s, t, out, c, userId, sessionId, audience, env)
  {
  }

  // ---------------------------------------------------------------------
  // Refresh tokens
  // ---------------------------------------------------------------------

  // Of the scopes the token holds, those the request leaves.
  predicate Wanted(held: Scopes, requested: Scopes, x: string) {
    x in held && (requested == [] || x in requested)
  }

  predicate RefreshPresented(s: Store, c: Client, rt: Id) {
    && RefreshGrant in c.grantTypes && rt in s.rts
    && s.rts[rt].clientId == c.id && !s.rts[rt].revoked && s.rts[rt].rotatedAt.None? && s.now <= s.rts[rt].expiresAt
  }

  // Some scope is left of what is asked for and of what the policy allows.
  predicate SomethingLeft(held: Scopes, requested: Scopes, verdict: Verdict) {
    (requested != [] ==> exists x | x in held :: Wanted(held, requested, x)) &&
    (verdict.scopes.Some? ==> exists x | x in held :: Wanted(held, requested, x) && x in verdict.scopes.value)
  }

  lemma ScopesLeft(held: Scopes, requested: Scopes, verdict: Verdict, x: string)
    ensures var (problem, scopes) := RefreshScopes(held, requested, verdict);
            && (problem.None? <==> !verdict.deny && SomethingLeft(held, requested, verdict))
            && (problem.None? ==> (x in scopes <==> Wanted(held, requested, x) && PolicyAllows(verdict, x)))
  {
    var wanted := if requested == [] then held else Filter(requested, Elements(held));
    assert forall y :: y in wanted <==> Wanted(held, requested, y);
    var narrowed := NarrowByPolicy(wanted, verdict);
    assert forall y :: y in narrowed <==> Wanted(held, requested, y) && PolicyAllows(verdict, y);
    assert wanted != [] ==> wanted[0] in wanted;
    assert narrowed != [] ==> narrowed[0] in narrowed;
  }

  // A refresh token is exchanged exactly when it is good and its own client's,
  // something is left of its scopes and no policy objects. The new pair holds
  // precisely the scopes of the old token that were asked for, or all when none
  // were, that policies and roles allow; the old token and the access tokens
  // that hung on it are spent. Otherwise nothing changes.
  lemma RefreshExchangeIff(s: Store, c: Client, rt: Id, requested: Scopes, verdict: Verdict, env: Env, x: string)
    requires Inv(s)
    ensures var (t, out) := RedeemRefresh(s, c, rt, requested, verdict, env);
            && (out.Issued? <==> RefreshPresented(s, c, rt) && SomethingLeft(s.rts[rt].scopes, requested, verdict) &&
                                 !verdict.deny && !env.verdict.deny && CanSign(s.rts[rt].audience, env))
            && (out.Issued? ==>
                  && Pair(s, t, out, c, s.rts[rt].userId, s.rts[rt].sessionId, s.rts[rt].audience, env)
                  && (x in out.scopes <==>
                        Wanted(s.rts[rt].scopes, requested, x) && PolicyAllows(verdict, x) &&
                        PolicyAllows(env.verdict, x) && RolesAllow(s.rts[rt].audience, env, x)))
            && (!out.Issued? ==> out.Failed? && t == s)
  {
    if RefreshError(s, c, rt, requested, verdict).None? || RefreshPresented(s, c, rt) {
      var row := s.rts[rt];
      ScopesLeft(row.scopes, requested, verdict, x);
      var m := MarkRotated(s, rt);
      var scopes := RefreshScopes(row.scopes, requested, verdict).1;
      IssueIsExact(m, c, row.userId, row.sessionId, scopes, row.audience, rt, env, x);
      PairSince(s, m, c, row.userId, row.sessionId, scopes, row.audience, rt, env);
    }
  }

  lemma RefreshSpendsOld(s: Store, c: Client, rt: Id, requested: Scopes, verdict: Verdict, env: Env, a: Id)
    requires Inv(s) && RedeemRefresh(s, c, rt, requested, verdict, env).1.Issued?
    ensures var t := RedeemRefresh(s, c, rt, requested, verdict, env).0;
            && rt in t.rts && !RefreshValid(t.rts[rt], t.now)
            && (a in s.ats && s.ats[a].refreshId == Some(rt) ==> a in t.ats && !AccessValid(t.ats[a], t.now))
            && (a in s.ats && s.ats[a].refreshId != Some(rt) ==> a in t.ats && t.ats[a] == s.ats[a])
            && (a in s.rts && a != rt ==> a in t.rts && t.rts[a] == s.rts[a])
  {
    var m := MarkRotated(s, rt);
    var row := s.rts[rt];
    var t := Issue(m, c, row.userId, row.sessionId, RefreshScopes(row.scopes, requested, verdict).1, row.audience, rt,
                   env).0;
    assert RedeemRefresh(s, c, rt, requested, verdict, env).0 == t;
  }

  // ---------------------------------------------------------------------
  // Client credentials
  // ---------------------------------------------------------------------

  // What a client may get without a user: on an audience the permissions that
  // were given to it and asked for, else the registered scopes, or those of
  // them that were asked for.
  predicate MayHold(c: Client, requested: Scopes, audience: Option<string>, clientPerms: Scopes, x: string) {
    if audience.Some? then x in clientPerms && x in requested
    else x in c.scopes && (requested == [] || x in requested)
  }

  lemma CredentialScopesIff(c: Client, requested: Scopes, audience: Option<string>, clientPerms: Scopes, env: Env,
                            x: string)
    ensures CredentialError(c, requested, audience, clientPerms, env).None? <==>
            && !c.isPublic && CredentialsGrant in c.grantTypes && CanSign(audience, env)
            && (audience.Some? ==>
                  env.resource.Some? && exists y | y in clientPerms :: MayHold(c, requested, audience, clientPerms, y))
    ensures x in CredentialScopes(c, requested, audience, clientPerms) <==>
            MayHold(c, requested, audience, clientPerms, x)
  {
    var scopes := CredentialScopes(c, requested, audience, clientPerms);
    assert forall y :: y in scopes <==> MayHold(c, requested, audience, clientPerms, y);
    assert scopes != [] ==> scopes[0] in scopes;
  }

  // A confidential client with the grant gets a token exactly when, on a known
  // audience, it holds something of what it asks for; the token and the answer
  // carry precisely what it may hold, for that client alone.
  lemma CredentialsWithinClient(s: Store, c: Client, requested: Scopes, audience: Option<string>, clientPerms: Scopes,
                                env: Env, x: string)
    requires Fresh(s)
    ensures var (t, out) := ClientCredentials(s, c, requested, audience, clientPerms, env);
            && (out.Issued? <==>
                  && !c.isPublic && CredentialsGrant in c.grantTypes && CanSign(audience, env)
                  && (audience.Some? ==>
                        env.resource.Some? && exists y | y in clientPerms :: MayHold(c, requested, audience, clientPerms, y)))
            && (out.Issued? ==>
                  && out.refresh.None? && out.access in t.ats && out.access !in s.ats
                  && (x in out.scopes <==> MayHold(c, requested, audience, clientPerms, x))
                  && var a := t.ats[out.access];
                     && a.clientId == c.id && a.userId.None? && a.sessionId.None? && a.refreshId.None?
                     && a.audience == audience && a.scopes == out.scopes && !a.revoked
                     && a.expiresAt == s.now + out.expiresIn * SECOND
                     && out.expiresIn == if audience.Some? then env.resource.value.accessTTL else c.accessTTL)
            && (!out.Issued? ==> out.Failed? && t == s)
  {
    CredentialScopesIff(c, requested, audience, clientPerms, env, x);
    if CredentialError(c, requested, audience, clientPerms, env).None? {
      var t := ClientCredentials(s, c, requested, audience, clientPerms, env).0;
      assert t.ats == s.ats[s.next := t.ats[s.next]];
    }
  }

  // ---------------------------------------------------------------------
  // The rows a step adds
  // ---------------------------------------------------------------------

  // A token without a user comes from a client's own credentials.
  predicate MadeByClient(op: Op, a: AccessToken) {
    && op.DoCredentials? && a.clientId == op.client.id && a.audience == op.audience
    && forall x | x in a.scopes :: MayHold(op.client, op.requested, op.audience, op.clientPerms, x)
  }

  // The claims of a JWT are those of its row.
  predicate Matches(j: Jwt, a: AccessToken) {
    j.clientId == a.clientId && j.userId == a.userId && j.scopes == a.scopes && j.audience == a.audience &&
    a.jti == Some(j.jti) && j.exp == JwtExp(a.expiresAt)
  }

  ghost predicate NewRows(s: Store, op: Op, t: Store) {
    && (forall k :: k in t.ats && s.next <= k && t.ats[k].userId.None? ==> MadeByClient(op, t.ats[k]))
    && (forall k :: k in t.minted && s.next <= k ==> k in t.ats && Matches(t.minted[k], t.ats[k]))
  }

  lemma IssueNewRows(s: Store, m: Store, c: Client, userId: Id, sessionId: Id, scopes: Scopes, audience: Option<string>,
                     origin: Id, env: Env, op: Op)
    requires Fresh(s) && m.next == s.next && m.ats.Keys == s.ats.Keys && m.minted == s.minted
    ensures NewRows(s, op, Issue(m, c, userId, sessionId, scopes, audience, origin, env).0)
  {
    if IssueError(m, userId, sessionId, audience, env).Some? {} else {}
  }

  lemma CodeNewRows(s: Store, op: Op)
    requires Fresh(s) && op.DoRedeemCode?
    ensures NewRows(s, op, Step(s, op).0)
  {
    if CodeError(s, op.client, op.code, op.redirectUri, op.verifier).None? {
      var row := s.codes[op.code];
      IssueNewRows(s, MarkCode(s, op.code), op.client, row.userId, row.sessionId, row.scopes, row.audience, op.code,
                   op.env, op);
    }
  }

  lemma RefreshNewRows(s: Store, op: Op)
    requires Fresh(s) && op.DoRefresh?
    ensures NewRows(s, op, Step(s, op).0)
  {
    if RefreshError(s, op.client, op.rt, op.requested, op.verdict).None? {
      var row := s.rts[op.rt];
      IssueNewRows(s, MarkRotated(s, op.rt), op.client, row.userId, row.sessionId,
                   RefreshScopes(row.scopes, op.requested, op.verdict).1, row.audience, op.rt, op.env, op);
    }
  }

  lemma DevicesAside(s: Store, op: Op, t: Store, devices: map<Id, DeviceCode>)
    requires NewRows(s, op, t)
    ensures NewRows(s, op, t.(devices := devices))
  {
  }

  lemma PollNewRows(s: Store, op: Op)
    requires Fresh(s) && op.DoPoll?
    ensures NewRows(s, op, Step(s, op).0)
  {
    if ThrottleError(s, op.client, op.device).None? {
      var row := s.devices[op.device].(lastPolledAt := Some(s.now));
      var m := s.(devices := s.devices[op.device := row]);
      if row.status != Authorized || row.userId.None? || row.sessionId.None? {
        AddsNoneNewRows(s, op, m);
        assert Step(s, op).0 == m;
      } else {
        var (t, out) := Issue(m, op.client, row.userId.value, row.sessionId.value, row.scopes, None, op.device, op.env);
        IssueNewRows(s, m, op.client, row.userId.value, row.sessionId.value, row.scopes, None, op.device, op.env, op);
        DevicesAside(s, op, t, t.devices[op.device := row.(status := Consumed)]);
        AddsNoneNewRows(s, op, m);
        assert Step(s, op).0 == if out.Failed? then m else t.(devices := t.devices[op.device := row.(status := Consumed)]);
      }
    }
  }

  lemma CredentialsNewRows(s: Store, op: Op)
    requires Fresh(s) && op.DoCredentials?
    ensures NewRows(s, op, Step(s, op).0)
  {
    if CredentialError(op.client, op.requested, op.audience, op.clientPerms, op.env).None? {
      var scopes := CredentialScopes(op.client, op.requested, op.audience, op.clientPerms);
      forall x | x in scopes ensures MayHold(op.client, op.requested, op.audience, op.clientPerms, x) {
        CredentialScopesIff(op.client, op.requested, op.audience, op.clientPerms, op.env, x);
      }
      var t := ClientCredentials(s, op.client, op.requested, op.audience, op.clientPerms, op.env).0;
      assert t.ats == s.ats[s.next := t.ats[s.next]] && t.ats[s.next].scopes == scopes;
      if UsesJwt(op.audience, op.env) && op.env.signer.Signs? {
        assert t.minted == s.minted[s.next := t.minted[s.next]];
      } else {
        assert t.minted == s.minted;
      }
    }
  }

  lemma GrantNewRows(s: Store, clientId: Id, userId: Id, redirectUri: string, scopes: Scopes,
                     challenge: Option<string>, audience: Option<string>, codeTTL: int, sessionTTL: int,
                     hybrid: Hybrid, op: Op)
    requires Fresh(s)
    ensures NewRows(s, op, Grant(s, clientId, userId, redirectUri, scopes, challenge, audience, codeTTL, sessionTTL,
                                 hybrid).0)
  {
    if userId in s.users {
      var x, row, at := GrantShape(s, clientId, userId, redirectUri, scopes, challenge, audience, codeTTL, sessionTTL,
                                   hybrid);
      if hybrid.WithToken? {
        HybridNewRows(s, AddCode(AddSession(s, x), row), s.next + 1, at, op);
      }
    }
  }

  lemma HybridNewRows(s: Store, m: Store, code: Id, at: AccessToken, op: Op)
    requires Fresh(s) && m.next == s.next + 2 && m.ats == s.ats && m.minted == s.minted && at.userId.Some?
    ensures NewRows(s, op, AddHybrid(m, code, at))
  {
  }

  // A step that adds no identifier of a token.
  ghost predicate AddsNone(s: Store, t: Store) {
    t.ats.Keys <= s.ats.Keys && t.minted == s.minted
  }

  lemma AddsNoneNewRows(s: Store, op: Op, t: Store)
    requires Fresh(s) && AddsNone(s, t)
    ensures NewRows(s, op, t)
  {
    assert forall k :: k in t.ats.Keys ==> k in s.ats.Keys;
  }

  lemma RevokeAddsNone(s: Store, token: Id, hint: Hint, c: Client)
    requires Inv(s)
    ensures AddsNone(s, Revoke(s, token, hint, c))
  {
    Revoking.RevocationSparesOthers(s, token, hint, c);
  }

  lemma InitDeviceAddsNone(s: Store, c: Client, requested: Scopes, ttl: int)
    ensures AddsNone(s, InitDevice(s, c, requested, ttl).0)
  {
    if DeviceGrant in c.grantTypes {} else {}
  }

  lemma ApproveAddsNone(s: Store, device: Id, userId: Id, approved: bool, denies: bool, ttl: int)
    ensures AddsNone(s, ApproveDevice(s, device, userId, approved, denies, ttl).0)
  {
    if ApproveError(s, device, userId, approved, denies).Some? {
    } else if approved {
    } else {
    }
  }

  lemma SweepAddsNone(s: Store)
    ensures AddsNone(s, Sweep(s))
  {
  }

  lemma QuietAddsNone(s: Store, op: Op)
    requires Revoking.Quiet(op)
    ensures AddsNone(s, Step(s, op).0)
  {
    Revoking.QuietShape(s, op);
  }

  lemma StepNewRows(s: Store, op: Op)
    requires Inv(s)
    ensures NewRows(s, op, Step(s, op).0)
  {
    match op
    case DoRedeemCode(_, _, _, _, _) => CodeNewRows(s, op);
    case DoRefresh(_, _, _, _, _) => RefreshNewRows(s, op);
    case DoPoll(_, _, _) => PollNewRows(s, op);
    case DoCredentials(_, _, _, _, _) => CredentialsNewRows(s, op);
    case DoGrant(c, u, uri, scopes, ch, aud, codeTTL, sessionTTL, hybrid) =>
      GrantNewRows(s, c, u, uri, scopes, ch, aud, codeTTL, sessionTTL, hybrid, op);
    case _ => OtherNewRows(s, op);
  }

  lemma OtherNewRows(s: Store, op: Op)
    requires Inv(s) && !Exchanges(op)
    ensures NewRows(s, op, Step(s, op).0)
  {
    match op
    case DoInitDevice(c, requested, ttl) => InitDeviceAddsNone(s, c, requested, ttl);
    case DoApprove(d, u, approved, denies, ttl) => ApproveAddsNone(s, d, u, approved, denies, ttl);
    case DoRevoke(t, hint, c) => RevokeAddsNone(s, t, hint, c);
    case DoSweep => SweepAddsNone(s);
    case _ => QuietAddsNone(s, op);
    AddsNoneNewRows(s, op, Step(s, op).0);
  }

  // ---------------------------------------------------------------------
  // Over whole runs
  // ---------------------------------------------------------------------

  // Every access token without a user was issued to its client for its own
  // credentials, and holds only what that client was given at that step.
  lemma {:induction false} MachineTokensWithinClient(ops: seq<Op>, s: Store, a: Id) returns (i: nat)
    requires s == Run(Empty, ops) && a in s.ats && s.ats[a].userId.None?
    ensures i < |ops| && MadeByClient(ops[i], s.ats[a])
    decreases |ops|
  {
    if ops == [] {
      assert false;
    } else {
      var before := ops[..|ops| - 1];
      var t, op := Run(Empty, before), ops[|ops| - 1];
      RunSnoc(Empty, ops);
      Revoking.EveryRunIsSound(before);
      Revoking.StepAdvances(t, op);
      StepNewRows(t, op);
      if a < t.next {
        i := MachineTokensWithinClient(before, t, a);
      } else {
        i := |ops| - 1;
      }
    }
  }

  // The signed tokens say what their rows say.
  ghost predicate ClaimsMatch(s: Store) {
    forall k :: k in s.minted && k in s.ats ==> Matches(s.minted[k], s.ats[k])
  }

  lemma StepKeepsClaims(s: Store, op: Op)
    requires Inv(s) && ClaimsMatch(s)
    ensures ClaimsMatch(Step(s, op).0)
  {
    Revoking.StepAdvances(s, op);
    StepNewRows(s, op);
    AdvanceKeepsClaims(s, op, Step(s, op).0);
  }

  lemma AdvanceKeepsClaims(s: Store, op: Op, t: Store)
    requires Fresh(s) && ClaimsMatch(s) && Revoking.Advances(s, t) && NewRows(s, op, t)
    ensures ClaimsMatch(t)
  {
  }

  lemma {:induction false} EveryRunMatches(ops: seq<Op>)
    ensures ClaimsMatch(Run(Empty, ops)) && Revoking.Sound(Run(Empty, ops))
    decreases |ops|
  {
    Revoking.EveryRunIsSound(ops);
    if ops != [] {
      EveryRunMatches(ops[..|ops| - 1]);
      RunSnoc(Empty, ops);
      StepKeepsClaims(Run(Empty, ops[..|ops| - 1]), ops[|ops| - 1]);
    }
  }

  // ---------------------------------------------------------------------
  // Introspection
  // ---------------------------------------------------------------------

  // The token can be read as a JWT, was not denied and has not expired.
  predicate LiveJwt(s: Store, token: Id) {
    && token in s.minted && s.minted[token].kid in s.keys && s.now < s.minted[token].exp
    && (s.minted[token].jti in s.denied ==> s.denied[s.minted[token].jti] <= s.now)
  }

  // It cannot, and its row is unrevoked and unexpired.
  predicate LiveOpaque(s: Store, token: Id) {
    && token in s.ats && !s.ats[token].revoked && s.now < s.ats[token].expiresAt
    && !(token in s.minted && s.minted[token].kid in s.keys && s.now < s.minted[token].exp)
  }

  predicate LiveRefresh(s: Store, token: Id) {
    token in s.rts && !s.rts[token].revoked && s.rts[token].rotatedAt.None? && s.now <= s.rts[token].expiresAt
  }

  // A token is reported active exactly when it is live and looked for as what
  // it is; the report names its own type, client, user, scopes, audience and
  // expiry, the same whether read off the JWT or off its row. What the caller's
  // policy denies is inactive (section 2.2 of RFC 7662).
  lemma IntrospectionIff(ops: seq<Op>, s: Store, token: Id, hint: Hint, denies: bool)
    requires s == Run(Empty, ops)
    ensures var answer := Introspect(s, token, hint, denies);
            && (answer.Active? <==>
                  !denies && ((MayBeAccess(hint) && (LiveJwt(s, token) || LiveOpaque(s, token))) ||
                              (MayBeRefresh(hint) && LiveRefresh(s, token))))
            && (answer.Active? && token in s.ats ==>
                  && answer.tokenType == Bearer && answer.clientId == s.ats[token].clientId
                  && answer.userId == s.ats[token].userId && answer.scopes == s.ats[token].scopes
                  && answer.audience == s.ats[token].audience && answer.exp == s.ats[token].expiresAt / SECOND)
            && (answer.Active? && token in s.rts ==>
                  && answer.tokenType == Refresh && answer.clientId == s.rts[token].clientId
                  && answer.userId == Some(s.rts[token].userId) && answer.scopes == s.rts[token].scopes
                  && answer.audience == s.rts[token].audience && answer.exp == s.rts[token].expiresAt / SECOND)
            && (answer.Active? && token in s.minted ==>
                  && answer.tokenType == Bearer && answer.clientId == s.minted[token].clientId
                  && answer.userId == s.minted[token].userId && answer.scopes == s.minted[token].scopes
                  && answer.audience == s.minted[token].audience)
  {
    EveryRunMatches(ops);
    assert Separate(s);
    if MayBeAccess(hint) && JwtVerifies(s, token) {
      if token in s.ats {
        assert Matches(s.minted[token], s.ats[token]);
        WholeSeconds(s.ats[token].expiresAt);
      }
    } else if MayBeAccess(hint) && token in s.ats {
      if token in s.minted {
        assert Matches(s.minted[token], s.ats[token]);
      }
    } else if MayBeRefresh(hint) && token in s.rts {
    } else {
    }
  }

  lemma WholeSeconds(t: Time)
    ensures JwtExp(t) / SECOND == t / SECOND
  {
  }

  // ---------------------------------------------------------------------
  // Sessions
  // ---------------------------------------------------------------------

  predicate SessionOf(sessions: map<Id, Session>, userId: Option<Id>, sessionId: Option<Id>) {
    userId.Some? && sessionId.Some? && sessionId.value in sessions ==> sessions[sessionId.value].userId == userId.value
  }

  // Whatever is bound to a user and a session is bound to a session of that user.
  ghost predicate SessionsMatch(s: Store) {
    && (forall k :: k in s.codes ==> SessionOf(s.sessions, Some(s.codes[k].userId), Some(s.codes[k].sessionId)))
    && (forall k :: k in s.rts ==> SessionOf(s.sessions, Some(s.rts[k].userId), Some(s.rts[k].sessionId)))
    && (forall k :: k in s.devices ==> SessionOf(s.sessions, s.devices[k].userId, s.devices[k].sessionId))
    && (forall k :: k in s.ats ==> SessionOf(s.sessions, s.ats[k].userId, s.ats[k].sessionId))
  }

  // Sessions keep their users, and what was bound stays bound or goes.
  ghost predicate KeepsBound(s: Store, t: Store) {
    && (forall x :: x in t.sessions ==> x in s.sessions && t.sessions[x].userId == s.sessions[x].userId)
    && (forall k :: k in t.codes ==>
          k in s.codes && t.codes[k].userId == s.codes[k].userId && t.codes[k].sessionId == s.codes[k].sessionId)
    && (forall k :: k in t.rts ==>
          k in s.rts && t.rts[k].userId == s.rts[k].userId && t.rts[k].sessionId == s.rts[k].sessionId)
    && (forall k :: k in t.devices ==>
          t.devices[k].userId.None? ||
          (k in s.devices && t.devices[k].userId == s.devices[k].userId && t.devices[k].sessionId == s.devices[k].sessionId))
    && (forall k :: k in t.ats ==>
          t.ats[k].userId.None? ||
          (k in s.ats && t.ats[k].userId == s.ats[k].userId && t.ats[k].sessionId == s.ats[k].sessionId))
  }

  lemma SessionStays(a: map<Id, Session>, b: map<Id, Session>, userId: Option<Id>, sessionId: Option<Id>)
    requires SessionOf(a, userId, sessionId)
    requires forall x :: x in b ==> x in a && b[x].userId == a[x].userId
    ensures SessionOf(b, userId, sessionId)
  {
    if userId.Some? && sessionId.Some? && sessionId.value in b {
      var x := sessionId.value;
      assert x in a && b[x].userId == a[x].userId;
    }
  }

  lemma BoundMatch(s: Store, t: Store)
    requires SessionsMatch(s) && KeepsBound(s, t)
    ensures SessionsMatch(t)
  {
    forall k | k in t.codes ensures SessionOf(t.sessions, Some(t.codes[k].userId), Some(t.codes[k].sessionId)) {
      SessionStays(s.sessions, t.sessions, Some(s.codes[k].userId), Some(s.codes[k].sessionId));
    }
    forall k | k in t.rts ensures SessionOf(t.sessions, Some(t.rts[k].userId), Some(t.rts[k].sessionId)) {
      SessionStays(s.sessions, t.sessions, Some(s.rts[k].userId), Some(s.rts[k].sessionId));
    }
    forall k | k in t.devices ensures SessionOf(t.sessions, t.devices[k].userId, t.devices[k].sessionId) {
      if t.devices[k].userId.Some? {
        SessionStays(s.sessions, t.sessions, s.devices[k].userId, s.devices[k].sessionId);
      }
    }
    forall k | k in t.ats ensures SessionOf(t.sessions, t.ats[k].userId, t.ats[k].sessionId) {
      if t.ats[k].userId.Some? {
        SessionStays(s.sessions, t.sessions, s.ats[k].userId, s.ats[k].sessionId);
      }
    }
  }

  lemma IssueMatches(s: Store, c: Client, userId: Id, sessionId: Id, scopes: Scopes, audience: Option<string>,
                     origin: Id, env: Env)
    requires SessionsMatch(s) && SessionOf(s.sessions, Some(userId), Some(sessionId))
    ensures SessionsMatch(Issue(s, c, userId, sessionId, scopes, audience, origin, env).0)
    ensures Issue(s, c, userId, sessionId, scopes, audience, origin, env).0.devices == s.devices
    ensures Issue(s, c, userId, sessionId, scopes, audience, origin, env).0.sessions == s.sessions
  {
    if IssueError(s, userId, sessionId, audience, env).Some? {} else {}
  }

  lemma CodeMatches(s: Store, c: Client, code: Id, redirectUri: string, verifier: string, env: Env)
    requires SessionsMatch(s)
    ensures SessionsMatch(RedeemCode(s, c, code, redirectUri, verifier, env).0)
  {
    if CodeError(s, c, code, redirectUri, verifier).None? {
      var row := s.codes[code];
      BoundMatch(s, MarkCode(s, code));
      IssueMatches(MarkCode(s, code), c, row.userId, row.sessionId, row.scopes, row.audience, code, env);
    }
  }

  lemma RefreshMatches(s: Store, c: Client, rt: Id, requested: Scopes, verdict: Verdict, env: Env)
    requires SessionsMatch(s)
    ensures SessionsMatch(RedeemRefresh(s, c, rt, requested, verdict, env).0)
  {
    if RefreshError(s, c, rt, requested, verdict).None? {
      var row := s.rts[rt];
      BoundMatch(s, MarkRotated(s, rt));
      IssueMatches(MarkRotated(s, rt), c, row.userId, row.sessionId,
                   RefreshScopes(row.scopes, requested, verdict).1, row.audience, rt, env);
    }
  }

  lemma PollMatches(s: Store, c: Client, device: Id, env: Env)
    requires SessionsMatch(s)
    ensures SessionsMatch(PollDevice(s, c, device, env).0)
  {
    if ThrottleError(s, c, device).None? {
      var row := s.devices[device].(lastPolledAt := Some(s.now));
      var m := s.(devices := s.devices[device := row]);
      BoundMatch(s, m);
      if row.status != Authorized || row.userId.None? || row.sessionId.None? {
        assert PollDevice(s, c, device, env).0 == m;
      } else {
        var (t, out) := Issue(m, c, row.userId.value, row.sessionId.value, row.scopes, None, device, env);
        IssueMatches(m, c, row.userId.value, row.sessionId.value, row.scopes, None, device, env);
        ConsumedMatches(t, device, row.(status := Consumed));
        assert PollDevice(s, c, device, env).0 ==
               if out.Failed? then m else t.(devices := t.devices[device := row.(status := Consumed)]);
      }
    }
  }

  lemma ConsumedMatches(s: Store, device: Id, row: DeviceCode)
    requires SessionsMatch(s) && SessionOf(s.sessions, row.userId, row.sessionId)
    ensures SessionsMatch(s.(devices := s.devices[device := row]))
  {
  }

  lemma GrantMatches(s: Store, clientId: Id, userId: Id, redirectUri: string, scopes: Scopes,
                     challenge: Option<string>, audience: Option<string>, codeTTL: int, sessionTTL: int,
                     hybrid: Hybrid)
    requires Fresh(s) && Referential(s) && SessionsMatch(s)
    ensures SessionsMatch(Grant(s, clientId, userId, redirectUri, scopes, challenge, audience, codeTTL, sessionTTL,
                                hybrid).0)
  {
    if userId in s.users {
      var x, row, at := GrantShape(s, clientId, userId, redirectUri, scopes, challenge, audience, codeTTL, sessionTTL,
                                   hybrid);
      NewSessionMatches(s, x);
      NewCodeMatches(AddSession(s, x), row);
      if hybrid.WithToken? {
        NewTokenMatches(AddCode(AddSession(s, x), row), s.next + 1, at);
      }
    }
  }

  lemma NewSessionMatches(s: Store, x: Session)
    requires Fresh(s) && Referential(s) && SessionsMatch(s)
    ensures SessionsMatch(AddSession(s, x))
  {
  }

  lemma NewCodeMatches(s: Store, row: AuthCode)
    requires SessionsMatch(s) && SessionOf(s.sessions, Some(row.userId), Some(row.sessionId))
    ensures SessionsMatch(AddCode(s, row))
  {
  }

  lemma NewTokenMatches(s: Store, code: Id, at: AccessToken)
    requires SessionsMatch(s) && SessionOf(s.sessions, at.userId, at.sessionId)
    ensures SessionsMatch(AddHybrid(s, code, at))
  {
  }

  lemma ApproveMatches(s: Store, device: Id, userId: Id, approved: bool, denies: bool, ttl: int)
    requires Fresh(s) && Referential(s) && SessionsMatch(s)
    ensures SessionsMatch(ApproveDevice(s, device, userId, approved, denies, ttl).0)
  {
    if ApproveError(s, device, userId, approved, denies).Some? {
    } else if approved {
      var x := Session(userId, s.now + ttl, false, 0);
      NewSessionMatches(s, x);
      ConsumedMatches(AddSession(s, x), device,
                      s.devices[device].(status := Authorized, userId := Some(userId), sessionId := Some(s.next)));
    } else {
      ConsumedMatches(s, device, s.devices[device].(status := Denied));
    }
  }

  lemma CredentialsMatch(s: Store, c: Client, requested: Scopes, audience: Option<string>, clientPerms: Scopes,
                         env: Env)
    requires SessionsMatch(s)
    ensures SessionsMatch(ClientCredentials(s, c, requested, audience, clientPerms, env).0)
  {
    if CredentialError(c, requested, audience, clientPerms, env).None? {
      var t := ClientCredentials(s, c, requested, audience, clientPerms, env).0;
      assert t == s.(next := t.next, ats := s.ats[s.next := t.ats[s.next]], minted := t.minted);
      assert KeepsBound(s, t);
      BoundMatch(s, t);
    }
  }

  lemma InitDeviceMatches(s: Store, c: Client, requested: Scopes, ttl: int)
    requires SessionsMatch(s)
    ensures SessionsMatch(InitDevice(s, c, requested, ttl).0)
  {
    if DeviceGrant in c.grantTypes {
      BoundMatch(s, InitDevice(s, c, requested, ttl).0);
    }
  }

  lemma RevokeMatches(s: Store, token: Id, hint: Hint, c: Client)
    requires SessionsMatch(s)
    ensures SessionsMatch(Revoke(s, token, hint, c))
  {
    RevokeRowsBound(s, s.denied, token, hint, c);
    if MayBeAccess(hint) && JwtVerifies(s, token) {
      var j := s.minted[token];
      RevokeRowsBound(s, s.denied[j.jti := j.exp], token, hint, c);
    }
  }

  ghost predicate SameOwners(s: Store, rts: map<Id, RefreshToken>, ats: map<Id, AccessToken>) {
    (forall k :: k in rts ==> k in s.rts && rts[k].userId == s.rts[k].userId && rts[k].sessionId == s.rts[k].sessionId) &&
    (forall k :: k in ats ==> k in s.ats && ats[k].userId == s.ats[k].userId && ats[k].sessionId == s.ats[k].sessionId)
  }

  lemma RowsKeepOwners(s: Store, token: Id, hint: Hint, c: Client)
      returns (rts: map<Id, RefreshToken>, ats: map<Id, AccessToken>)
    ensures RevokeRows(s, token, hint, c) == s.(rts := rts, ats := ats) && SameOwners(s, rts, ats)
  {
    rts, ats := s.rts, s.ats;
    if MayBeRefresh(hint) && token in s.rts {
      if s.rts[token].clientId == c.id {
        rts, ats := RevokeFamily(s.rts, s.rts[token].familyId), RevokeBySession(s.ats, s.rts[token].sessionId);
      }
    } else if MayBeAccess(hint) && token in s.ats && s.ats[token].clientId == c.id {
      ats := s.ats[token := s.ats[token].(revoked := true)];
    }
  }

  lemma RevokeRowsBound(s: Store, denied: map<Id, Time>, token: Id, hint: Hint, c: Client)
    requires SessionsMatch(s)
    ensures SessionsMatch(RevokeRows(s.(denied := denied), token, hint, c))
  {
    var rts, ats := RowsKeepOwners(s.(denied := denied), token, hint, c);
    BoundMatch(s, s.(denied := denied, rts := rts, ats := ats));
  }

  lemma SweepMatches(s: Store)
    requires SessionsMatch(s)
    ensures SessionsMatch(Sweep(s))
  {
    BoundMatch(s, Sweep(s));
  }

  lemma QuietMatches(s: Store, op: Op)
    requires SessionsMatch(s) && Revoking.Quiet(op)
    ensures SessionsMatch(Step(s, op).0)
  {
    if op.RevokeSession? {
      if op.session in s.sessions && !s.sessions[op.session].revoked {
        var t := s.(sessions := s.sessions[op.session := s.sessions[op.session].(revoked := true, revokedAt := s.now)]);
        assert Step(s, op).0 == t;
        BoundMatch(s, t);
      }
    } else {
      var t := Step(s, op).0;
      assert t.sessions == s.sessions && t.codes == s.codes && t.rts == s.rts && t.devices == s.devices && t.ats == s.ats;
    }
  }

  lemma RedeemMatches(s: Store, op: Op)
    requires SessionsMatch(s) && (op.DoRedeemCode? || op.DoRefresh?)
    ensures SessionsMatch(Step(s, op).0)
  {
    match op
    case DoRedeemCode(c, code, uri, verifier, env) => CodeMatches(s, c, code, uri, verifier, env);
    case DoRefresh(c, rt, requested, verdict, env) => RefreshMatches(s, c, rt, requested, verdict, env);
  }

  lemma StepMatches(s: Store, op: Op)
    requires Inv(s) && SessionsMatch(s)
    ensures SessionsMatch(Step(s, op).0)
  {
    match op
    case DoGrant(c, u, uri, scopes, ch, aud, codeTTL, sessionTTL, hybrid) =>
      GrantMatches(s, c, u, uri, scopes, ch, aud, codeTTL, sessionTTL, hybrid);
    case DoRedeemCode(_, _, _, _, _) => RedeemMatches(s, op);
    case DoRefresh(_, _, _, _, _) => RedeemMatches(s, op);
    case DoCredentials(c, requested, audience, perms, env) =>
      CredentialsMatch(s, c, requested, audience, perms, env);
    case DoPoll(c, d, env) => PollMatches(s, c, d, env);
    case _ => OtherMatches(s, op);
  }

  lemma OtherMatches(s: Store, op: Op)
    requires Inv(s) && SessionsMatch(s) && !Exchanges(op)
    ensures SessionsMatch(Step(s, op).0)
  {
    match op
    case DoInitDevice(c, requested, ttl) => InitDeviceMatches(s, c, requested, ttl);
    case DoApprove(d, u, approved, denies, ttl) => ApproveMatches(s, d, u, approved, denies, ttl);
    case DoRevoke(t, hint, c) => RevokeMatches(s, t, hint, c);
    case DoSweep => SweepMatches(s);
    case _ => QuietMatches(s, op);
  }

  // In every state of every run each code, token and approved device code that
  // names a session names one of its own user.
  lemma {:induction false} SessionsAreTheirUsers(ops: seq<Op>)
    ensures SessionsMatch(Run(Empty, ops))
    decreases |ops|
  {
    if ops != [] {
      var before := ops[..|ops| - 1];
      SessionsAreTheirUsers(before);
      Reachable(before);
      RunSnoc(Empty, ops);
      StepMatches(Run(Empty, before), ops[|ops| - 1]);
    }
  }
}
