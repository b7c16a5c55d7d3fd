// The expiry sweep, and exactly when no client can tell that it ran.
module SweepVisibility {
  import opened Basics
  import opened ScopeLists
  import opened TokenStore
  import opened Lineage
  import Revoking = Revocation

  // ---------------------------------------------------------------------
  // Rows that can still be accepted
  // ---------------------------------------------------------------------

  // An authorized code that some poll before its expiry can still redeem.
  predicate DeviceLive(d: DeviceCode, now: Time) {
    && !(d.expiresAt < now)
    && d.status == Authorized && d.userId.Some? && d.sessionId.Some?
    && (d.lastPolledAt.Some? ==> d.lastPolledAt.value + d.intervalSecs * SECOND <= d.expiresAt)
  }

  // A device code no poll will ever redeem, nor anyone approve.
  predicate DeviceDead(d: DeviceCode, now: Time) {
    !DeviceLive(d, now) && (d.status == Pending ==> d.expiresAt < now)
  }

  // Every row that can still be accepted belongs to a session and a user that
  // the sweep leaves alone.
  ghost predicate LiveRowsKept(s: Store) {
    && (forall k :: k in s.ats && AccessValid(s.ats[k], s.now) ==> OwnersStay(s, s.ats[k].userId, s.ats[k].sessionId))
    && (forall k :: k in s.rts && RefreshValid(s.rts[k], s.now) ==>
          OwnersStay(s, Some(s.rts[k].userId), Some(s.rts[k].sessionId)))
    && (forall k :: k in s.codes && CodeValid(s.codes[k], s.now) ==>
          OwnersStay(s, Some(s.codes[k].userId), Some(s.codes[k].sessionId)))
    && (forall k :: k in s.devices && DeviceLive(s.devices[k], s.now) ==>
          OwnersStay(s, s.devices[k].userId, s.devices[k].sessionId))
  }

  // ---------------------------------------------------------------------
  // Telling two stores apart
  // ---------------------------------------------------------------------

  // The users and refresh tokens that one store has and the other lacks.
  datatype Gone = Gone(users: set<Id>, refresh: set<Id>)

  function Missing(s: Store, t: Store): Gone { Gone(s.users.Keys - t.users.Keys, s.rts.Keys - t.rts.Keys) }

  // The steps a run may take after the sweep: everything but opening a session
  // for a user who is gone, and revoking a refresh token that is.
  predicate Benign(op: Op, gone: Gone) {
    (op.DoGrant? ==> op.user !in gone.users) &&
    (op.DoApprove? && op.approved ==> op.user !in gone.users) &&
    (op.DoRevoke? ==> op.token !in gone.refresh)
  }

  // Both accept with the same answer, or both reject.
  predicate Agree(a: Answer, b: Answer) {
    a == b || (a.Token? && b.Token? && a.outcome.Failed? && b.outcome.Failed?)
  }

  predicate SameAnswers(s: Store, t: Store, ops: seq<Op>)
    decreases |ops|
  {
    ops == [] ||
    (Agree(Step(s, ops[0]).1, Step(t, ops[0]).1) && SameAnswers(Step(s, ops[0]).0, Step(t, ops[0]).0, ops[1..]))
  }

  ghost predicate Indistinguishable(s: Store, t: Store) {
    forall ops: seq<Op> :: (forall i :: 0 <= i < |ops| ==> Benign(ops[i], Missing(s, t))) ==> SameAnswers(s, t, ops)
  }

  // ---------------------------------------------------------------------
  // The simulation: t lacks only rows that are dead for good
  // ---------------------------------------------------------------------

  ghost predicate Part<V>(big: map<Id, V>, small: map<Id, V>) {
    forall k :: k in small ==> k in big && big[k] == small[k]
  }

  ghost predicate CodesSim(now: Time, a: map<Id, AuthCode>, b: map<Id, AuthCode>) {
    Part(a, b) && forall k :: k in a && k !in b ==> !CodeValid(a[k], now)
  }

  ghost predicate UsersSim(gone: Gone, a: map<Id, User>, b: map<Id, User>) {
    Part(a, b) && forall k :: k in a && k !in b ==> k in gone.users
  }

  ghost predicate RefreshSim(gone: Gone, now: Time, a: map<Id, RefreshToken>, b: map<Id, RefreshToken>) {
    Part(a, b) && forall k :: k in a && k !in b ==> !RefreshValid(a[k], now) && k in gone.refresh
  }

  ghost predicate DevicesSim(now: Time, a: map<Id, DeviceCode>, b: map<Id, DeviceCode>) {
    Part(a, b) && forall k :: k in a && k !in b ==> DeviceDead(a[k], now)
  }

  // Rows agree, but for a link to a refresh token that is gone.
  ghost predicate SameAccess(t: AccessToken, u: AccessToken, rts: map<Id, RefreshToken>) {
    t == u || (u == t.(refreshId := None) && t.refreshId.Some? && t.refreshId.value !in rts)
  }

  ghost predicate AccessSim(now: Time, a: map<Id, AccessToken>, b: map<Id, AccessToken>, rts: map<Id, RefreshToken>) {
    && (forall k :: k in b ==> k in a && SameAccess(a[k], b[k], rts))
    && (forall k :: k in a && k !in b ==> !AccessValid(a[k], now))
  }

  ghost predicate DeniedSim(now: Time, a: map<Id, Time>, b: map<Id, Time>) {
    Part(a, b) && forall j :: j in a && j !in b ==> a[j] <= now
  }

  ghost predicate Sim(gone: Gone, s: Store, t: Store) {
    && s.now == t.now && s.next == t.next && s.keys == t.keys && s.minted == t.minted
    && UsersSim(gone, s.users, t.users) && Part(s.sessions, t.sessions)
    && CodesSim(s.now, s.codes, t.codes)
    && RefreshSim(gone, s.now, s.rts, t.rts)
    && DevicesSim(s.now, s.devices, t.devices)
    && AccessSim(s.now, s.ats, t.ats, t.rts)
    && DeniedSim(s.now, s.denied, t.denied)
    && LinksBelow(s.ats, s.next)
  }

  ghost predicate LinksBelow(ats: map<Id, AccessToken>, next: Id) {
    forall k :: k in ats && ats[k].refreshId.Some? ==> ats[k].refreshId.value < next
  }

  lemma SweepTokensSim(s: Store)
    requires Inv(s) && LiveRowsKept(s)
    ensures RefreshSim(Missing(s, Sweep(s)), s.now, s.rts, Sweep(s).rts)
    ensures AccessSim(s.now, s.ats, Sweep(s).ats, Sweep(s).rts)
  {
  }

  lemma SweepGrantsSim(s: Store)
    requires Inv(s) && LiveRowsKept(s)
    ensures CodesSim(s.now, s.codes, Sweep(s).codes) && DevicesSim(s.now, s.devices, Sweep(s).devices)
  {
  }

  lemma SweepSim(s: Store)
    requires Inv(s) && LiveRowsKept(s)
    ensures Sim(Missing(s, Sweep(s)), s, Sweep(s))
  {
    SweepTokensSim(s);
    SweepGrantsSim(s);
  }

  lemma IssueSim(gone: Gone, s: Store, t: Store, c: Client, userId: Id, sessionId: Id, scopes: Scopes,
                 audience: Option<string>, origin: Id, env: Env)
    requires Sim(gone, s, t) && userId in t.users && sessionId in t.sessions
    ensures var (s', a) := Issue(s, c, userId, sessionId, scopes, audience, origin, env);
            var (t', b) := Issue(t, c, userId, sessionId, scopes, audience, origin, env);
            a == b && Sim(gone, s', t')
  {
    if IssueError(s, userId, sessionId, audience, env).None? {
      var rt := NewRefresh(s, c, userId, sessionId, GrantedScopes(scopes, audience, env), audience, env);
      var at := NewAccess(s, c, rt, env);
      assert rt == NewRefresh(t, c, userId, sessionId, GrantedScopes(scopes, audience, env), audience, env);
      assert at == NewAccess(t, c, rt, env);
      AddPairSim(gone, s, t, origin, rt, at, SignedClaims(at, s.next + 3, env.signer));
    }
  }

  lemma AddPairSim(gone: Gone, s: Store, t: Store, origin: Id, row: RefreshToken, at: AccessToken, jwt: Option<Jwt>)
    requires Sim(gone, s, t) && at.refreshId == Some(s.next + 1)
    ensures Sim(gone, AddPair(s, origin, row, at, jwt), AddPair(t, origin, row, at, jwt))
  {
    if jwt.Some? {} else {}
    var s', t' := AddPair(s, origin, row, at, jwt), AddPair(t, origin, row, at, jwt);
    forall k | k in t'.ats ensures k in s'.ats && SameAccess(s'.ats[k], t'.ats[k], t'.rts) {
      if k != s.next && t.ats[k] != s.ats[k] {
        assert s.ats[k].refreshId.value !in t.rts;
      }
    }
  }

  lemma RedeemCodeSim(gone: Gone, s: Store, t: Store, c: Client, code: Id, redirectUri: string, verifier: string, env: Env)
    requires Sim(gone, s, t) && CodesOwned(t.users, t.sessions, t.codes)
    ensures var (s', a) := RedeemCode(s, c, code, redirectUri, verifier, env);
            var (t', b) := RedeemCode(t, c, code, redirectUri, verifier, env);
            Sim(gone, s', t') && (a == b || (a.Failed? && b.Failed?))
  {
    if CodeError(s, c, code, redirectUri, verifier).None? {
      assert code in t.codes && t.codes[code] == s.codes[code];
      var row := s.codes[code];
      MarkCodeSim(gone, s, t, code);
      IssueSim(gone, MarkCode(s, code), MarkCode(t, code), c, row.userId, row.sessionId, row.scopes, row.audience, code, env);
    } else if CodeError(t, c, code, redirectUri, verifier).None? {
      assert false;
    }
  }

  lemma MarkCodeSim(gone: Gone, s: Store, t: Store, code: Id)
    requires Sim(gone, s, t) && code in t.codes
    ensures code in s.codes && Sim(gone, MarkCode(s, code), MarkCode(t, code))
  {
  }

  lemma MarkRotatedSim(gone: Gone, s: Store, t: Store, rt: Id)
    requires Sim(gone, s, t) && rt in t.rts
    ensures rt in s.rts && Sim(gone, MarkRotated(s, rt), MarkRotated(t, rt))
  {
    var s', t' := MarkRotated(s, rt), MarkRotated(t, rt);
    assert AccessSim(s.now, s'.ats, t'.ats, t'.rts);
  }

  lemma RedeemRefreshSim(gone: Gone, s: Store, t: Store, c: Client, rt: Id, requested: Scopes, verdict: Verdict, env: Env)
    requires Sim(gone, s, t) && RefreshOwned(t.users, t.sessions, t.rts)
    ensures var (s', a) := RedeemRefresh(s, c, rt, requested, verdict, env);
            var (t', b) := RedeemRefresh(t, c, rt, requested, verdict, env);
            Sim(gone, s', t') && (a == b || (a.Failed? && b.Failed?))
  {
    if RefreshError(s, c, rt, requested, verdict).None? {
      assert rt in t.rts && t.rts[rt] == s.rts[rt];
      var row := s.rts[rt];
      MarkRotatedSim(gone, s, t, rt);
      IssueSim(gone, MarkRotated(s, rt), MarkRotated(t, rt), c, row.userId, row.sessionId,
               RefreshScopes(row.scopes, requested, verdict).1, row.audience, rt, env);
    } else if RefreshError(t, c, rt, requested, verdict).None? {
      assert false;
    }
  }

  lemma UpdateDeviceSim(gone: Gone, s: Store, t: Store, device: Id, row: DeviceCode)
    requires Sim(gone, s, t) && device in t.devices
    ensures Sim(gone, s.(devices := s.devices[device := row]), t.(devices := t.devices[device := row]))
  {
  }

  lemma PollDeviceSim(gone: Gone, s: Store, t: Store, c: Client, device: Id, env: Env)
    requires Sim(gone, s, t) && DevicesOwned(t.users, t.sessions, t.devices)
    ensures var (s', a) := PollDevice(s, c, device, env);
            var (t', b) := PollDevice(t, c, device, env);
            Sim(gone, s', t') && (a == b || (a.Failed? && b.Failed?))
  {
    if device !in t.devices {
      PollDeadSim(gone, s, t, c, device, env);
    } else if ThrottleError(s, c, device).Some? {
    } else {
      var row := s.devices[device].(lastPolledAt := Some(s.now));
      UpdateDeviceSim(gone, s, t, device, row);
      if row.status != Authorized {
      } else if row.userId.None? || row.sessionId.None? {
      } else {
        PollIssueSim(gone, s.(devices := s.devices[device := row]), t.(devices := t.devices[device := row]), c, device, env);
      }
    }
  }

  // Issuing for an authorized device code, and marking it consumed.
  lemma PollIssueSim(gone: Gone, s: Store, t: Store, c: Client, device: Id, env: Env)
    requires Sim(gone, s, t) && device in s.devices && device in t.devices && s.devices[device] == t.devices[device]
    requires s.devices[device].userId.Some? && s.devices[device].sessionId.Some?
    requires DevicesOwned(t.users, t.sessions, t.devices)
    ensures var row := s.devices[device];
            var (s', a) := Issue(s, c, row.userId.value, row.sessionId.value, row.scopes, None, device, env);
            var (t', b) := Issue(t, c, row.userId.value, row.sessionId.value, row.scopes, None, device, env);
            var done := row.(status := Consumed);
            a == b &&
            (!a.Failed? ==> Sim(gone, s'.(devices := s'.devices[device := done]), t'.(devices := t'.devices[device := done])))
  {
    var row := s.devices[device];
    IssueSim(gone, s, t, c, row.userId.value, row.sessionId.value, row.scopes, None, device, env);
    var (s2, a) := Issue(s, c, row.userId.value, row.sessionId.value, row.scopes, None, device, env);
    var (t2, b) := Issue(t, c, row.userId.value, row.sessionId.value, row.scopes, None, device, env);
    if !a.Failed? {
      IssueIgnoresDevices(s, s.devices, c, row.userId.value, row.sessionId.value, row.scopes, device, env);
      IssueIgnoresDevices(t, t.devices, c, row.userId.value, row.sessionId.value, row.scopes, device, env);
      UpdateDeviceSim(gone, s2, t2, device, row.(status := Consumed));
    }
  }

  lemma KillDeviceSim(gone: Gone, s: Store, t: Store, device: Id, row: DeviceCode)
    requires Sim(gone, s, t) && device !in t.devices && DeviceDead(row, s.now)
    ensures Sim(gone, s.(devices := s.devices[device := row]), t)
  {
  }

  // Polling a dead row changes nothing but the row, which stays dead.
  lemma PollDeadSim(gone: Gone, s: Store, t: Store, c: Client, device: Id, env: Env)
    requires Sim(gone, s, t) && device !in t.devices
    ensures var (s', a) := PollDevice(s, c, device, env);
            var (t', b) := PollDevice(t, c, device, env);
            Sim(gone, s', t') && a.Failed? && b.Failed?
  {
    if device in s.devices {
      var row := s.devices[device].(lastPolledAt := Some(s.now));
      assert DeviceDead(s.devices[device], s.now);
      if ThrottleError(s, c, device).None? {
        assert DeviceDead(row, s.now);
        KillDeviceSim(gone, s, t, device, row);
      }
    }
  }

  lemma AddAccessSim(gone: Gone, s: Store, t: Store, at: AccessToken, minted: map<Id, Jwt>)
    requires Sim(gone, s, t) && at.refreshId.None?
    ensures Sim(gone, s.(next := s.next + 2, ats := s.ats[s.next := at], minted := minted),
                t.(next := t.next + 2, ats := t.ats[t.next := at], minted := minted))
  {
  }

  lemma CredentialsSim(gone: Gone, s: Store, t: Store, c: Client, requested: Scopes, audience: Option<string>,
                       clientPerms: Scopes, env: Env)
    requires Sim(gone, s, t)
    ensures var (s', a) := ClientCredentials(s, c, requested, audience, clientPerms, env);
            var (t', b) := ClientCredentials(t, c, requested, audience, clientPerms, env);
            a == b && Sim(gone, s', t')
  {
    if CredentialError(c, requested, audience, clientPerms, env).None? {
      var s' := ClientCredentials(s, c, requested, audience, clientPerms, env).0;
      AddAccessSim(gone, s, t, s'.ats[s.next], s'.minted);
    }
  }

  lemma InitDeviceSim(gone: Gone, s: Store, t: Store, c: Client, requested: Scopes, ttl: int)
    requires Sim(gone, s, t)
    ensures var (s', a) := InitDevice(s, c, requested, ttl);
            var (t', b) := InitDevice(t, c, requested, ttl);
            a == b && Sim(gone, s', t')
  {
    if DeviceGrant in c.grantTypes {} else {}
  }

  lemma LookupSim(gone: Gone, s: Store, t: Store, token: Id)
    requires Sim(gone, s, t)
    ensures LookupActive(s, token) == LookupActive(t, token)
    ensures forall j :: JtiRevoked(s, j) == JtiRevoked(t, j)
  {
  }

  lemma IntrospectSim(gone: Gone, s: Store, t: Store, token: Id, hint: Hint, denies: bool)
    requires Sim(gone, s, t) && Separate(s)
    ensures Introspect(s, token, hint, denies) == Introspect(t, token, hint, denies)
  {
    LookupSim(gone, s, t, token);
    if JwtVerifies(s, token) {} else {}
    if token in t.ats {
    } else if token in s.ats {
      assert token !in s.rts;
    } else if token in t.rts {
    } else {
    }
  }

  // A second sweep, on both sides, deletes the same live rows.
  lemma OwnersStaySim(gone: Gone, s: Store, t: Store, userId: Option<Id>, sessionId: Option<Id>)
    requires Sim(gone, s, t) && Owned(t.users, t.sessions, userId, sessionId) && SessionsOwned(t.users, t.sessions)
    ensures OwnersStay(s, userId, sessionId) == OwnersStay(t, userId, sessionId)
  {
  }

  lemma SweepBothOwners(gone: Gone, s: Store, t: Store)
    requires Sim(gone, s, t) && SessionsOwned(t.users, t.sessions)
    ensures UsersSim(gone, Sweep(s).users, Sweep(t).users) && Part(Sweep(s).sessions, Sweep(t).sessions)
    ensures DeniedSim(s.now, Sweep(s).denied, Sweep(t).denied)
  {
    forall x | x in t.sessions ensures SessionStays(s, x) == SessionStays(t, x) {
      OwnersStaySim(gone, s, t, None, Some(x));
    }
  }

  lemma SweepBothCodes(gone: Gone, s: Store, t: Store)
    requires Sim(gone, s, t) && SessionsOwned(t.users, t.sessions) && CodesOwned(t.users, t.sessions, t.codes)
    ensures CodesSim(s.now, Sweep(s).codes, Sweep(t).codes)
  {
    forall k | k in t.codes ensures CodeStays(s, s.codes[k]) == CodeStays(t, t.codes[k]) {
      OwnersStaySim(gone, s, t, Some(t.codes[k].userId), Some(t.codes[k].sessionId));
    }
  }

  lemma RefreshStaysSim(gone: Gone, s: Store, t: Store, r: Id)
    requires Sim(gone, s, t) && SessionsOwned(t.users, t.sessions) && RefreshOwned(t.users, t.sessions, t.rts) && r in t.rts
    ensures r in s.rts && RefreshStays(s, s.rts[r]) == RefreshStays(t, t.rts[r])
  {
    OwnersStaySim(gone, s, t, Some(t.rts[r].userId), Some(t.rts[r].sessionId));
  }

  lemma SweepBothRefresh(gone: Gone, s: Store, t: Store)
    requires Sim(gone, s, t) && SessionsOwned(t.users, t.sessions) && RefreshOwned(t.users, t.sessions, t.rts)
    ensures RefreshSim(gone, s.now, Sweep(s).rts, Sweep(t).rts)
  {
    forall k | k in t.rts ensures RefreshStays(s, s.rts[k]) == RefreshStays(t, t.rts[k]) {
      RefreshStaysSim(gone, s, t, k);
    }
  }

  lemma SweepBothDevices(gone: Gone, s: Store, t: Store)
    requires Sim(gone, s, t) && SessionsOwned(t.users, t.sessions) && DevicesOwned(t.users, t.sessions, t.devices)
    ensures DevicesSim(s.now, Sweep(s).devices, Sweep(t).devices)
  {
    forall k | k in t.devices ensures DeviceStays(s, s.devices[k]) == DeviceStays(t, t.devices[k]) {
      OwnersStaySim(gone, s, t, t.devices[k].userId, t.devices[k].sessionId);
    }
  }

  lemma UnlinkedSame(a: AccessToken, b: AccessToken, rts: map<Id, RefreshToken>, rts': map<Id, RefreshToken>,
                     kept: set<Id>)
    requires SameAccess(a, b, rts) && forall r :: r in rts' ==> r in rts
    requires forall r :: r in rts ==> (r in kept <==> r in rts')
    ensures SameAccess(Unlinked(a, a.refreshId.Some? && a.refreshId.value in kept),
                       Unlinked(b, b.refreshId.Some? && b.refreshId.value in rts'), rts')
  {
    if a.refreshId.Some? {
      var r := a.refreshId.value;
      if r in rts {
        assert a == b;
      } else {
        assert r !in rts' && Unlinked(b, b.refreshId.Some? && b.refreshId.value in rts') == a.(refreshId := None);
      }
    }
  }

  lemma SweptRefreshAgrees(gone: Gone, s: Store, t: Store)
    requires Sim(gone, s, t) && SessionsOwned(t.users, t.sessions) && RefreshOwned(t.users, t.sessions, t.rts)
    ensures forall r :: r in t.rts ==> (r in Sweep(s).rts <==> r in Sweep(t).rts)
    ensures forall r :: r in Sweep(t).rts ==> r in t.rts
  {
    forall r | r in t.rts ensures r in Sweep(s).rts <==> r in Sweep(t).rts {
      RefreshStaysSim(gone, s, t, r);
    }
  }

  lemma SweptLink(s: Store, k: Id)
    requires k in Sweep(s).ats
    ensures k in s.ats && Sweep(s).ats[k] ==
              Unlinked(s.ats[k], s.ats[k].refreshId.Some? && s.ats[k].refreshId.value in Sweep(s).rts.Keys)
  {
  }

  lemma SweptAccessAgrees(gone: Gone, s: Store, t: Store)
    requires Sim(gone, s, t) && SessionsOwned(t.users, t.sessions) && AccessOwned(t.users, t.sessions, t.ats)
    ensures forall k :: k in t.ats ==> k in s.ats && (k in Sweep(s).ats <==> k in Sweep(t).ats)
  {
    forall k | k in t.ats ensures AccessStays(s, s.ats[k]) == AccessStays(t, t.ats[k]) {
      OwnersStaySim(gone, s, t, t.ats[k].userId, t.ats[k].sessionId);
    }
  }

  lemma SweepBothAccess(gone: Gone, s: Store, t: Store)
    requires Sim(gone, s, t) && SessionsOwned(t.users, t.sessions)
    requires RefreshOwned(t.users, t.sessions, t.rts) && AccessOwned(t.users, t.sessions, t.ats)
    ensures AccessSim(s.now, Sweep(s).ats, Sweep(t).ats, Sweep(t).rts)
    ensures LinksBelow(Sweep(s).ats, s.next)
  {
    var s', t' := Sweep(s), Sweep(t);
    SweptAccessAgrees(gone, s, t);
    SweptRefreshAgrees(gone, s, t);
    forall k | k in t'.ats ensures k in s'.ats && SameAccess(s'.ats[k], t'.ats[k], t'.rts) {
      SweptLink(s, k);
      SweptLink(t, k);
      UnlinkedSame(s.ats[k], t.ats[k], t.rts, t'.rts, s'.rts.Keys);
    }
  }

  lemma SweepBoth(gone: Gone, s: Store, t: Store)
    requires Inv(s) && Inv(t) && Sim(gone, s, t)
    ensures Sim(gone, Sweep(s), Sweep(t))
  {
    SweepBothOwners(gone, s, t);
    SweepBothCodes(gone, s, t);
    SweepBothRefresh(gone, s, t);
    SweepBothDevices(gone, s, t);
    SweepBothAccess(gone, s, t);
  }

  // ---------------------------------------------------------------------
  // The two runs
  // ---------------------------------------------------------------------

  lemma TickSim(gone: Gone, s: Store, t: Store, d: nat)
    requires Sim(gone, s, t)
    ensures Sim(gone, Step(s, Tick(d)).0, Step(t, Tick(d)).0)
  {
  }

  lemma SchedulePurgeSim(gone: Gone, s: Store, t: Store, u: Id, at: Option<Time>)
    requires Sim(gone, s, t)
    ensures Sim(gone, Step(s, SchedulePurge(u, at)).0, Step(t, SchedulePurge(u, at)).0)
  {
    if u in t.users {} else {}
  }

  lemma RevokeSessionSim(gone: Gone, s: Store, t: Store, x: Id)
    requires Sim(gone, s, t)
    ensures Sim(gone, Step(s, RevokeSession(x)).0, Step(t, RevokeSession(x)).0)
  {
    if x in t.sessions {
      if t.sessions[x].revoked {} else {}
    } else if x in s.sessions {
      if s.sessions[x].revoked {} else {}
    }
  }

  lemma SameOwner(gone: Gone, s: Store, t: Store, userId: Id)
    requires Sim(gone, s, t) && userId !in gone.users
    ensures (userId in s.users <==> userId in t.users) && s.now == t.now && s.next == t.next
  {
  }

  // A session and a code for it, on both sides.
  function Coded(s: Store, x: Session, row: AuthCode): Store { AddCode(AddSession(s, x), row) }

  lemma CodedSim(gone: Gone, s: Store, t: Store, x: Session, row: AuthCode)
    requires Sim(gone, s, t)
    ensures Sim(gone, Coded(s, x, row), Coded(t, x, row)) && Coded(s, x, row).next == s.next + 2
  {
    AddSessionSim(gone, s, t, x);
    AddCodeSim(gone, AddSession(s, x), AddSession(t, x), row);
  }

  function SessionOf(s: Store, userId: Id, ttl: int): Session { Session(userId, s.now + ttl, false, 0) }

  // What a grant leaves behind, without and with a token.
  lemma GrantsCode(s: Store, clientId: Id, userId: Id, redirectUri: string, scopes: Scopes, challenge: Option<string>,
                   audience: Option<string>, codeTTL: int, sessionTTL: int, hybrid: Hybrid, row: AuthCode)
    requires userId in s.users && !hybrid.WithToken?
    requires row == AuthCode(clientId, userId, redirectUri, scopes, challenge, s.next, audience, s.now + codeTTL, false)
    ensures Grant(s, clientId, userId, redirectUri, scopes, challenge, audience, codeTTL, sessionTTL, hybrid) ==
            (Coded(s, SessionOf(s, userId, sessionTTL), row),
             if hybrid.ClientGone? then Failed(ServerError) else Started(s.next + 1))
  {
  }

  lemma GrantsToken(s: Store, clientId: Id, userId: Id, redirectUri: string, scopes: Scopes, challenge: Option<string>,
                    audience: Option<string>, codeTTL: int, sessionTTL: int, ttl: int, row: AuthCode, at: AccessToken)
    requires userId in s.users
    requires row == AuthCode(clientId, userId, redirectUri, scopes, challenge, s.next, audience, s.now + codeTTL, false)
    requires at == AccessToken(clientId, Some(userId), Some(s.next), None, scopes, audience, None,
                               s.now + ttl * SECOND, false, s.now)
    ensures Grant(s, clientId, userId, redirectUri, scopes, challenge, audience, codeTTL, sessionTTL, WithToken(ttl)) ==
            (AddHybrid(Coded(s, SessionOf(s, userId, sessionTTL), row), s.next + 1, at), Started(s.next + 1))
  {
  }

  ghost predicate SimPair(gone: Gone, a: (Store, Outcome), b: (Store, Outcome)) {
    a.1 == b.1 && Sim(gone, a.0, b.0)
  }

  // The three rows, on both sides.
  lemma HybridSim(gone: Gone, s: Store, t: Store, x: Session, row: AuthCode, at: AccessToken, out: Outcome)
    requires Sim(gone, s, t) && at.refreshId.None?
    ensures SimPair(gone, (AddHybrid(Coded(s, x, row), s.next + 1, at), out),
                    (AddHybrid(Coded(t, x, row), s.next + 1, at), out))
  {
    CodedSim(gone, s, t, x, row);
    AddHybridSim(gone, Coded(s, x, row), Coded(t, x, row), s.next + 1, at);
  }

  lemma GrantSim(gone: Gone, s: Store, t: Store, clientId: Id, userId: Id, redirectUri: string, scopes: Scopes,
                 challenge: Option<string>, audience: Option<string>, codeTTL: int, sessionTTL: int, hybrid: Hybrid)
    requires Sim(gone, s, t) && userId !in gone.users
    ensures SimPair(gone,
                    Grant(s, clientId, userId, redirectUri, scopes, challenge, audience, codeTTL, sessionTTL, hybrid),
                    Grant(t, clientId, userId, redirectUri, scopes, challenge, audience, codeTTL, sessionTTL, hybrid))
  {
    SameOwner(gone, s, t, userId);
    if userId !in s.users {
    } else if hybrid.WithToken? {
      GrantTokenSim(gone, s, t, clientId, userId, redirectUri, scopes, challenge, audience, codeTTL, sessionTTL,
                    hybrid.ttl);
    } else {
      GrantCodeSim(gone, s, t, clientId, userId, redirectUri, scopes, challenge, audience, codeTTL, sessionTTL, hybrid);
    }
  }

  lemma GrantTokenSim(gone: Gone, s: Store, t: Store, clientId: Id, userId: Id, redirectUri: string, scopes: Scopes,
                      challenge: Option<string>, audience: Option<string>, codeTTL: int, sessionTTL: int, ttl: int)
    requires Sim(gone, s, t) && userId in s.users && userId in t.users
    ensures SimPair(gone,
                    Grant(s, clientId, userId, redirectUri, scopes, challenge, audience, codeTTL, sessionTTL,
                          WithToken(ttl)),
                    Grant(t, clientId, userId, redirectUri, scopes, challenge, audience, codeTTL, sessionTTL,
                          WithToken(ttl)))
  {
    var row := AuthCode(clientId, userId, redirectUri, scopes, challenge, s.next, audience, s.now + codeTTL, false);
    var at := AccessToken(clientId, Some(userId), Some(s.next), None, scopes, audience, None, s.now + ttl * SECOND,
                          false, s.now);
    HybridSim(gone, s, t, SessionOf(s, userId, sessionTTL), row, at, Started(s.next + 1));
    GrantsToken(s, clientId, userId, redirectUri, scopes, challenge, audience, codeTTL, sessionTTL, ttl, row, at);
    GrantsToken(t, clientId, userId, redirectUri, scopes, challenge, audience, codeTTL, sessionTTL, ttl, row, at);
  }

  lemma GrantCodeSim(gone: Gone, s: Store, t: Store, clientId: Id, userId: Id, redirectUri: string, scopes: Scopes,
                     challenge: Option<string>, audience: Option<string>, codeTTL: int, sessionTTL: int,
                     hybrid: Hybrid)
    requires Sim(gone, s, t) && userId in s.users && userId in t.users && !hybrid.WithToken?
    ensures SimPair(gone,
                    Grant(s, clientId, userId, redirectUri, scopes, challenge, audience, codeTTL, sessionTTL, hybrid),
                    Grant(t, clientId, userId, redirectUri, scopes, challenge, audience, codeTTL, sessionTTL, hybrid))
  {
    var row := AuthCode(clientId, userId, redirectUri, scopes, challenge, s.next, audience, s.now + codeTTL, false);
    CodedSim(gone, s, t, SessionOf(s, userId, sessionTTL), row);
    GrantsCode(s, clientId, userId, redirectUri, scopes, challenge, audience, codeTTL, sessionTTL, hybrid, row);
    GrantsCode(t, clientId, userId, redirectUri, scopes, challenge, audience, codeTTL, sessionTTL, hybrid, row);
  }

  lemma AddSessionSim(gone: Gone, s: Store, t: Store, x: Session)
    requires Sim(gone, s, t)
    ensures Sim(gone, AddSession(s, x), AddSession(t, x))
  {
  }

  lemma AddCodeSim(gone: Gone, s: Store, t: Store, row: AuthCode)
    requires Sim(gone, s, t)
    ensures Sim(gone, AddCode(s, row), AddCode(t, row))
  {
  }

  lemma AddHybridSim(gone: Gone, s: Store, t: Store, code: Id, at: AccessToken)
    requires Sim(gone, s, t) && at.refreshId.None?
    ensures Sim(gone, AddHybrid(s, code, at), AddHybrid(t, code, at))
  {
  }

  lemma ApproveSim(gone: Gone, s: Store, t: Store, device: Id, userId: Id, approved: bool, denies: bool, ttl: int)
    requires Sim(gone, s, t) && (approved ==> userId !in gone.users)
    ensures var (s', a) := ApproveDevice(s, device, userId, approved, denies, ttl);
            var (t', b) := ApproveDevice(t, device, userId, approved, denies, ttl);
            (a == b || (a.Failed? && b.Failed?)) && Sim(gone, s', t')
  {
    if device !in t.devices {
      assert device in s.devices ==> DeviceDead(s.devices[device], s.now);
      assert ApproveError(s, device, userId, approved, denies).Some?;
    } else if ApproveError(s, device, userId, approved, denies).Some? {
    } else if !approved {
      UpdateDeviceSim(gone, s, t, device, s.devices[device].(status := Denied));
    } else {
      var x := Session(userId, s.now + ttl, false, 0);
      AddSessionSim(gone, s, t, x);
      UpdateDeviceSim(gone, AddSession(s, x), AddSession(t, x), device,
                      s.devices[device].(status := Authorized, userId := Some(userId), sessionId := Some(s.next)));
    }
  }

  lemma RevokeRowsSim(gone: Gone, s: Store, t: Store, token: Id, hint: Hint, c: Client)
    requires Sim(gone, s, t) && token !in gone.refresh
    ensures Sim(gone, RevokeRows(s, token, hint, c), RevokeRows(t, token, hint, c))
  {
    if MayBeRefresh(hint) && token in s.rts {
      assert token in t.rts && t.rts[token] == s.rts[token];
      if s.rts[token].clientId == c.id {
        RevokeFamilySim(gone, s, t, s.rts[token].familyId, s.rts[token].sessionId);
      }
    } else {
      RevokeAccessSim(gone, s, t, token, hint, c);
    }
  }

  function FamilyRevoked(s: Store, familyId: Id, sessionId: Id): Store {
    s.(rts := RevokeFamily(s.rts, familyId), ats := RevokeBySession(s.ats, sessionId))
  }

  lemma RevokeFamilySim(gone: Gone, s: Store, t: Store, familyId: Id, sessionId: Id)
    requires Sim(gone, s, t)
    ensures Sim(gone, FamilyRevoked(s, familyId, sessionId), FamilyRevoked(t, familyId, sessionId))
  {
    var s', t' := FamilyRevoked(s, familyId, sessionId), FamilyRevoked(t, familyId, sessionId);
    assert AccessSim(s.now, s'.ats, t'.ats, t'.rts);
    assert RefreshSim(gone, s.now, s'.rts, t'.rts);
  }

  lemma RevokeAccessSim(gone: Gone, s: Store, t: Store, token: Id, hint: Hint, c: Client)
    requires Sim(gone, s, t) && !(MayBeRefresh(hint) && token in s.rts)
    ensures Sim(gone, RevokeRows(s, token, hint, c), RevokeRows(t, token, hint, c))
  {
    if MayBeAccess(hint) && token in s.ats && s.ats[token].clientId == c.id {
      var s' := s.(ats := s.ats[token := s.ats[token].(revoked := true)]);
      assert RevokeRows(s, token, hint, c) == s';
      if token in t.ats {
        MarkAccessSim(gone, s, t, token);
        assert RevokeRows(t, token, hint, c) == t.(ats := t.ats[token := t.ats[token].(revoked := true)]);
      } else {
        MarkDeadSim(gone, s, t, token);
        assert RevokeRows(t, token, hint, c) == t;
      }
    } else {
      assert RevokeRows(s, token, hint, c) == s;
      assert RevokeRows(t, token, hint, c) == t;
    }
  }

  lemma MarkAccessSim(gone: Gone, s: Store, t: Store, k: Id)
    requires Sim(gone, s, t) && k in s.ats && k in t.ats
    ensures Sim(gone, s.(ats := s.ats[k := s.ats[k].(revoked := true)]), t.(ats := t.ats[k := t.ats[k].(revoked := true)]))
  {
  }

  lemma MarkDeadSim(gone: Gone, s: Store, t: Store, k: Id)
    requires Sim(gone, s, t) && k in s.ats && k !in t.ats
    ensures Sim(gone, s.(ats := s.ats[k := s.ats[k].(revoked := true)]), t)
  {
  }

  // A JWT that still verifies is denied on both sides or on neither.
  lemma RevokeSim(gone: Gone, s: Store, t: Store, token: Id, hint: Hint, c: Client)
    requires Revoking.Sound(s) && Revoking.Sound(t) && Sim(gone, s, t) && token !in gone.refresh
    ensures Sim(gone, Revoke(s, token, hint, c), Revoke(t, token, hint, c))
  {
    if MayBeAccess(hint) && JwtVerifies(s, token) {
      var j := s.minted[token];
      assert j.jti in s.denied <==> j.jti in t.denied;
      if j.clientId != c.id {
      } else if j.jti in s.denied {
        RevokeRowsSim(gone, s, t, token, hint, c);
      } else {
        DenySim(gone, s, t, j.jti, j.exp);
        RevokeRowsSim(gone, s.(denied := s.denied[j.jti := j.exp]), t.(denied := t.denied[j.jti := j.exp]),
                      token, hint, c);
      }
    } else {
      RevokeRowsSim(gone, s, t, token, hint, c);
    }
  }

  lemma DenySim(gone: Gone, s: Store, t: Store, jti: Id, exp: Time)
    requires Sim(gone, s, t)
    ensures Sim(gone, s.(denied := s.denied[jti := exp]), t.(denied := t.denied[jti := exp]))
  {
  }

  lemma RedeemSim(gone: Gone, s: Store, t: Store, op: Op)
    requires Inv(s) && Inv(t) && Sim(gone, s, t) && (op.DoRedeemCode? || op.DoRefresh?)
    ensures Agree(Step(s, op).1, Step(t, op).1) && Sim(gone, Step(s, op).0, Step(t, op).0)
  {
    match op
    case DoRedeemCode(c, code, uri, verifier, env) => RedeemCodeSim(gone, s, t, c, code, uri, verifier, env);
    case DoRefresh(c, rt, requested, verdict, env) => RedeemRefreshSim(gone, s, t, c, rt, requested, verdict, env);
  }

  lemma ClientSim(gone: Gone, s: Store, t: Store, op: Op)
    requires Inv(s) && Inv(t) && Sim(gone, s, t) && (op.DoCredentials? || op.DoPoll?)
    ensures Agree(Step(s, op).1, Step(t, op).1) && Sim(gone, Step(s, op).0, Step(t, op).0)
  {
    match op
    case DoCredentials(c, requested, audience, perms, env) =>
      CredentialsSim(gone, s, t, c, requested, audience, perms, env);
    case DoPoll(c, d, env) => PollDeviceSim(gone, s, t, c, d, env);
  }

  lemma QuietSim(gone: Gone, s: Store, t: Store, op: Op)
    requires Inv(s) && Inv(t) && Sim(gone, s, t)
    requires op.Tick? || op.AddUser? || op.SchedulePurge? || op.RevokeSession? || op.LoadKeys?
    ensures Agree(Step(s, op).1, Step(t, op).1) && Sim(gone, Step(s, op).0, Step(t, op).0)
  {
    match op
    case Tick(d) => TickSim(gone, s, t, d);
    case SchedulePurge(u, at) => SchedulePurgeSim(gone, s, t, u, at);
    case RevokeSession(x) => RevokeSessionSim(gone, s, t, x);
    case AddUser =>
    case LoadKeys(keys) =>
  }

  lemma StepSim(gone: Gone, s: Store, t: Store, op: Op)
    requires Revoking.Sound(s) && Revoking.Sound(t) && Sim(gone, s, t) && Benign(op, gone)
    ensures Agree(Step(s, op).1, Step(t, op).1) && Sim(gone, Step(s, op).0, Step(t, op).0)
  {
    if op.DoRedeemCode? || op.DoRefresh? {
      RedeemSim(gone, s, t, op);
    } else if op.DoCredentials? || op.DoPoll? {
      ClientSim(gone, s, t, op);
    } else if op.DoLookup? || op.DoIntrospect? {
      ReadSim(gone, s, t, op);
    } else if op.DoSweep? || op.DoInitDevice? {
      TableSim(gone, s, t, op);
    } else if op.DoGrant? {
      GrantStepSim(gone, s, t, op);
    } else if op.DoApprove? || op.DoRevoke? {
      OwnerSim(gone, s, t, op);
    } else {
      QuietSim(gone, s, t, op);
    }
  }

  lemma TableSim(gone: Gone, s: Store, t: Store, op: Op)
    requires Inv(s) && Inv(t) && Sim(gone, s, t) && (op.DoSweep? || op.DoInitDevice?)
    ensures Agree(Step(s, op).1, Step(t, op).1) && Sim(gone, Step(s, op).0, Step(t, op).0)
  {
    match op
    case DoInitDevice(c, requested, ttl) => InitDeviceSim(gone, s, t, c, requested, ttl);
    case DoSweep => SweepBoth(gone, s, t);
  }

  lemma GrantStepSim(gone: Gone, s: Store, t: Store, op: Op)
    requires Sim(gone, s, t) && op.DoGrant? && Benign(op, gone)
    ensures Agree(Step(s, op).1, Step(t, op).1) && Sim(gone, Step(s, op).0, Step(t, op).0)
  {
    GrantSim(gone, s, t, op.clientId, op.user, op.redirectUri, op.scopes, op.challenge, op.audience, op.codeTTL,
             op.sessionTTL, op.hybrid);
  }

  lemma OwnerSim(gone: Gone, s: Store, t: Store, op: Op)
    requires Revoking.Sound(s) && Revoking.Sound(t) && Sim(gone, s, t) && Benign(op, gone)
    requires op.DoApprove? || op.DoRevoke?
    ensures Agree(Step(s, op).1, Step(t, op).1) && Sim(gone, Step(s, op).0, Step(t, op).0)
  {
    match op
    case DoApprove(d, u, approved, denies, ttl) => ApproveSim(gone, s, t, d, u, approved, denies, ttl);
    case DoRevoke(token, hint, c) => RevokeSim(gone, s, t, token, hint, c);
  }

  lemma ReadSim(gone: Gone, s: Store, t: Store, op: Op)
    requires Inv(s) && Inv(t) && Sim(gone, s, t) && (op.DoLookup? || op.DoIntrospect?)
    ensures Agree(Step(s, op).1, Step(t, op).1) && Step(s, op).0 == s && Step(t, op).0 == t
  {
    match op
    case DoLookup(token) => LookupSim(gone, s, t, token);
    case DoIntrospect(token, hint, denies) => IntrospectSim(gone, s, t, token, hint, denies);
  }

  lemma {:induction false} RunsAgree(gone: Gone, s: Store, t: Store, ops: seq<Op>)
    requires Revoking.Sound(s) && Revoking.Sound(t) && Sim(gone, s, t)
    requires forall i :: 0 <= i < |ops| ==> Benign(ops[i], gone)
    ensures SameAnswers(s, t, ops)
    decreases |ops|
  {
    if ops != [] {
      assert Benign(ops[0], gone);
      StepSim(gone, s, t, ops[0]);
      Revoking.StepKeepsSound(s, ops[0]);
      Revoking.StepKeepsSound(t, ops[0]);
      assert forall i :: 0 <= i < |ops[1..]| ==> ops[1..][i] == ops[i + 1];
      RunsAgree(gone, Step(s, ops[0]).0, Step(t, ops[0]).0, ops[1..]);
    }
  }

  lemma SweepKeepsSound(s: Store)
    requires Revoking.Sound(s)
    ensures Revoking.Sound(Sweep(s))
  {
    Revoking.StepKeepsSound(s, DoSweep);
    assert Step(s, DoSweep).0 == Sweep(s);
  }

  lemma SimIsIndistinguishable(s: Store, t: Store)
    requires Revoking.Sound(s) && Revoking.Sound(t) && Sim(Missing(s, t), s, t)
    ensures Indistinguishable(s, t)
  {
    forall ops: seq<Op> | forall i :: 0 <= i < |ops| ==> Benign(ops[i], Missing(s, t))
      ensures SameAnswers(s, t, ops)
    {
      RunsAgree(Missing(s, t), s, t, ops);
    }
  }

  lemma SweepInvisible(s: Store)
    requires Revoking.Sound(s) && LiveRowsKept(s)
    ensures Indistinguishable(s, Sweep(s))
  {
    SweepSim(s);
    SweepKeepsSound(s);
    SimIsIndistinguishable(s, Sweep(s));
  }

  // ---------------------------------------------------------------------
  // The converse: a live row that the cascade takes is missed at once
  // ---------------------------------------------------------------------

  const ANY_ENV := Env(NoVerdict, None, None, Absent)

  lemma OneStep(s: Store, t: Store, op: Op)
    requires Benign(op, Missing(s, t)) && !Agree(Step(s, op).1, Step(t, op).1)
    ensures !SameAnswers(s, t, [op]) && !Indistinguishable(s, t)
  {
    assert !SameAnswers(s, t, [op]);
    assert forall i :: 0 <= i < |[op]| ==> Benign([op][i], Missing(s, t));
  }

  lemma TickThen(s: Store, t: Store, d: nat, s1: Store, t1: Store, op: Op)
    requires Benign(op, Missing(s, t)) && !SameAnswers(s1, t1, [op])
    requires s1 == Step(s, Tick(d)).0 && t1 == Step(t, Tick(d)).0
    ensures !Indistinguishable(s, t)
  {
    var ops := [Tick(d), op];
    assert ops[0] == Tick(d) && ops[1..] == [op];
    assert !SameAnswers(s, t, ops);
    assert forall i :: 0 <= i < |ops| ==> Benign(ops[i], Missing(s, t));
  }

  lemma LostAccessShows(s: Store, k: Id)
    requires k in s.ats && AccessValid(s.ats[k], s.now) && !OwnersStay(s, s.ats[k].userId, s.ats[k].sessionId)
    ensures !Indistinguishable(s, Sweep(s))
  {
    assert k !in Sweep(s).ats;
    OneStep(s, Sweep(s), DoLookup(k));
  }

  lemma LostRefreshShows(s: Store, k: Id)
    requires k in s.rts && RefreshValid(s.rts[k], s.now)
    requires !OwnersStay(s, Some(s.rts[k].userId), Some(s.rts[k].sessionId))
    ensures !Indistinguishable(s, Sweep(s))
  {
    assert k !in Sweep(s).rts;
    assert Introspect(s, k, RefreshHint, false).Active?;
    OneStep(s, Sweep(s), DoIntrospect(k, RefreshHint, false));
  }

  lemma LostCodeShows(s: Store, k: Id)
    requires Referential(s) && k in s.codes && CodeValid(s.codes[k], s.now)
    requires !OwnersStay(s, Some(s.codes[k].userId), Some(s.codes[k].sessionId))
    ensures !Indistinguishable(s, Sweep(s))
  {
    var row := s.codes[k];
    var c := Client(row.clientId, false, {}, [], 0, 0);
    var verifier := if row.challenge.Some? then row.challenge.value else "";
    assert k !in Sweep(s).codes;
    assert CodeError(s, c, k, row.redirectUri, verifier).None?;
    assert RedeemCode(s, c, k, row.redirectUri, verifier, ANY_ENV).1.Issued?;
    assert RedeemCode(Sweep(s), c, k, row.redirectUri, verifier, ANY_ENV).1.Failed?;
    OneStep(s, Sweep(s), DoRedeemCode(c, k, row.redirectUri, verifier, ANY_ENV));
  }

  // When the throttle of a device code opens.
  function Opens(d: DeviceCode, now: Time): nat {
    if d.lastPolledAt.Some? && d.lastPolledAt.value + d.intervalSecs * SECOND > now
    then d.lastPolledAt.value + d.intervalSecs * SECOND - now else 0
  }

  lemma LiveDeviceIssues(s: Store, c: Client, k: Id)
    requires Referential(s) && k in s.devices && c.id == s.devices[k].clientId
    requires ThrottleError(s, c, k).None?
    requires s.devices[k].status == Authorized && s.devices[k].userId.Some? && s.devices[k].sessionId.Some?
    ensures PollDevice(s, c, k, ANY_ENV).1.Issued?
  {
  }

  lemma LostDeviceShows(s: Store, k: Id)
    requires Referential(s) && k in s.devices && DeviceLive(s.devices[k], s.now)
    requires !OwnersStay(s, s.devices[k].userId, s.devices[k].sessionId)
    ensures !Indistinguishable(s, Sweep(s))
  {
    var row := s.devices[k];
    var c := Client(row.clientId, false, {}, [], 0, 0);
    var wait := Opens(row, s.now);
    var s1, t1 := Step(s, Tick(wait)).0, Step(Sweep(s), Tick(wait)).0;
    assert k !in t1.devices;
    LiveDeviceIssues(s1, c, k);
    OneStep(s1, t1, DoPoll(c, k, ANY_ENV));
    TickThen(s, Sweep(s), wait, s1, t1, DoPoll(c, k, ANY_ENV));
  }

  // No run of grants, approvals, exchanges, polls, lookups, introspections,
  // revocations, key reloads and further sweeps can tell whether the sweep ran,
  // if and only if no row that can still be accepted belongs to a session or a
  // user that the sweep deletes.
  lemma SweepInvisibleIff(s: Store)
    requires Revoking.Sound(s)
    ensures Indistinguishable(s, Sweep(s)) <==> LiveRowsKept(s)
  {
    if LiveRowsKept(s) {
      SweepInvisible(s);
    } else if k :| k in s.ats && AccessValid(s.ats[k], s.now)
                   && !OwnersStay(s, s.ats[k].userId, s.ats[k].sessionId) {
      LostAccessShows(s, k);
    } else if k :| k in s.rts && RefreshValid(s.rts[k], s.now)
                   && !OwnersStay(s, Some(s.rts[k].userId), Some(s.rts[k].sessionId)) {
      LostRefreshShows(s, k);
    } else if k :| k in s.codes && CodeValid(s.codes[k], s.now)
                   && !OwnersStay(s, Some(s.codes[k].userId), Some(s.codes[k].sessionId)) {
      LostCodeShows(s, k);
    } else if k :| k in s.devices && DeviceLive(s.devices[k], s.now)
                   && !OwnersStay(s, s.devices[k].userId, s.devices[k].sessionId) {
      LostDeviceShows(s, k);
    }
  }

  // Sessions do expire before the tokens issued under them: a refresh token
  // lives for the client's refresh TTL counted from its own issue.
  function ShortSession(c: Client, sessionTTL: nat): seq<Op> {
    [AddUser, DoGrant(c.id, 0, "", [], None, None, SECOND, sessionTTL, CodeOnly),
     DoRedeemCode(c, 2, "", "", ANY_ENV), Tick(sessionTTL + 1)]
  }

  lemma ShortSessionRun(c: Client, sessionTTL: nat) returns (s: Store)
    requires !c.isPublic
    ensures s == Run(Empty, ShortSession(c, sessionTTL))
    ensures s.now == sessionTTL + 1 && 4 in s.rts && 1 in s.sessions
    ensures s.rts[4].expiresAt == c.refreshTTL * SECOND && s.rts[4].sessionId == 1
    ensures !s.rts[4].revoked && s.rts[4].rotatedAt.None?
    ensures s.sessions[1].expiresAt == sessionTTL
  {
    var ops := ShortSession(c, sessionTTL);
    var s1 := Step(Empty, ops[0]).0;
    var s2 := Step(s1, ops[1]).0;
    assert 2 in s2.codes && CodeError(s2, c, 2, "", "").None?;
    var s3 := Step(s2, ops[2]).0;
    s := Step(s3, ops[3]).0;
    assert ops[1..][0] == ops[1] && ops[1..][1..] == ops[2..];
    assert ops[2..][0] == ops[2] && ops[2..][1..] == ops[3..];
    assert ops[3..][0] == ops[3] && ops[3..][1..] == [];
    assert Run(s3, ops[3..]) == Run(s, []);
    assert Run(s2, ops[2..]) == Run(s3, ops[3..]);
    assert Run(s1, ops[1..]) == Run(s2, ops[2..]);
  }

  // Whenever a client's refresh tokens outlive the session, there is a run
  // after which the sweep ends a refresh chain that was still good.
  lemma SweepCanEndLiveChain(c: Client, sessionTTL: nat)
    requires !c.isPublic && sessionTTL < c.refreshTTL * SECOND
    ensures var s := Run(Empty, ShortSession(c, sessionTTL));
            4 in s.rts && RefreshValid(s.rts[4], s.now) && 4 !in Sweep(s).rts
            && !Indistinguishable(s, Sweep(s))
  {
    var s := ShortSessionRun(c, sessionTTL);
    assert SessionDoomed(s.sessions[1], s.now);
    LostRefreshShows(s, 4);
  }

  // ---------------------------------------------------------------------
  // What a sweep takes
  // ---------------------------------------------------------------------

  // Past its expiry, or revoked for longer than the day it is kept.
  predicate Stale(expiresAt: Time, revoked: bool, since: Time, now: Time) {
    expiresAt < now || (revoked && since < now - DAY)
  }

  // The user is due for purging, or the session stale or its user so due.
  ghost predicate OwnerGone(s: Store, userId: Option<Id>, sessionId: Option<Id>) {
    || (userId.Some? && userId.value in s.users && s.users[userId.value].purgeAfter.Some?
        && s.users[userId.value].purgeAfter.value < s.now)
    || (sessionId.Some? && sessionId.value in s.sessions
        && var x := s.sessions[sessionId.value];
           Stale(x.expiresAt, x.revoked, x.revokedAt, s.now)
           || (x.userId in s.users && s.users[x.userId].purgeAfter.Some? && s.users[x.userId].purgeAfter.value < s.now))
  }

  lemma OwnersStayIff(s: Store, userId: Option<Id>, sessionId: Option<Id>)
    requires SessionsOwned(s.users, s.sessions) && Owned(s.users, s.sessions, userId, sessionId)
    ensures OwnersStay(s, userId, sessionId) <==> !OwnerGone(s, userId, sessionId)
  {
  }

  // A sweep takes exactly the rows that are stale and those whose user or
  // session it takes; the tokens that stay are as they were, but for a link to
  // a refresh token that went.
  lemma SweepTakesStale(s: Store, k: Id)
    requires Inv(s)
    ensures k in s.ats ==>
              (k !in Sweep(s).ats <==> Stale(s.ats[k].expiresAt, s.ats[k].revoked, s.ats[k].createdAt, s.now) ||
                                       OwnerGone(s, s.ats[k].userId, s.ats[k].sessionId))
    ensures k in s.rts ==>
              (k !in Sweep(s).rts <==> Stale(s.rts[k].expiresAt, s.rts[k].revoked, s.rts[k].createdAt, s.now) ||
                                       OwnerGone(s, Some(s.rts[k].userId), Some(s.rts[k].sessionId)))
    ensures k in s.codes ==>
              (k !in Sweep(s).codes <==> s.codes[k].expiresAt < s.now ||
                                         OwnerGone(s, Some(s.codes[k].userId), Some(s.codes[k].sessionId)))
    ensures k in s.devices ==>
              (k !in Sweep(s).devices <==> s.devices[k].expiresAt < s.now ||
                                           OwnerGone(s, s.devices[k].userId, s.devices[k].sessionId))
    ensures k in s.denied ==> (k !in Sweep(s).denied <==> s.denied[k] < s.now)
    ensures k in Sweep(s).rts ==> Sweep(s).rts[k] == s.rts[k]
    ensures k in Sweep(s).ats ==>
              Sweep(s).ats[k] == s.ats[k] ||
              (Sweep(s).ats[k] == s.ats[k].(refreshId := None) && s.ats[k].refreshId.Some? &&
               s.ats[k].refreshId.value !in Sweep(s).rts)
  {
    if k in s.ats { OwnersStayIff(s, s.ats[k].userId, s.ats[k].sessionId); }
    if k in s.rts { OwnersStayIff(s, Some(s.rts[k].userId), Some(s.rts[k].sessionId)); }
    if k in s.codes { OwnersStayIff(s, Some(s.codes[k].userId), Some(s.codes[k].sessionId)); }
    if k in s.devices { OwnersStayIff(s, s.devices[k].userId, s.devices[k].sessionId); }
    if k in Sweep(s).ats { SweptLink(s, k); }
  }
}
