// The device flow over whole runs of the token store.
module DeviceFlow {
  import opened Basics
  import opened ScopeLists
  import opened TokenStore
  import Lineage

  // One step of a device code's status, as the code takes it.
  predicate Moves(a: DeviceStatus, b: DeviceStatus) {
    a == b || (a == Pending && (b == Denied || b == Authorized)) || (a == Authorized && b == Consumed)
  }

  // Any number of them.
  predicate Leads(a: DeviceStatus, b: DeviceStatus) {
    a == b || a == Pending || (a == Authorized && b == Consumed)
  }

  predicate PolledSince(a: Option<Time>, b: Option<Time>) {
    a.Some? ==> b.Some? && a.value <= b.value
  }

  predicate SameTerms(a: DeviceCode, b: DeviceCode) {
    a.clientId == b.clientId && a.scopes == b.scopes && a.intervalSecs == b.intervalSecs &&
    a.expiresAt == b.expiresAt
  }

  // From one step to the next, for rows that are not new.
  ghost predicate StepsTo(next: Id, a: map<Id, DeviceCode>, b: map<Id, DeviceCode>) {
    forall k :: k in b && k < next ==>
      k in a && SameTerms(a[k], b[k]) && Moves(a[k].status, b[k].status) &&
      PolledSince(a[k].lastPolledAt, b[k].lastPolledAt)
  }

  // From one point of a run to any later one.
  ghost predicate RunsTo(next: Id, a: map<Id, DeviceCode>, b: map<Id, DeviceCode>) {
    forall k :: k in b && k < next ==>
      k in a && SameTerms(a[k], b[k]) && Leads(a[k].status, b[k].status) &&
      PolledSince(a[k].lastPolledAt, b[k].lastPolledAt)
  }

  // Rows carry the interval the endpoint announces, and no poll is later than now.
  ghost predicate Announced(now: Time, next: Id, devices: map<Id, DeviceCode>) {
    forall k :: k in devices ==>
      k < next && devices[k].intervalSecs == POLL_INTERVAL_SECS &&
      (devices[k].lastPolledAt.Some? ==> devices[k].lastPolledAt.value <= now)
  }

  ghost predicate Ok(s: Store) { Announced(s.now, s.next, s.devices) }

  ghost predicate Advanced(s: Store, s': Store) {
    StepsTo(s.next, s.devices, s'.devices) && Ok(s') && s.now <= s'.now && s.next <= s'.next
  }

  lemma IssueLeavesDevices(s: Store, c: Client, userId: Id, sessionId: Id, scopes: Scopes,
                           audience: Option<string>, origin: Id, env: Env)
    ensures var s' := Issue(s, c, userId, sessionId, scopes, audience, origin, env).0;
            s'.devices == s.devices && s'.now == s.now && s.next <= s'.next
  {
    if IssueError(s, userId, sessionId, audience, env).Some? {} else {}
  }

  lemma RedeemCodeAdvanced(s: Store, c: Client, code: Id, redirectUri: string, verifier: string, env: Env)
    requires Ok(s)
    ensures Advanced(s, RedeemCode(s, c, code, redirectUri, verifier, env).0)
  {
    if CodeError(s, c, code, redirectUri, verifier).Some? {
    } else {
      var row := s.codes[code];
      IssueLeavesDevices(s.(codes := s.codes[code := row.(used := true)]), c, row.userId, row.sessionId, row.scopes,
                         row.audience, code, env);
    }
  }

  lemma RedeemRefreshAdvanced(s: Store, c: Client, rt: Id, requested: Scopes, verdict: Verdict, env: Env)
    requires Ok(s)
    ensures Advanced(s, RedeemRefresh(s, c, rt, requested, verdict, env).0)
  {
    if RefreshError(s, c, rt, requested, verdict).Some? {
    } else {
      var row := s.rts[rt];
      IssueLeavesDevices(s.(rts := s.rts[rt := row.(rotatedAt := Some(s.now))], ats := RevokeByRefresh(s.ats, rt)),
                         c, row.userId, row.sessionId, RefreshScopes(row.scopes, requested, verdict).1,
                         row.audience, rt, env);
    }
  }

  // What a poll that gets past the throttle does to the row.
  lemma PollRow(s: Store, c: Client, device: Id, env: Env)
    requires ThrottleError(s, c, device).None?
    ensures var (s', out) := PollDevice(s, c, device, env);
            var row := s.devices[device].(lastPolledAt := Some(s.now));
            s'.now == s.now && s.next <= s'.next &&
            s'.devices == s.devices[device := if out.Issued? then row.(status := Consumed) else row] &&
            (out.Issued? ==> row.status == Authorized)
  {
    var row := s.devices[device].(lastPolledAt := Some(s.now));
    var s1 := s.(devices := s.devices[device := row]);
    match row.status
    case Pending =>
    case Denied =>
    case Consumed =>
    case Authorized =>
      if row.userId.None? || row.sessionId.None? {
      } else {
        IssueLeavesDevices(s1, c, row.userId.value, row.sessionId.value, row.scopes, None, device, env);
      }
  }

  lemma PollAdvanced(s: Store, c: Client, device: Id, env: Env)
    requires Ok(s)
    ensures Advanced(s, PollDevice(s, c, device, env).0)
  {
    if ThrottleError(s, c, device).Some? {
    } else {
      PollRow(s, c, device, env);
      var s' := PollDevice(s, c, device, env).0;
      assert forall k :: k in s'.devices && k != device ==> k in s.devices && s'.devices[k] == s.devices[k];
    }
  }

  lemma ApproveAdvanced(s: Store, device: Id, userId: Id, approved: bool, denies: bool, ttl: int)
    requires Ok(s)
    ensures Advanced(s, ApproveDevice(s, device, userId, approved, denies, ttl).0)
  {
    if ApproveError(s, device, userId, approved, denies).Some? {} else if !approved {} else {}
  }

  lemma InitAdvanced(s: Store, c: Client, requested: Scopes, ttl: int)
    requires Ok(s)
    ensures Advanced(s, InitDevice(s, c, requested, ttl).0)
  {
    if DeviceGrant !in c.grantTypes {} else {}
  }

  lemma CredentialsAdvanced(s: Store, c: Client, requested: Scopes, audience: Option<string>, perms: Scopes, env: Env)
    requires Ok(s)
    ensures Advanced(s, ClientCredentials(s, c, requested, audience, perms, env).0)
  {
    if CredentialError(c, requested, audience, perms, env).Some? {} else {}
  }

  lemma GrantAdvanced(s: Store, clientId: Id, userId: Id, uri: string, scopes: Scopes, challenge: Option<string>,
                      audience: Option<string>, codeTTL: int, sessionTTL: int, hybrid: Hybrid)
    requires Ok(s)
    ensures Advanced(s, Grant(s, clientId, userId, uri, scopes, challenge, audience, codeTTL, sessionTTL, hybrid).0)
  {
    if userId !in s.users {} else {
      match hybrid
      case CodeOnly =>
      case ClientGone =>
      case WithToken(ttl) =>
    }
  }

  lemma QuietAdvanced(s: Store, op: Op)
    requires Ok(s)
    requires op.Tick? || op.AddUser? || op.SchedulePurge? || op.RevokeSession? || op.LoadKeys? || op.DoLookup? ||
             op.DoIntrospect?
    ensures Advanced(s, Step(s, op).0)
  {
    assert Step(s, op).0.devices == s.devices;
  }

  lemma SweepAdvanced(s: Store)
    requires Ok(s)
    ensures Advanced(s, Sweep(s))
  {
  }

  lemma GrantsAdvanced(s: Store, op: Op)
    requires Ok(s) && (op.DoGrant? || op.DoRedeemCode? || op.DoRefresh? || op.DoCredentials? || op.DoRevoke?)
    ensures Advanced(s, Step(s, op).0)
  {
    match op
    case DoGrant(c, u, uri, scopes, ch, aud, codeTTL, sessionTTL, hybrid) =>
      GrantAdvanced(s, c, u, uri, scopes, ch, aud, codeTTL, sessionTTL, hybrid);
    case DoRedeemCode(c, code, uri, verifier, env) => RedeemCodeAdvanced(s, c, code, uri, verifier, env);
    case DoRefresh(c, rt, requested, verdict, env) => RedeemRefreshAdvanced(s, c, rt, requested, verdict, env);
    case DoCredentials(c, requested, audience, perms, env) =>
      CredentialsAdvanced(s, c, requested, audience, perms, env);
    case DoRevoke(t, hint, c) => RevokeTouchesTokens(s, t, hint, c);
  }

  lemma StepAdvanced(s: Store, op: Op)
    requires Ok(s)
    ensures Advanced(s, Step(s, op).0)
  {
    match op
    case DoInitDevice(c, requested, ttl) => InitAdvanced(s, c, requested, ttl);
    case DoApprove(d, u, approved, denies, ttl) => ApproveAdvanced(s, d, u, approved, denies, ttl);
    case DoPoll(c, d, env) => PollAdvanced(s, c, d, env);
    case DoGrant(_, _, _, _, _, _, _, _, _) => GrantsAdvanced(s, op);
    case DoRedeemCode(_, _, _, _, _) => GrantsAdvanced(s, op);
    case DoRefresh(_, _, _, _, _) => GrantsAdvanced(s, op);
    case DoCredentials(_, _, _, _, _) => GrantsAdvanced(s, op);
    case DoRevoke(_, _, _) => GrantsAdvanced(s, op);
    case DoSweep => SweepAdvanced(s);
    case _ => QuietAdvanced(s, op);
  }

  // Over a run, a device code's status only moves from pending to denied or
  // on through authorized to consumed, its terms never change, and a code
  // that was swept stays gone.
  lemma {:induction false} StatusOnlyMovesOn(s: Store, ops: seq<Op>)
    requires Ok(s)
    ensures RunsTo(s.next, s.devices, Run(s, ops).devices)
    ensures Ok(Run(s, ops)) && s.next <= Run(s, ops).next && s.now <= Run(s, ops).now
    decreases |ops|
  {
    if ops != [] {
      var s1 := Step(s, ops[0]).0;
      StepAdvanced(s, ops[0]);
      StatusOnlyMovesOn(s1, ops[1..]);
    }
  }

  lemma EveryRunIsOk(ops: seq<Op>)
    ensures Ok(Run(Empty, ops))
  {
    StatusOnlyMovesOn(Empty, ops);
  }

  // ---------------------------------------------------------------------
  // Tokens at most once
  // ---------------------------------------------------------------------

  predicate Yields(s: Store, op: Op, device: Id) {
    op.DoPoll? && op.device == device && Step(s, op).1.outcome.Issued?
  }

  // How often a run hands out tokens for a device code.
  function Yield(s: Store, ops: seq<Op>, device: Id): (n: nat)
    decreases |ops|
  {
    if ops == [] then 0
    else (if Yields(s, ops[0], device) then 1 else 0) + Yield(Step(s, ops[0]).0, ops[1..], device)
  }

  predicate Spent(s: Store, device: Id) {
    device < s.next && (device !in s.devices || s.devices[device].status in {Denied, Consumed})
  }

  lemma YieldNeedsAuthorized(s: Store, op: Op, device: Id)
    requires Ok(s)
    ensures Yields(s, op, device) ==> !Spent(s, device) && Spent(Step(s, op).0, device)
    ensures Spent(s, device) ==> Spent(Step(s, op).0, device)
  {
    StepAdvanced(s, op);
    if Yields(s, op, device) {
      if ThrottleError(s, op.client, device).Some? {} else { PollRow(s, op.client, device, op.env); }
    }
  }

  lemma {:induction false} DeviceYieldsOnce(s: Store, ops: seq<Op>, device: Id)
    requires Ok(s)
    ensures Yield(s, ops, device) <= 1
    ensures Spent(s, device) ==> Yield(s, ops, device) == 0
    decreases |ops|
  {
    if ops != [] {
      YieldNeedsAuthorized(s, ops[0], device);
      StepAdvanced(s, ops[0]);
      DeviceYieldsOnce(Step(s, ops[0]).0, ops[1..], device);
    }
  }

  // ---------------------------------------------------------------------
  // The throttle
  // ---------------------------------------------------------------------

  // Two polls of one device code that get past the throttle, with any run
  // between them, are at least the announced interval apart.
  lemma PollsAreSpaced(s: Store, c: Client, env: Env, ops: seq<Op>, c': Client, device: Id)
    requires Ok(s)
    requires ThrottleError(s, c, device).None?
    requires ThrottleError(Run(PollDevice(s, c, device, env).0, ops), c', device).None?
    ensures Run(PollDevice(s, c, device, env).0, ops).now - s.now >= POLL_INTERVAL_SECS * SECOND
  {
    PollRow(s, c, device, env);
    PollAdvanced(s, c, device, env);
    StatusOnlyMovesOn(PollDevice(s, c, device, env).0, ops);
  }

  // ---------------------------------------------------------------------
  // Refusals and approvals
  // ---------------------------------------------------------------------

  // What a poll that gets past the throttle answers.
  lemma PollAnswers(s: Store, c: Client, device: Id, env: Env)
    requires ThrottleError(s, c, device).None?
    ensures var out, status := PollDevice(s, c, device, env).1, s.devices[device].status;
            && (out == Failed(AuthorizationPending) <==> status == Pending)
            && (status == Denied ==> out == Failed(AccessDenied))
            && (status == Consumed ==> out == Failed(InvalidGrant))
            && (out.Issued? ==> status == Authorized)
  {
  }

  // A refused code never yields tokens, and its client is told so: over every
  // later run no poll is answered with tokens, and every poll of its client
  // that gets past the throttle ends in access_denied (section 3.5 of RFC 8628).
  lemma DenialIsFinal(s: Store, device: Id, userId: Id, denies: bool, ttl: int, ops: seq<Op>, t: Store, c: Client,
                      env: Env, later: seq<Op>)
    requires Ok(s) && ApproveDevice(s, device, userId, false, denies, ttl).1 == Done
    requires t == Run(ApproveDevice(s, device, userId, false, denies, ttl).0, ops)
    ensures ThrottleError(t, c, device).None? ==> PollDevice(t, c, device, env).1 == Failed(AccessDenied)
    ensures Yield(t, later, device) == 0
  {
    var denied := ApproveDevice(s, device, userId, false, denies, ttl).0;
    ApproveAdvanced(s, device, userId, false, denies, ttl);
    StatusOnlyMovesOn(denied, ops);
    DeviceYieldsOnce(t, later, device);
  }

  // Whoever approved the code, with the session opened for it.
  predicate Approves(s: Store, op: Op, device: Id, userId: Id, sessionId: Id) {
    && op.DoApprove? && op.device == device && op.user == userId && op.approved && !op.policyDenies
    && userId in s.users && device in s.devices && s.devices[device].status == Pending
    && !(s.devices[device].expiresAt < s.now) && sessionId == s.next
  }

  // An authorized row was so before, for the same user, or op approved it.
  ghost predicate AuthorizedBy(s: Store, op: Op, t: Store) {
    forall d :: d in t.devices && t.devices[d].status == Authorized ==>
      && t.devices[d].userId.Some? && t.devices[d].sessionId.Some?
      && (|| (d in s.devices && s.devices[d].status == Authorized && s.devices[d].userId == t.devices[d].userId
              && s.devices[d].sessionId == t.devices[d].sessionId)
          || Approves(s, op, d, t.devices[d].userId.value, t.devices[d].sessionId.value))
  }

  // Authorized rows have an owner.
  ghost predicate Owned(devices: map<Id, DeviceCode>) {
    forall d :: d in devices && devices[d].status == Authorized ==> devices[d].userId.Some? && devices[d].sessionId.Some?
  }

  lemma ApproveAuthorizes(s: Store, op: Op)
    requires Owned(s.devices) && op.DoApprove?
    ensures AuthorizedBy(s, op, Step(s, op).0)
  {
    if ApproveError(s, op.device, op.user, op.approved, op.policyDenies).Some? {
    } else if !op.approved {
    } else {
    }
  }

  lemma PollAuthorizesNone(s: Store, op: Op)
    requires Owned(s.devices) && op.DoPoll?
    ensures AuthorizedBy(s, op, Step(s, op).0)
  {
    if ThrottleError(s, op.client, op.device).Some? {
    } else {
      PollRow(s, op.client, op.device, op.env);
    }
  }

  // Rows of the device table stay, go or are new and pending.
  ghost predicate DevicesKept(s: Store, t: Store) {
    forall d :: d in t.devices ==> (d in s.devices && t.devices[d] == s.devices[d]) || t.devices[d].status == Pending
  }

  lemma InitKeepsDevices(s: Store, c: Client, requested: Scopes, ttl: int)
    ensures DevicesKept(s, InitDevice(s, c, requested, ttl).0)
  {
    if DeviceGrant !in c.grantTypes {} else {}
  }

  lemma CredentialsKeepDevices(s: Store, c: Client, requested: Scopes, audience: Option<string>, perms: Scopes,
                               env: Env)
    ensures ClientCredentials(s, c, requested, audience, perms, env).0.devices == s.devices
  {
    if CredentialError(c, requested, audience, perms, env).Some? {} else {}
  }

  lemma GrantKeepsDevices(s: Store, clientId: Id, userId: Id, uri: string, scopes: Scopes, challenge: Option<string>,
                          audience: Option<string>, codeTTL: int, sessionTTL: int, hybrid: Hybrid)
    ensures Grant(s, clientId, userId, uri, scopes, challenge, audience, codeTTL, sessionTTL, hybrid).0.devices ==
            s.devices
  {
    if userId in s.users {
      match hybrid
      case CodeOnly =>
      case ClientGone =>
      case WithToken(ttl) =>
    }
  }

  lemma CodeKeepsDevices(s: Store, c: Client, code: Id, redirectUri: string, verifier: string, env: Env)
    ensures RedeemCode(s, c, code, redirectUri, verifier, env).0.devices == s.devices
  {
    if CodeError(s, c, code, redirectUri, verifier).None? {
      var row := s.codes[code];
      IssueLeavesDevices(s.(codes := s.codes[code := row.(used := true)]), c, row.userId, row.sessionId, row.scopes,
                         row.audience, code, env);
    }
  }

  lemma RefreshKeepsDevices(s: Store, c: Client, rt: Id, requested: Scopes, verdict: Verdict, env: Env)
    ensures RedeemRefresh(s, c, rt, requested, verdict, env).0.devices == s.devices
  {
    if RefreshError(s, c, rt, requested, verdict).None? {
      var row := s.rts[rt];
      IssueLeavesDevices(s.(rts := s.rts[rt := row.(rotatedAt := Some(s.now))], ats := RevokeByRefresh(s.ats, rt)),
                         c, row.userId, row.sessionId, RefreshScopes(row.scopes, requested, verdict).1,
                         row.audience, rt, env);
    }
  }

  lemma GrantsKeepDevices(s: Store, op: Op)
    requires op.DoGrant? || op.DoRedeemCode? || op.DoRefresh? || op.DoCredentials? || op.DoRevoke?
    ensures Step(s, op).0.devices == s.devices
  {
    match op
    case DoGrant(c, u, uri, scopes, ch, aud, codeTTL, sessionTTL, hybrid) =>
      GrantKeepsDevices(s, c, u, uri, scopes, ch, aud, codeTTL, sessionTTL, hybrid);
    case DoRedeemCode(c, code, uri, verifier, env) => CodeKeepsDevices(s, c, code, uri, verifier, env);
    case DoRefresh(c, rt, requested, verdict, env) => RefreshKeepsDevices(s, c, rt, requested, verdict, env);
    case DoCredentials(c, requested, audience, perms, env) =>
      CredentialsKeepDevices(s, c, requested, audience, perms, env);
    case DoRevoke(t, hint, c) => RevokeTouchesTokens(s, t, hint, c);
  }

  lemma QuietKeepsDevices(s: Store, op: Op)
    requires op.Tick? || op.AddUser? || op.SchedulePurge? || op.RevokeSession? || op.LoadKeys? || op.DoLookup? ||
             op.DoIntrospect? || op.DoSweep?
    ensures DevicesKept(s, Step(s, op).0)
  {
  }

  lemma StepAuthorizes(s: Store, op: Op)
    requires Owned(s.devices)
    ensures AuthorizedBy(s, op, Step(s, op).0)
  {
    match op
    case DoApprove(_, _, _, _, _) => ApproveAuthorizes(s, op);
    case DoPoll(_, _, _) => PollAuthorizesNone(s, op);
    case DoInitDevice(c, requested, ttl) => InitKeepsDevices(s, c, requested, ttl);
    case DoGrant(_, _, _, _, _, _, _, _, _) => GrantsKeepDevices(s, op);
    case DoRedeemCode(_, _, _, _, _) => GrantsKeepDevices(s, op);
    case DoRefresh(_, _, _, _, _) => GrantsKeepDevices(s, op);
    case DoCredentials(_, _, _, _, _) => GrantsKeepDevices(s, op);
    case DoRevoke(_, _, _) => GrantsKeepDevices(s, op);
    case _ => QuietKeepsDevices(s, op);
  }

  lemma {:induction false} EveryRunOwns(ops: seq<Op>)
    ensures Owned(Run(Empty, ops).devices)
    decreases |ops|
  {
    if ops != [] {
      EveryRunOwns(ops[..|ops| - 1]);
      RunSnoc(Empty, ops);
      StepAuthorizes(Run(Empty, ops[..|ops| - 1]), ops[|ops| - 1]);
    }
  }

  // An authorized code was approved at some step of the run, by the user and
  // with the session its row names.
  lemma {:induction false} AuthorizationsAreApproved(ops: seq<Op>, s: Store, device: Id) returns (i: nat)
    requires s == Run(Empty, ops) && device in s.devices && s.devices[device].status == Authorized
    ensures i < |ops| && s.devices[device].userId.Some? && s.devices[device].sessionId.Some?
    ensures Approves(Run(Empty, ops[..i]), ops[i], device, s.devices[device].userId.value,
                     s.devices[device].sessionId.value)
    decreases |ops|
  {
    if ops == [] {
      assert false;
    } else {
      var before, op := ops[..|ops| - 1], ops[|ops| - 1];
      var t := Run(Empty, before);
      RunSnoc(Empty, ops);
      EveryRunOwns(before);
      StepAuthorizes(t, op);
      if device in t.devices && t.devices[device].status == Authorized
         && t.devices[device].userId == s.devices[device].userId
         && t.devices[device].sessionId == s.devices[device].sessionId
      {
        i := AuthorizationsAreApproved(before, t, device);
        assert before[..i] == ops[..i];
      } else {
        i := |ops| - 1;
      }
    }
  }

  // Tokens for a device code are issued only after a user approved it, no
  // policy objecting, and for that very user.
  lemma YieldsAreApproved(ops: seq<Op>, s: Store, c: Client, device: Id, env: Env) returns (i: nat)
    requires s == Run(Empty, ops) && PollDevice(s, c, device, env).1.Issued?
    ensures i < |ops|
    ensures var (t, out) := PollDevice(s, c, device, env);
            && out.refresh.Some? && out.refresh.value in t.rts && out.access in t.ats
            && var r, a := t.rts[out.refresh.value], t.ats[out.access];
               && Approves(Run(Empty, ops[..i]), ops[i], device, r.userId, r.sessionId)
               && a.userId == Some(r.userId) && a.sessionId == Some(r.sessionId)
               && r.clientId == c.id == s.devices[device].clientId && a.clientId == c.id
  {
    EveryRunOwns(ops);
    PollAnswers(s, c, device, env);
    i := AuthorizationsAreApproved(ops, s, device);
    IssuedForOwner(s, c, device, env);
  }

  lemma IssuedForOwner(s: Store, c: Client, device: Id, env: Env)
    requires PollDevice(s, c, device, env).1.Issued?
    requires device in s.devices && s.devices[device].userId.Some? && s.devices[device].sessionId.Some?
    ensures var (t, out) := PollDevice(s, c, device, env);
            && out.refresh.Some? && out.refresh.value in t.rts && out.access in t.ats
            && var r, a, d := t.rts[out.refresh.value], t.ats[out.access], s.devices[device];
               && d.userId == Some(r.userId) && d.sessionId == Some(r.sessionId)
               && a.userId == Some(r.userId) && a.sessionId == Some(r.sessionId)
               && r.clientId == c.id == d.clientId && a.clientId == c.id
  {
  }

  // A poll yields tokens exactly when the code is its client's, unexpired,
  // authorized and not polled again too soon, and no policy objects.
  lemma PollYieldsIff(ops: seq<Op>, s: Store, c: Client, device: Id, env: Env)
    requires s == Run(Empty, ops)
    ensures PollDevice(s, c, device, env).1.Issued? <==>
            && device in s.devices && !env.verdict.deny
            && var d := s.devices[device];
               && d.clientId == c.id && s.now <= d.expiresAt && d.status == Authorized
               && (d.lastPolledAt.Some? ==> s.now - d.lastPolledAt.value >= POLL_INTERVAL_SECS * SECOND)
  {
    EveryRunIsOk(ops);
    EveryRunOwns(ops);
    Lineage.Reachable(ops);
  }

  // A device flow starts exactly for a client with the grant: pending, for the
  // scopes it asked for among its own, or all of them, until the set expiry.
  lemma DeviceStartIff(s: Store, c: Client, requested: Scopes, ttl: int, x: string)
    ensures var (t, out) := InitDevice(s, c, requested, ttl);
            && (out.Started? <==> DeviceGrant in c.grantTypes)
            && (out.Started? ==>
                  && out.id in t.devices
                  && var d := t.devices[out.id];
                     && d.clientId == c.id && d.status == Pending && d.userId.None? && d.sessionId.None?
                     && d.expiresAt == s.now + ttl && d.lastPolledAt.None? && d.intervalSecs == POLL_INTERVAL_SECS
                     && (x in d.scopes <==> x in c.scopes && (requested == [] || x in requested)))
            && (!out.Started? ==> t == s)
  {
  }

  // A user's decision counts exactly while the code is pending and unexpired;
  // an approval opens a session of that user.
  lemma DecisionIff(s: Store, device: Id, userId: Id, approved: bool, denies: bool, ttl: int)
    ensures var (t, out) := ApproveDevice(s, device, userId, approved, denies, ttl);
            && (out == Done <==>
                  && device in s.devices && s.devices[device].status == Pending && s.now <= s.devices[device].expiresAt
                  && (approved ==> userId in s.users && !denies))
            && (out == Done && approved ==>
                  && t.devices[device] == s.devices[device].(status := Authorized, userId := Some(userId),
                                                             sessionId := t.devices[device].sessionId)
                  && t.devices[device].sessionId.Some? && t.devices[device].sessionId.value in t.sessions
                  && t.sessions[t.devices[device].sessionId.value] == Session(userId, s.now + ttl, false, 0))
            && (out != Done ==> t == s)
  {
  }
}
