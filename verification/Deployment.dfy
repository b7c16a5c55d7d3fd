// The token endpoints and the signing keys of one deployment together: tokens
// are signed with the active key, and /revoke reads them with the keys in the
// memory of the process.
module Deployment {
  import opened Basics
  import Keys = SigningKeys
  import Revoking = Revocation
  import Tokens = TokenStore

  datatype World = World(store: Tokens.Store, server: Keys.Server)

  const Initial: World := World(Tokens.Empty, Keys.Fresh)

  // Serve: a request to the process, if there is one. Manage: time, rotations,
  // crashes and restarts.
  datatype Op = Serve(request: Tokens.Op) | Manage(event: Keys.Op)

  function Elapsed(event: Keys.Op): nat { if event.Tick? then event.elapsed else 0 }

  function Step(w: World, op: Op): World {
    match op
    case Serve(request) => if w.server.up then World(Tokens.Step(w.store, request).0, w.server) else w
    case Manage(event) =>
      var server := Keys.Step(w.server, event);
      World(w.store.(now := w.store.now + Elapsed(event), keys := server.memory), server)
  }

  function Run(w: World, ops: seq<Op>): World
    decreases |ops|
  {
    if ops == [] then w else Run(Step(w, ops[0]), ops[1..])
  }

  // The environment a request that issues access tokens reads.
  function EnvOf(request: Tokens.Op): Option<Tokens.Env> {
    match request
    case DoRedeemCode(c, code, uri, verifier, env) => Some(env)
    case DoRefresh(c, rt, requested, verdict, env) => Some(env)
    case DoCredentials(c, requested, audience, perms, env) => Some(env)
    case DoPoll(c, device, env) => Some(env)
    case _ => None
  }

  const DAY_SECS := 86400

  // No lifetime a client, a policy or a resource sets exceeds a day.
  predicate ShortLived(c: Tokens.Client, env: Tokens.Env) {
    c.accessTTL <= DAY_SECS &&
    (env.verdict.accessTTL.Some? ==> env.verdict.accessTTL.value <= DAY_SECS) &&
    (env.resource.Some? ==> env.resource.value.accessTTL <= DAY_SECS)
  }

  // What a process asks of its own endpoints: it signs with its active key.
  predicate Serves(server: Keys.Server, request: Tokens.Op) {
    !request.Tick? && !request.LoadKeys? &&
    (EnvOf(request).Some? ==>
       ShortLived(request.client, EnvOf(request).value) &&
       (EnvOf(request).value.signer.Signs? ==> server.activeKey == Some(EnvOf(request).value.signer.kid)))
  }

  predicate Allowed(w: World, op: Op) {
    match op
    case Serve(request) => Serves(w.server, request)
    case Manage(event) => true
  }

  ghost predicate AllowedRun(w: World, ops: seq<Op>)
    decreases |ops|
  {
    ops == [] || (Allowed(w, ops[0]) && AllowedRun(Step(w, ops[0]), ops[1..]))
  }

  // Rotations finish or take the process down, and every start loads the keys.
  predicate Orderly(op: Op) { op.Manage? ==> Keys.Sound(op.event) }

  // ---------------------------------------------------------------------
  // What a request signs
  // ---------------------------------------------------------------------

  // A request leaves the clock and the keys alone, and what it signs, it signs
  // for at most a day with the key it was given.
  ghost predicate Signs(s: Tokens.Store, s': Tokens.Store, signer: Tokens.Signer) {
    && s'.now == s.now && s'.keys == s.keys
    && forall t :: t in s'.minted ==>
         || (t in s.minted && s'.minted[t] == s.minted[t])
         || (signer == Tokens.Signs(s'.minted[t].kid) && s'.minted[t].exp <= s.now + Keys.GRACE)
  }

  lemma ExpWithinADay(now: Time, ttl: int)
    requires ttl <= DAY_SECS
    ensures Tokens.JwtExp(now + ttl * SECOND) <= now + Keys.GRACE
  {
  }

  lemma IssueSigns(s: Tokens.Store, c: Tokens.Client, userId: Id, sessionId: Id, scopes: Scopes,
                   audience: Option<string>, origin: Id, env: Tokens.Env)
    requires ShortLived(c, env)
    ensures Signs(s, Tokens.Issue(s, c, userId, sessionId, scopes, audience, origin, env).0, env.signer)
  {
    if Tokens.IssueError(s, userId, sessionId, audience, env).Some? {
    } else {
      var granted := Tokens.GrantedScopes(scopes, audience, env);
      var rt := Tokens.NewRefresh(s, c, userId, sessionId, granted, audience, env);
      var at := Tokens.NewAccess(s, c, rt, env);
      ExpWithinADay(s.now, Tokens.AccessTTL(c, audience, env));
      PairSigns(s, origin, rt, at, Tokens.SignedClaims(at, s.next + 3, env.signer), env.signer);
    }
  }

  lemma PairSigns(s: Tokens.Store, origin: Id, row: Tokens.RefreshToken, at: Tokens.AccessToken,
                  jwt: Option<Tokens.Jwt>, signer: Tokens.Signer)
    requires jwt.Some? ==> signer == Tokens.Signs(jwt.value.kid) && jwt.value.exp <= s.now + Keys.GRACE
    ensures Signs(s, Tokens.AddPair(s, origin, row, at, jwt), signer)
  {
    if jwt.Some? {} else {}
  }

  lemma CodeSigns(s: Tokens.Store, c: Tokens.Client, code: Id, redirectUri: string, verifier: string, env: Tokens.Env)
    requires ShortLived(c, env)
    ensures Signs(s, Tokens.RedeemCode(s, c, code, redirectUri, verifier, env).0, env.signer)
  {
    if Tokens.CodeError(s, c, code, redirectUri, verifier).None? {
      var row := s.codes[code];
      IssueSigns(s.(codes := s.codes[code := row.(used := true)]), c, row.userId, row.sessionId, row.scopes,
                 row.audience, code, env);
    }
  }

  lemma RefreshSigns(s: Tokens.Store, c: Tokens.Client, rt: Id, requested: Scopes, verdict: Tokens.Verdict,
                     env: Tokens.Env)
    requires ShortLived(c, env)
    ensures Signs(s, Tokens.RedeemRefresh(s, c, rt, requested, verdict, env).0, env.signer)
  {
    if Tokens.RefreshError(s, c, rt, requested, verdict).None? {
      var row := s.rts[rt];
      var m := s.(rts := s.rts[rt := row.(rotatedAt := Some(s.now))], ats := Tokens.RevokeByRefresh(s.ats, rt));
      IssueSigns(m, c, row.userId, row.sessionId, Tokens.RefreshScopes(row.scopes, requested, verdict).1,
                 row.audience, rt, env);
    }
  }

  lemma CredentialsSign(s: Tokens.Store, c: Tokens.Client, requested: Scopes, audience: Option<string>,
                        perms: Scopes, env: Tokens.Env)
    requires ShortLived(c, env)
    ensures Signs(s, Tokens.ClientCredentials(s, c, requested, audience, perms, env).0, env.signer)
  {
    if Tokens.CredentialError(c, requested, audience, perms, env).None? {
      ExpWithinADay(s.now, if audience.Some? then env.resource.value.accessTTL else c.accessTTL);
      if Tokens.UsesJwt(audience, env) && env.signer.Signs? {} else {}
    }
  }

  lemma PollSigns(s: Tokens.Store, c: Tokens.Client, device: Id, env: Tokens.Env)
    requires ShortLived(c, env)
    ensures Signs(s, Tokens.PollDevice(s, c, device, env).0, env.signer)
  {
    if Tokens.ThrottleError(s, c, device).None? {
      var row := s.devices[device].(lastPolledAt := Some(s.now));
      var m := s.(devices := s.devices[device := row]);
      if row.status == Tokens.Authorized && row.userId.Some? && row.sessionId.Some? {
        IssueSigns(m, c, row.userId.value, row.sessionId.value, row.scopes, None, device, env);
      }
    }
  }

  ghost predicate SignsNothing(s: Tokens.Store, s': Tokens.Store) {
    s'.now == s.now && s'.keys == s.keys && s'.minted == s.minted
  }

  lemma RevokeSignsNothing(s: Tokens.Store, token: Id, hint: Tokens.Hint, c: Tokens.Client)
    ensures SignsNothing(s, Tokens.Revoke(s, token, hint, c))
  {
    Revoking.RevokeRowsMarks(s, token, hint, c);
    if Tokens.MayBeAccess(hint) && Tokens.JwtVerifies(s, token) {
      var j := s.minted[token];
      Revoking.RevokeRowsMarks(s.(denied := s.denied[j.jti := j.exp]), token, hint, c);
    }
  }

  lemma GrantSignsNothing(s: Tokens.Store, clientId: Id, userId: Id, redirectUri: string, scopes: Scopes,
                          challenge: Option<string>, audience: Option<string>, codeTTL: int, sessionTTL: int,
                          hybrid: Tokens.Hybrid)
    ensures SignsNothing(s, Tokens.Grant(s, clientId, userId, redirectUri, scopes, challenge, audience, codeTTL,
                                         sessionTTL, hybrid).0)
  {
    if userId in s.users {
      match hybrid
      case CodeOnly =>
      case ClientGone =>
      case WithToken(ttl) =>
    }
  }

  lemma InitDeviceSignsNothing(s: Tokens.Store, c: Tokens.Client, requested: Scopes, ttl: int)
    ensures SignsNothing(s, Tokens.InitDevice(s, c, requested, ttl).0)
  {
    if Tokens.DeviceGrant in c.grantTypes {} else {}
  }

  lemma ApproveSignsNothing(s: Tokens.Store, device: Id, userId: Id, approved: bool, denies: bool, ttl: int)
    ensures SignsNothing(s, Tokens.ApproveDevice(s, device, userId, approved, denies, ttl).0)
  {
    if Tokens.ApproveError(s, device, userId, approved, denies).Some? {
    } else if approved {
    } else {
    }
  }

  lemma SweepSignsNothing(s: Tokens.Store)
    ensures SignsNothing(s, Tokens.Sweep(s))
  {
  }

  lemma QuietSignsNothing(s: Tokens.Store, request: Tokens.Op)
    requires request.AddUser? || request.SchedulePurge? || request.RevokeSession? || request.DoLookup? ||
             request.DoIntrospect?
    ensures SignsNothing(s, Tokens.Step(s, request).0)
  {
    match request
    case AddUser =>
      assert Tokens.Step(s, request).0 == s.(next := s.next + 1, users := s.users[s.next := Tokens.User(None)]);
    case SchedulePurge(u, at) =>
      var users := if u in s.users then s.users[u := Tokens.User(at)] else s.users;
      assert Tokens.Step(s, request).0 == s.(users := users);
    case RevokeSession(x) =>
      var sessions := if x in s.sessions && !s.sessions[x].revoked
                      then s.sessions[x := s.sessions[x].(revoked := true, revokedAt := s.now)] else s.sessions;
      assert Tokens.Step(s, request).0 == s.(sessions := sessions);
    case DoLookup(t) => assert Tokens.Step(s, request).0 == s;
    case DoIntrospect(t, hint, denies) => assert Tokens.Step(s, request).0 == s;
  }

  function SignerOf(request: Tokens.Op): Tokens.Signer {
    if EnvOf(request).Some? then EnvOf(request).value.signer else Tokens.Absent
  }

  lemma RequestSigns(s: Tokens.Store, server: Keys.Server, request: Tokens.Op)
    requires Serves(server, request)
    ensures Signs(s, Tokens.Step(s, request).0, SignerOf(request))
  {
    match request
    case DoRedeemCode(c, code, uri, verifier, env) => CodeSigns(s, c, code, uri, verifier, env);
    case DoRefresh(c, rt, requested, verdict, env) => RefreshSigns(s, c, rt, requested, verdict, env);
    case DoCredentials(c, requested, audience, perms, env) => CredentialsSign(s, c, requested, audience, perms, env);
    case DoPoll(c, device, env) => PollSigns(s, c, device, env);
    case DoRevoke(t, hint, c) => RevokeSignsNothing(s, t, hint, c);
    case DoGrant(c, u, uri, scopes, ch, aud, codeTTL, sessionTTL, hybrid) =>
      GrantSignsNothing(s, c, u, uri, scopes, ch, aud, codeTTL, sessionTTL, hybrid);
    case DoInitDevice(c, requested, ttl) => InitDeviceSignsNothing(s, c, requested, ttl);
    case DoApprove(d, u, approved, denies, ttl) => ApproveSignsNothing(s, d, u, approved, denies, ttl);
    case DoSweep => SweepSignsNothing(s);
    case _ => QuietSignsNothing(s, request);
  }

  // ---------------------------------------------------------------------
  // Every unexpired JWT's key is loaded
  // ---------------------------------------------------------------------

  // The key of a signed token is kept and loaded as long as the token lives.
  ghost predicate Kept(server: Keys.Server, j: Tokens.Jwt) {
    j.exp <= server.now + Keys.GRACE && Keys.Outlives(server, j.kid, j.exp) && Keys.Honoured(server, j.kid, j.exp)
  }

  ghost predicate Inv(w: World) {
    && Revoking.Sound(w.store) && Keys.Inv(w.server) && Keys.Current(w.server)
    && w.store.now == w.server.now && w.store.keys == w.server.memory
    && forall t :: t in w.store.minted ==> Kept(w.server, w.store.minted[t])
  }

  lemma ServeKeeps(w: World, request: Tokens.Op)
    requires Inv(w) && Serves(w.server, request)
    ensures Inv(Step(w, Serve(request)))
  {
    if w.server.up {
      var s' := Tokens.Step(w.store, request).0;
      RequestSigns(w.store, w.server, request);
      Revoking.StepKeepsSound(w.store, request);
      forall t | t in s'.minted ensures Kept(w.server, s'.minted[t]) {
        if t in w.store.minted && s'.minted[t] == w.store.minted[t] {
        } else {
          assert w.server.activeKey == Some(s'.minted[t].kid);
        }
      }
    }
  }

  ghost predicate AllKept(server: Keys.Server, minted: map<Id, Tokens.Jwt>) {
    Keys.Inv(server) && Keys.Current(server) && forall t :: t in minted ==> Kept(server, minted[t])
  }

  lemma EventKeeps(server: Keys.Server, event: Keys.Op, minted: map<Id, Tokens.Jwt>)
    requires AllKept(server, minted) && Keys.Sound(event)
    ensures AllKept(Keys.Step(server, event), minted)
    ensures Keys.Step(server, event).now == server.now + Elapsed(event)
  {
    Keys.StepKeeps(server, event);
    Keys.StepStaysCurrent(server, event);
    forall t | t in minted ensures Kept(Keys.Step(server, event), minted[t]) {
      Keys.StepKeepsKey(server, event, minted[t].kid, minted[t].exp);
    }
  }

  lemma ManageKeeps(w: World, event: Keys.Op)
    requires Inv(w) && Keys.Sound(event)
    ensures Inv(Step(w, Manage(event)))
  {
    assert AllKept(w.server, w.store.minted);
    EventKeeps(w.server, event, w.store.minted);
    RetimedSound(w.store, Elapsed(event), Keys.Step(w.server, event).memory);
  }

  lemma RetimedSound(s: Tokens.Store, elapsed: nat, keys: set<Id>)
    requires Revoking.Sound(s)
    ensures Revoking.Sound(s.(now := s.now + elapsed, keys := keys))
  {
    var s1 := Tokens.Step(s, Tokens.Tick(elapsed)).0;
    Revoking.StepKeepsSound(s, Tokens.Tick(elapsed));
    Revoking.StepKeepsSound(s1, Tokens.LoadKeys(keys));
    assert Tokens.Step(s1, Tokens.LoadKeys(keys)).0 == s.(now := s.now + elapsed, keys := keys);
  }

  lemma {:induction false} RunKeeps(w: World, ops: seq<Op>)
    requires Inv(w) && AllowedRun(w, ops) && forall op :: op in ops ==> Orderly(op)
    ensures Inv(Run(w, ops))
    decreases |ops|
  {
    if ops != [] {
      assert Orderly(ops[0]);
      match ops[0] {
        case Serve(request) => ServeKeeps(w, request);
        case Manage(event) => ManageKeeps(w, event);
      }
      RunKeeps(Step(w, ops[0]), ops[1..]);
    }
  }

  lemma KeptIsRevocable(w: World, token: Id)
    requires Inv(w) && w.server.up
    ensures Revoking.Revocable(w.store, token)
  {
    if token in w.store.minted {
      assert Kept(w.server, w.store.minted[token]);
    }
  }

  lemma RevocationHolds(w: World, token: Id, hint: Tokens.Hint, c: Tokens.Client)
    requires Inv(w) && w.server.up && Revoking.OwnsAccess(w.store, token, c) && Tokens.MayBeAccess(hint)
    ensures Revoking.NeverReported(Tokens.Revoke(w.store, token, hint, c), token)
  {
    KeptIsRevocable(w, token);
    Revoking.RevocationIsPermanentIff(w.store, token, hint, c);
  }

  // Where rotations finish or take the process down, every start loads the keys
  // and no access token is to live for more than a day, a process can read
  // every unexpired token, so that an owner's revocation of an access token is
  // permanent without any condition.
  lemma RevocationIsUnconditional(ops: seq<Op>, w: World, token: Id, hint: Tokens.Hint, c: Tokens.Client)
    requires AllowedRun(Initial, ops) && (forall op :: op in ops ==> Orderly(op)) && w == Run(Initial, ops)
    requires w.server.up && Revoking.OwnsAccess(w.store, token, c) && Tokens.MayBeAccess(hint)
    ensures Revoking.NeverReported(Tokens.Revoke(w.store, token, hint, c), token)
  {
    InitialInv();
    RunKeeps(Initial, ops);
    RevocationHolds(w, token, hint, c);
  }

  lemma InitialInv()
    ensures Inv(Initial)
  {
  }

  // ---------------------------------------------------------------------
  // A start that does not load the keys
  // ---------------------------------------------------------------------

  const Api := Tokens.Resource(["read"], true, 3600)
  const Caller := Tokens.Client(7, false, {Tokens.CredentialsGrant}, [], 3600, 3600)
  const Environment := Tokens.Env(Tokens.NoVerdict, Some(Api), None, Tokens.Signs(0))
  const Ask := Tokens.DoCredentials(Caller, ["read"], Some("api"), ["read"], Environment)

  // A token is signed; the process starts anew and cannot load the keys; the
  // token is revoked; the next rotation loads them again.
  const Forgetful: seq<Op> := [Manage(Keys.Boot(Keys.Completes)), Serve(Ask), Manage(Keys.Crash),
                               Manage(Keys.Boot(Keys.ReloadFails))]

  const Recovery: seq<Op> := [Serve(Tokens.DoRevoke(0, Tokens.NoHint, Caller)), Manage(Keys.Rotate(Keys.Completes))]

  const Signed := Tokens.Jwt(0, 1, 7, None, ["read"], Some("api"), 3600 * SECOND)
  const Row := Tokens.AccessToken(7, None, None, None, ["read"], Some("api"), Some(1), 3600 * SECOND, false, 0)

  // The store once the token is signed, with the keys in memory and its row.
  function Holding(keys: set<Id>, row: Tokens.AccessToken): Tokens.Store {
    Tokens.Empty.(next := 2, ats := map[0 := row], minted := map[0 := Signed], keys := keys)
  }

  lemma AskSigns()
    ensures Tokens.Step(Tokens.Empty.(keys := {0}), Ask).0 == Holding({0}, Row)
  {
    assert Tokens.CredentialScopes(Caller, ["read"], Some("api"), ["read"]) == ["read"];
    assert Tokens.CredentialError(Caller, ["read"], Some("api"), ["read"], Environment).None?;
    assert Tokens.JwtExp(3600 * SECOND) == 3600 * SECOND;
  }

  lemma UnseenRevocation()
    ensures Tokens.Step(Holding({}, Row), Tokens.DoRevoke(0, Tokens.NoHint, Caller)).0 ==
            Holding({}, Row.(revoked := true))
  {
  }

  // The server, up with the one key it made at its first start.
  function Single(memory: set<Id>): Keys.Server {
    Keys.Server(0, 1, map[0 := Keys.Key(true, None)], true, Some(0), memory)
  }

  lemma Starts()
    ensures Keys.Step(Keys.Fresh, Keys.Boot(Keys.Completes)) == Single({0})
    ensures Keys.Step(Keys.Step(Single({0}), Keys.Crash), Keys.Boot(Keys.ReloadFails)) == Single({})
    ensures Keys.Step(Single({}), Keys.Rotate(Keys.Completes)).memory == {0, 1}
  {
    assert Keys.LatestActive(Keys.Fresh.rows, 0).None?;
    var down := Keys.Step(Single({0}), Keys.Crash);
    assert Keys.LatestActive(down.rows, 1) == Some(0);
    var rows := Keys.Deactivated(Single({}).rows, Keys.GRACE)[1 := Keys.Key(true, None)];
    assert rows == map[0 := Keys.Key(false, Some(Keys.GRACE)), 1 := Keys.Key(true, None)];
    assert Keys.AllValid(rows, 0) == {0, 1};
  }

  // The owner revokes a live token, and it is active again after the rotation.
  lemma RevokedTokenReturns()
    ensures AllowedRun(Initial, Forgetful + Recovery)
    ensures var w, token := Run(Initial, Forgetful), 0;
            w.server.up && Revoking.OwnsAccess(w.store, token, Caller) &&
            Tokens.Introspect(Run(w, Recovery).store, token, Tokens.NoHint, false).Active?
  {
    AskSigns();
    UnseenRevocation();
    Starts();
    var w1 := World(Tokens.Empty.(keys := {0}), Single({0}));
    var w2 := World(Holding({0}, Row), Single({0}));
    var w3 := World(Holding({}, Row), Keys.Step(Single({0}), Keys.Crash));
    var w4 := World(Holding({}, Row), Single({}));
    var w5 := World(Holding({}, Row.(revoked := true)), Single({}));
    var w6 := Step(w5, Recovery[1]);
    assert Step(Initial, Forgetful[0]) == w1;
    assert Step(w1, Forgetful[1]) == w2;
    assert Step(w2, Forgetful[2]) == w3;
    assert Step(w3, Forgetful[3]) == w4;
    assert Step(w4, Recovery[0]) == w5;
    RunFour(Initial, Forgetful, w1, w2, w3, w4);
    RunTwo(w4, Recovery, w5, w6);
    AllowedSix(w1, w2, w3, w4, w5);
  }

  lemma RunTwo(w: World, ops: seq<Op>, a: World, b: World)
    requires |ops| == 2 && Step(w, ops[0]) == a && Step(a, ops[1]) == b
    ensures Run(w, ops) == b
  {
    assert ops[1..][1..] == [];
    assert Run(a, ops[1..]) == Run(b, []);
  }

  lemma RunFour(w: World, ops: seq<Op>, a: World, b: World, c: World, d: World)
    requires |ops| == 4 && Step(w, ops[0]) == a && Step(a, ops[1]) == b && Step(b, ops[2]) == c && Step(c, ops[3]) == d
    ensures Run(w, ops) == d
  {
    RunTwo(b, ops[2..], c, d);
    assert ops[1..][1..] == ops[2..];
    assert Run(a, ops[1..]) == Run(b, ops[2..]);
  }

  lemma AllowedSix(w1: World, w2: World, w3: World, w4: World, w5: World)
    requires Step(Initial, Forgetful[0]) == w1 && Step(w1, Forgetful[1]) == w2 && Step(w2, Forgetful[2]) == w3
    requires Step(w3, Forgetful[3]) == w4 && Step(w4, Recovery[0]) == w5
    requires w1.server.activeKey == Some(0)
    ensures AllowedRun(Initial, Forgetful + Recovery)
  {
    var ops := Forgetful + Recovery;
    assert ops[1..][1..] == ops[2..] && ops[2..][1..] == ops[3..] && ops[3..][1..] == ops[4..];
    assert ops[4..][1..] == ops[5..] && ops[5..][1..] == [];
    assert AllowedRun(w5, ops[5..]);
    assert AllowedRun(w4, ops[4..]);
    assert AllowedRun(w3, ops[3..]);
    assert AllowedRun(w2, ops[2..]);
    assert AllowedRun(w1, ops[1..]);
  }
}
