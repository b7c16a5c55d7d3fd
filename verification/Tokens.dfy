// The token and grant tables, and what each endpoint does to them.
//
// A Store is one snapshot of the tables. Every endpoint is a total function
// from a snapshot, its arguments and the answers of the services it consults
// to a new snapshot and an outcome. TokenService.dfy holds the step-by-step
// code, proved equal to these functions.
module TokenStore {
  import opened Basics
  import opened ScopeLists

  // ---------------------------------------------------------------------
  // Rows
  // ---------------------------------------------------------------------

  datatype AuthCode = AuthCode(clientId: Id, userId: Id, redirectUri: string, scopes: Scopes,
                               challenge: Option<string>, sessionId: Id, audience: Option<string>,
                               expiresAt: Time, used: bool)

  datatype AccessToken = AccessToken(clientId: Id, userId: Option<Id>, sessionId: Option<Id>,
                                     refreshId: Option<Id>, scopes: Scopes, audience: Option<string>,
                                     jti: Option<Id>, expiresAt: Time, revoked: bool, createdAt: Time)

  datatype RefreshToken = RefreshToken(clientId: Id, userId: Id, sessionId: Id, scopes: Scopes,
                                       audience: Option<string>, familyId: Id, expiresAt: Time,
                                       revoked: bool, rotatedAt: Option<Time>, createdAt: Time)

  datatype DeviceStatus = Pending | Denied | Authorized | Consumed

  datatype DeviceCode = DeviceCode(clientId: Id, scopes: Scopes, userId: Option<Id>, sessionId: Option<Id>,
                                   status: DeviceStatus, intervalSecs: int, expiresAt: Time,
                                   lastPolledAt: Option<Time>)

  datatype Session = Session(userId: Id, expiresAt: Time, revoked: bool, revokedAt: Time)

  datatype User = User(purgeAfter: Option<Time>)

  // The claims of a JWT access token this server has signed.
  datatype Jwt = Jwt(kid: Id, jti: Id, clientId: Id, userId: Option<Id>, scopes: Scopes,
                     audience: Option<string>, exp: Time)

  // What was granted under an identifier, and the grant it was exchanged for.
  // No table holds this: it is the history that statements about runs need.
  datatype Entry = Entry(parent: Option<Id>, clientId: Id, userId: Option<Id>, sessionId: Option<Id>,
                         audience: Option<string>, scopes: Scopes)

  // codes .. denied are tables. minted is the set of JWTs the server signed,
  // keys the verification keys in memory. log and issuedWith are history:
  // the entry of every code, device code and refresh token, and the entry
  // each access token was issued with. Identifiers below next are taken.
  datatype Store = Store(now: Time, next: Id,
                         codes: map<Id, AuthCode>, ats: map<Id, AccessToken>, rts: map<Id, RefreshToken>,
                         devices: map<Id, DeviceCode>, sessions: map<Id, Session>, users: map<Id, User>,
                         denied: map<Id, Time>, minted: map<Id, Jwt>, keys: set<Id>,
                         log: map<Id, Entry>, issuedWith: map<Id, Id>)

  const Empty: Store := Store(0, 0, map[], map[], map[], map[], map[], map[], map[], map[], {}, map[], map[])

  // ---------------------------------------------------------------------
  // Arguments and outcomes
  // ---------------------------------------------------------------------

  datatype GrantType = AuthorizationCode | RefreshGrant | CredentialsGrant | DeviceGrant | OtherGrant(name: string)

  datatype Client = Client(id: Id, isPublic: bool, grantTypes: set<GrantType>, scopes: Scopes,
                           accessTTL: int, refreshTTL: int)

  // The answer of a policy evaluation; a failed evaluation reads as NoVerdict.
  datatype Verdict = Verdict(deny: bool, accessTTL: Option<int>, refreshTTL: Option<int>,
                             scopes: Option<set<string>>)

  const NoVerdict := Verdict(false, None, None, None)

  // perms are the permission names the resource declares.
  datatype Resource = Resource(perms: Scopes, jwt: bool, accessTTL: int)

  datatype Signer = Absent | Failing | Signs(kid: Id)

  // What issuing a token pair reads: the token_issuance policies, the resource
  // registered for the audience, the permissions on it that the user's roles
  // carry (None when that query fails), and the signer.
  datatype Env = Env(verdict: Verdict, resource: Option<Resource>, userPerms: Option<Scopes>, signer: Signer)

  datatype Error = InvalidGrant | InvalidRequest | InvalidScope | NotFound | AccessDenied
                 | UnauthorizedClient | ServerError | ExpiredToken | SlowDown | AuthorizationPending

  datatype Outcome = Failed(error: Error)
                   | Issued(access: Id, refresh: Option<Id>, scopes: Scopes, expiresIn: int)
                   | Started(id: Id)
                   | Done

  datatype TokenType = Bearer | Refresh

  // The token_type_hint parameter.
  datatype Hint = NoHint | AccessHint | RefreshHint | OtherHint

  datatype Introspection = Inactive
                         | Active(tokenType: TokenType, clientId: Id, userId: Option<Id>, scopes: Scopes,
                                  audience: Option<string>, exp: int)

  // What completing an authorization request with a response_type holding
  // "token" adds; the client lookup it needs may fail.
  datatype Hybrid = CodeOnly | WithToken(ttl: int) | ClientGone

  // ---------------------------------------------------------------------
  // Row predicates and table updates
  // ---------------------------------------------------------------------

  predicate CodeValid(c: AuthCode, now: Time) { !c.used && c.expiresAt > now }

  predicate AccessValid(t: AccessToken, now: Time) { !t.revoked && t.expiresAt > now }

  predicate RefreshValid(t: RefreshToken, now: Time) {
    !t.revoked && t.rotatedAt.None? && !(t.expiresAt < now)
  }

  predicate HasPKCE(c: AuthCode) { c.challenge.Some? && c.challenge.value != "" }

  // An injective digest, written as the identity.
  function S256(verifier: string): string { verifier }

  predicate VerifyPKCE(verifier: string, challenge: string) { S256(verifier) == challenge }

  function RevokeByRefresh(ats: map<Id, AccessToken>, refreshId: Id): map<Id, AccessToken> {
    map k | k in ats :: if ats[k].refreshId == Some(refreshId) then ats[k].(revoked := true) else ats[k]
  }

  function RevokeBySession(ats: map<Id, AccessToken>, sessionId: Id): map<Id, AccessToken> {
    map k | k in ats :: if ats[k].sessionId == Some(sessionId) then ats[k].(revoked := true) else ats[k]
  }

  function RevokeFamily(rts: map<Id, RefreshToken>, familyId: Id): map<Id, RefreshToken> {
    map k | k in rts :: if rts[k].familyId == familyId then rts[k].(revoked := true) else rts[k]
  }

  // ---------------------------------------------------------------------
  // Issuing
  // ---------------------------------------------------------------------

  function NarrowByPolicy(scopes: Scopes, verdict: Verdict): Scopes {
    match verdict.scopes
    case None => scopes
    case Some(allowed) => Filter(scopes, allowed)
  }

  // Only scopes that name a permission of the resource are subject to RBAC.
  function NarrowByRoles(scopes: Scopes, resource: Option<Resource>, userPerms: Option<Scopes>): Scopes {
    if resource.None? then scopes
    else
      var perms := Elements(resource.value.perms);
      var subjectToRoles := Filter(scopes, perms);
      if subjectToRoles == [] || userPerms.None? then scopes
      else Union(Filter(scopes, Elements(scopes) - perms), Filter(userPerms.value, Elements(subjectToRoles)))
  }

  function ResourceFor(audience: Option<string>, env: Env): Option<Resource> {
    if audience.Some? then env.resource else None
  }

  function GrantedScopes(scopes: Scopes, audience: Option<string>, env: Env): Scopes {
    NarrowByRoles(NarrowByPolicy(scopes, env.verdict), ResourceFor(audience, env), env.userPerms)
  }

  function OrElse<T>(o: Option<T>, default: T): T {
    if o.Some? then o.value else default
  }

  predicate UsesJwt(audience: Option<string>, env: Env) {
    ResourceFor(audience, env).Some? && env.resource.value.jwt && env.signer != Absent
  }

  function AccessTTL(c: Client, audience: Option<string>, env: Env): int {
    var r := ResourceFor(audience, env);
    if r.Some? && r.value.accessTTL > 0 then r.value.accessTTL
    else OrElse(env.verdict.accessTTL, c.accessTTL)
  }

  function RefreshTTL(c: Client, env: Env): int { OrElse(env.verdict.refreshTTL, c.refreshTTL) }

  // The exp claim: whole seconds.
  function JwtExp(expiresAt: Time): Time { expiresAt / SECOND * SECOND }

  // Why a token pair cannot be issued.
  function IssueError(s: Store, userId: Id, sessionId: Id, audience: Option<string>, env: Env): Option<Error> {
    if env.verdict.deny then Some(AccessDenied)
    else if UsesJwt(audience, env) && env.signer == Failing then Some(ServerError)
    else if sessionId !in s.sessions || userId !in s.users then Some(ServerError)
    else None
  }

  function CodeEntry(c: AuthCode): Entry {
    Entry(None, c.clientId, Some(c.userId), Some(c.sessionId), c.audience, c.scopes)
  }

  function DeviceEntry(d: DeviceCode): Entry {
    Entry(None, d.clientId, None, None, None, d.scopes)
  }

  function RefreshEntry(parent: Option<Id>, t: RefreshToken): Entry {
    Entry(parent, t.clientId, Some(t.userId), Some(t.sessionId), t.audience, t.scopes)
  }

  // Store a refresh token at s.next + 1, exchanged for origin, with its access
  // token at s.next; s.next + 2 and s.next + 3 are its family and the jti.
  function AddPair(s: Store, origin: Id, row: RefreshToken, at: AccessToken, jwt: Option<Jwt>): Store {
    s.(next := s.next + 4,
       rts := s.rts[s.next + 1 := row],
       ats := s.ats[s.next := at],
       minted := if jwt.Some? then s.minted[s.next := jwt.value] else s.minted,
       log := s.log[s.next + 1 := RefreshEntry(Some(origin), row)],
       issuedWith := s.issuedWith[s.next := s.next + 1])
  }

  function NewRefresh(s: Store, c: Client, userId: Id, sessionId: Id, scopes: Scopes, audience: Option<string>,
                      env: Env): RefreshToken
  {
    RefreshToken(c.id, userId, sessionId, scopes, audience, s.next + 2, s.now + RefreshTTL(c, env) * SECOND,
                 false, None, s.now)
  }

  function NewAccess(s: Store, c: Client, row: RefreshToken, env: Env): AccessToken {
    AccessToken(c.id, Some(row.userId), Some(row.sessionId), Some(s.next + 1), row.scopes, row.audience,
                if UsesJwt(row.audience, env) then Some(s.next + 3) else None,
                s.now + AccessTTL(c, row.audience, env) * SECOND, false, s.now)
  }

  function SignedClaims(t: AccessToken, jti: Id, signer: Signer): Option<Jwt> {
    if t.jti.Some? && signer.Signs?
    then Some(Jwt(signer.kid, jti, t.clientId, t.userId, t.scopes, t.audience, JwtExp(t.expiresAt)))
    else None
  }

  // Issue a token pair for the grant logged under origin.
  function Issue(s: Store, c: Client, userId: Id, sessionId: Id, scopes: Scopes, audience: Option<string>,
                 origin: Id, env: Env): (Store, Outcome)
  {
    var e := IssueError(s, userId, sessionId, audience, env);
    if e.Some? then (s, Failed(e.value))
    else
      var rt := NewRefresh(s, c, userId, sessionId, GrantedScopes(scopes, audience, env), audience, env);
      var at := NewAccess(s, c, rt, env);
      (AddPair(s, origin, rt, at, SignedClaims(at, s.next + 3, env.signer)),
       Issued(s.next, Some(s.next + 1), rt.scopes, AccessTTL(c, audience, env)))
  }

  function AddSession(s: Store, x: Session): Store {
    s.(next := s.next + 1, sessions := s.sessions[s.next := x])
  }

  function AddCode(s: Store, row: AuthCode): Store {
    s.(next := s.next + 1, codes := s.codes[s.next := row], log := s.log[s.next := CodeEntry(row)])
  }

  // An access token handed out together with a code.
  function AddHybrid(s: Store, code: Id, t: AccessToken): Store {
    s.(next := s.next + 1, ats := s.ats[s.next := t], issuedWith := s.issuedWith[s.next := code])
  }

  // Completing an authorization request: a session and a code for it.
  function Grant(s: Store, clientId: Id, userId: Id, redirectUri: string, scopes: Scopes,
                 challenge: Option<string>, audience: Option<string>, codeTTL: int, sessionTTL: int,
                 hybrid: Hybrid): (Store, Outcome)
  {
    if userId !in s.users then (s, Failed(ServerError))
    else
      var session, code := s.next, s.next + 1;
      var s1 := AddCode(AddSession(s, Session(userId, s.now + sessionTTL, false, 0)),
                        AuthCode(clientId, userId, redirectUri, scopes, challenge, session, audience,
                                 s.now + codeTTL, false));
      match hybrid
      case CodeOnly => (s1, Started(code))
      case ClientGone => (s1, Failed(ServerError))
      case WithToken(ttl) =>
        (AddHybrid(s1, code, AccessToken(clientId, Some(userId), Some(session), None, scopes, audience, None,
                                         s.now + ttl * SECOND, false, s.now)),
         Started(code))
  }

  // ---------------------------------------------------------------------
  // The token endpoint
  // ---------------------------------------------------------------------

  function CodeError(s: Store, c: Client, code: Id, redirectUri: string, verifier: string): Option<Error> {
    if code !in s.codes || !CodeValid(s.codes[code], s.now) then Some(InvalidGrant)
    else
      var row := s.codes[code];
      if row.clientId != c.id || row.redirectUri != redirectUri then Some(InvalidGrant)
      else if HasPKCE(row) then
        if verifier == "" || !VerifyPKCE(verifier, row.challenge.value) then Some(InvalidGrant) else None
      else if c.isPublic then Some(InvalidRequest)
      else None
  }

  function RedeemCode(s: Store, c: Client, code: Id, redirectUri: string, verifier: string, env: Env)
    : (Store, Outcome)
  {
    var e := CodeError(s, c, code, redirectUri, verifier);
    if e.Some? then (s, Failed(e.value))
    else
      var row := s.codes[code];
      var (s1, out) := Issue(s.(codes := s.codes[code := row.(used := true)]), c, row.userId, row.sessionId,
                             row.scopes, row.audience, code, env);
      if out.Failed? then (s, out) else (s1, out)
  }

  // The scopes a refresh asks for and gets, or why it gets none.
  function RefreshScopes(held: Scopes, requested: Scopes, verdict: Verdict): (r: (Option<Error>, Scopes)) {
    var wanted := if requested == [] then held else Filter(requested, Elements(held));
    if requested != [] && wanted == [] then (Some(InvalidScope), [])
    else if verdict.deny then (Some(AccessDenied), [])
    else
      var narrowed := NarrowByPolicy(wanted, verdict);
      if verdict.scopes.Some? && narrowed == [] then (Some(AccessDenied), []) else (None, narrowed)
  }

  function RefreshError(s: Store, c: Client, rt: Id, requested: Scopes, verdict: Verdict): Option<Error> {
    if RefreshGrant !in c.grantTypes then Some(UnauthorizedClient)
    else if rt !in s.rts || s.rts[rt].clientId != c.id || !RefreshValid(s.rts[rt], s.now) then Some(InvalidGrant)
    else RefreshScopes(s.rts[rt].scopes, requested, verdict).0
  }

  function RedeemRefresh(s: Store, c: Client, rt: Id, requested: Scopes, verdict: Verdict, env: Env)
    : (Store, Outcome)
  {
    var e := RefreshError(s, c, rt, requested, verdict);
    if e.Some? then (s, Failed(e.value))
    else
      var row := s.rts[rt];
      var (s1, out) := Issue(s.(rts := s.rts[rt := row.(rotatedAt := Some(s.now))],
                                ats := RevokeByRefresh(s.ats, rt)),
                             c, row.userId, row.sessionId, RefreshScopes(row.scopes, requested, verdict).1,
                             row.audience, rt, env);
      if out.Failed? then (s, out) else (s1, out)
  }

  // clientPerms are the permissions on the resource granted to the client.
  function CredentialScopes(c: Client, requested: Scopes, audience: Option<string>, clientPerms: Scopes): Scopes {
    if audience.Some? then Filter(clientPerms, Elements(requested)) else ClientScopes(c.scopes, requested)
  }

  function CredentialError(c: Client, requested: Scopes, audience: Option<string>, clientPerms: Scopes, env: Env)
    : Option<Error>
  {
    if c.isPublic || CredentialsGrant !in c.grantTypes then Some(UnauthorizedClient)
    else if audience.Some? && env.resource.None? then Some(NotFound)
    else if audience.Some? && CredentialScopes(c, requested, audience, clientPerms) == [] then Some(InvalidScope)
    else if UsesJwt(audience, env) && env.signer == Failing then Some(ServerError)
    else None
  }

  function ClientCredentials(s: Store, c: Client, requested: Scopes, audience: Option<string>,
                             clientPerms: Scopes, env: Env): (Store, Outcome)
  {
    var e := CredentialError(c, requested, audience, clientPerms, env);
    if e.Some? then (s, Failed(e.value))
    else
      var scopes := CredentialScopes(c, requested, audience, clientPerms);
      var ttl := if audience.Some? then env.resource.value.accessTTL else c.accessTTL;
      var at, jti, jwt := s.next, s.next + 1, UsesJwt(audience, env);
      var expiresAt := s.now + ttl * SECOND;
      (s.(next := s.next + 2,
          ats := s.ats[at := AccessToken(c.id, None, None, None, scopes, audience,
                                         if jwt then Some(jti) else None, expiresAt, false, s.now)],
          minted := if jwt && env.signer.Signs?
                    then s.minted[at := Jwt(env.signer.kid, jti, c.id, None, scopes, audience, JwtExp(expiresAt))]
                    else s.minted),
       Issued(at, None, scopes, ttl))
  }

  // ---------------------------------------------------------------------
  // Device codes
  // ---------------------------------------------------------------------

  const POLL_INTERVAL_SECS := 5

  function InitDevice(s: Store, c: Client, requested: Scopes, ttl: int): (Store, Outcome) {
    if DeviceGrant !in c.grantTypes then (s, Failed(UnauthorizedClient))
    else
      var scopes := ClientScopes(c.scopes, requested);
      (s.(next := s.next + 1,
          devices := s.devices[s.next := DeviceCode(c.id, scopes, None, None, Pending, POLL_INTERVAL_SECS,
                                                    s.now + ttl, None)],
          log := s.log[s.next := Entry(None, c.id, None, None, None, scopes)]),
       Started(s.next))
  }

  function ApproveError(s: Store, device: Id, userId: Id, approved: bool, policyDenies: bool): Option<Error> {
    if device !in s.devices then Some(InvalidGrant)
    else if s.devices[device].expiresAt < s.now then Some(ExpiredToken)
    else if s.devices[device].status != Pending then Some(InvalidGrant)
    else if approved && userId in s.users && policyDenies then Some(AccessDenied)
    else if approved && userId !in s.users then Some(ServerError)
    else None
  }

  function ApproveDevice(s: Store, device: Id, userId: Id, approved: bool, policyDenies: bool, sessionTTL: int)
    : (Store, Outcome)
  {
    var e := ApproveError(s, device, userId, approved, policyDenies);
    if e.Some? then (s, Failed(e.value))
    else if !approved then
      (s.(devices := s.devices[device := s.devices[device].(status := Denied)]), Done)
    else
      var s1 := AddSession(s, Session(userId, s.now + sessionTTL, false, 0));
      (s1.(devices := s.devices[device := s.devices[device].(status := Authorized, userId := Some(userId),
                                                             sessionId := Some(s.next))]),
       Done)
  }

  predicate Throttled(d: DeviceCode, now: Time) {
    d.lastPolledAt.Some? && now - d.lastPolledAt.value < d.intervalSecs * SECOND
  }

  // A poll that does not get past the throttle writes nothing.
  function ThrottleError(s: Store, c: Client, device: Id): Option<Error> {
    if device !in s.devices || s.devices[device].clientId != c.id then Some(InvalidGrant)
    else if s.devices[device].expiresAt < s.now then Some(ExpiredToken)
    else if Throttled(s.devices[device], s.now) then Some(SlowDown)
    else None
  }

  function PollDevice(s: Store, c: Client, device: Id, env: Env): (Store, Outcome) {
    var e := ThrottleError(s, c, device);
    if e.Some? then (s, Failed(e.value))
    else
      var row := s.devices[device].(lastPolledAt := Some(s.now));
      var s1 := s.(devices := s.devices[device := row]);
      match row.status
      case Pending => (s1, Failed(AuthorizationPending))
      case Denied => (s1, Failed(AccessDenied))
      case Consumed => (s1, Failed(InvalidGrant))
      case Authorized =>
        if row.userId.None? || row.sessionId.None? then (s1, Failed(InvalidGrant))
        else
          var (s2, out) := Issue(s1, c, row.userId.value, row.sessionId.value, row.scopes, None, device, env);
          if out.Failed? then (s1, out)
          else (s2.(devices := s2.devices[device := row.(status := Consumed)]), out)
  }

  // ---------------------------------------------------------------------
  // Lookup, introspection, revocation
  // ---------------------------------------------------------------------

  predicate LookupActive(s: Store, token: Id) {
    token in s.ats && AccessValid(s.ats[token], s.now)
  }

  // Signed by a key in memory, and not expired.
  predicate JwtVerifies(s: Store, token: Id) {
    token in s.minted && s.minted[token].kid in s.keys && s.now < s.minted[token].exp
  }

  predicate JtiRevoked(s: Store, jti: Id) {
    jti in s.denied && s.denied[jti] > s.now
  }

  predicate MayBeAccess(hint: Hint) { hint == NoHint || hint == AccessHint }

  predicate MayBeRefresh(hint: Hint) { hint == NoHint || hint == RefreshHint }

  // denies: an introspect policy denies the requesting client.
  function Introspect(s: Store, token: Id, hint: Hint, denies: bool): Introspection {
    if MayBeAccess(hint) && JwtVerifies(s, token) then
      var j := s.minted[token];
      if JtiRevoked(s, j.jti) || denies then Inactive
      else Active(Bearer, j.clientId, j.userId, j.scopes, j.audience, j.exp / SECOND)
    else if MayBeAccess(hint) && token in s.ats then
      var t := s.ats[token];
      if !AccessValid(t, s.now) || denies then Inactive
      else Active(Bearer, t.clientId, t.userId, t.scopes, t.audience, t.expiresAt / SECOND)
    else if MayBeRefresh(hint) && token in s.rts then
      var t := s.rts[token];
      if !RefreshValid(t, s.now) || denies then Inactive
      else Active(Refresh, t.clientId, Some(t.userId), t.scopes, t.audience, t.expiresAt / SECOND)
    else Inactive
  }

  function RevokeRows(s: Store, token: Id, hint: Hint, c: Client): Store {
    if MayBeRefresh(hint) && token in s.rts then
      if s.rts[token].clientId != c.id then s
      else s.(rts := RevokeFamily(s.rts, s.rts[token].familyId),
              ats := RevokeBySession(s.ats, s.rts[token].sessionId))
    else if MayBeAccess(hint) && token in s.ats && s.ats[token].clientId == c.id then
      s.(ats := s.ats[token := s.ats[token].(revoked := true)])
    else s
  }

  function Revoke(s: Store, token: Id, hint: Hint, c: Client): Store {
    if MayBeAccess(hint) && JwtVerifies(s, token) then
      var j := s.minted[token];
      if j.clientId != c.id then s
      else if j.jti in s.denied then RevokeRows(s, token, hint, c)
      else RevokeRows(s.(denied := s.denied[j.jti := j.exp]), token, hint, c)
    else RevokeRows(s, token, hint, c)
  }

  // Revoking writes three tables and no more.
  ghost predicate TouchesTokens(s: Store, s': Store) {
    s'.now == s.now && s'.next == s.next && s'.log == s.log && s'.devices == s.devices && s'.codes == s.codes
  }

  lemma RevokeRowsTouchesTokens(s: Store, token: Id, hint: Hint, c: Client)
    ensures TouchesTokens(s, RevokeRows(s, token, hint, c))
  {
    if MayBeRefresh(hint) && token in s.rts {
      if s.rts[token].clientId != c.id {
        assert RevokeRows(s, token, hint, c) == s;
      } else {
        var rts, ats := RevokeFamily(s.rts, s.rts[token].familyId), RevokeBySession(s.ats, s.rts[token].sessionId);
        assert RevokeRows(s, token, hint, c) == s.(rts := rts, ats := ats);
      }
    } else if MayBeAccess(hint) && token in s.ats && s.ats[token].clientId == c.id {
      var ats := s.ats[token := s.ats[token].(revoked := true)];
      assert RevokeRows(s, token, hint, c) == s.(ats := ats);
    } else {
      assert RevokeRows(s, token, hint, c) == s;
    }
  }

  lemma RevokeTouchesTokens(s: Store, token: Id, hint: Hint, c: Client)
    ensures TouchesTokens(s, Revoke(s, token, hint, c))
  {
    if MayBeAccess(hint) && JwtVerifies(s, token) {
      var j := s.minted[token];
      if j.clientId != c.id {
      } else if j.jti in s.denied {
        RevokeRowsTouchesTokens(s, token, hint, c);
      } else {
        RevokeRowsTouchesTokens(s.(denied := s.denied[j.jti := j.exp]), token, hint, c);
      }
    } else {
      RevokeRowsTouchesTokens(s, token, hint, c);
    }
  }

  // ---------------------------------------------------------------------
  // The sweep. Foreign keys from every grant table to users and sessions are
  // ON DELETE CASCADE; the one from access to refresh tokens is SET NULL.
  // ---------------------------------------------------------------------

  const GRACE: int := DAY

  predicate UserDoomed(u: User, now: Time) { u.purgeAfter.Some? && u.purgeAfter.value < now }

  predicate SessionDoomed(x: Session, now: Time) {
    x.expiresAt < now || (x.revoked && x.revokedAt < now - GRACE)
  }

  predicate AccessDoomed(t: AccessToken, now: Time) {
    t.expiresAt < now || (t.revoked && t.createdAt < now - GRACE)
  }

  predicate RefreshDoomed(t: RefreshToken, now: Time) {
    t.expiresAt < now || (t.revoked && t.createdAt < now - GRACE)
  }

  predicate UserStays(s: Store, u: Id) { u in s.users && !UserDoomed(s.users[u], s.now) }

  predicate SessionStays(s: Store, x: Id) {
    x in s.sessions && !SessionDoomed(s.sessions[x], s.now) && UserStays(s, s.sessions[x].userId)
  }

  predicate OwnersStay(s: Store, userId: Option<Id>, sessionId: Option<Id>) {
    (userId.Some? ==> UserStays(s, userId.value)) && (sessionId.Some? ==> SessionStays(s, sessionId.value))
  }

  predicate RefreshStays(s: Store, t: RefreshToken) {
    !RefreshDoomed(t, s.now) && OwnersStay(s, Some(t.userId), Some(t.sessionId))
  }

  predicate AccessStays(s: Store, t: AccessToken) {
    !AccessDoomed(t, s.now) && OwnersStay(s, t.userId, t.sessionId)
  }

  predicate CodeStays(s: Store, c: AuthCode) {
    !(c.expiresAt < s.now) && OwnersStay(s, Some(c.userId), Some(c.sessionId))
  }

  predicate DeviceStays(s: Store, d: DeviceCode) {
    !(d.expiresAt < s.now) && OwnersStay(s, d.userId, d.sessionId)
  }

  function Unlinked(t: AccessToken, refreshStays: bool): AccessToken {
    if refreshStays then t else t.(refreshId := None)
  }

  function Sweep(s: Store): Store {
    s.(users := map u | u in s.users && UserStays(s, u) :: s.users[u],
       sessions := map x | x in s.sessions && SessionStays(s, x) :: s.sessions[x],
       rts := map r | r in s.rts && RefreshStays(s, s.rts[r]) :: s.rts[r],
       ats := map a | a in s.ats && AccessStays(s, s.ats[a]) ::
                Unlinked(s.ats[a], s.ats[a].refreshId.Some? && s.ats[a].refreshId.value in s.rts &&
                                   RefreshStays(s, s.rts[s.ats[a].refreshId.value])),
       codes := map c | c in s.codes && CodeStays(s, s.codes[c]) :: s.codes[c],
       devices := map d | d in s.devices && DeviceStays(s, s.devices[d]) :: s.devices[d],
       denied := map j | j in s.denied && !(s.denied[j] < s.now) :: s.denied[j])
  }

  // ---------------------------------------------------------------------
  // Runs
  // ---------------------------------------------------------------------

  datatype Op =
    | Tick(elapsed: nat)
    | AddUser
    | SchedulePurge(user: Id, purgeAfter: Option<Time>)
    | RevokeSession(session: Id)
    | LoadKeys(keys: set<Id>)
    | DoGrant(clientId: Id, user: Id, redirectUri: string, scopes: Scopes, challenge: Option<string>,
              audience: Option<string>, codeTTL: int, sessionTTL: int, hybrid: Hybrid)
    | DoRedeemCode(client: Client, code: Id, redirectUri: string, verifier: string, env: Env)
    | DoRefresh(client: Client, rt: Id, requested: Scopes, verdict: Verdict, env: Env)
    | DoCredentials(client: Client, requested: Scopes, audience: Option<string>, clientPerms: Scopes, env: Env)
    | DoInitDevice(client: Client, requested: Scopes, ttl: int)
    | DoApprove(device: Id, user: Id, approved: bool, policyDenies: bool, sessionTTL: int)
    | DoPoll(client: Client, device: Id, env: Env)
    | DoLookup(token: Id)
    | DoIntrospect(token: Id, hint: Hint, denies: bool)
    | DoRevoke(token: Id, hint: Hint, client: Client)
    | DoSweep

  datatype Answer = Quiet | Token(outcome: Outcome) | Found(active: bool) | Info(info: Introspection)

  function Step(s: Store, op: Op): (Store, Answer) {
    match op
    case Tick(d) => (s.(now := s.now + d), Quiet)
    case AddUser => (s.(next := s.next + 1, users := s.users[s.next := User(None)]), Quiet)
    case SchedulePurge(u, at) =>
      (if u in s.users then s.(users := s.users[u := User(at)]) else s, Quiet)
    case RevokeSession(x) =>
      (if x in s.sessions && !s.sessions[x].revoked
       then s.(sessions := s.sessions[x := s.sessions[x].(revoked := true, revokedAt := s.now)]) else s, Quiet)
    case LoadKeys(keys) => (s.(keys := keys), Quiet)
    case DoGrant(c, u, uri, scopes, ch, aud, codeTTL, sessionTTL, hybrid) =>
      var (s', out) := Grant(s, c, u, uri, scopes, ch, aud, codeTTL, sessionTTL, hybrid); (s', Token(out))
    case DoRedeemCode(c, code, uri, verifier, env) =>
      var (s', out) := RedeemCode(s, c, code, uri, verifier, env); (s', Token(out))
    case DoRefresh(c, rt, requested, verdict, env) =>
      var (s', out) := RedeemRefresh(s, c, rt, requested, verdict, env); (s', Token(out))
    case DoCredentials(c, requested, audience, perms, env) =>
      var (s', out) := ClientCredentials(s, c, requested, audience, perms, env); (s', Token(out))
    case DoInitDevice(c, requested, ttl) =>
      var (s', out) := InitDevice(s, c, requested, ttl); (s', Token(out))
    case DoApprove(d, u, approved, denies, ttl) =>
      var (s', out) := ApproveDevice(s, d, u, approved, denies, ttl); (s', Token(out))
    case DoPoll(c, d, env) =>
      var (s', out) := PollDevice(s, c, d, env); (s', Token(out))
    case DoLookup(t) => (s, Found(LookupActive(s, t)))
    case DoIntrospect(t, hint, denies) => (s, Info(Introspect(s, t, hint, denies)))
    case DoRevoke(t, hint, c) => (Revoke(s, t, hint, c), Quiet)
    case DoSweep => (Sweep(s), Quiet)
  }

  function Run(s: Store, ops: seq<Op>): Store
    decreases |ops|
  {
    if ops == [] then s else Run(Step(s, ops[0]).0, ops[1..])
  }

  lemma {:induction false} RunSnoc(s: Store, ops: seq<Op>)
    requires ops != []
    ensures Run(s, ops) == Step(Run(s, ops[..|ops| - 1]), ops[|ops| - 1]).0
    decreases |ops|
  {
    if |ops| == 1 {
      assert ops[..0] == [] && ops[1..] == [];
      assert Run(s, ops) == Run(Step(s, ops[0]).0, []);
    } else {
      RunSnoc(Step(s, ops[0]).0, ops[1..]);
      assert ops[..|ops| - 1][1..] == ops[1..][..|ops| - 2];
    }
  }
}
