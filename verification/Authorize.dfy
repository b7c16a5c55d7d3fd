// The authorization-request machine: every way to open, advance and complete
// an authorization request, on top of the token store that completing writes.
// AuthorizeService.dfy holds the step-by-step code, proved equal to these
// functions; AuthorizeRuns.dfy proves what every run of them keeps.
module Authorization {
  import opened Basics
  import opened ScopeLists
  import TS = TokenStore

  datatype ResponseType = CodeResponse | CodeIdToken | CodeToken | CodeIdTokenToken | Unsupported

  datatype Prompt = NoPrompt | SilentPrompt | LoginPrompt | ConsentPrompt | SelectPrompt | BadPrompt

  datatype ClientInfo = ClientInfo(active: bool, isPublic: bool, requirePKCE: bool, codeGrant: bool, firstParty: bool,
                                   redirectUris: set<string>, scopes: Scopes, accessTTL: int)

  datatype Request = Request(clientId: Id, redirectUri: string, responseType: ResponseType, scopes: Scopes,
                             audience: Option<string>, challenge: Option<string>, promptConsent: bool,
                             userId: Option<Id>, authenticated: bool, consentGiven: bool,
                             authTime: Option<Time>, expiresAt: Time)

  // A live identity-provider session found for the caller's cookie.
  datatype Sso = Sso(userId: Id, authenticatedAt: Time)

  // The parameters of an authorize call, with what the services it consults
  // answer: perms are the client's permissions on the resource named by the
  // audience (None when it names none), hintUser the user an id_token_hint
  // proves, sso the session behind the cookie.
  datatype Params = Params(clientId: Id, responseType: ResponseType, redirectUri: string, challenge: string,
                           plainMethod: bool, prompt: Prompt, badParam: bool, maxAge: Option<int>,
                           requested: Scopes, audience: Option<string>, perms: Option<Scopes>,
                           hintUser: Option<Id>, sso: Option<Sso>)

  // Whether a session can be opened, and the lifetimes a completion uses.
  datatype Limits = Limits(sessionUp: bool, codeTTL: int, sessionTTL: int)

  datatype MfaPolicy = NoOpinion | ForbidsLogin | RequireMfa(required: bool)

  datatype Problem = BadRequest | BadScope | BadClient | UnknownAudience | UnsupportedType | Unauthorized
                   | AccountSelection | LoginRequired | ConsentRequired | Denied | Broken

  datatype Reply = Refused(problem: Problem)
                 | Opened(request: Id, requiresLogin: bool, requiresConsent: bool)
                 | Progress(authenticated: bool, requiresConsent: bool)
                 | Registered(user: Id)
                 | Completed(code: Id)
                 | Silent

  // How a code came about: the request, its row and the instant of completion.
  datatype Issuance = Issuance(request: Id, row: Request, at: Time)

  // asked, decided and issued are history: the step that opened a request,
  // the step that last gave consent to it, and what became of it.
  datatype Auth = Auth(tokens: TS.Store, requests: map<Id, Request>, consents: map<(Id, Id), Scopes>,
                       clients: map<Id, ClientInfo>, nextRequest: Id, steps: nat,
                       asked: map<Id, nat>, decided: map<Id, nat>, issued: map<Id, Issuance>)

  const Initial: Auth := Auth(TS.Empty, map[], map[], map[], 0, 0, map[], map[], map[])

  // ---------------------------------------------------------------------
  // Rows
  // ---------------------------------------------------------------------

  predicate Covers(consented: Scopes, requested: Scopes) {
    forall x | x in requested :: x in consented
  }

  predicate FirstParty(s: Auth, client: Id) { client in s.clients && s.clients[client].firstParty }

  predicate Known(s: Auth, client: Id) { client in s.clients && s.clients[client].active }

  predicate ConsentCovers(s: Auth, user: Id, client: Id, scopes: Scopes) {
    (user, client) in s.consents && Covers(s.consents[(user, client)], scopes)
  }

  // Found by the repository: present and not expired.
  predicate Live(s: Auth, r: Id) { r in s.requests && s.requests[r].expiresAt > s.tokens.now }

  // The foreign key to users.
  predicate Storable(s: Auth, row: Request) { row.userId.Some? ==> row.userId.value in s.tokens.users }

  function Insert(s: Auth, row: Request): Auth {
    s.(requests := s.requests[s.nextRequest := row], nextRequest := s.nextRequest + 1,
       asked := s.asked[s.nextRequest := s.steps],
       decided := if row.consentGiven then s.decided[s.nextRequest := s.steps] else s.decided)
  }

  function Update(s: Auth, r: Id, row: Request): Auth {
    s.(requests := s.requests[r := row],
       decided := if row.consentGiven then s.decided[r := s.steps] else s.decided)
  }

  // ---------------------------------------------------------------------
  // Completing
  // ---------------------------------------------------------------------

  function HybridFor(s: Auth, row: Request): TS.Hybrid {
    if row.responseType == CodeResponse then TS.CodeOnly
    else if !Known(s, row.clientId) then TS.ClientGone
    else if row.responseType == CodeIdToken then TS.CodeOnly
    else TS.WithToken(s.clients[row.clientId].accessTTL)
  }

  function Complete(s: Auth, r: Id, limits: Limits): (Auth, Reply)
    requires r in s.requests && s.requests[r].userId.Some?
  {
    var row := s.requests[r];
    if !limits.sessionUp || row.userId.value !in s.tokens.users then (s, Refused(Broken))
    else
      var (tokens, out) := TS.Grant(s.tokens, row.clientId, row.userId.value, row.redirectUri, row.scopes,
                                    row.challenge, row.audience, limits.codeTTL, limits.sessionTTL,
                                    HybridFor(s, row));
      var code := s.tokens.next + 1;
      (s.(tokens := tokens, requests := s.requests - {r},
          issued := s.issued[code := Issuance(r, row, s.tokens.now)]),
       if out.Failed? then Refused(Broken) else Completed(code))
  }

  // ---------------------------------------------------------------------
  // Opening
  // ---------------------------------------------------------------------

  function ParamsProblem(c: ClientInfo, p: Params): Option<Problem> {
    if p.responseType == Unsupported then Some(UnsupportedType)
    else if p.redirectUri !in c.redirectUris then Some(BadRequest)
    else if !c.codeGrant then Some(Unauthorized)
    else if (c.isPublic || c.requirePKCE) && p.challenge == "" then Some(BadRequest)
    else if p.challenge != "" && p.plainMethod then Some(BadRequest)
    else if p.prompt == BadPrompt || p.badParam then Some(BadRequest)
    else if p.maxAge.Some? && p.maxAge.value < 0 then Some(BadRequest)
    else if p.prompt == SelectPrompt then Some(AccountSelection)
    else None
  }

  // What a parameter list must be by itself, and what its client must allow.
  predicate WellFormed(p: Params) {
    && p.responseType != Unsupported && p.prompt != BadPrompt && p.prompt != SelectPrompt && !p.badParam
    && (p.challenge != "" ==> !p.plainMethod) && (p.maxAge.Some? ==> p.maxAge.value >= 0)
  }

  predicate MayAsk(c: ClientInfo, p: Params) {
    && p.redirectUri in c.redirectUris && c.codeGrant
    && (c.isPublic || c.requirePKCE ==> p.challenge != "")
  }

  // The scopes a request may carry, or why there are none.
  function RequestScopes(c: ClientInfo, p: Params): (Option<Problem>, Scopes) {
    var own := ClientScopes(c.scopes, p.requested);
    if p.audience.Some? then
      if p.perms.None? then (Some(UnknownAudience), [])
      else
        var onResource := Filter(p.perms.value, Elements(p.requested));
        if onResource == [] then (Some(BadScope), []) else (None, Union(own, onResource))
    else if own == [] then (Some(BadScope), [])
    else (None, own)
  }

  function Challenge(p: Params): Option<string> { if p.challenge == "" then None else Some(p.challenge) }

  function SilentRow(now: Time, p: Params, scopes: Scopes, user: Id): Request {
    Request(p.clientId, p.redirectUri, p.responseType, scopes, p.audience, Challenge(p), false, Some(user), true, true,
            Some(now), now + MINUTE)
  }

  // The row of a silent sign-on does not record the prompt.
  function SsoRow(now: Time, p: Params, scopes: Scopes, sso: Sso, consentGiven: bool): Request {
    Request(p.clientId, p.redirectUri, p.responseType, scopes, p.audience, Challenge(p), false, Some(sso.userId),
            true, consentGiven, Some(sso.authenticatedAt), now + 10 * MINUTE)
  }

  function InteractiveRow(now: Time, p: Params, scopes: Scopes): Request {
    Request(p.clientId, p.redirectUri, p.responseType, scopes, p.audience, Challenge(p), p.prompt == ConsentPrompt,
            None, false, false, None, now + 10 * MINUTE)
  }

  // prompt=none
  function OpenSilently(s: Auth, p: Params, scopes: Scopes, limits: Limits): (Auth, Reply) {
    if p.hintUser.None? then (s, Refused(LoginRequired))
    else if !ConsentCovers(s, p.hintUser.value, p.clientId, scopes) && !FirstParty(s, p.clientId) then
      (s, Refused(ConsentRequired))
    else
      var row := SilentRow(s.tokens.now, p, scopes, p.hintUser.value);
      if !Storable(s, row) then (s, Refused(Broken)) else Complete(Insert(s, row), s.nextRequest, limits)
  }

  predicate SsoNeedsConsent(s: Auth, p: Params, scopes: Scopes, sso: Sso) {
    p.prompt == ConsentPrompt ||
    (!ConsentCovers(s, sso.userId, p.clientId, scopes) && !FirstParty(s, p.clientId))
  }

  predicate TooOld(s: Auth, p: Params, sso: Sso) {
    p.maxAge.Some? && s.tokens.now - sso.authenticatedAt > p.maxAge.value * SECOND
  }

  // None as the reply: fall back to the interactive login.
  function TrySso(s: Auth, p: Params, scopes: Scopes, sso: Sso, limits: Limits): (Auth, Option<Reply>) {
    var needsConsent := SsoNeedsConsent(s, p, scopes, sso);
    var row := SsoRow(s.tokens.now, p, scopes, sso, !needsConsent);
    if TooOld(s, p, sso) || !Storable(s, row) then (s, None)
    else if needsConsent then (Insert(s, row), Some(Opened(s.nextRequest, false, true)))
    else
      var (s', reply) := Complete(Insert(s, row), s.nextRequest, limits);
      (s', if reply.Refused? then None else Some(reply))
  }

  function OpenInteractively(s: Auth, p: Params, scopes: Scopes): (Auth, Reply) {
    (Insert(s, InteractiveRow(s.tokens.now, p, scopes)),
     Opened(s.nextRequest, true, !FirstParty(s, p.clientId) || p.prompt == ConsentPrompt))
  }

  function Open(s: Auth, p: Params, limits: Limits): (Auth, Reply) {
    if !Known(s, p.clientId) then (s, Refused(BadClient))
    else
      var c := s.clients[p.clientId];
      var problem := ParamsProblem(c, p);
      var (scopeProblem, scopes) := RequestScopes(c, p);
      if problem.Some? then (s, Refused(problem.value))
      else if scopeProblem.Some? then (s, Refused(scopeProblem.value))
      else if p.prompt == SilentPrompt then OpenSilently(s, p, scopes, limits)
      else if p.sso.Some? && p.prompt != LoginPrompt then
        var (s', reply) := TrySso(s, p, scopes, p.sso.value, limits);
        if reply.Some? then (s', reply.value) else OpenInteractively(s', p, scopes)
      else OpenInteractively(s, p, scopes)
  }

  // ---------------------------------------------------------------------
  // Advancing
  // ---------------------------------------------------------------------

  // The rules on consent at a sign-in: a stored consent or a first-party
  // client needs none, unless the request was made with prompt=consent.
  predicate NeedsConsent(s: Auth, row: Request, user: Id) {
    row.promptConsent ||
    (!ConsentCovers(s, user, row.clientId, row.scopes) && !FirstParty(s, row.clientId))
  }

  // The row once user has proved who they are, by password or by an external
  // provider; a second factor may still be due.
  function SignedIn(s: Auth, row: Request, user: Id, needsMfa: bool): Request {
    row.(userId := Some(user), authenticated := !needsMfa,
         authTime := if needsMfa then row.authTime else Some(s.tokens.now),
         consentGiven := row.consentGiven || (!NeedsConsent(s, row, user) && !needsMfa))
  }

  function Saved(s: Auth, r: Id, row: Request, reply: Reply): (Auth, Reply) {
    if Storable(s, row) then (Update(s, r, row), reply) else (s, Refused(Broken))
  }

  function Login(s: Auth, r: Id, auth: Option<Id>, denied: bool, hasMfa: bool, policy: MfaPolicy): (Auth, Reply) {
    if !Live(s, r) || s.requests[r].authenticated then (s, Refused(BadRequest))
    else if auth.None? then (s, Refused(Unauthorized))
    else if !Known(s, s.requests[r].clientId) then (s, Refused(Broken))
    else if denied || policy.ForbidsLogin? || (policy == RequireMfa(true) && !hasMfa) then (s, Refused(Denied))
    else
      var needsMfa := if policy.RequireMfa? then policy.required else hasMfa;
      Saved(s, r, SignedIn(s, s.requests[r], auth.value, needsMfa),
            Progress(!needsMfa, NeedsConsent(s, s.requests[r], auth.value)))
  }

  function Resume(s: Auth, r: Id, user: Option<Id>, active: bool, hasMfa: bool): (Auth, Reply) {
    if !Live(s, r) || s.requests[r].authenticated then (s, Refused(BadRequest))
    else if user.None? then (s, Refused(Broken))
    else if !active then (s, Refused(Denied))
    else if !Known(s, s.requests[r].clientId) then (s, Refused(Broken))
    else Saved(s, r, SignedIn(s, s.requests[r], user.value, hasMfa),
               Progress(!hasMfa, NeedsConsent(s, s.requests[r], user.value)))
  }

  function Register(s: Auth, r: Id, created: Option<Id>): (Auth, Reply) {
    if !Live(s, r) || s.requests[r].authenticated then (s, Refused(BadRequest))
    else if !Known(s, s.requests[r].clientId) then (s, Refused(Broken))
    else if created.None? then (s, Refused(Unauthorized))
    else Saved(s, r, s.requests[r].(userId := created, expiresAt := s.tokens.now + 24 * HOUR),
               Registered(created.value))
  }

  function Verified(s: Auth, row: Request): Request
    requires row.userId.Some?
  {
    var covered := ConsentCovers(s, row.userId.value, row.clientId, row.scopes);
    row.(authenticated := true, authTime := Some(s.tokens.now),
         consentGiven := !row.promptConsent && (covered || FirstParty(s, row.clientId) || row.consentGiven))
  }

  function Mfa(s: Auth, r: Id, valid: bool): (Auth, Reply) {
    if !Live(s, r) || s.requests[r].userId.None? || s.requests[r].authenticated then (s, Refused(BadRequest))
    else if !valid then (s, Refused(Denied))
    else
      var row := s.requests[r];
      if !ConsentCovers(s, row.userId.value, row.clientId, row.scopes) && !Known(s, row.clientId)
      then (s, Refused(Broken))
      else Saved(s, r, Verified(s, row), Progress(true, NeedsConsent(s, row, row.userId.value)))
  }

  function ConsentScopes(row: Request, granted: Scopes, verdict: TS.Verdict): (Option<Problem>, Scopes) {
    var filtered := Filter(granted, Elements(row.scopes));
    if filtered == [] then (Some(BadScope), [])
    else if verdict.deny then (Some(Denied), [])
    else
      var narrowed := TS.NarrowByPolicy(filtered, verdict);
      if narrowed == [] then (Some(Denied), []) else (None, narrowed)
  }

  function Consent(s: Auth, r: Id, granted: Scopes, verdict: TS.Verdict, limits: Limits): (Auth, Reply) {
    if !Live(s, r) || !s.requests[r].authenticated then (s, Refused(BadRequest))
    else if s.requests[r].userId.None? then (s, Refused(Broken))
    else
      var row := s.requests[r];
      var (problem, scopes) := ConsentScopes(row, granted, verdict);
      if problem.Some? then (s, Refused(problem.value))
      else if !Storable(s, row) then (s, Refused(Broken))
      else
        var s1 := s.(consents := s.consents[(row.userId.value, row.clientId) := scopes]);
        Complete(Update(s1, r, row.(consentGiven := true, scopes := scopes)), r, limits)
  }

  function VerifyEmail(s: Auth, r: Id, user: Id, limits: Limits): (Auth, Reply) {
    if !Live(s, r) || s.requests[r].userId != Some(user) then (s, Refused(BadRequest))
    else
      var row := s.requests[r].(authenticated := true, authTime := Some(s.tokens.now), consentGiven := true);
      if !Storable(s, row) then (s, Refused(Broken)) else Complete(Update(s, r, row), r, limits)
  }

  function Finish(s: Auth, r: Id, limits: Limits): (Auth, Reply) {
    if !Live(s, r) || !s.requests[r].authenticated || !s.requests[r].consentGiven then (s, Refused(BadRequest))
    else if s.requests[r].userId.None? then (s, Refused(Broken))
    else Complete(s, r, limits)
  }

  // Every step of the token store but the grant, which completing makes. A
  // sweep that deletes users takes their requests and consents along.
  function OnTokens(s: Auth, op: TS.Op): Auth {
    if op.DoGrant? then s
    else
      var tokens := TS.Step(s.tokens, op).0;
      s.(tokens := tokens,
         requests := map r | r in s.requests && KeptUser(s.requests[r].userId, tokens.users.Keys) :: s.requests[r],
         consents := map k | k in s.consents && k.0 in tokens.users :: s.consents[k])
  }

  predicate KeptUser(user: Option<Id>, users: set<Id>) { user.Some? ==> user.value in users }

  // ---------------------------------------------------------------------
  // Runs
  // ---------------------------------------------------------------------

  datatype Op =
    | DoOpen(params: Params, limits: Limits)
    | DoLogin(request: Id, auth: Option<Id>, denied: bool, hasMfa: bool, policy: MfaPolicy)
    | DoResume(request: Id, user: Option<Id>, active: bool, hasMfa: bool)
    | DoRegister(request: Id, created: Option<Id>)
    | DoMfa(request: Id, valid: bool)
    | DoConsent(request: Id, granted: Scopes, verdict: TS.Verdict, limits: Limits)
    | DoVerifyEmail(request: Id, verified: Id, limits: Limits)
    | DoFinish(request: Id, limits: Limits)
    | SetClient(client: Id, info: ClientInfo)
    | RevokeConsent(owner: Id, client: Id)
    | OnStore(op: TS.Op)

  function Do(s: Auth, op: Op): (Auth, Reply) {
    match op
    case DoOpen(p, limits) => Open(s, p, limits)
    case DoLogin(r, auth, denied, hasMfa, policy) => Login(s, r, auth, denied, hasMfa, policy)
    case DoResume(r, user, active, hasMfa) => Resume(s, r, user, active, hasMfa)
    case DoRegister(r, created) => Register(s, r, created)
    case DoMfa(r, valid) => Mfa(s, r, valid)
    case DoConsent(r, granted, verdict, limits) => Consent(s, r, granted, verdict, limits)
    case DoVerifyEmail(r, user, limits) => VerifyEmail(s, r, user, limits)
    case DoFinish(r, limits) => Finish(s, r, limits)
    case SetClient(c, info) => (s.(clients := s.clients[c := info]), Silent)
    case RevokeConsent(u, c) => (s.(consents := s.consents - {(u, c)}), Silent)
    case OnStore(op) => (OnTokens(s, op), Silent)
  }

  function Step(s: Auth, op: Op): Auth {
    var s' := Do(s, op).0;
    s'.(steps := s.steps + 1)
  }

  // A run, as the sequence of its states.
  ghost predicate Execution(states: seq<Auth>, ops: seq<Op>) {
    |states| == |ops| + 1 && states[0] == Initial &&
    forall i :: 0 <= i < |ops| ==> states[i + 1] == Step(states[i], ops[i])
  }
}
