// The authorize endpoints as the code runs them: a request row is read, its
// fields are set one by one, and it is saved, completed or deleted.
module AuthorizeService {
  import opened Basics
  import opened ScopeLists
  import opened Authorization
  import TS = TokenStore
  import TokenService

  class Authorizer {
    const tokens: TokenService.Service
    var requests: map<Id, Request>
    var consents: map<(Id, Id), Scopes>
    var clients: map<Id, ClientInfo>
    var nextRequest: Id
    ghost var steps: nat
    ghost var asked: map<Id, nat>
    ghost var decided: map<Id, nat>
    ghost var issued: map<Id, Issuance>

    ghost function State(): Auth
      reads this, tokens
    {
      Auth(tokens.State(), requests, consents, clients, nextRequest, steps, asked, decided, issued)
    }

    constructor ()
      ensures State() == Initial && fresh(tokens)
    {
      tokens := new TokenService.Service();
      requests, consents, clients, nextRequest := map[], map[], map[], 0;
      steps, asked, decided, issued := 0, map[], map[], map[];
    }

    // -------------------------------------------------------------------
    // Repository
    // -------------------------------------------------------------------

    // Rows that have expired are not found.
    method FindAuthRequest(r: Id) returns (row: Option<Request>)
      ensures row == if Live(State(), r) then Some(requests[r]) else None
    {
      if r !in requests || requests[r].expiresAt <= tokens.now {
        return None;
      }
      return Some(requests[r]);
    }

    method CreateAuthRequest(row: Request) returns (id: Option<Id>)
      modifies this`requests, this`nextRequest, this`asked, this`decided
      ensures id == if Storable(old(State()), row) then Some(old(nextRequest)) else None
      ensures State() == if id.Some? then Insert(old(State()), row) else old(State())
    {
      if row.userId.Some? && row.userId.value !in tokens.users {
        return None;
      }
      id := Some(nextRequest);
      requests := requests[nextRequest := row];
      asked := asked[nextRequest := steps];
      if row.consentGiven {
        decided := decided[nextRequest := steps];
      }
      nextRequest := nextRequest + 1;
    }

    method UpdateAuthRequest(r: Id, row: Request) returns (saved: bool)
      modifies this`requests, this`decided
      ensures saved <==> Storable(old(State()), row)
      ensures State() == if saved then Update(old(State()), r, row) else old(State())
    {
      if row.userId.Some? && row.userId.value !in tokens.users {
        return false;
      }
      requests := requests[r := row];
      if row.consentGiven {
        decided := decided[r := steps];
      }
      return true;
    }

    // Whether a stored consent covers the scopes.
    method HasConsent(user: Id, client: Id, scopes: Scopes) returns (covered: bool)
      ensures covered <==> ConsentCovers(State(), user, client, scopes)
    {
      if (user, client) !in consents {
        return false;
      }
      covered := CoversScopes(consents[(user, client)], scopes);
    }

    // -------------------------------------------------------------------
    // Completing
    // -------------------------------------------------------------------

    method CompleteAuthorize(r: Id, row: Request, limits: Limits) returns (reply: Reply)
      requires r in requests && requests[r] == row && row.userId.Some?
      modifies this`requests, this`issued, tokens
      ensures (State(), reply) == Complete(old(State()), r, limits)
    {
      if !limits.sessionUp {
        return Refused(Broken);
      }
      var hybrid := TS.CodeOnly;
      if row.responseType != CodeResponse {
        if row.clientId !in clients || !clients[row.clientId].active {
          hybrid := TS.ClientGone;
        } else if row.responseType != CodeIdToken {
          hybrid := TS.WithToken(clients[row.clientId].accessTTL);
        }
      }
      if row.userId.value !in tokens.users {
        return Refused(Broken);
      }
      requests := requests - {r};
      ghost var code := tokens.next + 1;
      var out := tokens.CompleteGrant(row.clientId, row.userId.value, row.redirectUri, row.scopes, row.challenge,
                                      row.audience, limits.codeTTL, limits.sessionTTL, hybrid);
      issued := issued[code := Issuance(r, row, tokens.now)];
      if out.Failed? {
        return Refused(Broken);
      }
      return Completed(out.id);
    }

    // -------------------------------------------------------------------
    // Opening a request
    // -------------------------------------------------------------------

    method InitAuthorize(p: Params, limits: Limits) returns (reply: Reply)
      modifies this`requests, this`nextRequest, this`asked, this`decided, this`issued, tokens
      ensures (State(), reply) == Open(old(State()), p, limits)
    {
      if p.clientId !in clients || !clients[p.clientId].active {
        return Refused(BadClient);
      }
      var client := clients[p.clientId];
      var problem := ValidateParams(client, p);
      if problem.Some? {
        return Refused(problem.value);
      }
      var scopes: Scopes;
      problem, scopes := ResolveScopes(client, p);
      if problem.Some? {
        return Refused(problem.value);
      }
      if p.prompt == SilentPrompt {
        reply := HandlePromptNone(p, scopes, limits);
        return;
      }
      if p.sso.Some? && p.prompt != LoginPrompt {
        var silent := TrySilentSSO(p, scopes, p.sso.value, limits);
        if silent.Some? {
          return silent.value;
        }
      }
      reply := AskInteractively(p, scopes);
    }

    method ValidateParams(c: ClientInfo, p: Params) returns (problem: Option<Problem>)
      ensures problem == ParamsProblem(c, p)
      ensures problem.None? <==> WellFormed(p) && MayAsk(c, p)
    {
      if p.responseType == Unsupported {
        return Some(UnsupportedType);
      }
      if p.redirectUri !in c.redirectUris {
        return Some(BadRequest);
      }
      if !c.codeGrant {
        return Some(Unauthorized);
      }
      if (c.isPublic || c.requirePKCE) && p.challenge == "" {
        return Some(BadRequest);
      }
      if p.challenge != "" && p.plainMethod {
        return Some(BadRequest);
      }
      if p.prompt == BadPrompt {
        return Some(BadRequest);
      }
      if p.badParam {
        return Some(BadRequest);
      }
      if p.maxAge.Some? && p.maxAge.value < 0 {
        return Some(BadRequest);
      }
      if p.prompt == SelectPrompt {
        return Some(AccountSelection);
      }
      return None;
    }

    method ResolveScopes(c: ClientInfo, p: Params) returns (problem: Option<Problem>, scopes: Scopes)
      ensures (problem, scopes) == RequestScopes(c, p)
    {
      var clientScopes := ValidateScopes(c.scopes, p.requested);
      if p.audience.Some? {
        if p.perms.None? {
          return Some(UnknownAudience), [];
        }
        var resourceScopes := FilterScopes(p.perms.value, p.requested);
        if |resourceScopes| == 0 {
          return Some(BadScope), [];
        }
        scopes := UnionScopes(clientScopes, resourceScopes);
        return None, scopes;
      }
      if |clientScopes| == 0 {
        return Some(BadScope), [];
      }
      return None, clientScopes;
    }

    method AskInteractively(p: Params, scopes: Scopes) returns (reply: Reply)
      modifies this`requests, this`nextRequest, this`asked, this`decided
      ensures (State(), reply) == OpenInteractively(old(State()), p, scopes)
    {
      var id := CreateAuthRequest(InteractiveRow(tokens.now, p, scopes));
      var requiresConsent := !(p.clientId in clients && clients[p.clientId].firstParty);
      if p.prompt == ConsentPrompt {
        requiresConsent := true;
      }
      return Opened(id.value, true, requiresConsent);
    }

    method HandlePromptNone(p: Params, scopes: Scopes, limits: Limits) returns (reply: Reply)
      modifies this`requests, this`nextRequest, this`asked, this`decided, this`issued, tokens
      ensures (State(), reply) == OpenSilently(old(State()), p, scopes, limits)
    {
      if p.hintUser.None? {
        return Refused(LoginRequired);
      }
      var user := p.hintUser.value;
      var covered := HasConsent(user, p.clientId, scopes);
      if !covered {
        if !(p.clientId in clients && clients[p.clientId].firstParty) {
          return Refused(ConsentRequired);
        }
      }
      var row := SilentRow(tokens.now, p, scopes, user);
      var id := CreateAuthRequest(row);
      if id.None? {
        return Refused(Broken);
      }
      reply := CompleteAuthorize(id.value, row, limits);
    }

    method MustAskConsent(p: Params, scopes: Scopes, sso: Sso) returns (needsConsent: bool)
      ensures needsConsent <==> SsoNeedsConsent(State(), p, scopes, sso)
    {
      needsConsent := !(p.clientId in clients && clients[p.clientId].firstParty);
      var covered := HasConsent(sso.userId, p.clientId, scopes);
      if covered {
        needsConsent := false;
      }
      if p.prompt == ConsentPrompt {
        needsConsent := true;
      }
    }

    // None: fall back to the interactive login.
    method TrySilentSSO(p: Params, scopes: Scopes, sso: Sso, limits: Limits) returns (reply: Option<Reply>)
      modifies this`requests, this`nextRequest, this`asked, this`decided, this`issued, tokens
      ensures (State(), reply) == TrySso(old(State()), p, scopes, sso, limits)
    {
      if p.maxAge.Some? && tokens.now - sso.authenticatedAt > p.maxAge.value * SECOND {
        return None;
      }
      var needsConsent := MustAskConsent(p, scopes, sso);
      var row := SsoRow(tokens.now, p, scopes, sso, !needsConsent);
      var id := CreateAuthRequest(row);
      if id.None? {
        return None;
      }
      if needsConsent {
        return Some(Opened(id.value, false, true));
      }
      var done := CompleteAuthorize(id.value, row, limits);
      if done.Refused? {
        return None;
      }
      return Some(done);
    }

    // -------------------------------------------------------------------
    // Advancing a request
    // -------------------------------------------------------------------

    method AuthorizeLogin(r: Id, auth: Option<Id>, denied: bool, hasMfa: bool, policy: MfaPolicy)
      returns (reply: Reply)
      modifies this`requests, this`decided
      ensures (State(), reply) == Login(old(State()), r, auth, denied, hasMfa, policy)
    {
      var req := FindAuthRequest(r);
      if req.None? {
        return Refused(BadRequest);
      }
      var row := req.value;
      if row.authenticated {
        return Refused(BadRequest);
      }
      if auth.None? {
        return Refused(Unauthorized);
      }
      if row.clientId !in clients || !clients[row.clientId].active {
        return Refused(Broken);
      }
      if denied {
        return Refused(Denied);
      }
      var needsMfa := hasMfa;
      match policy {
        case NoOpinion =>
        case ForbidsLogin =>
          return Refused(Denied);
        case RequireMfa(required) =>
          if required && !hasMfa {
            return Refused(Denied);
          }
          needsMfa := required;
      }
      reply := SignIn(r, row, auth.value, needsMfa);
    }

    method ResumeAuthorizeAfterExternalLogin(r: Id, user: Option<Id>, active: bool, hasMfa: bool)
      returns (reply: Reply)
      modifies this`requests, this`decided
      ensures (State(), reply) == Resume(old(State()), r, user, active, hasMfa)
    {
      var req := FindAuthRequest(r);
      if req.None? {
        return Refused(BadRequest);
      }
      var row := req.value;
      if row.authenticated {
        return Refused(BadRequest);
      }
      if user.None? {
        return Refused(Broken);
      }
      if !active {
        return Refused(Denied);
      }
      if row.clientId !in clients || !clients[row.clientId].active {
        return Refused(Broken);
      }
      reply := SignIn(r, row, user.value, hasMfa);
    }

    // What both sign-ins do to the row.
    method SignIn(r: Id, row: Request, user: Id, needsMfa: bool) returns (reply: Reply)
      modifies this`requests, this`decided
      ensures (State(), reply) == Saved(old(State()), r, SignedIn(old(State()), row, user, needsMfa),
                                        Progress(!needsMfa, NeedsConsent(old(State()), row, user)))
    {
      var needsConsent := !(row.clientId in clients && clients[row.clientId].firstParty);
      var covered := HasConsent(user, row.clientId, row.scopes);
      if covered {
        needsConsent := false;
      }
      var req := row.(userId := Some(user), authenticated := false);
      if !needsMfa {
        req := req.(authenticated := true, authTime := Some(tokens.now));
      }
      if row.promptConsent {
        needsConsent := true;
      }
      if !needsConsent && req.authenticated {
        req := req.(consentGiven := true);
      }
      var saved := UpdateAuthRequest(r, req);
      if !saved {
        return Refused(Broken);
      }
      return Progress(!needsMfa, needsConsent);
    }

    method AuthorizeRegister(r: Id, created: Option<Id>) returns (reply: Reply)
      modifies this`requests, this`decided
      ensures (State(), reply) == Register(old(State()), r, created)
    {
      var req := FindAuthRequest(r);
      if req.None? {
        return Refused(BadRequest);
      }
      var row := req.value;
      if row.authenticated {
        return Refused(BadRequest);
      }
      if row.clientId !in clients || !clients[row.clientId].active {
        return Refused(Broken);
      }
      if created.None? {
        return Refused(Unauthorized);
      }
      row := row.(userId := created, expiresAt := tokens.now + 24 * HOUR);
      var saved := UpdateAuthRequest(r, row);
      if !saved {
        return Refused(Broken);
      }
      return Registered(created.value);
    }

    method AuthorizeMFA(r: Id, valid: bool) returns (reply: Reply)
      modifies this`requests, this`decided
      ensures (State(), reply) == Mfa(old(State()), r, valid)
    {
      var req := FindAuthRequest(r);
      if req.None? {
        return Refused(BadRequest);
      }
      var row := req.value;
      if row.userId.None? {
        return Refused(BadRequest);
      }
      if row.authenticated {
        return Refused(BadRequest);
      }
      if !valid {
        return Refused(Denied);
      }
      row := row.(authenticated := true, authTime := Some(tokens.now));
      var needsConsent := false;
      var covered := HasConsent(row.userId.value, row.clientId, row.scopes);
      if covered {
        row := row.(consentGiven := true);
      } else {
        if row.clientId !in clients || !clients[row.clientId].active {
          return Refused(Broken);
        }
        needsConsent := !clients[row.clientId].firstParty;
        if !needsConsent {
          row := row.(consentGiven := true);
        }
      }
      if row.promptConsent {
        needsConsent := true;
        row := row.(consentGiven := false);
      }
      var saved := UpdateAuthRequest(r, row);
      if !saved {
        return Refused(Broken);
      }
      return Progress(true, needsConsent);
    }

    method AgreeOnScopes(row: Request, granted: Scopes, verdict: TS.Verdict)
      returns (problem: Option<Problem>, scopes: Scopes)
      ensures (problem, scopes) == ConsentScopes(row, granted, verdict)
    {
      scopes := FilterScopes(granted, row.scopes);
      if |scopes| == 0 {
        return Some(BadScope), [];
      }
      if verdict.deny {
        return Some(Denied), [];
      }
      if verdict.scopes.Some? {
        scopes := KeepAllowed(scopes, verdict.scopes.value);
        if |scopes| == 0 {
          return Some(Denied), [];
        }
      }
      return None, scopes;
    }

    method AuthorizeConsent(r: Id, granted: Scopes, verdict: TS.Verdict, limits: Limits) returns (reply: Reply)
      modifies this`requests, this`consents, this`decided, this`issued, tokens
      ensures (State(), reply) == Consent(old(State()), r, granted, verdict, limits)
    {
      var req := FindAuthRequest(r);
      if req.None? {
        return Refused(BadRequest);
      }
      var row := req.value;
      if !row.authenticated {
        return Refused(BadRequest);
      }
      if row.userId.None? {
        return Refused(Broken);
      }
      var problem, scopes := AgreeOnScopes(row, granted, verdict);
      if problem.Some? {
        return Refused(problem.value);
      }
      if row.userId.value !in tokens.users {
        return Refused(Broken);
      }
      consents := consents[(row.userId.value, row.clientId) := scopes];
      row := row.(consentGiven := true, scopes := scopes);
      var saved := UpdateAuthRequest(r, row);
      reply := CompleteAuthorize(r, row, limits);
    }

    method CompleteAfterEmailVerification(r: Id, user: Id, limits: Limits) returns (reply: Reply)
      modifies this`requests, this`decided, this`issued, tokens
      ensures (State(), reply) == VerifyEmail(old(State()), r, user, limits)
    {
      var req := FindAuthRequest(r);
      if req.None? {
        return Refused(BadRequest);
      }
      var row := req.value;
      if row.userId != Some(user) {
        return Refused(BadRequest);
      }
      row := row.(authenticated := true, authTime := Some(tokens.now), consentGiven := true);
      var saved := UpdateAuthRequest(r, row);
      if !saved {
        return Refused(Broken);
      }
      reply := CompleteAuthorize(r, row, limits);
    }

    method CompleteAuthorizeFirstParty(r: Id, limits: Limits) returns (reply: Reply)
      modifies this`requests, this`issued, tokens
      ensures (State(), reply) == Finish(old(State()), r, limits)
    {
      var req := FindAuthRequest(r);
      if req.None? {
        return Refused(BadRequest);
      }
      var row := req.value;
      if !row.authenticated || !row.consentGiven {
        return Refused(BadRequest);
      }
      if row.userId.None? {
        return Refused(Broken);
      }
      reply := CompleteAuthorize(r, row, limits);
    }
  }
}
