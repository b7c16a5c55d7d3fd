// What every run of the authorization-request machine keeps.
module AuthorizationRuns {
  import opened Basics
  import opened ScopeLists
  import opened Authorization
  import TS = TokenStore
  import Lineage

  // ---------------------------------------------------------------------
  // The flags of a request only rise, and its user is frozen once signed in
  // ---------------------------------------------------------------------

  predicate FlagsRise(a: Request, b: Request) {
    (a.consentGiven ==> b.consentGiven) && (a.authenticated ==> b.authenticated)
  }

  predicate UserFrozen(a: Request, b: Request) {
    a.authenticated ==> b.userId == a.userId
  }

  predicate SameTerms(a: Request, b: Request) {
    a.clientId == b.clientId && a.redirectUri == b.redirectUri && a.audience == b.audience &&
    a.challenge == b.challenge && a.promptConsent == b.promptConsent && Elements(b.scopes) <= Elements(a.scopes)
  }

  // Consent needs a sign-in, a sign-in a user and its instant.
  predicate RowOk(row: Request) {
    (row.consentGiven ==> row.authenticated) && (row.authenticated ==> row.userId.Some? && row.authTime.Some?)
  }

  ghost predicate AllOk(next: Id, requests: map<Id, Request>) {
    forall r :: r in requests ==> r < next && RowOk(requests[r])
  }

  ghost predicate RowsAdvance(next: Id, a: map<Id, Request>, b: map<Id, Request>) {
    forall r :: r in b && r < next ==>
      r in a && FlagsRise(a[r], b[r]) && UserFrozen(a[r], b[r]) && SameTerms(a[r], b[r])
  }

  ghost predicate Ok(s: Auth) { AllOk(s.nextRequest, s.requests) }

  ghost predicate Advances(s: Auth, s': Auth) {
    Ok(s') && RowsAdvance(s.nextRequest, s.requests, s'.requests) && s.nextRequest <= s'.nextRequest
  }

  lemma InsertAdvances(s: Auth, row: Request)
    requires Ok(s) && RowOk(row)
    ensures Advances(s, Insert(s, row))
  {
  }

  lemma UpdateAdvances(s: Auth, r: Id, row: Request)
    requires Ok(s) && RowOk(row) && r in s.requests
    requires FlagsRise(s.requests[r], row) && UserFrozen(s.requests[r], row) && SameTerms(s.requests[r], row)
    ensures Advances(s, Update(s, r, row))
  {
  }

  lemma CompleteAdvances(s: Auth, r: Id, limits: Limits)
    requires Ok(s) && r in s.requests && s.requests[r].userId.Some?
    ensures Advances(s, Complete(s, r, limits).0)
  {
    if !limits.sessionUp || s.requests[r].userId.value !in s.tokens.users {} else {}
  }

  lemma AdvancesTwice(a: Auth, b: Auth, c: Auth)
    requires Advances(a, b) && Advances(b, c)
    ensures Advances(a, c)
  {
  }

  // ---------------------------------------------------------------------
  // Where requests and codes come from. m bounds the steps referred to.
  // ---------------------------------------------------------------------

  predicate Indexed(states: seq<Auth>, ops: seq<Op>, m: nat) { m <= |ops| < |states| }

  // op, taken in s, passed every check on its parameters and opened a request
  // whose terms row still carries, with scopes of the client and of its
  // permissions on the audience at that time.
  ghost predicate Opens(s: Auth, op: Op, row: Request) {
    && op.DoOpen? && op.params.clientId == row.clientId && op.params.audience == row.audience
    && op.params.redirectUri == row.redirectUri && Challenge(op.params) == row.challenge
    && Known(s, row.clientId) && ParamsProblem(s.clients[row.clientId], op.params).None?
    && RequestScopes(s.clients[row.clientId], op.params).0.None?
    && Within(row.scopes, RequestScopes(s.clients[row.clientId], op.params).1)
  }

  predicate AskedForConsent(op: Op) { op.DoOpen? && op.params.prompt == ConsentPrompt }

  // The signed-in user was shown the request, and row carries scopes they
  // granted; or the user bound to the request confirmed their address.
  ghost predicate InPerson(s: Auth, op: Op, r: Id, row: Request) {
    || (op.DoConsent? && op.request == r && Live(s, r) && s.requests[r].authenticated
        && row.userId.Some? && row.userId == s.requests[r].userId && Storable(s, row)
        && row.clientId == s.requests[r].clientId
        && ConsentScopes(s.requests[r], op.granted, op.verdict) == (None, row.scopes)
        && Within(row.scopes, op.granted) && Within(row.scopes, s.requests[r].scopes))
    || (op.DoVerifyEmail? && op.request == r && Live(s, r)
        && row.userId == Some(op.verified) && row.userId == s.requests[r].userId
        && row.scopes == s.requests[r].scopes)
  }

  // A second factor is due: at a password sign-in the policies have the last
  // word, at one through a provider having one decides.
  predicate FactorDue(op: Op) {
    (op.DoLogin? && (op.policy == RequireMfa(true) || (op.policy.NoOpinion? && op.hasMfa))) ||
    (op.DoResume? && op.hasMfa)
  }

  // op signed the user of row in: by a session or token hint when opening, the
  // session no older than asked for; by password or through a provider when no
  // second factor was due; or with a valid second factor.
  predicate SignsIn(s: Auth, op: Op, r: Id, row: Request) {
    match op
    case DoOpen(p, limits) =>
      r == s.nextRequest && row.userId.Some? &&
      (if p.prompt == SilentPrompt then p.hintUser == row.userId
       else p.prompt != LoginPrompt && p.sso.Some? && Some(p.sso.value.userId) == row.userId &&
            (p.maxAge.Some? ==> s.tokens.now - p.sso.value.authenticatedAt <= p.maxAge.value * SECOND))
    case DoLogin(request, auth, denied, hasMfa, policy) =>
      request == r && Live(s, r) && auth.Some? && auth == row.userId && !denied && !policy.ForbidsLogin? &&
      !FactorDue(op)
    case DoResume(request, user, active, hasMfa) =>
      request == r && Live(s, r) && user.Some? && user == row.userId && active && !FactorDue(op)
    case DoMfa(request, valid) =>
      request == r && valid && Live(s, r) && s.requests[r].userId.Some? && s.requests[r].userId == row.userId
    case _ => false
  }

  // op, taken in s, gave request r the consent that row carries: in person, or
  // by a sign-in when the client is first-party or a stored consent of that
  // very user covered the scopes.
  ghost predicate Decides(s: Auth, op: Op, r: Id, row: Request) {
    || InPerson(s, op, r, row)
    || (SignsIn(s, op, r, row)
        && (FirstParty(s, row.clientId) || ConsentCovers(s, row.userId.value, row.clientId, row.scopes)))
  }

  ghost predicate RowTraced(states: seq<Auth>, ops: seq<Op>, m: nat, r: Id, row: Request,
                            asked: map<Id, nat>, decided: map<Id, nat>)
    requires Indexed(states, ops, m)
  {
    && r in asked && asked[r] < m && Opens(states[asked[r]], ops[asked[r]], row)
    && (AskedForConsent(ops[asked[r]]) ==> row.promptConsent || row.authenticated)
    && (row.consentGiven ==>
          && r in decided && asked[r] <= decided[r] < m && Decides(states[decided[r]], ops[decided[r]], r, row)
          && (AskedForConsent(ops[asked[r]]) ==> InPerson(states[decided[r]], ops[decided[r]], r, row)))
  }

  ghost predicate RequestsTraced(states: seq<Auth>, ops: seq<Op>, m: nat, requests: map<Id, Request>,
                                 asked: map<Id, nat>, decided: map<Id, nat>)
    requires Indexed(states, ops, m)
  {
    forall r :: r in requests ==> RowTraced(states, ops, m, r, requests[r], asked, decided)
  }

  // The request was ready and unexpired, and is gone.
  ghost predicate Ready(x: Issuance, requests: map<Id, Request>, next: Id) {
    x.row.consentGiven && RowOk(x.row) && x.at < x.row.expiresAt && x.request !in requests && x.request < next
  }

  ghost predicate IssuedTraced(states: seq<Auth>, ops: seq<Op>, m: nat, issued: map<Id, Issuance>,
                               requests: map<Id, Request>, next: Id, asked: map<Id, nat>, decided: map<Id, nat>)
    requires Indexed(states, ops, m)
  {
    && (forall c :: c in issued ==>
          && Ready(issued[c], requests, next)
          && RowTraced(states, ops, m, issued[c].request, issued[c].row, asked, decided))
    && (forall c, d :: c in issued && d in issued && issued[c].request == issued[d].request ==> c == d)
  }

  function EntryOf(row: Request): (Id, Option<Id>, Option<string>, Scopes) {
    (row.clientId, row.userId, row.audience, row.scopes)
  }

  function Terms(e: TS.Entry): (Id, Option<Id>, Option<string>, Scopes) {
    (e.clientId, e.userId, e.audience, e.scopes)
  }

  predicate OpensDevice(s: Auth, op: Op, g: Id, e: TS.Entry) {
    op.OnStore? && op.op.DoInitDevice? && g == s.tokens.next &&
    e.clientId == op.op.client.id && e.scopes == ClientScopes(op.op.client.scopes, op.op.requested) &&
    e.userId.None? && e.audience.None?
  }

  // Every code is recorded with what its request carried, and a grant that is
  // no code is a device code.
  ghost predicate RootsTraced(states: seq<Auth>, ops: seq<Op>, m: nat, log: map<Id, TS.Entry>,
                              issued: map<Id, Issuance>)
    requires Indexed(states, ops, m)
  {
    && (forall c :: c in issued ==> c in log && log[c].parent.None? && Terms(log[c]) == EntryOf(issued[c].row))
    && (forall g :: g in log && log[g].parent.None? && g !in issued ==>
          exists k :: 0 <= k < m && OpensDevice(states[k], ops[k], g, log[g]))
  }

  ghost predicate LogBelow(next: Id, log: map<Id, TS.Entry>) {
    forall k :: k in log ==> k < next
  }

  ghost predicate Traced(states: seq<Auth>, ops: seq<Op>, m: nat, s: Auth)
    requires Indexed(states, ops, m)
  {
    && Ok(s) && LogBelow(s.tokens.next, s.tokens.log)
    && RequestsTraced(states, ops, m, s.requests, s.asked, s.decided)
    && IssuedTraced(states, ops, m, s.issued, s.requests, s.nextRequest, s.asked, s.decided)
    && RootsTraced(states, ops, m, s.tokens.log, s.issued)
  }

  lemma TracedLater(states: seq<Auth>, ops: seq<Op>, m: nat, s: Auth)
    requires Indexed(states, ops, m + 1) && Traced(states, ops, m, s)
    ensures Traced(states, ops, m + 1, s)
  {
  }

  lemma InsertTraced(states: seq<Auth>, ops: seq<Op>, n: nat, s: Auth, row: Request)
    requires Indexed(states, ops, n + 1) && Traced(states, ops, n + 1, s) && s.steps == n
    requires RowOk(row) && Opens(states[n], ops[n], row)
    requires AskedForConsent(ops[n]) ==> (row.promptConsent || row.authenticated) && !row.consentGiven
    requires row.consentGiven ==> Decides(states[n], ops[n], s.nextRequest, row)
    ensures Traced(states, ops, n + 1, Insert(s, row))
  {
    var s' := Insert(s, row);
    assert RequestsTraced(states, ops, n + 1, s'.requests, s'.asked, s'.decided);
  }

  lemma UpdateTraced(states: seq<Auth>, ops: seq<Op>, n: nat, s: Auth, r: Id, row: Request)
    requires Indexed(states, ops, n + 1) && Traced(states, ops, n + 1, s) && s.steps == n
    requires r in s.requests && s.asked[r] <= n
    requires RowOk(row) && Opens(states[s.asked[r]], ops[s.asked[r]], row)
    requires FlagsRise(s.requests[r], row) && row.promptConsent == s.requests[r].promptConsent
    requires row.consentGiven ==> Decides(states[n], ops[n], r, row)
    requires row.consentGiven && AskedForConsent(ops[s.asked[r]]) ==> InPerson(states[n], ops[n], r, row)
    ensures Traced(states, ops, n + 1, Update(s, r, row))
  {
    var s' := Update(s, r, row);
    assert RequestsTraced(states, ops, n + 1, s'.requests, s'.asked, s'.decided);
  }

  lemma CompleteTraced(states: seq<Auth>, ops: seq<Op>, n: nat, s: Auth, r: Id, limits: Limits)
    requires Indexed(states, ops, n + 1) && Traced(states, ops, n + 1, s)
    requires Live(s, r) && s.requests[r].consentGiven
    ensures Traced(states, ops, n + 1, Complete(s, r, limits).0)
  {
    var row := s.requests[r];
    if !limits.sessionUp || row.userId.value !in s.tokens.users {
    } else {
      GrantLog(s.tokens, row.clientId, row.userId.value, row.redirectUri, row.scopes, row.challenge, row.audience,
               limits.codeTTL, limits.sessionTTL, HybridFor(s, row));
      var tokens := Complete(s, r, limits).0.tokens;
      var s' := s.(tokens := tokens, requests := s.requests - {r},
                   issued := s.issued[s.tokens.next + 1 := Issuance(r, row, s.tokens.now)]);
      assert Complete(s, r, limits).0 == s';
      GrantedTraced(states, ops, n + 1, s, r, tokens);
    }
  }

  // A code is added to the store for request r, which goes.
  lemma GrantedTraced(states: seq<Auth>, ops: seq<Op>, m: nat, s: Auth, r: Id, tokens: TS.Store)
    requires Indexed(states, ops, m) && Traced(states, ops, m, s)
    requires Live(s, r) && s.requests[r].consentGiven && tokens.next >= s.tokens.next + 2
    requires s.tokens.next + 1 in tokens.log
    requires tokens.log == s.tokens.log[s.tokens.next + 1 := tokens.log[s.tokens.next + 1]]
    requires var e := tokens.log[s.tokens.next + 1]; e.parent.None? && Terms(e) == EntryOf(s.requests[r])
    ensures Traced(states, ops, m, s.(tokens := tokens, requests := s.requests - {r},
                                      issued := s.issued[s.tokens.next + 1 := Issuance(r, s.requests[r], s.tokens.now)]))
  {
    var code := s.tokens.next + 1;
    RemoveTraced(states, ops, m, s, r);
    IssueCodeTraced(states, ops, m, s, r, code);
    RootsGrow(states, ops, m, s.tokens.log, s.issued, code, tokens.log[code],
              Issuance(r, s.requests[r], s.tokens.now), s.tokens.next);
  }

  lemma GrantLog(t: TS.Store, clientId: Id, userId: Id, uri: string, scopes: Scopes, challenge: Option<string>,
                 audience: Option<string>, codeTTL: int, sessionTTL: int, hybrid: TS.Hybrid)
    requires userId in t.users
    ensures var t' := TS.Grant(t, clientId, userId, uri, scopes, challenge, audience, codeTTL, sessionTTL, hybrid).0;
            t'.log == t.log[t.next + 1 := TS.Entry(None, clientId, Some(userId), Some(t.next), audience, scopes)] &&
            t.next + 2 <= t'.next && t'.now == t.now && t'.users == t.users
  {
    match hybrid
    case CodeOnly =>
    case ClientGone =>
    case WithToken(ttl) =>
  }

  lemma RemoveTraced(states: seq<Auth>, ops: seq<Op>, m: nat, s: Auth, r: Id)
    requires Indexed(states, ops, m)
    requires RequestsTraced(states, ops, m, s.requests, s.asked, s.decided)
    ensures RequestsTraced(states, ops, m, s.requests - {r}, s.asked, s.decided)
  {
  }

  lemma IssueCodeTraced(states: seq<Auth>, ops: seq<Op>, m: nat, s: Auth, r: Id, code: Id)
    requires Indexed(states, ops, m) && Ok(s) && Live(s, r) && s.requests[r].consentGiven && code !in s.issued
    requires RowTraced(states, ops, m, r, s.requests[r], s.asked, s.decided)
    requires IssuedTraced(states, ops, m, s.issued, s.requests, s.nextRequest, s.asked, s.decided)
    ensures IssuedTraced(states, ops, m, s.issued[code := Issuance(r, s.requests[r], s.tokens.now)],
                         s.requests - {r}, s.nextRequest, s.asked, s.decided)
  {
  }

  lemma RootsGrow(states: seq<Auth>, ops: seq<Op>, m: nat, log: map<Id, TS.Entry>, issued: map<Id, Issuance>,
                  code: Id, e: TS.Entry, x: Issuance, next: Id)
    requires Indexed(states, ops, m) && RootsTraced(states, ops, m, log, issued) && LogBelow(next, log)
    requires code >= next && e.parent.None? && Terms(e) == EntryOf(x.row)
    ensures RootsTraced(states, ops, m, log[code := e], issued[code := x])
  {
  }

  // ---------------------------------------------------------------------
  // One step
  // ---------------------------------------------------------------------

  // The step numbered n is about to be taken.
  ghost predicate Working(states: seq<Auth>, ops: seq<Op>, n: nat) {
    n < |ops| < |states| && states[n].steps == n && Traced(states, ops, n + 1, states[n])
  }

  ghost predicate Kept(states: seq<Auth>, ops: seq<Op>, n: nat, s': Auth)
    requires n < |ops| < |states|
  {
    Traced(states, ops, n + 1, s') && Advances(states[n], s')
  }

  lemma OpenSilentlyKeeps(states: seq<Auth>, ops: seq<Op>, n: nat, scopes: Scopes)
    requires Working(states, ops, n) && ops[n].DoOpen? && ops[n].params.prompt == SilentPrompt
    requires Known(states[n], ops[n].params.clientId)
    requires ParamsProblem(states[n].clients[ops[n].params.clientId], ops[n].params).None?
    requires RequestScopes(states[n].clients[ops[n].params.clientId], ops[n].params) == (None, scopes)
    ensures Kept(states, ops, n, OpenSilently(states[n], ops[n].params, scopes, ops[n].limits).0)
  {
    var s, p := states[n], ops[n].params;
    if p.hintUser.None? {
    } else if !ConsentCovers(s, p.hintUser.value, p.clientId, scopes) && !FirstParty(s, p.clientId) {
    } else {
      var row := SilentRow(s.tokens.now, p, scopes, p.hintUser.value);
      if Storable(s, row) {
        InsertTraced(states, ops, n, s, row);
        InsertAdvances(s, row);
        CompleteTraced(states, ops, n, Insert(s, row), s.nextRequest, ops[n].limits);
        CompleteAdvances(Insert(s, row), s.nextRequest, ops[n].limits);
      }
    }
  }

  lemma TrySsoKeeps(states: seq<Auth>, ops: seq<Op>, n: nat, scopes: Scopes)
    requires Working(states, ops, n) && ops[n].DoOpen? && ops[n].params.sso.Some?
    requires Known(states[n], ops[n].params.clientId)
    requires ParamsProblem(states[n].clients[ops[n].params.clientId], ops[n].params).None?
    requires ops[n].params.prompt != LoginPrompt && ops[n].params.prompt != SilentPrompt
    requires RequestScopes(states[n].clients[ops[n].params.clientId], ops[n].params) == (None, scopes)
    ensures var s' := TrySso(states[n], ops[n].params, scopes, ops[n].params.sso.value, ops[n].limits).0;
            Kept(states, ops, n, s') && s'.steps == n
  {
    var s, p, sso := states[n], ops[n].params, ops[n].params.sso.value;
    var needsConsent := SsoNeedsConsent(s, p, scopes, sso);
    var row := SsoRow(s.tokens.now, p, scopes, sso, !needsConsent);
    if TooOld(s, p, sso) || !Storable(s, row) {
    } else {
      InsertTraced(states, ops, n, s, row);
      InsertAdvances(s, row);
      if needsConsent {
      } else {
        CompleteTraced(states, ops, n, Insert(s, row), s.nextRequest, ops[n].limits);
        CompleteAdvances(Insert(s, row), s.nextRequest, ops[n].limits);
      }
    }
  }

  lemma OpenInteractivelyKeeps(states: seq<Auth>, ops: seq<Op>, n: nat, scopes: Scopes, s: Auth)
    requires Working(states, ops, n) && ops[n].DoOpen?
    requires Known(states[n], ops[n].params.clientId)
    requires ParamsProblem(states[n].clients[ops[n].params.clientId], ops[n].params).None?
    requires RequestScopes(states[n].clients[ops[n].params.clientId], ops[n].params) == (None, scopes)
    requires Kept(states, ops, n, s) && s.steps == n
    ensures Kept(states, ops, n, OpenInteractively(s, ops[n].params, scopes).0)
  {
    var row := InteractiveRow(s.tokens.now, ops[n].params, scopes);
    InsertTraced(states, ops, n, s, row);
    InsertAdvances(s, row);
  }

  lemma OpenKeeps(states: seq<Auth>, ops: seq<Op>, n: nat)
    requires Working(states, ops, n) && ops[n].DoOpen?
    ensures Kept(states, ops, n, Open(states[n], ops[n].params, ops[n].limits).0)
  {
    var s, p := states[n], ops[n].params;
    if !Known(s, p.clientId) {
    } else {
      var (scopeProblem, scopes) := RequestScopes(s.clients[p.clientId], p);
      if ParamsProblem(s.clients[p.clientId], p).Some? {
      } else if scopeProblem.Some? {
      } else if p.prompt == SilentPrompt {
        OpenSilentlyKeeps(states, ops, n, scopes);
      } else if p.sso.Some? && p.prompt != LoginPrompt {
        TrySsoKeeps(states, ops, n, scopes);
        var (s', reply) := TrySso(s, p, scopes, p.sso.value, ops[n].limits);
        if reply.Some? {} else {
          OpenInteractivelyKeeps(states, ops, n, scopes, s');
        }
      } else {
        OpenInteractivelyKeeps(states, ops, n, scopes, s);
      }
    }
  }

  lemma SignInKeeps(states: seq<Auth>, ops: seq<Op>, n: nat, r: Id, user: Id, needsMfa: bool, reply: Reply)
    requires Working(states, ops, n) && (ops[n].DoLogin? || ops[n].DoResume?) && ops[n].request == r
    requires if ops[n].DoLogin? then ops[n].auth == Some(user) && !ops[n].denied && !ops[n].policy.ForbidsLogin?
             else ops[n].user == Some(user) && ops[n].active
    requires Live(states[n], r) && !states[n].requests[r].authenticated && (needsMfa || !FactorDue(ops[n]))
    ensures var s := states[n];
            Kept(states, ops, n, Saved(s, r, SignedIn(s, s.requests[r], user, needsMfa), reply).0)
  {
    var s := states[n];
    var row := SignedIn(s, s.requests[r], user, needsMfa);
    if Storable(s, row) {
      UpdateTraced(states, ops, n, s, r, row);
      UpdateAdvances(s, r, row);
    }
  }

  lemma LoginKeeps(states: seq<Auth>, ops: seq<Op>, n: nat)
    requires Working(states, ops, n) && ops[n].DoLogin?
    ensures Kept(states, ops, n, Do(states[n], ops[n]).0)
  {
    var s, op := states[n], ops[n];
    if !Live(s, op.request) || s.requests[op.request].authenticated {
    } else if op.auth.None? {
    } else if !Known(s, s.requests[op.request].clientId) {
    } else if op.denied || op.policy.ForbidsLogin? || (op.policy == RequireMfa(true) && !op.hasMfa) {
    } else {
      var needsMfa := if op.policy.RequireMfa? then op.policy.required else op.hasMfa;
      SignInKeeps(states, ops, n, op.request, op.auth.value, needsMfa,
                  Progress(!needsMfa, NeedsConsent(s, s.requests[op.request], op.auth.value)));
    }
  }

  lemma ResumeKeeps(states: seq<Auth>, ops: seq<Op>, n: nat)
    requires Working(states, ops, n) && ops[n].DoResume?
    ensures Kept(states, ops, n, Do(states[n], ops[n]).0)
  {
    var s, op := states[n], ops[n];
    if !Live(s, op.request) || s.requests[op.request].authenticated {
    } else if op.user.None? {
    } else if !op.active {
    } else if !Known(s, s.requests[op.request].clientId) {
    } else {
      SignInKeeps(states, ops, n, op.request, op.user.value, op.hasMfa,
                  Progress(!op.hasMfa, NeedsConsent(s, s.requests[op.request], op.user.value)));
    }
  }

  lemma RegisterKeeps(states: seq<Auth>, ops: seq<Op>, n: nat)
    requires Working(states, ops, n) && ops[n].DoRegister?
    ensures Kept(states, ops, n, Do(states[n], ops[n]).0)
  {
    var s, op := states[n], ops[n];
    if !Live(s, op.request) || s.requests[op.request].authenticated {
    } else if !Known(s, s.requests[op.request].clientId) {
    } else if op.created.None? {
    } else {
      var row := s.requests[op.request].(userId := op.created, expiresAt := s.tokens.now + 24 * HOUR);
      if Storable(s, row) {
        UpdateTraced(states, ops, n, s, op.request, row);
        UpdateAdvances(s, op.request, row);
      }
    }
  }

  lemma MfaKeeps(states: seq<Auth>, ops: seq<Op>, n: nat)
    requires Working(states, ops, n) && ops[n].DoMfa?
    ensures Kept(states, ops, n, Do(states[n], ops[n]).0)
  {
    var s, r := states[n], ops[n].request;
    if !Live(s, r) || s.requests[r].userId.None? || s.requests[r].authenticated {
    } else if !ops[n].valid {
    } else {
      var row := s.requests[r];
      if !ConsentCovers(s, row.userId.value, row.clientId, row.scopes) && !Known(s, row.clientId) {
      } else if Storable(s, Verified(s, row)) {
        UpdateTraced(states, ops, n, s, r, Verified(s, row));
        UpdateAdvances(s, r, Verified(s, row));
      }
    }
  }

  lemma AgreedScopesShrink(row: Request, granted: Scopes, verdict: TS.Verdict)
    ensures Within(ConsentScopes(row, granted, verdict).1, row.scopes)
  {
  }

  lemma ConsentKeeps(states: seq<Auth>, ops: seq<Op>, n: nat)
    requires Working(states, ops, n) && ops[n].DoConsent?
    ensures Kept(states, ops, n, Do(states[n], ops[n]).0)
  {
    var s, op, r := states[n], ops[n], ops[n].request;
    if !Live(s, r) || !s.requests[r].authenticated {
    } else {
      var row := s.requests[r];
      var (problem, scopes) := ConsentScopes(row, op.granted, op.verdict);
      AgreedScopesShrink(row, op.granted, op.verdict);
      if problem.Some? {
      } else if !Storable(s, row) {
      } else {
        var s1 := s.(consents := s.consents[(row.userId.value, row.clientId) := scopes]);
        var row' := row.(consentGiven := true, scopes := scopes);
        UpdateTraced(states, ops, n, s1, r, row');
        UpdateAdvances(s1, r, row');
        CompleteTraced(states, ops, n, Update(s1, r, row'), r, op.limits);
        CompleteAdvances(Update(s1, r, row'), r, op.limits);
      }
    }
  }

  lemma VerifyEmailKeeps(states: seq<Auth>, ops: seq<Op>, n: nat)
    requires Working(states, ops, n) && ops[n].DoVerifyEmail?
    ensures Kept(states, ops, n, Do(states[n], ops[n]).0)
  {
    var s, op, r := states[n], ops[n], ops[n].request;
    if !Live(s, r) || s.requests[r].userId != Some(op.verified) {
    } else {
      var row := s.requests[r].(authenticated := true, authTime := Some(s.tokens.now), consentGiven := true);
      if !Storable(s, row) {
      } else {
        UpdateTraced(states, ops, n, s, r, row);
        UpdateAdvances(s, r, row);
        CompleteTraced(states, ops, n, Update(s, r, row), r, op.limits);
        CompleteAdvances(Update(s, r, row), r, op.limits);
      }
    }
  }

  lemma FinishKeeps(states: seq<Auth>, ops: seq<Op>, n: nat)
    requires Working(states, ops, n) && ops[n].DoFinish?
    ensures Kept(states, ops, n, Do(states[n], ops[n]).0)
  {
    var s, r := states[n], ops[n].request;
    if !Live(s, r) || !s.requests[r].authenticated || !s.requests[r].consentGiven {
    } else {
      CompleteTraced(states, ops, n, s, r, ops[n].limits);
      CompleteAdvances(s, r, ops[n].limits);
    }
  }

  // What a step of the token store adds to its record of grants.
  ghost predicate LogGrows(t: TS.Store, op: TS.Op, t': TS.Store) {
    && t.next <= t'.next
    && (forall k :: k in t.log ==> k in t'.log && t'.log[k] == t.log[k])
    && (forall k :: k in t'.log && k !in t.log ==>
          k < t'.next && (t'.log[k].parent.Some? ||
                          (op.DoInitDevice? && k == t.next && t'.log[k].clientId == op.client.id &&
                           t'.log[k].scopes == ClientScopes(op.client.scopes, op.requested) &&
                           t'.log[k].userId.None? && t'.log[k].audience.None?)))
  }

  lemma IssueLog(t: TS.Store, c: TS.Client, userId: Id, sessionId: Id, scopes: Scopes, audience: Option<string>,
                 origin: Id, env: TS.Env, op: TS.Op)
    requires LogBelow(t.next, t.log)
    ensures LogGrows(t, op, TS.Issue(t, c, userId, sessionId, scopes, audience, origin, env).0)
  {
    if TS.IssueError(t, userId, sessionId, audience, env).Some? {} else {}
  }

  lemma ExchangeLog(t: TS.Store, op: TS.Op)
    requires LogBelow(t.next, t.log) && (op.DoRedeemCode? || op.DoRefresh?)
    ensures LogGrows(t, op, TS.Step(t, op).0)
  {
    if op.DoRedeemCode? {
      if TS.CodeError(t, op.client, op.code, op.redirectUri, op.verifier).Some? {
      } else {
        var row := t.codes[op.code];
        IssueLog(t.(codes := t.codes[op.code := row.(used := true)]), op.client, row.userId, row.sessionId,
                 row.scopes, row.audience, op.code, op.env, op);
      }
    } else {
      if TS.RefreshError(t, op.client, op.rt, op.requested, op.verdict).Some? {
      } else {
        var row := t.rts[op.rt];
        IssueLog(t.(rts := t.rts[op.rt := row.(rotatedAt := Some(t.now))], ats := TS.RevokeByRefresh(t.ats, op.rt)),
                 op.client, row.userId, row.sessionId,
                 TS.RefreshScopes(row.scopes, op.requested, op.verdict).1, row.audience, op.rt, op.env, op);
      }
    }
  }

  lemma PollLog(t: TS.Store, op: TS.Op)
    requires LogBelow(t.next, t.log) && op.DoPoll?
    ensures LogGrows(t, op, TS.Step(t, op).0)
  {
    if TS.ThrottleError(t, op.client, op.device).Some? {
    } else {
      var row := t.devices[op.device].(lastPolledAt := Some(t.now));
      var t1 := t.(devices := t.devices[op.device := row]);
      match row.status
      case Pending =>
      case Denied =>
      case Consumed =>
      case Authorized =>
        if row.userId.None? || row.sessionId.None? {
        } else {
          IssueLog(t1, op.client, row.userId.value, row.sessionId.value, row.scopes, None, op.device, op.env, op);
        }
    }
  }

  lemma CredentialsLog(t: TS.Store, c: TS.Client, requested: Scopes, audience: Option<string>, perms: Scopes,
                       env: TS.Env)
    ensures TS.ClientCredentials(t, c, requested, audience, perms, env).0.log == t.log
    ensures TS.ClientCredentials(t, c, requested, audience, perms, env).0.codes == t.codes
    ensures t.next <= TS.ClientCredentials(t, c, requested, audience, perms, env).0.next
  {
    if TS.CredentialError(c, requested, audience, perms, env).Some? {} else {}
  }

  lemma ApproveLog(t: TS.Store, d: Id, u: Id, approved: bool, denies: bool, ttl: int)
    ensures TS.ApproveDevice(t, d, u, approved, denies, ttl).0.log == t.log
    ensures TS.ApproveDevice(t, d, u, approved, denies, ttl).0.codes == t.codes
    ensures t.next <= TS.ApproveDevice(t, d, u, approved, denies, ttl).0.next
  {
    if TS.ApproveError(t, d, u, approved, denies).Some? {} else if !approved {} else {}
  }

  lemma InitLog(t: TS.Store, op: TS.Op)
    requires LogBelow(t.next, t.log) && op.DoInitDevice?
    ensures LogGrows(t, op, TS.Step(t, op).0)
  {
    if TS.DeviceGrant !in op.client.grantTypes {} else {}
  }

  lemma QuietLog(t: TS.Store, op: TS.Op)
    requires LogBelow(t.next, t.log)
    requires op.Tick? || op.AddUser? || op.SchedulePurge? || op.RevokeSession? || op.LoadKeys? || op.DoLookup? ||
             op.DoIntrospect? || op.DoSweep?
    ensures LogGrows(t, op, TS.Step(t, op).0)
  {
  }

  lemma OtherLog(t: TS.Store, op: TS.Op)
    requires LogBelow(t.next, t.log) && (op.DoCredentials? || op.DoApprove? || op.DoRevoke?)
    ensures LogGrows(t, op, TS.Step(t, op).0)
  {
    match op
    case DoCredentials(c, requested, audience, perms, env) => CredentialsLog(t, c, requested, audience, perms, env);
    case DoApprove(d, u, approved, denies, ttl) => ApproveLog(t, d, u, approved, denies, ttl);
    case DoRevoke(token, hint, c) => TS.RevokeTouchesTokens(t, token, hint, c);
  }

  lemma StoreLog(t: TS.Store, op: TS.Op)
    requires LogBelow(t.next, t.log) && !op.DoGrant?
    ensures LogGrows(t, op, TS.Step(t, op).0)
  {
    match op
    case DoRedeemCode(_, _, _, _, _) => ExchangeLog(t, op);
    case DoRefresh(_, _, _, _, _) => ExchangeLog(t, op);
    case DoPoll(_, _, _) => PollLog(t, op);
    case DoInitDevice(_, _, _) => InitLog(t, op);
    case DoCredentials(_, _, _, _, _) => OtherLog(t, op);
    case DoApprove(_, _, _, _, _) => OtherLog(t, op);
    case DoRevoke(_, _, _) => OtherLog(t, op);
    case _ => QuietLog(t, op);
  }

  lemma OnTokensKeeps(states: seq<Auth>, ops: seq<Op>, n: nat)
    requires Working(states, ops, n) && ops[n].OnStore?
    ensures Kept(states, ops, n, Do(states[n], ops[n]).0)
  {
    var s, op := states[n], ops[n].op;
    if op.DoGrant? {
    } else {
      var s' := OnTokens(s, op);
      StoreLog(s.tokens, op);
      RequestsSubset(states, ops, n, s, s'.requests);
      RootsOfStore(states, ops, n, s, s'.tokens);
    }
  }

  lemma RequestsSubset(states: seq<Auth>, ops: seq<Op>, n: nat, s: Auth, requests: map<Id, Request>)
    requires Working(states, ops, n) && s == states[n]
    requires forall r :: r in requests ==> r in s.requests && requests[r] == s.requests[r]
    ensures RequestsTraced(states, ops, n + 1, requests, s.asked, s.decided)
    ensures IssuedTraced(states, ops, n + 1, s.issued, requests, s.nextRequest, s.asked, s.decided)
    ensures AllOk(s.nextRequest, requests) && RowsAdvance(s.nextRequest, s.requests, requests)
  {
  }

  lemma RootsOfStore(states: seq<Auth>, ops: seq<Op>, n: nat, s: Auth, t': TS.Store)
    requires Working(states, ops, n) && s == states[n] && ops[n].OnStore?
    requires LogGrows(s.tokens, ops[n].op, t')
    ensures RootsTraced(states, ops, n + 1, t'.log, s.issued) && LogBelow(t'.next, t'.log)
  {
    forall g | g in t'.log && t'.log[g].parent.None? && g !in s.issued
      ensures exists k :: 0 <= k < n + 1 && OpensDevice(states[k], ops[k], g, t'.log[g])
    {
      if g !in s.tokens.log {
        assert OpensDevice(states[n], ops[n], g, t'.log[g]);
      }
    }
  }

  lemma StepKeeps(states: seq<Auth>, ops: seq<Op>, n: nat)
    requires Working(states, ops, n)
    ensures Kept(states, ops, n, Do(states[n], ops[n]).0)
  {
    match ops[n]
    case DoOpen(p, limits) => OpenKeeps(states, ops, n);
    case DoLogin(r, auth, denied, hasMfa, policy) => LoginKeeps(states, ops, n);
    case DoResume(r, user, active, hasMfa) => ResumeKeeps(states, ops, n);
    case DoRegister(r, created) => RegisterKeeps(states, ops, n);
    case DoMfa(r, valid) => MfaKeeps(states, ops, n);
    case DoConsent(r, granted, verdict, limits) => ConsentKeeps(states, ops, n);
    case DoVerifyEmail(r, user, limits) => VerifyEmailKeeps(states, ops, n);
    case DoFinish(r, limits) => FinishKeeps(states, ops, n);
    case SetClient(c, info) =>
    case RevokeConsent(u, c) =>
    case OnStore(op) => OnTokensKeeps(states, ops, n);
  }

  // Counting the step changes nothing else.
  lemma CountedTraced(states: seq<Auth>, ops: seq<Op>, m: nat, s: Auth, steps: nat)
    requires Indexed(states, ops, m) && Traced(states, ops, m, s)
    ensures Traced(states, ops, m, s.(steps := steps))
  {
  }

  lemma NextTraced(states: seq<Auth>, ops: seq<Op>, n: nat)
    requires Execution(states, ops) && n < |ops|
    requires Traced(states, ops, n, states[n]) && states[n].steps == n
    ensures Traced(states, ops, n + 1, states[n + 1]) && states[n + 1].steps == n + 1
    ensures Advances(states[n], states[n + 1])
  {
    TracedLater(states, ops, n, states[n]);
    StepKeeps(states, ops, n);
    assert states[n + 1] == Step(states[n], ops[n]);
    CountedTraced(states, ops, n + 1, Do(states[n], ops[n]).0, n + 1);
  }

  lemma {:induction false} RunTraced(states: seq<Auth>, ops: seq<Op>, n: nat)
    requires Execution(states, ops) && n <= |ops|
    ensures Traced(states, ops, n, states[n]) && states[n].steps == n
    decreases n
  {
    if n == 0 {
      assert states[0] == Initial;
    } else {
      RunTraced(states, ops, n - 1);
      NextTraced(states, ops, n - 1);
    }
  }

  // ---------------------------------------------------------------------
  // What holds of every run
  // ---------------------------------------------------------------------

  // In every reachable state consent implies a sign-in, which implies a user
  // and its instant; from any point of a run to any later one both flags only
  // rise, the user stays once signed in, and the terms of a request never
  // widen.
  lemma RequestsOnlyAdvance(states: seq<Auth>, ops: seq<Op>, i: nat, j: nat)
    requires Execution(states, ops) && i <= j <= |ops|
    ensures Ok(states[j]) && Advances(states[i], states[j])
  {
    RunTraced(states, ops, i);
    forall k | i <= k < j ensures Advances(states[k], states[k + 1]) {
      OneStepAdvances(states, ops, k);
    }
    ChainAdvances(states, i, j);
  }

  lemma {:induction false} ChainAdvances(states: seq<Auth>, i: nat, j: nat)
    requires i <= j < |states| && Ok(states[i])
    requires forall k :: i <= k < j ==> Advances(states[k], states[k + 1])
    ensures Ok(states[j]) && Advances(states[i], states[j])
    decreases j - i
  {
    if i == j {
      AdvancesToItself(states[i]);
    } else {
      ChainAdvances(states, i, j - 1);
      assert Advances(states[j - 1], states[j - 1 + 1]);
      AdvancesTwice(states[i], states[j - 1], states[j]);
    }
  }

  lemma AdvancesToItself(s: Auth)
    requires Ok(s)
    ensures Advances(s, s)
  {
  }

  lemma OneStepAdvances(states: seq<Auth>, ops: seq<Op>, n: nat)
    requires Execution(states, ops) && n < |ops|
    ensures Advances(states[n], states[n + 1])
  {
    RunTraced(states, ops, n);
    NextTraced(states, ops, n);
  }

  // Every code was issued for a request that was signed in, consented to and
  // not expired; the request is gone, and no other code was issued for it.
  lemma CodesComeFromReadyRequests(states: seq<Auth>, ops: seq<Op>, n: nat, c: Id)
    requires Execution(states, ops) && n <= |ops| && c in states[n].issued
    ensures var x := states[n].issued[c];
            && x.row.authenticated && x.row.consentGiven && x.row.userId.Some? && x.row.authTime.Some?
            && x.at < x.row.expiresAt && x.request !in states[n].requests
    ensures forall d :: d in states[n].issued && states[n].issued[d].request == states[n].issued[c].request ==> d == c
  {
    RunTraced(states, ops, n);
  }

  // Codes go where their request said, bound to the challenge it came with.
  ghost predicate CodesCarry(codes: map<Id, TS.AuthCode>, issued: map<Id, Issuance>) {
    forall c :: c in codes && c in issued ==>
      codes[c].redirectUri == issued[c].row.redirectUri && codes[c].challenge == issued[c].row.challenge
  }

  ghost predicate StoreOk(s: Auth) {
    && Lineage.Inv(s.tokens) && CodesCarry(s.tokens.codes, s.issued)
    && forall c :: c in s.issued ==> c < s.tokens.next
  }

  lemma GrantCode(t: TS.Store, clientId: Id, userId: Id, uri: string, scopes: Scopes, challenge: Option<string>,
                  audience: Option<string>, codeTTL: int, sessionTTL: int, hybrid: TS.Hybrid)
    requires userId in t.users
    ensures var t' := TS.Grant(t, clientId, userId, uri, scopes, challenge, audience, codeTTL, sessionTTL, hybrid).0;
            t'.codes == t.codes[t.next + 1 := TS.AuthCode(clientId, userId, uri, scopes, challenge, t.next, audience,
                                                          t.now + codeTTL, false)] &&
            t.next + 2 <= t'.next
  {
    match hybrid
    case CodeOnly =>
    case ClientGone =>
    case WithToken(ttl) =>
  }

  // No other step of the token store writes a code but to mark it used.
  ghost predicate CodesKept(t: TS.Store, t': TS.Store) {
    && t.next <= t'.next
    && forall k :: k in t'.codes ==> k in t.codes && t'.codes[k].(used := true) == t.codes[k].(used := true)
  }

  lemma IssueLeavesCodes(t: TS.Store, c: TS.Client, userId: Id, sessionId: Id, scopes: Scopes,
                         audience: Option<string>, origin: Id, env: TS.Env)
    ensures var t' := TS.Issue(t, c, userId, sessionId, scopes, audience, origin, env).0;
            t'.codes == t.codes && t.next <= t'.next
  {
    if TS.IssueError(t, userId, sessionId, audience, env).Some? {} else {}
  }

  lemma ExchangeKeepsCodes(t: TS.Store, op: TS.Op)
    requires op.DoRedeemCode? || op.DoRefresh?
    ensures CodesKept(t, TS.Step(t, op).0)
  {
    if op.DoRedeemCode? {
      if TS.CodeError(t, op.client, op.code, op.redirectUri, op.verifier).Some? {
      } else {
        var row := t.codes[op.code];
        IssueLeavesCodes(t.(codes := t.codes[op.code := row.(used := true)]), op.client, row.userId, row.sessionId,
                         row.scopes, row.audience, op.code, op.env);
      }
    } else {
      if TS.RefreshError(t, op.client, op.rt, op.requested, op.verdict).Some? {
      } else {
        var row := t.rts[op.rt];
        IssueLeavesCodes(t.(rts := t.rts[op.rt := row.(rotatedAt := Some(t.now))],
                            ats := TS.RevokeByRefresh(t.ats, op.rt)),
                         op.client, row.userId, row.sessionId,
                         TS.RefreshScopes(row.scopes, op.requested, op.verdict).1, row.audience, op.rt, op.env);
      }
    }
  }

  lemma PollKeepsCodes(t: TS.Store, op: TS.Op)
    requires op.DoPoll?
    ensures CodesKept(t, TS.Step(t, op).0)
  {
    if TS.ThrottleError(t, op.client, op.device).Some? {
    } else {
      var row := t.devices[op.device].(lastPolledAt := Some(t.now));
      var t1 := t.(devices := t.devices[op.device := row]);
      match row.status
      case Pending =>
      case Denied =>
      case Consumed =>
      case Authorized =>
        if row.userId.None? || row.sessionId.None? {
        } else {
          IssueLeavesCodes(t1, op.client, row.userId.value, row.sessionId.value, row.scopes, None, op.device, op.env);
        }
    }
  }

  lemma InitLeavesCodes(t: TS.Store, c: TS.Client, requested: Scopes, ttl: int)
    ensures TS.InitDevice(t, c, requested, ttl).0.codes == t.codes
    ensures t.next <= TS.InitDevice(t, c, requested, ttl).0.next
  {
    if TS.DeviceGrant !in c.grantTypes {} else {}
  }

  lemma OtherKeepsCodes(t: TS.Store, op: TS.Op)
    requires op.DoCredentials? || op.DoApprove? || op.DoInitDevice? || op.DoRevoke?
    ensures CodesKept(t, TS.Step(t, op).0)
  {
    match op
    case DoCredentials(c, requested, audience, perms, env) => CredentialsLog(t, c, requested, audience, perms, env);
    case DoApprove(d, u, approved, denies, ttl) => ApproveLog(t, d, u, approved, denies, ttl);
    case DoInitDevice(c, requested, ttl) => InitLeavesCodes(t, c, requested, ttl);
    case DoRevoke(token, hint, c) => TS.RevokeTouchesTokens(t, token, hint, c);
  }

  lemma QuietKeepsCodes(t: TS.Store, op: TS.Op)
    requires op.Tick? || op.AddUser? || op.SchedulePurge? || op.RevokeSession? || op.LoadKeys? || op.DoLookup? ||
             op.DoIntrospect? || op.DoSweep?
    ensures CodesKept(t, TS.Step(t, op).0)
  {
  }

  lemma StoreKeepsCodes(t: TS.Store, op: TS.Op)
    requires !op.DoGrant?
    ensures CodesKept(t, TS.Step(t, op).0)
  {
    match op
    case DoRedeemCode(_, _, _, _, _) => ExchangeKeepsCodes(t, op);
    case DoRefresh(_, _, _, _, _) => ExchangeKeepsCodes(t, op);
    case DoPoll(_, _, _) => PollKeepsCodes(t, op);
    case DoInitDevice(_, _, _) => OtherKeepsCodes(t, op);
    case DoCredentials(_, _, _, _, _) => OtherKeepsCodes(t, op);
    case DoApprove(_, _, _, _, _) => OtherKeepsCodes(t, op);
    case DoRevoke(_, _, _) => OtherKeepsCodes(t, op);
    case _ => QuietKeepsCodes(t, op);
  }

  lemma CompleteSound(s: Auth, r: Id, limits: Limits)
    requires r in s.requests && s.requests[r].userId.Some? && StoreOk(s)
    ensures StoreOk(Complete(s, r, limits).0)
  {
    var row := s.requests[r];
    if !limits.sessionUp || row.userId.value !in s.tokens.users {
    } else {
      Lineage.GrantKeeps(s.tokens, row.clientId, row.userId.value, row.redirectUri, row.scopes, row.challenge,
                         row.audience, limits.codeTTL, limits.sessionTTL, HybridFor(s, row));
      GrantCode(s.tokens, row.clientId, row.userId.value, row.redirectUri, row.scopes, row.challenge, row.audience,
                limits.codeTTL, limits.sessionTTL, HybridFor(s, row));
    }
  }

  lemma OpenSound(s: Auth, p: Params, limits: Limits)
    requires StoreOk(s)
    ensures StoreOk(Open(s, p, limits).0)
  {
    if !Known(s, p.clientId) {
    } else {
      var (scopeProblem, scopes) := RequestScopes(s.clients[p.clientId], p);
      if ParamsProblem(s.clients[p.clientId], p).Some? {
      } else if scopeProblem.Some? {
      } else if p.prompt == SilentPrompt {
        SilentSound(s, p, scopes, limits);
      } else if p.sso.Some? && p.prompt != LoginPrompt {
        SsoSound(s, p, scopes, p.sso.value, limits);
      } else {
      }
    }
  }

  lemma SilentSound(s: Auth, p: Params, scopes: Scopes, limits: Limits)
    requires StoreOk(s)
    ensures StoreOk(OpenSilently(s, p, scopes, limits).0)
  {
    if p.hintUser.None? {
    } else if !ConsentCovers(s, p.hintUser.value, p.clientId, scopes) && !FirstParty(s, p.clientId) {
    } else if Storable(s, SilentRow(s.tokens.now, p, scopes, p.hintUser.value)) {
      CompleteSound(Insert(s, SilentRow(s.tokens.now, p, scopes, p.hintUser.value)), s.nextRequest, limits);
    }
  }

  lemma SsoSound(s: Auth, p: Params, scopes: Scopes, sso: Sso, limits: Limits)
    requires StoreOk(s)
    ensures StoreOk(TrySso(s, p, scopes, sso, limits).0)
  {
    var needsConsent := SsoNeedsConsent(s, p, scopes, sso);
    var row := SsoRow(s.tokens.now, p, scopes, sso, !needsConsent);
    if TooOld(s, p, sso) || !Storable(s, row) {
    } else if needsConsent {
    } else {
      CompleteSound(Insert(s, row), s.nextRequest, limits);
    }
  }

  lemma FinishSound(s: Auth, r: Id, limits: Limits)
    requires StoreOk(s)
    ensures StoreOk(Finish(s, r, limits).0)
  {
    if Live(s, r) && s.requests[r].userId.Some? {
      CompleteSound(s, r, limits);
    }
  }

  lemma VerifyEmailSound(s: Auth, r: Id, user: Id, limits: Limits)
    requires StoreOk(s)
    ensures StoreOk(VerifyEmail(s, r, user, limits).0)
  {
    if Live(s, r) && s.requests[r].userId == Some(user) {
      var row := s.requests[r].(authenticated := true, authTime := Some(s.tokens.now), consentGiven := true);
      CompleteSound(Update(s, r, row), r, limits);
    }
  }

  lemma ConsentSound(s: Auth, r: Id, granted: Scopes, verdict: TS.Verdict, limits: Limits)
    requires StoreOk(s)
    ensures StoreOk(Consent(s, r, granted, verdict, limits).0)
  {
    if Live(s, r) && s.requests[r].userId.Some? {
      var row := s.requests[r];
      var (problem, scopes) := ConsentScopes(row, granted, verdict);
      var s1 := s.(consents := s.consents[(row.userId.value, row.clientId) := scopes]);
      CompleteSound(Update(s1, r, row.(consentGiven := true, scopes := scopes)), r, limits);
    }
  }

  // Steps that write no token table.
  lemma AdvancingSound(s: Auth, op: Op)
    requires op.DoLogin? || op.DoResume? || op.DoRegister? || op.DoMfa? || op.SetClient? || op.RevokeConsent?
    ensures Do(s, op).0.tokens == s.tokens && Do(s, op).0.issued == s.issued
  {
  }

  lemma StepSound(s: Auth, op: Op)
    requires StoreOk(s)
    ensures StoreOk(Do(s, op).0)
  {
    match op
    case DoOpen(p, limits) => OpenSound(s, p, limits);
    case DoConsent(r, granted, verdict, limits) => ConsentSound(s, r, granted, verdict, limits);
    case DoVerifyEmail(r, user, limits) => VerifyEmailSound(s, r, user, limits);
    case DoFinish(r, limits) => FinishSound(s, r, limits);
    case OnStore(op) =>
      if op.DoGrant? {} else {
        Lineage.StepKeeps(s.tokens, op);
        StoreKeepsCodes(s.tokens, op);
      }
    case _ => AdvancingSound(s, op);
  }

  lemma {:induction false} StoreStaysOk(states: seq<Auth>, ops: seq<Op>, n: nat)
    requires Execution(states, ops) && n <= |ops|
    ensures StoreOk(states[n])
    decreases n
  {
    if n > 0 {
      StoreStaysOk(states, ops, n - 1);
      assert states[n - 1 + 1] == Step(states[n - 1], ops[n - 1]);
      StepSound(states[n - 1], ops[n - 1]);
    }
  }

  // The token store under the machine stays one the lineage theorems speak of.
  lemma TokensStaySound(states: seq<Auth>, ops: seq<Op>, n: nat)
    requires Execution(states, ops) && n <= |ops|
    ensures Lineage.Inv(states[n].tokens)
  {
    StoreStaysOk(states, ops, n);
  }

  // The code row carries what the request carried.
  lemma CodesCarryTheirRequest(states: seq<Auth>, ops: seq<Op>, n: nat, c: Id)
    requires Execution(states, ops) && n <= |ops| && c in states[n].tokens.codes
    ensures c in states[n].issued
    ensures var x, row := states[n].issued[c].row, states[n].tokens.codes[c];
            row.clientId == x.clientId && Some(row.userId) == x.userId && row.scopes == x.scopes &&
            row.audience == x.audience && row.redirectUri == x.redirectUri && row.challenge == x.challenge
  {
    RunTraced(states, ops, n);
    StoreStaysOk(states, ops, n);
    var t := states[n].tokens;
    assert t.log[c] == TS.CodeEntry(t.codes[c]);
  }

  // Every code goes to a redirect URI that was registered for its client, which
  // was allowed the code grant, when the request was opened; and the code of a
  // client that was public or had to use PKCE is bound to a challenge.
  lemma CodesGoWhereRegistered(states: seq<Auth>, ops: seq<Op>, n: nat, c: Id) returns (asked: nat)
    requires Execution(states, ops) && n <= |ops| && c in states[n].tokens.codes
    ensures asked < n && ops[asked].DoOpen?
    ensures var code := states[n].tokens.codes[c];
            && Known(states[asked], code.clientId)
            && var client := states[asked].clients[code.clientId];
               && code.redirectUri in client.redirectUris && client.codeGrant
               && (client.isPublic || client.requirePKCE ==>
                     TS.HasPKCE(code) && code.challenge == Some(ops[asked].params.challenge))
  {
    RunTraced(states, ops, n);
    CodesCarryTheirRequest(states, ops, n, c);
    asked := states[n].asked[states[n].issued[c].request];
  }

  // So tokens for such a code are issued only against a verifier that matches
  // the challenge the request was opened with (section 4.6 of RFC 7636), and
  // only for the client and the registered redirect URI of that request.
  lemma ProofKeysAreEnforced(states: seq<Auth>, ops: seq<Op>, n: nat, c: Id, client: TS.Client, uri: string,
                             verifier: string, env: TS.Env) returns (asked: nat)
    requires Execution(states, ops) && n <= |ops|
    requires TS.RedeemCode(states[n].tokens, client, c, uri, verifier, env).1.Issued?
    ensures asked < n && ops[asked].DoOpen? && ops[asked].params.clientId == client.id
    ensures Known(states[asked], client.id) && uri in states[asked].clients[client.id].redirectUris
    ensures var info := states[asked].clients[client.id];
            info.isPublic || info.requirePKCE ==> TS.VerifyPKCE(verifier, ops[asked].params.challenge)
  {
    if TS.CodeError(states[n].tokens, client, c, uri, verifier).Some? {
    } else {
      RunTraced(states, ops, n);
      CodesCarryTheirRequest(states, ops, n, c);
      asked := states[n].asked[states[n].issued[c].request];
    }
  }

  // The client is first-party, or a consent the user had stored when they
  // signed in covers the code's scopes, or the user granted those scopes or
  // confirmed their address in person; and after prompt=consent only the last
  // will do, silent sign-on or not. Scopes granted in person are the ones
  // stored as the user's consent from that step on.
  lemma CodesAreJustified(states: seq<Auth>, ops: seq<Op>, n: nat, c: Id) returns (asked: nat, decided: nat)
    requires Execution(states, ops) && n <= |ops| && c in states[n].issued
    ensures asked <= decided < n
    ensures var x := states[n].issued[c];
            && Opens(states[asked], ops[asked], x.row)
            && Decides(states[decided], ops[decided], x.request, x.row)
            && (AskedForConsent(ops[asked]) ==> InPerson(states[decided], ops[decided], x.request, x.row))
            && (ops[decided].DoConsent? ==>
                  && x.row.userId.Some? && (x.row.userId.value, x.row.clientId) in states[decided + 1].consents
                  && states[decided + 1].consents[(x.row.userId.value, x.row.clientId)] == x.row.scopes)
  {
    RunTraced(states, ops, n);
    var x := states[n].issued[c];
    asked, decided := states[n].asked[x.request], states[n].decided[x.request];
    if ops[decided].DoConsent? {
      assert states[decided + 1] == Step(states[decided], ops[decided]);
      ConsentIsStored(states[decided], ops[decided], x.request, x.row);
    }
  }

  lemma ConsentIsStored(s: Auth, op: Op, r: Id, row: Request)
    requires op.DoConsent? && InPerson(s, op, r, row)
    ensures Step(s, op).consents == s.consents[(row.userId.value, row.clientId) := row.scopes]
  {
    var s1 := s.(consents := s.consents[(row.userId.value, row.clientId) := row.scopes]);
    var updated := Update(s1, r, s.requests[r].(consentGiven := true, scopes := row.scopes));
    assert Do(s, op) == Complete(updated, r, op.limits);
  }

  // ---------------------------------------------------------------------
  // Scopes, end to end
  // ---------------------------------------------------------------------

  // op, taken in s, asked for scope x on behalf of client, who may have it:
  // by registration, or as a permission on the audience.
  predicate AllowedAt(s: Auth, op: Op, client: Id, audience: Option<string>, x: string) {
    || (op.DoOpen? && op.params.clientId == client && op.params.audience == audience && Known(s, client)
        && (x in s.clients[client].scopes || (audience.Some? && op.params.perms.Some? && x in op.params.perms.value)))
    || (op.OnStore? && op.op.DoInitDevice? && op.op.client.id == client && audience.None?
        && x in op.op.client.scopes)
  }

  lemma RequestScopesAllowed(c: ClientInfo, p: Params, x: string)
    requires RequestScopes(c, p).0.None? && x in RequestScopes(c, p).1
    ensures x in c.scopes || (p.audience.Some? && p.perms.Some? && x in p.perms.value)
  {
  }

  // The grant a scope was handed down from allowed it when it was opened.
  lemma GrantScopesAllowed(states: seq<Auth>, ops: seq<Op>, n: nat, g: Id, x: string) returns (k: nat)
    requires Execution(states, ops) && n <= |ops|
    requires g in states[n].tokens.log && states[n].tokens.log[g].parent.None?
    requires x in states[n].tokens.log[g].scopes
    ensures k < n && AllowedAt(states[k], ops[k], states[n].tokens.log[g].clientId, states[n].tokens.log[g].audience, x)
  {
    RunTraced(states, ops, n);
    if g in states[n].issued {
      var y := states[n].issued[g];
      k := states[n].asked[y.request];
      RequestScopesAllowed(states[k].clients[y.row.clientId], ops[k].params, x);
    } else {
      k :| 0 <= k < n && OpensDevice(states[k], ops[k], g, states[n].tokens.log[g]);
    }
  }

  // Every scope of a refresh token, however far down its chain, was the
  // client's to ask for when the request at the root of the chain was made.
  lemma RefreshScopesWithinClient(states: seq<Auth>, ops: seq<Op>, n: nat, r: Id, x: string) returns (k: nat)
    requires Execution(states, ops) && n <= |ops|
    requires r in states[n].tokens.rts && x in states[n].tokens.rts[r].scopes
    ensures k < n && AllowedAt(states[k], ops[k], states[n].tokens.rts[r].clientId, states[n].tokens.rts[r].audience, x)
  {
    TokensStaySound(states, ops, n);
    var t := states[n].tokens;
    Lineage.RefreshDescendsFromGrant(t, r);
    k := GrantScopesAllowed(states, ops, n, Lineage.Root(t.log, r), x);
  }

  // The same for every access token of a user.
  lemma AccessScopesWithinClient(states: seq<Auth>, ops: seq<Op>, n: nat, a: Id, x: string) returns (k: nat)
    requires Execution(states, ops) && n <= |ops|
    requires a in states[n].tokens.ats && states[n].tokens.ats[a].userId.Some? && x in states[n].tokens.ats[a].scopes
    ensures k < n && AllowedAt(states[k], ops[k], states[n].tokens.ats[a].clientId, states[n].tokens.ats[a].audience, x)
  {
    TokensStaySound(states, ops, n);
    var t := states[n].tokens;
    Lineage.AccessDescendsFromGrant(t, a);
    k := GrantScopesAllowed(states, ops, n, Lineage.Root(t.log, t.issuedWith[a]), x);
  }

  // ---------------------------------------------------------------------
  // Every run is one of the token store
  // ---------------------------------------------------------------------

  lemma RunOne(t: TS.Store, op: TS.Op)
    ensures TS.Run(t, [op]) == TS.Step(t, op).0
  {
    assert [op][1..] == [];
    assert TS.Run(TS.Step(t, op).0, []) == TS.Step(t, op).0;
  }

  // The steps that take the one store to the other, at most one.
  ghost predicate Follows(t: TS.Store, t': TS.Store, trace: seq<TS.Op>) {
    |trace| <= 1 && TS.Run(t, trace) == t'
  }

  lemma CompleteFollows(s: Auth, r: Id, limits: Limits) returns (trace: seq<TS.Op>)
    requires r in s.requests && s.requests[r].userId.Some?
    ensures Follows(s.tokens, Complete(s, r, limits).0.tokens, trace)
  {
    var row := s.requests[r];
    if !limits.sessionUp || row.userId.value !in s.tokens.users {
      trace := [];
    } else {
      var op := TS.DoGrant(row.clientId, row.userId.value, row.redirectUri, row.scopes, row.challenge, row.audience,
                           limits.codeTTL, limits.sessionTTL, HybridFor(s, row));
      trace := [op];
      RunOne(s.tokens, op);
    }
  }

  lemma OpenFollows(s: Auth, p: Params, limits: Limits) returns (trace: seq<TS.Op>)
    ensures Follows(s.tokens, Open(s, p, limits).0.tokens, trace)
  {
    trace := [];
    if Known(s, p.clientId) {
      var (scopeProblem, scopes) := RequestScopes(s.clients[p.clientId], p);
      if ParamsProblem(s.clients[p.clientId], p).Some? || scopeProblem.Some? {
      } else if p.prompt == SilentPrompt {
        trace := SilentFollows(s, p, scopes, limits);
      } else if p.sso.Some? && p.prompt != LoginPrompt {
        trace := SsoFollows(s, p, scopes, p.sso.value, limits);
      }
    }
  }

  lemma SilentFollows(s: Auth, p: Params, scopes: Scopes, limits: Limits) returns (trace: seq<TS.Op>)
    ensures Follows(s.tokens, OpenSilently(s, p, scopes, limits).0.tokens, trace)
  {
    trace := [];
    if p.hintUser.None? {
    } else if !ConsentCovers(s, p.hintUser.value, p.clientId, scopes) && !FirstParty(s, p.clientId) {
    } else if Storable(s, SilentRow(s.tokens.now, p, scopes, p.hintUser.value)) {
      trace := CompleteFollows(Insert(s, SilentRow(s.tokens.now, p, scopes, p.hintUser.value)), s.nextRequest, limits);
    }
  }

  lemma SsoFollows(s: Auth, p: Params, scopes: Scopes, sso: Sso, limits: Limits) returns (trace: seq<TS.Op>)
    ensures Follows(s.tokens, TrySso(s, p, scopes, sso, limits).0.tokens, trace)
  {
    trace := [];
    var needsConsent := SsoNeedsConsent(s, p, scopes, sso);
    var row := SsoRow(s.tokens.now, p, scopes, sso, !needsConsent);
    if TooOld(s, p, sso) || !Storable(s, row) {
    } else if needsConsent {
    } else {
      trace := CompleteFollows(Insert(s, row), s.nextRequest, limits);
    }
  }

  lemma ConsentFollows(s: Auth, r: Id, granted: Scopes, verdict: TS.Verdict, limits: Limits)
      returns (trace: seq<TS.Op>)
    ensures Follows(s.tokens, Consent(s, r, granted, verdict, limits).0.tokens, trace)
  {
    trace := [];
    if Live(s, r) && s.requests[r].authenticated && s.requests[r].userId.Some? {
      var row := s.requests[r];
      var (problem, scopes) := ConsentScopes(row, granted, verdict);
      if problem.None? && Storable(s, row) {
        var s1 := s.(consents := s.consents[(row.userId.value, row.clientId) := scopes]);
        trace := CompleteFollows(Update(s1, r, row.(consentGiven := true, scopes := scopes)), r, limits);
      }
    }
  }

  lemma VerifyEmailFollows(s: Auth, r: Id, user: Id, limits: Limits) returns (trace: seq<TS.Op>)
    ensures Follows(s.tokens, VerifyEmail(s, r, user, limits).0.tokens, trace)
  {
    trace := [];
    if Live(s, r) && s.requests[r].userId == Some(user) {
      var row := s.requests[r].(authenticated := true, authTime := Some(s.tokens.now), consentGiven := true);
      if Storable(s, row) {
        trace := CompleteFollows(Update(s, r, row), r, limits);
      }
    }
  }

  lemma FinishFollows(s: Auth, r: Id, limits: Limits) returns (trace: seq<TS.Op>)
    ensures Follows(s.tokens, Finish(s, r, limits).0.tokens, trace)
  {
    trace := [];
    if Live(s, r) && s.requests[r].authenticated && s.requests[r].consentGiven && s.requests[r].userId.Some? {
      trace := CompleteFollows(s, r, limits);
    }
  }

  lemma StepFollows(s: Auth, op: Op) returns (trace: seq<TS.Op>)
    ensures Follows(s.tokens, Do(s, op).0.tokens, trace)
  {
    trace := [];
    match op
    case DoOpen(p, limits) => trace := OpenFollows(s, p, limits);
    case DoConsent(r, granted, verdict, limits) => trace := ConsentFollows(s, r, granted, verdict, limits);
    case DoVerifyEmail(r, user, limits) => trace := VerifyEmailFollows(s, r, user, limits);
    case DoFinish(r, limits) => trace := FinishFollows(s, r, limits);
    case OnStore(op) =>
      if !op.DoGrant? {
        trace := [op];
        RunOne(s.tokens, op);
      }
    case _ => AdvancingSound(s, op);
  }

  lemma {:induction false} RunAppend(t: TS.Store, a: seq<TS.Op>, b: seq<TS.Op>)
    ensures TS.Run(t, a + b) == TS.Run(TS.Run(t, a), b)
    decreases |a|
  {
    if a == [] {
      assert a + b == b;
    } else {
      assert (a + b)[1..] == a[1..] + b;
      RunAppend(TS.Step(t, a[0]).0, a[1..], b);
    }
  }

  // The token store of every state of the machine is one that some run of the
  // store by itself reaches: all that is proved of those runs holds here.
  lemma {:induction false} TokensFollowStore(states: seq<Auth>, ops: seq<Op>, n: nat) returns (trace: seq<TS.Op>)
    requires Execution(states, ops) && n <= |ops|
    ensures states[n].tokens == TS.Run(TS.Empty, trace)
    decreases n
  {
    if n == 0 {
      trace := [];
    } else {
      var front := TokensFollowStore(states, ops, n - 1);
      var last := StepFollows(states[n - 1], ops[n - 1]);
      assert states[n - 1 + 1] == Step(states[n - 1], ops[n - 1]);
      RunAppend(TS.Empty, front, last);
      trace := front + last;
    }
  }
}
