// How the user of every request and every code was signed in.
module SignIns {
  import opened Basics
  import opened ScopeLists
  import opened Authorization
  import opened AuthorizationRuns
  import TS = TokenStore
  import Lineage

  // The instant a sign-in counts from: a session's own, or now.
  function SignInTime(s: Auth, op: Op): Time {
    if op.DoOpen? && op.params.prompt != SilentPrompt && op.params.sso.Some? then op.params.sso.value.authenticatedAt
    else s.tokens.now
  }

  // The user bound to the request confirmed their address.
  predicate ConfirmsAddress(s: Auth, op: Op, r: Id, row: Request) {
    op.DoVerifyEmail? && op.request == r && Live(s, r) &&
    row.userId == Some(op.verified) && s.requests[r].userId == Some(op.verified)
  }

  // op signed the user of row in, at the instant the row records.
  predicate Authenticates(s: Auth, op: Op, r: Id, row: Request) {
    (SignsIn(s, op, r, row) || ConfirmsAddress(s, op, r, row)) && row.authTime == Some(SignInTime(s, op))
  }

  predicate SameSignIn(a: Request, b: Request) {
    a.authenticated && b.userId == a.userId && b.authTime == a.authTime
  }

  // ---------------------------------------------------------------------
  // One step
  // ---------------------------------------------------------------------

  // The row was signed in before op, or by it.
  ghost predicate RowSigned(s: Auth, op: Op, r: Id, row: Request) {
    (r in s.requests && SameSignIn(s.requests[r], row)) || Authenticates(s, op, r, row)
  }

  ghost predicate RowsSigned(s: Auth, op: Op, requests: map<Id, Request>) {
    forall r :: r in requests && requests[r].authenticated ==> RowSigned(s, op, r, requests[r])
  }

  // The row is as long-lived as before op, or was opened by it for a minute or
  // ten, or prolonged by a registration for a day.
  ghost predicate RowDated(s: Auth, op: Op, r: Id, row: Request) {
    || (r in s.requests && row.expiresAt == s.requests[r].expiresAt)
    || (r !in s.requests && op.DoOpen? && row.expiresAt <= s.tokens.now + 10 * MINUTE)
    || (op.DoRegister? && op.request == r && row.expiresAt == s.tokens.now + 24 * HOUR)
  }

  ghost predicate RowsDated(s: Auth, op: Op, requests: map<Id, Request>) {
    forall r :: r in requests ==> RowDated(s, op, r, requests[r])
  }

  // Codes stay, and a new one is of a row that was signed in.
  ghost predicate CodesSigned(s: Auth, op: Op, issued: map<Id, Issuance>) {
    (forall c :: c in s.issued ==> c in issued && issued[c] == s.issued[c]) &&
    (forall c :: c in issued && c !in s.issued ==>
       issued[c].row.authenticated && RowSigned(s, op, issued[c].request, issued[c].row))
  }

  ghost predicate Signed(s: Auth, op: Op, t: Auth) {
    RowsSigned(s, op, t.requests) && RowsDated(s, op, t.requests) && CodesSigned(s, op, t.issued)
  }

  lemma SignedToItself(s: Auth, op: Op)
    ensures Signed(s, op, s)
  {
  }

  lemma InsertSigned(s: Auth, op: Op, t: Auth, row: Request)
    requires Signed(s, op, t) && (row.authenticated ==> Authenticates(s, op, t.nextRequest, row))
    requires RowDated(s, op, t.nextRequest, row)
    ensures Signed(s, op, Insert(t, row))
  {
  }

  lemma UpdateSigned(s: Auth, op: Op, t: Auth, r: Id, row: Request)
    requires Signed(s, op, t) && r in t.requests
    requires row.authenticated ==> SameSignIn(t.requests[r], row) || Authenticates(s, op, r, row)
    requires row.expiresAt == t.requests[r].expiresAt || RowDated(s, op, r, row)
    ensures Signed(s, op, Update(t, r, row))
  {
    var t' := Update(t, r, row);
    forall k | k in t'.requests && t'.requests[k].authenticated ensures RowSigned(s, op, k, t'.requests[k]) {
      if k != r {
        assert RowSigned(s, op, k, t.requests[k]);
      } else if SameSignIn(t.requests[r], row) {
        assert RowSigned(s, op, r, t.requests[r]);
        SameRowSigned(s, op, r, t.requests[r], row);
      }
    }
  }

  lemma SameRowSigned(s: Auth, op: Op, r: Id, a: Request, b: Request)
    requires RowSigned(s, op, r, a) && SameSignIn(a, b)
    ensures RowSigned(s, op, r, b)
  {
  }

  // The code is new: identifiers of codes are below the counter.
  ghost predicate CodesBelow(t: Auth) { forall c :: c in t.issued ==> c < t.tokens.next }

  ghost predicate RequestsBelow(t: Auth) { forall r :: r in t.requests ==> r < t.nextRequest }

  lemma CompleteSigned(s: Auth, op: Op, t: Auth, r: Id, limits: Limits)
    requires Signed(s, op, t) && r in t.requests && t.requests[r].userId.Some? && t.requests[r].authenticated
    requires CodesBelow(t) && (forall c :: c in s.issued ==> c < t.tokens.next)
    ensures Signed(s, op, Complete(t, r, limits).0)
  {
    if !limits.sessionUp || t.requests[r].userId.value !in t.tokens.users {
    } else {
      var t' := Complete(t, r, limits).0;
      assert t'.requests == t.requests - {r};
      assert t'.issued == t.issued[t.tokens.next + 1 := Issuance(r, t.requests[r], t.tokens.now)];
      assert RowSigned(s, op, r, t.requests[r]);
    }
  }

  lemma SilentSigned(s: Auth, op: Op, scopes: Scopes)
    requires op.DoOpen? && op.params.prompt == SilentPrompt && CodesBelow(s) && RequestsBelow(s)
    ensures Signed(s, op, OpenSilently(s, op.params, scopes, op.limits).0)
  {
    var p := op.params;
    if p.hintUser.None? {
    } else if !ConsentCovers(s, p.hintUser.value, p.clientId, scopes) && !FirstParty(s, p.clientId) {
    } else {
      var row := SilentRow(s.tokens.now, p, scopes, p.hintUser.value);
      if Storable(s, row) {
        InsertSigned(s, op, s, row);
        CompleteSigned(s, op, Insert(s, row), s.nextRequest, op.limits);
      }
    }
  }

  lemma SsoSigned(s: Auth, op: Op, scopes: Scopes)
    requires op.DoOpen? && op.params.prompt != SilentPrompt && op.params.prompt != LoginPrompt && op.params.sso.Some?
    requires CodesBelow(s) && RequestsBelow(s)
    ensures Signed(s, op, TrySso(s, op.params, scopes, op.params.sso.value, op.limits).0)
  {
    var p, sso := op.params, op.params.sso.value;
    var needsConsent := SsoNeedsConsent(s, p, scopes, sso);
    var row := SsoRow(s.tokens.now, p, scopes, sso, !needsConsent);
    if TooOld(s, p, sso) || !Storable(s, row) {
    } else {
      InsertSigned(s, op, s, row);
      if needsConsent {
      } else {
        CompleteSigned(s, op, Insert(s, row), s.nextRequest, op.limits);
      }
    }
  }

  lemma TrySsoClock(s: Auth, p: Params, scopes: Scopes, sso: Sso, limits: Limits)
    ensures var t := TrySso(s, p, scopes, sso, limits).0;
            s.nextRequest <= t.nextRequest && t.tokens.now == s.tokens.now
  {
    var needsConsent := SsoNeedsConsent(s, p, scopes, sso);
    var row := SsoRow(s.tokens.now, p, scopes, sso, !needsConsent);
    if TooOld(s, p, sso) || !Storable(s, row) {
    } else if needsConsent {
    } else if !limits.sessionUp {
    } else {
      GrantLog(s.tokens, row.clientId, row.userId.value, row.redirectUri, row.scopes, row.challenge, row.audience,
               limits.codeTTL, limits.sessionTTL, HybridFor(Insert(s, row), row));
    }
  }

  lemma OpenSigned(s: Auth, op: Op)
    requires op.DoOpen? && CodesBelow(s) && RequestsBelow(s)
    ensures Signed(s, op, Open(s, op.params, op.limits).0)
  {
    var p := op.params;
    if !Known(s, p.clientId) {
    } else {
      var (scopeProblem, scopes) := RequestScopes(s.clients[p.clientId], p);
      if ParamsProblem(s.clients[p.clientId], p).Some? {
      } else if scopeProblem.Some? {
      } else if p.prompt == SilentPrompt {
        SilentSigned(s, op, scopes);
      } else if p.sso.Some? && p.prompt != LoginPrompt {
        SsoSigned(s, op, scopes);
        var (t, reply) := TrySso(s, p, scopes, p.sso.value, op.limits);
        if reply.None? {
          assert s.nextRequest <= t.nextRequest && t.tokens.now == s.tokens.now by {
            TrySsoClock(s, p, scopes, p.sso.value, op.limits);
          }
          InsertSigned(s, op, t, InteractiveRow(t.tokens.now, p, scopes));
        }
      } else {
        InsertSigned(s, op, s, InteractiveRow(s.tokens.now, p, scopes));
      }
    }
  }

  lemma SavedSigned(s: Auth, op: Op, r: Id, row: Request, reply: Reply)
    requires r in s.requests
    requires row.authenticated ==> SameSignIn(s.requests[r], row) || Authenticates(s, op, r, row)
    requires row.expiresAt == s.requests[r].expiresAt || RowDated(s, op, r, row)
    ensures Signed(s, op, Saved(s, r, row, reply).0)
  {
    if Storable(s, row) {
      UpdateSigned(s, op, s, r, row);
    }
  }

  lemma LoginSigned(s: Auth, op: Op)
    requires op.DoLogin?
    ensures Signed(s, op, Do(s, op).0)
  {
    var r := op.request;
    if !Live(s, r) || s.requests[r].authenticated {
    } else if op.auth.None? {
    } else if !Known(s, s.requests[r].clientId) {
    } else if op.denied || op.policy.ForbidsLogin? || (op.policy == RequireMfa(true) && !op.hasMfa) {
    } else {
      var needsMfa := if op.policy.RequireMfa? then op.policy.required else op.hasMfa;
      SavedSigned(s, op, r, SignedIn(s, s.requests[r], op.auth.value, needsMfa),
                  Progress(!needsMfa, NeedsConsent(s, s.requests[r], op.auth.value)));
    }
  }

  lemma ResumeSigned(s: Auth, op: Op)
    requires op.DoResume?
    ensures Signed(s, op, Do(s, op).0)
  {
    var r := op.request;
    if !Live(s, r) || s.requests[r].authenticated {
    } else if op.user.None? {
    } else if !op.active {
    } else if !Known(s, s.requests[r].clientId) {
    } else {
      SavedSigned(s, op, r, SignedIn(s, s.requests[r], op.user.value, op.hasMfa),
                  Progress(!op.hasMfa, NeedsConsent(s, s.requests[r], op.user.value)));
    }
  }

  lemma RegisterSigned(s: Auth, op: Op)
    requires op.DoRegister?
    ensures Signed(s, op, Do(s, op).0)
  {
    var r := op.request;
    if !Live(s, r) || s.requests[r].authenticated {
    } else if !Known(s, s.requests[r].clientId) {
    } else if op.created.None? {
    } else {
      SavedSigned(s, op, r, s.requests[r].(userId := op.created, expiresAt := s.tokens.now + 24 * HOUR),
                  Registered(op.created.value));
    }
  }

  lemma MfaSigned(s: Auth, op: Op)
    requires op.DoMfa?
    ensures Signed(s, op, Do(s, op).0)
  {
    var r := op.request;
    if !Live(s, r) || s.requests[r].userId.None? || s.requests[r].authenticated {
    } else if !op.valid {
    } else {
      var row := s.requests[r];
      if !ConsentCovers(s, row.userId.value, row.clientId, row.scopes) && !Known(s, row.clientId) {
      } else {
        SavedSigned(s, op, r, Verified(s, row), Progress(true, NeedsConsent(s, row, row.userId.value)));
      }
    }
  }

  lemma ConsentSigned(s: Auth, op: Op)
    requires op.DoConsent? && CodesBelow(s) && RequestsBelow(s)
    ensures Signed(s, op, Do(s, op).0)
  {
    var r := op.request;
    if !Live(s, r) || !s.requests[r].authenticated {
    } else if s.requests[r].userId.None? {
    } else {
      var row := s.requests[r];
      var (problem, scopes) := ConsentScopes(row, op.granted, op.verdict);
      if problem.Some? {
      } else if !Storable(s, row) {
      } else {
        var s1 := s.(consents := s.consents[(row.userId.value, row.clientId) := scopes]);
        SignedToItself(s, op);
        UpdateSigned(s, op, s1, r, row.(consentGiven := true, scopes := scopes));
        CompleteSigned(s, op, Update(s1, r, row.(consentGiven := true, scopes := scopes)), r, op.limits);
      }
    }
  }

  lemma VerifyEmailSigned(s: Auth, op: Op)
    requires op.DoVerifyEmail? && CodesBelow(s) && RequestsBelow(s)
    ensures Signed(s, op, Do(s, op).0)
  {
    var r := op.request;
    if !Live(s, r) || s.requests[r].userId != Some(op.verified) {
    } else {
      var row := s.requests[r].(authenticated := true, authTime := Some(s.tokens.now), consentGiven := true);
      if Storable(s, row) {
        UpdateSigned(s, op, s, r, row);
        CompleteSigned(s, op, Update(s, r, row), r, op.limits);
      }
    }
  }

  lemma FinishSigned(s: Auth, op: Op)
    requires op.DoFinish? && CodesBelow(s) && RequestsBelow(s)
    ensures Signed(s, op, Do(s, op).0)
  {
    var r := op.request;
    if !Live(s, r) || !s.requests[r].authenticated || !s.requests[r].consentGiven {
    } else if s.requests[r].userId.None? {
    } else {
      CompleteSigned(s, op, s, r, op.limits);
    }
  }

  lemma StoreSigned(s: Auth, op: Op)
    requires op.OnStore?
    ensures Signed(s, op, Do(s, op).0)
  {
    if op.op.DoGrant? {
    } else {
      var t := OnTokens(s, op.op);
      assert forall r :: r in t.requests ==> r in s.requests && t.requests[r] == s.requests[r];
    }
  }

  lemma StepSigned(s: Auth, op: Op)
    requires CodesBelow(s) && RequestsBelow(s)
    ensures Signed(s, op, Do(s, op).0)
  {
    match op
    case DoOpen(p, limits) => OpenSigned(s, op);
    case DoLogin(r, auth, denied, hasMfa, policy) => LoginSigned(s, op);
    case DoResume(r, user, active, hasMfa) => ResumeSigned(s, op);
    case DoRegister(r, created) => RegisterSigned(s, op);
    case DoMfa(r, valid) => MfaSigned(s, op);
    case DoConsent(r, granted, verdict, limits) => ConsentSigned(s, op);
    case DoVerifyEmail(r, user, limits) => VerifyEmailSigned(s, op);
    case DoFinish(r, limits) => FinishSigned(s, op);
    case SetClient(c, info) => SignedToItself(s, op);
    case RevokeConsent(u, c) => SignedToItself(s, op);
    case OnStore(_) => StoreSigned(s, op);
  }

  // ---------------------------------------------------------------------
  // Whole runs
  // ---------------------------------------------------------------------

  ghost predicate Linked(states: seq<Auth>, ops: seq<Op>, i: nat)
    requires i < |ops| < |states|
  {
    Signed(states[i], ops[i], states[i + 1])
  }

  // A run, as far as sign-ins go.
  ghost predicate Chain(states: seq<Auth>, ops: seq<Op>) {
    |states| == |ops| + 1 && states[0] == Initial && forall i :: 0 <= i < |ops| ==> Linked(states, ops, i)
  }

  lemma NextLinked(states: seq<Auth>, ops: seq<Op>, n: nat)
    requires Execution(states, ops) && n < |ops|
    ensures Linked(states, ops, n)
  {
    StoreStaysOk(states, ops, n);
    RunTraced(states, ops, n);
    StepSigned(states[n], ops[n]);
    assert states[n + 1] == Step(states[n], ops[n]);
  }

  lemma ExecutionIsChain(states: seq<Auth>, ops: seq<Op>)
    requires Execution(states, ops)
    ensures Chain(states, ops)
  {
    forall i | 0 <= i < |ops| ensures Linked(states, ops, i) {
      NextLinked(states, ops, i);
    }
  }

  lemma {:induction false} RequestSignedIn(states: seq<Auth>, ops: seq<Op>, n: nat, r: Id) returns (k: nat)
    requires Chain(states, ops) && n <= |ops| && r in states[n].requests && states[n].requests[r].authenticated
    ensures k < n && Authenticates(states[k], ops[k], r, states[n].requests[r])
    ensures r in states[k + 1].requests && states[k + 1].requests[r].authenticated
    decreases n
  {
    if n == 0 {
      assert false;
    } else {
      var s := states[n - 1];
      assert Linked(states, ops, n - 1);
      assert RowSigned(s, ops[n - 1], r, states[n].requests[r]);
      if r in s.requests && SameSignIn(s.requests[r], states[n].requests[r]) {
        k := RequestSignedIn(states, ops, n - 1, r);
        SameRow(states[k], ops[k], r, s.requests[r], states[n].requests[r]);
      } else {
        k := n - 1;
      }
    }
  }

  // Every signed-in request was signed in by one step, which its user and
  // instant go back to.
  lemma RequestsAreSignedIn(states: seq<Auth>, ops: seq<Op>, n: nat, r: Id) returns (k: nat)
    requires Execution(states, ops) && n <= |ops| && r in states[n].requests && states[n].requests[r].authenticated
    ensures k < n && Authenticates(states[k], ops[k], r, states[n].requests[r])
    ensures r in states[k + 1].requests && states[k + 1].requests[r].authenticated
  {
    ExecutionIsChain(states, ops);
    k := RequestSignedIn(states, ops, n, r);
  }

  lemma SameRow(s: Auth, op: Op, r: Id, a: Request, b: Request)
    requires Authenticates(s, op, r, a) && SameSignIn(a, b)
    ensures Authenticates(s, op, r, b)
  {
  }

  lemma {:induction false} CodeSignedIn(states: seq<Auth>, ops: seq<Op>, n: nat, c: Id) returns (k: nat, at: nat)
    requires Chain(states, ops) && n <= |ops| && c in states[n].issued
    ensures k <= at < n && c !in states[at].issued && c in states[at + 1].issued
    ensures var x := states[n].issued[c];
            && Authenticates(states[k], ops[k], x.request, x.row)
            && (k < at ==> x.request in states[k + 1].requests && states[k + 1].requests[x.request].authenticated)
    decreases n
  {
    if n == 0 {
      assert false;
    } else {
      var s, x := states[n - 1], states[n].issued[c];
      assert Linked(states, ops, n - 1);
      if c in s.issued {
        k, at := CodeSignedIn(states, ops, n - 1, c);
      } else {
        at := n - 1;
        assert RowSigned(s, ops[at], x.request, x.row);
        if x.request in s.requests && SameSignIn(s.requests[x.request], x.row) {
          k := RequestSignedIn(states, ops, at, x.request);
          SameRow(states[k], ops[k], x.request, s.requests[x.request], x.row);
        } else {
          k := at;
        }
      }
    }
  }

  // Every code was issued at one step, for a user who was signed in then or
  // before: by a session or hint, by password or through a provider without a
  // second factor due, with a valid second factor, or by confirming the address
  // the request was bound to.
  lemma CodesAreSignedIn(states: seq<Auth>, ops: seq<Op>, n: nat, c: Id) returns (k: nat, at: nat)
    requires Execution(states, ops) && n <= |ops| && c in states[n].issued
    ensures k <= at < n && c !in states[at].issued && c in states[at + 1].issued
    ensures var x := states[n].issued[c];
            && Authenticates(states[k], ops[k], x.request, x.row)
            && (k < at ==> x.request in states[k + 1].requests && states[k + 1].requests[x.request].authenticated)
  {
    ExecutionIsChain(states, ops);
    k, at := CodeSignedIn(states, ops, n, c);
  }

  lemma {:induction false} RequestDated(states: seq<Auth>, ops: seq<Op>, n: nat, r: Id) returns (k: nat)
    requires Chain(states, ops) && n <= |ops| && r in states[n].requests
    ensures k < n
    ensures var row := states[n].requests[r];
            if ops[k].DoOpen? then row.expiresAt <= states[k].tokens.now + 10 * MINUTE
            else ops[k].DoRegister? && ops[k].request == r && row.expiresAt == states[k].tokens.now + 24 * HOUR
    decreases n
  {
    if n == 0 {
      assert false;
    } else {
      assert Linked(states, ops, n - 1);
      assert RowDated(states[n - 1], ops[n - 1], r, states[n].requests[r]);
      if r in states[n - 1].requests && states[n].requests[r].expiresAt == states[n - 1].requests[r].expiresAt {
        k := RequestDated(states, ops, n - 1, r);
      } else {
        k := n - 1;
      }
    }
  }

  // No request outlives ten minutes from its opening, unless somebody
  // registered on it: then a day from that.
  lemma RequestsAreShortLived(states: seq<Auth>, ops: seq<Op>, n: nat, r: Id) returns (k: nat)
    requires Execution(states, ops) && n <= |ops| && r in states[n].requests
    ensures k < n
    ensures var row := states[n].requests[r];
            if ops[k].DoOpen? then row.expiresAt <= states[k].tokens.now + 10 * MINUTE
            else ops[k].DoRegister? && ops[k].request == r && row.expiresAt == states[k].tokens.now + 24 * HOUR
  {
    ExecutionIsChain(states, ops);
    k := RequestDated(states, ops, n, r);
  }

  // A sign-in that was accepted although a second factor was due.
  predicate AwaitsFactor(s: Auth, op: Op) {
    (op.DoLogin? || op.DoResume?) && FactorDue(op) && Do(s, op).1.Progress?
  }

  // What a sign-in answers is what it did: the request is signed in exactly
  // when no second factor is due, and needs no consent screen exactly when it
  // is consented to or will be once the factor is given.
  lemma SignInsAnswerTruly(s: Auth, op: Op)
    requires (op.DoLogin? || op.DoResume? || op.DoMfa?) && Do(s, op).1.Progress? && Ok(s)
    ensures var t, reply := Step(s, op), Do(s, op).1;
            && op.request in t.requests
            && var row := t.requests[op.request];
               && row.userId.Some? && row.userId.value in t.tokens.users
               && row.authenticated == reply.authenticated == !FactorDue(op)
               && row.consentGiven == (reply.authenticated && !reply.requiresConsent)
               && (reply.requiresConsent <==>
                     row.promptConsent || !(FirstParty(s, row.clientId) ||
                                            ConsentCovers(s, row.userId.value, row.clientId, row.scopes)))
  {
    var r := op.request;
    assert RowOk(s.requests[r]);
  }

  // No code skips a factor that is due: when a sign-in to a request was
  // accepted with a second factor outstanding, any code for the request comes
  // after a later step that gave a valid one, or that signed the user in anew
  // with none due, or in which the bound user confirmed their address.
  lemma FactorsAreNotSkipped(states: seq<Auth>, ops: seq<Op>, n: nat, i: nat, c: Id) returns (k: nat)
    requires Execution(states, ops) && i < n <= |ops| && AwaitsFactor(states[i], ops[i])
    requires c in states[n].issued && states[n].issued[c].request == ops[i].request
    ensures i < k < n && Authenticates(states[k], ops[k], ops[i].request, states[n].issued[c].row)
    ensures ops[k] == DoMfa(ops[i].request, true) || ops[k].DoVerifyEmail? ||
            ((ops[k].DoLogin? || ops[k].DoResume?) && !FactorDue(ops[k]))
  {
    var r, at := ops[i].request, 0;
    AwaitingIsLive(states[i], ops[i]);
    k, at := CodesAreSignedIn(states, ops, n, c);
    if at < i {
      GoneOnceIssued(states, ops, at + 1, i, n, c);
      assert false;
    } else if k < i {
      RequestsOnlyAdvance(states, ops, 0, k + 1);
      RequestsOnlyAdvance(states, ops, k + 1, i);
      SignedStays(states[k + 1], states[i], r);
      assert false;
    } else {
      OlderThanOpened(states, ops, i, k, r);
    }
  }

  // A request that exists is not the one a later step opens.
  lemma OlderThanOpened(states: seq<Auth>, ops: seq<Op>, i: nat, k: nat, r: Id)
    requires Execution(states, ops) && i <= k <= |ops| && r in states[i].requests
    ensures r != states[k].nextRequest
  {
    RequestsOnlyAdvance(states, ops, 0, i);
    RequestsOnlyAdvance(states, ops, i, k);
  }

  lemma AwaitingIsLive(s: Auth, op: Op)
    requires AwaitsFactor(s, op)
    ensures op.request in s.requests && !s.requests[op.request].authenticated
  {
  }

  // A request is gone once a code was issued for it.
  lemma GoneOnceIssued(states: seq<Auth>, ops: seq<Op>, m: nat, i: nat, n: nat, c: Id)
    requires Execution(states, ops) && m <= i <= n <= |ops| && c in states[n].issued
    requires c in states[m].issued
    ensures states[n].issued[c].request !in states[i].requests
  {
    ExecutionIsChain(states, ops);
    IssuedStays(states, ops, m, i, c);
    IssuedStays(states, ops, i, n, c);
    RunTraced(states, ops, i);
  }

  lemma {:induction false} IssuedStays(states: seq<Auth>, ops: seq<Op>, m: nat, n: nat, c: Id)
    requires Chain(states, ops) && m <= n <= |ops| && c in states[m].issued
    ensures c in states[n].issued && states[n].issued[c] == states[m].issued[c]
    decreases n
  {
    if m < n {
      IssuedStays(states, ops, m, n - 1, c);
      assert Linked(states, ops, n - 1);
    }
  }

  lemma SignedStays(s: Auth, t: Auth, r: Id)
    requires Advances(s, t) && Ok(s) && r in s.requests && s.requests[r].authenticated && r in t.requests
    ensures t.requests[r].authenticated
  {
  }

  // ---------------------------------------------------------------------
  // An address confirmed instead of a factor given
  // ---------------------------------------------------------------------

  const Site := ClientInfo(true, false, false, true, true, {"uri"}, ["openid"], 60)
  const Plain := Params(7, CodeResponse, "uri", "", false, NoPrompt, false, None, [], None, None, None, None)
  const Usual := Limits(true, MINUTE, DAY)

  // Somebody registers in the middle of a request, signs in with a second
  // factor due, and follows the link in the e-mail instead of giving one.
  const Overtaken: seq<Op> := [OnStore(TS.AddUser), SetClient(7, Site), DoOpen(Plain, Usual), DoRegister(0, Some(0)),
                               DoLogin(0, Some(0), false, true, NoOpinion), DoVerifyEmail(0, 0, Usual)]

  function States(s: Auth, ops: seq<Op>): seq<Auth>
    decreases |ops|
  {
    if ops == [] then [s] else [s] + States(Step(s, ops[0]), ops[1..])
  }

  lemma {:induction false} StatesExecute(s: Auth, ops: seq<Op>)
    ensures |States(s, ops)| == |ops| + 1 && States(s, ops)[0] == s
    ensures forall i :: 0 <= i < |ops| ==> States(s, ops)[i + 1] == Step(States(s, ops)[i], ops[i])
    decreases |ops|
  {
    if ops != [] {
      var rest := States(Step(s, ops[0]), ops[1..]);
      StatesExecute(Step(s, ops[0]), ops[1..]);
      forall i | 0 <= i < |ops| ensures States(s, ops)[i + 1] == Step(States(s, ops)[i], ops[i]) {
        if i > 0 {
          assert rest[i] == Step(rest[i - 1], ops[1..][i - 1]);
        }
      }
    }
  }

  // A run in which the code of a user for whom a factor was due is issued
  // without one.
  lemma ConfirmationOvertakesFactor() returns (states: seq<Auth>)
    ensures Execution(states, Overtaken)
    ensures AwaitsFactor(states[4], Overtaken[4]) && Do(states[5], Overtaken[5]).1.Completed?
  {
    states := States(Initial, Overtaken);
    StatesExecute(Initial, Overtaken);
    OvertakenStart();
    assert states[1] == Step(Initial, Overtaken[0]) && states[2] == Step(states[1], Overtaken[1]);
    OvertakenOpen(states[2]);
    assert states[3] == Step(states[2], Overtaken[2]);
    OvertakenRegister(states[3]);
    assert states[4] == Step(states[3], Overtaken[3]);
    OvertakenLogin(states[4]);
    assert states[5] == Step(states[4], Overtaken[4]);
    OvertakenConfirmation(states[5]);
  }

  ghost predicate Prepared(s: Auth) {
    s.clients == map[7 := Site] && s.tokens.now == 0 && 0 in s.tokens.users && s.nextRequest == 0
  }

  lemma OvertakenStart()
    ensures Prepared(Step(Step(Initial, Overtaken[0]), Overtaken[1]))
  {
  }

  ghost predicate Waiting(s: Auth) {
    && 0 in s.requests && s.requests[0] == InteractiveRow(0, Plain, ["openid"])
    && s.clients == map[7 := Site] && s.tokens.now == 0 && 0 in s.tokens.users
  }

  lemma OvertakenOpen(s: Auth)
    requires Prepared(s)
    ensures Waiting(Step(s, Overtaken[2]))
  {
    PlainScopes();
  }

  ghost predicate Bound(s: Auth) {
    && 0 in s.requests && s.requests[0].userId == Some(0) && s.requests[0].responseType == CodeResponse
    && !s.requests[0].authenticated && s.requests[0].expiresAt == 24 * HOUR && s.tokens.now == 0
    && s.requests[0].clientId == 7 && s.clients == map[7 := Site] && 0 in s.tokens.users
  }

  lemma OvertakenRegister(s: Auth)
    requires Waiting(s)
    ensures Bound(Step(s, Overtaken[3]))
  {
  }

  lemma PlainScopes()
    ensures RequestScopes(Site, Plain) == (None, ["openid"]) && ParamsProblem(Site, Plain).None?
  {
  }

  lemma OvertakenLogin(s: Auth)
    requires Bound(s)
    ensures AwaitsFactor(s, Overtaken[4]) && Bound(Step(s, Overtaken[4]))
  {
  }

  lemma OvertakenConfirmation(s: Auth)
    requires Bound(s)
    ensures Do(s, Overtaken[5]).1.Completed?
  {
  }

  // ---------------------------------------------------------------------
  // A flow that nobody objects to ends in tokens
  // ---------------------------------------------------------------------

  // The parameters ask for a screen, are in order and leave a scope.
  ghost predicate Asks(s: Auth, p: Params, scopes: Scopes) {
    && Known(s, p.clientId) && WellFormed(p) && MayAsk(s.clients[p.clientId], p)
    && RequestScopes(s.clients[p.clientId], p) == (None, scopes)
    && (p.prompt == LoginPrompt || (p.prompt != SilentPrompt && p.sso.None?))
  }

  lemma OpensRequest(s: Auth, p: Params, scopes: Scopes, limits: Limits)
    requires Asks(s, p, scopes)
    ensures scopes != []
    ensures var (t, reply) := Do(s, DoOpen(p, limits));
            && reply.Opened? && reply.request == s.nextRequest && reply.requiresLogin
            && t == Insert(s, InteractiveRow(s.tokens.now, p, scopes))
  {
    var c := s.clients[p.clientId];
    var own := ClientScopes(c.scopes, p.requested);
    if p.audience.Some? {
      var onResource := Filter(p.perms.value, Elements(p.requested));
      UnionNonEmpty(own, onResource);
    }
  }

  lemma UnionNonEmpty(a: Scopes, b: Scopes)
    requires b != []
    ensures Union(a, b) != []
  {
    assert b[0] in b;
    assert b[0] in Union(a, b);
  }

  // The password was right, the policies let the user sign in, and a user for
  // whom they want a second factor has one.
  predicate MaySignIn(policy: MfaPolicy, hasMfa: bool) {
    !policy.ForbidsLogin? && (policy == RequireMfa(true) ==> hasMfa)
  }

  lemma SignsRequestIn(s: Auth, r: Id, user: Id, hasMfa: bool, policy: MfaPolicy)
    requires Live(s, r) && !s.requests[r].authenticated && Known(s, s.requests[r].clientId) && user in s.tokens.users
    requires MaySignIn(policy, hasMfa) && RowOk(s.requests[r])
    ensures var login := DoLogin(r, Some(user), false, hasMfa, policy);
            var t := Do(s, login).0;
            && Do(s, login).1.Progress? && t == Update(s, r, t.requests[r])
            && t.requests[r] == SignedIn(s, s.requests[r], user, FactorDue(login))
  {
  }

  lemma FactorSignsIn(s: Auth, r: Id)
    requires Live(s, r) && !s.requests[r].authenticated && Known(s, s.requests[r].clientId)
    requires s.requests[r].userId.Some? && s.requests[r].userId.value in s.tokens.users
    ensures var t := Do(s, DoMfa(r, true)).0;
            Do(s, DoMfa(r, true)).1.Progress? && t == Update(s, r, Verified(s, s.requests[r]))
  {
  }

  // Signing in, with the factor when one is due.
  function AfterSignIn(s: Auth, r: Id, user: Id, hasMfa: bool, policy: MfaPolicy): Auth {
    var login := DoLogin(r, Some(user), false, hasMfa, policy);
    if FactorDue(login) then Step(Step(s, login), DoMfa(r, true)) else Step(s, login)
  }

  // Ready to be finished, or for the consent screen; the rest as it was.
  ghost predicate SignedInTo(s: Auth, t: Auth, r: Id, user: Id) {
    && t.tokens == s.tokens && t.issued == s.issued && t.clients == s.clients && r in s.requests && r in t.requests
    && t.requests[r].authenticated && t.requests[r].userId == Some(user)
    && t.requests[r].scopes == s.requests[r].scopes && t.requests[r].expiresAt == s.requests[r].expiresAt
    && SameTerms(s.requests[r], t.requests[r])
  }

  lemma SignsAllTheWayIn(s: Auth, r: Id, user: Id, hasMfa: bool, policy: MfaPolicy)
    requires Live(s, r) && !s.requests[r].authenticated && Known(s, s.requests[r].clientId) && user in s.tokens.users
    requires MaySignIn(policy, hasMfa) && RowOk(s.requests[r])
    ensures SignedInTo(s, AfterSignIn(s, r, user, hasMfa, policy), r, user)
  {
    var login := DoLogin(r, Some(user), false, hasMfa, policy);
    SignsRequestIn(s, r, user, hasMfa, policy);
    if FactorDue(login) {
      var t := Step(s, login);
      FactorSignsIn(t, r);
    }
  }

  // Finishing, or granting all that was asked for.
  function AfterDecision(s: Auth, r: Id, limits: Limits): Auth
    requires r in s.requests
  {
    if s.requests[r].consentGiven then Step(s, DoFinish(r, limits))
    else Step(s, DoConsent(r, s.requests[r].scopes, TS.NoVerdict, limits))
  }

  // The code for the request is there, unused.
  ghost predicate HasCode(s: Auth, t: Auth, row: Request, limits: Limits) {
    var code := s.tokens.next + 1;
    && code in t.tokens.codes && t.tokens.now == s.tokens.now
    && var x := t.tokens.codes[code];
       && x.clientId == row.clientId && Some(x.userId) == row.userId && x.redirectUri == row.redirectUri
       && x.challenge == row.challenge && x.audience == row.audience && !x.used
       && x.expiresAt == s.tokens.now + limits.codeTTL && x.scopes == row.scopes
  }

  lemma CompletesWithCode(s: Auth, r: Id, limits: Limits)
    requires r in s.requests && s.requests[r].userId.Some? && s.requests[r].userId.value in s.tokens.users
    requires limits.sessionUp
    ensures HasCode(s, Complete(s, r, limits).0, s.requests[r], limits)
  {
    var row := s.requests[r];
    GrantCode(s.tokens, row.clientId, row.userId.value, row.redirectUri, row.scopes, row.challenge, row.audience,
              limits.codeTTL, limits.sessionTTL, HybridFor(s, row));
    GrantLog(s.tokens, row.clientId, row.userId.value, row.redirectUri, row.scopes, row.challenge, row.audience,
             limits.codeTTL, limits.sessionTTL, HybridFor(s, row));
  }

  lemma DecisionGivesCode(s: Auth, r: Id, limits: Limits)
    requires Live(s, r) && s.requests[r].authenticated && s.requests[r].userId.Some?
    requires s.requests[r].userId.value in s.tokens.users && s.requests[r].scopes != [] && limits.sessionUp
    ensures HasCode(s, AfterDecision(s, r, limits), s.requests[r], limits)
  {
    var row := s.requests[r];
    if row.consentGiven {
      CompletesWithCode(s, r, limits);
    } else {
      AllGranted(row.scopes, row);
      var s1 := s.(consents := s.consents[(row.userId.value, row.clientId) := row.scopes]);
      CompletesWithCode(Update(s1, r, row.(consentGiven := true, scopes := row.scopes)), r, limits);
    }
  }

  lemma AllGranted(scopes: Scopes, row: Request)
    requires scopes == row.scopes && scopes != []
    ensures ConsentScopes(row, scopes, TS.NoVerdict) == (None, scopes)
  {
    FilterAll(scopes, Elements(scopes));
  }

  lemma {:induction false} FilterAll(a: Scopes, keep: set<string>)
    requires forall x :: x in a ==> x in keep
    ensures Filter(a, keep) == a
    decreases |a|
  {
    if a != [] {
      var front := a[..|a| - 1];
      FilterAll(front, keep);
      assert a == front + [a[|a| - 1]];
    }
  }

  // The request of p, signed in.
  ghost predicate Answers(s: Auth, p: Params, scopes: Scopes, user: Id, b: Auth) {
    && s.nextRequest in b.requests && b.tokens == s.tokens && b.issued == s.issued
    && var row := b.requests[s.nextRequest];
       && row.clientId == p.clientId && row.redirectUri == p.redirectUri && row.challenge == Challenge(p)
       && row.scopes == scopes && row.authenticated && row.userId == Some(user) && row.expiresAt > s.tokens.now
  }

  lemma SignsInFromOpen(s: Auth, p: Params, scopes: Scopes, user: Id, hasMfa: bool, policy: MfaPolicy, limits: Limits)
    requires Asks(s, p, scopes) && user in s.tokens.users && MaySignIn(policy, hasMfa)
    ensures scopes != []
    ensures Answers(s, p, scopes, user, AfterSignIn(Step(s, DoOpen(p, limits)), s.nextRequest, user, hasMfa, policy))
  {
    OpensRequest(s, p, scopes, limits);
    var a := Step(s, DoOpen(p, limits));
    assert a.requests[s.nextRequest] == InteractiveRow(s.tokens.now, p, scopes) && a.clients == s.clients;
    assert a.tokens == s.tokens && a.issued == s.issued;
    SignsAllTheWayIn(a, s.nextRequest, user, hasMfa, policy);
  }

  lemma DecisionSound(s: Auth, r: Id, limits: Limits)
    requires StoreOk(s) && r in s.requests
    ensures StoreOk(AfterDecision(s, r, limits))
  {
    if s.requests[r].consentGiven {
      StepSound(s, DoFinish(r, limits));
    } else {
      StepSound(s, DoConsent(r, s.requests[r].scopes, TS.NoVerdict, limits));
    }
  }

  lemma CodeBuysTokens(s: Auth, p: Params, scopes: Scopes, user: Id, limits: Limits, b: Auth, t: Auth, c: TS.Client,
                       env: TS.Env)
    requires Answers(s, p, scopes, user, b) && Lineage.Inv(t.tokens)
    requires HasCode(b, t, b.requests[s.nextRequest], limits) && limits.codeTTL > 0
    requires c.id == p.clientId && (p.challenge == "" ==> !c.isPublic) && !env.verdict.deny && env.signer != TS.Failing
    ensures var code := s.tokens.next + 1;
            && code in t.tokens.codes && t.tokens.codes[code].userId == user && t.tokens.codes[code].scopes == scopes
            && TS.RedeemCode(t.tokens, c, code, p.redirectUri, p.challenge, env).1.Issued?
  {
  }

  lemma DecisionYields(s: Auth, p: Params, scopes: Scopes, user: Id, limits: Limits, b: Auth)
    requires StoreOk(s) && user in s.tokens.users && scopes != [] && limits.sessionUp
    requires Answers(s, p, scopes, user, b)
    ensures var t := AfterDecision(b, s.nextRequest, limits);
            HasCode(b, t, b.requests[s.nextRequest], limits) && Lineage.Inv(t.tokens)
  {
    DecisionGivesCode(b, s.nextRequest, limits);
    DecisionSound(b, s.nextRequest, limits);
  }

  // From any state a run can be in: a request in order, the right password, a
  // valid second factor when one is due, and consent when it is asked for,
  // leave a code that the client's token request, with its redirect URI and
  // proof key, turns into tokens, unless a policy denies them.
  lemma FlowYieldsTokens(s: Auth, p: Params, scopes: Scopes, user: Id, hasMfa: bool, policy: MfaPolicy, limits: Limits,
                         b: Auth, t: Auth, c: TS.Client, env: TS.Env)
    requires StoreOk(s) && Asks(s, p, scopes) && user in s.tokens.users && MaySignIn(policy, hasMfa)
    requires limits.sessionUp && limits.codeTTL > 0
    requires b == AfterSignIn(Step(s, DoOpen(p, limits)), s.nextRequest, user, hasMfa, policy)
    requires s.nextRequest in b.requests ==> t == AfterDecision(b, s.nextRequest, limits)
    requires c.id == p.clientId && (p.challenge == "" ==> !c.isPublic) && !env.verdict.deny && env.signer != TS.Failing
    ensures var code := s.tokens.next + 1;
            && code in t.tokens.codes && t.tokens.codes[code].userId == user && t.tokens.codes[code].scopes == scopes
            && TS.RedeemCode(t.tokens, c, code, p.redirectUri, p.challenge, env).1.Issued?
  {
    SignsInFromOpen(s, p, scopes, user, hasMfa, policy, limits);
    DecisionYields(s, p, scopes, user, limits, b);
    CodeBuysTokens(s, p, scopes, user, limits, b, t, c, env);
  }

  // ---------------------------------------------------------------------
  // Signing in without a screen
  // ---------------------------------------------------------------------

  // prompt=none never asks for a screen: it completes exactly for a user the
  // hint proves, who still exists, when the client is first-party or their
  // consent covers the scopes.
  lemma SilentAnswers(s: Auth, p: Params, scopes: Scopes, limits: Limits)
    requires p.prompt == SilentPrompt && Known(s, p.clientId) && WellFormed(p) && MayAsk(s.clients[p.clientId], p)
    requires RequestScopes(s.clients[p.clientId], p) == (None, scopes)
    ensures var reply := Do(s, DoOpen(p, limits)).1;
            && (reply.Completed? || reply.Refused?)
            && (reply.Completed? <==>
                  && p.hintUser.Some? && p.hintUser.value in s.tokens.users && limits.sessionUp
                  && (FirstParty(s, p.clientId) || ConsentCovers(s, p.hintUser.value, p.clientId, scopes)))
  {
  }

  // A session signs in silently exactly when it is young enough and no consent
  // is due; where consent is, the request is signed in and waits for it; and
  // where the session is too old, for a sign-in.
  lemma SessionAnswers(s: Auth, p: Params, scopes: Scopes, sso: Sso, limits: Limits)
    requires p.sso == Some(sso) && p.prompt != SilentPrompt && p.prompt != LoginPrompt
    requires Known(s, p.clientId) && WellFormed(p) && MayAsk(s.clients[p.clientId], p)
    requires RequestScopes(s.clients[p.clientId], p) == (None, scopes)
    ensures var reply := Do(s, DoOpen(p, limits)).1;
            var young := p.maxAge.Some? ==> s.tokens.now - sso.authenticatedAt <= p.maxAge.value * SECOND;
            var asked := p.prompt == ConsentPrompt ||
                         !(FirstParty(s, p.clientId) || ConsentCovers(s, sso.userId, p.clientId, scopes));
            && (reply.Completed? <==> young && !asked && sso.userId in s.tokens.users && limits.sessionUp)
            && (reply.Opened? && !reply.requiresLogin <==> young && asked && sso.userId in s.tokens.users)
            && (reply.Completed? || reply.Opened?)
  {
    var row := SsoRow(s.tokens.now, p, scopes, sso, !SsoNeedsConsent(s, p, scopes, sso));
    if TooOld(s, p, sso) || !Storable(s, row) {
    } else if SsoNeedsConsent(s, p, scopes, sso) {
    } else if !limits.sessionUp {
    } else {
    }
  }

  // ---------------------------------------------------------------------
  // Registering, hybrid responses, consents taken back
  // ---------------------------------------------------------------------

  // Whoever registers on a request and confirms the address within a day gets
  // a code for it.
  lemma RegisteringCompletes(s: Auth, r: Id, user: Id, wait: nat, limits: Limits)
    requires Do(s, DoRegister(r, Some(user))).1 == Registered(user) && wait < 24 * HOUR && limits.sessionUp
    requires user in s.tokens.users && s.requests[r].responseType == CodeResponse
    ensures var t := Step(Step(s, DoRegister(r, Some(user))), OnStore(TS.Tick(wait)));
            Do(t, DoVerifyEmail(r, user, limits)).1.Completed?
  {
    var a := Step(s, DoRegister(r, Some(user)));
    var t := Step(a, OnStore(TS.Tick(wait)));
    assert r in a.requests && a.requests[r].userId == Some(user) && a.requests[r].expiresAt == s.tokens.now + 24 * HOUR;
    assert t.tokens == a.tokens.(now := a.tokens.now + wait) && t.requests[r] == a.requests[r];
  }

  // Completing a request hands out an access token with the code only for a
  // response type that asks for one, and then to its client, for its user, with
  // its scopes; every other token is left alone.
  lemma TokenOnlyWhenAsked(s: Auth, r: Id, limits: Limits, a: Id)
    requires r in s.requests && s.requests[r].userId.Some?
    requires a in s.tokens.ats ==> a < s.tokens.next
    ensures var t, row := Complete(s, r, limits).0, s.requests[r];
            && (a in s.tokens.ats ==> a in t.tokens.ats && t.tokens.ats[a] == s.tokens.ats[a])
            && (a in t.tokens.ats && a !in s.tokens.ats ==>
                  && row.responseType != CodeResponse && row.responseType != CodeIdToken
                  && Known(s, row.clientId)
                  && t.tokens.ats[a].clientId == row.clientId && t.tokens.ats[a].userId == row.userId
                  && t.tokens.ats[a].scopes == row.scopes && t.tokens.ats[a].audience == row.audience
                  && t.tokens.ats[a].expiresAt == s.tokens.now + s.clients[row.clientId].accessTTL * SECOND)
  {
  }

  // A consent that was taken back no longer spares the user the question.
  lemma RevokedConsentIsAsked(s: Auth, user: Id, p: Params, limits: Limits)
    requires p.prompt == SilentPrompt && p.hintUser == Some(user) && !FirstParty(s, p.clientId)
    ensures Do(Step(s, RevokeConsent(user, p.clientId)), DoOpen(p, limits)).1.Refused?
  {
    var t := Step(s, RevokeConsent(user, p.clientId));
    assert (user, p.clientId) !in t.consents;
  }

  // ---------------------------------------------------------------------
  // The scopes of a request, and what a user grants of them
  // ---------------------------------------------------------------------

  // A request carries exactly the registered scopes that were asked for, or all
  // of them when none were, and with an audience also the client's permissions
  // on it that were asked for; without any of the latter it is refused.
  lemma OpenedScopesAre(c: ClientInfo, p: Params, x: string)
    ensures var (problem, scopes) := RequestScopes(c, p);
            && (problem.None? <==>
                  if p.audience.Some? then p.perms.Some? && exists y | y in p.perms.value :: y in p.requested
                  else exists y | y in c.scopes :: p.requested == [] || y in p.requested)
            && (problem.None? ==>
                  (x in scopes <==>
                     (x in c.scopes && (p.requested == [] || x in p.requested)) ||
                     (p.audience.Some? && x in p.perms.value && x in p.requested)))
  {
    var own := ClientScopes(c.scopes, p.requested);
    assert own != [] ==> own[0] in own;
    if p.audience.Some? && p.perms.Some? {
      var onResource := Filter(p.perms.value, Elements(p.requested));
      assert onResource != [] ==> onResource[0] in onResource;
    }
  }

  // Consent is to exactly the granted scopes that were asked for and that the
  // policy allows, and to nothing when none is left or the policy objects.
  lemma GrantedScopesAre(row: Request, granted: Scopes, verdict: TS.Verdict, x: string)
    ensures var (problem, scopes) := ConsentScopes(row, granted, verdict);
            && (problem.None? <==>
                  !verdict.deny && exists y | y in granted ::
                    y in row.scopes && (verdict.scopes.Some? ==> y in verdict.scopes.value))
            && (problem.None? ==>
                  (x in scopes <==> x in granted && x in row.scopes &&
                                    (verdict.scopes.Some? ==> x in verdict.scopes.value)))
  {
    var filtered := Filter(granted, Elements(row.scopes));
    var narrowed := TS.NarrowByPolicy(filtered, verdict);
    assert forall y :: y in narrowed <==>
             y in granted && y in row.scopes && (verdict.scopes.Some? ==> y in verdict.scopes.value);
    assert narrowed != [] ==> narrowed[0] in narrowed;
    assert filtered == [] ==> narrowed == [];
  }
}
