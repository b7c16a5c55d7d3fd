// Signing in through external providers: one-shot states and staged tokens,
// links between local users and external identities, and invitations.
module Federation {
  import opened Basics

  // An external identity: the provider and its identifier there.
  type Identity = (Id, Id)

  datatype Person = Person(email: string, hasPassword: bool, roles: set<Id>)

  datatype AuthRequest = AuthRequest(provider: Id, linkUser: Option<Id>, invitation: Option<Id>, expiresAt: Time)

  datatype PendingLink = PendingLink(user: Id, identity: Identity, expiresAt: Time)

  datatype PendingSignup = PendingSignup(identity: Identity, email: string, invitation: Option<Id>, expiresAt: Time)

  datatype Invitation = Invitation(email: string, roles: set<Id>, used: bool, expiresAt: Time)

  // emails indexes users by their unique address. requestedAt, stagedAt and
  // linkedAt are history: the step that made each row.
  datatype Fed = Fed(now: Time, next: Id, users: map<Id, Person>, emails: map<string, Id>, links: map<Identity, Id>,
                     requests: map<Id, AuthRequest>, pendingLinks: map<Id, PendingLink>,
                     pendingSignups: map<Id, PendingSignup>, invitations: map<Id, Invitation>, registrationOn: bool,
                     steps: nat, requestedAt: map<Id, nat>, stagedAt: map<Id, nat>, linkedAt: map<Identity, nat>)

  const Initial: Fed := Fed(0, 0, map[], map[], map[], map[], map[], map[], map[], true, 0, map[], map[], map[])

  const REQUEST_TTL: int := 10 * MINUTE
  const LINK_TTL: int := 5 * MINUTE
  const SIGNUP_TTL: int := 15 * MINUTE

  // What the provider says of the caller: no identifier, or one with an
  // address ("" when it gives none).
  datatype Claims = Claims(externalId: Option<Id>, email: string)

  datatype Outcome = Refused | Started(state: Id) | LoggedIn(user: Id) | LinkStaged(token: Id) | SignupStaged(token: Id)
                   | Linked(user: Id) | SignedUp(user: Id) | Registered(user: Id) | Done

  // ---------------------------------------------------------------------
  // States and links
  // ---------------------------------------------------------------------

  // A public login may carry an invitation, a link the user who asked for it,
  // who must exist.
  function Begin(s: Fed, provider: Id, linkUser: Option<Id>, invitation: Option<Id>): (Fed, Outcome) {
    if linkUser.Some? && linkUser.value !in s.users then (s, Refused)
    else (s.(next := s.next + 1, requestedAt := s.requestedAt[s.next := s.steps],
             requests := s.requests[s.next := AuthRequest(provider, linkUser, invitation, s.now + REQUEST_TTL)]),
          Started(s.next))
  }

  function WithLink(s: Fed, identity: Identity, user: Id): Fed {
    s.(links := s.links[identity := user], linkedAt := s.linkedAt[identity := s.steps])
  }

  // A link somebody asked for while signed in.
  function CompleteLink(s: Fed, user: Id, identity: Identity): (Fed, Outcome) {
    if user !in s.users then (s, Refused)
    else if identity in s.links then
      if s.links[identity] != user then (s, Refused) else (s, Linked(user))
    else (WithLink(s, identity, user), Linked(user))
  }

  predicate Acceptable(s: Fed, invitation: Id) {
    invitation in s.invitations && !s.invitations[invitation].used && s.invitations[invitation].expiresAt > s.now
  }

  predicate Invited(s: Fed, invitation: Option<Id>) { invitation.Some? && Acceptable(s, invitation.value) }

  function StageLink(s: Fed, user: Id, identity: Identity): Fed {
    s.(next := s.next + 1, stagedAt := s.stagedAt[s.next := s.steps],
       pendingLinks := s.pendingLinks[s.next := PendingLink(user, identity, s.now + LINK_TTL)])
  }

  function StageSignup(s: Fed, identity: Identity, email: string, invitation: Option<Id>): Fed {
    s.(next := s.next + 1, stagedAt := s.stagedAt[s.next := s.steps],
       pendingSignups := s.pendingSignups[s.next := PendingSignup(identity, email, invitation, s.now + SIGNUP_TTL)])
  }

  // An identity nobody is linked to.
  function Provision(s: Fed, req: AuthRequest, identity: Identity, email: string, allowsConfirm: bool): (Fed, Outcome) {
    if email == "" then (s, Refused)
    else if email in s.emails then
      var user := s.emails[email];
      if !allowsConfirm || user !in s.users || !s.users[user].hasPassword then (s, Refused)
      else (StageLink(s, user, identity), LinkStaged(s.next))
    else if !Invited(s, req.invitation) && !s.registrationOn then (s, Refused)
    else (StageSignup(s, identity, email, req.invitation), SignupStaged(s.next))
  }

  function FindOrProvision(s: Fed, req: AuthRequest, claims: Claims, allowsConfirm: bool): (Fed, Outcome) {
    if claims.externalId.None? then (s, Refused)
    else
      var identity := (req.provider, claims.externalId.value);
      if req.linkUser.Some? then CompleteLink(s, req.linkUser.value, identity)
      else if identity in s.links && s.links[identity] in s.users then (s, LoggedIn(s.links[identity]))
      else Provision(s.(links := s.links - {identity}), req, identity, claims.email, allowsConfirm)
  }

  // exchanged: the provider took the code and its answer verified. The state
  // is gone whatever comes of it.
  function Callback(s: Fed, state: Id, provider: Id, exchanged: bool, claims: Claims, allowsConfirm: bool)
    : (Fed, Outcome)
  {
    if state !in s.requests then (s, Refused)
    else
      var req := s.requests[state];
      var s1 := s.(requests := s.requests - {state});
      if s.now > req.expiresAt || provider != req.provider || !exchanged then (s1, Refused)
      else FindOrProvision(s1, req, claims, allowsConfirm)
  }

  // passwordOk: the password is that of the user the link was staged for.
  function Confirm(s: Fed, token: Id, passwordOk: bool, providerKnown: bool): (Fed, Outcome) {
    if token !in s.pendingLinks then (s, Refused)
    else
      var p := s.pendingLinks[token];
      var s1 := s.(pendingLinks := s.pendingLinks - {token});
      if s.now > p.expiresAt || !passwordOk || !providerKnown then (s1, Refused)
      else if p.identity in s.links || p.user !in s.users then (s1, Refused)
      else (WithLink(s1, p.identity, p.user), Linked(p.user))
  }

  function AddPerson(s: Fed, p: Person): Fed {
    s.(next := s.next + 1, users := s.users[s.next := p], emails := s.emails[p.email := s.next])
  }

  function MarkUsed(s: Fed, invitation: Id): Fed
    requires invitation in s.invitations
  {
    s.(invitations := s.invitations[invitation := s.invitations[invitation].(used := true)])
  }

  // The link is unique and its user exists, or it is not made.
  function LinkNew(s: Fed, identity: Identity, user: Id): Fed {
    if identity in s.links || user !in s.users then s else WithLink(s, identity, user)
  }

  function SignUp(s: Fed, p: PendingSignup): Fed {
    if Invited(s, p.invitation) then
      MarkUsed(LinkNew(AddPerson(s, Person(p.email, true, s.invitations[p.invitation.value].roles)),
                       p.identity, s.next),
               p.invitation.value)
    else LinkNew(AddPerson(s, Person(p.email, true, {})), p.identity, s.next)
  }

  // The invitation is spent only when there is a user.
  function Complete(s: Fed, token: Id, providerKnown: bool, created: bool): (Fed, Outcome) {
    if token !in s.pendingSignups then (s, Refused)
    else
      var p := s.pendingSignups[token];
      var s1 := s.(pendingSignups := s.pendingSignups - {token});
      if s.now > p.expiresAt || !providerKnown then (s1, Refused)
      else if !Invited(s, p.invitation) && !s.registrationOn then (s1, Refused)
      else if !created || p.email in s.emails then (s1, Refused)
      else (SignUp(s1, p), SignedUp(s.next))
  }

  // Registering with an invitation, without a provider.
  function Register(s: Fed, invitation: Id, created: bool): (Fed, Outcome) {
    if !Acceptable(s, invitation) then (s, Refused)
    else
      var inv := s.invitations[invitation];
      if !created || inv.email in s.emails then (s, Refused)
      else (MarkUsed(AddPerson(s, Person(inv.email, true, inv.roles)), invitation), Registered(s.next))
  }

  // A user goes, and by ON DELETE CASCADE what refers to the user.
  function WithoutUser(s: Fed, u: Id): Fed {
    s.(users := s.users - {u},
       emails := map e | e in s.emails && s.emails[e] != u :: s.emails[e],
       links := map i | i in s.links && s.links[i] != u :: s.links[i],
       pendingLinks := map k | k in s.pendingLinks && s.pendingLinks[k].user != u :: s.pendingLinks[k],
       requests := map k | k in s.requests && s.requests[k].linkUser != Some(u) :: s.requests[k])
  }

  // ---------------------------------------------------------------------
  // Runs
  // ---------------------------------------------------------------------

  datatype Op =
    | Tick(elapsed: nat)
    | Login(provider: Id, invitation: Option<Id>)
    | BeginLink(user: Id, provider: Id)
    | DoCallback(state: Id, provider: Id, exchanged: bool, claims: Claims, allowsConfirm: bool)
    | DoConfirm(token: Id, passwordOk: bool, providerKnown: bool)
    | DoComplete(token: Id, providerKnown: bool, created: bool)
    | DoRegister(invite: Id, created: bool)
    | Invite(email: string, roles: set<Id>, ttl: int)
    | DeleteInvitation(invite: Id)
    | SetRegistration(on: bool)
    | AddUser(person: Person)
    | RemoveUser(user: Id)
    | Sweep

  function Do(s: Fed, op: Op): (Fed, Outcome) {
    match op
    case Tick(d) => (s.(now := s.now + d), Done)
    case Login(p, inv) => Begin(s, p, None, inv)
    case BeginLink(u, p) => Begin(s, p, Some(u), None)
    case DoCallback(st, p, exchanged, claims, allows) => Callback(s, st, p, exchanged, claims, allows)
    case DoConfirm(t, passwordOk, known) => Confirm(s, t, passwordOk, known)
    case DoComplete(t, known, created) => Complete(s, t, known, created)
    case DoRegister(inv, created) => Register(s, inv, created)
    case Invite(email, roles, ttl) =>
      (s.(next := s.next + 1,
          invitations := s.invitations[s.next := Invitation(email, roles, false, s.now + ttl)]), Done)
    case DeleteInvitation(inv) => (s.(invitations := s.invitations - {inv}), Done)
    case SetRegistration(on) => (s.(registrationOn := on), Done)
    case AddUser(p) => if p.email in s.emails then (s, Refused) else (AddPerson(s, p), Done)
    case RemoveUser(u) => (WithoutUser(s, u), Done)
    case Sweep =>
      (s.(requests := map k | k in s.requests && s.requests[k].expiresAt >= s.now :: s.requests[k],
          pendingLinks := map k | k in s.pendingLinks && s.pendingLinks[k].expiresAt >= s.now :: s.pendingLinks[k],
          pendingSignups := map k | k in s.pendingSignups && s.pendingSignups[k].expiresAt >= s.now ::
                              s.pendingSignups[k]),
       Done)
  }

  function Step(s: Fed, op: Op): Fed { var s' := Do(s, op).0; s'.(steps := s.steps + 1) }

  // A run, as the sequence of its states.
  ghost predicate Execution(states: seq<Fed>, ops: seq<Op>) {
    |states| == |ops| + 1 && states[0] == Initial &&
    forall i :: 0 <= i < |ops| ==> states[i + 1] == Step(states[i], ops[i])
  }

  // ---------------------------------------------------------------------
  // Every token is consumed at most once, and never after it expired
  // ---------------------------------------------------------------------

  datatype Token = State(id: Id) | LinkToken(id: Id) | SignupToken(id: Id)

  predicate Holds(s: Fed, t: Token) {
    match t
    case State(id) => id in s.requests
    case LinkToken(id) => id in s.pendingLinks
    case SignupToken(id) => id in s.pendingSignups
  }

  function ExpiryOf(s: Fed, t: Token): Time
    requires Holds(s, t)
  {
    match t
    case State(id) => s.requests[id].expiresAt
    case LinkToken(id) => s.pendingLinks[id].expiresAt
    case SignupToken(id) => s.pendingSignups[id].expiresAt
  }

  // op hands the token in.
  predicate Presents(op: Op, t: Token) {
    match t
    case State(id) => op.DoCallback? && op.state == id
    case LinkToken(id) => op.DoConfirm? && op.token == id
    case SignupToken(id) => op.DoComplete? && op.token == id
  }

  // Tokens are named by identifiers handed out before.
  ghost predicate Named(s: Fed) {
    (forall k :: k in s.requests ==> k < s.next) && (forall k :: k in s.pendingLinks ==> k < s.next) &&
    (forall k :: k in s.pendingSignups ==> k < s.next) && (forall k :: k in s.invitations ==> k < s.next)
  }

  // No token comes back, and a spent invitation stays spent.
  ghost predicate NoneReturns(s: Fed, s': Fed) {
    s.next <= s'.next &&
    (forall k :: k in s'.requests && k < s.next ==> k in s.requests) &&
    (forall k :: k in s'.pendingLinks && k < s.next ==> k in s.pendingLinks) &&
    (forall k :: k in s'.pendingSignups && k < s.next ==> k in s.pendingSignups) &&
    (forall k :: k in s'.invitations && k < s.next ==>
       k in s.invitations && (s.invitations[k].used ==> s'.invitations[k].used))
  }

  ghost predicate Moves(s: Fed, s': Fed) { Named(s') && NoneReturns(s, s') }

  lemma StageLinkMoves(s: Fed, user: Id, identity: Identity)
    requires Named(s)
    ensures Moves(s, StageLink(s, user, identity)) && StageLink(s, user, identity).requests == s.requests
  {
  }

  lemma StageSignupMoves(s: Fed, identity: Identity, email: string, invitation: Option<Id>)
    requires Named(s)
    ensures Moves(s, StageSignup(s, identity, email, invitation))
    ensures StageSignup(s, identity, email, invitation).requests == s.requests
  {
  }

  lemma ProvisionMoves(s: Fed, req: AuthRequest, identity: Identity, email: string, allowsConfirm: bool)
    requires Named(s)
    ensures Moves(s, Provision(s, req, identity, email, allowsConfirm).0)
    ensures Provision(s, req, identity, email, allowsConfirm).0.requests == s.requests
  {
    if email == "" {
    } else if email in s.emails {
      var user := s.emails[email];
      if !allowsConfirm || user !in s.users || !s.users[user].hasPassword {} else { StageLinkMoves(s, user, identity); }
    } else if !Invited(s, req.invitation) && !s.registrationOn {
    } else {
      StageSignupMoves(s, identity, email, req.invitation);
    }
  }

  lemma CompleteLinkMoves(s: Fed, user: Id, identity: Identity)
    requires Named(s)
    ensures Moves(s, CompleteLink(s, user, identity).0) && CompleteLink(s, user, identity).0.requests == s.requests
  {
    if user !in s.users {
    } else if identity in s.links {
    } else {
    }
  }

  lemma FindMoves(s: Fed, req: AuthRequest, claims: Claims, allowsConfirm: bool)
    requires Named(s)
    ensures Moves(s, FindOrProvision(s, req, claims, allowsConfirm).0)
    ensures FindOrProvision(s, req, claims, allowsConfirm).0.requests == s.requests
  {
    if claims.externalId.None? {
    } else if req.linkUser.Some? {
      CompleteLinkMoves(s, req.linkUser.value, (req.provider, claims.externalId.value));
    } else {
      UnlinkedMoves(s, req, (req.provider, claims.externalId.value), claims.email, allowsConfirm);
    }
  }

  lemma UnlinkedMoves(s: Fed, req: AuthRequest, identity: Identity, email: string, allowsConfirm: bool)
    requires Named(s)
    ensures var s' := Provision(s.(links := s.links - {identity}), req, identity, email, allowsConfirm).0;
            Moves(s, s') && s'.requests == s.requests
  {
    ProvisionMoves(s.(links := s.links - {identity}), req, identity, email, allowsConfirm);
  }

  lemma CallbackMoves(s: Fed, state: Id, provider: Id, exchanged: bool, claims: Claims, allowsConfirm: bool)
    requires Named(s)
    ensures Moves(s, Callback(s, state, provider, exchanged, claims, allowsConfirm).0)
    ensures Callback(s, state, provider, exchanged, claims, allowsConfirm).0.requests == s.requests - {state}
    ensures Callback(s, state, provider, exchanged, claims, allowsConfirm).1 != Refused ==>
              state in s.requests && s.now <= s.requests[state].expiresAt
  {
    if state in s.requests {
      var req := s.requests[state];
      var s1 := s.(requests := s.requests - {state});
      if s.now > req.expiresAt || provider != req.provider || !exchanged {
      } else {
        FindMoves(s1, req, claims, allowsConfirm);
      }
    }
  }

  lemma ConfirmMoves(s: Fed, token: Id, passwordOk: bool, known: bool)
    requires Named(s)
    ensures Moves(s, Confirm(s, token, passwordOk, known).0)
    ensures Confirm(s, token, passwordOk, known).0.pendingLinks == s.pendingLinks - {token}
    ensures Confirm(s, token, passwordOk, known).1 != Refused ==>
              token in s.pendingLinks && s.now <= s.pendingLinks[token].expiresAt
  {
    if token in s.pendingLinks {
      var p := s.pendingLinks[token];
      var s1 := s.(pendingLinks := s.pendingLinks - {token});
      assert Moves(s, s1);
      LinkMoves(s1, p.identity, p.user);
      if s.now > p.expiresAt || !passwordOk || !known {
      } else if p.identity in s.links || p.user !in s.users {
      } else {
        assert Confirm(s, token, passwordOk, known).0 == WithLink(s1, p.identity, p.user);
      }
    } else {
      assert s.pendingLinks - {token} == s.pendingLinks;
    }
  }

  lemma LinkMoves(s: Fed, identity: Identity, user: Id)
    requires Named(s)
    ensures Moves(s, WithLink(s, identity, user)) && WithLink(s, identity, user).pendingLinks == s.pendingLinks
  {
  }

  // Linking touches the links only.
  ghost predicate OnlyLinks(s: Fed, s': Fed) {
    s'.users == s.users && s'.pendingSignups == s.pendingSignups && s'.requests == s.requests &&
    s'.pendingLinks == s.pendingLinks && s'.next == s.next && s'.invitations == s.invitations
  }

  lemma LinkNewFrame(s: Fed, identity: Identity, user: Id)
    ensures OnlyLinks(s, LinkNew(s, identity, user))
  {
    if identity in s.links || user !in s.users {} else {}
  }

  // The user a signup makes, and the invitation it spends.
  ghost predicate SignsUp(s: Fed, p: PendingSignup, s': Fed) {
    && s'.pendingSignups == s.pendingSignups && s'.requests == s.requests && s'.pendingLinks == s.pendingLinks
    && s'.next == s.next + 1 && s.next in s'.users
    && (if Invited(s, p.invitation)
        then s'.users[s.next].roles == s.invitations[p.invitation.value].roles &&
             s'.invitations == MarkUsed(s, p.invitation.value).invitations
        else s'.users[s.next].roles == {} && s'.invitations == s.invitations)
  }

  lemma SignUpShape(s: Fed, p: PendingSignup)
    ensures SignsUp(s, p, SignUp(s, p))
  {
    if Invited(s, p.invitation) {
      var a := AddPerson(s, Person(p.email, true, s.invitations[p.invitation.value].roles));
      LinkNewFrame(a, p.identity, s.next);
      var b := LinkNew(a, p.identity, s.next);
      assert SignUp(s, p) == MarkUsed(b, p.invitation.value);
    } else {
      var a := AddPerson(s, Person(p.email, true, {}));
      LinkNewFrame(a, p.identity, s.next);
      assert SignUp(s, p) == LinkNew(a, p.identity, s.next);
    }
  }

  lemma SignUpMoves(s: Fed, p: PendingSignup, s': Fed)
    requires Named(s) && SignsUp(s, p, s')
    ensures Moves(s, s')
  {
    if Invited(s, p.invitation) {} else {}
  }

  lemma CompleteMoves(s: Fed, token: Id, known: bool, created: bool)
    requires Named(s)
    ensures Moves(s, Complete(s, token, known, created).0)
    ensures Complete(s, token, known, created).0.pendingSignups == s.pendingSignups - {token}
    ensures Complete(s, token, known, created).1 != Refused ==>
              token in s.pendingSignups && s.now <= s.pendingSignups[token].expiresAt
  {
    if token in s.pendingSignups {
      var p := s.pendingSignups[token];
      var s1 := s.(pendingSignups := s.pendingSignups - {token});
      if s.now > p.expiresAt || !known {
      } else if !Invited(s, p.invitation) && !s.registrationOn {
      } else if !created || p.email in s.emails {
      } else {
        SignUpShape(s1, p);
        var s' := SignUp(s1, p);
        SignUpMoves(s1, p, s');
        assert Complete(s, token, known, created) == (s', SignedUp(s.next));
      }
    }
  }

  lemma RegisterMoves(s: Fed, invitation: Id, created: bool)
    requires Named(s)
    ensures Moves(s, Register(s, invitation, created).0)
  {
    if !Acceptable(s, invitation) {
    } else if !created || s.invitations[invitation].email in s.emails {
    } else {
    }
  }

  lemma WithoutUserMoves(s: Fed, u: Id)
    requires Named(s)
    ensures Moves(s, WithoutUser(s, u))
  {
  }

  lemma PersonMoves(s: Fed, p: Person)
    requires Named(s)
    ensures Moves(s, AddPerson(s, p))
  {
  }

  lemma AdminMoves(s: Fed, op: Op)
    requires Named(s) && (op.Invite? || op.DeleteInvitation? || op.AddUser? || op.RemoveUser?)
    ensures Moves(s, Do(s, op).0)
  {
    match op
    case Invite(email, roles, ttl) =>
    case DeleteInvitation(inv) =>
    case AddUser(p) => if p.email in s.emails {} else { PersonMoves(s, p); }
    case RemoveUser(u) => WithoutUserMoves(s, u);
  }

  lemma TimeMoves(s: Fed, op: Op)
    requires Named(s) && (op.Tick? || op.SetRegistration? || op.Sweep?)
    ensures Moves(s, Do(s, op).0)
  {
  }

  lemma BeginMoves(s: Fed, provider: Id, linkUser: Option<Id>, invitation: Option<Id>)
    requires Named(s)
    ensures Moves(s, Begin(s, provider, linkUser, invitation).0)
  {
  }

  lemma StepMoves(s: Fed, op: Op)
    requires Named(s)
    ensures Moves(s, Do(s, op).0)
  {
    match op
    case Login(p, inv) => BeginMoves(s, p, None, inv);
    case BeginLink(u, p) => BeginMoves(s, p, Some(u), None);
    case DoCallback(st, p, exchanged, claims, allows) => CallbackMoves(s, st, p, exchanged, claims, allows);
    case DoConfirm(t, passwordOk, known) => ConfirmMoves(s, t, passwordOk, known);
    case DoComplete(t, known, created) => CompleteMoves(s, t, known, created);
    case DoRegister(inv, created) => RegisterMoves(s, inv, created);
    case Tick(d) => TimeMoves(s, op);
    case SetRegistration(on) => TimeMoves(s, op);
    case Sweep => TimeMoves(s, op);
    case _ => AdminMoves(s, op);
  }

  lemma {:induction false} TokensNeverReturn(states: seq<Fed>, ops: seq<Op>, i: nat, j: nat)
    requires Execution(states, ops) && i <= j <= |ops|
    ensures Named(states[i]) && Named(states[j]) && NoneReturns(states[i], states[j])
    decreases j
  {
    if j > 0 {
      if i < j {
        TokensNeverReturn(states, ops, i, j - 1);
      } else {
        TokensNeverReturn(states, ops, j - 1, j - 1);
      }
      assert states[j - 1 + 1] == Step(states[j - 1], ops[j - 1]);
      StepMoves(states[j - 1], ops[j - 1]);
    }
  }

  lemma PresentedIsGone(s: Fed, op: Op, t: Token)
    requires Named(s) && Presents(op, t)
    ensures !Holds(Step(s, op), t)
    ensures Do(s, op).1 != Refused ==> Holds(s, t) && s.now <= ExpiryOf(s, t)
  {
    match op
    case DoCallback(st, p, exchanged, claims, allows) => CallbackMoves(s, st, p, exchanged, claims, allows);
    case DoConfirm(t, passwordOk, known) => ConfirmMoves(s, t, passwordOk, known);
    case DoComplete(t, known, created) => CompleteMoves(s, t, known, created);
  }

  // A token opens a door at most once, and never after it expired: when it has
  // been presented, whatever came of it, presenting it again is refused.
  lemma TokensAreOneShot(states: seq<Fed>, ops: seq<Op>, i: nat, j: nat, t: Token)
    requires Execution(states, ops) && i < j < |ops|
    requires Presents(ops[i], t) && Presents(ops[j], t) && Holds(states[i], t)
    ensures Do(states[j], ops[j]).1 == Refused
    ensures Do(states[i], ops[i]).1 != Refused ==> states[i].now <= ExpiryOf(states[i], t)
  {
    TokensNeverReturn(states, ops, i, i + 1);
    TokensNeverReturn(states, ops, i + 1, j);
    assert states[i + 1] == Step(states[i], ops[i]);
    PresentedIsGone(states[i], ops[i], t);
    PresentedIsGone(states[j], ops[j], t);
  }

  // ---------------------------------------------------------------------
  // An invitation confers its roles at most once
  // ---------------------------------------------------------------------

  // op creates a user on the strength of the invitation.
  predicate Confers(s: Fed, op: Op, invitation: Id) {
    || (op.DoRegister? && op.invite == invitation && Do(s, op).1.Registered?)
    || (op.DoComplete? && Do(s, op).1.SignedUp? && op.token in s.pendingSignups
        && s.pendingSignups[op.token].invitation == Some(invitation) && Acceptable(s, invitation))
  }

  // It is spent, and the new user has exactly its roles.
  lemma ConferringSpends(s: Fed, op: Op, invitation: Id)
    requires Confers(s, op, invitation)
    ensures Acceptable(s, invitation)
    ensures invitation in Step(s, op).invitations && Step(s, op).invitations[invitation].used
    ensures s.next in Step(s, op).users && Step(s, op).users[s.next].roles == s.invitations[invitation].roles
  {
    if op.DoComplete? {
      SignUpShape(s.(pendingSignups := s.pendingSignups - {op.token}), s.pendingSignups[op.token]);
    }
  }

  lemma InvitationsConferOnce(states: seq<Fed>, ops: seq<Op>, i: nat, j: nat, invitation: Id)
    requires Execution(states, ops) && i < j < |ops|
    requires Confers(states[i], ops[i], invitation)
    ensures !Confers(states[j], ops[j], invitation)
  {
    assert states[i + 1] == Step(states[i], ops[i]);
    ConferringSpends(states[i], ops[i], invitation);
    TokensNeverReturn(states, ops, i, i + 1);
    TokensNeverReturn(states, ops, i + 1, j);
    if Confers(states[j], ops[j], invitation) {
      ConferringSpends(states[j], ops[j], invitation);
    }
  }

  // ---------------------------------------------------------------------
  // Where links come from. m bounds the steps referred to.
  // ---------------------------------------------------------------------

  predicate Indexed(states: seq<Fed>, ops: seq<Op>, m: nat) { m <= |ops| < |states| }

  // op, taken in s, opened the state: for a public login, or to link u.
  predicate Asks(s: Fed, op: Op, state: Id, row: AuthRequest) {
    state == s.next && row.expiresAt == s.now + REQUEST_TTL &&
    ((op.Login? && row.linkUser.None? && row.provider == op.provider) ||
     (op.BeginLink? && row.linkUser == Some(op.user) && row.provider == op.provider))
  }

  predicate Shows(op: Op, identity: Identity) {
    op.DoCallback? && op.exchanged && op.claims.externalId == Some(identity.1) && op.provider == identity.0
  }

  // op staged a link to the account that has the address the provider gave.
  predicate StagesLink(s: Fed, op: Op, token: Id, row: PendingLink) {
    token == s.next && row.expiresAt == s.now + LINK_TTL && Shows(op, row.identity) && op.allowsConfirm &&
    op.claims.email in s.emails && s.emails[op.claims.email] == row.user &&
    row.user in s.users && s.users[row.user].hasPassword
  }

  predicate StagesSignup(s: Fed, op: Op, token: Id, row: PendingSignup) {
    token == s.next && row.expiresAt == s.now + SIGNUP_TTL && Shows(op, row.identity) &&
    op.claims.email == row.email && row.email !in s.emails
  }

  // op linked the identity to the user: on the way back from a link the user
  // began, with the password of the account it was staged for, or by the
  // signup that created the user.
  predicate Links(s: Fed, op: Op, identity: Identity, user: Id) {
    || (Shows(op, identity) && op.state in s.requests && s.now <= s.requests[op.state].expiresAt
        && s.requests[op.state].linkUser == Some(user) && s.requests[op.state].provider == identity.0)
    || (op.DoConfirm? && op.passwordOk && op.token in s.pendingLinks && s.now <= s.pendingLinks[op.token].expiresAt
        && s.pendingLinks[op.token].identity == identity && s.pendingLinks[op.token].user == user)
    || (op.DoComplete? && op.token in s.pendingSignups && s.now <= s.pendingSignups[op.token].expiresAt
        && s.pendingSignups[op.token].identity == identity && user == s.next && Do(s, op).1 == SignedUp(user))
  }

  ghost predicate RequestsTraced(states: seq<Fed>, ops: seq<Op>, m: nat, rows: map<Id, AuthRequest>, at: map<Id, nat>)
    requires Indexed(states, ops, m)
  {
    forall k :: k in rows ==> k in at && at[k] < m && Asks(states[at[k]], ops[at[k]], k, rows[k])
  }

  ghost predicate LinksStaged(states: seq<Fed>, ops: seq<Op>, m: nat, rows: map<Id, PendingLink>, at: map<Id, nat>)
    requires Indexed(states, ops, m)
  {
    forall k :: k in rows ==> k in at && at[k] < m && StagesLink(states[at[k]], ops[at[k]], k, rows[k])
  }

  ghost predicate SignupsStaged(states: seq<Fed>, ops: seq<Op>, m: nat, rows: map<Id, PendingSignup>, at: map<Id, nat>)
    requires Indexed(states, ops, m)
  {
    forall k :: k in rows ==> k in at && at[k] < m && StagesSignup(states[at[k]], ops[at[k]], k, rows[k])
  }

  ghost predicate LinksTraced(states: seq<Fed>, ops: seq<Op>, m: nat, links: map<Identity, Id>, at: map<Identity, nat>)
    requires Indexed(states, ops, m)
  {
    forall i :: i in links ==> i in at && at[i] < m && Links(states[at[i]], ops[at[i]], i, links[i])
  }

  ghost predicate Traced(states: seq<Fed>, ops: seq<Op>, m: nat, s: Fed)
    requires Indexed(states, ops, m)
  {
    && Named(s)
    && RequestsTraced(states, ops, m, s.requests, s.requestedAt)
    && LinksStaged(states, ops, m, s.pendingLinks, s.stagedAt)
    && SignupsStaged(states, ops, m, s.pendingSignups, s.stagedAt)
    && LinksTraced(states, ops, m, s.links, s.linkedAt)
  }

  // Step n is about to be taken.
  ghost predicate Working(states: seq<Fed>, ops: seq<Op>, n: nat) {
    n < |ops| < |states| && states[n].steps == n && Traced(states, ops, n + 1, states[n])
  }

  // Rows may go; those that stay are as they were.
  ghost predicate Shrinks(s: Fed, s': Fed) {
    && s'.requestedAt == s.requestedAt && s'.stagedAt == s.stagedAt && s'.linkedAt == s.linkedAt && s'.steps == s.steps
    && (forall k :: k in s'.requests ==> k in s.requests && s'.requests[k] == s.requests[k])
    && (forall k :: k in s'.pendingLinks ==> k in s.pendingLinks && s'.pendingLinks[k] == s.pendingLinks[k])
    && (forall k :: k in s'.pendingSignups ==> k in s.pendingSignups && s'.pendingSignups[k] == s.pendingSignups[k])
    && (forall k :: k in s'.links ==> k in s.links && s'.links[k] == s.links[k])
    && Named(s') && s.next <= s'.next
  }

  lemma ShrinkTraced(states: seq<Fed>, ops: seq<Op>, m: nat, s: Fed, s': Fed)
    requires Indexed(states, ops, m) && Traced(states, ops, m, s) && Shrinks(s, s')
    ensures Traced(states, ops, m, s')
  {
  }

  lemma LinkTraced(states: seq<Fed>, ops: seq<Op>, n: nat, s: Fed, identity: Identity, user: Id)
    requires Indexed(states, ops, n + 1) && Traced(states, ops, n + 1, s) && s.steps == n
    requires Links(states[n], ops[n], identity, user)
    ensures Traced(states, ops, n + 1, WithLink(s, identity, user))
  {
    var s' := WithLink(s, identity, user);
    assert LinksTraced(states, ops, n + 1, s'.links, s'.linkedAt);
  }

  lemma BeginTraced(states: seq<Fed>, ops: seq<Op>, n: nat, provider: Id, linkUser: Option<Id>, invitation: Option<Id>)
    requires Working(states, ops, n)
    requires (ops[n] == Login(provider, invitation) && linkUser.None?) ||
             (linkUser.Some? && ops[n] == BeginLink(linkUser.value, provider))
    ensures Traced(states, ops, n + 1, Begin(states[n], provider, linkUser, invitation).0)
  {
    var s' := Begin(states[n], provider, linkUser, invitation).0;
    if linkUser.Some? && linkUser.value !in states[n].users {
    } else {
      assert RequestsTraced(states, ops, n + 1, s'.requests, s'.requestedAt);
    }
  }

  lemma StageLinkTraced(states: seq<Fed>, ops: seq<Op>, n: nat, s: Fed, user: Id, identity: Identity)
    requires Indexed(states, ops, n + 1) && Traced(states, ops, n + 1, s) && s.steps == n
    requires StagesLink(states[n], ops[n], s.next, PendingLink(user, identity, s.now + LINK_TTL))
    ensures Traced(states, ops, n + 1, StageLink(s, user, identity))
  {
    var s' := StageLink(s, user, identity);
    assert LinksStaged(states, ops, n + 1, s'.pendingLinks, s'.stagedAt);
    assert SignupsStaged(states, ops, n + 1, s'.pendingSignups, s'.stagedAt);
  }

  lemma StageSignupTraced(states: seq<Fed>, ops: seq<Op>, n: nat, s: Fed, identity: Identity, email: string,
                          invitation: Option<Id>)
    requires Indexed(states, ops, n + 1) && Traced(states, ops, n + 1, s) && s.steps == n
    requires StagesSignup(states[n], ops[n], s.next, PendingSignup(identity, email, invitation, s.now + SIGNUP_TTL))
    ensures Traced(states, ops, n + 1, StageSignup(s, identity, email, invitation))
  {
    var s' := StageSignup(s, identity, email, invitation);
    assert SignupsStaged(states, ops, n + 1, s'.pendingSignups, s'.stagedAt);
    assert LinksStaged(states, ops, n + 1, s'.pendingLinks, s'.stagedAt);
  }

  lemma ProvisionTraced(states: seq<Fed>, ops: seq<Op>, n: nat, s: Fed, req: AuthRequest, identity: Identity)
    requires Indexed(states, ops, n + 1) && Traced(states, ops, n + 1, s) && s.steps == n
    requires s.next == states[n].next && s.now == states[n].now
    requires s.emails == states[n].emails && s.users == states[n].users
    requires Shows(ops[n], identity)
    ensures Traced(states, ops, n + 1, Provision(s, req, identity, ops[n].claims.email, ops[n].allowsConfirm).0)
  {
    var email := ops[n].claims.email;
    if email == "" {
    } else if email in s.emails {
      var user := s.emails[email];
      if !ops[n].allowsConfirm || user !in s.users || !s.users[user].hasPassword {
      } else {
        StageLinkTraced(states, ops, n, s, user, identity);
      }
    } else if !Invited(s, req.invitation) && !s.registrationOn {
    } else {
      StageSignupTraced(states, ops, n, s, identity, email, req.invitation);
    }
  }

  lemma CallbackTraced(states: seq<Fed>, ops: seq<Op>, n: nat)
    requires Working(states, ops, n) && ops[n].DoCallback?
    ensures Traced(states, ops, n + 1, Do(states[n], ops[n]).0)
  {
    var s, op := states[n], ops[n];
    if op.state !in s.requests {
    } else {
      var req := s.requests[op.state];
      var s1 := s.(requests := s.requests - {op.state});
      ShrinkTraced(states, ops, n + 1, s, s1);
      if s.now > req.expiresAt || op.provider != req.provider || !op.exchanged {
      } else if op.claims.externalId.None? {
      } else {
        var identity := (req.provider, op.claims.externalId.value);
        if req.linkUser.Some? {
          if req.linkUser.value !in s1.users {
          } else if identity in s1.links {
          } else {
            LinkTraced(states, ops, n, s1, identity, req.linkUser.value);
          }
        } else if identity in s1.links && s1.links[identity] in s1.users {
        } else {
          var s2 := s1.(links := s1.links - {identity});
          ShrinkTraced(states, ops, n + 1, s1, s2);
          ProvisionTraced(states, ops, n, s2, req, identity);
        }
      }
    }
  }

  lemma ConfirmTraced(states: seq<Fed>, ops: seq<Op>, n: nat)
    requires Working(states, ops, n) && ops[n].DoConfirm?
    ensures Traced(states, ops, n + 1, Do(states[n], ops[n]).0)
  {
    var s, op := states[n], ops[n];
    if op.token !in s.pendingLinks {
    } else {
      var p := s.pendingLinks[op.token];
      var s1 := s.(pendingLinks := s.pendingLinks - {op.token});
      ShrinkTraced(states, ops, n + 1, s, s1);
      if s.now > p.expiresAt || !op.passwordOk || !op.providerKnown {
      } else if p.identity in s.links || p.user !in s.users {
      } else {
        LinkTraced(states, ops, n, s1, p.identity, p.user);
      }
    }
  }

  lemma SignUpTraced(states: seq<Fed>, ops: seq<Op>, n: nat, s: Fed, p: PendingSignup, a: Person)
    requires Indexed(states, ops, n + 1) && Traced(states, ops, n + 1, s) && s.steps == n
    requires Links(states[n], ops[n], p.identity, s.next)
    ensures Traced(states, ops, n + 1, LinkNew(AddPerson(s, a), p.identity, s.next))
  {
    ShrinkTraced(states, ops, n + 1, s, AddPerson(s, a));
    if p.identity in s.links {
    } else {
      LinkTraced(states, ops, n, AddPerson(s, a), p.identity, s.next);
    }
  }

  lemma FinishTraced(states: seq<Fed>, ops: seq<Op>, n: nat, s: Fed, p: PendingSignup)
    requires Indexed(states, ops, n + 1) && Traced(states, ops, n + 1, s) && s.steps == n
    requires Links(states[n], ops[n], p.identity, s.next)
    ensures Traced(states, ops, n + 1, SignUp(s, p))
  {
    if Invited(s, p.invitation) {
      var a := Person(p.email, true, s.invitations[p.invitation.value].roles);
      SignUpTraced(states, ops, n, s, p, a);
      LinkNewFrame(AddPerson(s, a), p.identity, s.next);
      MarkUsedTraced(states, ops, n + 1, LinkNew(AddPerson(s, a), p.identity, s.next), p.invitation.value);
    } else {
      SignUpTraced(states, ops, n, s, p, Person(p.email, true, {}));
    }
  }

  lemma MarkUsedTraced(states: seq<Fed>, ops: seq<Op>, m: nat, s: Fed, invitation: Id)
    requires Indexed(states, ops, m) && Traced(states, ops, m, s) && invitation in s.invitations
    ensures Traced(states, ops, m, MarkUsed(s, invitation))
  {
    ShrinkTraced(states, ops, m, s, MarkUsed(s, invitation));
  }

  lemma CompleteTraced(states: seq<Fed>, ops: seq<Op>, n: nat)
    requires Working(states, ops, n) && ops[n].DoComplete?
    ensures Traced(states, ops, n + 1, Do(states[n], ops[n]).0)
  {
    var s, op := states[n], ops[n];
    if op.token !in s.pendingSignups {
    } else {
      var p := s.pendingSignups[op.token];
      var s1 := s.(pendingSignups := s.pendingSignups - {op.token});
      ShrinkTraced(states, ops, n + 1, s, s1);
      if s.now > p.expiresAt || !op.providerKnown {
      } else if !Invited(s, p.invitation) && !s.registrationOn {
      } else if !op.created || p.email in s.emails {
      } else {
        FinishTraced(states, ops, n, s1, p);
      }
    }
  }

  lemma PersonShrinks(s: Fed, p: Person)
    requires Named(s)
    ensures Shrinks(s, AddPerson(s, p))
  {
  }

  lemma MarkUsedShrinks(s: Fed, invitation: Id)
    requires Named(s) && invitation in s.invitations
    ensures Shrinks(s, MarkUsed(s, invitation))
  {
  }

  lemma ShrinksTwice(s: Fed, a: Fed, b: Fed)
    requires Shrinks(s, a) && Shrinks(a, b)
    ensures Shrinks(s, b)
  {
  }

  lemma RegisterShrinks(s: Fed, invitation: Id, created: bool)
    requires Named(s)
    ensures Shrinks(s, Register(s, invitation, created).0)
  {
    if !Acceptable(s, invitation) {
    } else if !created || s.invitations[invitation].email in s.emails {
    } else {
      var inv := s.invitations[invitation];
      var a := AddPerson(s, Person(inv.email, true, inv.roles));
      PersonShrinks(s, Person(inv.email, true, inv.roles));
      MarkUsedShrinks(a, invitation);
      ShrinksTwice(s, a, MarkUsed(a, invitation));
    }
  }

  lemma WithoutUserShrinks(s: Fed, u: Id)
    requires Named(s)
    ensures Shrinks(s, WithoutUser(s, u))
  {
    WithoutUserMoves(s, u);
  }

  lemma AdminShrinks(s: Fed, op: Op)
    requires Named(s) && (op.Invite? || op.DeleteInvitation? || op.AddUser? || op.RemoveUser?)
    ensures Shrinks(s, Do(s, op).0)
  {
    match op
    case Invite(email, roles, ttl) =>
    case DeleteInvitation(inv) =>
    case AddUser(p) => if p.email in s.emails {} else { PersonShrinks(s, p); }
    case RemoveUser(u) => WithoutUserShrinks(s, u);
  }

  lemma TimeShrinks(s: Fed, op: Op)
    requires Named(s) && (op.Tick? || op.SetRegistration? || op.Sweep?)
    ensures Shrinks(s, Do(s, op).0)
  {
    TimeMoves(s, op);
  }

  lemma OthersShrink(s: Fed, op: Op)
    requires Named(s)
    requires !op.Login? && !op.BeginLink? && !op.DoCallback? && !op.DoConfirm? && !op.DoComplete?
    ensures Shrinks(s, Do(s, op).0)
  {
    if op.DoRegister? {
      RegisterShrinks(s, op.invite, op.created);
    } else if op.Tick? || op.SetRegistration? || op.Sweep? {
      TimeShrinks(s, op);
    } else {
      AdminShrinks(s, op);
    }
  }

  lemma StepTraced(states: seq<Fed>, ops: seq<Op>, n: nat)
    requires Working(states, ops, n)
    ensures Traced(states, ops, n + 1, Do(states[n], ops[n]).0)
  {
    match ops[n]
    case Login(p, inv) => BeginTraced(states, ops, n, p, None, inv);
    case BeginLink(u, p) => BeginTraced(states, ops, n, p, Some(u), None);
    case DoCallback(st, p, exchanged, claims, allows) => CallbackTraced(states, ops, n);
    case DoConfirm(t, passwordOk, known) => ConfirmTraced(states, ops, n);
    case DoComplete(t, known, created) => CompleteTraced(states, ops, n);
    case _ =>
      OthersShrink(states[n], ops[n]);
      ShrinkTraced(states, ops, n + 1, states[n], Do(states[n], ops[n]).0);
  }

  lemma TracedLater(states: seq<Fed>, ops: seq<Op>, m: nat, s: Fed)
    requires Indexed(states, ops, m + 1) && Traced(states, ops, m, s)
    ensures Traced(states, ops, m + 1, s)
  {
  }

  lemma {:induction false} RunTraced(states: seq<Fed>, ops: seq<Op>, n: nat)
    requires Execution(states, ops) && n <= |ops|
    ensures Traced(states, ops, n, states[n]) && states[n].steps == n
    decreases n
  {
    if n > 0 {
      RunTraced(states, ops, n - 1);
      TracedLater(states, ops, n - 1, states[n - 1]);
      assert states[n - 1 + 1] == Step(states[n - 1], ops[n - 1]);
      StepTraced(states, ops, n - 1);
      StepCounts(states[n - 1], ops[n - 1]);
    }
  }

  lemma StepCounts(s: Fed, op: Op)
    ensures Step(s, op).steps == s.steps + 1
  {
  }

  // Every link a run holds was made by one of three steps, and two of them go
  // back to an earlier one: a link this very user began, or an address of
  // theirs the provider vouched for, confirmed with their password; the third
  // is the signup that created the user, for that identity and address.
  lemma LinksHaveProvenance(states: seq<Fed>, ops: seq<Op>, n: nat, identity: Identity) returns (at: nat, from: nat)
    requires Execution(states, ops) && n <= |ops| && identity in states[n].links
    ensures from < at < n
    ensures var u := states[n].links[identity];
            Links(states[at], ops[at], identity, u) &&
            match ops[at]
            case DoCallback(state, p, exchanged, claims, allows) =>
              ops[from] == BeginLink(u, identity.0) && state == states[from].next
            case DoConfirm(token, passwordOk, known) =>
              passwordOk && Shows(ops[from], identity) && ops[from].claims.email in states[from].emails &&
              states[from].emails[ops[from].claims.email] == u && token == states[from].next
            case DoComplete(token, known, created) =>
              u == states[at].next && Shows(ops[from], identity) && token == states[from].next
            case _ => false
  {
    RunTraced(states, ops, n);
    at := states[n].linkedAt[identity];
    RunTraced(states, ops, at);
    var s, op := states[at], ops[at];
    from := if op.DoCallback? then s.requestedAt[op.state] else s.stagedAt[op.token];
  }

  // ---------------------------------------------------------------------
  // Nothing refers to a user who is gone
  // ---------------------------------------------------------------------

  // The address index names every user once, and links, staged links and link
  // requests belong to users that exist.
  ghost predicate Owned(s: Fed) {
    && (forall u :: u in s.users ==> u < s.next && s.users[u].email in s.emails && s.emails[s.users[u].email] == u)
    && (forall e :: e in s.emails ==> s.emails[e] in s.users && s.users[s.emails[e]].email == e)
    && (forall i :: i in s.links ==> s.links[i] in s.users)
    && (forall k :: k in s.pendingLinks ==> s.pendingLinks[k].user in s.users)
    && (forall k :: k in s.requests && s.requests[k].linkUser.Some? ==> s.requests[k].linkUser.value in s.users)
  }

  // Users and their addresses stay as they are, and no reference is added.
  ghost predicate Sheds(s: Fed, s': Fed) {
    s'.users == s.users && s'.emails == s.emails && s.next <= s'.next &&
    (forall i :: i in s'.links ==> i in s.links && s'.links[i] == s.links[i]) &&
    (forall k :: k in s'.pendingLinks ==> k in s.pendingLinks && s'.pendingLinks[k] == s.pendingLinks[k]) &&
    (forall k :: k in s'.requests ==> k in s.requests && s'.requests[k] == s.requests[k])
  }

  lemma ShedOwned(s: Fed, s': Fed)
    requires Owned(s) && Sheds(s, s')
    ensures Owned(s')
  {
  }

  lemma LinkNewOwned(s: Fed, identity: Identity, user: Id)
    requires Owned(s)
    ensures Owned(LinkNew(s, identity, user))
  {
    if identity in s.links || user !in s.users {} else {}
  }

  lemma PersonOwned(s: Fed, p: Person)
    requires Owned(s) && p.email !in s.emails
    ensures Owned(AddPerson(s, p))
  {
  }

  lemma BeginOwned(s: Fed, provider: Id, linkUser: Option<Id>, invitation: Option<Id>)
    requires Owned(s)
    ensures Owned(Begin(s, provider, linkUser, invitation).0)
  {
    if linkUser.Some? && linkUser.value !in s.users {} else {}
  }

  lemma StageLinkOwned(s: Fed, user: Id, identity: Identity)
    requires Owned(s) && user in s.users
    ensures Owned(StageLink(s, user, identity))
  {
  }

  lemma ProvisionOwned(s: Fed, req: AuthRequest, identity: Identity, email: string, allowsConfirm: bool)
    requires Owned(s)
    ensures Owned(Provision(s, req, identity, email, allowsConfirm).0)
  {
    if email == "" {
    } else if email in s.emails {
      StageLinkOwned(s, s.emails[email], identity);
    } else if !Invited(s, req.invitation) && !s.registrationOn {
    } else {
      ShedOwned(s, StageSignup(s, identity, email, req.invitation));
    }
  }

  lemma CallbackOwned(s: Fed, state: Id, provider: Id, exchanged: bool, claims: Claims, allowsConfirm: bool)
    requires Owned(s)
    ensures Owned(Callback(s, state, provider, exchanged, claims, allowsConfirm).0)
  {
    if state in s.requests {
      var req := s.requests[state];
      var s1 := s.(requests := s.requests - {state});
      ShedOwned(s, s1);
      if s.now > req.expiresAt || provider != req.provider || !exchanged {
      } else if claims.externalId.None? {
      } else {
        FoundOwned(s1, req, (req.provider, claims.externalId.value), claims, allowsConfirm);
      }
    }
  }

  lemma FoundOwned(s: Fed, req: AuthRequest, identity: Identity, claims: Claims, allowsConfirm: bool)
    requires Owned(s) && claims.externalId.Some? && identity == (req.provider, claims.externalId.value)
    ensures Owned(FindOrProvision(s, req, claims, allowsConfirm).0)
  {
    if req.linkUser.Some? {
      LinkNewOwned(s, identity, req.linkUser.value);
      assert FindOrProvision(s, req, claims, allowsConfirm).0 == LinkNew(s, identity, req.linkUser.value);
    } else if identity in s.links && s.links[identity] in s.users {
    } else {
      var s1 := s.(links := s.links - {identity});
      ShedOwned(s, s1);
      ProvisionOwned(s1, req, identity, claims.email, allowsConfirm);
    }
  }

  lemma ConfirmOwned(s: Fed, token: Id, passwordOk: bool, known: bool)
    requires Owned(s)
    ensures Owned(Confirm(s, token, passwordOk, known).0)
  {
    if token in s.pendingLinks {
      var p := s.pendingLinks[token];
      var s1 := s.(pendingLinks := s.pendingLinks - {token});
      ShedOwned(s, s1);
      LinkNewOwned(s1, p.identity, p.user);
      if s.now > p.expiresAt || !passwordOk || !known {
      } else {
        assert Confirm(s, token, passwordOk, known).0 == LinkNew(s1, p.identity, p.user);
      }
    }
  }

  lemma SignUpOwned(s: Fed, p: PendingSignup)
    requires Owned(s) && p.email !in s.emails
    ensures Owned(SignUp(s, p))
  {
    var roles := if Invited(s, p.invitation) then s.invitations[p.invitation.value].roles else {};
    var a := AddPerson(s, Person(p.email, true, roles));
    PersonOwned(s, Person(p.email, true, roles));
    var b := LinkNew(a, p.identity, s.next);
    LinkNewOwned(a, p.identity, s.next);
    LinkNewFrame(a, p.identity, s.next);
    if Invited(s, p.invitation) {
      ShedOwned(b, MarkUsed(b, p.invitation.value));
    }
  }

  lemma CompleteOwned(s: Fed, token: Id, known: bool, created: bool)
    requires Owned(s)
    ensures Owned(Complete(s, token, known, created).0)
  {
    if token in s.pendingSignups {
      var p := s.pendingSignups[token];
      var s1 := s.(pendingSignups := s.pendingSignups - {token});
      ShedOwned(s, s1);
      if s.now > p.expiresAt || !known {
      } else if !Invited(s, p.invitation) && !s.registrationOn {
      } else if !created || p.email in s.emails {
      } else {
        SignUpOwned(s1, p);
      }
    }
  }

  lemma RegisterOwned(s: Fed, invitation: Id, created: bool)
    requires Owned(s)
    ensures Owned(Register(s, invitation, created).0)
  {
    if !Acceptable(s, invitation) {
    } else if !created || s.invitations[invitation].email in s.emails {
    } else {
      var inv := s.invitations[invitation];
      var a := AddPerson(s, Person(inv.email, true, inv.roles));
      PersonOwned(s, Person(inv.email, true, inv.roles));
      ShedOwned(a, MarkUsed(a, invitation));
    }
  }

  lemma AdminOwned(s: Fed, op: Op)
    requires Owned(s) && (op.Invite? || op.DeleteInvitation? || op.Tick? || op.SetRegistration? || op.Sweep?)
    ensures Owned(Do(s, op).0)
  {
    ShedOwned(s, Do(s, op).0);
  }

  lemma WithoutUserOwned(s: Fed, u: Id)
    requires Owned(s)
    ensures Owned(WithoutUser(s, u))
  {
  }

  lemma DoOwned(s: Fed, op: Op)
    requires Owned(s)
    ensures Owned(Do(s, op).0)
  {
    match op
    case Login(p, inv) => BeginOwned(s, p, None, inv);
    case BeginLink(u, p) => BeginOwned(s, p, Some(u), None);
    case DoCallback(st, p, exchanged, claims, allows) => CallbackOwned(s, st, p, exchanged, claims, allows);
    case DoConfirm(t, passwordOk, known) => ConfirmOwned(s, t, passwordOk, known);
    case DoComplete(t, known, created) => CompleteOwned(s, t, known, created);
    case DoRegister(inv, created) => RegisterOwned(s, inv, created);
    case AddUser(p) => if p.email in s.emails {} else { PersonOwned(s, p); }
    case RemoveUser(u) => WithoutUserOwned(s, u);
    case _ => AdminOwned(s, op);
  }

  // In every state of every run each link belongs to a user that exists, and
  // addresses are unique: removing a user leaves no link to sign in with.
  lemma {:induction false} LinksHaveOwners(states: seq<Fed>, ops: seq<Op>, n: nat)
    requires Execution(states, ops) && n <= |ops|
    ensures Owned(states[n])
    decreases n
  {
    if n > 0 {
      LinksHaveOwners(states, ops, n - 1);
      assert states[n - 1 + 1] == Step(states[n - 1], ops[n - 1]);
      DoOwned(states[n - 1], ops[n - 1]);
      ShedOwned(Do(states[n - 1], ops[n - 1]).0, Step(states[n - 1], ops[n - 1]));
    }
  }

  // ---------------------------------------------------------------------
  // Who is let in
  // ---------------------------------------------------------------------

  // The callback of a sign-in that was begun, with the provider's word for the
  // identity.
  predicate Vouched(s: Fed, op: Op, identity: Identity) {
    && op.DoCallback? && op.state in s.requests && s.now <= s.requests[op.state].expiresAt
    && s.requests[op.state].provider == op.provider && op.exchanged
    && op.claims.externalId == Some(identity.1) && op.provider == identity.0
  }

  lemma CallbackAnswers(s: Fed, op: Op, identity: Identity)
    requires Vouched(s, op, identity)
    ensures var req := s.requests[op.state];
            var s1 := s.(requests := s.requests - {op.state});
            Do(s, op) ==
            if req.linkUser.Some? then CompleteLink(s1, req.linkUser.value, identity)
            else if identity in s.links && s.links[identity] in s.users then (s1, LoggedIn(s.links[identity]))
            else Provision(s1.(links := s.links - {identity}), req, identity, op.claims.email, op.allowsConfirm)
  {
    assert identity == (s.requests[op.state].provider, op.claims.externalId.value);
  }

  lemma UnvouchedIsRefused(s: Fed, op: Op)
    requires op.DoCallback? && forall identity :: !Vouched(s, op, identity)
    ensures Do(s, op) == (s.(requests := s.requests - {op.state}), Refused)
  {
    if op.state !in s.requests {
      assert s.requests - {op.state} == s.requests;
    } else if op.claims.externalId.Some? {
      assert !Vouched(s, op, (op.provider, op.claims.externalId.value));
    }
  }

  lemma ProvisionLetsNobodyIn(s: Fed, req: AuthRequest, identity: Identity, email: string, allowsConfirm: bool)
    ensures var out := Provision(s, req, identity, email, allowsConfirm).1;
            out.Refused? || out.LinkStaged? || out.SignupStaged?
  {
  }

  // A callback logs somebody in exactly when it answers a pending public
  // sign-in at that provider, unexpired, and the identity the provider vouches
  // for is linked to that very user, who exists. An address alone never does.
  lemma SignInsFollowLinks(states: seq<Fed>, ops: seq<Op>, n: nat, u: Id)
    requires Execution(states, ops) && n < |ops|
    ensures Do(states[n], ops[n]).1 == LoggedIn(u) <==>
            exists identity :: Vouched(states[n], ops[n], identity) && states[n].requests[ops[n].state].linkUser.None? &&
                               identity in states[n].links && states[n].links[identity] == u
    ensures Do(states[n], ops[n]).1 == LoggedIn(u) ==> u in states[n].users
  {
    var s, op := states[n], ops[n];
    LinksHaveOwners(states, ops, n);
    if identity :| Vouched(s, op, identity) {
      forall other | Vouched(s, op, other) ensures other == identity {
      }
      CallbackAnswers(s, op, identity);
      var req := s.requests[op.state];
      ProvisionLetsNobodyIn(s.(requests := s.requests - {op.state}, links := s.links - {identity}), req, identity,
                            op.claims.email, op.allowsConfirm);
    } else if op.DoCallback? {
      UnvouchedIsRefused(s, op);
    } else {
    }
  }

  // With the origin of links: whoever signs in through a provider does so by a
  // link they began while signed in, confirmed with their password, or were
  // created with.
  lemma SignInsHaveProvenance(states: seq<Fed>, ops: seq<Op>, n: nat, u: Id)
      returns (identity: Identity, at: nat, from: nat)
    requires Execution(states, ops) && n < |ops| && Do(states[n], ops[n]).1 == LoggedIn(u)
    ensures from < at < n && Vouched(states[n], ops[n], identity) && Links(states[at], ops[at], identity, u)
    ensures match ops[at]
            case DoCallback(state, p, exchanged, claims, allows) => ops[from] == BeginLink(u, identity.0)
            case DoConfirm(token, passwordOk, known) => passwordOk && Shows(ops[from], identity)
            case DoComplete(token, known, created) => u == states[at].next && Shows(ops[from], identity)
            case _ => false
  {
    SignInsFollowLinks(states, ops, n, u);
    identity :| Vouched(states[n], ops[n], identity) && identity in states[n].links && states[n].links[identity] == u;
    at, from := LinksHaveProvenance(states, ops, n, identity);
  }

  // The other ways in: a link the user asked for while signed in, a staged one
  // with the password of its account, a signup, or an invitation.
  lemma EntriesAreProved(s: Fed, op: Op, u: Id)
    requires Do(s, op).1 == Linked(u) || Do(s, op).1 == SignedUp(u) || Do(s, op).1 == Registered(u)
    ensures match Do(s, op).1
            case Linked(u) =>
              && u in s.users
              && ((op.DoCallback? && op.exchanged && op.state in s.requests
                   && s.requests[op.state].linkUser == Some(u) && s.now <= s.requests[op.state].expiresAt)
                  || (op.DoConfirm? && op.passwordOk && op.token in s.pendingLinks
                      && s.pendingLinks[op.token].user == u && s.now <= s.pendingLinks[op.token].expiresAt))
            case SignedUp(u) =>
              && op.DoComplete? && op.created && op.token in s.pendingSignups && u == s.next
              && s.now <= s.pendingSignups[op.token].expiresAt && s.pendingSignups[op.token].email !in s.emails
              && (s.registrationOn || Invited(s, s.pendingSignups[op.token].invitation))
            case Registered(u) => op.DoRegister? && op.created && u == s.next && Acceptable(s, op.invite)
            case _ => false
  {
    if op.DoCallback? {
      if identity :| Vouched(s, op, identity) {
        CallbackAnswers(s, op, identity);
        ProvisionLetsNobodyIn(s.(requests := s.requests - {op.state}, links := s.links - {identity}),
                              s.requests[op.state], identity, op.claims.email, op.allowsConfirm);
      } else {
        UnvouchedIsRefused(s, op);
      }
    }
  }

  // A user created by a signup has the address that was staged, and no role but
  // those of a valid invitation.
  lemma SignupsConferNothingElse(s: Fed, op: Op)
    requires op.DoComplete? && Do(s, op).1.SignedUp?
    ensures op.token in s.pendingSignups && s.next in Step(s, op).users
    ensures var p, made := s.pendingSignups[op.token], Step(s, op).users[s.next];
            made.email == p.email && made.roles == if Invited(s, p.invitation) then s.invitations[p.invitation.value].roles
                                                   else {}
    ensures forall k :: k in s.users && k != s.next ==> k in Step(s, op).users && Step(s, op).users[k] == s.users[k]
  {
    var p := s.pendingSignups[op.token];
    var s1 := s.(pendingSignups := s.pendingSignups - {op.token});
    SignUpUsers(s1, p);
  }

  lemma SignUpUsers(s: Fed, p: PendingSignup)
    ensures SignUp(s, p).users ==
            s.users[s.next := Person(p.email, true, if Invited(s, p.invitation)
                                                    then s.invitations[p.invitation.value].roles else {})]
  {
    if Invited(s, p.invitation) {
      LinkNewFrame(AddPerson(s, Person(p.email, true, s.invitations[p.invitation.value].roles)), p.identity, s.next);
    } else {
      LinkNewFrame(AddPerson(s, Person(p.email, true, {})), p.identity, s.next);
    }
  }

  // A link never passes from one user to another: it stays, or goes with its
  // user.
  lemma LinksNeverMove(states: seq<Fed>, ops: seq<Op>, n: nat, identity: Identity)
    requires Execution(states, ops) && n < |ops| && identity in states[n].links
    ensures (identity in states[n + 1].links && states[n + 1].links[identity] == states[n].links[identity])
            || ops[n] == RemoveUser(states[n].links[identity])
  {
    LinksHaveOwners(states, ops, n);
    assert states[n + 1] == Step(states[n], ops[n]);
    if ops[n] != RemoveUser(states[n].links[identity]) {
      StepKeepsLink(states[n], ops[n], identity);
    }
  }

  lemma StepKeepsLink(s: Fed, op: Op, identity: Identity)
    requires Owned(s) && identity in s.links && op != RemoveUser(s.links[identity])
    ensures identity in Do(s, op).0.links && Do(s, op).0.links[identity] == s.links[identity]
  {
    match op
    case DoCallback(st, p, exchanged, claims, allows) => CallbackKeepsLink(s, op, identity);
    case DoConfirm(t, passwordOk, known) => ConfirmKeepsLink(s, t, passwordOk, known, identity);
    case DoComplete(t, known, created) => CompleteKeepsLink(s, t, known, created, identity);
    case DoRegister(inv, created) => if !Acceptable(s, inv) {} else if !created {} else {}
    case _ => AdminKeepsLink(s, op, identity);
  }

  lemma AdminKeepsLink(s: Fed, op: Op, identity: Identity)
    requires identity in s.links && op != RemoveUser(s.links[identity])
    requires !op.DoCallback? && !op.DoConfirm? && !op.DoComplete? && !op.DoRegister?
    ensures identity in Do(s, op).0.links && Do(s, op).0.links[identity] == s.links[identity]
  {
  }

  lemma CallbackKeepsLink(s: Fed, op: Op, identity: Identity)
    requires Owned(s) && identity in s.links && op.DoCallback?
    ensures identity in Do(s, op).0.links && Do(s, op).0.links[identity] == s.links[identity]
  {
    if shown :| Vouched(s, op, shown) {
      CallbackAnswers(s, op, shown);
      var s1 := s.(requests := s.requests - {op.state});
      var req := s.requests[op.state];
      if req.linkUser.Some? {
        if req.linkUser.value !in s.users {} else if shown in s.links {} else {}
      } else if shown in s.links {
      } else {
        ProvisionLinks(s1.(links := s.links - {shown}), req, shown, op.claims.email, op.allowsConfirm);
      }
    } else {
      UnvouchedIsRefused(s, op);
    }
  }

  lemma ProvisionLinks(s: Fed, req: AuthRequest, identity: Identity, email: string, allowsConfirm: bool)
    ensures Provision(s, req, identity, email, allowsConfirm).0.links == s.links
  {
  }

  lemma ConfirmKeepsLink(s: Fed, token: Id, passwordOk: bool, known: bool, identity: Identity)
    requires identity in s.links
    ensures var s' := Confirm(s, token, passwordOk, known).0;
            identity in s'.links && s'.links[identity] == s.links[identity]
  {
  }

  lemma CompleteKeepsLink(s: Fed, token: Id, known: bool, created: bool, identity: Identity)
    requires identity in s.links
    ensures var s' := Complete(s, token, known, created).0;
            identity in s'.links && s'.links[identity] == s.links[identity]
  {
    if token in s.pendingSignups {
      var p := s.pendingSignups[token];
      var s1 := s.(pendingSignups := s.pendingSignups - {token});
      if s.now > p.expiresAt || !known {
      } else if !Invited(s, p.invitation) && !s.registrationOn {
      } else if !created || p.email in s.emails {
      } else {
        SignUpKeepsLink(s1, p, identity);
        assert Complete(s, token, known, created).0 == SignUp(s1, p);
      }
    }
  }

  lemma SignUpKeepsLink(s: Fed, p: PendingSignup, identity: Identity)
    requires identity in s.links
    ensures identity in SignUp(s, p).links && SignUp(s, p).links[identity] == s.links[identity]
  {
    var roles := if Invited(s, p.invitation) then s.invitations[p.invitation.value].roles else {};
    NewLinkKeeps(AddPerson(s, Person(p.email, true, roles)), p.identity, s.next, identity);
    if Invited(s, p.invitation) {
      LinkNewFrame(AddPerson(s, Person(p.email, true, roles)), p.identity, s.next);
    }
  }

  lemma NewLinkKeeps(s: Fed, added: Identity, user: Id, identity: Identity)
    requires identity in s.links
    ensures identity in LinkNew(s, added, user).links && LinkNew(s, added, user).links[identity] == s.links[identity]
  {
  }

  // ---------------------------------------------------------------------
  // When each door opens
  // ---------------------------------------------------------------------

  // A staged link is made exactly with the password of its account, in time,
  // while the identity is still free.
  lemma ConfirmIff(states: seq<Fed>, ops: seq<Op>, n: nat, u: Id)
    requires Execution(states, ops) && n < |ops| && ops[n].DoConfirm?
    ensures var s, op := states[n], ops[n];
            Do(s, op).1 == Linked(u) <==>
            && op.token in s.pendingLinks && s.now <= s.pendingLinks[op.token].expiresAt
            && op.passwordOk && op.providerKnown
            && s.pendingLinks[op.token].user == u && s.pendingLinks[op.token].identity !in s.links
    ensures Do(states[n], ops[n]).1 == Linked(u) ==>
            var identity := states[n].pendingLinks[ops[n].token].identity;
            identity in states[n + 1].links && states[n + 1].links[identity] == u
  {
    LinksHaveOwners(states, ops, n);
    assert states[n + 1] == Step(states[n], ops[n]);
  }

  // A staged signup makes a user exactly in time, with the gate open or a valid
  // invitation, and its address still free.
  lemma CompleteIff(s: Fed, token: Id, known: bool, created: bool)
    ensures Complete(s, token, known, created).1.SignedUp? <==>
            && token in s.pendingSignups && s.now <= s.pendingSignups[token].expiresAt && known && created
            && (s.registrationOn || Invited(s, s.pendingSignups[token].invitation))
            && s.pendingSignups[token].email !in s.emails
    ensures var p := s.pendingSignups;
            Complete(s, token, known, created).1.SignedUp? && p[token].identity !in s.links ==>
              var t := Complete(s, token, known, created).0;
              p[token].identity in t.links && t.links[p[token].identity] == s.next
  {
    if token in s.pendingSignups && s.pendingSignups[token].identity !in s.links {
      SignUpLinks(s.(pendingSignups := s.pendingSignups - {token}), s.pendingSignups[token]);
    }
  }

  lemma SignUpLinks(s: Fed, p: PendingSignup)
    requires p.identity !in s.links
    ensures p.identity in SignUp(s, p).links && SignUp(s, p).links[p.identity] == s.next
  {
    var roles := if Invited(s, p.invitation) then s.invitations[p.invitation.value].roles else {};
    var a := AddPerson(s, Person(p.email, true, roles));
    assert LinkNew(a, p.identity, s.next) == WithLink(a, p.identity, s.next);
    if Invited(s, p.invitation) {
      LinkNewFrame(a, p.identity, s.next);
    }
  }

  // An invitation is taken up exactly while it is valid and its address free.
  lemma RegisterIff(s: Fed, invitation: Id, created: bool)
    ensures Register(s, invitation, created).1.Registered? <==>
            && invitation in s.invitations && !s.invitations[invitation].used
            && s.now < s.invitations[invitation].expiresAt && created && s.invitations[invitation].email !in s.emails
  {
  }

  // What becomes of an identity nobody is linked to: a link is staged for the
  // account that has the address, if it has a password and the provider allows
  // it; a signup is staged when nobody has it and the gate is open.
  lemma UnlinkedIff(s: Fed, op: Op, identity: Identity)
    requires Owned(s) && Vouched(s, op, identity) && s.requests[op.state].linkUser.None? && identity !in s.links
    ensures var out, email := Do(s, op).1, op.claims.email;
            && (out.LinkStaged? <==> email != "" && email in s.emails && s.users[s.emails[email]].hasPassword &&
                                     op.allowsConfirm)
            && (out.SignupStaged? <==> email != "" && email !in s.emails &&
                                       (s.registrationOn || Invited(s, s.requests[op.state].invitation)))
            && (out.LinkStaged? || out.SignupStaged? || out == Refused)
  {
    CallbackAnswers(s, op, identity);
    assert s.links - {identity} == s.links;
  }
}
