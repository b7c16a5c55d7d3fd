// The federation and invitation services as the code runs them: rows are
// deleted when they are read, checked afterwards, and written one by one.
module FederationService {
  import opened Basics
  import opened Federation

  class Service {
    var now: Time
    var next: Id
    var users: map<Id, Person>
    var emails: map<string, Id>
    var links: map<Identity, Id>
    var requests: map<Id, AuthRequest>
    var pendingLinks: map<Id, PendingLink>
    var pendingSignups: map<Id, PendingSignup>
    var invitations: map<Id, Invitation>
    var registrationOn: bool
    ghost var steps: nat
    ghost var requestedAt: map<Id, nat>
    ghost var stagedAt: map<Id, nat>
    ghost var linkedAt: map<Identity, nat>

    ghost function State(): Fed
      reads this
    {
      Fed(now, next, users, emails, links, requests, pendingLinks, pendingSignups, invitations, registrationOn,
          steps, requestedAt, stagedAt, linkedAt)
    }

    constructor ()
      ensures State() == Initial
    {
      now, next, users, emails, links := 0, 0, map[], map[], map[];
      requests, pendingLinks, pendingSignups, invitations, registrationOn := map[], map[], map[], map[], true;
      steps, requestedAt, stagedAt, linkedAt := 0, map[], map[], map[];
    }

    // -------------------------------------------------------------------
    // States and staged tokens: gone once read, expired or not
    // -------------------------------------------------------------------

    method ConsumeAuthRequest(state: Id) returns (row: Option<AuthRequest>)
      modifies this`requests
      ensures requests == old(requests) - {state}
      ensures row == if state in old(requests) && now <= old(requests)[state].expiresAt
                     then Some(old(requests)[state]) else None
    {
      if state !in requests {
        return None;
      }
      var req := requests[state];
      requests := requests - {state};
      if now > req.expiresAt {
        return None;
      }
      return Some(req);
    }

    method ConsumePendingLink(token: Id) returns (row: Option<PendingLink>)
      modifies this`pendingLinks
      ensures pendingLinks == old(pendingLinks) - {token}
      ensures row == if token in old(pendingLinks) && now <= old(pendingLinks)[token].expiresAt
                     then Some(old(pendingLinks)[token]) else None
    {
      if token !in pendingLinks {
        return None;
      }
      var p := pendingLinks[token];
      pendingLinks := pendingLinks - {token};
      if now > p.expiresAt {
        return None;
      }
      return Some(p);
    }

    method ConsumePendingSignup(token: Id) returns (row: Option<PendingSignup>)
      modifies this`pendingSignups
      ensures pendingSignups == old(pendingSignups) - {token}
      ensures row == if token in old(pendingSignups) && now <= old(pendingSignups)[token].expiresAt
                     then Some(old(pendingSignups)[token]) else None
    {
      if token !in pendingSignups {
        return None;
      }
      var p := pendingSignups[token];
      pendingSignups := pendingSignups - {token};
      if now > p.expiresAt {
        return None;
      }
      return Some(p);
    }

    method InitSocialLogin(provider: Id, linkUser: Option<Id>, invitation: Option<Id>) returns (out: Outcome)
      modifies this`next, this`requests, this`requestedAt
      ensures (State(), out) == Begin(old(State()), provider, linkUser, invitation)
    {
      if linkUser.Some? && linkUser.value !in users {
        return Refused;
      }
      var state := next;
      next := next + 1;
      requests := requests[state := AuthRequest(provider, linkUser, invitation, now + 10 * MINUTE)];
      requestedAt := requestedAt[state := steps];
      return Started(state);
    }

    // A link flow carries no invitation.
    method StartLink(user: Id, provider: Id) returns (out: Outcome)
      modifies this`next, this`requests, this`requestedAt
      ensures (State(), out) == Do(old(State()), BeginLink(user, provider))
    {
      out := InitSocialLogin(provider, Some(user), None);
    }

    // -------------------------------------------------------------------
    // Invitations
    // -------------------------------------------------------------------

    method ValidateToken(token: Option<Id>) returns (valid: bool)
      ensures valid <==> Invited(State(), token)
    {
      if token.None? || token.value !in invitations {
        return false;
      }
      var inv := invitations[token.value];
      return !inv.used && inv.expiresAt > now;
    }

    method ConsumeToken(invitation: Id)
      requires invitation in invitations
      modifies this`invitations
      ensures State() == MarkUsed(old(State()), invitation)
    {
      invitations := invitations[invitation := invitations[invitation].(used := true)];
    }

    method CreateUser(p: Person) returns (id: Id)
      modifies this`next, this`users, this`emails
      ensures id == old(next) && State() == AddPerson(old(State()), p)
    {
      id := next;
      next := next + 1;
      users := users[id := p];
      emails := emails[p.email := id];
    }

    method RegisterWithInvite(token: Id, created: bool) returns (out: Outcome)
      modifies this`next, this`users, this`emails, this`invitations
      ensures (State(), out) == Register(old(State()), token, created)
    {
      var valid := ValidateToken(Some(token));
      if !valid {
        return Refused;
      }
      var inv := invitations[token];
      if !created || inv.email in emails {
        return Refused;
      }
      var user := CreateUser(Person(inv.email, true, inv.roles));
      ConsumeToken(token);
      return Registered(user);
    }

    // -------------------------------------------------------------------
    // Provisioning
    // -------------------------------------------------------------------

    // Fails on the unique index, or without the user it refers to.
    method CreateLink(identity: Identity, user: Id) returns (ok: bool)
      modifies this`links, this`linkedAt
      ensures ok <==> identity !in old(links) && user in users
      ensures State() == LinkNew(old(State()), identity, user)
    {
      if identity in links || user !in users {
        return false;
      }
      links := links[identity := user];
      linkedAt := linkedAt[identity := steps];
      return true;
    }

    method CompleteAuthenticatedLink(user: Id, identity: Identity) returns (out: Outcome)
      modifies this`links, this`linkedAt
      ensures (State(), out) == CompleteLink(old(State()), user, identity)
    {
      if user !in users {
        return Refused;
      }
      if identity in links {
        if links[identity] != user {
          return Refused;
        }
        return Linked(user);
      }
      var ok := CreateLink(identity, user);
      return Linked(user);
    }

    method StagePendingLink(user: Id, identity: Identity) returns (token: Id)
      modifies this`next, this`pendingLinks, this`stagedAt
      ensures token == old(next) && State() == StageLink(old(State()), user, identity)
    {
      token := next;
      next := next + 1;
      pendingLinks := pendingLinks[token := PendingLink(user, identity, now + 5 * MINUTE)];
      stagedAt := stagedAt[token := steps];
    }

    method StagePendingSignup(identity: Identity, email: string, invitation: Option<Id>) returns (token: Id)
      modifies this`next, this`pendingSignups, this`stagedAt
      ensures token == old(next) && State() == StageSignup(old(State()), identity, email, invitation)
    {
      token := next;
      next := next + 1;
      pendingSignups := pendingSignups[token := PendingSignup(identity, email, invitation, now + 15 * MINUTE)];
      stagedAt := stagedAt[token := steps];
    }

    method CheckSignupAllowed(invitation: Option<Id>) returns (allowed: bool)
      ensures allowed <==> Invited(State(), invitation) || registrationOn
    {
      var invited := ValidateToken(invitation);
      if invited {
        return true;
      }
      return registrationOn;
    }

    method ProvisionUser(req: AuthRequest, identity: Identity, email: string, allowsConfirm: bool)
      returns (out: Outcome)
      modifies this`next, this`pendingLinks, this`pendingSignups, this`stagedAt
      ensures (State(), out) == Provision(old(State()), req, identity, email, allowsConfirm)
    {
      if email == "" {
        return Refused;
      }
      if email in emails {
        var user := emails[email];
        if !allowsConfirm || user !in users || !users[user].hasPassword {
          return Refused;
        }
        var token := StagePendingLink(user, identity);
        return LinkStaged(token);
      }
      var allowed := CheckSignupAllowed(req.invitation);
      if !allowed {
        return Refused;
      }
      var token := StagePendingSignup(identity, email, req.invitation);
      return SignupStaged(token);
    }

    method FindOrProvisionUser(req: AuthRequest, claims: Claims, allowsConfirm: bool) returns (out: Outcome)
      modifies this`next, this`links, this`linkedAt, this`pendingLinks, this`pendingSignups, this`stagedAt
      ensures (State(), out) == FindOrProvision(old(State()), req, claims, allowsConfirm)
    {
      if claims.externalId.None? {
        return Refused;
      }
      var identity := (req.provider, claims.externalId.value);
      if req.linkUser.Some? {
        out := CompleteAuthenticatedLink(req.linkUser.value, identity);
        return;
      }
      if identity in links && links[identity] in users {
        return LoggedIn(links[identity]);
      }
      // A link to a user who is gone is dropped.
      links := links - {identity};
      out := ProvisionUser(req, identity, claims.email, allowsConfirm);
    }

    method ProcessCallback(state: Id, provider: Id, exchanged: bool, claims: Claims, allowsConfirm: bool)
      returns (out: Outcome)
      modifies this`next, this`requests, this`links, this`linkedAt
      modifies this`pendingLinks, this`pendingSignups, this`stagedAt
      ensures (State(), out) == Callback(old(State()), state, provider, exchanged, claims, allowsConfirm)
    {
      assert state !in requests ==> requests - {state} == requests;
      var req := ConsumeAuthRequest(state);
      if req.None? {
        return Refused;
      }
      if provider != req.value.provider {
        return Refused;
      }
      if !exchanged {
        return Refused;
      }
      out := FindOrProvisionUser(req.value, claims, allowsConfirm);
    }

    method ConfirmLink(token: Id, passwordOk: bool, providerKnown: bool) returns (out: Outcome)
      modifies this`pendingLinks, this`links, this`linkedAt
      ensures (State(), out) == Confirm(old(State()), token, passwordOk, providerKnown)
    {
      assert token !in pendingLinks ==> pendingLinks - {token} == pendingLinks;
      var pending := ConsumePendingLink(token);
      if pending.None? {
        return Refused;
      }
      var p := pending.value;
      if !passwordOk {
        return Refused;
      }
      if !providerKnown {
        return Refused;
      }
      var ok := CreateLink(p.identity, p.user);
      if !ok {
        return Refused;
      }
      if p.user !in users {
        return Refused;
      }
      return Linked(p.user);
    }

    method CompleteSignup(token: Id, providerKnown: bool, created: bool) returns (out: Outcome)
      modifies this`next, this`users, this`emails, this`pendingSignups, this`links, this`linkedAt, this`invitations
      ensures (State(), out) == Complete(old(State()), token, providerKnown, created)
    {
      assert token !in pendingSignups ==> pendingSignups - {token} == pendingSignups;
      var pending := ConsumePendingSignup(token);
      if pending.None? {
        return Refused;
      }
      var p := pending.value;
      if !providerKnown {
        return Refused;
      }
      var invited := ValidateToken(p.invitation);
      if !invited {
        if !registrationOn {
          return Refused;
        }
      }
      if !created || p.email in emails {
        return Refused;
      }
      var user := FinishSignup(p, invited);
      return SignedUp(user);
    }

    method FinishSignup(p: PendingSignup, invited: bool) returns (user: Id)
      requires invited <==> Invited(State(), p.invitation)
      modifies this`next, this`users, this`emails, this`links, this`linkedAt, this`invitations
      ensures user == old(next) && State() == SignUp(old(State()), p)
    {
      var roles: set<Id> := {};
      if invited {
        roles := invitations[p.invitation.value].roles;
      }
      user := CreateUser(Person(p.email, true, roles));
      var ok := CreateLink(p.identity, user);
      if invited {
        ConsumeToken(p.invitation.value);
      }
    }
  }
}
