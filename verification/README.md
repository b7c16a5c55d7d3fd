# A verified model of the authorization server

This project models the stateful core of an OAuth 2.0 / OpenID Connect
authorization server in Dafny and proves what every run of it keeps. Tables are
maps, a service call is one atomic step, the clock never goes back, and opaque
tokens, hashes and row keys are fresh integers. Every core exists twice: as
total functions from one snapshot to the next, about which the theorems speak,
and as a class whose methods read and write the tables in the order of the
code, proved to end in exactly the snapshot and with exactly the answer the
functions give.

| file | what it covers |
|---|---|
| `Basics.dfy`, `Scopes.dfy` | shared types; scope parsing, printing, filtering, union |
| `Tokens.dfy`, `TokenService.dfy` | token, grant, session and denylist tables, and the endpoints over them |
| `Lineage.dfy` | the store invariant; refresh lineages and their scopes |
| `Endpoints.dfy` | when the endpoints issue tokens, for whom and with what; introspection |
| `Revocation.dfy` | when a revocation is permanent, and what it leaves alone |
| `Sweep.dfy` | when the garbage collector is invisible |
| `Devices.dfy` | the device flow over runs |
| `Authorize.dfy`, `AuthorizeService.dfy`, `AuthorizeRuns.dfy`, `SignIns.dfy` | the authorization-request machine on top of the token store; how users were signed in |
| `Policy.dfy` | the policy cache against its table |
| `Keys.dfy` | signing-key rotation |
| `Deployment.dfy` | the token endpoints and the signing keys of one deployment together |
| `Outbox.dfy` | the e-mail outbox and its workers |
| `RateLimit.dfy` | token buckets |
| `Importer.dfy` | user import |
| `Mfa.dfy` | TOTP and backup codes |
| `Federation.dfy`, `FederationService.dfy` | external sign-in, links, invitations |
| `Templates.dfy` | e-mail template caches |

## Where the code does not do what is expected of it

For each of these there is a theorem that gives the exact condition under which
the expected property holds, and one with a run, from the initial state, in
which it does not.

- **The sweep can end a live grant.** Token tables reference sessions and users
  with `ON DELETE CASCADE`, and nothing ties the lifetime of a refresh token to
  that of its session. `SweepVisibility.SweepCanEndLiveChain` gives a run in
  which a refresh token is still good before a sweep and gone after it;
  `SweepVisibility.SweepInvisibleIff` says exactly when a sweep cannot be
  noticed: every row that is still acceptable has owners that stay.
- **A revoked JWT can come back.** `/revoke` reads the token with the keys in
  memory. When the key is not loaded at that moment, no denylist entry is
  written, and a later key load makes the token active again.
  `Deployment.RevokedTokenReturns` is a run in which the process starts anew, the
  query for its keys fails (which is only logged), the owner revokes, and the
  next rotation loads the keys; `Revocation.RevocationIsPermanentIff` gives the
  exact condition. Where rotations finish and every start loads the keys, it
  always holds: `Deployment.RevocationIsUnconditional`.
- **A failed key rotation strands tokens.** When storing the new key fails and
  the process stays up, it goes on signing with a key whose row was already
  given an expiry a day away. `SigningKeys.CreateFailureStrandsTokens` is such a
  run, `SigningKeys.TokenAlwaysVerifiesIff` the exact condition.
- **A policy that does not compile leaves the cache stale.** The error of the
  load is only logged. `PolicyEngine.UncompiledGoesStale` is such a history,
  `PolicyEngine.EditKeepsSyncIff` the exact condition.
- **Equal priorities leave the answer open.** The sort is not stable.
  `PolicyEngine.TiesMayDiffer` is a history after which the cache and a fresh
  load of the same table deny for different reasons;
  `PolicyEngine.AnswersDeterminedIff` says for every table that all caches in
  sync with it answer alike exactly when priorities are distinct.
- **One TOTP code can pass three times.** The step that is recorded is that of
  the wall clock, not the one the code belongs to, although the comment in the
  code cites section 5.2 of RFC 6238: `SecondFactor.OneCodeThreeSteps`;
  `SecondFactor.CodeIsSpentIff` says exactly when an accepted code is spent. The
  code that confirms an enrolment is not recorded at all:
  `SecondFactor.VerifyingCodeTwice`, `SecondFactor.VerifyingCodeValidatesAgain`.
- **A confirmed address overtakes a second factor.** Confirming the e-mail
  address completes a request for the user bound to it, also when that user has
  meanwhile signed in with a second factor outstanding.
  `SignIns.ConfirmationOvertakesFactor` is such a run;
  `SignIns.FactorsAreNotSkipped` says that this, another sign-in with no factor
  due, and a valid factor are the only ways to a code.
- **The stale-bucket sweep forgives when ten minutes do not refill a bucket.**
  `RateLimiting.SweepInvisibleIff` is the exact condition for the sweep not to
  show and `RateLimiting.WindowBoundIff` for every window to stay within its
  bound: it is the same, and both configured limiters meet it. The runs that
  exceed it are built in `RateLimiting.SweepShows` and
  `RateLimiting.SweepsExceed`.
- **A dry run overcounts duplicates.** `UserImport.DryRunOvercounts` is the
  smallest example, `UserImport.DryRunIsFaithfulIff` the exact condition on the
  entries.

Two statements carry a hypothesis that every caller meets:
`EmailTemplates.CachesNeverShow` needs template names without NUL
(`EmailTemplates.NulRendersAnother` shows what else would happen; the handler
only lets the seven built-in names through), and
`EmailOutbox.PendingMeansAttemptsRemain` a non-negative number of attempts
(`EmailOutbox.StepKeepsRetryableIff`; no caller sets one).

## Model

| member | source | states |
|---|---|---|
| ScopeLists.SplitBySpace | oauth/service.go:2057-2072 | the index-walking split hands out the words of the string, in order |
| ScopeLists.ParseSpaceDelimited | oauth/service.go:2044-2055 | parsing yields the same words, none empty, none with a space |
| ScopeLists.JoinScopes | oauth/service.go:2074-2083 | printing separates the scopes by one space each |
| ScopeLists.WordsAreMaximalRuns | oauth/service.go:2057-2072 | the positions handed out are exactly the maximal space-free runs, in increasing order |
| ScopeLists.ParseIsWords | oauth/service.go:2044-2072 | the parsed list is the text at those positions, one for one |
| ScopeLists.ParseOfJoin | oauth/service.go:2044-2083 | parsing what was printed gives back any list of non-empty space-free scopes (section 3.3 of RFC 6749) |
| ScopeLists.NormaliseIsIdempotent | oauth/service.go:2044-2083 | printing what was parsed, again, changes nothing |
| ScopeLists.FilterScopes | oauth/service.go:2085-2102 | keeps, in order and with repeats, exactly the requested scopes that are allowed |
| ScopeLists.SplitResourceScopes | oauth/service.go:2109-2125 | partitions a list by the permissions of a resource, keeping the order and losing nothing |
| ScopeLists.UnionScopes | oauth/service.go:2127-2143 | the union of two lists in first-seen order, each scope once |
| ScopeLists.HasScope | model/client.go:58-65 | finds a scope exactly when it is in the list |
| ScopeLists.ValidateScopes | model/client.go:97-109 | the whole list when nothing is requested, else the requested part of it |
| ScopeLists.CoversScopes | model/consent.go:29-40 | a consent covers a request exactly when it holds every scope of it |
| TokenService.Service.LookupActiveAccessToken | oauth/service.go:209-225 | an access token is found exactly when its row is neither revoked nor expired |
| TokenService.Service.ExchangeAuthorizationCode | oauth/service.go:1463-1539 | the exchange ends in the store and answer of the specification; a failed one leaves the store as it was |
| TokenService.Service.ExchangeClientCredentials | oauth/service.go:1543-1629 | the same for client credentials: the token carries the client's permissions on the audience, or its scopes |
| TokenService.Service.ExchangeRefreshToken | oauth/service.go:1640-1735 | rotation revokes what hangs on the old token; a failed exchange, reuse included, leaves the store as it was |
| TokenService.Service.ReadModifyScopes | oauth/policy_modify.go:50-66 | a policy only takes scopes away, keeping the order of the rest |
| TokenService.Service.NarrowToUser | oauth/service.go:1796-1812 | roles narrow the permissions of the targeted resource only |
| TokenService.Service.ResolveGrant | oauth/service.go:1755-1825 | scopes, lifetimes and token format as the policies and the resource decide them, the resource's lifetime last |
| TokenService.Service.IssueTokens | oauth/service.go:1752-1912 | a token pair with a fresh family for the grant, or an error |
| TokenService.Service.CompleteGrant | oauth/service.go:1295-1398 | a session, a code bound to it and, for a hybrid response, an access token |
| TokenService.Service.Rollback | oauth/repository.go:239-243 | what a failed transaction wrote is gone |
| TokenService.Service.InitDeviceAuthorization | oauth/device.go:32-76 | a pending device code with the client's scopes and a five-second interval |
| TokenService.Service.DeviceApprove | oauth/device.go:118-174 | only a pending, unexpired code is denied, or approved with a session of the user |
| TokenService.Service.ExchangeDeviceCode | oauth/device.go:177-234 | a poll that gets past the throttle is recorded, and consumes an authorized code when tokens are issued |
| TokenService.Service.IntrospectToken | oauth/introspect.go:30-228 | JWT, opaque and refresh branches in order, the JWT branch deciding by the denylist and not by the row |
| TokenService.Service.RevokeToken | oauth/revoke.go:16-76 | denylist, then the refresh family with the session's access tokens, else the one access token; others' tokens are untouched |
| TokenService.Service.RevokeRefreshToken | oauth/revoke.go:78-91 | the family and every access token of the session are revoked |
| TokenService.Service.RunCleanup | database/cleanup.go:58-113 | deleting table by table, each delete with its cascades, leaves what one simultaneous sweep would |
| TokenService.StatementsMakeSweep | database/cleanup.go:89-113 | the same on snapshots: the sequence of deletes and cascades equals keeping exactly the rows that are not doomed and whose owners stay |
| Lineage.Reachable | oauth/service.go:1463-1912 | every reachable store satisfies it: exchanged grants are spent, rows carry what was granted, unrevoked refresh-linked access tokens hang on un-rotated tokens |
| Lineage.LineageIsChain | oauth/service.go:1712-1725 | of two refresh tokens with one root, one was exchanged for the other |
| Lineage.OneLiveTokenPerLineage | oauth/service.go:1712-1725 | a lineage has at most one un-rotated refresh token |
| Lineage.GrantRootsOneLineage | oauth/service.go:1505-1508 | a code, device code or refresh token is exchanged for at most one refresh token and cannot be exchanged again |
| Lineage.LineageIsConstant | oauth/service.go:1718-1725 | client and audience never change down a lineage, nor user and session once bound, and no scope is gained |
| Lineage.RefreshDescendsFromGrant | oauth/service.go:1674-1725 | every refresh token serves the client, audience, user and session of its root, within its scopes |
| Lineage.AccessDescendsFromGrant | oauth/service.go:1887-1901 | the same for every access token of a user |
| Lineage.RolesDropOnlyPermissions | oauth/service.go:1796-1812 | role narrowing drops a scope exactly when it is a permission of the resource the user lacks (section 2 of RFC 8707) |
| Lineage.RefreshOnlyNarrows | oauth/service.go:1674-1708 | a refresh yields only scopes of the presented token, and only requested ones when any are requested |
| TokenEndpoints.IssueIsExact | oauth/service.go:1752-1912 | a live pair for that client, user, session and audience, exactly when no policy denies it and it can be signed; a scope is in it exactly when policies and roles allow it; the resource's lifetime comes before the policies' and the client's |
| TokenEndpoints.CodeExchangeIff | oauth/service.go:1463-1539 | tokens are issued exactly for an unused, unexpired code presented by its client with its redirect URI and proof key, and carry what it carried less what policies and roles take; otherwise nothing changes (section 4.1.3 of RFC 6749) |
| TokenEndpoints.RefreshExchangeIff | oauth/service.go:1640-1735 | a refresh succeeds exactly for a good token of the client with something left of its scopes, and keeps precisely the scopes asked for, or all when none are, that policies and roles allow (section 6 of RFC 6749) |
| TokenEndpoints.RefreshSpendsOld | oauth/service.go:1712-1725 | the old token and the access tokens that hung on it are spent, no other is touched |
| TokenEndpoints.CredentialsWithinClient | oauth/service.go:1543-1629 | the row and the answer agree: on an audience a scope is granted exactly when it was given to the client and asked for, else when it is registered and, if any is asked for, asked for; for that client alone, without user or refresh token |
| TokenEndpoints.MachineTokensWithinClient | oauth/service.go:1561-1568 | over every run, an access token without a user was issued for its client's own credentials and holds only what that client was given at that step |
| TokenEndpoints.EveryRunMatches | oauth/service.go:1887-1901 | in every reachable state the claims of a signed token are those of its row |
| TokenEndpoints.IntrospectionIff | oauth/introspect.go:30-228 | in every reachable state a token is reported active exactly when it is live and looked for as what it is, with its own type, client, user, scopes, audience and expiry (section 2.2 of RFC 7662) |
| TokenEndpoints.SessionsAreTheirUsers | oauth/service.go:1295-1329 | in every reachable state a code, token or approved device code that names a session names one of its own user |
| Revocation.RevocationIsPermanentIff | oauth/revoke.go:16-76 | an owner's revocation of an access token is never reported active again, exactly when the token is opaque, its key is loaded, it has expired or its jti is already denied |
| Revocation.RevocationIsPermanent | oauth/introspect.go:30-110 | in every later state of every run the revoked token is inactive to introspection and lookup, across sweeps and key loads (section 2 of RFC 7009) |
| Revocation.UnseenJwtReturns | oauth/revoke.go:24-51 | a JWT whose key is not loaded when it is revoked is active again once the key is |
| Deployment.RevocationIsUnconditional | oidc/service.go:134-187 | in every run in which rotations finish or take the process down, starts load the keys and access tokens live for at most a day, an owner's revocation is permanent, without a condition |
| Deployment.RevokedTokenReturns | oidc/service.go:178-187 | a run from the start in which a revoked token is active again, after a start that could not load the keys |
| Revocation.RunKeepsSound | oauth/repository.go:210-230 | denylist entries last exactly as long as the JWT they name |
| Revocation.RefreshRevocationIsPermanent | oauth/revoke.go:78-91 | after its owner revokes a refresh token, in every later state of every run introspection reports it inactive and no exchange of it succeeds, for any client, request or policy answer, nor is any access token of its session active that existed then |
| Revocation.RevocationSparesOthers | oauth/revoke.go:16-76 | a client revokes nothing that is not its own, and nothing of its own but the presented token or the presented refresh token's family and session, as the hint allows |
| SweepVisibility.SweepTakesStale | database/cleanup.go:89-113 | a sweep takes exactly the rows past their expiry or a day past their revocation, and those whose user or session it takes; the tokens that stay are unchanged but for a link to a refresh token that went |
| SweepVisibility.SweepInvisible | database/cleanup.go:89-113 | when every live row keeps its owners, no later run is answered differently after a sweep, grants to users and revocations of refresh tokens that the sweep took excepted |
| SweepVisibility.SweepInvisibleIff | database/cleanup.go:89-113 | and only then |
| SweepVisibility.SweepCanEndLiveChain | migrations/005_create_refresh_tokens.sql:4-6 | a run in which the cascade from a session takes a live refresh token |
| SweepVisibility.RunsAgree | oauth/introspect.go:139-207 | two stores that differ in dead rows only give the same answers for ever, whatever is granted, exchanged, revoked or swept |
| DeviceFlow.StatusOnlyMovesOn | oauth/device.go:118-234 | over any run a status only goes from pending to denied or through authorized to consumed, on unchanged terms |
| DeviceFlow.DeviceYieldsOnce | oauth/device.go:205-231 | a device code yields tokens at most once in any run |
| DeviceFlow.PollsAreSpaced | oauth/device.go:193-202 | two polls that get past the throttle are at least the announced interval apart (section 3.5 of RFC 8628) |
| DeviceFlow.DenialIsFinal | oauth/device.go:130-133 | once a user refuses, no later run yields tokens for the code, and every poll of its client that gets past the throttle is answered access_denied (section 3.5 of RFC 8628) |
| DeviceFlow.YieldsAreApproved | oauth/device.go:118-231 | tokens for a device code go back to a step of the run in which a user approved it, unobjected by policies, and are for that user and the session opened then |
| DeviceFlow.PollYieldsIff | oauth/device.go:177-234 | a poll yields tokens exactly when the code is its client's, unexpired, authorized and not polled too soon, and no policy denies |
| DeviceFlow.DecisionIff | oauth/device.go:118-174 | a decision counts exactly while the code is pending and unexpired; an approval opens a session of that user |
| DeviceFlow.DeviceStartIff | oauth/device.go:32-76 | exactly a client with the grant gets a pending code, for the scopes it asked for among its own |
| AuthorizeService.Authorizer.InitAuthorize | oauth/service.go:365-586 | the checks in order, then prompt=none, silent sign-on with its fallback, or an interactive request |
| AuthorizeService.Authorizer.ResolveScopes | oauth/service.go:462-496 | the client's scopes, united with its permissions on the audience, or why there are none |
| AuthorizeService.Authorizer.HandlePromptNone | oauth/service.go:590-651 | completes at once for a hinted user with a covering consent or a first-party client |
| AuthorizeService.Authorizer.TrySilentSSO | oauth/service.go:662-745 | signs in off a session young enough, completes unless consent is due |
| AuthorizeService.Authorizer.AuthorizeLogin | oauth/service.go:781-887 | a password sign-in with its policies, second factor and consent rule |
| AuthorizeService.Authorizer.ResumeAuthorizeAfterExternalLogin | oauth/service.go:1137-1204 | the same for a sign-in through a provider |
| AuthorizeService.Authorizer.AuthorizeRegister | oauth/service.go:897-949 | binds the new user and extends the request by a day |
| AuthorizeService.Authorizer.AuthorizeMFA | oauth/service.go:958-1023 | finishes the sign-in and applies the consent rule |
| AuthorizeService.Authorizer.AgreeOnScopes | oauth/service.go:1066-1099 | the granted part of the requested scopes as the consent policy narrows it |
| AuthorizeService.Authorizer.AuthorizeConsent | oauth/service.go:1051-1128 | stores the consent, narrows the request to it and completes |
| AuthorizeService.Authorizer.CompleteAfterEmailVerification | oauth/service.go:1253-1281 | completes for the user bound at registration |
| AuthorizeService.Authorizer.CompleteAuthorizeFirstParty | oauth/service.go:1284-1293 | completes a request that is ready |
| AuthorizeService.Authorizer.CompleteAuthorize | oauth/service.go:1295-1398 | deletes the request and stores a code for it; without a session the request stays |
| AuthorizeService.Authorizer.FindAuthRequest | oauth/repository.go:43-50 | expired requests are not found |
| AuthorizationRuns.RequestsOnlyAdvance | oauth/service.go:588-1204 | consent implies a sign-in, which implies user and instant; both flags only rise, the user is frozen once signed in, scopes never widen |
| AuthorizationRuns.CodesComeFromReadyRequests | oauth/service.go:1253-1447 | every code comes from a signed-in, consented, unexpired request, and each request yields at most one |
| AuthorizationRuns.CodesCarryTheirRequest | oauth/service.go:1319-1329 | a code carries the client, user, scopes, audience, redirect URI and challenge of its request |
| AuthorizationRuns.CodesGoWhereRegistered | oauth/service.go:366-451 | every code goes to a redirect URI that its client, allowed the code grant, had registered when the request was opened; for a public client or one that must use PKCE it is bound to the challenge then given |
| AuthorizationRuns.ProofKeysAreEnforced | oauth/service.go:1489-1503 | tokens for a code are issued only to the client and redirect URI of the opened request, and for such clients only against a verifier of that challenge (section 4.6 of RFC 7636) |
| AuthorizationRuns.CodesAreJustified | oauth/service.go:600-1191 | the client is first-party, or a consent of the user signed in at the deciding step covers the code's scopes, or that user, signed in, granted exactly those scopes, which are stored as the consent, or confirmed the address of the request they are bound to; after prompt=consent only the last two |
| SignIns.RequestsAreSignedIn | oauth/service.go:588-1023 | the user and the instant of every signed-in request go back to one step: a session young enough or a hint, a password or a provider with no second factor due, a valid second factor, or a confirmed address |
| SignIns.CodesAreSignedIn | oauth/service.go:1253-1398 | the same for every code, the step being the issuing one or an earlier one |
| SignIns.FactorsAreNotSkipped | oauth/service.go:820-866 | after a sign-in accepted with a second factor due, a code for the request comes only after a later valid factor, a later sign-in with none due, or a confirmed address |
| SignIns.ConfirmationOvertakesFactor | oauth/service.go:1253-1281 | a run in which the last of these happens |
| SignIns.SignInsAnswerTruly | oauth/service.go:868-886 | the request is signed in exactly when no factor is due, and the answer says so, and says that consent is due exactly when it is |
| SignIns.RequestsAreShortLived | oauth/service.go:588-949 | a request lives ten minutes from its opening, or a day from a registration on it |
| SignIns.OpenedScopesAre | oauth/service.go:462-496 | a request carries exactly the registered scopes asked for, or all when none are, and the client's permissions on the audience asked for; with none of the latter it is refused |
| SignIns.GrantedScopesAre | oauth/service.go:1066-1099 | consent is to exactly the granted scopes that were asked for and the policy allows |
| SignIns.FlowYieldsTokens | oauth/service.go:365-1539 | from any reachable state, a request in order, the right password, a valid factor if due and consent if asked end in a code, and the code in tokens, unless a policy denies them |
| SignIns.SilentAnswers | oauth/service.go:590-651 | prompt=none shows no screen: it completes exactly for an existing hinted user with a covering consent or a first-party client |
| SignIns.SessionAnswers | oauth/service.go:662-745 | a session completes the request exactly when it is young enough and no consent is due |
| SignIns.RegisteringCompletes | oauth/service.go:897-1281 | whoever registers on a request and confirms the address within a day gets a code |
| SignIns.TokenOnlyWhenAsked | oauth/service.go:1340-1398 | a completion hands out an access token only for a response type that asks for one, with the request's client, user and scopes |
| SignIns.RevokedConsentIsAsked | oauth/service.go:600-618 | a consent that was taken back no longer completes a silent request |
| AuthorizationRuns.TokensFollowStore | oauth/service.go:1295-1398 | the token store of every state of the machine is reached by a run of the store alone, so that all theorems on those hold here |
| AuthorizationRuns.TokensStaySound | oauth/service.go:1295-1398 | the token store under the machine keeps the lineage invariant |
| AuthorizationRuns.RefreshScopesWithinClient | oauth/service.go:462-495 | every scope of a refresh token, however far down its chain, was the client's, by registration or permission on the audience, when its root was requested |
| AuthorizationRuns.AccessScopesWithinClient | oauth/service.go:462-495 | the same for every access token of a user |
| PolicyEngine.SortByPriority | policy/engine.go:305-309 | a permutation in non-increasing priority |
| PolicyEngine.Engine.LoadPolicies | policy/engine.go:48-68 | all or nothing: each type's policies, sorted, or the cache as it was |
| PolicyEngine.Engine.LoadPolicy | policy/engine.go:71-98 | replaces or adds one entry and sorts; nothing when it does not compile |
| PolicyEngine.Engine.RemovePolicy | policy/engine.go:101-112 | takes the entry out and leaves the rest in order |
| PolicyEngine.Engine.Evaluate | policy/engine.go:116-168 | the loop computes the specified evaluation of the type's list |
| PolicyEngine.Service.CreatePolicy | policy/service.go:70-108 | stores a row under a new name and loads it when active |
| PolicyEngine.Service.UpdatePolicy | policy/service.go:128-169 | changes what is given, then reloads or removes |
| PolicyEngine.Service.DeletePolicy | policy/service.go:171-184 | deletes the row and its cache entry |
| PolicyEngine.Service.LoadAll | policy/service.go:329-339 | a fresh load leaves the cache in sync; with nothing active the cache stays |
| PolicyEngine.EditKeepsSyncIff | policy/service.go:70-184 | an edit keeps the cache in sync exactly when what it stores compiles, is inactive, or is what the cache holds |
| PolicyEngine.CacheStaysSynced | policy/service.go:70-184 | after any such edits each type's list holds every active policy once, in non-increasing priority |
| PolicyEngine.CacheEqualsReload | policy/service.go:329-339 | with distinct priorities the cache and a fresh load hold the same list and answer alike |
| PolicyEngine.AnswersDeterminedIff | policy/engine.go:305-309 | all caches in sync with a table answer alike for a type, whatever the policies say, exactly when its active policies have distinct priorities |
| PolicyEngine.TiesMayDiffer | policy/engine.go:305-309 | a history after which the cache and a fresh load of its table give different answers |
| PolicyEngine.UncompiledGoesStale | policy/service.go:96-105 | a history after which the cache lacks an active policy |
| PolicyEngine.FirstStopDecides | policy/engine.go:129-147 | the first policy in priority order whose deny query denies or fails decides |
| PolicyEngine.LastSetterWins | policy/engine.go:149-168 | when none does, each key has the value of the lowest-priority policy that sets it |
| SigningKeys.Service.FindActive | oidc/repository.go:30-40 | the active row created last |
| SigningKeys.Service.RotateKey | oidc/service.go:134-176 | deactivate with a day of grace, store, swap, reload; and what is left when it stops half-way |
| SigningKeys.Service.EnsureSigningKey | oidc/service.go:99-122 | start-up loads the active key or makes the first one |
| SigningKeys.Service.LoadAllKeys | oidc/service.go:178-187 | memory holds exactly the active and unexpired keys; a failed query leaves it as it was |
| SigningKeys.Service.ValidateToken | oidc/service.go:536-561 | a token verifies exactly when its key is in memory and it has not expired |
| SigningKeys.AtMostOneActive | oidc/repository.go:51-60 | through rotations, failures, crashes and restarts at most one key is active |
| SigningKeys.RotationReplaces | oidc/service.go:134-176 | a finished rotation puts a new key in charge and keeps the old one for verification for a day |
| SigningKeys.TokenAlwaysVerifiesIff | oidc/service.go:134-187 | a token of at most a day verifies at every instant before it expires at which a process serves, exactly when the key is loaded and active or kept that long |
| SigningKeys.KeysOutliveTokens | oidc/service.go:134-187 | always so in runs whose rotations finish or take the process down |
| SigningKeys.CreateFailureStrandsTokens | oidc/service.go:148-163 | a run in which storing the new key fails and a token loses its key |
| EmailOutbox.ExpBackoff | email/outbox_repo.go:142-153 | the loop doubles to 2^n minutes, at most an hour |
| EmailOutbox.RetryWindowIs | email/outbox_repo.go:138-153 | the delays before giving up add up to 2^m - 2 minutes, half an hour for five attempts |
| EmailOutbox.Repository.Add | email/outbox_repo.go:70-81 | a pending row with the default attempts when none are given |
| EmailOutbox.Repository.SelectDue | email/outbox_repo.go:89-95 | the due rows nobody holds, earliest first, up to the limit |
| EmailOutbox.Repository.AttemptRow | email/outbox_repo.go:100-119 | one attempt: sent, failed, or scheduled again |
| EmailOutbox.Repository.ProcessBatch | email/outbox_repo.go:84-129 | the whole batch is stored, or nothing when one save fails |
| EmailOutbox.Repository.PendingCount | email/outbox_repo.go:131-137 | counts the pending rows |
| EmailOutbox.DeliveringMakesDrafts | email/outbox_repo.go:99-126 | a batch nobody interrupts goes through the steps of the concurrent machine |
| EmailOutbox.NoDoubleLease | email/outbox_repo.go:84-129 | with any number of workers no row is leased twice at once |
| EmailOutbox.FinishedIsAbsorbing | email/outbox_repo.go:103-116 | a sent or failed row never changes again until it is purged |
| EmailOutbox.StepKeepsRetryableIff | email/outbox_repo.go:75-116 | pending means attempts remain; enqueuing keeps it exactly for a non-negative number |
| EmailOutbox.PendingMeansAttemptsRemain | email/outbox_repo.go:75-116 | in every run without negative numbers, pending means attempts remain |
| EmailOutbox.RetryingEnds | email/outbox_repo.go:101-116 | the attempts left never grow and fall by at least the rows committed |
| EmailOutbox.AttemptsWait | email/outbox_repo.go:84-119 | over every run with any number of workers a row is tried only in a batch that began when it was due, and is not due again for the delay of its attempts |
| EmailOutbox.SentMeansDelivered | email/outbox_repo.go:84-129 | a sent row was accepted by the mail server once, plus once for each transaction lost after an acceptance |
| RateLimiting.TokenBucket.Allow | middleware/ratelimit.go:19-33 | refill to at most the burst, then take one token or refuse |
| RateLimiting.RateLimiter.Handle | middleware/ratelimit.go:76-104 | a request meets the client's own bucket, full when new, and no other changes |
| RateLimiting.RateLimiter.RemoveStale | middleware/ratelimit.go:64-74 | exactly the buckets idle for more than ten minutes go |
| RateLimiting.WindowBound | middleware/ratelimit.go:19-33 | from any reachable state a client gets at most max + rate * T admissions in any time T without a sweep |
| RateLimiting.WindowBoundIff | middleware/ratelimit.go:19-74 | that bound holds of every window of every run, sweeps included, exactly when ten minutes refill a bucket or the burst admits nothing |
| RateLimiting.RefusedIff | middleware/ratelimit.go:19-33 | a request is refused exactly when admitting it would take some window ending now over that bound |
| RateLimiting.SweepInvisibleIff | middleware/ratelimit.go:64-91 | the sweep never changes an answer, exactly under the same condition |
| RateLimiting.ConfiguredLimitersAreSafe | main.go:119 | both configured limiters meet it: their sweeps never show and every window is bounded |
| UserImport.Engine.ResolveRoles | importer/engine.go:250-269 | mapped roles, the default one when none maps, and every unmapped name as often as it occurs |
| UserImport.Engine.ResolveLinks | importer/engine.go:271-290 | one link for each identity with a known provider, the rest reported |
| UserImport.Engine.WriteUser | importer/engine.go:215-235 | user, roles and links together, or nothing |
| UserImport.Engine.ImportUser | importer/engine.go:142-248 | one entry: skipped, created, warned about, or the end of the run |
| UserImport.Engine.ImportAll | importer/engine.go:129-140 | the entries in order until one ends the run |
| UserImport.ImportConserves | importer/engine.go:129-248 | total = created + skipped existing + skipped without password + warnings, plus the entry an aborted run stopped at; the table grows by exactly the created |
| UserImport.ImportIsAccountable | importer/engine.go:162-235 | every account a run creates has exactly the roles its entry's map to, or the default one, and all its links, and must set a password exactly when it came without; every new link is such a one; nothing else changes |
| UserImport.RerunChangesNothing | importer/engine.go:152-160 | repeating a run that had no failed transaction changes nothing and creates nobody |
| UserImport.DryRunIsFaithfulIff | importer/engine.go:208-213 | the dry run reports what the real one would exactly when, up to the first entry that ends the run, no new entry has the address of an earlier stored one, and none that is to be stored has a failing address or a link that exists or repeats |
| UserImport.DistinctImportsAgree | importer/engine.go:142-248 | in particular for distinct addresses and links, none of them there before, and no failing address |
| UserImport.DryRunOvercounts | importer/engine.go:152-213 | of two entries with one address the dry run counts both |
| SecondFactor.Service.EnrollTotp | mfa/service.go:40-80 | a new enrolment unless a verified one is there |
| SecondFactor.Service.VerifyTotp | mfa/service.go:88-118 | a valid code activates the enrolment and issues ten backup codes |
| SecondFactor.Service.ValidateCode | mfa/service.go:127-170 | TOTP first, at a later step than the last, then a backup code, which is removed |
| SecondFactor.Service.RegenerateBackupCodes | mfa/service.go:220-242 | a valid code replaces the backup codes |
| SecondFactor.Service.DisableTotp | mfa/service.go:200-217 | a valid code removes the enrolment |
| SecondFactor.Service.ForceDisableTotp | mfa/service.go:184-197 | the enrolment goes without a code |
| SecondFactor.Service.GenerateBackupCodes | mfa/service.go:244-258 | ten codes, each from its own random draw |
| SecondFactor.AcceptedStepsIncrease | mfa/service.go:134-148 | within one enrolment codes are accepted at strictly increasing steps |
| SecondFactor.ValidationIff | mfa/service.go:127-170 | a code is accepted exactly when it is shown at a later step than any before, or is not shown and an unused backup code; the backup code goes |
| SecondFactor.EnrolmentsEndByProof | mfa/service.go:184-217 | over any run an active enrolment keeps its secret until somebody disables it on a code it shows at that step, or an administrator removes it |
| SecondFactor.BackupCodesChangeByProof | mfa/service.go:150-242 | and its backup codes until one is used up or they are replaced on such a code |
| SecondFactor.ActivationNeedsProof | mfa/service.go:88-118 | an enrolment becomes active only on a code it shows |
| SecondFactor.CodeIsSpentIff | mfa/service.go:119-148 | an accepted code is never accepted again in its enrolment exactly when the authenticator shows it at no step from the present one on |
| SecondFactor.LateCodeIsSpent | mfa/service.go:119-148 | for a code of one step only, exactly when it was handed in one step late |
| SecondFactor.BackupCodesAreConserved | mfa/service.go:150-167 | remaining and accepted backup codes number ten, and none is accepted more often than it was issued |
| SecondFactor.OneCodeThreeSteps | mfa/service.go:119-148 | a run from the first enrolment on in which one code is accepted at three successive steps |
| SecondFactor.VerifyingCodeValidatesAgain | mfa/service.go:96-116 | the code that verified an enrolment validates again at once, exactly when no step as late has been recorded |
| SecondFactor.VerifyingCodeTwice | mfa/service.go:96-116 | a run in which it does |
| FederationService.Service.InitSocialLogin | federation/service.go:445-506 | a one-shot state that lives ten minutes |
| FederationService.Service.StartLink | federation/service.go:513-522 | a link state names its user, who must exist, and carries no invitation |
| FederationService.Service.ConsumeAuthRequest | federation/state_repository.go:46-64 | the row is gone once read, and counts only up to its expiry |
| FederationService.Service.ConsumePendingLink | federation/state_repository.go:75-93 | the same for a staged link |
| FederationService.Service.ConsumePendingSignup | federation/state_repository.go:104-122 | the same for a staged signup |
| FederationService.Service.ProcessCallback | federation/service.go:577-640 | the state is consumed whatever comes of the callback |
| FederationService.Service.FindOrProvisionUser | federation/provisioning.go:78-157 | link flow, known link, known address, unknown address, in that order |
| FederationService.Service.CheckSignupAllowed | federation/provisioning.go:161-175 | a valid invitation or open registration |
| FederationService.Service.StagePendingSignup | federation/provisioning.go:178-207 | a staged signup that lives fifteen minutes |
| FederationService.Service.StagePendingLink | federation/provisioning.go:212-242 | a staged link that lives five minutes |
| FederationService.Service.CompleteAuthenticatedLink | federation/provisioning.go:274-300 | links an identity nobody else has; again for the same user it is a no-op |
| FederationService.Service.ConfirmLink | federation/provisioning.go:313-364 | the token is consumed before the password is checked |
| FederationService.Service.CompleteSignup | federation/provisioning.go:389-480 | re-checks the gate, creates the user with the invitation's roles, links it and spends the invitation |
| FederationService.Service.RegisterWithInvite | invitation/service.go:152-201 | an unused, unexpired invitation makes a user with its roles and is spent |
| FederationService.Service.ValidateToken | invitation/service.go:207-220 | valid exactly when known, unused and not expired |
| FederationService.Service.ConsumeToken | invitation/service.go:224-232 | marks the invitation used |
| Federation.LinksHaveOwners | migrations/014_create_federation.sql:21-29 | in every state of every run links, staged links and link requests belong to users that exist, and each user has an address nobody else has |
| Federation.TokensAreOneShot | federation/state_repository.go:46-122 | a state or staged token opens a door at most once and never after its expiry |
| Federation.InvitationsConferOnce | invitation/service.go:152-232 | across both registration paths an invitation confers its roles at most once |
| Federation.ConferringSpends | federation/provisioning.go:420-470 | conferring needs a valid invitation, gives the new user exactly its roles, and spends it |
| Federation.LinksHaveProvenance | federation/provisioning.go:78-480 | every link goes back to a link this user began, a password of the account whose address the provider gave, or the signup that created the user |
| Federation.SignInsFollowLinks | federation/provisioning.go:78-139 | over every run a callback logs a user in exactly when it answers an unexpired public sign-in at that provider for an identity linked to that user; an address alone never does |
| Federation.SignInsHaveProvenance | federation/provisioning.go:78-480 | so each goes back to a link the user began, confirmed with their password, or was created with |
| Federation.EntriesAreProved | federation/provisioning.go:274-480 | every other entry is a link the user asked for, a staged link with the password of its account, a permitted signup, or a valid invitation |
| Federation.LinksNeverMove | federation/provisioning.go:274-300 | a link never passes to another user: it stays, or goes with its user |
| Federation.UnlinkedIff | federation/provisioning.go:110-157 | when an unlinked identity gets a link staged, a signup staged, or neither |
| Federation.ConfirmIff | federation/provisioning.go:313-364 | a staged link is made exactly with the password, in time, while the identity is free |
| Federation.CompleteIff | federation/provisioning.go:389-480 | a staged signup makes a linked user exactly in time, with the gate open or an invitation, and the address free |
| Federation.SignupsConferNothingElse | federation/provisioning.go:420-470 | the new user has the staged address and no role but the invitation's |
| Federation.RegisterIff | invitation/service.go:152-201 | an invitation is taken up exactly while valid, with its address free |
| EmailTemplates.Store.Get | email/template_store.go:61-86 | a miss is looked up once and remembered, absence included |
| EmailTemplates.Store.Save | email/template_store.go:88-104 | the row is stored and the cached one dropped |
| EmailTemplates.Store.Remove | email/template_store.go:106-113 | the row and the cached one are dropped |
| EmailTemplates.Resolver.ParseFor | email/resolver.go:146-175 | a cached parse or a fresh one that replaces the name's others |
| EmailTemplates.Resolver.Evict | email/resolver.go:163-167 | exactly the keys that start with the name and a NUL go |
| EmailTemplates.Resolver.RenderTemplate | email/resolver.go:103-139 | override or default, parsed |
| EmailTemplates.CachesNeverShow | email/resolver.go:103-174 | through any run of edits, resets and renders the result is the parse of the current override or default, and at most one body per name is cached |
| EmailTemplates.EvictionIsPrecise | email/resolver.go:163-167 | eviction touches an entry exactly when it is of that very name |
| EmailTemplates.EvictionLeavesOthers | email/resolver.go:146-175 | rendering one name leaves every other name's entry alone, prefix or not |
| EmailTemplates.NulRendersAnother | email/resolver.go:146-167 | with a NUL in a name a run renders the parse of another one |

## Left out

- HTTP, cookies, CORS, routing, metrics, audit records and log lines.
- SQL, ORM behaviour and isolation levels: a service call is one atomic step and a transaction is all or nothing. Interleavings inside one call are not modelled, except for the outbox workers, whose every lease, delivery, commit and abort is a step of its own.
- Writes are taken to succeed where the code ignores their errors (deleting a completed request, consuming a device code, marking an invitation used); the at-most-once statements rest on that.
- Cryptography, JWT encoding and key parsing: digests are injective, a signature verifies when the key with its `kid` is in memory, random values are fresh.
- A signed JWT whose transaction then fails is not counted as issued: it never leaves the server.
- Policy code: compiling and evaluating a policy are functions of its text and input; inputs are not built.
- Passwords, sessions, users and roles: what those services answer is a parameter of each step.
- Pushed authorization requests, request objects and `request_uri`: they only supply parameters to an authorize call.
- ID tokens: they are built from a finished grant and write no table.
- User codes of the device flow: a device row is named by its key.
- Unlinking an identity and editing providers: they only remove or replace rows.
- Floating-point rounding in the rate limiter: token counts are real numbers. The limiter drops its lock between finding a bucket and taking a token; the model takes both at once.
- The order and cancellation of an import by its context, and the profile data it copies.
- Two enrolments of one user at once: one enrolment row per user.
- The outbox worker's timer and shutdown: when a batch starts is free.
- Revocation of a whole session or family on reuse of a code or refresh token: the writes are undone by the error that follows them, and each family has one member.
- SweepVisibility.SweepInvisible: the later runs open no session for a user the sweep took and revoke no refresh token it took: a sweep prevents the first, and the second needs the row to find the family and the session.
- TokenService.Service.IntrospectToken: the reply leaves out `iat`, `sub` and `username`, which are copied from the claims, the row and the user and decide nothing.
- TokenService.Service.RunCleanup: only the tables of the token store are swept here; those of federation states are swept in `Federation.dfy`, sent e-mails in `Outbox.dfy`, and the others (re-authentication tokens, passkey challenges, what other packages register) are not modelled.
