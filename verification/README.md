# Verified model of the auth server's protocols

This project models the database-backed protocols of the NestJS backend of an OAuth 2.0 / OpenID
Connect server and proves what they keep over whole runs, several of them over every interleaving
of requests. Verify it with `dafny verify dfyconfig.toml`.

How the model is built:

- A table is a map. Each service is a class whose methods do what the source's methods do on that
  table, branch by branch; their `ensures` tie the new table to a function of the old one, and the
  theorems are about those functions. A nullable column is an `Option`, a thrown exception an `Err`
  result or an outcome value.
- Where requests interleave (`RefreshTokenRuns`, `SigningKeyRuns`, `AuthCodes`, `LogoutRuns`), a request in
  flight is a program counter with its locals, one SQL statement is one atomic step, and a run is
  any sequence of steps; a step that is not enabled changes nothing. `LogoutRuns` puts session checks,
  inserts and responses of requests, and the two statements of a logout, among those steps. `AuthFlow` and
  the operations of `Groups` run one request at a time; `LogoutRefinement` shows that the requests of
  `AuthFlow` are the statements of `LogoutRuns` with nothing in between.
- Times are integers in milliseconds. Hashes are constructors (SHA-256, scrypt) or arbitrary
  functions (PKCE digests). Random ids, codes, plaintexts and salts come in as parameters and do not
  repeat. Remote answers, permission checks and credential checks come in as parameters.

The modules:

| module | about |
|---|---|
| `Scopes` | scope strings: JavaScript split, trim and sort, the normalizer, the resolver, down-scoping |
| `RefreshTokens`, `RefreshTokenRuns`, `RefreshTokenTheorems` | rotation, replay detection, grace window, revocation (RFC 6749, sections 6 and 10.4) |
| `SigningKeys`, `SigningKeyRuns`, `SigningKeyTheorems`, `SigningKeyRefinement` | key rotation by compare-and-swap, trimming, the retirement job, the key set |
| `AuthCodes` | single use of authorization codes in both database forms, binding checks, cleanup |
| `AuthorizeRequests`, `Consents`, `LoginSessions`, `TokenRevocation` | the services behind the authorization flow |
| `AuthFlow`, `AuthFlowInvariants`, `AuthFlowTheorems`, `AuthFlowProgress` | login, authorize, consent, token, refresh and logout as one state machine |
| `AuthFlowEndpoints`, `AuthFlowRevocation` | what each request of the flow does, and revocation in it |
| `LogoutRuns`, `LogoutRefinement` | a logout against requests under way, statement by statement |
| `AppSubscriptions` | recursive subscribe and unsubscribe over an app graph given by remote answers |
| `Roles`, `Groups` | user roles and their copy of what groups grant |
| `ClientSecrets`, `MailLimiter` | two time-window machines |

What the proofs say about the code that its comments do not:

- The re-read after the conditional UPDATE of a refresh token never detects a loser
  (`ReReadNeverDetectsLoser`); only the UNIQUE `parent_id` keeps a family a chain. A scope beyond the
  record is refused after the token was consumed, which then has no child (`RefusedScopeConsumes`);
  the next time its client shows it, the whole family is revoked (`RefusedScopeDoomsFamily`).
- Revoking a family, or all tokens of a session, is final if and only if no request had read a childless
  token of it before and can still insert the child (`RevocationFinalIff`, `SessionRevocationFinalIff`).
- A token of a family can be revoked already while another is not, when a refresh under way inserted its
  child after a revocation. A revocation with the revoked token then stops at it and leaves the child
  (`FamilyFallsIff`). With requests one at a time this does not happen (`FamiliesFallTogether`).
- A logout does not stop requests already past their session check: exactly those can still send a code or
  tokens for the session, and nobody joins them (`LogoutFinalIff`). An unrevoked refresh token of the
  session can appear after both statements of the logout exactly through such a request that has yet to
  store its first token, or through a refresh that had read its token before (`LogoutTokensIff`). A token
  that slips in gets no response later (`LateTokensGetNoResponse`).
- A rotation reads the clock before it wins the compare-and-swap. A token signed with the current key
  keeps that key for its whole lifetime, in every continuation with fewer new keys than the maximum, if
  and only if no rotation of the tenant read the clock before the signing and has yet to swap
  (`SigningSafeIff`). `SignedDuringSwapLosesKey` is a run in which it loses the key.
- A trim spares the current key if and only if the configured maximum is positive
  (`TrimSparesCurrentIff`).
- `user_roles` does not have `from_group` in its key. Removing roles from a group keeps the copy right
  if and only if no other group grants a removed pair (`RolesRemovedUpToDateIff`); adding roles turns a
  member's direct row into a group row, which the removal then takes
  (`AddedRolesSpareDirectRowsIff`, `AddThenRemoveRoles`).
- A refresh looks up the tenant's default client by the domain alias. Without one it answers nothing,
  after the token was consumed and a child stored that nobody is given (`RefreshAnsweredIff`,
  `RefreshLostWithoutDefault`). With one, the refreshed access token names that default client, not the
  client that asked. Its scope claim leaves out `offline_access`; it is within the named client's scopes for
  every request if and only if all other scopes of the refresh token are (`AccessTokenWithinNamedIff`,
  `RefreshNamesDefault`). The scopes listed in the response keep `offline_access`, so for them it is all
  scopes of the refresh token (`ResponseWithinNamedIff`). The id token alone is addressed to the client that
  asked.
- A direct grant over a role that a group grants takes the group's row over, and the next removal of that
  role from the group fails (`GrantOverGroupRowBlocksRemoval`).
- The mail limiter admits at most five mails in any closed 24 h span, not six: the first mail of a
  window opens it. Five is reached (`FiveInADay`). By default the limiter does not run, because the
  default of its switch is the text `"false"`, which is truthy (`LimiterRunsIff`).

## Model

| member | source | states |
|---|---|---|
| Scopes.ParseMeaning | srv/src/casl/scope-normalizer.ts:5-12 | parsing any string yields exactly its words between white space and commas, strictly ascending, none empty and none containing a separator |
| Scopes.ParseOfFormat | srv/src/casl/scope-normalizer.ts:15-20 | printing separator-free scopes and parsing again gives their sorted duplicate-free form; the plain split by spaces reads the same set |
| Scopes.NormalizeIdempotent | srv/src/casl/scope-normalizer.ts:23-25 | normalizing twice is normalizing once, on every string, and keeps the parsed scopes |
| Scopes.IntersectMeaning | srv/src/casl/scope-normalizer.ts:28-31 | the result is the set intersection, sorted without duplicates |
| Scopes.UnionMeaning | srv/src/casl/scope-normalizer.ts:34-38 | the result is the set union without the empty scope, sorted without duplicates |
| Scopes.AscendingUnique | srv/src/casl/scope-normalizer.ts:9-11 | a set of scopes has only one sorted duplicate-free list, so the order of output is determined |
| Scopes.BeforeIff | srv/src/casl/scope-normalizer.ts:9-11 | the sort order is the lexicographic one by character code |
| Scopes.CutsIff | srv/src/casl/scope-normalizer.ts:5-12 | a character separates scopes wherever it stands if and only if it is white space, a line end or a comma |
| Scopes.OneScope | srv/src/casl/scope-normalizer.ts:5-12 | a non-empty string without such a character is one scope |
| Scopes.PlainCutsIff | srv/src/auth/refresh-token.service.ts:34-45 | for the refresh-token service only the blank separates |
| Scopes.JoinConcat | srv/src/casl/scope-normalizer.ts:15-20 | printing puts exactly one blank between scopes |
| Scopes.FormatMeaning | srv/src/casl/scope-normalizer.ts:15-20 | whatever the order and repetitions of the input, the ascending list of its scopes is printed |
| Scopes.ResolveExact | srv/src/casl/scope-resolver.service.ts:12-31 | the result is exactly requested ∩ allowed, and the call fails if and only if that is empty |
| Scopes.ResolveIdempotent | srv/src/casl/scope-resolver.service.ts:12-31 | resolving the joined result again against the same client gives the same result |
| Scopes.JoinReadsBack | srv/src/auth/authorize.service.ts:99-103 | a joined list of clean scopes is read back as that set by the normalizer and by the split on spaces |
| Scopes.ValidateScopeSubsetExact | srv/src/auth/refresh-token.service.ts:34-45 | down-scoping succeeds if and only if nothing beyond the record is asked for; it grants exactly the requested set, without repetitions and in the order requested, and the stored string reads back the same everywhere if the record did |
| RefreshTokens.GraceWindowSeconds | srv/src/auth/refresh-token.service.ts:238-248 | whatever is configured, the grace window is between 0 and 30 seconds |
| RefreshTokens.ClampExpiry | srv/src/auth/refresh-token.service.ts:50-53 | the expiry never passes the absolute one nor the sliding one and is one of the two |
| RefreshTokens.RefreshTokenService.Create | srv/src/auth/refresh-token.service.ts:69-101 | stores an unused, unrevoked root with these bindings and the clamped expiry, column by column, and nothing else |
| RefreshTokens.RefreshTokenService.ConsumeAndRotate | srv/src/auth/refresh-token.service.ts:106-191 | a whole call without interference has the table and outcome of the specification of rotation, in every branch |
| RefreshTokens.RefreshTokenService.HandleReplay | srv/src/auth/refresh-token.service.ts:263-291 | in the grace window with a child: that child and no change; otherwise the whole family is revoked |
| RefreshTokens.RefreshTokenService.RevokeFamily | srv/src/auth/refresh-token.service.ts:196-203 | revokes exactly the rows of the family |
| RefreshTokens.RefreshTokenService.RevokeByToken | srv/src/auth/refresh-token.service.ts:208-214 | revokes exactly the family of the token, or nothing if it is unknown |
| RefreshTokens.RefreshTokenService.RevokeBySid | srv/src/auth/refresh-token.service.ts:219-226 | revokes exactly the rows of the session |
| RefreshTokens.ReplayOfUsedToken | srv/src/auth/refresh-token.service.ts:119-144 | a used, live token shown by its own client: forgiven with the store unchanged and at most 30 s after use, or its whole family is revoked and no other row touched |
| RefreshTokens.ReplayForgivenIff | srv/src/auth/refresh-token.service.ts:238-291 | such a replay is forgiven if and only if the token has a child, a positive window is configured, and no more time than that window, cut to 30 s, has passed since the use |
| RefreshTokens.UnusedIsRotatedIff | srv/src/auth/refresh-token.service.ts:140-191 | an unused, usable token is rotated if and only if no scope beyond the record is asked for; every column of the child, and that the token is used in any case |
| RefreshTokens.UnusableIsRejected | srv/src/auth/refresh-token.service.ts:113-138 | an unknown, revoked, expired or foreign token is rejected without any change |
| RefreshTokens.FirstCallersChildStaysUsable | srv/src/auth/refresh-token.service.ts:263-291 | after a forgiven replay the first caller's child can still be rotated |
| RefreshTokens.RefusedScopeConsumes | srv/src/auth/refresh-token.service.ts:146-167 | a live token is refused its scope if and only if the request names one beyond the record; it is consumed all the same, has no child, and nothing else changes |
| RefreshTokens.RefusedScopeDoomsFamily | srv/src/auth/refresh-token.service.ts:119-144 | the next time such a token is shown by its client, at whatever time before it expires, the whole family is revoked |
| RefreshTokenRuns.StepKeepsInv | srv/src/auth/refresh-token.service.ts:106-191 | every single statement of every request keeps unique hashes and parents, parents used, children bound like their parents with narrower scopes and clamped expiries, and each request's locals true of the table |
| RefreshTokenRuns.RunKeepsInv | srv/src/auth/refresh-token.service.ts:106-191 | so does every interleaving of any number of requests |
| RefreshTokenRuns.StepShape | srv/src/entity/refresh-token.entity.ts:17 | a step adds at most one token: a root of a new family or a child of a childless used token |
| RefreshTokenTheorems.FamiliesAreChains | srv/src/auth/refresh-token.service.ts:106-191 | in every interleaving each family is one chain, all but the tail used; user, client, tenant, session and absolute expiry never change, scopes only narrow, nothing lives or is consumed past root creation plus the absolute lifetime |
| RefreshTokenTheorems.OnlyTailUnused | srv/src/auth/refresh-token.service.ts:147-153 | in a chain every token but the last has been used |
| RefreshTokenTheorems.AlongChain | srv/src/auth/refresh-token.service.ts:165-187 | between any two tokens of a chain the bindings agree and the later scope is within the earlier |
| RefreshTokenTheorems.OneWinnerPerParent | srv/src/entity/refresh-token.entity.ts:17 | two requests never both rotate the same token |
| RefreshTokenTheorems.ReReadNeverDetectsLoser | srv/src/auth/refresh-token.service.ts:155-163 | in every interleaving a request that reaches the re-read goes on, winner of the UPDATE or not |
| RefreshTokenTheorems.RevocationFinalIff | srv/src/auth/refresh-token.service.ts:120-122 | a revoked family can get a live token again if and only if some request has read an unrevoked, childless token of it before the revocation and asks for an acceptable scope |
| RefreshTokenTheorems.SessionRevocationFinalIff | srv/src/auth/refresh-token.service.ts:219-226 | the same for all tokens of a session after they were revoked, over all runs that start no new family in the session; `LogoutTokensIff` covers those that do |
| RefreshTokenTheorems.FinalIff | srv/src/auth/refresh-token.service.ts:106-226 | the common statement for a family or a session |
| RefreshTokenTheorems.RevokedStaysDown | srv/src/auth/refresh-token.service.ts:196-226 | with no such request, the family or session stays revoked in every continuation and no later request obtains one of its tokens |
| RefreshTokenTheorems.EligibleRegains | srv/src/auth/refresh-token.service.ts:173-187 | such a request, left alone, does insert a live child |
| RefreshTokenTheorems.CallIsItsSteps | srv/src/auth/refresh-token.service.ts:106-191 | the statements of one request with nothing in between have the result of the whole call |
| RefreshTokenTheorems.ReplayEndsFamily | srv/src/auth/refresh-token.service.ts:134-144 | a replay outside the grace window, or before a child exists, ends the family for all later runs, interleaved or not, whatever other requests are under way as long as none can still add to the family |
| SigningKeys.KeyManagementService.CreateInitialKey | srv/src/services/key-management.service.ts:20-30 | stores version 1 as the current key with this public key, which the lookup of its kid then answers |
| SigningKeys.KeyManagementService.GetCurrentSigningKey | srv/src/core/rs256-signing-key-provider.service.ts:43-52 | returns the kid of a current key, and fails if and only if there is none |
| SigningKeys.KeyManagementService.GetPublicKeyByKid | srv/src/core/rs256-signing-key-provider.service.ts:54-63 | finds exactly the kids of keys of the tenant that are not deactivated, and answers with the public key of such a key |
| SigningKeys.KeyManagementService.RotateKey | srv/src/services/key-management.service.ts:62-105 | without a current key fails and changes nothing; otherwise supersedes it now, makes the next version current with this public key, which the lookup of its kid answers, and deactivates exactly the active keys that have at least the maximum of newer ones |
| SigningKeys.KeyManagementService.EnforceMaxKeys | srv/src/services/key-management.service.ts:142-164 | deactivates exactly the active keys of the tenant that have at least the maximum of newer active keys |
| SigningKeys.KeyManagementService.DeactivateExpiredKeys | srv/src/services/key-management.service.ts:113-140 | deactivates exactly the superseded keys past the overlap window, over all tenants |
| SigningKeys.KeyManagementService.GetJwks | srv/src/services/jwks.service.ts:25-32 | lists exactly the kids that the lookup accepts, each with the public key that the lookup answers, in strictly increasing version order |
| SigningKeys.ExcessMeaning | srv/src/services/key-management.service.ts:152-163 | the front of the sorted listing that is trimmed is exactly the set of keys with at least the maximum of newer active keys |
| SigningKeys.ListingAfterExcess | srv/src/services/key-management.service.ts:142-164 | what a trim leaves of its listing is at most the maximum |
| SigningKeyRuns.StepKeepsInv | srv/src/services/key-management.service.ts:62-164 | every statement of rotations and cron runs keeps versions, flags, the one right to be current, truth of stale lists and the bound on active keys for every set of trimmers |
| SigningKeyRuns.RunKeepsInv | srv/src/services/key-management.service.ts:62-164 | so does every interleaving |
| SigningKeyTheorems.OneCurrentOrOneWinner | srv/src/services/key-management.service.ts:62-90 | current keys plus rotations between winning the UPDATE and inserting are exactly one for a tenant that has keys |
| SigningKeyTheorems.ReadVersionStillMaximum | srv/src/services/key-management.service.ts:78-100 | the version read is still the maximum at the INSERT, which never meets a taken kid |
| SigningKeyTheorems.VersionsConsecutive | srv/src/services/key-management.service.ts:78-100 | versions of a tenant are exactly 1 to n without repetition, and a kid names one key |
| SigningKeyTheorems.PublicKeyIsInserted | srv/src/services/key-management.service.ts:92-105 | over every run a key keeps the public key of the one step that inserted it |
| SigningKeyTheorems.LookupAnswersInserted | srv/src/services/key-management.service.ts:43-52 | while a key is not deactivated, the lookup of its kid answers with that public key and no other |
| SigningKeyTheorems.ActiveKeysBounded | srv/src/services/key-management.service.ts:142-164 | at every point active keys are at most the maximum plus the rotations that inserted and have not finished trimming |
| SigningKeyTheorems.CurrentKeyActive | srv/src/services/key-management.service.ts:142-164 | the current key is never deactivated, stale lists included |
| SigningKeyTheorems.TrimSparesCurrentIff | srv/src/services/key-management.service.ts:142-164 | a trim spares the current key if and only if the maximum is at least one |
| SigningKeyTheorems.SigningSafeIff | srv/src/services/key-management.service.ts:62-140 | a token signed now with the current key finds it in every continuation until the token's lifetime ends, unless as many newer keys as the maximum are created, if and only if no rotation of the tenant read the clock earlier and has yet to swap |
| SigningKeyTheorems.UnsafeSigning | srv/src/services/key-management.service.ts:62-140 | with such a rotation under way, in any state, that rotation and one cron run lose the key at the very end of the token's lifetime |
| SigningKeyTheorems.SigningKeyOutlivesToken | srv/src/services/key-management.service.ts:113-140 | a token signed no later than its key was superseded finds the key until its lifetime ends, unless as many newer keys as the maximum were created |
| SigningKeyTheorems.SignedDuringSwapLosesKey | srv/src/services/key-management.service.ts:62-76 | a run in which a token signed with the current key after the recorded supersession time loses its key early |
| SigningKeyRefinement.RotationIsItsSteps | srv/src/services/key-management.service.ts:62-164 | the statements of a rotation with nothing in between leave the table of the whole call: next version current, old key superseded, exactly the excess deactivated |
| SigningKeyRefinement.NoRotationWithoutCurrent | srv/src/services/key-management.service.ts:78-80 | without a current key they end at the swap and change no key |
| SigningKeyRefinement.RetirementIsItsSteps | srv/src/services/key-management.service.ts:113-140 | so do the statements of the cron job leave the table of one call |
| AuthCodes.AuthCodeService.CreateAuthToken | srv/src/auth/auth-code.service.ts:66-110 | stores the unused row with a five-minute expiry under the six digits, or under the long string if they are taken |
| AuthCodes.AuthCodeService.RedeemAuthCode | srv/src/auth/auth-code.service.ts:117-122 | either form spends the code and returns its row if and only if it is stored, unused and unexpired, and otherwise changes nothing |
| AuthCodes.AuthCodeService.RedeemPostgres | srv/src/auth/auth-code.service.ts:166-179 | the one-statement form does so |
| AuthCodes.AuthCodeService.RedeemSqlite | srv/src/auth/auth-code.service.ts:181-208 | the find, update, re-fetch form does so when nothing intervenes |
| AuthCodes.AuthCodeService.DeleteExpiredAuthCodes | srv/src/auth/auth-code.service.ts:144-160 | deletes exactly expired and used codes |
| AuthCodes.AuthCodeService.HandleCodeGrant | srv/src/controllers/oauth-token.controller.ts:660-700 | gets on to issuance if and only if the code is redeemable and client, redirect URI and verifier match; the code is spent whenever it was redeemable |
| AuthCodes.StepKeepsInv | srv/src/auth/auth-code.service.ts:144-208 | every statement of exchanges and cleanup keeps one spender per code, spent codes spent and every exchange true to the code as created |
| AuthCodes.OneResponsePerCode | srv/src/auth/auth-code.service.ts:166-208 | in every interleaving and in both forms a code yields at most one token response |
| AuthCodes.FailedExchangeBurns | srv/src/controllers/oauth-token.controller.ts:667-696 | after an exchange that redeemed the code and failed, no later run gives a response for it |
| AuthCodes.SpentStaysSpent | srv/src/auth/auth-code.service.ts:144-208 | once redeemed, a code is not redeemable in any later state |
| AuthCodes.ResponseIsBound | srv/src/controllers/oauth-token.controller.ts:669-696 | a response went to the client, redirect URI and verifier the code was created for, and the code had been seen before its expiry |
| AuthCodes.ResponseKnowsVerifier | srv/src/controllers/oauth-token.controller.ts:688-696 | with an injective S256 the verifier is the one the challenge was made from |
| AuthCodes.ThreeStepsRefineOne | srv/src/auth/auth-code.service.ts:166-208 | the three statements in a row leave the same state as the one statement |
| AuthCodes.CodeLasts | srv/src/auth/auth-code.service.ts:66-110 | a code that nobody redeems is redeemable for exactly five minutes |
| AuthCodes.UninterruptedExchange | srv/src/controllers/oauth-token.controller.ts:660-713 | an exchange that nothing interrupts gets a response if and only if the code is stored, unused, unexpired and bound to the request, and issuance succeeds |
| LoginSessions.LoginSessionService.CreateSession | srv/src/auth/login-session.service.ts:22-41 | stores a session that expires after the configured duration |
| LoginSessions.LoginSessionService.ValidateSession | srv/src/auth/login-session.service.ts:47-55 | succeeds if and only if the session exists, is not invalidated and has not expired |
| LoginSessions.LoginSessionService.FindSessionBySid | srv/src/auth/login-session.service.ts:99-108 | returns the session under the same condition |
| LoginSessions.LoginSessionService.InvalidateSession | srv/src/auth/login-session.service.ts:61-63 | sets the invalidation time of that session, if it exists, and changes nothing else |
| Consents.ConsentService.CheckConsent | srv/src/auth/consent.service.ts:20-46 | consent is required if and only if the record does not contain every requested scope |
| Consents.ConsentService.GrantConsent | srv/src/auth/consent.service.ts:53-82 | creates or widens the record as specified |
| Consents.GrantWidens | srv/src/auth/consent.service.ts:53-82 | a grant adds exactly the approved scopes, increments the version and touches no other record |
| Consents.GrantReflected | srv/src/auth/consent.service.ts:53-82 | after it the table is again the sum of all grants: scopes their union, version their number |
| Consents.CoveredIff | srv/src/auth/consent.service.ts:20-46 | consent covers a request if and only if something was granted for the user and client, and every scope asked for was in some grant |
| AuthorizeRequests.AcceptedIff | srv/src/auth/authorize.service.ts:58-272 | a request is accepted if and only if the response type is code, the method is known, one client is found, the redirect URI is registered or is left out and the only one, `none` stands alone, there is a state, the challenge and its method meet the client's policy, the nonce is short enough, neither resource nor hint is refused and some scope is left; and the whole result |
| AuthorizeRequests.RefusedHow | srv/src/auth/authorize.service.ts:58-272 | which error every other request gets, and whether it is shown or sent to the redirect URI |
| AuthorizeRequests.FoundIff | srv/src/services/client.service.ts:171-191 | a client is found by id or alias unless these name two clients |
| AuthorizeRequests.EffectiveMeaning | srv/src/auth/token-issuance.service.ts:163-166 | a client without scopes of its own is taken to have `openid`, `profile` and `email` |
| AuthorizeRequests.ValidatedRequest | srv/src/auth/authorize.service.ts:58-141 | a validated request names a registered redirect URI, meets the client's PKCE policy, and its scopes are the client's; resolving them again, as the controller does, changes nothing |
| AuthorizeRequests.ErrorsRedirectToRegisteredUris | srv/src/auth/authorize.service.ts:69-113 | an error goes to a redirect URI only if it is registered with the client |
| TokenRevocation.LogoutOnlyRevokes | srv/src/auth/token-revocation.service.ts:81-91 | logout changes no token except by revoking it, and with a sid revokes all tokens of the session |
| TokenRevocation.RevocationMeaning | srv/src/auth/token-revocation.service.ts:43-69 | a revocation revokes exactly the family of an unrevoked token of the tenant with this plaintext, and changes nothing if there is none |
| TokenRevocation.FamilyFallsIff | srv/src/auth/token-revocation.service.ts:52-60 | shown by its own tenant, a token brings its whole family down if and only if it was not revoked, or the family was down already |
| TokenRevocation.LogoutMeaning | srv/src/auth/token-revocation.service.ts:81-91 | a logout without a sid revokes the family of an explicit token of a known tenant, and does nothing without either |
| TokenRevocation.TokenRevocationService.Revoke | srv/src/auth/token-revocation.service.ts:43-69 | revokes exactly the family of a known, unrevoked token of the same tenant; an unknown plaintext, another tenant or a revoked token changes nothing |
| TokenRevocation.TokenRevocationService.Logout | srv/src/auth/token-revocation.service.ts:81-91 | with a sid the session is valid at no time afterwards and all its tokens are revoked |
| AuthFlowInvariants.SentCodeIsOk | srv/src/controllers/oauth-token.controller.ts:116-225 | where a code is sent the session is valid, the redirect URI registered, the PKCE policy met, the scopes within the client's, and consent covers them or the flow is first-party |
| AuthFlowInvariants.IssueKeeps | srv/src/auth/token-issuance.service.ts:133-257 | issuing tokens, for members and subscribed users alike, keeps every token and response within a session of its user and the client's scopes |
| AuthFlowInvariants.RefreshKeeps | srv/src/auth/token-issuance.service.ts:309-390 | so does the refresh grant, with the session checked after the rotation: scopes stay within those of the client the refresh token is bound to |
| AuthFlowInvariants.ConsentKeeps | srv/src/controllers/oauth-token.controller.ts:508-557 | a consent decision keeps stored codes within consent and the record equal to its grants |
| AuthFlowInvariants.StepKeepsInv | srv/src/controllers/oauth-token.controller.ts:116-860 | every request keeps all of this |
| AuthFlowInvariants.RunKeepsInv | srv/src/controllers/oauth-token.controller.ts:116-860 | so does every run |
| AuthFlowTheorems.LogoutIsFinal | srv/src/auth/token-revocation.service.ts:81-91 | after a logout with a session's sid, whatever requests follow, no code, code exchange or refresh for that session is answered, it stays invalidated and its tokens stay revoked |
| AuthFlowTheorems.LateTokensGetNoResponse | srv/src/auth/login-session.service.ts:47-55 | once the session is invalidated, whatever codes and refresh tokens requests under way may still write before each later request, none is answered for the session |
| AuthFlowTheorems.LogoutSparesOthers | srv/src/auth/token-revocation.service.ts:81-91 | other sessions and tokens of other sessions are untouched |
| AuthFlowTheorems.CodesWithinConsent | srv/src/controllers/oauth-token.controller.ts:187-221 | in every reachable state a stored code for a third party asks for no more than the user's consent to that client, which is the union of the user's grants, with the version their number |
| AuthFlowTheorems.ConsentsAreGrants | srv/src/auth/consent.service.ts:53-82 | in every reachable state a record exists if and only if something was granted, and is the union and count of the grants |
| AuthFlowTheorems.ResponsesBelongToSessions | srv/src/auth/token-issuance.service.ts:180-196 | every code and token response went out before its session, one of the same user, expired or was invalidated, and within the scopes of the client the grant or refresh token is bound to; the access token's claim is those scopes without `offline_access` |
| AuthFlowTheorems.StoredScopesReadBack | srv/src/auth/refresh-token.service.ts:34-45 | every scope string stored with a code or token reads back the same by the normalizer and by the split on spaces |
| AuthFlowTheorems.PkceClientsNeedVerifier | srv/src/controllers/oauth-token.controller.ts:688-696 | a code of a client that requires PKCE never yields a response without a verifier |
| AuthFlowTheorems.CodeSentIff | srv/src/controllers/oauth-token.controller.ts:116-225 | the endpoint sends a code if and only if the request is valid, no page is asked for first, the session is valid and recent enough, the user agreed or is not asked, and the session is confirmed or need not be |
| AuthFlowTheorems.EventsHaveGrounds | srv/src/controllers/oauth-token.controller.ts:116-860 | a request issues at most one code or response, and only for a code decision, a redeemable code bound to the request, a client that allows the password grant, a checked exchange, or a usable refresh token of an authenticated client |
| AuthFlowEndpoints.LoginMeaning | srv/src/controllers/oauth-token.controller.ts:422-505 | a login for a known client starts one session of the user in the client's tenant for the configured time, and does nothing else |
| AuthFlowEndpoints.LoginLasts | srv/src/auth/login-session.service.ts:22-55 | the session of a login is valid for exactly the configured time unless it is ended |
| AuthFlowEndpoints.DecisionIff | srv/src/controllers/oauth-token.controller.ts:116-225 | which error, page or code every authorize request gets, with the exact condition for each |
| AuthFlowEndpoints.AuthorizeMeaning | srv/src/controllers/oauth-token.controller.ts:278-305 | where a code is sent, one unused code is stored for five minutes, bound to client, redirect URI, challenge, scopes, user and session; otherwise nothing changes |
| AuthFlowEndpoints.ConsentMeaning | srv/src/controllers/oauth-token.controller.ts:508-557 | a decision counts if and only if it is a grant in a valid session for a known client with some scope left; then it widens the record of that user and client by exactly those scopes |
| AuthFlowEndpoints.CodeGrantIff | srv/src/controllers/oauth-token.controller.ts:660-715 | a redeemable code is spent in any case; it is answered if and only if client, redirect URI and verifier match, the user may have the tokens, some scope is left and the session is valid; and the whole response |
| AuthFlowEndpoints.PasswordGrantIff | srv/src/controllers/oauth-token.controller.ts:717-758 | answered if and only if the client is known and has the grant, the user may have the tokens and some scope is left; then in a new session |
| AuthFlowEndpoints.ExchangeIff | srv/src/controllers/oauth-token.controller.ts:629-658 | answered for the default client of the named client's tenant, if and only if there is one with scopes and the user may have the tokens |
| AuthFlowEndpoints.LogoutRequestMeaning | srv/src/auth/token-revocation.service.ts:81-91 | what a logout request changes with a sid, with an explicit token alone, and with neither |
| AuthFlowEndpoints.CleanupMeaning | srv/src/auth/auth-code.service.ts:144-160 | the cleanup job takes exactly used and expired codes |
| AuthFlowRevocation.FamiliesFallTogether | srv/src/auth/refresh-token.service.ts:196-226 | in every reachable state the tokens of a family belong to one session and are all revoked or none is |
| AuthFlowRevocation.RevocationEndsFamily | srv/src/auth/token-revocation.service.ts:43-69 | after a revocation by the token's tenant, in every continuation the family stays revoked and no refresh with any of its tokens is answered |
| AuthFlowProgress.SentCodeIsExchanged | srv/src/controllers/oauth-token.controller.ts:660-713 | a code that was sent and is answered by its client, redirect URI and verifier yields one response in the session and with the scopes it was sent for, and a refresh token exactly if the client or `offline_access` allows one |
| AuthFlowProgress.RefreshAnsweredIff | srv/src/auth/token-issuance.service.ts:309-390 | in every reachable state, for any plaintext, client and requested scope: the refresh is answered if and only if the client is authenticated, owns the token, which is neither revoked nor expired, the token is unused and covers the requested scope or is used and the replay forgiven, the user may have it, the tenant's default client exists and the session is valid |
| AuthFlowProgress.RefreshOfLiveToken | srv/src/auth/token-issuance.service.ts:309-390 | in every reachable state, for a live token shown by its client: with a refused scope it is only consumed; otherwise it is rotated to a child with the same bindings, and answered if and only if the user may have it, the tenant's default client exists and the session is valid |
| AuthFlowProgress.RefreshOfUsedToken | srv/src/auth/token-issuance.service.ts:309-390 | for a used token that is neither revoked nor expired: a forgiven replay changes no table and is answered under the same conditions with the child's scopes, which are within the token's; any other replay revokes the family and is not answered |
| AuthFlowProgress.AccessTokenWithinNamedIff | srv/src/auth/auth.service.ts:268-298 | for a live token in a valid session with a default client: whatever scope is requested, the scope claim of the refreshed access token is within the scopes of the client it names, the default client, if and only if all scopes of the refresh token but `offline_access` are |
| AuthFlowProgress.ResponseWithinNamedIff | srv/src/auth/token-issuance.service.ts:331-379 | the scopes listed in the response are within that client's for every request if and only if all scopes of the refresh token are |
| AuthFlowProgress.RefreshLostWithoutDefault | srv/src/auth/token-issuance.service.ts:331-333 | a reachable state in which a refresh without a default client uses the token, stores a child and answers nothing |
| AuthFlowProgress.RefreshNamesDefault | srv/src/auth/token-issuance.service.ts:353-354 | a reachable state in which the refreshed access token names the default client and claims a scope that client may not have |
| AuthFlowProgress.RunKeepsTable | srv/src/auth/refresh-token.service.ts:69-226 | over every run of requests the table invariant of the interleaved refresh requests holds too: unique hashes, at most one child per token, parents present and used, children bound like their parents with narrower scopes |
| LogoutRuns.EndedRun | srv/src/auth/token-revocation.service.ts:81-91 | once the session is invalidated, no request joins those past their session check, and only those are answered, in any interleaving |
| LogoutRuns.StillAnsweredIff | srv/src/auth/token-issuance.service.ts:180-257 | after the invalidation, a request can still be answered for the session in some continuation if and only if it had passed its session check |
| LogoutRuns.LogoutTokensIff | srv/src/auth/token-revocation.service.ts:81-91 | with the session invalidated and its tokens revoked, an unrevoked token of it can appear in some continuation if and only if a refresh can still insert a child or a request past its session check has yet to store its first token |
| LogoutRuns.LogoutFinalIff | srv/src/auth/token-revocation.service.ts:81-91 | both for a whole logout, whatever ran between its two statements; whoever can still answer had passed the check before it began |
| LogoutRuns.ShutRun | srv/src/auth/token-revocation.service.ts:81-91 | with nobody left who can add a token, the session stays ended and its tokens revoked in every continuation |
| LogoutRuns.RunKeepsInv | srv/src/auth/refresh-token.service.ts:69-226 | every such interleaving keeps the invariant of the refresh-token table and of the refresh requests under way |
| LogoutRefinement.ExchangeIsItsSteps | srv/src/auth/token-issuance.service.ts:180-257 | session check, insert and response in a row have the tables and the answer of the one-step code exchange, after the code is redeemed |
| LogoutRefinement.PasswordIsItsSteps | srv/src/auth/token-issuance.service.ts:184-257 | so do session creation, insert and response those of the one-step password grant |
| LogoutRefinement.RefreshIsItsSteps | srv/src/auth/token-issuance.service.ts:309-390 | so do the statements of the rotation, session check and response those of the one-step refresh |
| LogoutRefinement.AuthorizeIsItsSteps | srv/src/controllers/oauth-token.controller.ts:153-220 | where the one-step authorize request sends a code, session lookup and response in a row do so in the same session |
| LogoutRefinement.LogoutIsItsSteps | srv/src/auth/token-revocation.service.ts:81-91 | so do the statements of a logout with a sid, and of an explicit token with it, those of the one-step logout |
| AppSubscriptions.AppSubscriptionService.SubscribeToApp | srv/src/controllers/app.controller.ts:228-234 | ends for any answers, cycles included; asks every newly subscribed app with an endpoint exactly once and nobody else; ends normally only if no request failed, and the first failed one ends the call with its message in the failed row of the app asked; every exception has its grounds; leaves no pending row it created; on a normal return every reached app holds a settled row, what was reached is what the answers named, new subscriptions have no dependency cycle, and the visited guard was never taken |
| AppSubscriptions.AppSubscriptionService.SubscribeApp | srv/src/services/app-subscription.service.ts:59-133 | the same from any stage of the recursion, relative to what was visited before; an exception is recorded on the app's own new row |
| AppSubscriptions.AppSubscriptionService.CallOnboardEndpoint | srv/src/services/app-subscription.service.ts:231-296 | a failed request throws; on success every app the answer named is settled; on failure only rows of newly visited apps have changed, and failed ones carry the message |
| AppSubscriptions.AppSubscriptionService.UnsubscribeFromApp | srv/src/controllers/app.controller.ts:236-242 | ends for any answers; asks every app it takes up that has an endpoint exactly once; ends normally if and only if no request failed and every name is known; then what was reached is what the answers named, the rows that went are exactly those of reached apps that were not pending, and the user roles that went are exactly the tenant's roles of reached apps that had a settled row; after an exception the apps taken up that still have their row have the message in it and their roles |
| AppSubscriptions.AppSubscriptionService.Unsubscribe | srv/src/services/app-subscription.service.ts:135-208 | the same from any stage of the recursion; on an exception the app keeps its row with the message |
| AppSubscriptions.AppSubscriptionService.CallOffboardingEndpoint | srv/src/services/app-subscription.service.ts:303-364 | unsubscribes the apps the answer names, or fails leaving rows and roles of apps further up in place |
| AppSubscriptions.FinishKeepsGoing | srv/src/services/app-subscription.service.ts:100-112 | marking an app successful after its dependencies are settled keeps the finishing order free of dependencies on later apps |
| AppSubscriptions.OrderedHasNoCycle | srv/src/services/app-subscription.service.ts:282-293 | such an order rules out every dependency cycle |
| AppSubscriptions.GuardNeedsUnlive | srv/src/services/app-subscription.service.ts:90-93 | the visited guard can only be taken for an app whose row is neither pending nor successful |
| AppSubscriptions.DeletionFinishes | srv/src/services/app-subscription.service.ts:170-191 | deleting the row and the roles after the endpoint's apps completes the claim for the whole call |
| Roles.RoleService.AddRoles | srv/src/services/role.service.ts:367-404 | writes a row per role with the given flag, over whatever was there |
| Roles.RoleService.AddNamedRoles | srv/src/services/role.service.ts:381-403 | the same for the names that exist in the tenant; others are skipped |
| Roles.RoleService.RemoveRoles | srv/src/services/role.service.ts:323-365 | removes all rows if each is there once with the flag, and otherwise fails with a first part removed |
| Roles.RoleService.RemoveNamedRoles | srv/src/services/role.service.ts:336-361 | the same for names |
| Roles.KnownIdsMeaning | srv/src/services/role.service.ts:336-348 | names without repetition stand for exactly the tenant's roles with those names |
| Roles.RoleService.UpdateUserRoles | srv/src/services/role.service.ts:285-321 | ends normally if and only if every role to be withdrawn was granted directly; then the user holds exactly the requested names that exist, and otherwise at least those |
| Roles.UpdateIdempotent | srv/src/services/role.service.ts:285-321 | a second update with the same names changes nothing |
| Roles.UpdateKeepsTheRest | srv/src/services/role.service.ts:285-321 | rows of other users, tenants and app-owned roles stay, kept rows keep their flag, new rows are direct |
| Roles.UpdateSparesGroupRows | srv/src/services/role.service.ts:317-318 | an update that ends normally leaves the group-derived rows as they were |
| Groups.GroupService.AddRoles | srv/src/services/group.service.ts:283-323 | ends normally if and only if all names exist; then the group has the roles and every member a group row for each new one; otherwise the roles before the unknown name are stored and given to nobody |
| Groups.GroupService.RemoveRoles | srv/src/services/group.service.ts:325-357 | ends normally if and only if all names exist and the rows to take are there from a group; takes exactly members × removed roles; at an unknown name the roles before it have left the group and no row is taken; at a missing row all named roles have left it and only part of those rows is taken |
| Groups.GroupService.AddUser | srv/src/services/group.service.ts:359-391 | new members get a group row for every role of the group; an unknown address leaves members without them |
| Groups.GroupService.RemoveUser | srv/src/services/group.service.ts:393-421 | takes exactly removed members × the group's roles; the tables after an unknown address or a missing row are described in the same way |
| Groups.GroupService.DeleteById | srv/src/services/group.service.ts:122-145 | ends normally if and only if all rows of members × roles are there from groups, as with the copy right they are; then group, memberships and roles are gone and exactly members × roles is taken; otherwise the group and its members stay, without roles, and part of those rows is taken |
| Groups.RolesAddedKeepUpToDate | srv/src/services/group.service.ts:283-323 | adding roles keeps the group rows equal to the union over groups of users × roles, always |
| Groups.UsersAddedKeepUpToDate | srv/src/services/group.service.ts:359-391 | so does adding users |
| Groups.RolesRemovedUpToDateIff | srv/src/services/group.service.ts:325-357 | removing roles keeps it if and only if no other group grants a removed pair |
| Groups.UsersRemovedUpToDateIff | srv/src/services/group.service.ts:393-421 | removing users keeps it under the same condition |
| Groups.GroupDeletedUpToDateIff | srv/src/services/group.service.ts:122-145 | deleting a group keeps it if and only if no other group grants one of its pairs |
| Groups.OpUpToDateIff | srv/src/services/group.service.ts:122-421 | any group operation, direct grant, withdrawal or update that ends normally keeps the copy right if and only if nothing taken from a group is granted by another and nothing granted directly is granted by a group |
| Groups.RunKeepsUpToDate | srv/src/services/group.service.ts:122-421 | so over every run of such operations, direct ones among them, the copy is right after each |
| Groups.OpDirectIff | srv/src/services/role.service.ts:285-405 | the direct rows change by what a direct operation writes, and not at all by a group operation, if and only if no addition to a group meets a direct row |
| Groups.RunsKeepDirectRows | srv/src/services/role.service.ts:285-405 | so in every step of every such run |
| Groups.GroupRunsSpareDirectRows | srv/src/services/group.service.ts:122-421 | a run of group operations leaves exactly the direct rows there were |
| Groups.DisjointKeepsCopy | srv/src/services/group.service.ts:122-421 | while no two groups grant the same pair, every group operation meets the condition |
| Groups.GrantOverGroupRowBlocksRemoval | srv/src/services/role.service.ts:394-400 | after a direct grant over a group's pair the removal of that role from the group misses the row |
| Groups.AddThenRemoveRoles | srv/src/services/group.service.ts:283-357 | adding and removing roles restores all tables if and only if the group held none of them and no member had one in any way |
| Groups.AddThenRemoveUsers | srv/src/services/group.service.ts:359-421 | the same for users |
| Groups.AddedRolesSpareDirectRowsIff | srv/src/services/role.service.ts:394-400 | direct rows survive an addition if and only if no member had a new role directly |
| Groups.AddedUsersSpareDirectRowsIff | srv/src/services/role.service.ts:394-400 | the same for adding users |
| Groups.RemovedRolesSpareDirectRows | srv/src/services/group.service.ts:325-357 | with the copy right a removal takes only group rows, and none it needs is missing |
| Groups.RemovedUsersSpareDirectRows | srv/src/services/group.service.ts:393-421 | the same for removing users |
| Groups.InterruptedAddUpToDateIff | srv/src/services/group.service.ts:298-311 | after an addition cut short by an unknown name the copy is right if and only if the members had the stored roles from groups anyway |
| Groups.InterruptedAddUsersUpToDateIff | srv/src/services/group.service.ts:370-382 | the same after an addition of users cut short by an unknown address |
| Groups.SharedPairIsLost | srv/src/services/group.service.ts:325-357 | two groups granting one pair: removing it from one takes the shared row |
| ClientSecrets.ClientRecord.constructor | srv/src/services/client.service.ts:114-126 | a confidential client starts with one lasting secret, a public one with none |
| ClientSecrets.ClientRecord.RotateSecret | srv/src/services/client.service.ts:240-272 | every entry without expiry gets one a day ahead, other expiries stay, and a lasting entry is appended |
| ClientSecrets.ClientRecord.ValidateClientSecret | srv/src/services/client.service.ts:220-238 | accepts if and only if the client is public or some entry that is considered matches |
| ClientSecrets.RotationsKeepChain | srv/src/services/client.service.ts:240-272 | over every sequence of rotations each entry but the last expires a day after the next was created, and an expiry once set never changes |
| ClientSecrets.OneLastingSecret | srv/src/services/client.service.ts:240-272 | exactly one entry does not expire, the last |
| ClientSecrets.AcceptedSecrets | srv/src/services/client.service.ts:220-272 | a secret is considered if and only if it is the current one or was superseded no more than 24 h ago, that moment included |
| ClientSecrets.EntriesAreRotations | srv/src/services/client.service.ts:240-272 | each rotation adds one entry, which no later rotation changes but for its expiry |
| ClientSecrets.AcceptedIff | srv/src/services/client.service.ts:220-272 | after any rotations a presented secret is accepted if and only if the client never had one, or it is the current one or one replaced no more than 24 h ago |
| MailLimiter.MailService.IsRateLimitExceeded | srv/src/mail/mail.service.ts:230-274 | unknown and invalid addresses are refused without change; for a user, one call of the specified counter |
| MailLimiter.AtMostFiveADay | srv/src/mail/mail.service.ts:251-268 | for any call times, any closed 24 h span contains at most five admitted mails |
| MailLimiter.FiveInADay | srv/src/mail/mail.service.ts:251-268 | five is reached |
| MailLimiter.WindowHoldsThree | srv/src/mail/mail.service.ts:251-268 | since the limiter's window began exactly as many mails were admitted as the counter says, at most three |
| MailLimiter.AdmittedIff | srv/src/mail/mail.service.ts:251-268 | a mail is let through if and only if no window is open, the window began more than a day ago, or fewer than three went through since; and when a window begins |
| MailLimiter.LimiterRunsIff | srv/src/mail/mail.service.ts:43-59 | the limiter runs if and only if its variable is set to false or to nothing |

## Left out

- JWT signing and verification, RSA, argon2, HMAC, random generation and `CryptUtil.oneWayHash`: foreign or outside exact arithmetic; hashes and digests are injective constructors or arbitrary functions.
- HTTP, cookies, CSRF tokens, redirect URL building, logging, mail templates and providers, and the requests to app endpoints except for their answers.
- CASL abilities and permission checks, membership, subscription ambiguity and lock checks: taken as given flags.
- Database failures, deadlocks and rows deleted by cascades from users, tenants or clients.
- Collisions of generated ids, codes, plaintexts and kids. The source checks a six-digit code once and would overwrite a stored code on a second collision.
- `maxKeys` below one in the interleavings of signing keys, apart from `TrimSparesCurrentIff`.
- A negative session duration: `AuthFlow` takes `sessionSeconds` as not negative, since a password grant does not validate the session it just created.
- Interleavings inside `AuthFlow`: each request is one step there. `LogoutRuns` interleaves session checks,
  inserts and responses with a logout. It leaves open which client asks and when a request fails for another
  reason, and does not contain the codes and consents: redeeming a code is one of the steps of `AuthCodes`,
  and the code that an authorize request past its check stores is refused once it is exchanged
  (`LateTokensGetNoResponse`).
- A database driver whose raw query returns the rows of `UPDATE … RETURNING` together with a count: the
  model follows auth-code.service.ts lines 167 to 178 in reading the result as the list of rows.
- Changes to the client directory during a run.
- Limiting a code exchange to the code's own scope: a scope in the exchange request replaces it and is bounded only by the client's allowed scopes.
- Which schema error is reported when several fields of an authorization request are malformed: the model reports the response type first. Validation of the resource indicator and of the id-token hint comes in as a flag.
- `invalidateAllSessions` and `findValidSession`, which no modelled request calls, `PromptService`, and client-credentials tokens, which touch no session and no refresh token.
- The nested app lookups at app-subscription.service.ts lines 286 and 356 do not load `owner`, which lines 65 and 324 then read; the model has the owner present, as intended. The owner's technical token counts as part of the request.
- Two subscribe or unsubscribe calls for one tenant at the same time, and several subscription rows for one tenant and app.
- Roles.RoleService.AddNamedRoles: the source saves all roles at once; a new name that is repeated in the list makes two concurrent saves of one primary key, of which the second may fail. The model saves one after the other, as do the saves that do not meet on a key.
- Roles.RoleService.UpdateUserRoles: the same holds for a new name that is repeated in the requested list.
- Role names that are not unique within a tenant, and role or group operations that run at the same time.
- Scope characters outside the basic multilingual plane, whose sort order by UTF-16 units differs from the order by code.
- Normalization of mail addresses; two calls of the limiter for one user at the same time.
- Startup seeding, onboarding orchestration, admin, search and CRUD controllers, the discovery document, the CORS cache and the UI.
