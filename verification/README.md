# SecOps backend: a verified model

SecOps is a multi-tenant API: accounts with roles, refresh-token sessions, a registry of external security modules that
users launch, tickets, and notifications. This project models its stateful core and proves what the services promise
each other, over every run.

The model has three layers.

1. **Refresh-token rotation as a concurrent protocol** (`TokenTable`, `Rotation`, `RotationSafety`, `Replays`,
   `PurgeSimulation`, `Sessions`).
   Each database query of `AuthService` is one atomic step. Any number of requests are in flight, each with its own
   program counter and the possibly stale row it read. The successor is minted before the conditional update decides
   the race, so minted and issued tokens are tracked apart: a token is issued when its login inserted it, or when its
   refresh won the conditional update. `PurgeSimulation` takes a refresh as one step; `SoloRefreshIsAtomic` shows that
   this is what the protocol steps of an undisturbed refresh add up to. The pattern is refresh token rotation,
   section 4.14.2 of RFC 9700.
2. **Account state machines** (`Lockout`, `LockoutRaces`, `LockoutBounds`, `Passwords`, `AuthServices`): the
   failed-login counter and lock, one attempt at a time and interleaved; password changes, resets and the reuse window.
3. **The multi-table store** (`Schema` to `Isolation`, and `Services`): tables under RESTRICT and SET NULL foreign
   keys, the service calls as functions on the whole database, `Backend` as one transition system over those calls
   with arbitrary, possibly stale, token claims, and a global invariant. `Services` and `AuthServices` hold the
   service classes, whose methods go through the queries in order, changing fields in place, and are proved to do
   what the functions say; `Effects` states what a caller may rely on, in terms of rows before and after.

| file | contents |
|---|---|
| `Common.dfy` | optional values, results, error kinds, time |
| `TokenTable.dfy`, `Rotation.dfy` | the token table and its queries; the interleaved protocol and its inductive invariant |
| `RotationSafety.dfy`, `Replays.dfy` | what the protocol guarantees; what a replayed token leads to |
| `PurgeSimulation.dfy`, `Sessions.dfy` | what purging can and cannot change; which refreshes succeed, and how long a session lasts |
| `Lockout.dfy`, `LockoutRaces.dfy`, `LockoutBounds.dfy` | the lockout of one account, sequential and interleaved; bounds under races |
| `Passwords.dfy`, `AuthService.dfy` | password history; the credential and session classes |
| `ModuleUrl.dfy` | launch URLs: printer, parser, round trip |
| `Schema.dfy`, `Invariants.dfy`, `Deletion.dfy` | tables, foreign keys, the global invariant, ordered deletions |
| `Members.dfy`, `Tenants.dfy`, `Tickets.dfy`, `ModuleAccess.dfy` | the service calls on the store |
| `Effects.dfy` | what each call changes and what it leaves, from the caller's side |
| `Backend.dfy` | the transition system; every call keeps the invariant |
| `Membership.dfy`, `AccountHistory.dfy`, `Routing.dfy`, `TicketFlow.dfy`, `TicketNotices.dfy`, `LaunchAudit.dfy`, `NotificationLedger.dfy`, `EventStreams.dfy`, `Isolation.dfy`, `Authorization.dfy` | the properties of each area, most of them over runs |
| `Services.dfy` | the service classes over a mutable database |

## Assumptions

- A raw refresh token, its hash and its row id are identified: raw values are fresh random strings and the hash is
  injective. Clients present issued raw values or strings that match no row. Ids, raw values and families are fresh;
  in the store, `nextId` stands for fresh UUIDs.
- Each query and each `$transaction` is one atomic step. The clock never runs backwards, and a timestamp a query writes
  was read at or before the moment it is written.
- A password digest verifies exactly the password it was made from; two digests of one password differ by a salt.
  History timestamps of one account are distinct.
- Access token claims are arbitrary unless a property says they are current, which means equal to the caller's row, or
  genuine, which means signed for that account in that tenant. Genuine claims stay so (`GenuineForever`).
- The recipients query may return its accounts in any order; that order is an argument of the call. Whether the reuse
  check refuses a reset is an argument in the store model and computed in `Passwords`.

## Where the code and its documentation disagree

The model follows the code.

- The comment at `src/auth/auth.service.ts:163-167` says deleting an expired row loses nothing. It loses the detection
  of that token's replay: `PurgeCommutesIff` gives the exact condition, and `PurgingForgetsReplays` a refresh that is
  accepted only because of the purge. No acceptance is lost (`PurgingIsOneWaySimulation`).
- The repository's `README.md:95` says the last Admin of a tenant cannot be deleted. `removeUserForTenant` has no count
  check, so this rests on the caller's token being current. `AdministeredIffSparing` gives the exact condition, and
  `StaleTokenFromSeed` four calls from any seed that leave a tenant without an Admin.
- The repository's `README.md:173` says five consecutive failed logins lock an account for fifteen minutes. Under
  concurrency the lock may end earlier after a counted failure: `LockCoversIff` gives the exact condition on the
  schedule, `LateWriteShortensTheLock` a run from the start, and `RacedGuessBound` how many guesses such races can win.
  The counter is not cleared when a lock runs out, so each further failure locks again at once, which is what makes the
  guess bound hold.
- The message at `src/users/users.service.ts:473` speaks of the current or last 5 passwords. The check covers the last
  five including the current one, as the repository's `README.md:178` says: `ReusedIffRecent` is exact.
- The comment at `src/tenants/tenants.service.ts:191` says every tenantId foreign key is RESTRICT. `User.tenantId` is
  ON DELETE SET NULL (`prisma/migrations/20260701180540_init/migration.sql:59`), and the model has it so.

## Model

| member | source | states |
|---|---|---|
| Rotation.RunKeepsInv | src/auth/auth.service.ts:91-176 | in every interleaving of logins, refreshes, logouts, purges and user deletions the protocol invariant holds: rows agree with what was minted, each family's issued tokens form a linked chain with one owner and nondecreasing expiry, and every request in flight holds a snapshot and a successor it may rely on |
| RotationSafety.AtMostOneLive | src/auth/auth.service.ts:126-144 | in every reachable state a family has at most one issued, unrevoked token, however many requests hold stale reads or unissued successors |
| RotationSafety.NothingComesBack | src/auth/auth.service.ts:121-136 | a step makes an issued token of an existing family live only by exchanging a live one of the same family |
| RotationSafety.DeathIsAbsorbing | src/auth/auth.service.ts:101-107 | once a family has no live issued token it never has one again, and no conditional update in it succeeds again, requests already in flight included |
| RotationSafety.KillLeavesFamilyDead | src/auth/auth.service.ts:138-144 | the kill after a replay or a lost race leaves the family dead, even with successors minted and not yet issued |
| RotationSafety.LogoutLeavesFamilyDead | src/auth/auth.service.ts:154-161 | logging out of the live token leaves its family dead |
| RotationSafety.RevocationIsFinal | src/auth/auth.service.ts:102-105 | `revokedAt` and the replacement pointer never change once the token is revoked, and a deleted row never comes back |
| RotationSafety.ExchangedAtMostOnce | src/auth/auth.service.ts:133-136 | over any run at most one conditional update on a token succeeds |
| RotationSafety.ReplacementIsInjective | src/auth/auth.service.ts:135 | no two rows name the same successor |
| RotationSafety.PointerIsNext | src/auth/auth.service.ts:121-136 | a replacement pointer leads from a token to the one issued next in its family |
| RotationSafety.PointersSpellTheChain | src/auth/auth.service.ts:121-136 | from any stored token of a family, k pointers lead to the token issued k places later, and the walk ends at the last issued token |
| RotationSafety.PointersAreAcyclic | src/auth/auth.service.ts:135 | following pointers never returns to the start |
| RotationSafety.FamiliesArePaths | src/auth/auth.service.ts:168-172 | in every reachable state the stored tokens of a family are a suffix of its chain, all but the last are revoked, and expiry never decreases along it |
| RotationSafety.SoloRefreshIsAtomic | src/auth/auth.service.ts:91-152 | the protocol steps of an undisturbed refresh have the outcome and the table of the one-step refresh |
| RotationSafety.SoloLoginIsAtomic | src/auth/auth.service.ts:76-85 | a login that runs alone adds one token of a new family that lives seven days, or is rejected when the account is gone |
| Replays.ReplayKillsTheFamily | src/auth/auth.service.ts:101-107 | a request that read a revoked row is never accepted, whatever interleaves, and finishes only with the whole family dead |
| Replays.LostRaceKillsTheFamily | src/auth/auth.service.ts:126-144 | of two requests with one token at or past the conditional update at most one is accepted in any continuation, and once both have finished the family is dead |
| Replays.TwoRefreshesOneToken | src/auth/auth.service.ts:126-144 | the same for every run from the start that brings two requests with one token to their conditional updates |
| PurgeSimulation.PurgingLosesNoAcceptance | src/auth/auth.service.ts:163-176 | from related states, each refresh the purge-free run accepts is accepted with the same successor in the run with purges |
| PurgeSimulation.PurgingIsOneWaySimulation | src/auth/auth.service.ts:163-176 | from an empty table, for every run with purges anywhere: no acceptance is lost to them |
| PurgeSimulation.PurgedRowWasUseless | src/auth/auth.service.ts:166-172 | a purged row could not have been refreshed at that moment or later |
| PurgeSimulation.PurgeCommutesIff | src/auth/auth.service.ts:163-172 | purging before and after a refresh agree exactly when the presented token is not a revoked, expired one whose family still has a live token |
| PurgeSimulation.PurgingForgetsReplays | src/auth/auth.service.ts:101-107 | whenever that condition fails with an owner present, a replay followed by a refresh is answered differently with the purge: the refresh is accepted |
| PurgeSimulation.ReplaysAreForgotten | src/auth/auth.service.ts:163-172 | a login, a refresh and a wait past the first token's expiry reach such a state |
| Sessions.RefreshIff | src/auth/auth.service.ts:91-152 | a refresh taken as one step is accepted exactly for a live, unexpired token of an existing owner; the rows it leaves, column by column, in each case |
| Sessions.TokenLasts | src/auth/auth.service.ts:91-152 | whatever else happens, replays, logouts and purges included, a live token that nobody presents is accepted later exactly if it has not expired by then and its owner has not been removed meanwhile |
| Sessions.LoginLastsAWeek | src/auth/auth.service.ts:76-85 | a login's token is accepted up to seven days later, to the millisecond, and not after |
| Sessions.SessionLivesOn | src/auth/auth.service.ts:87-152 | over any sequence of refreshes by its one client, with anything happening elsewhere between them, all are accepted exactly if none comes more than seven days after the one before |
| Lockout.GuessBound | src/auth/auth.service.ts:43-74 | from a zero counter, with no success and no reset, at most 5 + floor(T / 15 minutes) wrong passwords are counted within time T of the first |
| Lockout.GuessBoundIsTight | src/auth/auth.service.ts:185-198 | for every n some run has 5 + n wrong passwords counted within n times 15 minutes |
| Lockout.CountedFailuresAreSpaced | src/auth/auth.service.ts:192-197 | from the failure that reaches the threshold on, counted failures are at least 15 minutes apart |
| Lockout.CounterCounts | src/auth/auth.service.ts:185-190 | without success or reset the counter is the number of counted failures |
| Lockout.LockedAttemptsChangeNothing | src/auth/auth.service.ts:54-60 | an attempt during a lock is refused and changes nothing, with either password |
| Lockout.VerdictFollowsHistory | src/auth/auth.service.ts:43-74 | an attempt is ignored exactly within 15 minutes of the last of at least five failures counted since the last success, and otherwise succeeds exactly with the right password |
| Lockout.LockFollowsHistory | src/auth/auth.service.ts:43-74 | over any run, successes included, the counter is the number of failures counted since the last success, and a lock is set exactly if those are at least five, ending 15 minutes after the last |
| LockoutRaces.NeverUnderCounts | src/auth/auth.service.ts:182-190 | in every interleaving of failed attempts the counter equals the number of requests that found the account unlocked and have sent their increment, each counted once |
| LockoutRaces.SoloAttemptIsValidate | src/auth/auth.service.ts:43-74 | the steps of a wrong attempt that runs alone leave counter and lock as the sequential machine does |
| LockoutRaces.LockCoversIff | src/auth/auth.service.ts:192-197 | with five failures counted and no lock write outstanding the account is locked, and the lock ends at least 15 minutes after every counted failure from the fifth on exactly when, between the stamp of the last write and the write, no failure was counted after a tick of the clock |
| LockoutRaces.PromptLocksCover | src/auth/auth.service.ts:192-197 | when lock writes land without delay the lock covers every counted failure from the fifth on |
| LockoutBounds.LateWriteShortensTheLock | src/auth/auth.service.ts:192-197 | a schedule from the start leaves six failures counted, nothing outstanding, and a lock that ends 10 minutes after the sixth |
| LockoutBounds.RacedGuessBound | src/auth/auth.service.ts:43-74 | in every interleaving, until 15 minutes after the fifth failure the wrong passwords counted are at most five plus the attempts in flight when the first lock write landed |
| Passwords.ReusedIffRecent | src/users/users.service.ts:462-494 | a password is refused exactly when it is one of the last five the account had, the current one included |
| Passwords.TakeLatestIsSuffix | src/users/users.service.ts:477-481 | on a history in time order the query returns its last rows, newest first |
| Passwords.SelfChangeIff | src/users/users.service.ts:207-250 | a self-change succeeds exactly when a change is owed, the current password is given and the new one is none of the last five; the error of each other case |
| Passwords.ResetIff | src/users/users.service.ts:434-458 | a reset succeeds exactly when the password is none of the last five; it forces a change and clears request, counter and lock |
| Passwords.HistoryIsComplete | src/users/users.service.ts:496-506 | history rows and current digest together are exactly the ordered list of all passwords the account had |
| Passwords.SelfChangeFollowsHistory | src/users/users.service.ts:207-250 | after any run on a created account, a self-change succeeds exactly when none was accepted since creation or the last accepted reset, it names the password current at that moment, and the new one is none of the last five |
| Passwords.LoginFollowsHistory | src/auth/auth.service.ts:43-74 | after any run of self-changes, resets, requests and logins, a login succeeds exactly with the current password when fewer than five failures were counted since the last success or reset or the last of them is 15 minutes old |
| Passwords.OwedIsMustChange | src/users/users.service.ts:243-247 | after any run a change is owed exactly if the last accepted replacement was a reset, or there was none and one was owed at the start |
| Passwords.ReuseWindowFromCreation | src/users/users.service.ts:237-249 | for an account created through the API, along any run, any six consecutive passwords are pairwise distinct |
| Passwords.ForcedChangesBalance | src/users/users.service.ts:220-249 | self-changes, plus a change still owed, plus resets repeated on an account already owing one, equal the change owed at the start plus the resets |
| Passwords.SelfChangesNeverExceedResets | src/users/users.service.ts:434-449 | for an API-created account, self-changes plus a change still owed never exceed 1 plus its resets |
| AuthServices.Accounts.RegisterFailedLogin | src/auth/auth.service.ts:185-198 | increments the counter and sets the lock from the fifth failure on |
| AuthServices.Accounts.ValidateUser | src/auth/auth.service.ts:43-74 | admits exactly the right password outside a lock and then leaves counter zero and no lock, every other column unchanged; a wrong one outside a lock counts one and from the fifth on locks for 15 minutes; during a lock nothing changes; an unknown email changes nothing |
| AuthServices.Accounts.IsReused | src/users/users.service.ts:462-494 | the loop over the latest history rows finds a match exactly when the password is reused |
| AuthServices.Accounts.ChangePassword | src/users/users.service.ts:207-250 | with the history in time order, succeeds exactly when a change is owed, `current` is the last password of the timeline and the new one is none of the last five; the error in each other case, changing nothing; success moves the old digest to the history, settles the change, keeps lock and request |
| AuthServices.Accounts.ApplyPasswordReset | src/users/users.service.ts:434-458 | with the history in time order, succeeds exactly when the password is none of the last five; records the old digest, forces a change, clears the pending request, the counter and the lock; a refusal changes nothing |
| AuthServices.AuthService.Login | src/auth/auth.service.ts:76-85 | succeeds exactly when the account admits the password, adding one token in a new family |
| AuthServices.AuthService.Refresh | src/auth/auth.service.ts:91-152 | run alone, succeeds exactly with a live, unexpired token of an existing owner; then the token points at a successor that lives seven days and no other row changes; a replay revokes exactly the family; the conditional update never misses |
| Effects.LogoutEndsTheSession | src/auth/auth.service.ts:155-161 | after a logout every refresh with the presented token is refused, whenever it comes; no other token changes, and a revocation time already written stays |
| AuthServices.AuthService.CleanupExpiredRefreshTokens | src/auth/auth.service.ts:168-176 | removes exactly the rows past their expiry and changes no other; the count it returns is the number removed, positive exactly when some row had expired |
| LaunchAudit.LaunchesReachTheEndpoint | src/module-access/module-access.service.ts:45-64 | once an endpoint is set, and until it is set again, over any run every launch of the module answers a URL from which exactly that endpoint is read back, and none is refused for lack of one |
| ModuleUrl.BuildModuleUrlRoundTrip | src/module-access/module-url.ts:5-15 | parsing the printed URL recovers protocol, host, port and path of every endpoint whose host has no brackets, whose port is in range and whose path starts with a slash |
| ModuleUrl.AcceptedHosts | src/module-access/dto/updateModuleEndpoint.dto.ts:17-53 | every endpoint the DTO accepts is such a one, and its host is an IPv6 literal exactly when it contains a colon and is no host name |
| ModuleUrl.BuildModuleUrlInjective | src/module-access/module-url.ts:14 | two such endpoints never share a URL |
| ModuleUrl.BracketedIffIPv6 | src/module-access/module-url.ts:11-14 | in the URL of an accepted endpoint the host stands between brackets, as section 3.2.2 of RFC 3986 asks for IPv6 literals, exactly when it is one, and bare exactly when it is a name or an IPv4 address |
| Deletion.DeletionSucceedsIff | src/tenants/tenants.service.ts:188-218 | the seven ordered deletes of a tenant meet a RESTRICT exactly when one of its users has a notification about another tenant's ticket, and otherwise leave exactly the rows that do not belong to the tenant |
| Deletion.NeverEntangled | prisma/migrations/20260928190000_tickets_and_notifications/migration.sql:59-68 | the global invariant rules that case out |
| Deletion.OthersUntouched | src/tenants/tenants.service.ts:199-213 | users, tickets, notifications and subscriptions of others and all launch audits survive a tenant deletion unchanged |
| Deletion.RestrictGuardsTickets | prisma/migrations/20260928190000_tickets_and_notifications/migration.sql:59-68 | deleting tickets is refused exactly when just removing the rows would leave a key dangling |
| Deletion.RestrictGuardsUsers | src/users/users.service.ts:403-415 | the same for accounts, whose tickets lose their creator first |
| Deletion.RestrictGuardsTenants | src/tenants/tenants.service.ts:188-218 | the same for a tenant, whose users lose it first |
| Deletion.RemovalKeepsForeignKeys | src/tenants/tenants.service.ts:191-213 | nothing dangles after a tenant deletion |
| Deletion.RemovalAlwaysSucceeds | src/users/users.service.ts:156-175 | the four deletes of a user removal never meet a RESTRICT |
| Deletion.UserRemovedKeepsInv | src/users/users.service.ts:403-415 | removing a user keeps the global invariant; their tickets stay without a creator |
| Backend.DedupeIsSet | src/tickets/notifications.service.ts:36 | deduplicated recipients are the same accounts, each once |
| Backend.DedupeKeepsOrder | src/tickets/notifications.service.ts:36 | and they keep the order in which they first occur |
| Backend.RaiseTicketKeepsInv | src/tickets/tickets.service.ts:45-96 | raising a ticket keeps the invariant that deletion needs, and its notifications never break a foreign key |
| Backend.MoveTicketKeepsInv | src/tickets/tickets.service.ts:118-160 | so does moving a ticket |
| Backend.EditKeepsInv | src/users/users.service.ts:130-154 | a profile edit keeps the invariant, emails staying unique |
| Backend.RunKeepsInv | src/tenants/tenants.service.ts:188-218 | over every run of calls with arbitrary claims: no dangling key, roles with the right tenant and level, unique emails, creators in their ticket's tenant, notified users in the ticket's tenant or in none |
| Backend.TenantDeletionAlwaysSucceeds | src/tenants/tenants.service.ts:188-218 | from every store the API reaches from the seed, deleting an existing tenant succeeds and leaves exactly the rows of others |
| Membership.AdministeredIffSparing | src/users/users.controller.ts:212-286 | over any run, with fresh or stale tokens, every tenant has an Admin throughout exactly when each deletion the route's checks let through finds another Admin in the tenant |
| Membership.EveryTenantHasAnAdmin | src/users/users.service.ts:177-205 | when deletions carry current claims every tenant keeps an Admin, exactly Admins and Analysts have a tenant, exactly Analysts a level |
| Membership.CurrentCallerSpares | src/users/users.controller.ts:275-278 | the self-target check with a current caller spares the tenant's last Admin |
| Membership.DeletionKeepsAnAdminIff | src/users/users.controller.ts:269-286 | a deletion succeeds exactly when the route's checks pass, and keeps every tenant administered exactly when, should they pass, another Admin exists |
| Membership.StaleTokenRemovesLastAdmin | src/users/users.controller.ts:269-286 | with two Admins, a demotion followed by a deletion with the demoted one's old token leaves the tenant without an Admin |
| Membership.StaleTokenFromSeed | src/users/users.controller.ts:269-286 | four calls from any seed lead there |
| Membership.ChangeRoleKeepsAdministered | src/users/users.service.ts:189-199 | a role change keeps every tenant administered whatever the caller's claims |
| Membership.ExactlyOneResetPath | src/users/users.service.ts:359-391 | for any tenant Admin either some co-Admin may reset the password or the sole-Admin path passes its count check, never both |
| Authorization.OtherRolesAreForbidden | src/auth/guards/roles.guard.ts:15-37 | every guarded route answers Forbidden, and changes nothing, for a token of a role it is not for |
| Authorization.AdminsActInTheirTenant | src/users/users.controller.ts:193-286 | whom an Admin edits, changes, deletes or resets is a member of the tenant in the Admin's token, and for all but an edit somebody else |
| Authorization.RefusalLeavesNoTrace | src/tickets/tickets.service.ts:45-160 | in every store that satisfies the invariant, a call of any kind that is answered with an error has changed nothing |
| Members.ResolveAnalystLevel | src/users/users.service.ts:20-39 | accepted, unchanged, exactly when a level is given for an Analyst and for nobody else; a refusal is a bad request |
| Routing.FirstAdminUnique | src/users/users.service.ts:267-274 | the first Admin by createdAt and id is unique |
| Routing.FirstIsEarliest | src/users/users.service.ts:267-274 | the first Admin is the one before whom no Admin of the tenant was created, nor with whom any with a smaller id |
| Routing.IndicatorsTell | src/users/users.service.ts:263-342 | an Admin's indicator is on exactly when the Admin is the tenant's earliest and another member has a pending request, the Super Admins' flag exactly when an earliest Admin has one |
| Routing.FirstAdminExists | src/users/users.service.ts:259-274 | every existing tenant with an Admin has a first one |
| Routing.RoutedExactlyOnce | src/users/users.service.ts:263-342 | each pending tenant user is counted by exactly one of the first Admin's indicator and the Super Admins' flag |
| Routing.SomeIndicatorIffSomePending | src/users/users.service.ts:297-342 | some indicator is on exactly when some tenant user or Integration Admin is pending |
| AccountHistory.PendingFollowsHistory | src/users/users.service.ts:344-458 | over any run of calls by anybody, an account's request is pending exactly if the last request of that account came after the last reset of it that succeeded |
| AccountHistory.ProvisionedAdminIsAsked | src/users/users.service.ts:257-342 | over any run in which later accounts are created later, while the Admin provisioned with a tenant is an Admin of it: that Admin's indicator shows exactly the others' pending requests and the Super Admins' flag exactly the Admin's own |
| AccountHistory.GoneForever | src/users/users.service.ts:403-415 | an account that is gone never comes back |
| Isolation.GenuineForever | src/users/users.service.ts:53-67 | over every run no account changes its tenant and no id is given out twice, so a token's account and tenant keep belonging together |
| Isolation.ForeignCallIsPrivate | src/users/users.service.ts:53-67 | a call by an Admin or Analyst of another tenant, with a current or an old token, touches none of a tenant's accounts, sessions, password history, tickets, notifications, subscriptions and launch audit |
| Isolation.TenantsAreIsolated | src/users/users.service.ts:53-67 | the same over any run of such calls |
| TicketFlow.RecipientsAreHandlers | src/tickets/tickets.service.ts:77-87 | the recipients query selects exactly those whose current claims can handle the ticket, minus the creator |
| TicketFlow.NotifyStoresOneRowEach | src/tickets/notifications.service.ts:31-52 | one unread row per distinct recipient, whatever repetitions the list has |
| TicketFlow.NewTicketNotifiesHandlers | src/tickets/tickets.service.ts:45-96 | a new ticket notifies exactly the users who can handle it minus its creator, one row each, and each of them could fetch it at that moment |
| TicketFlow.RaiseIff | src/tickets/tickets.service.ts:45-96 | who may raise what, in the order of refusals; an accepted ticket is stored open, as asked for, with a snapshot of its author, and every other ticket stays |
| TicketFlow.NewTicketIsSeenBy | src/tickets/tickets.service.ts:164-187 | a new ticket can be fetched by its author, the tenant's Admins and, if it is about a module, the Integration Admins, and by nobody else |
| TicketFlow.MoveIff | src/tickets/tickets.service.ts:118-160 | a handler may make every change of status but the one from RESOLVED to IN_PROGRESS, an author may resolve, everybody else does not find the ticket; a move sets status and mover and no other column of any ticket |
| TicketFlow.MoveTellsTheCreator | src/tickets/tickets.service.ts:151-157 | a move by somebody else leaves the creator, if there still is one, exactly one new unread row, and any other move leaves nobody any |
| TicketNotices.NoticesMatchMoves | src/tickets/tickets.service.ts:151-157 | over any run the status notices created about a ticket are exactly as many as its changes of status by others than its creator |
| TicketNotices.StepTells | src/tickets/tickets.service.ts:151-157 | in every call such a notice is created exactly for such a change, one only, and it goes to the creator |
| TicketNotices.TicketTextIsFixed | src/tickets/tickets.service.ts:63-75 | over any run a ticket keeps tenant, title, category, module and the name and email of its author as they were when it was raised |
| TicketFlow.VisibleMayActOrCreated | src/tickets/tickets.service.ts:164-187 | whoever sees a ticket may handle it or created it, so the last refusal of `updateStatus` is never reached |
| TicketFlow.AnalystsOnlyWithdraw | src/tickets/tickets.service.ts:134-145 | an Analyst's call changes only their own ticket, only to RESOLVED and never out of it |
| TicketFlow.StatusHistoryIsPath | src/tickets/tickets.service.ts:24-29 | in every run a ticket's successive statuses differ, and IN_PROGRESS never directly follows RESOLVED |
| LaunchAudit.LaunchFollowsTheRow | src/module-access/module-access.service.ts:143-174 | whatever the token says, a tenant user's launch succeeds exactly when the account is still in the token's tenant and the list for its present role and level shows the module as launchable |
| LaunchAudit.ListAgreesWithLaunch | src/module-access/module-access.service.ts:86-118 | with current claims a module is listed as launchable exactly when launching it succeeds in that state |
| LaunchAudit.LevelDecidesLaunches | src/module-access/module-levels.ts:6-23 | once the minimum level of an active, configured module is set to L1, L2 or L3, the Analysts of {L1, L2, L3}, {L2, L3} or {L3} and all Admins launch it, and everybody else of the tenant is forbidden to |
| LaunchAudit.PromotionKeepsLaunches | src/module-access/module-access.service.ts:163-166 | an Analyst raised by a level, or to Admin, can launch everything launched before |
| LaunchAudit.StepAudits | src/module-access/module-access.service.ts:185-194 | a successful launch adds exactly one audit row, no other call adds or removes any |
| LaunchAudit.AuditMatchesLaunches | src/module-access/module-access.service.ts:185-197 | over any run audit rows match successful launches one to one and in order, each with the URL returned |
| NotificationLedger.InsertBalances | src/tickets/notifications.service.ts:41-44 | storing notifications adds to a user's unread rows exactly the new rows addressed to them |
| NotificationLedger.MarkReadIsExact | src/tickets/notifications.service.ts:68-84 | marking one read changes at most that row of the caller, and the count returned is the new unread count |
| NotificationLedger.MarkAllReadIsExact | src/tickets/notifications.service.ts:86-92 | marking all leaves the caller nothing unread, so the constant zero is exact, and no other user's rows change |
| NotificationLedger.StepBalances | src/tickets/notifications.service.ts:31-99 | one call: unread after, plus read, plus deleted, equals unread before plus rows created, for every user |
| NotificationLedger.LedgerBalances | src/tickets/notifications.service.ts:94-99 | the same over whole runs |
| EventStreams.StepAnnounces | src/tickets/notifications.service.ts:46-51 | every call appends to the event log exactly one event per row it creates, with the row's owner and in the order of the rows, and nothing else |
| EventStreams.RunSettles | src/tickets/notifications.service.ts:68-92 | along a run stored notifications only go away or get their one read mark, and no id is used again |
| EventStreams.ReadIsFinal | src/tickets/notifications.service.ts:68-73 | `readAt` is written once |
| EventStreams.StreamIsFilter | src/events/events.service.ts:30-33 | the filtered log holds exactly the user's events, in order |
| EventStreams.StreamCarriesOwnRows | src/events/events.service.ts:19-35 | a stream opened now carries by the end of any run exactly the rows created for its user since, those deleted again included, each once and in order |
| EventStreams.StreamLengthIsCreated | src/events/events.service.ts:19-35 | its length is the ledger's count of rows created |
| Services.Database.FindFirstAdmin | src/users/users.service.ts:267-274 | no Admin of the tenant has an earlier createdAt than the one returned, none with the same createdAt a smaller id; nothing is returned exactly when the tenant has no Admin |
| Services.TenantsService.CreateTenantWithAdmin | src/tenants/tenants.service.ts:24-61 | succeeds exactly when the email is free; then one tenant and its one Admin, as asked for, are all that is new, otherwise nothing is |
| Services.TenantsService.DeleteTenantWithUsers | src/tenants/tenants.service.ts:188-218 | the ordered deletes, rolled back when one is refused, do what the store model says |
| Effects.ActivationStartsAtTheDefault | src/tenants/tenants.service.ts:106-131 | succeeds exactly once per module of an existing tenant; from then on Admins have it, and Analysts of all levels for CTI and VM, of L2 and L3 for SIEM and EDR, of L3 for SOAR and DFIR; no other tenant sees a change |
| Effects.SwitchKeepsTheLevel | src/tenants/tenants.service.ts:133-156 | switching a module off closes it to everybody, switching it on opens it to Admins and the Analysts of its level, and no other tenant sees a change |
| Effects.RemovalClosesTheModule | src/tenants/tenants.service.ts:158-179 | removing a subscription closes the module to everybody in the tenant and lets it be activated afresh |
| Effects.CreateUserCreatesOne | src/users/users.service.ts:89-128 | succeeds exactly when the role is creatable, the level fits, the email is free and the tenant exists, with the error of each other case; adds that one account as asked for, with a new id, nothing pending and emails still distinct, and touches no other row |
| Effects.AdminAddsToOwnTenant | src/users/users.controller.ts:129-147 | an Admin adds Admins and Analysts only, and only to the tenant of the token; the refusal in each other case |
| Effects.EditChangesTheProfile | src/users/users.service.ts:130-154 | who may edit whom; changes just the given ones of email and name of that account; an email of somebody else is refused |
| Services.UsersService.RemoveUserForTenant | src/users/users.service.ts:156-175 | succeeds exactly on a member of the tenant, the four deletes needing no rollback; every trace of the account is gone and every other row is as it was |
| Effects.RoleChangeSparesAnAdmin | src/users/users.service.ts:177-205 | succeeds exactly when the level fits, the account is of the tenant and a demotion leaves another Admin; changes only role and level of that member; a tenant that had an Admin still has one, and no other tenant's Admins change |
| Services.UsersService.HasPendingFirstAdminRequest | src/users/users.service.ts:321-342 | the search loop answers true exactly when some Admin with a pending request is the earliest Admin of its tenant, by createdAt and then by id |
| Services.UsersService.HasPendingPasswordRequestsForAdmin | src/users/users.service.ts:263-290 | true exactly when the caller is the tenant's earliest Admin and another member of the tenant has a pending request |
| Effects.RoleChangeStaysInTenant | src/users/users.controller.ts:212-233 | when the route's checks pass, the outcome is that of the role change, otherwise its refusal; an Admin's own row never changes, the changed row is well formed, and every tenant that had an Admin still has one |
| Effects.ResetGoesThroughIff | src/users/users.controller.ts:235-267 | a reset goes through exactly for an Admin on a colleague in the tenant or a Super Admin on the only Admin of a tenant; it clears the request and adds one history row of that account |
| Effects.IntegrationResetGoesThroughIff | src/users/users.service.ts:417-433 | the same for Integration Admins |
| Effects.ForgottenPasswordIsRecorded | src/users/users.service.ts:344-357 | the public route always answers alike; it records a request exactly for the account of that email, unless a Super Admin's |
| Effects.DeletionForgetsTheUser | src/users/users.controller.ts:269-286 | succeeds exactly when the route's checks pass; then no table names the account any more, its tickets keep their text, and all other accounts, sessions and notifications stay |
| Effects.IntegrationAdminIsForgotten | src/users/users.service.ts:403-415 | exactly Integration Admins are removed this way, and no table names the account afterwards |
| Services.NotificationsService.Notify | src/tickets/notifications.service.ts:31-52 | dedupe, store and emit as the store model says, one event per row in row order |
| Effects.MarkReadReadsOne | src/tickets/notifications.service.ts:68-84 | succeeds exactly on a notification of the caller, which is read afterwards, since now or since an earlier mark; no other row changes; answers the new unread count |
| Effects.MarkAllReadReadsOwn | src/tickets/notifications.service.ts:86-92 | reads exactly the caller's rows, earlier read marks kept, and the zero it answers is their new unread count |
| Services.TicketsService.Create | src/tickets/tickets.service.ts:45-96 | in every store that satisfies the global invariant: who may raise what; one new open ticket as asked for, with the snapshot of its author; one unread row for each of exactly those, author excepted, whose accounts handle such tickets |
| Services.TicketsService.UpdateStatus | src/tickets/tickets.service.ts:118-160 | in every store that satisfies the global invariant: who may move what, and the refusal in each other case; a move sets status and mover and nothing else of any ticket; the creator gets exactly one row if it exists and is not the mover, and otherwise no row is created |
| Services.ModuleAccessService.ListForUser | src/module-access/module-access.service.ts:86-118 | exactly the active modules, for an Admin all and for an Analyst those whose minimum level names that level among {L1, L2, L3}, {L2, L3} or {L3}; each once, in enum order, launchable exactly when it has a URL |
| Effects.LaunchRecordsOne | src/module-access/module-access.service.ts:143-197 | which launches succeed and which refusal the others get, the level order written out; a success leaves one audit row with the account's present email and role, the tenant, and the URL answered; a refused one leaves nothing |
| Effects.SetMinLevelIsPrivate | src/module-access/module-access.service.ts:120-141 | who may set it; an active module is then for Admins and exactly the Analysts of {L1, L2, L3}, {L2, L3} or {L3}, an inactive one stays closed, and no other tenant sees a change |
| Effects.EndpointIsSet | src/module-access/module-access.service.ts:45-64 | only an Integration Admin sets an endpoint, only to an acceptable value, and only the one named |

## Left out

- Passwords.ReuseWindowFromCreation: changes of one account are taken one at a time; the check and the write of two concurrent changes are not interleaved, because the source does not make them atomic.
- Membership.EveryTenantHasAnAdmin: sequential; two concurrent demotions can both pass the count check, which the source does not guard against.
- Routing.SomeIndicatorIffSomePending: Super Admins' own pending requests are excluded, since the source routes them nowhere.
- Lockout.GuessBound: sequential attempts only; the bound for concurrent attempts, up to 15 minutes after the fifth failure, is `LockoutBounds.RacedGuessBound`.
- Concurrent ticket updates and concurrent password resets: each is a read followed by an unconditional write, so their properties are stated for calls taken one at a time.
- The credential columns of an account and its other columns are separate models: `Passwords` and `Lockout` hold the former, the store the latter, with owner-only token and history rows.
- The guard that blocks other routes while a password change is forced, and the checks on request bodies, except the role of a created or changed user and the endpoint fields that printing a URL needs.
- JWT signing, argon2, SHA-256 and random values: freshness and injectivity are assumed. The equal timing of the dummy hash is not expressible.
- Rate limiting, cookies, headers, the TCP connection probe and the health check: library and network code.
- Tenant rename, telephone numbers, paginated and plain reads, ticket descriptions and who last edited an endpoint: they change nothing the properties speak of.
- Isolation.TenantsAreIsolated: calls by Super Admins and Integration Admins, logins and the public forgot-password route act across tenants by design and are not covered.
- The emitter is one global log of events and a stream is the part of the log since it was opened; reconnection is not modelled.
