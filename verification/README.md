# Tinta backend: verified models of its state machines

A Dafny model of the parts of the backend whose promises only hold over whole
runs, and proofs of those promises. `dafny verify dfyconfig.toml` checks all of
it.

| component | files | form |
|---|---|---|
| Notification outbox: policy, table, dispatcher, leases | `DeliveryPolicy`, `Outbox`, `Dispatcher`, `OutboxProtocol`, `OutboxTheorems` | classes for the table and one dispatcher; a step relation for any number of dispatchers, crashes and late records |
| Telegram sender and templates | `TelegramSender`, `Markup`, `Templates` | the send loop as a method; string functions |
| Audit hash chain | `AuditJson`, `AuditLedger`, `AuditAppends` | the hash is an arbitrary function; results read "or these two texts collide" |
| Sliding sessions and revocation | `Sessions`, `SessionRuns` | the service as a class; runs of requests, logouts, cleanups and password changes |
| Support access | `AccessLifecycle`, `AccessServers`, `AccessEvents`, `AccessRetention`, `AccessService` | complete calls, and deletions of users and servers, as steps; the tables as a class proved against them |
| Idempotent provisioning | `Provisioning` | the service as a class; claims as two steps in any interleaving |
| Sockets by session and presence | `Presence` | the two services as classes, the sets of sockets as shared objects; runs in which a handshake may finish late |
| Pending diagnostics | `Diagnostics` | the gateway's map as a class; runs with timers |
| Install links, tickets | `InstallLinks`, `Tickets` | services as classes; runs of complete calls |

Every class is proved against specification functions, and the theorems about
runs are about the same functions. `Prelude` holds the shared types.

## What the code does, where it may surprise

- A dispatcher that outlasts its lease records without a check and turns a row
  that another one delivered back into a pending one
  (`OutboxTheorems.LateRecordReopensSentRow`). The lease properties therefore
  assume that a live dispatcher records before `lockedUntil`. The sender's
  budget leaves 75 s of the lease for the two latencies around a send, and the
  properties hold exactly while those fit
  (`OutboxTheorems.LeaseIsSafeIffLatenciesFit`).
- The metadata of GRANTED events is hashed in an order in which a `jsonb`
  column does not return it: section 8.14.4 of the PostgreSQL documentation
  notes that shorter keys are stored first, and `durationMinutes` is written
  before `reasonCode`. A ledger with one grant therefore does not verify after
  it is read back, although nothing was altered
  (`AuditLedger.GrantBreaksTheChain`). The comment at
  `backend/src/access/audit-log.service.ts:84-85` promises detection of altered
  or deleted rows; the model follows the code. Altering the last row, or
  cutting off the tail, is not detected (`AuditLedger.LastRowCanBeRewritten`,
  `AuditLedger.PrefixVerifies`).
- `recordSecurityAnomaly` writes the event twice when the first transaction
  commits but its answer is lost (`AuditAppends.AuditLog.RecordSecurityAnomaly`).
- The 60 s revocation margin is enough exactly while insert latency, longest
  request and the 3 s check sum to at most 60,001 ms
  (`SessionRuns.NoAcceptAfterLogout`, `SessionRuns.InsufficientMarginAccepts`).
- `claim` of a provisioning operation can reach the branch its comment calls
  unreachable: exactly when the owner's `fail` falls between its two statements
  and nobody reopens the row before the second
  (`Provisioning.ThrowsIffFailedBetween`).
- Deleting a user removes every access log the user granted or connected to,
  open ones too, and leaves `accessEnabled` as it is
  (`backend/src/users/users.service.ts:137-141`). `grantAccess` enables the
  server before it stores the log
  (`backend/src/access/access.service.ts:115-128`), and the database refuses the
  log of a ticket that does not exist or of details over 280 characters.
  Deleting a server removes its logs first and is refused while a ticket or a
  provisioning operation refers to it
  (`backend/src/servers/servers.service.ts:292-297`). Each of the three can
  leave access enabled without a log, the state that
  `backend/src/diagnostics/diagnostic-checks.ts:394-397` takes for a corruption;
  `AccessServers.NeverInconsistent` says exactly when none of them does.
- A grant whose details hold half a surrogate pair is stored and open, but has
  no GRANTED event, because a `jsonb` column refuses its escape
  (`AccessLifecycle.LostIff`, `AccessEvents.AGrantWithoutItsEvent`).
- A second registration of the same agent replaces its socket in the gateway's
  map and leaves the first connected; a later token rotation closes only the
  one in the map. The same goes for an agent whose session was deleted with the
  client's last server (`InstallLinks.ConnectedAgentsHoldTheCurrentToken`).
- A grant does not close an earlier open log; a revoke closes it without an
  event of its own (`AccessEvents.EndsWithEventIff`).
- A handshake that finishes after its socket closed leaves its user online for
  good; presence is exact if and only if that never happens
  (`Presence.PresenceIsExactIff`).
- The consent recorded for one install link opens every later link of the same
  client (`InstallLinks.ConsentOutlivesItsLink`).

## Assumptions

- One clock. SQL statements, transactions, the advisory lock and
  `FOR UPDATE SKIP LOCKED` are atomic as PostgreSQL promises. In the
  interleaved model a claim may take any claimable row; the table model takes
  the first by priority and due time.
- Timers are exact and code between two awaits takes no time. A prompt
  dispatcher spends at most the sender's 45 s between the start and the end of a
  send.
- Random tokens, ids and UUIDs do not repeat. Agent tokens may: two tokens
  signed in one second are equal.
- Token expiry and issue time follow sections 4.1.4 and 4.1.6 of RFC 7519; all
  tokens share one TTL in `SessionRuns`.
- Access calls run one after the other and take at least one millisecond each,
  so grant times differ. A call ends early only where the database refuses a
  statement for its data; crashes and outages between two statements of an
  access, install or ticket call are not part of the model.
- A user who makes a call exists until the call ends.
- Only the owner of a provisioning operation calls `advanceStep`, `complete`
  and `fail`.
- The fixed wording of notifications contains no `&`, `<` or `>`; dates arrive
  already formatted.
- Storage order of `jsonb` keys is the predicate `AuditLedger.StoresInKeyOrder`,
  a hypothesis of the lemmas that need it.

## Model

| member | source | states |
|---|---|---|
| Outbox.OutboxTable.Enqueue | backend/src/notifications/notifications.service.ts:42-55 | a new row is pending, due now, unlocked, with the policy of its event type |
| Outbox.OutboxTable.Claim | backend/src/notifications/notification-dispatcher.ts:78-99 | returns nothing exactly when no row is claimable; otherwise a claimable row, first by priority and due time, now leased for 120 s with one more attempt; nothing else changes |
| Outbox.OutboxTable.Record | backend/src/notifications/notification-dispatcher.ts:138-176 | the recording transaction: history row and row update both, or neither when the row is gone; no lease check |
| Outbox.OutboxTable.Purge | backend/src/notifications/notification-dispatcher.ts:194-208 | removes exactly the sent rows past 90 days and changes no other; of the history, exactly the lines past 90 days and those of removed rows |
| Outbox.DeliveriesFinish | backend/src/notifications/notification-dispatcher.ts:101-136 | from any row state, max(1, maxAttempts - attempts) crash-free deliveries end in `sent` or `failed`, whatever each send answers |
| Outbox.FewerDeliveriesDoNot | backend/src/notifications/notification-dispatcher.ts:130-134 | that number is exact: with a failing sender no shorter series finishes the row |
| Outbox.UnfinishedBecomesClaimable | backend/src/notifications/notification-dispatcher.ts:86-87 | a row in which `processing` goes with a lease is claimable from some time on, unless finished, and then never |
| DeliveryPolicy.RetryHasItsOwnBackoff | backend/src/notifications/notification-policy.ts:56-62 | every attempt below maxAttempts has its own back-off entry, so the index clamp never decides |
| DeliveryPolicy.UrgentIsTriedHarder | backend/src/notifications/notification-policy.ts:21-53 | security alerts come first, then offline agents, then provisioning, then the rest; the more urgent is tried more often; no retry waits less than the one before |
| OutboxTheorems.NoRowGetsStuck | backend/src/notifications/notification-dispatcher.ts:78-176 | in every reachable state: `processing` exactly with a lease, `failed` only with attempts used up, every unfinished row becomes claimable and is finished by enough deliveries |
| OutboxTheorems.SendsAreTries | backend/src/notifications/notification-dispatcher.ts:101-119 | calls of sender.send for a row are as many as its distinct attempt numbers that reached it |
| OutboxTheorems.HttpPerAttempt | backend/src/notifications/telegram-sender.ts:53-112 | at most three HTTP calls per attempt number over the whole run, because the calls of one send are a valid call sequence of the sender |
| OutboxTheorems.SendsAndCallsBounded | backend/src/notifications/notification-dispatcher.ts:82 | no timing assumption: over any run with crashes, expired leases and late records, at most maxAttempts sends and 3 x maxAttempts HTTP calls per row |
| OutboxTheorems.SentMeansAnswered | backend/src/notifications/notification-dispatcher.ts:130-135 | no timing assumption: a row is marked sent only after a send of it succeeded |
| OutboxTheorems.RowsChangeByStatements | backend/src/notifications/notification-dispatcher.ts:78-208 | a row changes only by being enqueued, claimed, recorded or purged, each in the stated columns |
| OutboxTheorems.RetryWaitsItsTableEntry | backend/src/notifications/notification-dispatcher.ts:144-145 | every recorded retry is due exactly backoffMinutes[attempts - 1] later |
| OutboxTheorems.TimelyRunsKeepLeased | backend/src/notifications/notification-dispatcher.ts:83 | if live dispatchers record before `lockedUntil`, every job in memory matches the row it claimed, lease and attempt number included |
| OutboxTheorems.OneHolderPerRow | backend/src/notifications/notification-dispatcher.ts:84-90 | under the same assumption at most one live dispatcher holds a row |
| OutboxTheorems.FinishedRowsFrozen | backend/src/notifications/notification-dispatcher.ts:161-168 | under the same assumption a recorded `sent` or `failed` row never changes again; only the purge of sent rows removes it |
| OutboxTheorems.SuccessesBounded | backend/src/notifications/notification-dispatcher.ts:29 | under the same assumption the successful sends of a row number at most 1 plus its abandoned claims |
| OutboxTheorems.PromptRunsAreTimely | backend/src/notifications/notification-dispatcher.ts:10-12 | the assumption follows from the 45 s send budget when the two latencies around the send fit in the other 75 s of the lease |
| OutboxTheorems.LeaseIsSafeIffLatenciesFit | backend/src/notifications/notification-dispatcher.ts:10-12 | exactly then: over all runs of prompt dispatchers, each of one holder per row, finished rows frozen, and successes at most 1 plus abandoned claims holds if and only if the latencies fit |
| OutboxTheorems.LateRecordReopensSentRow | backend/src/notifications/notification-dispatcher.ts:161-168 | for any larger latencies a late record turns a sent row back into a pending one, or is a second success with no abandoned claim |
| Dispatcher.NotificationDispatcher.Tick | backend/src/notifications/notification-dispatcher.ts:48-76 | at most one run at a time; a tick during a run sets `rerun` and does nothing else; a run that ends well has served every tick, has a history line for each row it claimed, in that order, leaves no row in processing that was not so before, and unless its last pass reached the limit no row that could be claimed |
| Dispatcher.NotificationDispatcher.Run | backend/src/notifications/notification-dispatcher.ts:60-68 | the do-while ends only when no tick is left unserved; the deliveries of its passes add up |
| Dispatcher.NotificationDispatcher.Pass | backend/src/notifications/notification-dispatcher.ts:62-67 | at most 20 deliveries, one history line for each row claimed, in order; drained, it leaves no new lease, and short of the limit nothing claimable; a tick during it is answered by a later pass or has left `rerun` set |
| Dispatcher.NotificationDispatcher.ClaimAndDeliver | backend/src/notifications/notification-dispatcher.ts:63-66 | one claim and its delivery, or nothing claimable at that moment; what is recorded as sent was answered in that delivery |
| Dispatcher.NotificationDispatcher.Enter | backend/src/notifications/notification-dispatcher.ts:49-57 | the part of a tick before its first await: running, unconfigured, or start |
| Dispatcher.NotificationDispatcher.Deliver | backend/src/notifications/notification-dispatcher.ts:101-136 | abandoned past maxAttempts without a send, render errors reported, else sent once; outcome by result and attempts, recorded as such; only that row changes, and it leaves processing |
| Dispatcher.StillServed | backend/src/notifications/notification-dispatcher.ts:48-76 | a new pass serves every earlier tick; no other mark un-serves one |
| TelegramSender.Send | backend/src/notifications/telegram-sender.ts:53-112 | for every sequence of errors, durations and retry_after values: one to three calls inside 45 s; a call succeeded exactly if its reply came before its timeout without an error, a late reply is a timeout, and the send succeeded exactly if one of its calls did |
| TelegramSender.CallsInNumbers | backend/src/notifications/telegram-sender.ts:57-109 | each call of a send gets 3 to 10 s within the 45 s, the first is formatted and at once, and each later one starts after the wait and in the text that the error before it demands |
| TelegramSender.EndInNumbers | backend/src/notifications/telegram-sender.ts:81-105 | the reported code is the last error after three calls, else that of a wait over 30 s or of a wait that leaves less than 3 s |
| TelegramSender.CodesTellApart | backend/src/notifications/telegram-sender.ts:138-154 | each code is reported exactly for its kind of error |
| TelegramSender.AfterFailure | backend/src/notifications/telegram-sender.ts:72-109 | calls again exactly when attempts, retry_after and budget allow, after the stated wait, and otherwise gives up with the code of the reason |
| TelegramSender.HttpCall | backend/src/notifications/telegram-sender.ts:62-67 | one call raced against its timeout: an answer counts only before it, a late one is the failure "timeout" |
| TelegramSender.PlainStays | backend/src/notifications/telegram-sender.ts:95-98 | once plain, every later call is plain |
| TelegramSender.ClampIdle | backend/src/notifications/telegram-sender.ts:66 | max(1, ...) never decides a timeout |
| TelegramSender.BudgetOnlyBindsUnderRateLimits | backend/src/notifications/telegram-sender.ts:95-105 | without rate limits a failed send has used three calls, the first formatted and the others plain, within 32 s |
| TelegramSender.BudgetCanBeUsedUp | backend/src/notifications/telegram-sender.ts:57-109 | the 45 s are met: some send ends exactly at its deadline |
| Markup.PlainOfEscaped | backend/src/notifications/telegram-sender.ts:122-128 | htmlToPlain(esc(s)) = s for every string |
| Markup.UnescapeUndoesEsc | backend/src/notifications/notification-templates.ts:129-134 | the three unescape passes, in their order, undo the three escape passes for every string |
| Markup.EscIsSubst | backend/src/notifications/notification-templates.ts:129-134 | the three escape passes together replace each character on its own |
| Markup.StripConcat | backend/src/notifications/telegram-sender.ts:124 | stripping tags works part by part on text whose first part leaves no tag open |
| Markup.TagsInWords | backend/src/notifications/telegram-sender.ts:124 | a tag goes from a `<` to the next `>` with something between; an empty pair and an unclosed `<` are text |
| Templates.NotificationShown | backend/src/notifications/notification-templates.ts:43-126 | every notification, stripped of tags and unescaped, is its template text with the payload values as they are |
| Templates.PlainFallbackRestoresText | backend/src/notifications/notification-templates.ts:43-54 | the plain fallback of any notification restores every payload value exactly, whatever it contains |
| Templates.AnomalySays | backend/src/notifications/notification-templates.ts:58-72 | the alert names client and server after their labels, or says that they are unknown, and lists the details |
| Templates.EveryDetailIsALine | backend/src/notifications/notification-templates.ts:60-62 | each detail has a bullet |
| Templates.ProvisioningSays | backend/src/notifications/notification-templates.ts:75-84 | each value of the payload stands after its label |
| Templates.OfflineSays | backend/src/notifications/notification-templates.ts:85-96 | likewise; an agent never seen is said to be so |
| Templates.GrantedSays | backend/src/notifications/notification-templates.ts:97-111 | likewise |
| Templates.RevokedSays | backend/src/notifications/notification-templates.ts:112-122 | likewise; an expiry and a revocation are told apart |
| Templates.NotificationSays | backend/src/notifications/notification-templates.ts:43-54 | the whole message says what its body says |
| AuditJson.JsonReadable | backend/src/access/audit-log.service.ts:19 | two JSON texts that continue to the same string are texts of the same value: stringify is uniquely readable |
| AuditJson.SameTextSameJson | backend/src/access/audit-log.service.ts:19 | equal texts, equal JSON values, key order included |
| AuditJson.QuoteCharReadsBack | backend/src/access/audit-log.service.ts:19 | every character is written so that a JSON reader (section 7 of RFC 8259) gets it back |
| AuditLedger.HashTextInjective | backend/src/access/audit-log.service.ts:11-20 | the hashed text determines every hashed field |
| AuditLedger.HashedMembers | backend/src/access/audit-log.service.ts:11-20 | the hashed object has the six members of the source, in its order |
| AuditLedger.VerifyChain | backend/src/access/audit-log.service.ts:86-108 | true exactly if every row names the hash before it and has the hash of its own fields with that name; otherwise the first broken event |
| AuditLedger.PrefixVerifies | backend/src/access/audit-log.service.ts:86-108 | every prefix of a verified ledger verifies (so a cut-off tail goes unseen) |
| AuditLedger.HashFixesHistory | backend/src/access/audit-log.service.ts:91-107 | an equal hash at two positions of two verified ledgers means equal positions and equal histories, or two of their texts collide |
| AuditLedger.SameTipSameLedger | backend/src/access/audit-log.service.ts:86-108 | two verified ledgers with the same last hash agree row by row on every hashed field, or two of their texts collide |
| AuditLedger.DeletionDetected | backend/src/access/audit-log.service.ts:84-85 | deleting any row but the last breaks verification, or yields a collision |
| AuditLedger.AlterationDetected | backend/src/access/audit-log.service.ts:84-85 | altering any row but the last, even with its own hash recomputed, breaks verification, or yields a collision |
| AuditLedger.SwapDetected | backend/src/access/audit-log.service.ts:84-85 | swapping any two rows breaks verification, or yields a collision |
| AuditLedger.InsertionDetected | backend/src/access/audit-log.service.ts:84-85 | inserting a row before any other breaks verification, or yields a collision |
| AuditLedger.LastRowCanBeRewritten | backend/src/access/audit-log.service.ts:86-108 | the last row is the exception: whatever its new content, the ledger verifies exactly when the row keeps its link and has its own hash recomputed |
| AuditLedger.VerifiesIffStable | backend/src/access/audit-log.service.ts:93-100 | a verified ledger verifies after its metadata was reloaded exactly when (up to collisions) every metadata value serialises to the same text |
| AuditLedger.HonestLedgerVerifiesIffOrdered | backend/src/access/entities/audit-event.entity.ts:51-52 | for a column that stores shorter keys first: exactly when (up to collisions) every metadata object was built in that key order |
| AuditLedger.OtherMetadataIsOrdered | backend/src/access/access.service.ts:193-198 | connect, revoke, expiry and activity metadata are built in storage order |
| AuditLedger.GrantBreaksTheChain | backend/src/access/access.service.ts:134-141 | grant metadata is not: a ledger with one grant fails verification after its reload, or yields a collision |
| AuditAppends.AuditLog.Append | backend/src/access/audit-log.service.ts:32-75 | a normal return adds exactly one honest row (and its alert); an aborted transaction adds nothing; the ledger still verifies |
| AuditAppends.AuditLog.RecordSecurityAnomaly | backend/src/tinta-core/tinta-agent.gateway.ts:475-539 | earlier rows stay; each normal return adds one anomaly event, two only when a commit went unacknowledged; an alert exists exactly for an event that committed with it |
| AuditAppends.InterleavedAppendsVerify | backend/src/access/audit-log.service.ts:42-74 | every interleaving of any number of appends under the lock, aborts included, commits a ledger that verifies, in sequence order, with alerts only for committed events |
| AuditAppends.EventAndAlertTogether | backend/src/access/audit-log.service.ts:28-31 | a commit publishes an event and its alert together; no other step publishes either |
| AuditAppends.AlertsAreThoseCommitted | backend/src/access/audit-log.service.ts:28-31 | over any run the ledger holds exactly the committed events, and the outbox exactly the alerts of those appended with one |
| AuditAppends.LockIsGivenBack | backend/src/access/audit-log.service.ts:43-46 | the lock is held only by a transaction at work; when it is free every transaction there is waits and can take it |
| AuditAppends.InterleavedAppendsReload | backend/src/access/audit-log.service.ts:86-108 | such a ledger read back verifies exactly when (up to collisions) all its metadata was built in storage order |
| Sessions.SessionRevocationService.AssertSessionValid | backend/src/auth/session-revocation.service.ts:57-100 | accepts exactly a token with a session id, both lookups in time, an active account, no revocation row and no later password change; 503 exactly when a lookup is late |
| Sessions.SessionRevocationService.Revoke | backend/src/auth/session-revocation.service.ts:105-154 | reports success exactly when the row is stored (or was); every listener is called once, in order, even if others throw; cleanup removes only rows past their expiry |
| Sessions.SessionRevocationService.OnRevoked | backend/src/auth/session-revocation.service.ts:52-55 | a listener is registered once |
| Sessions.SessionRevocationService.Unsubscribe | backend/src/auth/session-revocation.service.ts:54 | the function it returns removes that listener and no other |
| SessionRuns.NoAcceptAfterLogout | backend/src/auth/session-revocation.service.ts:57-154 | once a logout is stored no later check accepts that session, through re-minting by requests in flight, second logouts, row expiry, cleanup and deletion of the user with the row, if insert latency + longest request + 3 s check fit the margin |
| SessionRuns.InsufficientMarginAccepts | backend/src/auth/session-revocation.service.ts:22-25 | the bound is exact: for any larger latencies (and a TTL of at least 60 s) some run accepts a logged-out session |
| SessionRuns.PasswordChangeCutsOff | backend/src/auth/session-revocation.service.ts:90-99 | after a password change, a session with no request in flight and no token of that second or later never gets a request accepted again |
| SessionRuns.InactiveIsRefused | backend/src/auth/session-revocation.service.ts:84-86 | a token of an account that was last deactivated or deleted is never accepted |
| SessionRuns.ReissuedTokenPasses | backend/src/auth/sliding-session.interceptor.ts:57-77 | a token minted after any password change passes exactly when the account is active and the session not revoked |
| AccessLifecycle.RunsKeepInv | backend/src/access/access.service.ts:100-327 | every sequence of calls, deletions of users and servers and calls that the database stops halfway included, keeps the joint invariant of servers, logs and audit trail |
| AccessLifecycle.EveryLogHasALifecycle | backend/src/access/access.service.ts:100-327 | each log has the events granted, at most one connected, then at most one revoked or expired; where the audit trail refused the first, a mark stands in its place; revoked exactly when its password is gone |
| AccessLifecycle.LostIff | backend/src/access/access.service.ts:128-142 | a log lacks its granted event if and only if its grant carried details that its column takes and the jsonb metadata refuse |
| AccessServers.EnabledIffOpenLog | backend/src/access/access.service.ts:111-128 | all through a run a server is enabled exactly when it has an open log, with the expiry of the newest one, if and only if each grant refused at its log fell on a server whose newest open log expired at the time granted, each refused deletion found no open log, and each deletion of a user spared the newest open log or left an heir with its expiry |
| AccessServers.StepRightIff | backend/src/access/access.service.ts:100-327 | the same for one call, from any state in which the columns are right |
| AccessServers.RefusedGrantIff | backend/src/access/access.service.ts:115-128 | after a grant refused at its log the server is backed exactly when it had an open log, and right exactly when the newest expires at the time granted |
| AccessServers.ClearedIff | backend/src/servers/servers.service.ts:292-297 | after a refused deletion the columns are right exactly when there was no open log |
| AccessServers.DeletionLeavesTheExpiryIff | backend/src/users/users.service.ts:137-141 | one deletion keeps right columns right if and only if the user neither granted nor holds the newest open log, or an older one takes over with its expiry |
| AccessServers.StepKeepsServer | backend/src/access/access.service.ts:100-327 | no call but a grant refused at its log, a refused deletion of the server and a deletion of a user can make its columns wrong |
| AccessServers.NeverInconsistent | backend/src/diagnostics/diagnostic-checks.ts:393-397 | the "inconsistent" diagnosis never comes up in a run if and only if each grant refused at its log fell on a server with an open log, each refused deletion found none, and no deletion of a user took the last one from a server that stays |
| AccessServers.DeletionLeavesALogIff | backend/src/users/users.service.ts:137-141 | one deletion leaves an enabled server backed by an open log if and only if some open log is not of that user |
| AccessServers.DeletingTheHolderIsInconsistent | backend/src/users/users.service.ts:137-141 | such a run: grant, connect, delete the employee; access stays enabled without a log |
| AccessServers.RefusedGrantIsInconsistent | backend/src/access/access.service.ts:115-128 | a second: a grant that names a ticket there is not |
| AccessServers.RefusedDeletionIsInconsistent | backend/src/servers/servers.service.ts:292-297 | a third: the deletion of a server that a ticket is about |
| AccessServers.DiagnosisIsRight | backend/src/diagnostics/diagnostic-checks.ts:374-425 | where the columns are right, closed means no open log, and open means more than 15 minutes left |
| AccessLifecycle.HolderNeverChanges | backend/src/access/access.service.ts:262-268 | the employee bound to a session never changes once set |
| AccessLifecycle.ConnectIsExclusive | backend/src/access/access.service.ts:235-292 | credentials go to the bound employee only; refused exactly when there is no session or another holder, and then nothing changes |
| AccessLifecycle.ConnectInWords | backend/src/access/access.service.ts:235-291 | a connect is about the open log granted last; it binds the caller if nobody is bound, with one event, and changes nothing else |
| AccessEvents.OlderOpenLogsEndSilently | backend/src/access/access.service.ts:176-199 | a revoke closes all open logs of the server, but only the newest gets an event |
| AccessEvents.EndsWithEventIff | backend/src/access/access.service.ts:176-199 | over any run a log has its revoked or expired event if and only if it was the newest open log of its server when a call closed it |
| AccessEvents.ASilentEnd | backend/src/access/access.service.ts:176-199 | such a run: two grants and a revoke, and the older log is revoked with no event but granted |
| AccessEvents.AGrantWithoutItsEvent | backend/src/access/access.service.ts:128-142 | a run in which a log is open and its granted event missing |
| AccessLifecycle.SweepEffect | backend/src/access/access.service.ts:315-327 | the sweep revokes each overdue server of its list and leaves every other server as it is |
| AccessLifecycle.SweepClosesExactlyTheOverdue | backend/src/access/access.service.ts:315-327 | after a sweep over all servers a server lost its access exactly when it was overdue |
| AccessService.AccessService.GrantAccess | backend/src/access/access.service.ts:100-142 | the tables after a grant, also after one that throws at its log or at its event; it succeeds exactly for a known server, a ticket that exists and details that both columns take |
| AccessService.AccessService.RevokeAccess | backend/src/access/access.service.ts:170-199 | the tables after a revoke: every open log of the server closed and its password removed, one event |
| AccessService.AccessService.RecordConnection | backend/src/access/access.service.ts:235-291 | the answer and the tables after a connect |
| AccessService.AccessService.CheckAndRevokeExpired | backend/src/access/access.service.ts:315-327 | the loop over the servers read at the start is the sweep |
| AccessService.AccessService.PurgeExpiredLogs | backend/src/access/access.service.ts:300-313 | deletes exactly the closed logs without a hold created before the window, and counts them |
| AccessService.AccessService.SetRetentionHold | backend/src/access/access.service.ts:294-296 | changes the hold of that log only |
| AccessRetention.PurgeTakesExactly | backend/src/access/access.service.ts:298-313 | in any run a purge takes a log exactly if it is closed, no hold call or a lifting one was its latest, and its grant is older than the window; the others stay as they are |
| AccessRetention.HeldLogsStay | backend/src/access/access.service.ts:294-313 | a log put on hold stays through every purge until the hold is lifted or its server or a user is deleted |
| AccessService.AccessService.DeleteServer | backend/src/servers/servers.service.ts:291-297 | removes the logs of the server and, unless it is referenced, the server |
| AccessService.AccessService.DeleteUser | backend/src/users/users.service.ts:127-141 | removes the logs of the user's servers and, unless one of these is referenced, these servers and every log the user granted or connected to; no other server column changes |
| Provisioning.ProvisioningOperationsService.Claim | backend/src/provisioning/provisioning-operations.service.ts:54-112 | created exactly without a conflict, with the request stored; reopened exactly on a failed row with the same fingerprint, keeping what it had reached; otherwise an answer from the row of that principal and key, unchanged; never throws as one step |
| Provisioning.ProvisioningOperationsService.AdvanceStep | backend/src/provisioning/provisioning-operations.service.ts:118-131 | moves the cursor and binds resources of that row only |
| Provisioning.ProvisioningOperationsService.Complete | backend/src/provisioning/provisioning-operations.service.ts:137-150 | result and success in one step: no row is succeeded without a result |
| Provisioning.ProvisioningOperationsService.Fail | backend/src/provisioning/provisioning-operations.service.ts:154-168 | marks that row failed and keeps the rest |
| Provisioning.OneRowPerKey | backend/src/provisioning/provisioning-operations.service.ts:61-62 | in every run, one row per principal and non-null key |
| Provisioning.OwnersAreSeparatedByFail | backend/src/provisioning/provisioning-operations.service.ts:63-70 | over any interleaving, between two `created` or `reopened` answers for a row lies a fail of that row |
| Provisioning.SucceededIsFinal | backend/src/provisioning/provisioning-operations.service.ts:68-69 | a succeeded row never changes again |
| Provisioning.RetriesReplayTheResult | backend/src/provisioning/provisioning-operations.service.ts:86-101 | told from the events: once the operation a request created was completed with a result, every later claim that repeats the request is answered with that result, and one with another fingerprint as a mismatch, however late its second statement |
| Provisioning.AnswersTellTheStory | backend/src/provisioning/provisioning-operations.service.ts:93-111 | any repeated claim that waits is answered by what the answers and reports so far say of the operation |
| Provisioning.WaitsUnlessReopened | backend/src/provisioning/provisioning-operations.service.ts:63-70 | it waits unless it repeats the request of an operation whose last execution failed |
| Provisioning.AtomicClaimNeverThrows | backend/src/provisioning/provisioning-operations.service.ts:102-111 | with its two statements together a claim never reaches the final throw |
| Provisioning.ThrowsIffFailedBetween | backend/src/provisioning/provisioning-operations.service.ts:102-111 | as two steps it throws if and only if the fingerprints agree and a fail of that row fell between them after which nobody reopened it |
| Provisioning.ThrowIsReachable | backend/src/provisioning/provisioning-operations.service.ts:102-111 | and that run exists: the branch called unreachable is reachable |
| Presence.ServersGateway.Accept | backend/src/servers/servers.gateway.ts:70 | a socket opens, and is in neither map |
| Presence.ServersGateway.Register | backend/src/servers/servers.gateway.ts:100-106 | an authenticated socket enters the index under its session and the count of its user |
| Presence.ServersGateway.HandleDisconnect | backend/src/servers/servers.gateway.ts:112-121 | a closed socket leaves both; empty sets and zero counts are dropped, also in the middle of disconnectSession |
| Presence.ServersGateway.DisconnectSession | backend/src/servers/servers.gateway.ts:56-68 | every socket listed for the session is closed and no other, although each close re-enters handleDisconnect |
| Presence.CountUpTallies | backend/src/presence/presence.service.ts:14-16 | markOnline keeps the map equal to the sockets counted per user |
| Presence.CountDownTallies | backend/src/presence/presence.service.ts:18-22 | markOffline does too, and drops a user with none left |
| Presence.RevokeClosesEverySocket | backend/src/servers/servers.gateway.ts:56-68 | in any run no registered socket of the session survives a revocation, and no other socket is closed |
| Presence.PresenceIsExactIff | backend/src/presence/presence.service.ts:8-25 | the counts equal the live authenticated sockets per user exactly when no handshake finished after its socket had closed |
| Presence.LateHandshakeLeaks | backend/src/servers/servers.gateway.ts:70-121 | a run in which one does: a user stays online without a socket |
| Presence.ExactMeans | backend/src/presence/presence.service.ts:24-26 | then the online users are those with a live socket, and the index lists exactly the live sockets with a session |
| Presence.LeaksAreLateHandshakes | backend/src/servers/servers.gateway.ts:100-121 | a closed socket stays counted for good exactly when some handshake finished late |
| Diagnostics.TintaAgentGateway.RequestDiagnostics | backend/src/tinta-core/tinta-agent.gateway.ts:547-569 | offline agents are answered null at once; a newer request replaces and resolves the pending one |
| Diagnostics.TintaAgentGateway.TimerFires | backend/src/tinta-core/tinta-agent.gateway.ts:562-565 | the callback deletes by client, yet never removes a request other than its own |
| Diagnostics.TintaAgentGateway.HandleDiagnosticsReport | backend/src/tinta-core/tinta-agent.gateway.ts:571-583 | a report resolves the pending request of its client, or changes nothing |
| Diagnostics.RunsKeepPairs | backend/src/tinta-core/tinta-agent.gateway.ts:547-583 | over any run the pending map and the armed timers are each other's inverse, and every issued request is resolved once unless pending |
| Diagnostics.ResolvedOnceByItsFate | backend/src/tinta-core/tinta-agent.gateway.ts:547-583 | each request is resolved exactly once, with what the first report, newer request or own timer after it says, and is pending until then |
| Diagnostics.AnsweredInTime | backend/src/tinta-core/tinta-agent.gateway.ts:561-565 | no request is open longer than its timeout |
| Diagnostics.NoEarlyTimeout | backend/src/tinta-core/tinta-agent.gateway.ts:562-565 | nor does it time out before |
| Diagnostics.ConnectedAsSaid | backend/src/tinta-core/tinta-agent.gateway.ts:61 | the connected agents are those whose last join had no leave after it |
| InstallLinks.InstallService.ProvisionAgent | backend/src/tinta-core/tinta-core.service.ts:81-121 | creates the session or rotates its tokens, closing the socket in the map; consent and connection times stay |
| InstallLinks.InstallService.DisconnectAgent | backend/src/tinta-core/tinta-agent.gateway.ts:286-294 | closes the one socket in the map, if it is open, and no other |
| InstallLinks.InstallService.HandleDisconnect | backend/src/tinta-core/tinta-agent.gateway.ts:82-91 | takes out the one entry found for the socket, or nothing |
| InstallLinks.InstallService.DeleteSession | backend/src/servers/servers.service.ts:305-313 | removes the session and its link, and closes no socket |
| InstallLinks.InstallService.ReissueInstallLink | backend/src/tinta-core/tinta-core.service.ts:183-199 | 404 without a session, 409 for an agent that ever connected, else a new link |
| InstallLinks.InstallService.RecordServiceStartConsent | backend/src/tinta-core/tinta-core.service.ts:149-165 | 404, 410, or the consent time of the first call |
| InstallLinks.InstallService.GetInstallConfig | backend/src/provisioning/provisioning.service.ts:257-289 | 404, 410 and 403 likewise, else the agent token, and then the link is consumed |
| InstallLinks.InstallService.GetInstallPreview | backend/src/provisioning/provisioning.service.ts:300-313 | 404 exactly for an unknown link, 410 exactly when expired, 403 exactly without the consent, else the preview; nothing is consumed |
| InstallLinks.InstallService.HandleRegister | backend/src/tinta-core/tinta-agent.gateway.ts:113-211 | closes a refused socket and records a mismatch; otherwise the socket takes the place in the map, the one before it stays open, and the link is cleared unless the session row is refused |
| InstallLinks.OneConfigPerLink | backend/src/tinta-core/tinta-core.service.ts:167-178 | over any run each install token gives at most one successful config |
| InstallLinks.FetchedLinkIsGone | backend/src/tinta-core/tinta-core.service.ts:167-178 | after it every use of the link is answered 404 |
| InstallLinks.RegisterKillsTheLink | backend/src/tinta-core/tinta-agent.gateway.ts:208-211 | likewise once the agent has registered |
| InstallLinks.ConfigComesAfterConsent | backend/src/provisioning/provisioning.service.ts:251-263 | every config comes after a recorded consent of that client, within seven days of its link, with the agent token issued with that link |
| InstallLinks.PreviewComesAfterConsent | backend/src/provisioning/provisioning.service.ts:300-305 | every preview, too, comes after a recorded consent of that client and within seven days of its link |
| InstallLinks.ConsentTimeNeverChanges | backend/src/tinta-core/tinta-core.service.ts:146-148 | a recorded consent time is kept if and only if the session is not torn down |
| InstallLinks.ConsentOutlivesItsLink | backend/src/tinta-core/tinta-core.service.ts:104-110 | a link issued later opens without a new consent exactly when the client has one recorded |
| InstallLinks.PreviewsLeaveNoTrace | backend/src/provisioning/provisioning.service.ts:291-299 | taking all previews out of a run changes no state any later call could see |
| InstallLinks.ReissueSparesEnrolledAgents | backend/src/tinta-core/tinta-core.service.ts:180-193 | a reissue is refused as enrolled, changing nothing, if and only if the agent has registered since the session was last torn down |
| InstallLinks.ConnectedAgentsHoldTheCurrentToken | backend/src/tinta-core/tinta-core.service.ts:99-103 | all through a run every socket of a client holds its current token if and only if each rotation found none of its sockets outside the map, or none with another token, and each teardown found none |
| InstallLinks.RotationMissesReplacedSocket | backend/src/tinta-core/tinta-agent.gateway.ts:153-156 | such a run: two sockets register, the token is rotated, the first stays connected on the old one |
| InstallLinks.TeardownLeavesTheAgentConnected | backend/src/servers/servers.service.ts:305-313 | such a run: the last server is deleted, the client provisioned anew, and the old socket stays connected |
| Tickets.TicketsService.UpdateStatus | backend/src/tickets/tickets.service.ts:94-128 | refused exactly for an unknown ticket, a change outside the table, an unknown assignee or notes with a NUL character, and then nothing changes; a note exactly for a real change |
| Tickets.AgentMonitorScheduler.RaiseOfflineTicket | backend/src/tinta-core/agent-monitor.scheduler.ts:66-98 | adds an alert unless the client has an open one |
| Tickets.AgentMonitorScheduler.ResolveOfflineTickets | backend/src/tinta-core/agent-monitor.scheduler.ts:100-118 | resolves exactly the new alerts of the client or its email, and leaves every other ticket alone |
| Tickets.TicketsService.CreateTicket | backend/src/tickets/tickets.service.ts:46-56 | a created ticket is new, without notes |
| Tickets.AgentMonitorScheduler.CheckAgentHealth | backend/src/tinta-core/agent-monitor.scheduler.ts:38-64 | a pass marks the stale sessions, raises for each, and resolves for each session still connected |
| Tickets.NotesFormAPath | backend/src/tickets/tickets.service.ts:112-125 | over any mix of updates and monitor steps the notes of a ticket form one unbroken path of allowed changes from NEW, or from RESOLVED if the monitor took it first, to its status |
| Tickets.NeverBackToNew | backend/src/tickets/ticket-status.transitions.ts:8-25 | NEW is never re-entered, CLOSED never left, and no note is lost |
| Tickets.WhatMayChange | backend/src/tickets/ticket-status.transitions.ts:8-25 | the transition table in one sentence |
| Tickets.OneRaisedAlertPerClient | backend/src/tinta-core/agent-monitor.scheduler.ts:66-98 | whatever tickets others create, a client has at most one unattended alert that the monitor raised |
| Tickets.ClearsReachEveryTicket | backend/src/tinta-core/agent-monitor.scheduler.ts:55-63 | after a pass no session that stayed connected has an unattended alert |

## Left out

- frontend/, landing/, controllers, guards, DTOs, view mappers: plumbing.
- Logging, metrics columns, test flags, message wording.
- SHA-256, JWT signing, bcrypt, Telegram HTTP, Cloudflare: abstract or an arbitrary result.
- Most of backend/src/diagnostics: independent branches; only `checkSupportAccess` is used, as an observer.
- TelegramSender.Send: the HTTP status that `errorCode` finds by regular expression arrives already extracted; log texts are not modelled.
- OutboxTheorems.SuccessesBounded: needs the timing assumption above; `LeaseIsSafeIffLatenciesFit` says exactly when prompt dispatchers meet it; `SendsAndCallsBounded` needs none.
- Dispatcher.NotificationDispatcher.Tick: a run is driven by a finite list of what happens at its awaits; a run that outlives the list is left suspended, so that runs end at all is not claimed.
- AuditAppends.AuditLog.RecordSecurityAnomaly: the lookup of names for the alert text is not modelled; `kick()` is taken not to throw.
- AuditJson.SameTextSameJson: numbers are kept as their JSON text, and lone surrogates are not modelled.
- AuditLedger.OtherMetadataIsOrdered: leaves out the anomaly list, whose objects come from the agent with keys in any order.
- AccessService.AccessService.GrantAccess: messages to the agent, notifications and the ownership check of the controller are not modelled; nor are overlapping calls, under which two employees could both connect first.
- Provisioning.ProvisioningOperationsService.Fail: the failure message and timestamps are not modelled, only that the row is completed.
- InstallLinks.InstallService.ProvisionAgent: a client that does not exist, which the database refuses before anything is written, is not modelled.
- Presence.ServersGateway.Register: token parsing and the session check before it are not modelled here (see `Sessions`); a logout that races a handshake can leave that one socket open.
- Diagnostics.TintaAgentGateway.RequestDiagnostics: the set of connected agents changes by given joins and leaves; the message to the agent is not modelled.
- InstallLinks.InstallService.GetInstallConfig: of the config only the client id and agent token are modelled; two overlapping fetches could both succeed.
- InstallLinks.InstallService.HandleRegister: server status, heartbeats, access resync and templates are not modelled.
- AccessService.AccessService.DeleteUser: Cloudflare clean-up, ticket unassignment and the client row are not modelled; nor is the session deletion that goes with it, which is `InstallLinks.InstallService.DeleteSession`.
- Tickets.TicketsService.UpdateStatus: the author of a note and the unassignment when a user is deleted are not modelled, and complete calls are steps: an update between the monitor's read and write of one ticket is not covered.
- Tickets.OneRaisedAlertPerClient: alerts that staff reopened are not counted, since the monitor does not count them once resolved.
