# Hanbova: a verified model of its stateful components

Hanbova is a payment backend in Rust: an API service that coordinates protected payments between a sender and a
recipient, and crates with the payment lifecycle and the escrow providers. This project models the six components whose
guarantees span whole runs and arbitrary interleavings, and proves those guarantees with Dafny.

| file | models |
|---|---|
| `rate_limiter.dfy` | the per-peer request limiter with lazy eviction and a table cap |
| `payment_status.dfy`, `payment_intent.dfy` | the twelve-state lifecycle, its text form, the intent |
| `payment_store.dfy`, `payment_service.dfy` | both intent repositories; creation, link validation, status reports |
| `message_store.dfy`, `message_routes.dfy` | both message repositories; sending and acknowledging |
| `coordination.dfy` | any number of clients interleaving reports, sends and acknowledgements |
| `rate_cache.dfy`, `rate_cache_runs.dfy` | the two-window rate cache; single and batch calls interleaved |
| `auth_store.dfy`, `auth_service.dfy` | users, logins, refresh-token rotation, logout, password reset |
| `auth_runs.dfy`, `auth_revocation.dfy` | the same interleaved; what a logout or reset ends |
| `cashu_escrow.dfy`, `cashu_runs.dfy`, `cashu_labels.dfy` | the Cashu provider over an abstract mint, its runs, and what its labels mean |
| `mock_escrow.dfy` | the in-memory timelock provider |
| `rate_format.dfy` | the number printer and its inverse |
| `sums.dfy`, `text.dfy`, `wrappers.dfy` | totals, string operations, `Option` and `Result` |

Every object the source updates in place is a class here. Its methods are proved equal to a function on values, and the
lemmas about whole runs are about that function. Concurrent components are step systems: an action sequence is one
interleaving, `After` is the state it leads to, and the lemmas quantify over all sequences. Where a step system
re-enacts a sequential operation, an `Uninterrupted…` or `…IsLockThenTrack` lemma says that undisturbed steps add up to
that operation, reply included.

## Assumptions

- The clock never goes backwards.
- Generated identifiers and tokens are fresh, and token digests are injective.
- An intent is saved only by its creation, under a fresh identifier; a message likewise.
- A block under one lock, one database statement, or one database transaction holding a row lock is one atomic step.
- The mint follows Cashu NUT-11 (Pay-to-Pubkey) as its `locktime` and `refund` tags put it: a token is spent at most
  once, by the recipient's key at any time, and once the timelock is open by the refund key, or by anybody if there is
  none. Whether the lock opens with the second of the locktime or only after it is left to the mint, lock by lock; every
  result holds for both conventions. The mint and the provider read the same clock at one claim or refund; a request may
  get lost before the mint or on the way back.

## What the code does that its documentation or names do not say

- Limiter: the bound over a sliding interval is `2 * limit - 1`, not `2 * limit`, and it is attained
  (`SlidingWindowBound`, `SlidingWindowBoundIsSharp`).
- Logout and reset: a refresh that has redeemed its token but not yet stored the next one survives both
  (`RevocationEndsExactly`, `InFlightRefreshOutlivesLogout`). A login that has read the old password before a reset opens
  a session with it afterwards (`StaleLoginOutlivesReset`). `SessionsAfterReset` lists all ways a session can be held
  after a reset, and `ResetIsCompleteExactly` says exactly when the old password is out for good.
- Cashu creation locks the proofs before it validates the intent. A blank recipient, or a locktime that passes meanwhile,
  leaves the proofs locked and untracked (`CreationOutcomes`); a locktime before 1970 wraps around in the check and always
  does (`WrappedLocktimesAreOrphaned`).
- Cashu labels: Refunded means that a refund call got the token and its reply, Claimed means anything else
  (`LabelsFollowTheSpend`), so a label need not name who was paid. `LabelNamesThePayeeExactly` and
  `SpendingCallDecidesTheLabel` say exactly when it does, `SenderPaidLabelClaimed` is a run in which it does not. A claim
  that finds the token spent is answered as refunded, but never changes the label (`LateClaimNeverRelabels`); the spent
  sats leave the balance exactly with the next answered refund attempt (`SpentTokenLeavesTheBalanceExactly`).
- A save that changes more than status, reference and update time of a stored intent makes the two repositories diverge
  (`SavesCanDiverge`); `InStepExactly` says that nothing else does. Creation never saves so.
- Printer: a fraction that rounds up to a whole unit is printed with three decimals instead of a carry
  (`CarryIsLost`; `FormatRoundTripsExactly` gives the exact condition).

## Model

| member | source | states |
|---|---|---|
| RateLimiter.RequestRateLimiter.constructor | services/api/src/middleware/mod.rs:38-44 | the limiter starts with an empty table |
| RateLimiter.RequestRateLimiter.AllowRequest | services/api/src/middleware/mod.rs:46-69 | the locked method leaves the table and gives the answer of the specification `Allow`, which the run lemmas are about |
| RateLimiter.SlidingWindowBound | services/api/src/middleware/mod.rs:46-69 | in every run, for every peer, any half-open interval as long as the window sees at most `2 * limit - 1` admissions (none if the limit is zero), eviction and re-creation included |
| RateLimiter.SlidingWindowBoundIsSharp | services/api/src/middleware/mod.rs:60-67 | for every positive limit and window of at least two ticks some run attains that bound |
| RateLimiter.AnswersAreThoseOfLoneCounters | services/api/src/middleware/mod.rs:50-68 | every answer that is not a capacity refusal is that of the peer's own counter, which never evicts and sees only that peer's requests |
| RateLimiter.TableMatchesCounters | services/api/src/middleware/mod.rs:50-63 | after any run a peer's entry, if present, is its own counter's window, and if absent that window is over |
| RateLimiter.CapacityRefusals | services/api/src/middleware/mod.rs:47-55 | a capacity refusal happens exactly when the peer has no entry and exactly 10,000 other peers have windows opened within the last window |
| RateLimiter.TableIsBounded | services/api/src/middleware/mod.rs:47-59 | the table never exceeds 10,000 entries |
| RateLimiter.WindowStartsAreSpaced | services/api/src/middleware/mod.rs:56-63 | two windows ever held for one peer are the same or start at least one window apart |
| PaymentStatuses.RankNeverFalls | crates/hanbova-core/src/payment_status.rs:46-117 | along every path of the graph, retry cycles included, the phase rank never falls |
| PaymentStatuses.TerminalIsFinal | crates/hanbova-core/src/payment_status.rs:51-54 | Claimed, Refunded and Failed are never left |
| PaymentStatuses.RefundedPassesThroughEscrow | crates/hanbova-core/src/payment_status.rs:56-113 | a run from before the escrow that reaches Refunded was Protected or Claimable first |
| PaymentStatuses.ClaimedWithoutEscrowComesFromPending | crates/hanbova-core/src/payment_status.rs:69-73 | a run that reaches Claimed without passing the escrow steps there from Pending |
| PaymentStatuses.ReachesExactly | crates/hanbova-core/src/payment_status.rs:46-117 | the reachability relation in closed form: everything of higher rank, everything within rank four, nothing else |
| PaymentStatuses.PredecessorsExactly | crates/hanbova-core/src/payment_status.rs:46-129 | every edge of the graph, by the status it leads to, and no other; a transition that is none is refused with both statuses |
| PaymentStatuses.ActiveExactly | crates/hanbova-core/src/payment_status.rs:131-148 | a status is active exactly if it is not Claimed, Refunded or Failed |
| PaymentStatuses.FromStrInvertsDisplay | crates/hanbova-core/src/payment_status.rs:151-190 | parsing undoes printing, and accepts exactly the case and dash variants plus `refundavailable` |
| PaymentStatuses.NormalExactly | crates/hanbova-core/src/payment_status.rs:173-174 | before parsing, letters are lowered and dashes become underscores, and nothing else changes |
| PaymentStatuses.DisplayIsInjective | crates/hanbova-core/src/payment_status.rs:151-168 | different statuses print differently |
| PaymentIntents.UpdateStatusExactly | crates/hanbova-core/src/payment_intent.rs:79-84 | a status update follows the graph, stamps the time, and touches no other field |
| PaymentIntents.IdentityExactly | crates/hanbova-core/src/payment_intent.rs:63-75 | the fields that updates keep are all but status and update time |
| PaymentIntents.SimpleExactly | services/api/src/services/payment_service.rs:68-68 | the identifier in a claim reference is printed without its dashes |
| PaymentStore.InMemoryPaymentIntentRepository.Save | services/api/src/repositories/payment_intent_repo.rs:381-385 | one entry is set, the rest of the map stays |
| PaymentStore.InMemoryPaymentIntentRepository.UpdateStatus | services/api/src/repositories/payment_intent_repo.rs:430-441 | validation and change in one step as `StoreUpdate` has it: an unknown id and a forbidden transition change nothing, a repetition keeps the timestamp |
| PaymentStore.StoreUpdateExactly | services/api/src/repositories/payment_intent_repo.rs:430-441 | which update changes what: errors and repetitions nothing, an edge of the graph one status and its time |
| PaymentStore.PgPaymentIntentRepository.Save | services/api/src/repositories/payment_intent_repo.rs:101-133 | a new row of text and integers, or three columns rewritten on conflict |
| PaymentStore.PgPaymentIntentRepository.Find | services/api/src/repositories/payment_intent_repo.rs:135-180 | the row parsed back, with the errors of unreadable text |
| PaymentStore.PgPaymentIntentRepository.UpdateStatus | services/api/src/repositories/payment_intent_repo.rs:327-362 | the row-lock transaction computes `RowsUpdate` on the printed status |
| PaymentStore.DecodeInvertsEncode | services/api/src/repositories/payment_intent_repo.rs:101-180 | a stored intent reads back whole, amounts above the signed range included, up to timestamp precision |
| PaymentStore.AmountColumnExactly | services/api/src/repositories/payment_intent_repo.rs:104-168 | the signed column holds every amount, wrapped from two to the 63 on, and reads back as it was |
| PaymentStore.TypeFromStrExactly | crates/hanbova-core/src/payment_type.rs:33-43 | the two payment types are read in any case, and nothing else is |
| PaymentStore.DecodeExactly | services/api/src/repositories/payment_intent_repo.rs:147-176 | a row reads back exactly if type and status can be parsed, every column in its place |
| PaymentStore.UnreadableRowStays | services/api/src/repositories/payment_intent_repo.rs:335-338 | an update never touches a row whose status cannot be read |
| PaymentStore.PostgresSimulatesMemory | services/api/src/repositories/payment_intent_repo.rs:327-441 | any sequence of reads, updates and saves that keep the columns ON CONFLICT does not rewrite gives the same replies and contents in both repositories, up to timestamp precision |
| PaymentStore.SaveSimulatesExactly | services/api/src/repositories/payment_intent_repo.rs:101-133 | a save keeps the repositories in step exactly if the id is new or those columns stay the same |
| PaymentStore.InStepExactly | services/api/src/repositories/payment_intent_repo.rs:101-441 | over any sequence the repositories stay in step if and only if every save does so |
| PaymentStore.SavesCanDiverge | services/api/src/repositories/payment_intent_repo.rs:112-115 | saving a stored id with another amount: memory shows the new one, PostgreSQL the old one |
| PaymentService.MatchesActorByIdOrHandle | services/api/src/services/payment_service.rs:261-278 | an actor matches exactly by id or, ignoring case, by handle, up to one at-sign |
| PaymentService.CreationSucceedsExactly | services/api/src/services/payment_service.rs:31-61 | exactly which amounts, recipients and expiries create an intent, limits in figures |
| PaymentService.CreationFields | services/api/src/services/payment_service.rs:54-74 | every field of the created intent as requested: parties, amount, type, status, reference, and the expiry asked for or a day |
| PaymentService.CreationErrors | services/api/src/services/payment_service.rs:35-61 | which error a refused request gets, in the order of the checks |
| PaymentService.Service.CreatePaymentIntent | services/api/src/services/payment_service.rs:31-80 | a refused request stores nothing, an accepted one exactly the intent it returns |
| PaymentService.LinkAcceptedExactly | services/api/src/services/payment_service.rs:174-205 | which answer a link gets: unknown intent, parties not named by id or handle, instant payment, or accepted |
| PaymentService.ReportSucceedsExactly | services/api/src/services/payment_service.rs:208-258 | a report is accepted exactly along an edge by the recipient for Claimed, the sender for Refunded, either one otherwise; which error else; and what is stored and returned |
| PaymentService.Service.UpdatePaymentStatus | services/api/src/services/payment_service.rs:208-258 | read, authorise, commit: the new store and the response, which is the stored record |
| Coordination.UninterruptedReport | services/api/src/services/payment_service.rs:208-258 | four undisturbed steps of a client are the sequential report, answer and errors included |
| Coordination.StoredHistoryIsAPath | services/api/src/repositories/payment_intent_repo.rs:430-441 | under every interleaving the statuses ever stored for an intent form a path of the graph that starts no later than Pending |
| Coordination.OneTerminalRecord | services/api/src/services/payment_service.rs:252-257 | under every interleaving at most one of Claimed, Refunded, Failed is ever stored for an intent, and every later commit leaves that same record |
| Coordination.TerminalRecordsAreFinal | services/api/src/repositories/payment_intent_repo.rs:430-441 | once a terminal status is stored the record, timestamp included, never changes |
| Coordination.RefundsWereEscrowed | crates/hanbova-core/src/payment_status.rs:46-117 | what is stored as Refunded was stored as Protected or Claimable before |
| Coordination.ResponsesAreStoredRecords | services/api/src/services/payment_service.rs:215-257 | every successful response equals in all fields the record stored by the very report it answers, though built from a stale snapshot, and a repetition returns the record it found |
| Coordination.StatusProvenance | services/api/src/services/payment_service.rs:220-255 | a stored Claimed was reported by the recipient, a stored Refunded by the sender, anything else by one of the two |
| Coordination.LinkedMessagesBelongToTheirIntent | services/api/src/routes/protected_messages.rs:145-176 | in every reachable state a linked message's intent exists, is protected, and has the message's sender and recipient |
| Coordination.MessageReportsAreMonotone | services/api/src/routes/protected_messages.rs:239-291 | message rank never falls, claimed and refunded never replace each other, the first update sets the acknowledgement time for good, recipients claim and senders refund |
| Coordination.EveryScheduleKeepsInv | docs/superpowers/plans/2026-09-05-payment-coordination-safety.md:20-36 | the invariant behind these results holds after every schedule |
| MessageStore.AllowedSourcesByRank | services/api/src/repositories/protected_message_repo.rs:23-33 | the allow-lists permit exactly a repetition or a rise in rank |
| MessageStore.MessageUpdateExactly | services/api/src/repositories/protected_message_repo.rs:575-592 | which update succeeds, by names of statuses, with its three errors, and that it changes status and first acknowledgement time only |
| MessageStore.EnvelopeExactly | services/api/src/repositories/protected_message_repo.rs:587-590 | the fields that updates keep are all but those two |
| MessageStore.InMemoryProtectedMessageRepository.SaveMessage | services/api/src/repositories/protected_message_repo.rs:536-540 | one row is set, the rest stays |
| MessageStore.InMemoryProtectedMessageRepository.UpdateMessageStatus | services/api/src/repositories/protected_message_repo.rs:575-592 | the guarded update with its three errors, none of which changes a row |
| MessageStore.PgProtectedMessageRepository.UpdateMessageStatus | services/api/src/repositories/protected_message_repo.rs:226-255 | the conditional UPDATE and, after whatever other sessions do in between, its re-read; unless they add or remove the row the answer is that of the in-memory form |
| MessageStore.ConditionalUpdateIsMessageUpdate | services/api/src/repositories/protected_message_repo.rs:226-240 | the UPDATE touches at most one row, and none exactly when the in-memory form refuses |
| MessageRoutes.Handlers.CreateProtectedMessage | services/api/src/routes/protected_messages.rs:122-179 | an unknown recipient or a foreign intent stores nothing, otherwise exactly the returned row is stored |
| MessageRoutes.Handlers.AckMessage | services/api/src/routes/protected_messages.rs:233-298 | the role rules and the guarded update, in the source's order of errors |
| MessageRoutes.AcknowledgedBy | services/api/src/routes/protected_messages.rs:259-291 | a successful acknowledgement came from the one party entitled to it and changed exactly that row, forwards |
| MessageRoutes.SendExactly | services/api/src/routes/protected_messages.rs:127-176 | which messages are refused and why, and every field of a delivered one |
| MessageRoutes.AcknowledgeExactly | services/api/src/routes/protected_messages.rs:239-297 | the default status, who is refused which status, and that everybody else gets the guarded update |
| Coordination.UninterruptedSend | services/api/src/routes/protected_messages.rs:122-179 | undisturbed steps of a sending client are `Send`, unknown recipients and answers included |
| Coordination.UninterruptedAck | services/api/src/routes/protected_messages.rs:233-298 | undisturbed steps of an acknowledging client are `Acknowledge`, answers included |
| RateCache.HanbovaRateService.GetRate | services/api/src/services/rate_service.rs:55-133 | answer and cache of the single path, as `RateFor` has them |
| RateCache.HanbovaRateService.GetAllRates | services/api/src/services/rate_service.rs:140-217 | filter, fan-out, write-back and final read compute `AllRates` |
| RateCache.HanbovaRateService.ReadSlots | services/api/src/services/rate_service.rs:195-216 | the final read gives each market, in order, its cached rate flagged by age, or nothing beyond the stale window |
| RateCache.HanbovaRateService.Default | services/api/src/services/rate_service.rs:28-34 | the running service has windows of 45 and 600 seconds |
| RateCache.WindowsExactly | services/api/src/services/rate_service.rs:74-103 | the configured windows count, and the defaults if chrono cannot hold them |
| RateCache.RateForExactly | services/api/src/services/rate_service.rs:67-117 | by the configured windows: what is served, flagged, asked for and stored by a single call |
| RateCache.BatchSlotExactly | services/api/src/services/rate_service.rs:148-216 | the same for every slot of a batch |
| RateCache.BatchLeavesOthers | services/api/src/services/rate_service.rs:180-193 | a batch touches no entry of another market |
| RateCache.BatchOfOne | services/api/src/services/rate_service.rs:168-193 | the provider is asked for the market as listed, its answer kept under the upper-case key |
| RateCache.KeyIgnoresBlanksAndCase | services/api/src/services/rate_service.rs:61-65 | surrounding white space and case make no difference to the key of a single call |
| RateCache.SameCache | services/api/src/services/rate_service.rs:55-217 | on distinct normalised markets the batch always leaves the cache that single calls in turn leave |
| RateCache.BatchSlotsAgreeExactly | services/api/src/services/rate_service.rs:55-217 | for every configuration of the windows, a batch slot equals the single answer exactly under a condition on the windows, the old entry and the provider's flag |
| RateCache.BatchIsMappedSingle | services/api/src/services/rate_service.rs:55-217 | with a positive fresh window inside the stale one and unflagged answers the batch is the single path mapped over the markets: rates, flags, absences, cache |
| RateCache.KnownMarketsBatch | services/api/src/services/rate_service.rs:140-217 | in particular over the eight markets the service knows |
| RateCacheRuns.UninterruptedSingle | services/api/src/services/rate_service.rs:55-133 | undisturbed steps of a single call are `RateFor` |
| RateCacheRuns.UninterruptedBatch | services/api/src/services/rate_service.rs:140-217 | undisturbed steps of a batch call leave the cache of `BatchRates` and return its slots, absent ones in place |
| RateCacheRuns.ServedRatesAreGenuineAndRecent | services/api/src/services/rate_service.rs:67-216 | under every interleaving every served rate was given by the provider for that same market, its recorded age is inside the stale window and never understates its true age |
| AuthStore.RedeemedOnce | services/api/src/auth/repository.rs:338-351 | a redeemed token is never redeemed again |
| AuthStore.RevokeAllExactly | services/api/src/auth/repository.rs:353-362 | revoking a user's tokens ends exactly those, and rewrites no earlier revocation |
| AuthStore.RedeemExactly | services/api/src/auth/repository.rs:338-351 | a refresh token is redeemed exactly while unrevoked and strictly before its expiry, and only marked so |
| AuthStore.ConsumeExactly | services/api/src/auth/repository.rs:385-398 | a reset token likewise |
| AuthStore.AnswersToExactly | services/api/src/auth/repository.rs:297-302 | a user answers to exactly the logins that are the user name or the address, up to case, surrounding white space and leading signs |
| AuthStore.PlainLogin | services/api/src/auth/repository.rs:297-302 | in particular a plain login names whoever has it as user name or address |
| AuthStore.InMemoryUserRepository.CreateUser | services/api/src/auth/repository.rs:278-290 | refuses exactly the users that clash with a stored one, so names and addresses stay unique |
| AuthStore.InMemoryUserRepository.FindByUsernameOrEmail | services/api/src/auth/repository.rs:297-306 | finds a stored user whose name or address the login is, or establishes that there is none |
| AuthStore.InMemoryUserRepository.ValidateAndRevokeRefreshToken | services/api/src/auth/repository.rs:338-351 | validation and revocation in one step, as `Redeem` has them |
| AuthStore.InMemoryUserRepository.RevokeAllUserRefreshTokens | services/api/src/auth/repository.rs:353-362 | the loop revokes all the user's unrevoked tokens and nothing else |
| AuthStore.InMemoryUserRepository.ValidateAndConsumeResetToken | services/api/src/auth/repository.rs:385-398 | validation and use in one step, as `Consume` has them |
| AuthService.RefreshRotates | services/api/src/auth/service.rs:120-135 | a successful refresh moves one user's session from the old token to the new one and touches no other token |
| AuthService.RefreshedExactly | services/api/src/auth/service.rs:120-135 | a refresh case by case: bad token, vanished user, or the new token for thirty days |
| AuthService.TokenLifetimes | services/api/src/auth/service.rs:34-237 | a refresh token is good for thirty days and a reset token for an hour, to the instant |
| AuthService.Service.GenerateAuthResponse | services/api/src/auth/service.rs:218-250 | one fresh token with its lifetime is stored |
| AuthService.Service.Login | services/api/src/auth/service.rs:100-118 | only a user whose name or address the login is and who has that password gets a token; a failed login stores nothing |
| AuthService.Service.ForgotPassword | services/api/src/auth/service.rs:142-175 | a known name or address gets a reset token for an hour, shown in development only; anybody else changes nothing |
| AuthService.Service.Refresh | services/api/src/auth/service.rs:120-135 | redeem, look up, issue: tokens and answer as `Refreshed` has them |
| AuthService.Service.Logout | services/api/src/auth/service.rs:137-140 | all the user's tokens are revoked |
| AuthService.Service.ResetPassword | services/api/src/auth/service.rs:177-198 | a short password or a bad token changes nothing; otherwise token, password and sessions change together |
| AuthRuns.UninterruptedLogin | services/api/src/auth/service.rs:100-118 | undisturbed steps of a login succeed exactly with the stored password and then store one token |
| AuthRuns.UninterruptedRefresh | services/api/src/auth/service.rs:120-135 | undisturbed steps of a refresh are `Refreshed`, answer included |
| AuthRuns.UninterruptedReset | services/api/src/auth/service.rs:177-198 | undisturbed steps of a reset consume the token, write the password and revoke the sessions, or refuse and change nothing, short passwords first |
| AuthRuns.UninterruptedForgot | services/api/src/auth/service.rs:151-163 | undisturbed steps of a reset request store one token for an hour |
| AuthRuns.OneHolderPerChain | services/api/src/auth/service.rs:120-135 | in every interleaving a login's chain has at most one unrevoked token or in-flight call |
| AuthRuns.ChainsBelongToOneUser | services/api/src/auth/service.rs:128-134 | rotation never leaves the user who logged in |
| AuthRuns.TokensAreRedeemedOnce | services/api/src/auth/repository.rs:338-398 | in every interleaving each refresh and each reset token is redeemed at most once |
| AuthRuns.RevokedTokensAreNeverRedeemed | services/api/src/auth/repository.rs:353-362 | a token stored before its user's logout or reset is never redeemed after it |
| AuthRevocation.RevocationEndsExactly | services/api/src/auth/service.rs:137-140 | a revoke step ends a session of its user unless, and only unless, an in-flight call holds it |
| AuthRevocation.RevocationIsForGood | services/api/src/auth/service.rs:177-198 | a session opened before the revoke step that no call held at that step is over for the rest of every schedule |
| AuthRevocation.SessionsAfterReset | services/api/src/auth/service.rs:100-198 | whatever session of the user is held after a reset's revoke step was held in flight at it, or was opened later with a password at least as new, or by a login that had read an older one before |
| AuthRevocation.ResetIsCompleteExactly | services/api/src/auth/service.rs:177-198 | no session of an older password is ever held afterwards if and only if, at the revoke step, no call holds one and no login has read an older password it will accept |
| AuthRevocation.StaleLoginOutlivesReset | services/api/src/auth/service.rs:100-198 | a complete schedule in which nothing is in flight at the revoke step and yet the old password opens a session after it |
| AuthRevocation.InFlightRefreshOutlivesLogout | services/api/src/auth/service.rs:120-140 | the condition is needed: a schedule in which a session outlives a logout |
| CashuRuns.SpendingOnce | crates/hanbova-protected-payments/src/cashu.rs:258-263 | a redemption hands out a token's amount at most once, to an entitled key, and is learnt of exactly if nothing got lost |
| CashuEscrow.CashuProtectedPaymentProvider.CreateProtectedPayment | crates/hanbova-protected-payments/src/cashu.rs:120-243 | check, lock, build, track, in that order, with every error exit, as `Create` has them |
| CashuEscrow.CashuProtectedPaymentProvider.ClaimPayment | crates/hanbova-protected-payments/src/cashu.rs:245-292 | tracked map, mint and reply of a claim, as `Claim` has them |
| CashuEscrow.CashuProtectedPaymentProvider.RefundPayment | crates/hanbova-protected-payments/src/cashu.rs:294-359 | tracked map, mint and reply of a refund, as `Refund` has them |
| CashuEscrow.CashuProtectedPaymentProvider.ProtectedOutgoing | crates/hanbova-protected-payments/src/cashu.rs:382-396 | the loop computes the sum of the active payments in whatever order the map is walked |
| CashuEscrow.OutgoingAfterUpdate | crates/hanbova-protected-payments/src/cashu.rs:386-390 | setting one entry changes the sum by the difference of its weights |
| CashuEscrow.WeightExactly | crates/hanbova-protected-payments/src/cashu.rs:386-389 | a payment counts in full until it is Claimed, Refunded or Failed |
| CashuRuns.CreationIsLockThenTrack | crates/hanbova-protected-payments/src/cashu.rs:120-243 | an undisturbed creation is its two steps, reply included |
| CashuRuns.LockedSatsAreConserved | crates/hanbova-protected-payments/src/cashu.rs:382-396 | in every run the sats ever locked are those in the balance plus those settled, orphaned and still being created |
| CashuRuns.BalanceChangesBySettlementOnly | crates/hanbova-protected-payments/src/cashu.rs:263-357 | apart from tracking a new payment nothing changes the balance but a settlement, and that by exactly its amount |
| CashuRuns.SettledAtMostOnce | crates/hanbova-protected-payments/src/cashu.rs:263-357 | no payment settles twice, and no two receipts are for one payment |
| CashuRuns.ReceiptsAreForTheWholePayment | crates/hanbova-protected-payments/src/cashu.rs:264-342 | every receipt is for the full amount and names the status the payment keeps |
| CashuRuns.SettledPaymentsAreSpent | crates/hanbova-protected-payments/src/cashu.rs:263-357 | a tracked Claimed or Refunded implies that the token is spent at the mint |
| CashuRuns.ClaimPaysExactly | crates/hanbova-protected-payments/src/cashu.rs:245-276 | a claim succeeds exactly when the mint spends the token for that key: the status update after it never fails; status, update time and every field of the receipt |
| CashuRuns.ClaimErrors | crates/hanbova-protected-payments/src/cashu.rs:246-289 | which error a refused claim gets |
| CashuRuns.RefundPaysExactly | crates/hanbova-protected-payments/src/cashu.rs:294-342 | a refund succeeds exactly from the locktime on, for an unspent token and an entitled key, and at a strict mint not in the very second of the locktime; status, update time and every field of the receipt |
| CashuRuns.RefundErrors | crates/hanbova-protected-payments/src/cashu.rs:298-356 | which error a refused refund gets |
| CashuRuns.PaymentsEndure | crates/hanbova-protected-payments/src/cashu.rs:245-359 | a tracked payment keeps its token and identity for good, and a terminal status too |
| CashuLabels.LabelsFollowTheSpend | crates/hanbova-protected-payments/src/cashu.rs:263-357 | Refunded exactly if a refund call spent the token and handed out the receipt; Claimed only if it was spent in another way; a receipt exactly for a call that spent it |
| CashuLabels.LabelNamesThePayeeExactly | crates/hanbova-protected-payments/src/cashu.rs:263-357 | a terminal label names the party paid if and only if the spend was a delivered refund by another key than the recipient's, or anything else by the recipient's |
| CashuLabels.SpendingCallDecidesTheLabel | crates/hanbova-protected-payments/src/cashu.rs:263-357 | the same foreseen from the call that spends the token, whatever happens after it |
| CashuLabels.EarlySpendsAreTheRecipients | crates/hanbova-protected-payments/src/cashu.rs:160-176 | before the timelock opens only the recipient's key can have spent a token |
| CashuLabels.ClaimableEndsExactly | crates/hanbova-protected-payments/src/cashu.rs:263-357 | a payment leaves Claimable exactly by a call that gets its token, or by a timely refund attempt that finds it gone |
| CashuLabels.RefundRelabelsExactly | crates/hanbova-protected-payments/src/cashu.rs:344-351 | a refund attempt relabels a claimable payment as Claimed exactly from the locktime on, with a key, an answer, and the token spent |
| CashuLabels.LateClaimNeverRelabels | crates/hanbova-protected-payments/src/cashu.rs:277-284 | a claim that finds the token spent changes neither status nor balance |
| CashuLabels.SpentTokenCalls | crates/hanbova-protected-payments/src/cashu.rs:277-351 | all that a claim or refund on a spent token changes: one label, and the update time where the label is already there |
| CashuLabels.SpentTokenLeavesTheBalanceExactly | crates/hanbova-protected-payments/src/cashu.rs:323-390 | a claimable payment whose token is spent is counted in full until exactly the first answered refund attempt from the locktime on |
| CashuLabels.RetriedRefundIsLabelledClaimed | crates/hanbova-protected-payments/src/cashu.rs:344-351 | in every run, a refund whose reply got lost is labelled Claimed on the next try though the refund key was paid |
| CashuLabels.SenderPaidLabelClaimed | crates/hanbova-protected-payments/src/cashu.rs:344-351 | a complete run of five calls that ends so |
| CashuRuns.CreationOutcomes | crates/hanbova-protected-payments/src/cashu.rs:120-243 | exactly which creations change nothing, which lock proofs without tracking them, and which hand out a claimable payment under the requested conditions |
| CashuRuns.CreationFields | crates/hanbova-protected-payments/src/cashu.rs:199-240 | every field of the tracked payment and of the receipt as requested |
| CashuRuns.CreationErrors | crates/hanbova-protected-payments/src/cashu.rs:100-206 | which error a refused creation gets, in the order of the checks |
| CashuEscrow.UnixTimeExactly | crates/hanbova-protected-payments/src/cashu.rs:148-149 | the second that contains a time, wrapped before 1970 |
| CashuRuns.WrappedLocktimesAreOrphaned | crates/hanbova-protected-payments/src/cashu.rs:148-156 | every locktime before 1970 passes the check, locks the proofs into the far future and is then refused |
| CashuRuns.OrphansStayOrphans | crates/hanbova-protected-payments/src/cashu.rs:199-240 | no later operation tracks an orphaned token |
| MockEscrow.MockProtectedPaymentProvider.CreateProtectedPayment | crates/hanbova-protected-payments/src/mock.rs:39-74 | a refused request stores nothing, an accepted one a claimable intent |
| MockEscrow.MockProtectedPaymentProvider.ClaimPayment | crates/hanbova-protected-payments/src/mock.rs:76-114 | intents and reply of a claim, the relabelling of a late one included |
| MockEscrow.MockProtectedPaymentProvider.RefundPayment | crates/hanbova-protected-payments/src/mock.rs:116-150 | intents and reply of a refund |
| MockEscrow.ClaimedBeforeExpiryRefundedAfter | crates/hanbova-protected-payments/src/mock.rs:76-150 | in every run claims fall strictly before the expiry, refunds at or after it |
| MockEscrow.PaidOutAtMostOnce | crates/hanbova-protected-payments/src/mock.rs:76-150 | no payment is claimed twice, refunded twice, or both |
| MockEscrow.RefundSucceedsExactly | crates/hanbova-protected-payments/src/mock.rs:116-150 | from the expiry on a refund succeeds exactly for what was never claimed or refunded, failed late claims or not |
| MockEscrow.ClaimSucceedsExactly | crates/hanbova-protected-payments/src/mock.rs:76-114 | a claim succeeds exactly before the expiry, once, with a proof that is not blank; a late claim of an unpaid payment opens its refund |
| MockEscrow.CreationExactly | crates/hanbova-protected-payments/src/mock.rs:39-74 | every field of a created payment and its receipt, the expiry as requested, and the error of a refused one |
| MockEscrow.PaysOutExactly | crates/hanbova-protected-payments/src/mock.rs:102-149 | what a successful claim or refund changes, and every field of its receipt |
| MockEscrow.RefusalsExactly | crates/hanbova-protected-payments/src/mock.rs:78-138 | which error a refused claim or refund gets |
| RateFormat.FormatNumberWithCommas | crates/hanbova-core/src/rate.rs:131-149 | the digit loop prints what grouping by threes from the right defines |
| RateFormat.PushedIsGrouped | crates/hanbova-core/src/rate.rs:140-146 | testing the remaining length from left to right is grouping from the right |
| RateFormat.GroupedExactly | crates/hanbova-core/src/rate.rs:135-146 | the grouped text is the only one with those digits in which commas stand exactly before positive multiples of three digits |
| RateFormat.UngroupingInvertsGrouping | crates/hanbova-core/src/rate.rs:135-146 | removing the commas gives the digits back |
| RateFormat.ValueInvertsDigits | crates/hanbova-core/src/rate.rs:135-135 | parsing the digits of a number gives the number back |
| RateFormat.GroupingIsInjective | crates/hanbova-core/src/rate.rs:135-146 | different numbers are printed differently |
| RateFormat.FormatRoundTripsExactly | crates/hanbova-core/src/rate.rs:131-149 | for every amount the text reads back as the amount rounded to hundredths exactly if the fraction stays below 0.995, otherwise it has too many decimals |
| RateFormat.PartsExactly | crates/hanbova-core/src/rate.rs:132-133 | sign dropped, integer part cut off and held to 64 bits, rounding half up, in figures |
| RateFormat.HundredthsRoundTrip | crates/hanbova-core/src/rate.rs:131-149 | amounts in exact hundredths below two to the 64 round-trip without loss |
| RateFormat.CarryIsLost | crates/hanbova-core/src/rate.rs:133-148 | 0.999 is printed as 0.100 |
| Text.CaseExactly | services/api/src/auth/repository.rs:281-301 | the letters change case one by one and no other ASCII character does |
| Text.CaseOfWords | services/api/src/auth/repository.rs:281-301 | words are lowered, raised and compared character by character |
| Text.TrimExactly | crates/hanbova-core/src/payment_intent.rs:41-41 | trimming removes the surrounding ASCII white space and nothing else |
| Text.StripExactly | services/api/src/services/payment_service.rs:262-263 | one leading sign is stripped, or all of them where the repository does so |

## Left out

- HTTP, extractors, configuration, SQL drivers and migrations: plumbing around the modelled operations.
- JWTs, salts and digests: password hashes and token digests are injective constructors, and hashing and signing never fail.
- `ValidateProtectedMessageLink`, `Find` and the wallet call of the mint: one-line reads and calls, without a row of their own.
- The input checks of registration, profiles, payment keys, inbox, outbox and list queries: reads and single inserts without a protocol.
- `find_by_reference`, `find_by_user`, `list_all`: reads whose two forms differ on purpose or are limited to 50 rows.
- User deletion: the source has none; the missing-user branch of a refresh is modelled all the same.
- The recipient lookup of a sent message is an input of the operation; names are not renamed while it runs.
- Message payload versions, key fingerprints and the wallet environment: carried along unread by the modelled code.
- Non-ASCII letters and white space in case folding and trimming; identifiers are canonical text.
- Intents, rows and records are values inside the maps; no code keeps a reference to one beyond its lock.
- In `Coordination` an acknowledgement commits in one step, re-read included: message rows are never deleted and have fresh identifiers.
- Database failures, and the precision of database timestamps other than as one rounding function.
- The `is_stale` flag of a fallback under interleaving: it marks the fallback path and is not equivalent to an age beyond the fresh window, so only its converse is stated.
- Caller-supplied `cashu_token` overrides and reused `payment_id`s of the escrow providers.
- Mint fees, proof selection, minting, and the spendable part of the wallet balance; creating intents with funds is a yes or no of the environment.
- Overflow of the 64-bit sum of the protected balance: the total number of satoshis is far below it.
- `get_payment_status` of the providers: a read that shows Claimable as RefundAvailable after the locktime.
- Floating-point rounding, infinities and NaN in the printer: amounts are exact reals; currency symbols are not printed.
- The mock Lightning provider, market, card and eSIM tables: fixed data.
