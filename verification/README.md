# Paid calls, ledgers, receipts and codecs: a Dafny model

This project models the paid-call protocol of `x402/` (HTTP 402, section 15.5.3 of RFC 9110) and
four self-contained algorithms of the same repository, and proves what they keep.

* **The protocol as a state machine** (`Protocol`). Node runs a handler without interruption from
  one `await` to the next, so every step is one such segment; a request is a thread that waits at an
  `await`, and any number of requests interleave in any order. The payment verifier is an oracle: its
  answer is part of the event. `Run` is the state after a sequence of events; the theorems about the
  server are about `Run` of every sequence.
* **What each call does**: the three paid routes, by commit, by payment header and by neither
  (`PaidRoutes`), the commit call (`Commits`), and finalize calls from the request to the receipt, with one
  proof (`SingleFinalize`, on top of `Settling`) or with a direct split (`SplitVerdicts`). The conditions are
  spelled out on the request and the records, and every one is an if-and-only-if.
* **Theorems about every run**: what the verifier said (`Affirmations`), payments and deliveries (`Payments`,
  `Window`, `WindowExact`), delivery tokens (`Delivery`) and finality (`Finality`), daily caps (`Caps`, `CapsTight`, `Takings`), ledger and
  receipts (`Books`), direct splits that overlap or stall (`SplitOverlap`, `StalledSplit`), and where the
  guarantees end (`Limits`). `Runs` defines reachable states and continuations.
* **The objects the server is made of**, as classes proved against functions on their values:
  the replay store (`ReplayStore`), the netting ledger (`Netting`), the receipt signer (`Receipts`),
  the rate limiter (`RateLimiter`), and the direct-split verification as one uninterrupted call
  (`DirectSplit`), which the state machine's steps agree with when nobody interrupts them (`SplitRuns`).
* **The buyer** (`Client`), in the commit flow and in the header flow, what it accepts down to hash and
  signature (`Acceptance`), overlapping calls on its spend tracker (`Spending`), and **buyer against
  server** (`Handshake`, `HandshakeExact`).
* **Codecs and small algorithms**: base58 and name filters (`Base58`, `Resolver`), the flight-recorder
  chain (`FlightRecorder`), permission notes (`PermissionNotes`), catalog coverage (`Catalog`) and the
  fog rewrite (`FogRouter`).

`Common`, `Types` and `Bytes` hold shared definitions.

## Reading the statements

* SHA-256, Ed25519 and JSON text are function-valued parameters. Nothing assumes that a hash is
  injective: where a hash binds something, the lemma says "equal, or here are two inputs with one
  hash". Two assumptions appear as explicit preconditions where they are needed: signatures made with
  the secret key verify under its public key (`SignaturesVerify`), and JSON text determines its value
  (`EncodingInjective`).
* Ids are positions (the server never deletes a quote, commit or receipt) and so are fresh by
  construction; the source draws UUIDs.
* `State` carries histories (`grants`, `signed`, `charges`, `blocked`, `batches`) that no step reads.
* The guard on immutable records may block a receipt before or after it is signed; each step that
  issues one says which happened.

## What turned out false, and what holds instead

* Replay keys are forgotten after their lifetime (24 hours by default), so that one payment is one receipt
  and one delivery only because the verifier accepts a payment for a shorter time than that. If every
  payment is accepted and claimed within some window, no payment backs two receipts or deliveries in any
  run, if and only if the window is shorter than the lifetime (`WindowExactly`, `OnePaymentOneReceipt`).
  With the defaults, 900 seconds against 24 hours, it is (`DefaultsInject`). Transfers whose block time is
  known have such a window (`AgeCheckIsWindow`); the server's own verifier refuses all streams, and one
  with a Streamflow client checks no age of streams. A server whose verifier accepts a payment again after
  the lifetime delivers for it again (`PaymentsCanBeReused`).
* A direct split claims its payments some time after their verdicts. One that is stalled in between for a
  key lifetime gets a second receipt for a payment, however short the verifier's window is
  (`StalledSplitPaysTwice`); where nothing is split, the verifier's window is enough (`UnsplitTimely`).
* Finalize calls on one commit that overlap can turn a finalized commit into a failed one
  (`OverlapUndoesFinalized`). `FinalityExactly` says when a finalized commit is final: exactly while no
  call on it can still reject, issue or settle; `FinalizedIsAbsorbing` follows when calls on it have
  not overlapped so far.
* Such calls can also replace the receipt while it is being delivered, so that a failed delivery is not
  given back (`OverlapStrandsDelivery`); `ServerErrorRestores` and `ConsumedExactly` say exactly when.
* Daily caps can be passed when finalize calls overlap (`OverlapPassesDailyCap`), by at most the largest
  transaction per further call (`DailyCapUnderConcurrency`), and no smaller bound holds
  (`DailyBoundAttained`). The counters are the day's receipts from finalize calls
  (`CounterIsTheDaysReceipts`); header payments are not counted, so no cap bounds them.
* A direct split that another request interrupts can leave payments claimed for which no receipt is ever
  issued: exactly if its claims got past the very first key (`RefusedClaim`, `SplitCanBeInterrupted`).
* A settlement flush loses or doubles charges exactly if a submitted entry changed while the sink was
  busy (`OvertakenSettlement`).
* A blocked netting receipt leaves its charge on the ledger: ledger and receipts agree exactly if
  nothing was blocked for the pair (`LedgerAgreesWithReceipts`).
* base58 of `n` zero bytes is `n + 1` ones, so the standard decoder gives one byte too many; the filter
  for the empty name therefore also compares the first byte of the owner (`EmptyNameMisses`).
* A total-spend limit of the largest u64 never refuses (`ExceededExactlyAtLargest`).
* The fog rewrite changes roles as soon as the read-only count no longer fits a u8
  (`RolesKeptExactly`), and changes what indices mean exactly if the new decoys move an address loaded
  from a lookup table (`KeysKeptExactly`).
* The buyer's daily limit is checked against the date before the payment and recorded under the date
  after it. One call keeps the limit of that date exactly if it is the same date or has room
  (`RecordedLater`, `MidnightPassesLimit`); calls that do not overlap always keep it, and overlapping
  ones within an exact bound (`LimitWithoutOverlap`, `LimitUnderConcurrency`, `LimitBoundAttained`).
* A response without a receipt is not compared with a receipt that is only about the finalize exchange
  (`BareDelivery`).
* A call whose request target is not the bare path of the resource, for a query say, is never paid: the
  receipt is for the bare path (`HandshakeExactly`, `QueriesAreNotPaid`).
* A rate limit below 1 acts as 1 (`AtMostTwiceTheLimit`), twice the limit is the least bound, and without
  a positive window there is none (`TwiceTheLimitExactly`).

## Model

| member | source | states |
|---|---|---|
| `Receipts.ResponseDigestBinds` | x402/src/receipts.ts:39-41 | equal response digests mean equal status and body, or two texts with one hash |
| `Receipts.NormalizedDigits` | x402/src/receipts.ts:43-49 | `NormalizeCommitment` accepts exactly 64 hex digits after an optional `0x`, and every digit of the result is the digit in that place, or its lower-case form |
| `Receipts.NormalizeExactly` | x402/src/receipts.ts:43-49 | two accepted values have one normal form if and only if they agree up to `0x` and letter case |
| `Receipts.NormalizeIdempotent` | x402/src/receipts.ts:43-49 | normalising a normal form gives the same form, so buyer and server agree on the payer |
| `Receipts.ReceiptSigner.constructor` | x402/src/receipts.ts:51-58 | the chain starts from 64 zeros |
| `Receipts.ReceiptSigner.Sign` | x402/src/receipts.ts:75-90 | appends the signed receipt to one verified chain and advances the hidden back link |
| `Receipts.ReceiptSigner.SignDetached` | x402/src/receipts.ts:92-100 | a detached signature verifies and leaves the chain alone |
| `Receipts.ChainedAt` | x402/src/receipts.ts:103-113 | in a chain every receipt verifies and names its predecessor's hash, the first one 64 zeros |
| `Receipts.SignerRunChained` | x402/src/receipts.ts:75-100 | any mix of signing and detached signing yields one unbroken verified chain |
| `Receipts.TipDeterminesLog` | x402/src/receipts.ts:75-90 | two signed logs with the same last hash are equal, or a collision or a text hashing to 64 zeros is exhibited |
| `ReplayStore.Store.RemoveExpired` | x402/src/verifier/replayStore.ts:235-241 | the loop keeps exactly the keys that expire after now |
| `ReplayStore.Store.TryClaim` | x402/src/verifier/replayStore.ts:169-179 | granted exactly if the key is not claimed; the new contents are those of `Claim` |
| `ReplayStore.Store.IsClaimed` | x402/src/verifier/replayStore.ts:187-196 | answers whether an unexpired claim exists and drops only expired keys |
| `ReplayStore.ClaimExact` | x402/src/verifier/replayStore.ts:169-179 | a claim is granted exactly when every earlier grant of its key is a full lifetime in the past |
| `ReplayStore.ClaimKeeps` | x402/src/verifier/replayStore.ts:169-179 | any claim keeps the store exact and grants of one key a lifetime apart |
| `Netting.NettingLedger.AddCharge` | x402/src/nettingLedger.ts:91-131 | the new ledger is `Add` of the old one, and the returned entry is the one on record |
| `Netting.NettingLedger.FlushReady` | x402/src/nettingLedger.ts:140-152 | in arithmetic: an entry stays if and only if its gross is below the threshold, its fees are below the fee threshold or there is none, and it is younger than the interval; every other becomes one batch, in insertion order |
| `Netting.NettingLedger.CollectVouchered` | x402/src/nettingLedger.ts:164-171 | the ready entries with a voucher, in insertion order |
| `Netting.NettingLedger.DeleteKeys` | x402/src/nettingLedger.ts:176-178 | deletes the listed entries and no other |
| `Netting.NettingLedger.FlushToSettlement` | x402/src/nettingLedger.ts:160-180 | the same in arithmetic for the entries with a voucher, while all others stay; a failing sink changes nothing |
| `Netting.AddConserves` | x402/src/nettingLedger.ts:91-131 | a charge keeps charged = flushed followed by outstanding, per key, in three sums and two id lists |
| `Netting.FlushConserves` | x402/src/nettingLedger.ts:140-152 | so does a flush |
| `Netting.FlushFolds` | x402/src/nettingLedger.ts:140-152 | after a flush every entry is the fold of exactly its unflushed charges |
| `Netting.NettingConserves` | x402/src/nettingLedger.ts:91-180 | over every run: conservation per key in order, gross = provider + fee, and each entry is the fold of its unflushed charges |
| `Netting.FlushExactly` | x402/src/nettingLedger.ts:182-188 | which entries a flush keeps, in arithmetic; every other becomes exactly one batch with its sums, ids and voucher, and the order of both is that of insertion |
| `Netting.SettlementExactly` | x402/src/nettingLedger.ts:160-188 | the same for a settlement, restricted to entries with a voucher |
| `Netting.EntriesSpeak` | x402/src/nettingLedger.ts:91-131 | in every run an entry speaks for exactly its unflushed charges: their number, first and last time, pair, and the voucher with the largest total, the earliest of these |
| `Netting.OvertakenSettlement` | x402/src/nettingLedger.ts:160-180 | when other operations run while the sink is busy, conservation survives if and only if every submitted key still holds what was submitted |
| `Netting.KeyOfInjective` | x402/src/nettingLedger.ts:87-89 | on payers of one length a key names one pair |
| `Affirmations.RunHeard` | x402/src/server.ts:4144-4262 | in every run whatever a request has verified, claimed or issued rests on an earlier verdict with `ok` on its own payment |
| `Affirmations.SplitLinesWereAccepted` | x402/src/server.ts:1890-1983 | every signature in the split proofs of a stored receipt was given to the request that issued it, for that line of that commit, by an earlier verdict with `ok`; the lines are the quote's, in order, and the main one is the last that pays the provider |
| `Affirmations.PaymentsWereAccepted` | x402/src/server.ts:4144-4182 | so was the payment that any other stored receipt names, for its commit, or for its quote in a header |
| `Affirmations.NettingWhereEnabled` | x402/src/server.ts:4112-4119 | netting receipts exist only where netting is enabled |
| `Affirmations.SplitVerdictExactly` | x402/src/server.ts:1912-1945 | in every reachable state: a verdict without `ok` or signature on a split line fails the commit and refuses the request, a repeated signature refuses it and leaves the commit, any other adds the line; nothing else changes |
| `PaidRoutes.QuotedExactly` | x402/src/server.ts:4670-4690 | a request without commit or payment gets one new quote with the price, destination, expiry, modes and memo demanded, and the memo index finds it |
| `PaidRoutes.RunIndexed` | x402/src/server.ts:2251-2259 | in every run the memo index finds the latest quote with a memo |
| `PaidRoutes.HeaderReachesExactly` | x402/src/server.ts:2251-2436 | in every reachable state a header payment reaches the verifier for a quote if and only if memo, resource, recipient and total are the quote's, the mint is absent or the quote's, neither has expired, and a consistent proof is present; otherwise it is refused with its status |
| `PaidRoutes.HeaderServedExactly` | x402/src/server.ts:2437-2600 | left alone it is served if and only if its transfer is accepted and none of its keys is claimed, or it is an opaque proof and netting is enabled; the receipt is spelled out down to hash and digests |
| `PaidRoutes.HeaderPaysExactly` | x402/src/server.ts:2272-2600 | both together, from every reachable state |
| `PaidRoutes.DemandCanBeMet` | x402/src/server.ts:4670-4690 | from every reachable state: while a new quote lives, a header that repeats its demand reaches the verifier for it |
| `PaidRoutes.DeliversExactly` | x402/src/server.ts:4626-4663 | in every reachable state a GET that names a commit is delivered to if and only if the commit is finalized for that resource and no delivery of it is under way or has used it up; it hands out that commit's receipt, for that resource and payer |
| `Commits.CommitsExactly` | x402/src/server.ts:3989-4034 | a commit is stored if and only if the quote exists and lives and the payer is 64 hex digits, with that payer in lower case; else 404, 410 or 400 |
| `Commits.SamePayerExactly` | x402/src/receipts.ts:43-49 | two commits store one payer, and are charged to one account, if and only if the posted payers agree up to `0x` and letter case |
| `Protocol.SplitProofsOf` | x402/src/server.ts:1967-1975 | one receipt proof per verified line, in order |
| `Protocol.OnVerdict` | x402/src/server.ts:4144-4182 | the verifier's answer always leads to an effect whose commit and quote exist |
| `Protocol.OnResume` | x402/src/server.ts:4182-4298 | so does every other continuation |
| `Payments.VerdictAllowed` | x402/src/server.ts:4144-4182 | after a verdict a thread holds only what was granted to it |
| `Payments.ResumeAllowed` | x402/src/server.ts:4182-4247 | no receipt is issued before every payment it names was granted to this request |
| `Payments.PerformKeeps` | x402/src/server.ts:2461-2513 | every segment keeps the store exact, threads backed by grants and receipts backed by their own issuers |
| `Payments.StepKeeps` | x402/src/server.ts:4132-4247 | every step of every request keeps that invariant |
| `Payments.RunKeeps` | x402/src/server.ts:4132-4247 | it holds after every interleaving |
| `Payments.RunPaidFor` | x402/src/server.ts:4112-4119 | with netting off every stored receipt names an on-chain payment |
| `Payments.SharedPaymentsAreFarApart` | x402/src/server.ts:2461-2513 | two receipts that name one payment were granted it a full replay-key lifetime apart |
| `Window.OnePaymentOneReceipt` | x402/src/server.ts:4182-4247 | in every run, however long: if every payment is accepted and claimed within a window shorter than the replay-key lifetime, no payment backs two receipts |
| `Window.OnePaymentOneDelivery` | x402/src/server.ts:4613-4663 | nor is any payment delivered for twice |
| `Window.AgeCheckIsWindow` | x402/src/verifier/splTransfer.ts:362-377 | remark: with a known block time the age check accepts a transfer exactly within a window of the greatest age |
| `Window.VerdictClaimsNamed` | x402/src/server.ts:4182-4190 | a verdict leads to no claim but of the very payment that it accepts |
| `Window.RunInWindow` | x402/src/server.ts:4182-4247 | in every such run each payment was granted to a request within its window |
| `Window.UnsplitTimely` | x402/src/server.ts:4144-4247 | where no price is split it is enough that the verifier keeps to its window: every claim of a payment is then within it |
| `Window.FirstLifetimeInjects` | x402/src/verifier/replayStore.ts:169-179 | whatever the verifier accepts, receipts and deliveries inject into payments until a key lifetime after the start |
| `WindowExact.WindowExactly` | x402/src/server.ts:2461-2513 | one receipt and one delivery per payment in all runs whose payments are accepted and claimed within a window, if and only if the window is shorter than the key lifetime |
| `WindowExact.DefaultsInject` | x402/src/paymentVerifier.ts:118 | remark: with transfers of at most 900 seconds and keys of 24 hours it always holds |
| `StalledSplit.StalledSplitPaysTwice` | x402/src/server.ts:1985-2030 | a run whose payments are all accepted in one instant, in which a direct split stalled before its claims gets a second receipt for a payment |
| `Payments.OneReceiptOneDelivery` | x402/src/server.ts:2233-2249 | in every run different successful deliveries hand out different receipts |
| `Payments.DeliveriesSharePaymentsFarApart` | x402/src/server.ts:4613-4663 | in every run two deliveries that name one payment go back to grants to different requests, a full lifetime apart |
| `Window.DeliveriesInjectIntoPayments` | x402/src/server.ts:4613-4663 | under that window and with netting off, deliveries inject, in every run, into payments granted to the issuers of their receipts |
| `Delivery.RunLinks` | x402/src/server.ts:4048-4063 | in every reachable state whatever a waiting request refers to exists and is its own |
| `Delivery.RunTokens` | x402/src/server.ts:2233-2249 | in every reachable state a commit is consumed exactly while one thread holds its token |
| `Delivery.ConsumedMeansHeld` | x402/src/server.ts:2233-2249 | consumed if and only if a delivery is under way, succeeded, or failed without giving the token back; never two of them |
| `Delivery.ConsumedMeansDelivering` | x402/src/server.ts:4626-4663 | without overlapping finalize calls: consumed if and only if a delivery is under way or has succeeded |
| `Delivery.ConsumedExactly` | x402/src/server.ts:2233-2249 | in every reachable state: consumed means that a delivery is under way or has succeeded, if and only if no delivery failed without giving the token back |
| `Delivery.ServerErrorRestores` | x402/src/server.ts:2242-2249 | after a 5xx the token is given back if and only if the commit still has the delivered receipt, whose id does not change; a finalized commit is deliverable again |
| `Delivery.StepFinal` | x402/src/server.ts:4083-4089 | one step keeps a finalized commit final when its finalize calls do not overlap |
| `Finality.FinalityExactly` | x402/src/server.ts:4145-4362 | in every reachable state a finalized commit keeps status and receipt whatever follows, if and only if no call on it can still reject, issue or settle |
| `Finality.QuietStays` | x402/src/server.ts:4083-4089 | while no such call is left: whatever follows, no call on the commit begins or claims a key, and no receipt is signed or stored for it |
| `Finality.ThreatCarriedOut` | x402/src/server.ts:4144-4247 | every call that can still reject, issue or settle has a continuation in which it undoes the commit or replaces its receipt |
| `Finality.FinalizedIsAbsorbing` | x402/src/server.ts:4359-4362 | when calls on the commit have not overlapped so far: whatever follows, same receipt id, no call under way on it, no key claimed, no receipt signed or stored for it |
| `Delivery.RefinalizeIsIdempotent` | x402/src/server.ts:4083-4089 | finalizing again before expiry answers with the same receipt and changes nothing else |
| `Caps.Recording` | x402/src/server.ts:1651-1662 | recording moves an amount from in flight to recorded within the ceiling, on the same day or across a rollover |
| `Caps.Joining` | x402/src/server.ts:1664-1679 | a request that passed the check joins within the ceiling |
| `Caps.StepCapped` | x402/src/server.ts:4072-4130 | every step keeps recorded plus in-flight totals within the ceiling |
| `Caps.DailyCapUnderConcurrency` | x402/src/server.ts:1605-1691 | with at most k calls between check and record, recorded plus in flight is at most the daily cap plus the k-1 largest transactions, in every reachable state |
| `Caps.DailyCapWithoutOverlap` | x402/src/server.ts:1664-1691 | calls that do not overlap never exceed the cap |
| `CapsTight.DailyBoundAttained` | x402/src/server.ts:1605-1691 | that bound is exact, for either cap, with on-chain payments, while the other cap is off or no tighter: for every k some run with at most k calls in flight attains it |
| `Takings.CounterIsTheDaysReceipts` | x402/src/server.ts:1639-1691 | in every run the counter, rolled over to today, is the total of today's receipts from finalize calls |
| `Takings.TakingsAreCapped` | x402/src/server.ts:1605-1691 | with at most k calls between check and record, finalize calls take on no day more than the daily cap plus the k-1 largest transactions |
| `Takings.TakingsWithinCap` | x402/src/server.ts:1605-1691 | calls that do not overlap take on no day more than the cap |
| `Books.RunBalanced` | x402/src/server.ts:4249-4259 | in every run the ledger is sound and charges are receipts plus blocked charges, for every pair |
| `Books.LedgerAgreesWithReceipts` | x402/src/server.ts:4249-4298 | per pair, flushed plus outstanding equals the netting receipts' totals plus blocked charges, and equals the receipts alone if and only if nothing was blocked |
| `Books.UnblockedLedgerAgrees` | x402/src/server.ts:4249-4272 | if the guard blocks nothing, ledger and receipts agree for every pair |
| `Books.ServerFlushesExactly` | x402/src/server.ts:4448-4457 | in every reachable state a flush takes out exactly the entries that are due, in arithmetic, one batch each, after those of earlier flushes |
| `Books.ServerSignsOneChain` | x402/src/server.ts:2226-2231 | in every interleaving all signed receipts form one chain, and stored receipts are on it under their own ids |
| `Books.StoredReceiptVerifies` | x402/src/server.ts:4426-4433 | every receipt the server can hand out verifies |
| `Books.ReceiptsStateIssuedTerms` | x402/src/server.ts:2251-2270 | every receipt, also one for a header payment, states the terms of a quote this server issued |
| `Limits.PaymentsCanBeReused` | x402/src/verifier/replayStore.ts:169-179 | from every reachable state, if the verifier accepts it again a key lifetime later, a payment that backs a receipt backs a second, delivered one |
| `Limits.AlwaysTwoTenders` | x402/src/server.ts:2461-2513 | in every state two different unused on-chain payments can be presented for any quote |
| `Limits.FreshServerOpens` | x402/src/server.ts:4055-4130 | a fresh server is an opening for every price within its caps |
| `Limits.CommitOverlappable` | x402/src/server.ts:3989-4130 | from every opening a buyer reaches a commit for which every way to pay that is offered is admitted |
| `Limits.OverlapUndoesFinalized` | x402/src/server.ts:4145-4154 | from every opening and for every good payment, netting or not, a reachable run turns the finalized commit into a failed one, by an overlapping call with a refused proof |
| `Limits.OverlapPassesDailyCap` | x402/src/server.ts:4121-4130 | from every opening and for any two different good payments, a reachable run passes the daily cap, either one, by two calls checked before either is recorded, on the same day or a new one |
| `Limits.OverlapStrandsDelivery` | x402/src/server.ts:2242-2249 | from every opening and for any two different good payments, a reachable run leaves a commit consumed with no delivery of it, by a failed delivery whose receipt was replaced |
| `DirectSplit.IndexProofs` | x402/src/server.ts:1862-1873 | accepted exactly if no fee line is named twice |
| `DirectSplit.CollectLines` | x402/src/server.ts:1890-1983 | succeeds exactly if every line has a transfer proof that verifies under its own signature; the commit fails exactly if the verifier turned a line down |
| `DirectSplit.PreCheck` | x402/src/server.ts:1985-1995 | passes exactly if no key of any line is claimed, and changes no claim |
| `DirectSplit.ClaimLine` | x402/src/server.ts:2020-2030 | after the pre-check both claims of the next line are granted and add exactly its two keys |
| `DirectSplit.ClaimAll` | x402/src/server.ts:2020-2030 | the claim loop never fails midway and claims exactly the keys of all lines |
| `DirectSplit.PrimaryIsUnique` | x402/src/server.ts:1976-1982 | the primary proof is the last provider line, or the first line if there is none |
| `DirectSplit.PayableExactly` | x402/src/server.ts:1838-2030 | payable spelled out: every line has an item of its own with a transfer that covers it, accepted under a signature of its own, that was used neither as a whole nor for the line's terms |
| `DirectSplit.VerifyDirectSplitProofs` | x402/src/server.ts:1838-2047 | all or nothing: succeeds if and only if the request is payable, claims every key then and none otherwise, and returns one exact proof per requirement in order under distinct signatures |
| `SplitRuns.UninterruptedSplit` | x402/src/server.ts:1985-2030 | the state machine's steps of a direct split that nobody interrupts end as the uninterrupted call does: through with exactly its keys claimed, or refused with no claim changed |
| `SplitVerdicts.VerdictsExactly` | x402/src/server.ts:1890-1983 | an uninterrupted series of verdicts from the first line ends at the look at the keys if and only if every line has a transfer proof accepted under a signature of its own; otherwise the request is refused, and the commit fails if and only if the verifier turned a line down |
| `SplitVerdicts.SplitSettlesExactly` | x402/src/server.ts:4036-4424 | the whole finalize call on a split, left alone: it settles if and only if quote and caps allow it and the request is payable in the sense of the uninterrupted call; one receipt with the lines in order, exactly its keys, counted once; otherwise no receipt and no claim |
| `SplitOverlap.BrokenOff` | x402/src/server.ts:2020-2030 | a request that breaks off before its receipt is signed never gets one, and what it has claimed stays claimed |
| `SplitOverlap.RefusedClaim` | x402/src/server.ts:2020-2030 | a split whose claim is refused ends without a receipt for ever, and leaves keys claimed if and only if it was past its very first key: those of all lines before |
| `SplitOverlap.SplitCanBeInterrupted` | x402/src/server.ts:1985-2030 | from every reachable state with a two-line split and a single transfer at the verifier, a continuation claims the first payment for no receipt |
| `SplitOverlap.RaceIsReachable` | x402/src/server.ts:4036-4144 | a fresh server without caps can be in such a state, with a split that is part of a fee waterfall |
| `Client.FillIn` | x402/src/client.ts:449-465 | missing accepts and recommendation are filled in from the quote, and what is there stays |
| `Client.ChoosesExactly` | x402/src/client.ts:514-550 | which mode wins: a stream preferred or recommended, else netting preferred or recommended, else a transfer, else what can be paid; the proof is the wallet's for the quote |
| `Client.ChoiceIsOffered` | x402/src/client.ts:514-550 | remark: a proof is chosen if and only if some offered mode can be paid, and it is of such a mode |
| `Client.PaidMeansChecked` | x402/src/client.ts:609-859 | against any peer, in either flow: what is paid is within all limits, and every receipt kept or returned verifies and states the quoted terms, and the commit and payer if there was a commit |
| `Acceptance.PaidByCommit` | x402/src/client.ts:722-859 | the commit flow, spelled out: every receipt kept or returned has a hash and a signature that verify, states recipient, mint, total, mode and payment of the demanded quote and chosen proof, and the quote id, commit and normalised payer of the call; digests are for this request or the finalize exchange, and for this response |
| `Acceptance.PaidByHeaderOnly` | x402/src/client.ts:680-720 | the header flow, spelled out in the same way |
| `Acceptance.PaidExactly` | x402/src/client.ts:743-843 | after the commit the call is paid if and only if it is answered and the receipts pass exactly these checks |
| `Client.FinalizeBodyBinds` | x402/src/client.ts:768-785 | the finalize body that the receipt is checked against determines commit and proof |
| `Client.DeliveredAsPromised` | x402/src/client.ts:224-307 | against any peer, in either flow: an accepted delivery is what its receipt promises, or two texts with one hash |
| `Client.BareDelivery` | x402/src/client.ts:200-222 | remark: exactly which responses without a receipt are let through |
| `Client.BareRetry` | x402/src/client.ts:680-720 | remark: in the header flow every response without a receipt counts as paid, an error too |
| `Client.EmbedThenExtract` | x402/src/client.ts:264-265 | a receipt put into a body is found there, and deleting it gives the body back |
| `Client.Buyer.FetchWith402` | x402/src/client.ts:609-859 | in either flow the outcome is that of `Fetch`; receipts and spends are recorded only for a paid call; the limit of the recording date is kept if and only if it is the checked date or still has room |
| `Client.Buyer.RetryWithHeader` | x402/src/client.ts:680-720 | the header flow: the receipt in the header or else in the body is checked, and the quoted total is spent |
| `Client.RecordedLater` | x402/src/client.ts:655-852 | remark: a checked spend keeps the limit of the date it is recorded under if and only if that is the checked date or has room |
| `Client.MidnightPassesLimit` | x402/src/client.ts:655-852 | an input at which it does not: 5 checked on one day, recorded on the next where 8 of 10 are spent |
| `Spending.AloneIsOneCall` | x402/src/client.ts:652-852 | a call on the tracker that nothing overlaps does what the method does, also over midnight |
| `Spending.StepKept` | x402/src/client.ts:652-852 | every beginning, end or failure of a call and every midnight keeps recorded plus in-flight spends within the bound |
| `Spending.LimitUnderConcurrency` | x402/src/client.ts:652-852 | with at most k calls in flight, each date records at most the daily limit plus k-1 times the most one call may spend |
| `Spending.LimitWithoutOverlap` | x402/src/client.ts:652-852 | calls that do not overlap keep the daily limit, also over midnight |
| `Spending.LimitBoundAttained` | x402/src/client.ts:652-852 | the bound is exact: for every k some run attains it |
| `Client.Buyer.FinalizeAndFetch` | x402/src/client.ts:743-843 | the checks after the commit, in the order of the source |
| `Client.Buyer.SaveKept` | x402/src/client.ts:844-849 | stores every kept receipt under its id |
| `Handshake.RecommendedMode` | x402/src/server.ts:691-707 | the recommendation is one of the quote's modes |
| `Handshake.RecommendsExactly` | x402/src/server.ts:691-707 | remark: for issued quotes netting where enabled and worth it, else a stream for streams, else a transfer |
| `Handshake.OffersExactly` | x402/src/server.ts:709-719 | the buyer is offered every mode of an issued quote, and no other |
| `Handshake.BodyFields` | x402/src/server.ts:816-828 | remark: each kind of resource has a field of its own in the delivered body, besides `ok`, and none has a receipt |
| `Handshake.CommitSucceeds` | x402/src/server.ts:3989-4034 | a commit on a live quote with a normal payer is stored and nothing else changes |
| `Settling.AwaitSettles` | x402/src/server.ts:4144-4424 | whatever else is under way, a good payment at the verifier settles: its receipt is stored, its commit sealed and both caps counted, and no other key is claimed |
| `SingleFinalize.SettlesExactly` | x402/src/server.ts:4036-4424 | a finalize call with one proof, left alone, settles if and only if the quote lives, offers the way to pay and fits the caps, the verifier accepts the payment, and neither its name nor its name with these terms was used; the receipt then states quote, commit, payer and payment and the total is counted once; otherwise nothing is signed or charged, and the commit fails only over a rejected payment |
| `Handshake.FinalizeCompletes` | x402/src/server.ts:4036-4424 | a good proof for a ready commit stores the next receipt with the quoted terms, finalizes the commit and is counted once |
| `Handshake.FetchDelivers` | x402/src/server.ts:4613-4663 | a deliverable commit is served once with its receipt |
| `Handshake.FreshServerAccepts` | x402/src/server.ts:4055-4130 | the conditions of a session can be met: a fresh server with caps off lets every verified payment through |
| `Handshake.HandshakeCompletes` | x402/src/client.ts:609-859 | an affordable, allowed, unused payment: the uninterrupted call passes every check, returns the body with its receipt, and the server has served exactly one more request |
| `HandshakeExact.HandshakeExactly` | x402/src/client.ts:609-859 | both directions: an uninterrupted call is paid if and only if it is affordable, payable and properly named, quote, caps, mode and payment pass on the server, and the buyer's request digest is that of a GET of the bare path |
| `HandshakeExact.QueriesAreNotPaid` | x402/src/server.ts:4262-4265 | a paid GET was for the bare path of the resource, or two texts have one hash |
| `HandshakeExact.FinalizeOnlyIf` | x402/src/server.ts:4048-4247 | a finalize call on a fresh commit succeeds only if every one of its checks passes |
| `RateLimiter.FixedWindowRateLimiter.Allow` | x402/src/server.ts:929-944 | the decision and the whole new window table |
| `RateLimiter.RunSound` | x402/src/server.ts:929-944 | in every trace windows of one key never overlap and none gives more than the limit |
| `RateLimiter.AtMostTwiceTheLimit` | x402/src/server.ts:929-944 | any interval as long as a positive window, ends included, has at most twice the limit of grants for a key |
| `RateLimiter.NoWindowNoLimit` | x402/src/server.ts:929-944 | without a positive window every call is granted |
| `RateLimiter.TwiceTheLimitExactly` | x402/src/server.ts:929-944 | a number bounds the grants in such intervals of all traces if and only if the window is positive and the number is at least twice the limit |
| `RateLimiter.RefusedMeansFull` | x402/src/server.ts:929-944 | a refusal means that the last window's length holds at least the limit of grants already |
| `Base58.AddByte` | extensions/null-resolver/codec.js:34-43 | multiplying by 256 and adding in place: the carry stays at most 255 and digits below 58 |
| `Base58.Base58Encode` | extensions/null-resolver/codec.js:31-49 | the nested loops compute `Encode` |
| `Base58.AlphabetExactly` | extensions/null-resolver/codec.js:27-28 | the digits are exactly the 58 characters of the alphabet, in its order |
| `Base58.DigitsCanonical` | extensions/null-resolver/codec.js:32-44 | the digits are the canonical base-58 numeral of the bytes; the top digit is not zero |
| `Base58.RoundTripExactly` | extensions/null-resolver/codec.js:31-49 | the standard decoder returns the input if and only if some byte is not zero |
| `Base58.DecodeEncode` | extensions/null-resolver/codec.js:45-48 | what the standard decoder returns, for every input |
| `Base58.ZerosEncode` | extensions/null-resolver/codec.js:45-47 | n zeros give n+1 ones |
| `Base58.EncodeInjective` | extensions/null-resolver/codec.js:31-49 | no two byte arrays have one encoding |
| `Resolver.PadName` | extensions/null-resolver/codec.js:53-59 | 64 bytes starting with the name and ending in zeros, unless the name is longer |
| `Resolver.FiltersAgree` | extensions/null-resolver/codec.js:70-77 | two names have the same filters if and only if they differ at most in trailing NULs, so NUL-free names only if equal |
| `Resolver.SelectsByName` | extensions/null-resolver/codec.js:70-77 | exactly which accounts the filters select |
| `Resolver.EmptyNameMisses` | extensions/null-resolver/codec.js:70-77 | the empty name finds its account if and only if the owner starts with a zero byte |
| `Resolver.DecodeContentHash` | extensions/null-resolver/codec.js:81-86 | fails exactly on short blobs and a wrong discriminator; otherwise bytes 97 to 128 |
| `Resolver.NameResolves` | extensions/null-resolver/codec.js:70-86 | the filters select a packed domain if and only if it stores the name, and decoding yields its content hash |
| `FlightRecorder.EncodedInjective` | crates/agent-flight-recorder/src/lib.rs:33-50 | the hashed bytes determine every field |
| `FlightRecorder.ChainValid` | crates/agent-flight-recorder/src/lib.rs:98-117 | valid if and only if every link holds; otherwise the least broken index |
| `FlightRecorder.ChainBinding` | crates/agent-flight-recorder/src/lib.rs:98-117 | two valid chains whose last receipts hash alike are identical, or a collision or a receipt hashing to zeros is exhibited |
| `FlightRecorder.TamperIsLocalised` | crates/agent-flight-recorder/src/lib.rs:98-117 | changing anything but the back link of receipt k is reported at exactly k+1, or a collision is exhibited |
| `FlightRecorder.TamperAtTheEdges` | crates/agent-flight-recorder/src/lib.rs:98-117 | changing a back link is reported right there; changing the last receipt otherwise is not noticed |
| `FlightRecorder.RevealBinding` | crates/agent-flight-recorder/src/lib.rs:90-140 | two reveals accepted for one root have the same receipts, or a collision is exhibited |
| `PermissionNotes.NoteBinding` | crates/agent-permission-notes/src/lib.rs:47-80 | notes with one hash are one note, or a collision is exhibited, also through the nested scope hashes |
| `PermissionNotes.NullifierBinding` | crates/agent-permission-notes/src/lib.rs:93-115 | spends with one nullifier are for one note, one scope and one slot, or a collision is exhibited |
| `PermissionNotes.AcceptedExactly` | crates/agent-permission-notes/src/lib.rs:159-216 | remark: acceptance in exact arithmetic, check by check |
| `PermissionNotes.AcceptedForThisNote` | crates/agent-permission-notes/src/lib.rs:93-115 | an accepted spend was made for that very note, or a collision is exhibited |
| `PermissionNotes.TotalsNeverExceeded` | crates/agent-permission-notes/src/lib.rs:191-198 | below the largest u64 the exact sum of accepted spends never exceeds the limit |
| `PermissionNotes.ExceededExactlyAtLargest` | crates/agent-permission-notes/src/lib.rs:191-198 | a limit can be exceeded if and only if it is the largest u64 |
| `Catalog.WeightedAverageCost` | x402/src/catalog.ts:68-87 | the loop computes the average rounded up, or the first cost if no weight counts |
| `Catalog.AverageBetween` | x402/src/catalog.ts:68-87 | the average lies between the least and the greatest cost |
| `Catalog.FloorDivIsLargest` | x402/src/catalog.ts:60-66 | the largest number of calls that fit, or the largest safe integer if that is less |
| `Catalog.CoverageIsOrdered` | x402/src/catalog.ts:114-166 | premium calls <= typical calls <= cheapest calls for every catalog, balance and usage log |
| `Catalog.CoverageExactly` | x402/src/catalog.ts:114-166 | the estimates are the largest numbers of calls that fit at the least, the greatest and the average cost, up to the largest safe integer; nothing without tools or balance |
| `Catalog.AverageExactly` | x402/src/catalog.ts:68-87 | a number is the average if and only if it is the weighted sum over the weights rounded up, or the first cost if no weight counts |
| `Catalog.RecentUnitsAdds` | x402/src/catalog.ts:131-135 | every log of the last seven days adds its whole units, at least one, to its tool's weight, and no other log adds anything |
| `Catalog.MixExactly` | x402/src/catalog.ts:131-141 | the mix is the recent one if and only if a tool of the catalog was used in the last seven days; else the typical units, one if not given |
| `Catalog.CoverageIsConservative` | x402/src/catalog.ts:126-166 | typical calls times the weighted cost sum is at most balance times the weight sum, and one call more would not fit |
| `FogRouter.AppendDecoys` | crates/alt-fog-router/src/lib.rs:105-111 | appends the decoys that are new, in order, with a saturating count |
| `FogRouter.BuildFogTx` | crates/alt-fog-router/src/lib.rs:92-128 | the whole rewritten message and the reported count |
| `FogRouter.RolesKeptExactly` | crates/alt-fog-router/src/lib.rs:102-117 | roles are kept and new keys are read-only non-signers if and only if the read-only count fits a u8 |
| `FogRouter.FogPreservesMeaning` | crates/alt-fog-router/src/lib.rs:92-128 | while loaded addresses keep their places and counts fit: same instructions, same keys, same roles, distinct keys, exact count |
| `FogRouter.KeysKeptExactly` | crates/alt-fog-router/src/lib.rs:92-111 | every index resolves to the same key if and only if the loaded addresses read the same with the new decoys in front |
| `FogRouter.DecoyCountExactly` | crates/alt-fog-router/src/lib.rs:104-119 | remark: the reported count is exact if and only if at most 255 keys were added |
| `FogRouter.LookupsAreShifted` | crates/alt-fog-router/src/lib.rs:92-111 | when no loaded address is a decoy: every index keeps its key if and only if nothing is loaded or no decoy is new |

## Left out

- DailyBoundAttained: shown for servers whose other cap is off or no tighter, and for a positive largest transaction; the bound itself holds for all, and where the two caps cross the smaller of their bounds is not shown to be attained.
- StalledSplitPaysTwice: how long a split may stall is not bounded, as the source sets no limit; a bound would only widen the window.
- The verifier itself (balances, signers, memo, commitment level): its answer is an input. Its age check is modelled, and so is the case that it keeps to its window; that block times are right is taken for granted.
- Buyers whose overlapping calls have different limits: all calls on one spend tracker are made under the same options.
- OnSplitVerify: the verifier's error code is not modelled; 402 stands for the status it maps to, and so it does for a rejected single proof and for invalid split amounts.
- The durable replay backend (Postgres): the model is the in-process store; a second server process is not modelled.
- `createReplayKey`: the five fields stand for their hash, as if hashing them were injective.
- The spend guard, admin, tips, market, anchoring, audit-fixture and webhook routes, CORS and host checks: plumbing around the protocol; a request that the guard refuses is one that does not happen.
- Header parsing for header payments: the checks on network, currency and proof fields are one flag of the request.
- The several writes to the fee ledger after a receipt are one wait: nothing the model can see happens between them.
- Prices, fee policies and fee waterfalls: a quote's amount, fee and split lines are parameters, where only a waterfall has lines; `validateSplitFinalizeRequest` is modelled on the results that the direct-split loop collects.
- Requests other than GET with no query string on the finalize side: `/finalize` signs a receipt for GET of the bare resource path, as the source does.
- Binary and text bodies in digests: bodies are JSON values.
- Pricing models behind a tool's baseline cost, and the projected spend of a coverage estimate: a cost is a number here.
- NaN and infinite weights: weights are reals.
- `redact` and `verify_chain_permission` of the flight recorder, revocation and rotation of permission notes, decoy generation and the floating-point score of the fog router: each is settled by reading one expression.
- UTF-8 encoding of names and base64 decoding of accounts: both codecs start from bytes.
- The floating-point scoring crates and the single-check crates: they would only add easy members.
