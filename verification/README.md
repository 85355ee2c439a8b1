# Invoice payments, proved

A Dafny model of an invoicing service: invoices are priced, paid through a payment service provider (PSP), announced
to an event feed and delivered by webhook. The Rust service coordinates request handlers and background workers on any
number of replicas through Postgres alone; what can go wrong is in the interleavings, so most of this project is about
whole runs.

- **Payments.** `Transactions` gives every transaction on invoices, payment attempts, idempotency keys and events as a
  function on the committed tables; `Database` is a class whose methods perform the same transactions statement by
  statement, proved equal to those functions. `PaymentProtocol` puts the transactions into a step system with open
  claims, request handlers, charge requests in the network, the PSP's charges, what workers hold in memory, and a
  clock. Steps may be taken in any order; a crash or timeout is dropped work. `PaymentInvariant` and
  `PaymentPreservation` hold the inductive invariant and its proof, step by step. `PaymentTheorems` draws the
  consequences; `PaymentSafetyWindow`, `PaymentRejections` and `PaymentLiveness` settle exactly when they hold.
  `PaymentEffects` states what each transaction and each reply does, case by case; `PaymentTokens` follows a card token
  from the request to the answer.
- **Workers.** `ReconcileQueue` (who is looked at next), `ReconcileProgress` (every run settles), `Deliveries` (one
  webhook delivery under leases, late results and crashes) and `DeliveryTable` (the tables the dispatcher updates).
- **Events.** `History` (what one invoice's events say), `EventFeed` (sequence numbers drawn under a row lock, and a
  reader that follows its cursor), `EventLog` (the table), `OutboxFeed` (payments and feed together, as a reader sees
  them), `Pagination` (limits, pages, keyset walks).
- **Kernels.** `Pricing`, `Signature` over `Text`, `ApiKeys`, `InvoiceState`, `Psp`, `Config`, `Sql`.

`dafny verify dfyconfig.toml` checks everything.

## Assumptions

- **Charge requests keep up** (`PaymentInvariant.Timely`). The service checks that the PSP timeout is below the grace
  window (invoicing/src/config.rs:55). Neither part of a request's delay is bounded by that: the model assumes that a
  request is sent within `sendDelay` of its claim, and that it reaches the PSP within `pspTimeout` of being sent or not
  at all (the step `PspReceives`; the client's timeout alone does not stop bytes under way). With these it requires
  `sendDelay + pspTimeout <= grace`, or a `sendDelay` under the one second which the reconciler's first look leaves.
  `NoDoubleChargeIffTimely` proves that this condition is exact.
- The PSP never forgets a charge and answers a repeated key with the first outcome. A 200 with an outcome, and a 404 to
  a lookup, are its own words. Any other reply, or none, may come from anywhere: every step that hears from the PSP takes
  an arbitrary such reply and reads it as the client does.
- HMAC-SHA256 is an arbitrary function. Distinct requests have distinct fingerprints: the hashed text starts with an id
  of fixed length, so only a collision of SHA-256 could make them equal.
- Fresh identifiers are fresh. They are natural numbers here, ordered like the time-ordered UUIDs they stand for.
- A transaction commits or aborts as a whole, and statements see what was committed when they began, as under READ
  COMMITTED. Locks held across statements are explicit wherever a result depends on them.

## Where the code and its comments part

- `apply_transition` compares and sets in one statement and reads the invoice in a second to explain a failure; the
  comment there (invoicing/src/invoices/mod.rs:83-84) calls a change in between harmless. It is harmless to invoices,
  but not to the caller: a decline can land between the two statements, and the claim then stores a 409 that says the
  invoice is open, for ever, against an invoice that can be paid. `OpenRejectionHappens` is such a run, from the initial
  state; `StoresOpenIff` says exactly when a waiting claim can end that way. Taken as one step, the pair is safe
  (`AtomicRejectionsArePermanent`).
- The startup checks on timeouts do not by themselves give what they are there for. `NoDoubleChargeIffTimely` and
  `OneCallIffItFits` state what is missing: in both cases, a bound on the delay before the call is made.
- A crash during a webhook's eighth delivery allows a ninth: `attempt_count` may exceed eight (`CrashesDoNotExhaust`),
  exactly as long as the row is pending (`NinthAttemptIff`). What is bounded is the number of accepted results
  (`RetryBudget`).

## Model

| member | source | states |
|---|---|---|
| `PaymentTheorems.MoneyIsConserved` | invoicing/src/payments.rs:134-293 | In every reachable state, the money the PSP has taken is the sum of paid invoices' totals plus the amounts of pending attempts it has already charged. |
| `PaymentTheorems.ChargedAtMostOnce` | invoicing/src/payments.rs:134-293 | In every reachable state each successful charge is for the total of one invoice, which is processing or paid, and no second charge on it succeeded. |
| `PaymentTheorems.PaidMeansCharged` | invoicing/src/payments.rs:234-293 | A paid invoice has a successful charge of exactly its total, whose reference is on its succeeded attempt. |
| `PaymentSafetyWindow.NoDoubleChargeIffTimely` | invoicing/src/config.rs:55-57 | For every configuration the service starts with: no run charges an invoice twice if and only if charge requests are timely. |
| `PaymentSafetyWindow.UntimelyChargesTwice` | invoicing/src/reconciler.rs:88-100 | Without timeliness, a concrete run gives an attempt up as unrecorded, lets the invoice be paid again, and sees both charges arrive. |
| `PaymentTheorems.NoRecordStaysNoRecord` | invoicing/src/reconciler.rs:62-95 | A worker concludes `psp_no_record` only on the PSP's 404 and past the grace window, and then the PSP holds no charge for that attempt in that state or any later one. |
| `PaymentTheorems.NoRecordMeansNoCharge` | invoicing/src/reconciler.rs:91-94 | An attempt that failed with `psp_no_record` has no charge in that state or any later one, however stale the worker that settled it. |
| `PaymentTheorems.RepliesSettleTruthfully` | invoicing/src/psp.rs:60-96 | Whatever reply arrives, an attempt is settled only as the PSP has it recorded, from a 200 that carries that outcome; or failed for want of a record, from the PSP's own 404 past the grace window. |
| `Psp.OnlyDefiniteRepliesConclude` | invoicing/src/psp.rs:69-95 | For all replies: an outcome is read from a 200 that carries it and nothing else, no record from a 404 and nothing else; a lost reply, another status or a body that does not parse settles nothing. |
| `PaymentEffects.ChargeByReply` | invoicing/src/payments.rs:134-150 | A handler settles the outcome a 200 carries; on any other reply it leaves the attempt pending. |
| `PaymentEffects.LookByReply` | invoicing/src/reconciler.rs:88-100 | By the reply to its lookup, a worker settles, fails an attempt past its grace window on a 404, or reschedules with the count of this check. |
| `PaymentTheorems.SettledForGood` | invoicing/src/payments.rs:250-266 | A settled attempt's row never changes, and agrees with the PSP in every later state. |
| `PaymentTheorems.SettleReturnsStored` | invoicing/src/payments.rs:263-301 | No settlement in any run takes an "invariant violated" or "no stored response" branch; it returns what is then stored. |
| `PaymentTheorems.SettlementIsConfluent` | invoicing/src/payments.rs:231-301 | Whoever settles an attempt later, and with whatever answer, changes nothing and gets the reply of whoever settled it first. |
| `PaymentTheorems.KeysAreWriteOnce` | invoicing/src/idempotency.rs:3-6 | A visible key has a response exactly when it has no pending attempt; fingerprint, attempt and response never change once there. |
| `PaymentTheorems.StoredAnswersStayTrue` | invoicing/src/payments.rs:303-315 | A stored 200 means the PSP took the money, then and ever after, and shows a paid invoice; a stored 402 means it never will, shows an open one and carries the PSP's code. |
| `PaymentTheorems.RepeatsAreInert` | invoicing/src/payments.rs:125-132 | A used key changes no state at all; another fingerprint gets 422, the same one the stored answer or a pending attempt, never "key in use". |
| `PaymentTheorems.PendingResponseAgrees` | invoicing/src/payments.rs:326-335 | With its two reads any distance apart, the pending path answers 202 exactly for a pending attempt, and otherwise with the status and error code of the stored answer. |
| `PaymentTheorems.OneRequestPerKey` | invoicing/src/payments.rs:134-150 | Over a whole run at most one charge request is sent per (business, key), and none without a key. |
| `PaymentTokens.RequestsCarryTheKey` | invoicing/src/payments.rs:123-134 | That request carries the card token the key stands for and asks for the total of the caller's invoice. |
| `PaymentTokens.TokenDecidesAnswer` | harness/src/mock_psp.rs:107-117 | What a key is told is what its token decides: 200 only for a card that pays, the PSP's own code for one it declines; or no record, and then nothing was recorded. |
| `PaymentTheorems.StatusesAgree` | invoicing/migrations/0003_payment_attempts_and_idempotency.sql:9-27 | Processing iff exactly one pending attempt, paid iff exactly one succeeded attempt; amounts equal the total; the CHECKs and partial unique indexes hold without being enforced. |
| `PaymentTheorems.OutboxRefinesInvoice` | invoicing/src/events.rs:51-74 | In commit order, an invoice's events read created, payment_failed*, then at most one of paid or voided; as many failures as failed attempts, and the ending is the stored status. |
| `OutboxFeed.ReaderSeesHistory` | invoicing/src/events.rs:51-130 | Payments and feed as one system: in `seq` order, what a reader has consumed about an invoice of its business is a prefix of that history, and all of it once the reader has caught up. |
| `OutboxFeed.StepKeepsInv` | invoicing/src/events.rs:57-74 | Whatever interleaves, the feed holds exactly the payment tables' events, and within a business commit order is `seq` order. |
| `History.FoldGivesShape` | invoicing/src/invoices/state.rs:3-12 | A history that folds without breaking is, event for event, the one its final state prescribes. |
| `PaymentTheorems.LeadsEvolves` | invoicing/src/payments.rs:170-293 | Over any run nothing recorded is unrecorded: terminal invoices, settled attempts, stored responses, events, sent requests and charges all stay as they are. |
| `PaymentRejections.AtomicRejectionsArePermanent` | invoicing/src/payments.rs:186-207 | With compare-and-set and read as one step: refused, unstored, iff the invoice is processing; 404 iff the caller has no such invoice; a stored 409 iff paid or void, which any fresh key gets again in every later state. |
| `PaymentEffects.FirstUseByStatus` | invoicing/src/payments.rs:186-228 | The first use of a key, by the caller's invoice: missing, a stored 404; open, claimed for its total with every column written; processing, a 409 and nothing stored; paid or void, a stored 409. |
| `PaymentEffects.RepeatByRow` | invoicing/src/idempotency.rs:100-115 | A used key answers by its row: 422, the stored reply, the pending attempt. |
| `PaymentEffects.ExplainByStatus` | invoicing/src/invoices/mod.rs:83-88 | The second statement, whatever was committed in between: nothing stored for a processing invoice, otherwise the reply that names what was read. |
| `PaymentEffects.ClaimIsTheTransaction` | invoicing/src/payments.rs:170-229 | The protocol's two steps, uninterrupted, are the claim. |
| `PaymentEffects.ClaimThenSend` | invoicing/src/payments.rs:125-134 | A claim leaves one charge to send, with the caller's card, for the amount it returned. |
| `PaymentRejections.StoredRejectionWasTrue` | invoicing/src/payments.rs:192-206 | Over runs, every rejection a key holds was true when read: a 404 means the caller had no such invoice, a 409 that it had the status named, which was not Processing. |
| `PaymentRejections.StoredRejectionsNeverNameProcessing` | invoicing/src/payments.rs:192-206 | Statement by statement, a stored rejection is a 404 or a 409 that does not name Processing. |
| `PaymentRejections.RejectionIsPermanentIff` | invoicing/src/invoices/mod.rs:79-88 | After a failed compare-and-set, the explaining read can never find the invoice open if and only if it was terminal or its pending attempt had been charged. |
| `PaymentRejections.StoredOpenRejection` | invoicing/src/invoices/mod.rs:83-88 | From a claim waiting to explain itself on an invoice that may reopen, a run stores a 409 "open" that its key is answered with for ever, although the invoice is payable. |
| `PaymentRejections.OpenRejectionHappens` | invoicing/src/invoices/mod.rs:83-88 | Under every configuration a run from the initial state ends that way: two claims, the first of which fails between the statements of the second. |
| `PaymentRejections.StoresOpenIff` | invoicing/src/payments.rs:195-199 | A waiting claim can come to store that 409 if and only if its invoice is missing and might be created, or is the caller's and neither terminal nor charged. |
| `PaymentRejections.CommittedForGood` | invoicing/src/invoices/state.rs:14-18 | An invoice that is terminal, or for which money was taken, is never open again in any run. |
| `PaymentLiveness.NoInvoiceIsStuck` | invoicing/src/reconciler.rs:88-106 | From every reachable state some run (a wait and one reconciler pass) settles any given pending attempt as the PSP decided, and its invoice with it, whatever was lost before. |
| `PaymentLiveness.EveryInvoiceCanSettle` | invoicing/src/reconciler.rs:1-8 | So from every reachable state some run leads to no pending attempt and no processing invoice. |
| `ReconcileProgress.EveryRunSettles` | invoicing/src/reconciler.rs:33-106 | In every run, each pass that finds none of the wanted attempts locked brings the number still pending down by sixteen until none is left, starting from at most the number due; the others are settled as the PSP decided. |
| `ReconcileProgress.EnoughPassesSettleAll` | invoicing/src/reconciler.rs:56-86 | So d/16 passes, rounded up, settle all of them in every run that begins with d attempts due and no late claim. |
| `ReconcileProgress.AllPendingSettle` | invoicing/src/reconciler.rs:1-8 | The same for all attempts pending at a given moment, due or not, in every run that lasts a minute before those passes. |
| `ReconcileProgress.StepTakesUp` | invoicing/src/reconciler.rs:88-106 | Once the PSP's answer is definitive, a worker that takes an attempt up can do nothing but settle it, and nobody can put it back. |
| `PaymentPreservation.ReachableInv` | invoicing/src/payments.rs:170-301 | The invariant over tables, network, PSP, workers and clock holds in every reachable state. |
| `PaymentPreservation.StepKeepsInv` | invoicing/src/payments.rs:170-301 | Every step of every party keeps the invariant. |
| `PaymentPreservation.ClaimKeepsTables` | invoicing/src/payments.rs:209-225 | A successful claim keeps rows, invoice-attempt agreement, keys and event history consistent. |
| `PaymentPreservation.ExplainKeepsTables` | invoicing/src/payments.rs:192-206 | So does a rejected one, stored or rolled back. |
| `PaymentPreservation.SettleKeepsTables` | invoicing/src/payments.rs:234-293 | So does a settlement, whatever it says and whoever it races. |
| `PaymentPreservation.SettleApplies` | invoicing/src/payments.rs:268-281 | A pending attempt's invoice always matches the settlement's compare-and-set. |
| `PaymentEffects.SettleByCases` | invoicing/src/payments.rs:241-292 | A settlement of a pending attempt writes outcome and moment, pays or reopens the invoice, appends one event and stores exactly the reply it returns; one of a settled attempt changes nothing. |
| `PaymentEffects.VoidByStatus` | invoicing/src/invoices/handlers.rs:155-172 | Voiding, by the caller's invoice: 404, voided with its moment and one event, or the 409 that names why not. |
| `PaymentEffects.PassTakesInOrder` | invoicing/src/reconciler.rs:64-70 | A pass takes at most sixteen pending, due, free rows, none twice, and leaves none behind for one due later. |
| `PaymentEffects.PassWrites` | invoicing/src/reconciler.rs:71-85 | Each row taken is put off 30 s, its check counted, and handed on with that count and its grace flag; no other row changes. |
| `PaymentEffects.RescheduleByCases` | invoicing/src/reconciler.rs:108-134 | Rescheduling writes the backoff of this check to a pending row, 1, 2, 4, ... 32, 60 s, and nothing else. |
| `PaymentPreservation.SettleKeepsMoney` | invoicing/src/payments.rs:241-281 | A settlement that tells the truth moves a taken charge from in flight to paid, and no other money. |
| `PaymentPreservation.ReceiveKeepsMoney` | harness/src/mock_psp.rs:119-134 | A charge request that arrives, first or repeated, keeps the balance. |
| `PaymentPreservation.LookKeepsOutside` | invoicing/src/reconciler.rs:88-100 | What a lookup lets a worker conclude is what the PSP recorded, or a failure that can no longer be contradicted. |
| `Database.Database.Reserve` | invoicing/src/idempotency.rs:118-157 | A new key is inserted blank; a used one is returned and nothing changes. |
| `Database.Database.AttachAttempt` | invoicing/src/idempotency.rs:159-172 | Sets the attempt of exactly one key. |
| `Database.Database.Complete` | invoicing/src/idempotency.rs:174-191 | Sets the response of exactly one key. |
| `Database.Database.CompleteForAttempt` | invoicing/src/idempotency.rs:193-210 | Stores the response against the attempt's key unless it has one. |
| `Database.Database.ResponseForAttempt` | invoicing/src/idempotency.rs:212-225 | Returns what is stored for the attempt, if anything. |
| `Database.Database.ApplyTransition` | invoicing/src/invoices/mod.rs:57-89 | Applied iff invoice, business and source status match, writing one row; otherwise unchanged, with the status or absence that explains it. |
| `Database.Database.CreateInvoice` | invoicing/src/invoices/handlers.rs:55-59 | Adds an open invoice and its event, keeping the tables consistent. |
| `Database.Database.VoidInvoice` | invoicing/src/invoices/handlers.rs:155-172 | Voids an open invoice and records it, or changes nothing and returns the error. |
| `Database.Database.ClaimInvoice` | invoicing/src/payments.rs:170-229 | Statement by statement this is the claim the protocol uses, including the rollback on Processing, and it keeps the tables consistent. |
| `Database.Database.SettleAttempt` | invoicing/src/payments.rs:234-301 | Likewise for the settlement, including both rollbacks and the stored reply of an attempt that was settled already. |
| `Database.Database.ClaimDue` | invoicing/src/reconciler.rs:62-86 | Leases the first sixteen due attempts by `reconcile_after` that nobody has locked, counts the check, computes the grace flag, touches no other row; a batch that is not full leaves only locked rows due. |
| `Database.Database.Reschedule` | invoicing/src/reconciler.rs:108-128 | Puts a still-pending attempt off by the backoff, after now and within a minute; leaves a settled one alone. |
| `Transactions.Backoff` | invoicing/src/reconciler.rs:130-134 | 1, 2, 4, ... 32 s for checks one to six, then 60 s; 1 s for a count below one. |
| `ReconcileQueue.NoStarvation` | invoicing/src/reconciler.rs:62-86 | In every protocol run, a due attempt with k ahead is left alone by at most (k + late claims)/16 passes that do not find it locked, however many others do. |
| `ReconcileQueue.WritesAreLater` | invoicing/src/reconciler.rs:108-133 | A step writes `reconcile_after` strictly after now, or clears it, unless it is a claim that commits after its own first look is due: exactly then does somebody join ahead. |
| `ReconcileQueue.NeverPutOffLong` | invoicing/src/reconciler.rs:22-31 | In every reachable state a pending attempt's next look lies at least the PSP timeout and a second after its claim, and at most 60 s ahead. |
| `ReconcileQueue.ChecksCountLeases` | invoicing/src/reconciler.rs:71-85 | In every reachable state, the check count a worker carries is at least one and at most the times its attempt was leased, and the first look was due. |
| `Psp.MockPsp.CreateCharge` | harness/src/mock_psp.rs:100-138 | Records before answering and never twice, for the amount asked and with the outcome of the token; a definitive answer is the recorded outcome and does not precede its settling. |
| `Psp.MockPsp.LookupCharge` | harness/src/mock_psp.rs:140-147 | Unknown iff nothing is recorded; known, with the recorded outcome, iff it has settled. |
| `Psp.RecordedForever` | harness/src/mock_psp.rs:119-134 | Over any sequence of requests a recorded charge keeps its amount and outcome, and only a requested key is ever charged. |
| `Config.Config.Validate` | invoicing/src/config.rs:40-67 | Accepts exactly the configurations that satisfy the timing inequalities the proofs use. |
| `EventFeed.FeedNeverSkips` | invoicing/src/events.rs:51-130 | Whatever locks, draws, inserts, commits, aborts and reads interleave, a cursor reader holds exactly its business's committed events up to its cursor, once each, in order. |
| `EventFeed.LastPageCatchesUp` | invoicing/src/pagination.rs:24-32 | A page with `has_more` false leaves the reader with every event committed so far. |
| `EventFeed.NumbersFollowCommits` | invoicing/src/events.rs:57-65 | `seq` order is commit order within a business. |
| `EventFeed.ExactIffLocked` | invoicing/src/events.rs:57-65 | The reader is exact in every run if and only if the number is drawn under the business row lock. |
| `EventLog.EventLog.LockBusiness` | invoicing/src/events.rs:62-65 | Opens a transaction holding the business row, changing nothing visible. |
| `EventLog.EventLog.DrawNumber` | invoicing/migrations/0004_events_and_webhooks.sql:23-29 | A fresh number, above every committed one of the business. |
| `EventLog.EventLog.InsertRow` | invoicing/src/events.rs:67-74 | Adds one row with the number drawn, invisible until commit. |
| `EventLog.EventLog.Record` | invoicing/src/events.rs:51-74 | Lock, draw and insert: one uncommitted row under the next number, and the log stays consistent. |
| `EventLog.EventLog.Commit` | invoicing/src/events.rs:57-61 | Publishes exactly the transaction's rows, all numbered above what its business had committed. |
| `EventLog.EventLog.Abort` | invoicing/src/events.rs:57-61 | Publishes nothing and leaves a gap. |
| `EventLog.EventLog.ListEvents` | invoicing/src/events.rs:100-130 | Rejects bad limits and cursors that are not events of the business; otherwise the first rows after the cursor, and whether more exist. |
| `Pagination.ResolveLimit` | invoicing/src/pagination.rs:11-16 | Twenty by default; otherwise the requested limit iff it lies in 1 to 100. |
| `Pagination.FromOverfetch` | invoicing/src/pagination.rs:27-32 | Truncates in place to the page the proofs reason about. |
| `Pagination.OverfetchIsFirst` | invoicing/src/pagination.rs:24-32 | Fetching one extra row yields exactly the first `limit` rows, and `has_more` iff any row is left. |
| `Pagination.WalkIsComplete` | invoicing/src/invoices/handlers.rs:133-153 | Following `starting_after` with any limits, whatever rows appear above or below the cursor, collects rows newest first, none twice, and every row that matches throughout; all of those when `has_more` is false. |
| `Pagination.CollectedWereRead` | invoicing/src/invoices/handlers.rs:139-145 | Every row collected matched, below the cursor, when it was read. |
| `Pagination.WalkIsExact` | invoicing/src/invoices/handlers.rs:133-153 | If nothing new was read on the way, that is exactly the original list down to the cursor. |
| `Deliveries.FinishedForGood` | invoicing/src/webhooks/dispatcher.rs:140-171 | Over any run, delivered, exhausted and cancelled rows never change, and attempt numbers only grow. |
| `Deliveries.ResultsAreFenced` | invoicing/src/webhooks/dispatcher.rs:140-171 | A result counts iff its lease is the newest and the row pending; the row is then delivered, exhausted at the eighth attempt, or put off by the documented wait of that attempt within a tenth. Otherwise the row is as it was. |
| `Deliveries.RetriesWait` | invoicing/src/webhooks/dispatcher.rs:21-32 | Over any run, the attempt after a recorded failure is leased no earlier than the documented wait after it. |
| `Deliveries.WaitsAsDocumented` | invoicing/src/webhooks/dispatcher.rs:21-33 | The delay drawn after each attempt: 30 s, 2 min, 10 min, 30 min, 1 h, 2 h, 4 h, within a tenth. |
| `Deliveries.LeasingAndDisabling` | invoicing/src/webhooks/dispatcher.rs:86-108 | A lease needs a pending row whose time has come, counts an attempt and holds the row a minute; disabling cancels a pending row only. |
| `Deliveries.OneCallIffItFits` | invoicing/src/webhooks/dispatcher.rs:35-37 | No delivery ever has two calls in flight if and only if start delay plus timeout is below the lease. |
| `Deliveries.AttemptsAreAccountedFor` | invoicing/src/webhooks/dispatcher.rs:86-187 | `attempt_count` equals results plus lost plus outstanding leases. |
| `Deliveries.RetryBudget` | invoicing/src/webhooks/dispatcher.rs:153-194 | Over any run at most seven recorded failures leave the row pending, each putting it off by 27 s or more, and at most eight results are accepted. |
| `Deliveries.ExhaustedAfterEight` | invoicing/src/webhooks/dispatcher.rs:21-33 | With every result accepted, exhausted iff exactly eight failures; the row's due times then lay 27750 s after the failures in all, within a tenth, and first and eighth lease at least that far apart. |
| `Deliveries.CrashesDoNotExhaust` | invoicing/src/webhooks/dispatcher.rs:86-108 | A row can be leased and lost any number of times and still be pending. |
| `Deliveries.NinthAttemptIff` | invoicing/src/webhooks/dispatcher.rs:86-108 | From any state, `attempt_count` can exceed eight if and only if it does already or the row is still pending. |
| `DeliveryTable.DeliveryTable.FanOut` | invoicing/src/events.rs:76-85 | A row for this event exists iff its endpoint is this business's and not disabled; each is pending with no attempt, and every other row is as before. |
| `DeliveryTable.DeliveryTable.LeaseDue` | invoicing/src/webhooks/dispatcher.rs:86-108 | Leases the first 32 due rows that nobody has locked; each gets its next attempt number, is held under it and is no longer due; a batch that is not full leaves only locked rows due. |
| `DeliveryTable.DeliveryTable.RecordResult` | invoicing/src/webhooks/dispatcher.rs:140-171 | Writes the one row: delivered, exhausted at the eighth failure, or pending with the documented wait of that attempt; a superseded result changes nothing. |
| `DeliveryTable.DeliveryTable.DisableEndpoint` | invoicing/src/webhooks/endpoints.rs:87-112 | Keeps the first timestamp, cancels exactly the endpoint's pending rows, and refuses another business's endpoint. |
| `DeliveryTable.Truncate` | invoicing/src/webhooks/dispatcher.rs:196-205 | For the encoding of any text, keeps exactly the longest run of whole characters that fits 500 bytes. |
| `Text.BoundaryEndsCharacters` | invoicing/src/webhooks/dispatcher.rs:199-201 | Encoded text can be cut only where a character ends. |
| `Pricing.Price` | invoicing/src/invoices/pricing.rs:36-79 | Succeeds iff 1 to 100 items have valid texts, positive quantities and non-negative unit amounts and the exact total lies in 1 to 99,999,999; returns that total and each item with its trimmed text and product. No intermediate result wraps. |
| `Pricing.PriceLine` | invoicing/src/invoices/pricing.rs:43-69 | One turn of the loop: the line and the new total, or the first fault of this item. |
| `Pricing.FaultsAsWritten` | invoicing/src/invoices/pricing.rs:46-62 | Which fault an item has, in the order of the checks. |
| `Pricing.TotalAddsUp` | invoicing/src/invoices/pricing.rs:54-62 | The exact total is the sum of the products, however the items are taken apart. |
| `Pricing.FineIffPayable` | invoicing/src/invoices/pricing.rs:43-76 | The running checks of the loop together amount to one condition on the exact total. |
| `Pricing.TextFieldIff` | invoicing/src/input.rs:8-17 | A text is accepted, as what remains without surrounding spaces, iff that has 1 to the maximum characters and no control character. |
| `Signature.Verify` | invoicing/src/webhooks/signature.rs:24-43 | Accepts iff the last `t` part parses and lies within the tolerance of now, either way, and some hex-valid `v1` part is the MAC. |
| `Signature.SignThenVerify` | invoicing/src/webhooks/signature.rs:19-43 | For every MAC, secret, timestamp and body, a signed header is accepted iff `now - m <= t <= now + m`, m the magnitude of the tolerance. |
| `Signature.SignedHeaderAccepts` | invoicing/src/webhooks/signature.rs:19-43 | Against another secret or body it is accepted iff, besides, the two MACs coincide. |
| `Signature.MessageIsInjective` | invoicing/src/webhooks/signature.rs:45-51 | `"<t>.<body>"` determines timestamp and body. |
| `Signature.SignaturesCannotBeMoved` | invoicing/src/webhooks/signature.rs:6-9 | With a collision-free MAC, a header whose signatures were all made for issued messages is accepted iff its timestamp and that very body were issued together, the timestamp is within the tolerance, and it carries their signature. |
| `Signature.MessageLayout` | invoicing/src/webhooks/signature.rs:45-50 | Byte for byte: the decimal digits, a full stop, the body. |
| `Signature.HeaderAsWritten` | invoicing/src/webhooks/signature.rs:19-21 | One header spelled out, `t=1700,v1=dead005f`. |
| `Text.ParsePrint` | invoicing/src/webhooks/signature.rs:29-47 | Every 64-bit integer parses back from its decimal text. |
| `Text.ParseIff` | invoicing/src/webhooks/signature.rs:29 | A text parses to an integer iff it is an optional sign and decimal digits for it, and it fits 64 bits. |
| `Text.HexRoundTrip` | invoicing/src/webhooks/signature.rs:20-30 | Bytes decode back from their hex. |
| `Text.HexDecodeIffEncode` | invoicing/src/webhooks/signature.rs:30 | A text decodes to some bytes iff, up to letter case, they encode to it. |
| `Text.SplitJoins` | invoicing/src/webhooks/signature.rs:27 | Splitting loses nothing and no part holds the separator. |
| `Text.SplitOnceIff` | invoicing/src/webhooks/signature.rs:28 | A part is split at its first separator. |
| `ApiKeys.EveryBusinessCanAuthenticate` | invoicing/src/api_keys.rs:83-139 | Every visible business has an active key in every reachable state. |
| `ApiKeys.NoneLockedOutIffLocked` | invoicing/src/api_keys.rs:95-100 | That holds of all runs if and only if revocations take the business row lock. |
| `ApiKeys.RevokedForGood` | invoicing/src/api_keys.rs:102-134 | Over any run a revocation and its moment are final. |
| `ApiKeys.RevokeAlone` | invoicing/src/api_keys.rs:89-139 | Uninterrupted, the statements of a revocation amount to the one function the table's method is proved against. |
| `ApiKeys.ApiKeyTable.CreateBusiness` | invoicing/src/businesses.rs:38-58 | A business appears together with its first active key. |
| `ApiKeys.ApiKeyTable.Issue` | invoicing/src/api_keys.rs:43-57 | Adds one active key. |
| `ApiKeys.ApiKeyTable.RevokeApiKey` | invoicing/src/api_keys.rs:89-139 | Not found, a no-op when revoked before, a conflict for the last active key, otherwise one row revoked; nobody is locked out. |
| `ApiKeys.RevokingKeepsAccess` | invoicing/src/api_keys.rs:114-126 | A single revocation leaves every business an active key. |

## Left out

- `ReconcileProgress.EveryRunSettles`: speaks of runs in which no lookup of a wanted attempt fails and no worker that holds one crashes, from a state in which none still holds an answer from within the grace window. After a crash it applies anew once the lease has run out; a PSP or database that is down for ever settles nothing.
- `PaymentProtocol`: transactions other than the claim take place at one instant, and all parties share one clock; a transaction's `now()` before its commit is modelled for the claim only. Clock skew is not modelled.
- `PaymentProtocol`: a failed compare-and-set is a separate step from its explaining read for claims. Voiding takes the pair as one step; its error is returned and not stored.
- `Deliveries`: one row; the rows of different deliveries are independent, and `DeliveryTable` covers the batch. The race between an event's fan-out and disabling its endpoint is not modelled, and no claim is made about pending rows of disabled endpoints.
- HTTP routing, request extraction, header and card token length checks, tracing, startup, shutdown and poll intervals: no property of interest.
- JSON: stored bodies are records built from the rows; `updated_at`, `completed_at`, currency, due dates, line items, customers and message texts are left out.
- SHA-256, HMAC and random secrets; hashing, prefixes and plaintext of API keys.
- `reconcile_count` and `attempt_count` are unbounded; a 32-bit count overflows after two billion checks.
- Listing keys, endpoints, customers and attempts: the same keyset query without further properties.
- The mock PSP forgets its charges on restart; the model's PSP does not restart.
