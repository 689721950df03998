# Chapter 2 Guardian: a verified model

Chapter 2 lets an AI agent spend money under supervision. This project models the parts of it where money
or authority can slip through: the two spending rails, the purchase-request queue, the World ID protocols,
the Ledger BLE framing, the replay guard and the text analysis, and proves what they guarantee over every
run. Run `dafny verify dfyconfig.toml` here to verify everything.

## How it is built

Services that update their fields are classes with those fields; each method is proved equal to a
specification function on the abstract state, and invariants, run theorems and exact conditions are proved
about those functions. What each handler answers is stated once more, case by case, at literal values and without its
own vocabulary, in the modules named after handlers. Handlers whose suspension at an await matters are two stretches,
with the suspended task in the state. History that no field keeps (what `authorize` replied, which receipts were
accepted, what was handed out) is carried in ghost fields.

| modules | part of the system |
|---|---|
| `Common` | optional values, ASCII case folding, sums over maps |
| `ActionStore` | the action store, its table, and restarts over it |
| `X402`, `X402Service`, `X402Proofs` | the x402 rail: policy, escalations, human decisions, settlement |
| `X402Handlers`, `X402Writes`, `X402Gate` | its handlers case by case, what they write, and the way of an approval through the World ID gate |
| `X402Order`, `X402Witness` | escalation rows against actions, and the runs in which they part |
| `X402Cap`, `X402Numbering`, `X402Screening` | the daily cap, the nonces, and the text analysis of payments |
| `PolicyEngine`, `Reservations`, `LegacyRail`, `LegacyHandlers` | the legacy rail: mandate, daily spend, reservations, proposals |
| `Normaliser`, `Detection`, `Guardian` | text normalisation, semantic score, what is detected, verdict |
| `PurchaseQueue`, `PurchaseHandlers`, `PurchaseClaims`, `PurchaseProofs` | purchase requests: the service, the claim protocol, and runs of the queue |
| `PurchaseBacking`, `PurchaseWitness` | purchase requests beside the x402 rail: what PAID rests on, and for how long |
| `PurchaseCopies` | the queue over Postgres, where reports work on copies of their rows |
| `OrbSession`, `OrbHandlers`, `SelfieBindings`, `SelfieHandlers` | the World ID session protocol and the Selfie Check bindings |
| `BleFraming` | the Ledger BLE framer and deframer |
| `ReplayGuard` | the replay guard of the agent endpoints |

## Main results

- **Daily cap** (`X402Cap.CapHoldsIff`, `MissingIs`, `DailyCapHolds`): over every run, what `authorize` allows one
  agent on one UTC day stays within the daily limit if and only if every allowed payment had room beside what the
  tables then held for its day. What the policy misses of that is named exactly, and where it misses nothing the cap
  holds, however human decisions interleave.
- **Spending is signed for** (`X402Proofs.EveryRunIsSound`, `SpendingIsSignedFor`, `RowsNameTheirTransfer`,
  `ExecutedWasPaid`, `LaterStatesOnlyAdvance`): over every interleaving of submissions, approvals, rejections and
  settlements, each cut at its awaits, with restarts that lose any part of memory: no escalated payment is spendable
  without the approver's signature over typed data for exactly its transfer, and EXECUTED means a receipt that covers
  the amount.
- **The gate** (`X402Gate.SignedRowsPassedTheGate`, `SpendingPassedTheGate`, `RejectedRowsWereSigned`,
  `RowsWereSubmitted`): over every run, whatever a row shows was submitted by the action's own agent, signed by the
  approver and, for an approval, passed by the World ID gate, in that order.
- **Detection** (`Detection.FoundIff`, `IntentsAre`, `ScoreIs`, `ListedWordsAreDetected`, `DisguisedTokenShows`): where
  a token counts, what every text is detected for and scores, and that capitals and look-alikes hide no listed token.
- **Rows and actions** (`X402Order.OrderHoldsIff`, `EscalationsMatchActions`, `DerivedDecisionIsFaithful`): they agree,
  up to the one decision between its two updates, exactly until a step overtakes another; statuses move only forward.
- **Nonces** (`X402Numbering.NumberingHoldsIff`, `NewNonceIsFresh`): distinct, and every new one above all stored ones,
  exactly as long as every restart finds the newest row loaded.
- **Budget** (`Reservations.EveryRunIsSolvent`, `GrantedIff`, `EveryRunConserves`, `LegacyRail.EveryRunIsSound`): spent
  plus held never exceeds the largest limit in force so far, nothing is granted beyond the current one, nothing
  acquired is lost or counted twice, and the ledger holds exactly the committed amounts.
- **Purchase requests** (`PurchaseProofs.ClaimsAreServedInOrder`, `ClaimsAnswerRight`;
  `PurchaseCopies.TerminalCanChangeIff`; `PurchaseBacking.EverySystemRunIsSound`, `PaidIsBackedIff`): each request is
  handed out once, in creation order, over live rows and over copies; terminal means final on live rows, and exactly
  when on copies; PAID rests on a settled action of the same agent, EXECUTED on the request's hash exactly as long as
  the last update of it says so.
- **World ID** (`OrbSession.VerifyProofAtMostOnce`, `VerifiedNeverFails`, `BoundWasChecked`,
  `VerifiedIsGenuine`; `SelfieBindings.NullifiersAreNotShared`): every interleaving of polls, answers, status
  reads and binds; one human behind one signer, in either mode, for as long as no restart follows a takeover.
- **BLE framing** (`BleFraming.RoundTripIff`): exactly when a framed response comes back whole.
- **Replay guard** (`ReplayGuard.AnswerIff`, `CanBeAcceptedAgainIff`): exactly when a request is let in, and when one
  can be let in twice, over every interleaving and under every spelling of its signature.

## Where a promise has a boundary

Each of these is proved with the model doing what the code does, with the exact condition where a lemma named `Iff`
states it and a run or an input that crosses the boundary where one is named beside it.

- **The daily cap does not survive a restart.** The services load their maps in their constructors, and
  `DatabaseService` fills the tables in `onModuleInit`, which Nest runs after every constructor; so a new process
  always begins with empty memory and nonce 1, and rows enter memory one lookup at a time. The policy counts memory
  only. `X402Cap.RestartWitness` is the run; what every other invariant keeps over such restarts is
  `X402Proofs.RestartKeepsSound`, and when nonces stay fresh `X402Numbering.NumberingHoldsIff`.
- The daily cap needs `authorize` to read one day from the clock (`X402Cap.MidnightWitness`).
- Rows and actions part exactly when a decision marks a row that no longer waits, a submission replaces a row or its
  typed data after an earlier one, or a process ends between the two updates of a decision
  (`X402Order.StepStaysOrderlyIff`). Each is reached: an approval that resumes late sets an EXECUTED action back to
  APPROVED (`X402Witness.LateApprovalWitness`), an overtaking submission leaves a signature beside typed data it is not
  over (`OvertakingWitness`), and a cut-off process a SIGNED row beside a PENDING action (`CutOffWitness`).
- A PAID request loses its backing exactly when the last update of its action since is a settlement on another hash or
  a decision that resumed late (`PurchaseBacking.PaidIsBackedIff`; `PurchaseWitness.OverlapWitness`,
  `LateApprovalWitness`). Where settlements do not overlap and no late decision reaches an executed action it never
  does (`PaidStaysBacked`).
- Over Postgres a terminal request can change exactly while a report that read it before is under way
  (`PurchaseCopies.TerminalCanChangeIff`, `OverwrittenWitness`).
- A framed response of 65536 bytes or more comes back cut short unless two packets hold it
  (`BleFraming.RoundTripIff`), and a one-packet frame is followed by whatever comes next
  (`PacketsAfterOnePacketMatterIff`).
- The guard remembers header strings. A signed request is accepted a second time if and only if another request with
  one of its spellings was waiting for the agent lookup, or one of them is forgotten, or was never seen, while the
  timestamp is fresh (`ReplayGuard.CanBeAcceptedAgainIff`, `OverlapWitness`, `SpellingsWitness`); for one spelling the
  latter means stamped exactly 60 seconds ahead (`OneSpellingAgainIff`). `docs/ARCHITECTURE.md` calls the signatures
  single-use.
- EXPIRED is not a final session state (`OrbSession.ExpiredIsLeftIff`, `ExpiredFailsWitness`, `ExpiredVerifiesWitness`,
  `ExpiredBindsWitness`).
- A disguised word that is digits throughout is left alone (`Detection.DisguiseIsSeenThroughIff`,
  `AssetsInDigitsAreMissed`).
- Every payment's justification counts as leetspeak, since the rail's own prefix does; so one subversive word escalates
  a payment that names no target (`X402Screening.IntentIffToken`, `CancelIsEnough`).
- **One human, two signers.** The delete of a revocation never reaches Postgres, and its table has no constraint on
  nullifiers; so after a restart two signers hold one nullifier exactly when their last accepted binds did
  (`SelfieBindings.SharedAfterRestartIff`, `TakeoverWitness`), and within one process never
  (`OneProcessSharesNothing`). The persistence file, which only tests select, is rewritten whole and excludes it
  (`FileRunsTakeNothingOver`). A revoked binding returns at a restart accordingly (`RevokedReturnsAtRestartIff`).
- Rebinding a signer leaves his first nullifier reserved until a restart
  (`SelfieBindings.RebindLeavesStaleEntryIff`, `StaleEntryBlocks`).
- The reported risk score, unlike the verdict, is not monotone in the amount (`Guardian.ScoreDropsIff`,
  `ScoreIsMonotoneIff`; `Normaliser.DrainScores` is a text for which it is not).

## Assumptions

- Amounts are not negative, clocks do not go back, generated ids are fresh, table and database writes succeed and
  arrive in order.
- The legacy rail works on its own ids of the shared store and never marks an action EXECUTED.
- All spellings of a signed request are over one timestamp.
- `getAddress`, `BigInt`, signature recovery and the World ID hash are uninterpreted functions. `SelfieBindings`
  asks of `getAddress` that it is idempotent and yields one address per lower-case spelling. Agents are known to the
  purchase queue by their checksummed address, as the agent guard attaches them.
- Runs start from empty tables, except those of the legacy rail, which start from any state that satisfies its
  invariant; `LegacyRail.FreshRailIsSound` gives one.

## Model

| member | source | states |
|---|---|---|
| `ActionStore.ActionStoreService.constructor` | backend/src/actions/action-store.service.ts:13-21 | A service built over what is loaded at that moment, nothing in the application, holds exactly those actions and the next nonce above them |
| `ActionStore.ActionStoreService.LoadFromDatabase` | backend/src/actions/action-store.service.ts:46-59 | Loading row by row, in whatever order, caches every row and leaves a nonce one above the largest of them, or 1 |
| `ActionStore.ActionStoreService.DatabaseLoaded` | backend/src/database/database.service.ts:49-100 | Once the database has loaded the table is there and memory is as it was |
| `ActionStore.ActionStoreService.CreateAction` | backend/src/actions/action-store.service.ts:61-118 | The new action carries the request, defaults for an empty value or data, the next nonce and a one-hour deadline; memory and table get it together |
| `ActionStore.ActionStoreService.GetAction` | backend/src/actions/action-store.service.ts:120-135 | Answers the cached action, else the row, which it caches; changes nothing else |
| `ActionStore.ActionStoreService.UpdateStatus` | backend/src/actions/action-store.service.ts:149-185 | Sets status and time, takes over a non-empty signature or hash, writes through; an unknown id changes nothing |
| `ActionStore.ActionStoreService.UpdateRow` | backend/src/database/database.service.ts:628-641 | The row update; an absent signature or hash leaves the column alone |
| `ActionStore.ActionStoreService.SetVerdict` | backend/src/x402/x402-payments.service.ts:60-62 | The verdict fields are set on the cached action only, never in the table |
| `ActionStore.CreateKeepsMirrored` | backend/src/actions/action-store.service.ts:61-118 | With any part of the table in memory, creating keeps memory from contradicting a row |
| `ActionStore.CreateKeepsCoherent` | backend/src/actions/action-store.service.ts:61-118 | In a fully cached store the new nonce exceeds every stored one and all stay distinct |
| `ActionStore.CreateAddsOneAction` | backend/src/actions/action-store.service.ts:61-118 | Creation adds one PENDING action with the request and changes no other |
| `ActionStore.UpdateKeepsMirrored` | backend/src/actions/action-store.service.ts:149-185 | A status update keeps memory from contradicting a row |
| `ActionStore.UpdateKeepsCoherent` | backend/src/actions/action-store.service.ts:149-185 | In a fully cached store it also keeps nonces distinct and the next nonce unchanged |
| `ActionStore.RowFollowsAction` | backend/src/database/database.service.ts:628-641 | The row written for an updated action agrees with it on every field but the two verdict fields |
| `ActionStore.UpdateChangesOneAction` | backend/src/actions/action-store.service.ts:149-185 | A status update changes one action, and nothing of its request, creation time, nonce or verdict |
| `ActionStore.AnnotateKeepsMirrored` | backend/src/x402/x402-payments.service.ts:60-62 | Writing a verdict into the cached action keeps the agreement, which leaves those two fields out |
| `ActionStore.AnnotateKeepsCoherent` | backend/src/x402/x402-payments.service.ts:60-62 | So too in a fully cached store |
| `ActionStore.CacheKeepsKnown` | backend/src/actions/action-store.service.ts:120-135 | A lookup caches a row and changes nothing that is known |
| `ActionStore.CacheIsIdleWhenCoherent` | backend/src/actions/action-store.service.ts:120-135 | While everything is cached a lookup changes nothing and answers from memory |
| `ActionStore.NextNonceIsUnique` | backend/src/actions/action-store.service.ts:53-57 | The next nonce is a function of the rows loaded |
| `ActionStore.RestartKeepsKnown` | backend/src/actions/action-store.service.ts:13-59 | A process that found any part of the table, none included, knows every action, but for the two verdict fields |
| `ActionStore.RestartCaches` | backend/src/actions/action-store.service.ts:13-59 | A restart keeps the table, and memory has exactly the rows it found loaded |
| `ActionStore.RebuiltStoreAgrees` | backend/src/actions/action-store.service.ts:46-59 | Over the whole table it is fully cached again and hands out the same next nonce |
| `ActionStore.NoncesStayFreshIff` | backend/src/actions/action-store.service.ts:11-59 | After a restart new nonces are above all stored ones exactly when the rows found include one with the largest, or there are none |
| `X402Service.X402PaymentsService.GetTodaysApprovedTotal` | backend/src/x402/x402-spending-policy.service.ts:119-135 | The total is the sum over the agent's approved and executed x402 actions created since UTC midnight, or the exception of a malformed amount among them |
| `X402Service.X402PaymentsService.SumCounted` | backend/src/x402/x402-spending-policy.service.ts:124-134 | The filter and reduce equal the order-free sum over the counted actions |
| `X402Service.X402PaymentsService.EvaluatePolicy` | backend/src/x402/x402-spending-policy.service.ts:35-117 | Network, address, asset, payee, single-payment, daily and semantic checks in the source's order, with its scores |
| `X402Service.X402PaymentsService.ApplySemantics` | backend/src/x402/x402-spending-policy.service.ts:101-116 | A detected intent raises the score to its own at least and turns ALLOW into ESCALATE, nothing else |
| `X402Service.X402PaymentsService.AuthorizePayment` | backend/src/x402/x402-payments.service.ts:40-84 | Create, evaluate, annotate, then set the status; reasons are kept exactly for escalations |
| `X402Service.X402PaymentsService.GetOwnedAction` | backend/src/x402/x402-payments.service.ts:320-329 | The caller's own action, ignoring the case of the address, or not-found or forbidden |
| `X402Service.X402PaymentsService.IsValidSubmission` | backend/src/x402/x402-payments.service.ts:378-409 | Accepts typed data exactly when type, contract, chain, sender, recipient, value and expiry all fit the action |
| `X402Service.X402PaymentsService.SubmitForApproval` | backend/src/x402/x402-payments.service.ts:86-116 | Up to the await of its insert: typed data that fits a PENDING, owned action with waiting reasons is stored |
| `X402Service.X402PaymentsService.FinishSubmission` | backend/src/x402/x402-payments.service.ts:117-125 | After the await the waiting reasons are consumed |
| `X402Service.X402PaymentsService.BeginSettlement` | backend/src/x402/x402-payments.service.ts:153-167 | Up to the RPC call: an owned APPROVED action, with its token, recipient and amount fixed for the check |
| `X402Service.X402PaymentsService.VerifyTokenTransfer` | backend/src/blockchain/on-chain-executor.service.ts:168-220 | True exactly when the receipt succeeded and its matching Transfer logs sum to the minimum; a malformed token or recipient throws |
| `X402Service.X402PaymentsService.FinishSettlement` | backend/src/x402/x402-payments.service.ts:163-180 | From the RPC answer on: EXECUTED with the transaction hash exactly when the transfer was verified |
| `X402Service.X402PaymentsService.BeginApproval` | backend/src/x402/x402-payments.service.ts:238-261 | Up to the World ID gate: an unexpired awaiting row and the configured approver's signature, else the error in the source's order |
| `X402Service.X402PaymentsService.BeginRejection` | backend/src/x402/x402-payments.service.ts:277-292 | Up to the row update: an awaiting row and the approver's signature over the rejection message, else the error |
| `X402Service.X402PaymentsService.MarkEscalation` | backend/src/x402/x402-payments.service.ts:261-267 | After the gate, where there is one: the row is marked SIGNED or REJECTED with the signature, whatever it is by then |
| `X402Service.X402PaymentsService.FinishHumanDecision` | backend/src/x402/x402-payments.service.ts:269-275 | After the row update: the action becomes APPROVED with that signature, or REJECTED, whatever it is by then |
| `X402Service.X402PaymentsService.UpdateEscalation` | backend/src/database/database.service.ts:761-773 | The row update; an unknown row is left alone |
| `X402Service.X402PaymentsService.GetPaymentStatus` | backend/src/x402/x402-payments.service.ts:128-151 | Reports the derived decision, the status, the row's status and the signature, and changes nothing |
| `X402Proofs.PolicyDecides` | backend/src/x402/x402-spending-policy.service.ts:35-117 | BLOCK exactly off the configured network, asset and payees; ALLOW exactly within both limits with no intent detected; throws exactly on a malformed amount it needs; the score is 100, 10, or the larger of the semantic score and 60 or 10 |
| `X402Proofs.PolicyExplains` | backend/src/x402/x402-spending-policy.service.ts:44-116 | The reasons: the first thing wrong with the destination; else the limit exceeded, if one is, and the intents detected, if any; or that the payment complies |
| `X402Proofs.TodaysTotalIs` | backend/src/x402/x402-spending-policy.service.ts:119-135 | Today's total is the sum over the agent's own actions of this rail, APPROVED or EXECUTED, created since UTC midnight; it throws exactly on a malformed amount among them |
| `X402Proofs.TransferVerifiedIff` | backend/src/blockchain/on-chain-executor.service.ts:168-220 | A settlement is verified exactly by a successful receipt whose Transfer logs of the token to the recipient sum to the amount, with both addresses well-formed; a malformed one throws |
| `X402Proofs.AuthorizeStoresTheRuling` | backend/src/x402/x402-payments.service.ts:40-84 | One new action with the request as made, its justification after "x402: ", and the status, score and approval flag of the reply; reasons wait exactly when it escalated; nothing else changes |
| `X402Proofs.AllowedPaymentsFit` | backend/src/x402/x402-spending-policy.service.ts:79-99 | Whatever is allowed keeps to the single-payment limit and, with today's counted total, to the daily limit |
| `X402Proofs.AuthorizeKeepsSound` | backend/src/x402/x402-payments.service.ts:40-84 | `authorize` keeps the invariant of rows, actions, rulings and suspended handlers, and undoes nothing |
| `X402Proofs.SubmitKeepsSound` | backend/src/x402/x402-payments.service.ts:86-116 | So does a submission of typed data, the first or a later one |
| `X402Proofs.FinishSubmitKeepsSound` | backend/src/x402/x402-payments.service.ts:117-125 | Resuming a submission at any later moment keeps it |
| `X402Proofs.BeginApproveKeepsSound` | backend/src/x402/x402-payments.service.ts:238-261 | Suspending an approval at the World ID gate keeps it |
| `X402Proofs.BeginRejectKeepsSound` | backend/src/x402/x402-payments.service.ts:277-296 | Suspending a rejection keeps it |
| `X402Proofs.MarkRowKeepsSound` | backend/src/x402/x402-payments.service.ts:263-267 | Marking the row keeps it, whatever the row is by then |
| `X402Proofs.DecisionUpdates` | backend/src/x402/x402-payments.service.ts:269 | What the last stretch of a decision does to its action |
| `X402Proofs.FinishDecisionKeepsSound` | backend/src/x402/x402-payments.service.ts:269-275 | Updating the action keeps it, even if it was rejected or settled meanwhile |
| `X402Proofs.BeginSettleKeepsSound` | backend/src/x402/x402-payments.service.ts:153-167 | Suspending a settlement at its RPC call keeps it |
| `X402Proofs.FinishSettleKeepsSound` | backend/src/x402/x402-payments.service.ts:163-180 | A settlement resumed at any later moment keeps it |
| `X402Proofs.RestartKeepsSound` | backend/src/actions/action-store.service.ts:13-59 | A new process keeps it, whatever part of the table its memory found, none included |
| `X402Proofs.OtherCreateKeepsSound` | backend/src/actions/actions.controller.ts:94-106 | The legacy rail creating its own action in the same store keeps it |
| `X402Proofs.OtherUpdateKeepsSound` | backend/src/actions/actions.controller.ts:108-305 | The legacy rail updating its own actions keeps it |
| `X402Proofs.EveryRunIsSound` | backend/src/x402/x402-payments.service.ts:40-342 | Every interleaving from the empty state, with restarts that lose any part of memory and all suspended handlers, satisfies the whole invariant |
| `X402Proofs.LaterStatesOnlyAdvance` | backend/src/x402/x402-payments.service.ts:40-342 | From any point of a run on: rulings are final, requests are never rewritten, what was decided never waits again, and no row, receipt or signature is lost |
| `X402Proofs.AllowedPaymentsStayCounted` | backend/src/x402/x402-payments.service.ts:73-76 | An allowed payment stays APPROVED, or EXECUTED once it was settled, within the single-payment limit, of the approved token to an approved payee, without an escalation row |
| `X402Proofs.SpendingIsSignedFor` | backend/src/x402/x402-payments.service.ts:238-275 | A payment that was not allowed outright is APPROVED, EXECUTED or settled only with the approver's signature over typed data of its type, chain 84532, contract, sender, recipient and value |
| `X402Proofs.RowsNameTheirTransfer` | backend/src/x402/x402-payments.service.ts:378-409 | At every moment an escalation row has the right type, chain, contract, sender, recipient and value for its action, and a SIGNED one such a signature |
| `X402Proofs.ExecutedWasPaid` | backend/src/blockchain/on-chain-executor.service.ts:189-213 | Whatever is EXECUTED was settled on a successful receipt whose Transfer logs of its token to its recipient sum to its amount |
| `X402Proofs.DerivedBlockIsFaithful` | backend/src/x402/x402-payments.service.ts:331-342 | The derived decision is BLOCK exactly for what `authorize` blocked, and ALLOW for all it allowed |
| `X402Handlers.SubmissionAnswers` | backend/src/x402/x402-payments.service.ts:86-116 | Typed data is accepted exactly from the owner of a PENDING action with waiting reasons, of type TransferWithAuthorization on chain 84532, with the configured contract and sender, the action's recipient and value, unexpired; its row is all that is new |
| `X402Handlers.TypedDataFitsIff` | backend/src/x402/x402-payments.service.ts:378-409 | The typed-data check, written out at its literal values |
| `X402Handlers.SubmissionEnds` | backend/src/x402/x402-payments.service.ts:117-125 | The second stretch uses up the reasons of that action and nothing else |
| `X402Handlers.SettlementBegins` | backend/src/x402/x402-payments.service.ts:153-167 | A settlement begins exactly for the owner of an APPROVED action with a parsable amount and a hash, and fixes the transfer as stored now |
| `X402Handlers.SettlementEnds` | backend/src/x402/x402-payments.service.ts:163-180 | It ends as EXECUTED on its hash exactly if the receipt's transfers reach the amount; otherwise nothing is written |
| `X402Handlers.ApprovalBegins` | backend/src/x402/x402-payments.service.ts:238-261 | An approval reaches the World ID gate exactly with the approver's signature over the typed data of a waiting, unexpired row |
| `X402Handlers.RejectionBegins` | backend/src/x402/x402-payments.service.ts:277-292 | A rejection reaches its row exactly with the approver's signature over the rejection message of a waiting row |
| `X402Handlers.GateDecides` | backend/src/x402/x402-payments.service.ts:261-267 | An approval the gate does not pass is forbidden and leaves rows, actions and reasons alone; what passes, and every rejection, marks its row and no other |
| `X402Handlers.StepLeaves` | backend/src/x402/x402-payments.service.ts:40-342 | Which parts of the state each step may touch |
| `X402Writes.PayStepKeepsActions` | backend/src/actions/action-store.service.ts:149-185 | No step of the rail rewrites a request; of the actions there are it changes status, signature or hash of one at most, as the settlement, decision or update it finishes says |
| `X402Gate.EveryRunIsEarned` | backend/src/x402/x402-payments.service.ts:86-307 | Over every run: each row was submitted by its owner unexpired, each decision begun by the approver's signature, and each SIGNED row, and each signature on an action, passed the gate |
| `X402Gate.SignedRowsPassedTheGate` | backend/src/x402/x402-payments.service.ts:238-267 | Whenever a row is SIGNED, an approval with its signature had begun and the gate passed it |
| `X402Gate.SpendingPassedTheGate` | backend/src/x402/x402-payments.service.ts:238-275 | Whenever an action that was not allowed outright is APPROVED, EXECUTED or signed, an approval with its signature had begun and the gate passed it |
| `X402Gate.RejectedRowsWereSigned` | backend/src/x402/x402-payments.service.ts:277-307 | Whenever a row is REJECTED, a rejection signed by the approver had begun |
| `X402Gate.RowsWereSubmitted` | backend/src/x402/x402-payments.service.ts:86-116 | What a row holds, its action's own agent submitted, unexpired, while the action was PENDING |
| `X402Order.StepStaysOrderly` | backend/src/x402/x402-payments.service.ts:86-307 | A step that overtakes nothing keeps row and action in agreement and moves statuses only PENDING, APPROVED or REJECTED, EXECUTED |
| `X402Order.StepStaysOrderlyIff` | backend/src/x402/x402-payments.service.ts:86-307 | Agreement survives a step, and typed data stays, if and only if no submission replaces a decided row or its data, no decision marks a row that no longer waits, and no process ends between the two updates of a decision |
| `X402Order.OrderHoldsIff` | backend/src/x402/x402-payments.service.ts:86-307 | Over every run: rows and actions agreed at all moments so far exactly if no step so far was one of those |
| `X402Order.StatusesMoveForward` | backend/src/x402/x402-payments.service.ts:86-307 | In runs without such steps typed data is never replaced and statuses only move forward |
| `X402Order.EscalationsMatchActions` | backend/src/x402/x402-payments.service.ts:238-342 | There AWAITING_SIGNATURE goes with PENDING, SIGNED with APPROVED or EXECUTED and the same signature, over the row's own data, REJECTED with REJECTED; or the one decision between its two updates is what the row already shows |
| `X402Order.ExecutedMeansPaid` | backend/src/blockchain/on-chain-executor.service.ts:189-213 | There an x402 action is EXECUTED exactly when a settlement was accepted for it |
| `X402Order.DerivedDecisionIsFaithful` | backend/src/x402/x402-payments.service.ts:331-342 | There the derived decision is ALLOW exactly for what `authorize` allowed or the approver signed, once that has reached the action |
| `X402Witness.LateApprovalWitness` | backend/src/x402/x402-payments.service.ts:238-275 | Ten steps: two approvals suspended together, the payment settled between them, and the second sets the EXECUTED action back to APPROVED |
| `X402Witness.OvertakingWitness` | backend/src/x402/x402-payments.service.ts:98-125 | Six steps: typed data submitted again before the first submission resumes, under a suspended approval, ends as a SIGNED row whose signature is not over its data |
| `X402Witness.CutOffWitness` | backend/src/x402/x402-payments.service.ts:263-269 | Five steps: a process that ends between the two updates of an approval leaves a SIGNED row beside a PENDING action |
| `X402Witness.ExampleIsEscalated` | backend/src/x402/x402-payments.service.ts:378-409 | The premises of the three are met by a concrete configuration, request and typed data |
| `X402Numbering.StepKeepsNumberedIff` | backend/src/actions/action-store.service.ts:53-118 | Nonces stay distinct and below the next one through every step but a restart that misses the newest row |
| `X402Numbering.NumberingHoldsIff` | backend/src/actions/action-store.service.ts:53-118 | Over every run of both rails on the store: they have been so at every moment exactly if every restart so far found the newest row loaded |
| `X402Numbering.NewNonceIsFresh` | backend/src/actions/action-store.service.ts:61-118 | In such runs every new action gets a nonce above all stored ones, which keep theirs |
| `X402Numbering.StepKeepsCoherent` | backend/src/actions/action-store.service.ts:46-185 | A fully cached store stays so through every step, restarts over the whole table included |
| `X402Numbering.ReloadedRunsAreCoherent` | backend/src/actions/action-store.service.ts:46-185 | So over every run whose restarts find everything, memory mirrors the table under distinct nonces |
| `X402Screening.JustificationIsLeetspeak` | backend/src/x402/x402-payments.service.ts:46-47 | Every stored justification starts with the word "x402", which the normaliser rewrites, so the leetspeak flag is set on every payment |
| `X402Screening.IntentIffToken` | backend/src/guardian/risk-analysis.service.ts:101-128 | Hence an intent is detected for a payment exactly when a subversion or an exfiltration token stands in its normal text |
| `X402Screening.JustificationShows` | backend/src/x402/x402-payments.service.ts:46-47 | Whatever listed token the agent's own justification shows, the stored one shows |
| `X402Screening.AllowedIffNoToken` | backend/src/x402/x402-spending-policy.service.ts:35-117 | Hence what the policy allows, in terms of limits, destination and the two clusters alone |
| `X402Screening.OneTokenIsEnough` | backend/src/x402/x402-spending-policy.service.ts:101-108 | A justification that shows one such token anywhere is never allowed |
| `X402Screening.CancelIsEnough` | backend/src/guardian/risk-analysis.service.ts:101-128 | "cancel" is such a token, although the analysis finds nothing in the word by itself |
| `X402Cap.StoredIsAllowed` | backend/src/x402/x402-payments.service.ts:40-84 | What the tables hold for an agent and day, APPROVED or EXECUTED without an escalation row, sums to what `authorize` allowed |
| `X402Cap.StoredIsSeenOrMissing` | backend/src/x402/x402-spending-policy.service.ts:119-135 | That sum is what the policy counts of it and what it misses |
| `X402Cap.CapSurvivesIff` | backend/src/x402/x402-payments.service.ts:40-84 | From any state in which the cap holds, sound or not, an authorisation keeps it exactly when it allows nothing or the day it was created on still has room |
| `X402Cap.MissingIs` | backend/src/x402/x402-spending-policy.service.ts:119-135 | What it misses: everything of the day after midnight, else exactly what is not in memory |
| `X402Cap.StepKeepsCappedIff` | backend/src/x402/x402-payments.service.ts:40-342 | A step keeps the cap exactly when it allows nothing, or what it allows has room beside what the tables hold for its day |
| `X402Cap.CapHoldsIff` | backend/src/x402/x402-spending-policy.service.ts:79-135 | Over every run, restarts, midnight and any interleaving of human decisions included: the cap holds if and only if every payment allowed so far had that room |
| `X402Cap.DailyCapHolds` | backend/src/x402/x402-spending-policy.service.ts:79-135 | Where no authorisation misses an allowed payment of its day, what `authorize` allowed one agent on one UTC day never exceeds the daily limit |
| `X402Cap.UnbrokenRunsCacheAll` | backend/src/actions/action-store.service.ts:120-135 | In runs whose restarts find everything loaded, memory holds every action |
| `X402Cap.DailyCapHoldsUnbroken` | backend/src/x402/x402-spending-policy.service.ts:79-135 | So the cap holds over every run whose restarts find everything loaded and whose handlers do not straddle midnight |
| `X402Cap.RestartWitness` | backend/src/actions/action-store.service.ts:13-21 | The run the application takes over a restart: allow, start with empty memory, allow again; the last step exceeds the cap |
| `X402Cap.MidnightWitness` | backend/src/x402/x402-spending-policy.service.ts:119-122 | A payment evaluated after midnight exceeds the cap of the day it was created on |
| `X402Cap.ExampleFitsOnce` | backend/src/x402/x402-spending-policy.service.ts:35-117 | The witnesses' premises are met by a concrete configuration and request |
| `Reservations.BalanceReservationService.constructor` | backend/src/reservations/balance-reservation.service.ts:7-10 | A new service holds nothing |
| `Reservations.BalanceReservationService.PruneExpired` | backend/src/reservations/balance-reservation.service.ts:74-83 | Removes exactly the reservations whose time is up and returns their number |
| `Reservations.BalanceReservationService.GetTotalReservedAmount` | backend/src/reservations/balance-reservation.service.ts:65-72 | Prunes, then sums what is left |
| `Reservations.BalanceReservationService.TotalOf` | backend/src/reservations/balance-reservation.service.ts:67-71 | The summing loop equals the order-free sum |
| `Reservations.BalanceReservationService.AcquireReservation` | backend/src/reservations/balance-reservation.service.ts:12-41 | Prunes, then grants exactly when spent plus held plus the amount stays within the daily limit; a malformed amount throws |
| `Reservations.BalanceReservationService.CommitReservation` | backend/src/reservations/balance-reservation.service.ts:43-55 | Moves a held amount into today's spend, or answers false |
| `Reservations.BalanceReservationService.ReleaseReservation` | backend/src/reservations/balance-reservation.service.ts:57-59 | Drops the reservation and says whether there was one |
| `Reservations.PruneForgets` | backend/src/reservations/balance-reservation.service.ts:74-83 | Pruning forgets exactly what has expired |
| `Reservations.PruneKeepsSolvent` | backend/src/reservations/balance-reservation.service.ts:74-83 | Pruning keeps spent today plus held within the bound |
| `Reservations.AcquireKeepsSolvent` | backend/src/reservations/balance-reservation.service.ts:12-41 | So does acquiring, whatever it replaces |
| `Reservations.CommitKeepsSolvent` | backend/src/reservations/balance-reservation.service.ts:43-55 | So does committing, even an expired reservation, even on a later day than it was acquired |
| `Reservations.ReleaseKeepsSolvent` | backend/src/reservations/balance-reservation.service.ts:57-59 | So does releasing |
| `Reservations.GrantedIff` | backend/src/reservations/balance-reservation.service.ts:12-41 | A reservation is granted exactly when its amount parses and, with what today has spent and holds, stays within the limit in force, which the two together then do |
| `Reservations.ChangeLimitKeepsSolvent` | backend/src/policies/policy-engine.service.ts:129-132 | So does a mandate update, with the largest limit so far in the limit's place |
| `Reservations.EveryRunIsSolvent` | backend/src/reservations/balance-reservation.service.ts:12-83 | Every run, mandate updates included, keeps spent today plus held within the largest limit in force so far, and every day's spend, across day rollover |
| `Reservations.PeakIsTheLargestLimit` | backend/src/policies/policy-engine.service.ts:129-132 | That bound is one of the limits the run named, and none of them is larger; while the mandate stays it is the limit |
| `Reservations.ApplyConserves` | backend/src/reservations/balance-reservation.service.ts:12-83 | One step keeps acquired = held + committed + released + pruned + replaced |
| `Reservations.EveryRunConserves` | backend/src/reservations/balance-reservation.service.ts:12-83 | So does every run, with any amounts and any clock, and the spend of all days together grows by exactly the commits that found their reservation |
| `PolicyEngine.PolicyEngineService.constructor` | backend/src/policies/policy-engine.service.ts:68-100 | A stored mandate replaces the configured one, and memory starts as a copy of the daily spend loaded at that moment |
| `PolicyEngine.PolicyEngineService.DatabaseLoaded` | backend/src/database/database.service.ts:49-100 | Once the database has loaded the ledger is there and memory is as it was |
| `PolicyEngine.PolicyEngineService.UpdateMandate` | backend/src/policies/policy-engine.service.ts:129-132 | A partial update sets the given fields and keeps the others |
| `PolicyEngine.PolicyEngineService.GetDailySpent` | backend/src/policies/policy-engine.service.ts:223-243 | The day's spend from memory, else from the table, which it caches, else zero |
| `PolicyEngine.PolicyEngineService.RecordAutonomousSpend` | backend/src/policies/policy-engine.service.ts:205-221 | Adds to the day's spend in memory and table alike |
| `PolicyEngine.RuleDecides` | backend/src/policies/policy-engine.service.ts:134-203 | BLOCK exactly off either list, ALLOW exactly on both and within both limits, ESCALATE otherwise |
| `PolicyEngine.PolicyEngineService.EvaluateDeterministicRules` | backend/src/policies/policy-engine.service.ts:134-203 | Recipient and token lists ignoring case, then the single-payment limit, then the daily limit |
| `PolicyEngine.PolicyEngineService.GetRemainingDailyBudget` | backend/src/policies/policy-engine.service.ts:245-251 | Spend and remaining budget add up to the limit, and never below zero |
| `PolicyEngine.RecordAddsExactly` | backend/src/policies/policy-engine.service.ts:205-221 | A recorded spend changes that day only, and the sum over all days by exactly the amount |
| `PolicyEngine.ReadKeepsSpend` | backend/src/policies/policy-engine.service.ts:223-243 | Reading a day never changes what any day has spent |
| `PolicyEngine.UpdateSets` | backend/src/policies/policy-engine.service.ts:129-132 | A partial update sets what it gives and nothing else |
| `PolicyEngine.DaysAreUtcDays` | backend/src/policies/policy-engine.service.ts:205-221 | Days are UTC days, the same for both rails |
| `PolicyEngine.SpendIs` | backend/src/policies/policy-engine.service.ts:223-236 | A day's spend is memory's, else the table's, else zero |
| `LegacyRail.ActionsController.ProposeAction` | backend/src/actions/actions.controller.ts:94-177 | A failed World ID proof is turned away before anything happens; else create, reserve, judge, then release and reject, hold and escalate, or commit and approve |
| `LegacyRail.ActionsController.BeginApproval` | backend/src/actions/actions.controller.ts:232-270 | Up to its first await `approveAction` changes nothing, and goes on only for a PENDING action and a valid signature |
| `LegacyRail.ActionsController.CompleteApproval` | backend/src/actions/actions.controller.ts:273-305 | After its awaits a signer other than the guard contract's is forbidden; else it commits whatever is still reserved and approves with the signature |
| `LegacyRail.ActionsController.RejectAction` | backend/src/actions/actions.controller.ts:318-346 | A PENDING action loses its reservation and is rejected; any other state is an error |
| `LegacyRail.MandatesController.DeployAgent` | backend/src/policies/mandates.controller.ts:97-121 | An owner's deployment replaces the amounts and lists it gives, parsed or lower-cased, under the running rail, whose reservations then keep to the new limit |
| `LegacyRail.MandatesController.UpdateCaps` | backend/src/policies/mandates.controller.ts:126-137 | So do new caps; a malformed amount changes nothing |
| `LegacyRail.GrantedThenLeft` | backend/src/reservations/balance-reservation.service.ts:12-59 | Releasing a granted reservation gives the pruned budget back; committing turns exactly the amount into spend of the day |
| `LegacyRail.ProposeMovesExactlyTheAmount` | backend/src/actions/actions.controller.ts:94-177 | BLOCK leaves spent and held alone, ALLOW adds exactly the amount to today's spend, ESCALATE exactly to what is held; a malformed amount throws with nothing reserved |
| `LegacyRail.ProposeStoresTheVerdict` | backend/src/actions/actions.controller.ts:108-177 | The stored status follows the reply and the other actions are untouched |
| `LegacyRail.DailyLimitRuleIsUnreachable` | backend/src/policies/policy-engine.service.ts:184-194 | Once the reservation is granted, a deterministic escalation is always for the single-payment limit |
| `LegacyRail.FreshRailIsSound` | backend/src/reservations/balance-reservation.service.ts:7-10 | The empty rail satisfies the invariant |
| `LegacyRail.ProposeKeepsSound` | backend/src/actions/actions.controller.ts:94-177 | A proposal keeps: memory in step with the table, solvent budget, budget held for PENDING actions only, ledger equal to the committed amounts |
| `LegacyRail.ApprovalKeepsSound` | backend/src/actions/actions.controller.ts:280-306 | So does an approval, whether or not its reservation is still there |
| `LegacyRail.RejectKeepsSound` | backend/src/actions/actions.controller.ts:318-346 | So does a rejection |
| `LegacyRail.MandateKeepsSound` | backend/src/policies/policy-engine.service.ts:129-132 | So does a mandate update |
| `LegacyRail.RestartKeepsSound` | backend/src/database/database.service.ts:49-100 | So does a restart, which forgets the reservations and any part of the store's and the book's memory |
| `LegacyRail.EveryRunIsSound` | backend/src/actions/actions.controller.ts:94-346 | Over every run, however approvals interleave and mandates change, restarts included, no day is overspent and each approved action is counted in the ledger at most once |
| `LegacyHandlers.ProposalAnswers` | backend/src/actions/actions.controller.ts:94-177 | The reply exactly: an amount that is no integer throws; without budget, or off the lists, BLOCK; within the single-payment limit and below 50 points ALLOW; ESCALATE otherwise |
| `LegacyHandlers.ProposalIsStored` | backend/src/actions/actions.controller.ts:94-177 | What a proposal leaves stored: the request as made, the status of its reply, and in memory its score and approval flag if its reservation was granted |
| `LegacyHandlers.EscalatedIsHeld` | backend/src/reservations/balance-reservation.service.ts:12-41 | An escalated proposal holds its amount for five minutes |
| `LegacyHandlers.RejectionAnswers` | backend/src/actions/actions.controller.ts:318-346 | A rejection is for a PENDING action, which then is REJECTED and holds nothing; each error exactly |
| `LegacyHandlers.ApprovalWrites` | backend/src/actions/actions.controller.ts:293-296 | A completed approval writes APPROVED with its signature, whatever the action is by then |
| `LegacyHandlers.ApprovalSpends` | backend/src/actions/actions.controller.ts:293-296 | It turns what is still held for the action into spend of the day |
| `LegacyHandlers.DeploymentSets` | backend/src/policies/mandates.controller.ts:97-121 | A deployment sets the amounts it gives, which must be integers, and the lists it gives, in lower case |
| `Guardian.EvaluateAction` | backend/src/guardian/risk-analysis.service.ts:17-88 | The verdict from the deterministic rule, the semantic score and the amount's share |
| `Guardian.VerdictIs` | backend/src/guardian/risk-analysis.service.ts:17-88 | BLOCK exactly off the lists; ALLOW exactly on both, within both limits and below 50 points of text and amount together; ESCALATE otherwise; and each one's score and flags |
| `Guardian.DivisionTruncates` | backend/src/guardian/risk-analysis.service.ts:40-41 | The quotient is the exact one cut off toward zero |
| `Guardian.ShareIsMonotone` | backend/src/guardian/risk-analysis.service.ts:33-38 | The amount adds 0 to 25 points, never fewer for a larger amount |
| `Guardian.VerdictIsMonotone` | backend/src/guardian/risk-analysis.service.ts:17-88 | Raising the amount never softens a verdict; BLOCK does not depend on the amount |
| `Guardian.ScoreBounds` | backend/src/guardian/risk-analysis.service.ts:17-88 | The score stays within 0 to 125 and ALLOW means a score below 50 and no rule broken |
| `Guardian.ScoreDropsIff` | backend/src/guardian/risk-analysis.service.ts:33-71 | A payment over the limit is reported with a lower score than one within it exactly when semantic score and share exceed the floor of 75 |
| `Guardian.ScoreIsMonotoneIff` | backend/src/guardian/risk-analysis.service.ts:17-88 | The reported score grows with the amount if and only if recipient or token is not approved, the limit is zero, or the text shows neither subversion nor exfiltration |
| `Normaliser.DeobfuscateWord` | backend/src/guardian/risk-analysis.service.ts:153-173 | A word is rewritten exactly when it holds a substitutable character, and then throughout |
| `Normaliser.NormalizeText` | backend/src/guardian/risk-analysis.service.ts:142-180 | The normal form of the words, and the flag exactly when some word that is not a number holds a substitutable character |
| `Normaliser.NormalIsIdempotent` | backend/src/guardian/risk-analysis.service.ts:142-180 | Normalising twice changes nothing more, reports no leetspeak, and keeps the words apart |
| `Normaliser.WordsOfJoin` | backend/src/guardian/risk-analysis.service.ts:144-145 | Splitting undoes joining |
| `Normaliser.ScoreFindings` | backend/src/guardian/risk-analysis.service.ts:102-139 | The score, intents and confidence of every combination of the four findings |
| `Normaliser.PerformMultiLayerSemanticAnalysis` | backend/src/guardian/risk-analysis.service.ts:90-140 | The analysis of a text, blank texts scoring nothing |
| `Normaliser.AnalysisScore` | backend/src/guardian/risk-analysis.service.ts:90-140 | The score is 0 to 100, 0 exactly when no intent is detected, as the confidence tells too, and above 15, then at least 65, exactly on subversion or exfiltration |
| `Normaliser.DrainScores` | backend/src/guardian/risk-analysis.service.ts:118-125 | One word can score: "drain" is exfiltration |
| `Normaliser.DisguiseNeverHelps` | backend/src/guardian/risk-analysis.service.ts:101-128 | A disguised text is detected for the same intents as its plain form, and scores as much or up to 15 more |
| `Detection.WordsAcrossACut` | backend/src/guardian/risk-analysis.service.ts:144-145 | White space and each of the listed punctuation marks cut a text, and leave the words of both sides |
| `Detection.UncutIsOneWord` | backend/src/guardian/risk-analysis.service.ts:144-145 | A text without any of them is one word |
| `Detection.RewrittenIff` | backend/src/guardian/risk-analysis.service.ts:147-173 | A word is rewritten exactly if it is no number, with or without a percent sign, and holds a look-alike |
| `Detection.LeetspeakIff` | backend/src/guardian/risk-analysis.service.ts:142-180 | A text is taken for leetspeak exactly if one of its words is rewritten |
| `Detection.ScoreIs` | backend/src/guardian/risk-analysis.service.ts:90-140 | Score, intents and confidence of every text: 70 for subversion of a target, 65 for exfiltration, 15 for a disguise beside such a word, at most 100 |
| `Detection.FoundIff` | backend/src/guardian/risk-analysis.service.ts:200-204 | A text contains a listed token exactly when one stands in it with no letter, digit or underscore touching it, of one word or several |
| `Detection.TokenIsFound` | backend/src/guardian/risk-analysis.service.ts:184-198 | A token is found wherever it is put, if nothing touches it |
| `Detection.GluedIsNotFound` | backend/src/guardian/risk-analysis.service.ts:184-198 | A text in which every occurrence is touched contains none |
| `Detection.IntentsAre` | backend/src/guardian/risk-analysis.service.ts:101-128 | The exact conditions of the three intents for every text |
| `Detection.ListedWordsAreDetected` | backend/src/guardian/risk-analysis.service.ts:101-128 | A listed word of the normal text is never missed, whatever else the text says |
| `Detection.OneWordIsDetectedIff` | backend/src/guardian/risk-analysis.service.ts:101-128 | A text of one plain word is detected exactly if it is listed |
| `Detection.DrainedIsNotDrain` | backend/src/guardian/risk-analysis.service.ts:184-204 | "drain" is exfiltration, "drained" is nothing, and neither is "cancel" alone |
| `Detection.DisguiseIsSeenThroughIff` | backend/src/guardian/risk-analysis.service.ts:142-180 | The normaliser sees through a word spelled with capitals and look-alikes exactly if it is not digits throughout |
| `Detection.DisguisedTokenShows` | backend/src/guardian/risk-analysis.service.ts:101-180 | However the words of a listed token are so disguised, anywhere in a text, it is detected |
| `Detection.ListedTokensAreWords` | backend/src/guardian/risk-analysis.service.ts:7-11 | Every listed token is made of plain words, but for "100%" |
| `Detection.AssetsInDigitsAreMissed` | backend/src/guardian/risk-analysis.service.ts:142-180 | Digits throughout are left alone: "all 455375" is not "all assets" |
| `PurchaseQueue.X402PurchaseRequestsService.InsertRequest` | backend/src/database/database.service.ts:776-805 | A new request is QUEUED at the end of the table |
| `PurchaseQueue.X402PurchaseRequestsService.QueueClaim` | backend/src/x402/x402-purchase-requests.service.ts:111-123 | A claim joins the end of its agent's promise chain |
| `PurchaseQueue.X402PurchaseRequestsService.ClaimRead` | backend/src/x402/x402-purchase-requests.service.ts:195-203 | The turn's query: the first queued row in creation order, or null and the end of the turn |
| `PurchaseQueue.X402PurchaseRequestsService.ClaimWrite` | backend/src/x402/x402-purchase-requests.service.ts:205-214 | The conditional update: PROCESSING and handed out exactly if still queued |
| `PurchaseQueue.X402PurchaseRequestsService.Report` | backend/src/x402/x402-purchase-requests.service.ts:125-152 | A PROCESSING request of the agent becomes AUTHORIZED on an action of his that pays for the resource |
| `PurchaseQueue.X402PurchaseRequestsService.IsPaidResultBacked` | backend/src/x402/x402-purchase-requests.service.ts:223-240 | True exactly for an EXECUTED action of the agent with the reported hash, ignoring case |
| `PurchaseQueue.X402PurchaseRequestsService.RefuseResult` | backend/src/x402/x402-purchase-requests.service.ts:154-173 | Which reports are turned away, and with which error |
| `PurchaseQueue.X402PurchaseRequestsService.Resolve` | backend/src/x402/x402-purchase-requests.service.ts:154-193 | An accepted report moves the request to its terminal status with what it reports, keeping earlier values where it is silent |
| `PurchaseHandlers.OwnersAreOneIff` | backend/src/x402/x402-purchase-requests.service.ts:296-302 | One owner: by checksummed form where both have one, by case otherwise |
| `PurchaseHandlers.AuthorizesIff` | backend/src/x402/x402-purchase-requests.service.ts:286-294 | An action pays for a resource exactly if its justification is "x402: " and a URL without white space that starts with the resource's |
| `PurchaseHandlers.ProgressAnswers` | backend/src/x402/x402-purchase-requests.service.ts:125-152 | Progress is accepted exactly from the request's agent, for a PROCESSING request and an action of his that pays for it; the errors in order, and the row written |
| `PurchaseHandlers.PaidIsBackedByIff` | backend/src/x402/x402-purchase-requests.service.ts:223-240 | PAID is backed exactly by an EXECUTED action of the agent with the reported hash |
| `PurchaseHandlers.ResultAnswers` | backend/src/x402/x402-purchase-requests.service.ts:154-193 | A result is accepted exactly from the request's agent, as an end, for a request being processed or authorised, if PAID is backed, BLOCKED says so and the response fits in 32 KB; a second end is a conflict |
| `PurchaseHandlers.ResultWrites` | backend/src/x402/x402-purchase-requests.service.ts:174-189 | What an accepted result writes, column by column |
| `PurchaseHandlers.Utf8LengthAdds` | backend/src/x402/x402-purchase-requests.service.ts:242-252 | The length of a response in UTF-8 is that of its characters together |
| `PurchaseHandlers.QueueIsSorted` | backend/src/database/database.service.ts:543-549 | The query's sort loses and adds nothing, orders by creation time, and keeps table order among equals |
| `PurchaseHandlers.OldestQueuedIs` | backend/src/database/database.service.ts:543-549 | A claim reads one of the agent's queued requests created first, and none exactly if he has none queued |
| `PurchaseHandlers.RequestIsQueued` | backend/src/database/database.service.ts:776-805 | A new request is queued behind all others with nothing decided |
| `PurchaseHandlers.ClaimEnds` | backend/src/x402/x402-purchase-requests.service.ts:205-214 | The update hands its row out as PROCESSING if it is still queued, and ends that turn and no other |
| `PurchaseClaims.EnqueueKeepsOrderly` | backend/src/database/database.service.ts:776-805 | A new request leaves what claims have read and what was handed out as it was |
| `PurchaseClaims.ReadKeepsOrderly` | backend/src/x402/x402-purchase-requests.service.ts:195-203 | A claim's read keeps the order |
| `PurchaseClaims.WriteKeepsOrderly` | backend/src/x402/x402-purchase-requests.service.ts:205-214 | A claim's write keeps the order: the oldest queued request moves to the end of what was handed out |
| `PurchaseClaims.RowUpdateKeepsOrderly` | backend/src/database/database.service.ts:822-855 | Reports leave the queue alone |
| `PurchaseClaims.SortIsIdle` | backend/src/database/database.service.ts:543-549 | In a table filled in creation order the query's sort changes nothing |
| `PurchaseClaims.HandedOnce` | backend/src/x402/x402-purchase-requests.service.ts:111-123 | No request is handed out twice, and none to an agent it does not belong to |
| `PurchaseClaims.HandedInCreationOrder` | backend/src/x402/x402-purchase-requests.service.ts:195-215 | An agent is handed its requests in creation order, leaving none out |
| `PurchaseClaims.NullMeansNothingQueued` | backend/src/x402/x402-purchase-requests.service.ts:195-203 | A claim answers null exactly when its agent had nothing queued as its turn began |
| `PurchaseClaims.WriteHandsOutTheOldest` | backend/src/x402/x402-purchase-requests.service.ts:205-214 | The conditional update never fails for the claim whose turn it is |
| `PurchaseClaims.WriteAloneHandsOutOnce` | backend/src/database/database.service.ts:807-820 | Even without turns the conditional update alone never hands a request out twice |
| `PurchaseProofs.QueueStepAdvances` | backend/src/x402/x402-purchase-requests.service.ts:125-215 | Every step moves a request up QUEUED, PROCESSING, AUTHORIZED, terminal, or leaves it; what was asked for is never rewritten |
| `PurchaseProofs.EveryQueueRunIsOrderly` | backend/src/x402/x402-purchase-requests.service.ts:105-215 | Every run of the queue, whatever the action store holds at each step, restarts included, keeps the claim invariant |
| `PurchaseProofs.QueuesOnlyAdvance` | backend/src/x402/x402-purchase-requests.service.ts:125-215 | From any moment of such a run to any later one requests only advance and what was handed out stays |
| `PurchaseProofs.TerminalIsFinal` | backend/src/x402/x402-purchase-requests.service.ts:158-160 | A terminal request never changes again where reports work on the live row |
| `PurchaseProofs.ClaimsAreServedInOrder` | backend/src/x402/x402-purchase-requests.service.ts:105-123 | Over every such run each agent gets its own requests, each once, in creation order |
| `PurchaseProofs.ClaimsAnswerRight` | backend/src/x402/x402-purchase-requests.service.ts:195-215 | At every moment of it, null means nothing queued, and a claim that has read gets the oldest |
| `PurchaseBacking.AuthorizedOnAnAction` | backend/src/x402/x402-purchase-requests.service.ts:125-152 | A request that becomes AUTHORIZED names an action of its agent whose justification pays for the resource |
| `PurchaseBacking.PaidOnAnExecutedAction` | backend/src/x402/x402-purchase-requests.service.ts:154-240 | A request that becomes PAID names an EXECUTED action of its agent with the same hash, lower-cased |
| `PurchaseBacking.OwnersCoincide` | backend/src/x402/x402-purchase-requests.service.ts:296-302 | Checksummed agents that the service takes for one are one |
| `PurchaseBacking.EverySystemRunIsSound` | backend/src/x402/x402-purchase-requests.service.ts:125-240 | Every run of both services side by side, with overlapping settlements, late approvals and restarts, keeps AUTHORIZED requests on actions of their agents that pay for them, and PAID ones on actions of their agents with a hash and an accepted settlement |
| `PurchaseBacking.ActionShowsLastWrite` | backend/src/actions/action-store.service.ts:149-185 | Between any two moments of any run an action shows the last update made to it, and keeps its request |
| `PurchaseBacking.BecomesPaidBacked` | backend/src/x402/x402-purchase-requests.service.ts:217-240 | A request is backed at the moment it becomes PAID |
| `PurchaseBacking.PaidIsBackedIff` | backend/src/x402/x402-purchase-requests.service.ts:217-240 | At any later moment of any run it is unchanged, its action is its agent's and settled, and it is backed if and only if the last update of that action since, if any, is a settlement on its own hash: no other settlement, and no approval or rejection that resumed late |
| `PurchaseBacking.StepKeepsOneSettlementEach` | backend/src/x402/x402-payments.service.ts:153-174 | If settlements of one action do not overlap and late decisions do not reach an executed one, no settlement is ever suspended for an executed action |
| `PurchaseBacking.NothingWrittenAgain` | backend/src/x402/x402-payments.service.ts:153-174 | So nothing is written to an executed action |
| `PurchaseBacking.PaidStaysBacked` | backend/src/x402/x402-purchase-requests.service.ts:217-240 | And a PAID request stays backed at every later moment |
| `PurchaseBacking.PaymentAuthorizesItsResource` | backend/src/x402/x402-purchase-requests.service.ts:286-294 | The stored justification authorises exactly the URLs that the paid URL starts with |
| `PurchaseWitness.OverlapWitness` | backend/src/x402/x402-payments.service.ts:153-174 | A ten-step run with two suspended settlements of one action: backed before its last step, and not after |
| `PurchaseWitness.LateApprovalWitness` | backend/src/x402/x402-payments.service.ts:238-275 | A fifteen-step run with two suspended approvals of one action: backed before its last step, the second approval's, and not after |
| `PurchaseWitness.ExamplesAreCovered` | backend/src/blockchain/on-chain-executor.service.ts:189-213 | The premises of both are met by concrete configurations, requests and a receipt |
| `PurchaseCopies.UndisturbedIsLive` | backend/src/x402/x402-purchase-requests.service.ts:125-193 | Read, checked and written with nothing in between, a report is the one on the live row |
| `PurchaseCopies.WriteSets` | backend/src/x402/x402-purchase-requests.service.ts:146-190 | What a written report sets, column by column, on whatever its row is by then |
| `PurchaseCopies.ReplyIsDequeued` | backend/src/x402/x402-purchase-requests.service.ts:125-193 | On the copy it has read, a report is accepted only if the copy was neither queued nor terminal |
| `PurchaseCopies.EveryRunIsSound` | backend/src/x402/x402-purchase-requests.service.ts:105-215 | Over Postgres, where a report checks a copy and its update arrives later, the claims stay in order over every run |
| `PurchaseCopies.ClaimsAreServedInOrder` | backend/src/x402/x402-purchase-requests.service.ts:105-123 | So there too each agent gets its own requests, each once, in creation order |
| `PurchaseCopies.TerminalCanChangeIff` | backend/src/x402/x402-purchase-requests.service.ts:154-193 | There a terminal request can still change if and only if a report that read its row before, and would be accepted on that copy, is under way |
| `PurchaseCopies.SettledForGood` | backend/src/x402/x402-purchase-requests.service.ts:158-160 | Without one it never changes again |
| `PurchaseCopies.LateReadersAreRefused` | backend/src/x402/x402-purchase-requests.service.ts:158-160 | A report that reads the row once it is terminal is refused |
| `PurchaseCopies.OverwrittenWitness` | backend/src/x402/x402-purchase-requests.service.ts:154-193 | Ten steps in which two reports read one request and the second to arrive overwrites the end the first had written |
| `OrbSession.VerificationSession.constructor` | backend/src/world/world-id-approver.service.ts:109-122 | A new session waits, unexpired for fifteen minutes, with its timer running |
| `OrbSession.VerificationSession.OnTick` | backend/src/world/world-id-approver.service.ts:139-152 | A tick is ignored while a poll is in flight or the wait is over; it expires the session or polls |
| `OrbSession.VerificationSession.OnPoll` | backend/src/world/world-id-approver.service.ts:152-183 | What each answer of the bridge, or its failure, does to the session |
| `OrbSession.VerificationSession.OnVerified` | backend/src/world/world-id-approver.service.ts:203-258 | The portal's answer and the proof are checked in the source's order |
| `OrbSession.VerificationSession.FindForeignRow` | backend/src/world/world-id-approver.service.ts:264-271 | The first row of another signer, or with a malformed one, decides |
| `OrbSession.VerificationSession.OnBindings` | backend/src/world/world-id-approver.service.ts:260-281 | The last check passed, the session is VERIFIED with the lower-cased nullifier and its bind message |
| `OrbSession.VerificationSession.GetOrbVerification` | backend/src/world/world-id-approver.service.ts:284-296 | A status read expires any session but a BOUND one whose time is up |
| `OrbSession.VerificationSession.BindLedgerApprover` | backend/src/world/world-id-approver.service.ts:298-332 | Up to its first await a bind needs an unexpired VERIFIED session and the approver's signature over its bind message |
| `OrbSession.VerificationSession.OnBindBindings` | backend/src/world/world-id-approver.service.ts:330-347 | A nullifier bound elsewhere stops the bind; otherwise the session's nullifier is inserted |
| `OrbSession.VerificationSession.OnInserted` | backend/src/world/world-id-approver.service.ts:349-350 | The session is BOUND |
| `OrbSession.EveryRunIsSound` | backend/src/world/world-id-approver.service.ts:131-353 | Every interleaving keeps the session invariant |
| `OrbSession.VerifyProofAtMostOnce` | backend/src/world/world-id-approver.service.ts:136-144 | `verifyProof` is called at most once per session |
| `OrbSession.VerifiedNeverFails` | backend/src/world/world-id-approver.service.ts:136-137 | Once VERIFIED a session is VERIFIED, BOUND or EXPIRED ever after, with the same nullifier; BOUND is never left |
| `OrbSession.BoundWasChecked` | backend/src/world/world-id-approver.service.ts:308-327 | A BOUND session was bound by a handler that found it VERIFIED, unexpired, with its nullifier, and the approver's signature over it |
| `OrbSession.VerifiedIsGenuine` | backend/src/world/world-id-approver.service.ts:202-271 | A VERIFIED or BOUND session rests on a proof for which all five checks held |
| `OrbSession.LaterStatesOnlyAdvance` | backend/src/world/world-id-approver.service.ts:131-353 | Evidence, nullifier, checks and BOUND are never lost |
| `OrbSession.ExpiredFailsWitness` | backend/src/world/world-id-approver.service.ts:196-281 | A five-step run from EXPIRED to FAILED: the portal throws after the expiry was read |
| `OrbSession.ExpiredVerifiesWitness` | backend/src/world/world-id-approver.service.ts:260-281 | A five-step run from EXPIRED to VERIFIED: the table answers after the expiry was read |
| `OrbSession.ExpiredBindsWitness` | backend/src/world/world-id-approver.service.ts:330-353 | A run from EXPIRED to BOUND: a bind begun in time is written after it |
| `OrbSession.ExampleIsAccepted` | backend/src/world/world-id-approver.service.ts:202-271 | Their premises are met by a concrete service and proof |
| `OrbSession.ExpiredIsLeftIff` | backend/src/world/world-id-approver.service.ts:196-281 | EXPIRED is left exactly when a proof already in flight is decided or a bind already past its checks is written |
| `OrbSession.TickDecides` | backend/src/world/world-id-approver.service.ts:139-152 | A tick expires a waiting, idle session exactly from its expiry on, polls exactly before it, and is ignored otherwise |
| `OrbSession.PollingBeginsInTime` | backend/src/world/world-id-approver.service.ts:139-152 | Polling begins at a tick before the expiry and at no other step |
| `OrbHandlers.NewSessionIs` | backend/src/world/world-id-approver.service.ts:109-122 | A session starts waiting for fifteen minutes with nothing established |
| `OrbHandlers.PollDecides` | backend/src/world/world-id-approver.service.ts:152-183 | What each answer of the bridge, or its exception, does to a polling session |
| `OrbHandlers.ProofPassesIff` | backend/src/world/world-id-approver.service.ts:203-258 | A proof passes exactly if the portal accepted it, its first Orb result succeeded, it is for the configured action, and its first Orb response names the approver and a nullifier |
| `OrbHandlers.ProofFailsOf` | backend/src/world/world-id-approver.service.ts:203-258 | Which failure is reported, the first found deciding |
| `OrbHandlers.PortalDecides` | backend/src/world/world-id-approver.service.ts:203-258 | The portal's answer leads on to the bindings with that nullifier, or to FAILED |
| `OrbHandlers.RowsPassIff` | backend/src/world/world-id-approver.service.ts:264-271 | Rows pass exactly if they are all the approver's; the first that is not decides |
| `OrbHandlers.TableDecides` | backend/src/world/world-id-approver.service.ts:260-281 | The table's answer makes the session VERIFIED with the nullifier and its message, or FAILED |
| `OrbHandlers.StatusReads` | backend/src/world/world-id-approver.service.ts:284-296 | A read is for the session's own user and expires whatever is not BOUND once its time is up |
| `OrbHandlers.BindBegins` | backend/src/world/world-id-approver.service.ts:298-332 | A bind begins exactly for that user on a VERIFIED, unexpired session with the approver's signature over its message; each error exactly |
| `OrbHandlers.BindIsChecked` | backend/src/world/world-id-approver.service.ts:330-347 | It goes on to insert exactly if its rows are all the approver's; a taken nullifier is a conflict |
| `OrbHandlers.BindEnds` | backend/src/world/world-id-approver.service.ts:349-353 | Once its row is written the session is BOUND and polls no more |
| `OrbHandlers.NothingResumesTwice` | backend/src/world/world-id-approver.service.ts:131-353 | A handler resumes only where it was suspended |
| `OrbHandlers.BoundWasUncontested` | backend/src/world/world-id-approver.service.ts:330-353 | Over every run a BOUND session was bound by a handler that found nobody but the approver under its nullifier |
| `SelfieBindings.WorldSelfieService.constructor` | backend/src/world/world-selfie.service.ts:33-47 | A service over a table that lists these rows at that moment, none in the application, holds what loading them gives |
| `SelfieBindings.WorldSelfieService.LoadFromDatabase` | backend/src/world/world-selfie.service.ts:49-68 | Both maps say what the rows say, later rows over earlier ones, up to the first row with a malformed signer, on which loading stops |
| `SelfieBindings.WorldSelfieService.DatabaseLoaded` | backend/src/database/database.service.ts:49-100 | Once the database has loaded the table is there and memory is as it was |
| `SelfieBindings.WorldSelfieService.FindHolder` | backend/src/database/database.service.ts:501-509 | A row holding the nullifier, or none if there is none |
| `SelfieBindings.WorldSelfieService.BindHumanSigner` | backend/src/world/world-selfie.service.ts:176-241 | A nullifier owned by another signer is refused; otherwise both maps, the table and its saved copy get the binding |
| `SelfieBindings.WorldSelfieService.CheckHumanSigner` | backend/src/world/world-selfie.service.ts:246-284 | Loads lazily into both maps; true exactly for an active binding whose time is not over |
| `SelfieBindings.WorldSelfieService.Touch` | backend/src/world/world-selfie.service.ts:289-306 | Extends an active binding in memory, table and saved copy |
| `SelfieBindings.WorldSelfieService.FetchHumanBinding` | backend/src/world/world-selfie.service.ts:311-335 | Loads lazily into the bindings map only |
| `SelfieBindings.WorldSelfieService.RevokeHumanBinding` | backend/src/world/world-selfie.service.ts:340-351 | Forgets binding, its nullifier's index entry and the row, not the saved copy |
| `SelfieBindings.StepKeepsSound` | backend/src/world/world-selfie.service.ts:176-351 | Every operation and restart keeps the tables in order, memory in step with the rows, and every row saved |
| `SelfieBindings.EveryRunIsSound` | backend/src/world/world-selfie.service.ts:176-351 | So does every run, over file or database |
| `SelfieBindings.StepKeepsLiveIff` | backend/src/world/world-selfie.service.ts:190-208 | In memory and in the table nullifiers stay apart, and the index right, through every step but a restart that finds two of them the same in the saved copy |
| `SelfieBindings.StepKeepsConsistentIff` | backend/src/world/world-selfie.service.ts:190-208 | In the saved copy too, exactly until a bind takes over a nullifier that the database still has for another signer |
| `SelfieBindings.NullifiersStayApartIff` | backend/src/world/world-selfie.service.ts:190-208 | Over every run: they have been apart at every moment exactly if no restart so far found two of them the same |
| `SelfieBindings.NullifiersAreNotShared` | backend/src/world/world-selfie.service.ts:190-208 | Over every run in which no restart follows such a bind, no two signers share a nullifier in memory or in the table, and the index contradicts no row |
| `SelfieBindings.OneProcessSharesNothing` | backend/src/world/world-selfie.service.ts:190-208 | So in either mode for as long as one process runs, revocations and rebindings included |
| `SelfieBindings.SavedNullifiersAreNotShared` | backend/src/database/database.service.ts:692-723 | Nor in the saved copy over every run without such a bind |
| `SelfieBindings.FileRunsTakeNothingOver` | backend/src/database/database.service.ts:692-723 | With the persistence file no run has one |
| `SelfieBindings.DatabaseHasLastBound` | backend/src/database/database.service.ts:692-723 | The database has every signer under the nullifier of his last accepted bind, revoked or not |
| `SelfieBindings.SharedAfterRestartIff` | backend/src/database/database.service.ts:151-156 | After a restart over the database two signers hold one nullifier if and only if their last accepted binds did |
| `SelfieBindings.TakeoverWitness` | backend/src/database/database.service.ts:719-723 | Bind, revoke, bind another signer, restart: both are verified for one human |
| `SelfieBindings.BindIsRefusedIff` | backend/src/world/world-selfie.service.ts:190-208 | A verified human is refused exactly when another signer's row holds the nullifier or the index remembers it for another signer |
| `SelfieBindings.RebindLeavesStaleEntryIff` | backend/src/world/world-selfie.service.ts:223-224 | A stale index entry appears exactly when the index gave the signer another nullifier before |
| `SelfieBindings.OtherStepsLeaveNoStaleEntry` | backend/src/world/world-selfie.service.ts:246-351 | No other operation creates one |
| `SelfieBindings.StaleEntryBlocks` | backend/src/world/world-selfie.service.ts:340-347 | After rebinding and revoking, the first nullifier is refused to everyone else although no row holds it |
| `SelfieBindings.RevokedStaysUnverified` | backend/src/world/world-selfie.service.ts:340-351 | From a revocation on a signer stays unverified until a bind of his own or a restart |
| `SelfieBindings.RevokedReturnsAtRestartIff` | backend/src/database/database.service.ts:719-723 | The next restart brings him back, as he was, if and only if it is over the database, or no step since wrote the file |
| `SelfieBindings.ReturnedIsVerifiedIff` | backend/src/world/world-selfie.service.ts:246-284 | Not loaded at start-up, a signer is verified exactly while his row has not expired |
| `SelfieHandlers.LastOfSignerIsLoaded` | backend/src/world/world-selfie.service.ts:49-68 | Of the rows loaded, the last of each signer is his binding |
| `SelfieHandlers.LastOfNullifierIsLoaded` | backend/src/world/world-selfie.service.ts:49-68 | The last with each nullifier says whose it is |
| `SelfieHandlers.LoadedSignerHasARow` | backend/src/world/world-selfie.service.ts:49-68 | No binding without a row |
| `SelfieHandlers.LoadedNullifierHasARow` | backend/src/world/world-selfie.service.ts:49-68 | No index entry without a row |
| `SelfieHandlers.BindDecides` | backend/src/world/world-selfie.service.ts:176-241 | A bind is refused exactly for a malformed address, an unverified proof or a nullifier that index or row gives another signer; else both maps, the table and the saved copy take it for ninety days |
| `SelfieHandlers.CheckDecides` | backend/src/world/world-selfie.service.ts:246-284 | A signer is verified exactly by an active, unexpired binding, loaded from its row if memory lacks it; one whose time is over is marked inactive |
| `SelfieHandlers.FetchDecides` | backend/src/world/world-selfie.service.ts:311-335 | Fetching loads a binding from its row, not into the index, and lets nothing expire |
| `SelfieHandlers.TouchDecides` | backend/src/world/world-selfie.service.ts:289-306 | Activity extends an active binding, its row and the saved row by ninety days |
| `SelfieHandlers.RevokeDecides` | backend/src/world/world-selfie.service.ts:340-351 | A revocation forgets binding, index entry and row, not what is saved |
| `SelfieHandlers.SavingIs` | backend/src/database/database.service.ts:692-723 | Any other write saves the table with the file and nothing with the database |
| `SelfieHandlers.BindingOfRowIs` | backend/src/world/world-selfie.service.ts:49-68 | A binding as its row gives it |
| `BleFraming.FrameApdu` | packages/ledger_keyring/android/src/main/kotlin/com/chapter2/ledger/transport/LedgerBleTransportManager.kt:19-58 | The packet loop equals the framing; an MTU below the first header is an array exception unless there is no data |
| `BleFraming.ArrayCopy` | packages/ledger_keyring/android/src/main/kotlin/com/chapter2/ledger/transport/LedgerBleTransportManager.kt:36 | Copies exactly the given stretch and leaves the rest of the buffer |
| `BleFraming.DeframeResponse` | packages/ledger_keyring/android/src/main/kotlin/com/chapter2/ledger/transport/LedgerBleTransportManager.kt:60-86 | The reading loop, its skips and its early stop, and the split into payload and status word |
| `BleFraming.FromCode` | packages/ledger_keyring/android/src/main/kotlin/com/chapter2/ledger/models/LedgerAPDU.kt:82-93 | The status word chosen has the given code, known or not |
| `BleFraming.FramesCarryTheData` | packages/ledger_keyring/android/src/main/kotlin/com/chapter2/ledger/transport/LedgerBleTransportManager.kt:27-55 | Framing neither loses nor reorders a byte and announces the length modulo 65536 |
| `BleFraming.FramesAreNumbered` | packages/ledger_keyring/android/src/main/kotlin/com/chapter2/ledger/transport/LedgerBleTransportManager.kt:31-48 | Every packet keeps to the MTU and carries its position, which fits 16 bits when the length does |
| `BleFraming.RoundTripIff` | packages/ledger_keyring/android/src/main/kotlin/com/chapter2/ledger/transport/LedgerBleTransportManager.kt:19-86 | Framing then deframing gives payload and status word back exactly for an MTU of 5 or more and a length below 65536 or of at most two packets |
| `BleFraming.RoundTrip` | packages/ledger_keyring/android/src/main/kotlin/com/chapter2/ledger/transport/LedgerBleTransportManager.kt:60-86 | For every payload whose length with the status word fits 16 bits, and every MTU from 5, both come back |
| `BleFraming.ShortDataIsRefused` | packages/ledger_keyring/android/src/main/kotlin/com/chapter2/ledger/transport/LedgerBleTransportManager.kt:74-75 | Fewer than two bytes are never taken for a response |
| `BleFraming.ShortPacketsDoNotMatter` | packages/ledger_keyring/android/src/main/kotlin/com/chapter2/ledger/transport/LedgerBleTransportManager.kt:68-69 | Packets shorter than a header may come anywhere after the first |
| `BleFraming.PacketsAfterAFrameDoNotMatter` | packages/ledger_keyring/android/src/main/kotlin/com/chapter2/ledger/transport/LedgerBleTransportManager.kt:70-71 | Nothing after a complete frame of two or more packets matters |
| `BleFraming.PacketsAfterOnePacketMatterIff` | packages/ledger_keyring/android/src/main/kotlin/com/chapter2/ledger/transport/LedgerBleTransportManager.kt:68-72 | After a one-packet frame, what follows is ignored exactly when its first packet long enough to look at is empty |
| `BleFraming.KnownCodesAre` | packages/ledger_keyring/android/src/main/kotlin/com/chapter2/ledger/models/LedgerAPDU.kt:82-93 | The nine known codes have their own status words, every other its number |
| `BleFraming.WhatIsNoFrame` | packages/ledger_keyring/android/src/main/kotlin/com/chapter2/ledger/transport/LedgerBleTransportManager.kt:19-75 | When framing throws, and which packets are refused with which error |
| `ReplayGuard.AgentSignatureGuard.PruneUsedSignatures` | backend/src/x402/guards/agent-signature.guard.ts:94-101 | Forgets exactly the signatures whose retention is over |
| `ReplayGuard.AgentSignatureGuard.BeginActivate` | backend/src/x402/guards/agent-signature.guard.ts:35-79 | Up to the agent lookup: freshness in whole seconds, pruning, the replay check, the signature |
| `ReplayGuard.AgentSignatureGuard.FinishActivate` | backend/src/x402/guards/agent-signature.guard.ts:80-87 | After it: an active agent's signature is remembered for two minutes, whatever happened meanwhile |
| `ReplayGuard.GoesOnIff` | backend/src/x402/guards/agent-signature.guard.ts:35-79 | Over every run a request goes on to the lookup exactly if it is signed, at most 60 seconds off, and nothing was let in with its header string in the last two minutes |
| `ReplayGuard.AnswerIff` | backend/src/x402/guards/agent-signature.guard.ts:35-87 | Over every run a request is let in exactly if it got that far and the lookup found an active agent |
| `ReplayGuard.WaitingHasEntered` | backend/src/x402/guards/agent-signature.guard.ts:35-79 | Whoever waits at the lookup entered with a fresh timestamp |
| `ReplayGuard.StaysShutOut` | backend/src/x402/guards/agent-signature.guard.ts:44-47 | Over every interleaving, a signed request none of whose spellings waits or is open stays so |
| `ReplayGuard.CanBeAcceptedAgainIff` | backend/src/x402/guards/agent-signature.guard.ts:35-87 | A signed request accepted under one spelling can be accepted again if and only if a request of one of its spellings waits at the lookup, or one of them is not remembered while the timestamp is fresh |
| `ReplayGuard.OneSpellingAgainIff` | backend/src/x402/guards/agent-signature.guard.ts:35-87 | For a single header string: another request with it waits, or its timestamp is 60 seconds ahead of the second it was stored in |
| `ReplayGuard.TwiceOnlyIf` | backend/src/x402/guards/agent-signature.guard.ts:35-87 | Of any two acceptances of one signed request in any run one of the two held at the first |
| `ReplayGuard.NeverTwice` | backend/src/x402/guards/agent-signature.guard.ts:35-87 | A header string stored while nobody else waits with it, stamped at most 59 seconds ahead, is never accepted again |
| `ReplayGuard.OverlapWitness` | backend/src/x402/guards/agent-signature.guard.ts:79-84 | Two requests with one signature that overlap at the lookup are both accepted |
| `ReplayGuard.SpellingsWitness` | backend/src/x402/guards/agent-signature.guard.ts:44-47 | One signed request under two spellings is accepted under each, one after the other |
| `Common.CapitalsAreLowered` | backend/src/guardian/risk-analysis.service.ts:201 | Lower case changes the 26 capitals and nothing else |
| `Common.SumRemove` | backend/src/reservations/balance-reservation.service.ts:65-72 | A map's sum does not depend on the order of summation |

## Left out

- The SQL text and JSON or ISO encodings: rows are typed records and times milliseconds. Postgres is modelled where a restart reads it back, as an exact copy of the table except for `human_bindings`. Reports on copies over Postgres are `PurchaseCopies`; there, too, an escalation row is one step per statement.
- Aliasing: actions, rows, sessions and bindings are values in maps. The verdict that handlers write into a shared action object is `Annotate`; live references to escalation and request rows are single steps.
- X402Service.X402PaymentsService.BeginApproval: the read of the row and the checks on it are one step; the World ID gate's answer is a parameter.
- PurchaseProofs.TerminalIsFinal: for reports on live rows, as the in-memory tables give them; over copies `PurchaseCopies.TerminalCanChangeIff` is the exact statement.
- X402Service.X402PaymentsService.VerifyTokenTransfer: error texts and the transferred total are not returned.
- LegacyRail.MandatesController.DeployAgent: the ownership check's answer is a parameter; the agent's address in the mandate and the reply are not modelled.
- LegacyRail.ActionsController.ProposeAction: typed data, prompts and events around it; the proof's outcome is a parameter, and the turn it yields between verdict and bookkeeping is part of one step.
- LegacyRail.ActionsController.CompleteApproval: the refresh of the signer's activity before it; that every approved action is counted as spent is not claimed, as `approveAction` ignores whether its reservation was still there.
- PurchaseQueue.X402PurchaseRequestsService.InsertRequest: ownership, catalogue and query-parameter checks that precede the insert, and the columns nothing later depends on.
- PurchaseBacking.PaidIsBackedIff: one executed action may back several requests; settlement has no guard across actions, as `docs/development.md` says.
- OrbSession.VerificationSession.OnBindings: the rows found are the step's input, whatever else writes `human_bindings`; bindings, their renewal and the approval gate of the approver service are not modelled.
- OrbSession: starting a request at the bridge, the wording of failures, and the map from request ids to sessions.
- SelfieBindings.WorldSelfieService.BindHumanSigner: verification of the proof is a parameter. The approver service writes the same table and is not part of these runs; with no database at all nothing outlives the process.
- BleFraming: the Swift copy, which stops on lengths above 65535 instead of wrapping, the copies under `native_security/`, and `LedgerAPDUCommand.serialize`.
- ReplayGuard.AgentSignatureGuard.BeginActivate: header parsing and address recovery are one flag, the agent lookup's answer another.
- Guardian.EvaluateAction: the fraction is the integer quotient it is computed from; for every quotient from 0 to 10000 the floating-point product has the same floor. Reasons are not modelled, and the confidence is a real.
- Normaliser: case folding, white space and word boundaries are those of ASCII; token patterns match one space for any white space, which normalised text has anyway.
- `listPendingApprovals`, `listActions` by status, `getAllBindings`, purchase-request listings and other plain reads: they would only add easy members.
- VendorService, WebSocket events, Nest wiring, DTO decoration, contracts, apps and plugins.
