# Verification of the stablecoin payout gateway

This project models the money path of the gateway and proves what the gateway promises about it: payouts are
frozen, reviewed, signed, broadcast, confirmed and settled by leased workers against a chain; deposits are indexed,
matched and credited; deposit wallets are swept; and custody is reconciled against the chain.

`dafny verify dfyconfig.toml` checks everything.

## How it is built

- **The state machine** (`Gateway.dfy`, with `Payouts`, `Deposits`, `Indexer`, `Sweeps`, `Wallets`, `Signer`, `Lease`,
  `Ledger`, `Chain`, `Tables`). One state holds the database tables, the signer's records, the chain, and where every
  worker stands between two of its calls. Each database transaction, signer call and node call is one atomic step;
  steps of all workers, operators and the chain interleave freely, workers crash anywhere, leases are taken over,
  and answers are lost. `Run` is any sequence of such steps from an empty deployment.
- **The invariants** (`LedgerProofs` … `Invariants`, `Finality`, `CustodyFlow`, `Reconciliation`, `Captures`,
  `SweepFunds`). Each step keeps them, so every state of every run has them.
- **The theorems** (`Theorems`, `Idempotency`, `Refunds`, `Spelling`, `Counterexample`, `PaidTwice`): statements over all runs.
- **The statements** (`Statements`, `Passes`, `Leases`, `Creations`, `Defenses`, `Checkpoints`, `DepositStatements`, `ScanStatements`,
  `SignerStatements`, `SweepStatements`, `Findings`): what each call does in every run, told again on the columns, amounts and
  times, instead of by the checks and updates the state machine is made of. They say both when a call acts and when it does not.
- **The code** (`Storage`, `PayoutStore`, `SignerStores`, `Simulator`, `Workers`, `Scanners`, `Snapshots`,
  `DepositStore`, `SweepStore`). Classes with the source's fields and loops, each method proved to make exactly the
  transition of the state machine. Workers, scanners and captures carry the history of the whole system and
  let everybody else run between any two of their calls; each pass is proved to extend that history to a longer run,
  so the theorems hold around it, and to make its calls in the source's order. `Simulator` is the chain of the state
  machine.
- **The arithmetic** (`Validation`, `Rendering`, `Amounts`, `Base58`, `Address`, `AddressCodec`, `Calldata`, `Text`).

### The read order of confirmation

`confirm` reads the transaction first and the solidified head second (internal/payout/execution_worker.go:149 and 171).
If a block that holds the transaction solidifies between the two reads, a worker declares an executed payment
expired. So soundness of failed rows does not hold of every run. What holds is stated exactly: in every reachable
state the declared expiry is right if and only if the transaction is on no block that solidified between the two
reads (`Finality.ExpiryExact`, over whole runs `Theorems.ExpiriesRightIffQuiet`). A head that did not move is enough
(`Finality.StableIsQuiet`). `Counterexample.UnquietExpiryPaysTwice` covers the whole failing family, and
`PaidTwice.PaidAndRefunded` gives one complete run from an empty deployment in which a payout is paid and refunded.
For a failed row the exact condition is `Refunds.PaidIffOverlooked`. The theorems that need it (`FailedNeverPays`, `NoFalseShortfall`, `SweepsFunded`) carry the hypothesis `QuietRun`; all
others hold of every run.

### What is assumed

- The chain: a block may include a transaction only if its parent's timestamp is before the transaction's
  expiration; block times do not decrease; a transaction id executes at most once. A node's
  solidified answers are true, and it reports a transaction missing only when no solidified block holds it.
- Custody: tokens leave a custody wallet only through a broadcast transaction signed for it, one transfer of exactly the
  signed amount to the signed destination. The active wallet set is fixed. Payouts pay from the hot wallet, whose key signs
  no sweep. Deposit addresses are custody wallets.
- Ids: transaction ids are digests, so a newly built transaction has an id nobody has used; generated UUIDs are fresh.
  Ids are in the text their row prints; `Spelling.SilentIffLowerCase` says what happens to a review whose id is typed
  otherwise. An asset is its contract, on one network.
- Fingerprints do not collide: they are compared as the values they digest. The amount of a payout request counts by its
  text, which may carry a plus sign.
- The unique keys behind `ON CONFLICT` exist; transactions are atomic; which unlocked row a claim takes is left open (the set of
  rows others have locked is a parameter). Inserting a sweep plan creates its `planned` execution.
- Statuses of merchants, assets and addresses and the screening decisions are inputs of the steps that read them.

## Model

| member | source | states |
|---|---|---|
| Theorems.FrozenIsOpen | internal/payout/execution.go:298-314 | In every state of every run a merchant's frozen balance of an asset is exactly the sum of its payouts in pending_review, approved, ready_for_broadcast or confirming |
| Theorems.Conservation | internal/ledger/repository.go:68-135 | In every state of every run, per asset, custody equals everything owed to merchants, and equals credited deposits minus succeeded payouts |
| Theorems.NoOverdraft | internal/payout/store.go:185-191 | No merchant, frozen or custody balance is ever negative |
| Theorems.DefensiveBranchesDead | internal/payout/execution.go:298-325 | The insufficient-frozen and failed-posting branches of review and settlement, and the failing branches of a match, are unreachable in every run, for every input |
| Theorems.PostedOnce | internal/ledger/repository.go:165-182 | In every state of every run a business reference names at most one posted journal |
| Theorems.AnnouncedOnce | internal/payout/execution.go:358-382 | A rejected, failed or succeeded payout has exactly one outbox event, which carries its amount and its settling journal, and that journal is posted |
| Theorems.DetectorsSilent | internal/reconciliation/detectors.go:175-544 | In every state of every run the five ledger-integrity detectors report nothing |
| Theorems.TerminalAbsorbing | internal/payout/execution.go:222-356 | Once a payout or sweep row is settled it is the same row in every later state |
| Theorems.RunProgress | internal/payout/execution.go:62-206 | Between any two states of a run rows keep their request and signed transaction, epochs and attempts only grow, signer records are never replaced, and the solidified chain is a prefix |
| Theorems.HolderIsLast | internal/payout/execution.go:113-135 | In every run, a worker whose claim satisfies a completing statement's WHERE clause took the last claim issued on that row, and the row still has the status and signed transaction of that claim |
| Theorems.Fencing | internal/payout/execution.go:113-135 | Every completing, confirming, releasing or terminal statement that changes a row in any run is made by the worker of the row's last claim, whose lease the row still carries |
| Theorems.EpochsIncrease | internal/payout/execution.go:139-176 | Successive claims of one row carry strictly increasing epochs, across signing, broadcast and confirmation |
| Theorems.SignedOnce | internal/payout/signing.go:101-126 | The transaction a row carries at any time is the one it carries, and the signer keeps for its request, at every later time; every node that knows its id knows this content |
| Theorems.BroadcastOnce | internal/payout/execution_worker.go:126-146 | Nodes are ever given at most one transaction per request, whatever was retried, taken over or rebroadcast |
| Theorems.PaidOnceExactly | internal/payout/execution_worker.go:183-194 | On any canonical chain every transfer out of custody was paid by a row for exactly its amount, and two of them for one request are the same transfer |
| Theorems.SigningNeverConflicts | internal/payout/signing.go:119-123 | In every run a transaction the signer returned is on no other row, so the unique-index conflict branch of completion is unreachable |
| Theorems.SucceededExecuted | internal/payout/execution_worker.go:154-161 | A payout or sweep is succeeded only if its transaction executed successfully on the solidified chain |
| Theorems.SignedFromReady | internal/payout/signing.go:101-118 | In every state of every run a payout or sweep row carries its signed transaction exactly in ready_for_broadcast, confirming, succeeded and failed |
| Theorems.AnswersFinal | internal/chain/tron/simulator/simulator.go:167-197 | Along every run, once the chain's answer for a transaction is solidified, every later answer is the same |
| Theorems.FailedNeverPays | internal/payout/execution_worker.go:162-182 | In runs whose expiry decisions are quiet, a failed row's transaction is never executed successfully on any canonical block, then or later, even when stale workers keep rebroadcasting |
| Theorems.ExpiriesRightIffQuiet | internal/payout/execution_worker.go:170-182 | Over a whole run, all declared expiries are right if and only if for each of them the transaction was on no block solidified between the two reads |
| Refunds.PaidIffOverlooked | internal/payout/execution_worker.go:148-182 | In every state of every run a failed row's transaction stands executed successfully on the chain if and only if the step that failed it acted on an expiry whose two reads had that execution solidify between them |
| Refunds.OverlooksExactly | internal/payout/execution_worker.go:148-182 | A declared expiry overlooked a successful execution if and only if the transaction pays, in every later state |
| Spelling.SilentIffLowerCase | internal/payout/review.go:285-307 | In every reachable state a rejection posts its release whatever letter case the operator typed the id in, and the ledger detectors stay silent if and only if it was lower case; otherwise they report exactly this payout's release link |
| Theorems.NoFalseShortfall | internal/reconciliation/detectors.go:93-173 | In every state of every quiet run each saved snapshot satisfies ledger custody <= chain total + payouts in flight, its balances are those of its block, and the wallet rule can only report an excess |
| Theorems.IndexedExactly | internal/chain/tron/indexer/scanner.go:50-110 | Whatever scanners, crashes and takeovers interleave, the stored events are exactly the tracked contract's transfers of blocks start..next-1, previous_hash is the hash of block next-1, and these blocks are linked back to the anchor |
| Theorems.ScannerNeverConflicts | internal/chain/tron/indexer/scanner.go:158-194 | In every run a scanner that still has the cursor's position never meets a stored event row under one of its keys |
| Theorems.IntentsAgree | internal/deposit/posting.go:45-132 | In every state of every run an intent's received amount is the sum of its matched and overpaid events, its status agrees with received versus expected, and it is credited exactly when the matched sum equals the expected amount |
| Theorems.SweepsSafe | internal/sweep/store.go:18-105 | In every state of every run a source has at most one active sweep, and succeeded plus active sweeps never exceed the indexed inbound transfers to it |
| Theorems.SweepsFunded | internal/sweep/store.go:18-105 | In quiet runs an unexecuted active sweep's amount lies in its source wallet, on the solidified chain and on every longer canonical prefix |
| Statements.ClaimStatement | internal/payout/execution.go:62-176 | In every run a claimed row is in the status of the phase, carries no lease that has not run out, and for a confirmation is due; only its lease, epoch, attempts and, for signing, error column change |
| Statements.ClaimContent | internal/payout/execution.go:62-176 | A claim hands out the row's own asset, addresses, amount and signed transaction under the next epoch |
| Leases.LeaseExclusive | internal/payout/execution.go:62-98 | Between two claims of one row in any run, the first one's lease time has passed or its holder gave the row back |
| Statements.SignatureStatement | internal/payout/signing.go:88-129 | In every run a signature is stored exactly while the claim's lease on the approved row is live, and ends the lease; otherwise nothing changes |
| Statements.SigningReleaseStatement | internal/payout/signing.go:131-157 | After a signer error the row is given back exactly while it carries the claim's lease |
| Statements.BeginStatement | internal/payout/execution.go:100-137 | Whatever the node said, confirmation begins at once, exactly while the claim's lease on the ready row is live |
| Statements.SubmitStatement | internal/payout/execution_worker.go:126-146 | A submission records the claim's transaction unless it is malformed, refused or known with other content, and is acknowledged only when delivered |
| Statements.ReadStatement | internal/payout/execution_worker.go:148-172 | Which answer for the transaction leads to success, failure, the head read or a later try |
| Statements.HeadStatement | internal/payout/execution_worker.go:170-194 | A missing transaction is expired from the very timestamp of the solidified head on, before it is sent again |
| Statements.ReleaseStatement | internal/payout/execution.go:179-206 | Without a verdict the row is due again after the delay, exactly while it carries the claim's lease |
| Statements.PayoutVerdict | internal/payout/execution.go:222-356 | A verdict settles a payout exactly while its lease is live and both accounts are open: status, reason, link, journal and event column by column |
| Statements.VerdictMoves | internal/payout/execution.go:298-325 | A settled payout leaves frozen and custody by its amount, a failed one returns from frozen to available, and no other account moves |
| Statements.SweepVerdict | internal/sweep/execution.go:272-309 | A verdict settles a sweep exactly while its lease on the confirming row is live |
| Passes.SucceededIsSettled | internal/payout/execution_worker.go:148-161 | A confirmation that read a solidified success, with a live lease and open accounts at its last statement, makes the payout succeeded and its amount leave custody |
| Passes.FailedIsReleased | internal/payout/execution_worker.go:162-169 | One that read a solidified failure makes it failed with execution_failed and its amount available again |
| Passes.ExpiredIsReleased | internal/payout/execution_worker.go:170-182 | One that found it missing with the head at its expiration makes it failed with expired_not_found and its amount available again |
| Passes.UndecidedWaits | internal/payout/execution_worker.go:148-172 | A pending, unsolidified or missing answer of the node leaves the row confirming and due after the delay |
| Passes.MissingIsResent | internal/payout/execution_worker.go:183-197 | Missing and not expired, the very transaction is submitted again and the row is due after the delay |
| Passes.SweepIsSettled | internal/sweep/execution.go:259-309 | A sweep is settled as its transaction was seen executed |
| Passes.SweepExpires | internal/sweep/execution.go:264-309 | A missing and expired sweep is failed |
| Checkpoints.ColumnsMove | internal/wallet/checkpoint.go:65-153 | In every run the first broadcast claim of a row adds 1 and its amount to its table's in-flight columns, its terminal statement takes exactly that away, and every other step leaves them alone |
| Checkpoints.NothingAtFirst | internal/wallet/checkpoint.go:65-153 | An empty deployment has nothing in flight |
| Creations.DifferentIsConflict | internal/payout/store.go:273-313 | After a call created a payout, a later request of that merchant under its key or reference that differs in asset, reference, destination or amount text is a conflict and changes nothing, in every run |
| Creations.CreateExact | internal/payout/store.go:89-236 | In every reachable state a creation answers and writes exactly what the request's fields, the rows, the accounts and the available balance decide, in the source's order |
| Creations.CreatedMoves | internal/payout/store.go:185-226 | A created payout moves exactly its amount from available to frozen |
| Creations.NormalizedExact | internal/payout/store.go:342-365 | A raw request is taken exactly when its trimmed fields are acceptable and its destination is an address, which is then kept in hexadecimal form |
| Creations.AmountText | internal/payout/store.go:353-365 | An amount text is read exactly as a decimal number with an optional sign within int64 |
| Creations.ReviewExact | internal/payout/review.go:81-207 | In every reachable state a review answers and writes exactly what the row's status, its recorded review, the screening and the accounts decide |
| Creations.RejectedMoves | internal/payout/review.go:249-308 | A rejected payout moves exactly its amount from frozen back to available |
| Defenses.ReviewDefends | internal/payout/review.go:249-308 | On any tables, reachable or not, a rejection with a short frozen balance or an otherwise used key is refused and changes nothing |
| Defenses.FinalizeDefends | internal/payout/execution.go:298-325 | On any tables a settlement or release with a short frozen balance or an otherwise used key is refused and changes nothing |
| Defenses.CreditDefends | internal/deposit/posting.go:75-132 | On any tables an intent with a credit is never credited again, and a credit under an otherwise used key fails and changes nothing |
| DepositStatements.MatchExact | internal/deposit/matcher.go:13-144 | In every reachable state an event is set aside for the first reason that applies in the source's order, and otherwise counted, or credited when it completes the amount, with every column it writes |
| DepositStatements.CountedInWindow | internal/deposit/matcher.go:125-128 | In every run each event that counts towards an intent was on a block between its creation and its expiry |
| DepositStatements.CompletedMoves | internal/deposit/posting.go:75-132 | A completing payment adds exactly the expected amount to custody and to the merchant's available balance |
| DepositStatements.OneIntentPerAddress | internal/deposit/store.go:112-183 | In every run two intents never share a deposit address, and each is of the address's merchant, for a positive amount, with an expiry after its creation |
| DepositStatements.TermsStay | internal/deposit/posting.go:181-214 | Nothing rewrites the merchant, address, expected amount or window of an intent |
| DepositStatements.IntentStatement | internal/deposit/store.go:112-183 | An intent is inserted exactly for an unused id and address of its merchant, a later expiry and active accounts |
| DepositStatements.ExpireStatement | internal/deposit/matcher.go:163-187 | Only an intent past its expiry that still waits is closed, as expired without money and as underpaid with some |
| ScanStatements.CursorClaimStatement | internal/chain/tron/indexer/cursor.go:110-135 | In every run the cursor is given out exactly when no live lease is on it, under the next epoch and at its position |
| ScanStatements.CursorExclusive | internal/chain/tron/indexer/cursor.go:110-135 | Between two granted claims of the cursor the first lease's time has passed or it was given back |
| ScanStatements.BindStatement | internal/chain/tron/indexer/cursor.go:52-78 | Only an unbound cursor at its start takes the contract; a scanner goes on exactly with its own contract |
| ScanStatements.ScanHeadStatement | internal/chain/tron/indexer/scanner.go:70-76 | A scanner goes on exactly when the solidified head has reached its height |
| ScanStatements.ScanBlockStatement | internal/chain/tron/indexer/scanner.go:77-90 | A block is taken exactly when its header continues the cursor, agrees with the head, and its receipts and transfers are well formed |
| ScanStatements.CommitStatement | internal/chain/tron/indexer/scanner.go:91-107 | A block's events and the new position are written together, exactly while the lease is live, the position is the claim's and no stored row differs |
| ScanStatements.ScanReleaseStatement | internal/chain/tron/indexer/cursor.go:172-189 | A pass that stops gives the cursor back exactly while it carries the claim's lease |
| ScanStatements.CaptureBeginStatement | internal/wallet/checkpoint.go:65-153 | A capture begins exactly with the checkpoint that the journals and the rows that may be paid add up to |
| ScanStatements.BalanceStatement | internal/wallet/snapshot.go:77-95 | Each wallet's balance is the one on the solidified chain, it and the running total below 2^256 |
| ScanStatements.HeadsStatement | internal/wallet/snapshot.go:66-111 | The solidified head is read before the first balance and must be the very same after the last one |
| ScanStatements.SnapshotStatement | internal/wallet/checkpoint.go:46-62 | A capture ends with a snapshot exactly when the checkpoint reads as before |
| ScanStatements.SaveStatement | internal/wallet/store.go:81-156 | It is saved exactly when the checkpoint reads so once more |
| SignerStatements.SignExact | internal/signer/service.go:112-141 | What a request is answered, in the source's order: invalid, denied for a foreign contract or an amount above the limit, repeated, conflicting, failed, or stored and answered |
| SignerStatements.SignStatement | internal/signer/service.go:112-141 | A signer call moves only the records and the caller; above the limit or for a foreign contract it changes no record and the caller gets an error |
| SignerStatements.SignedWithinLimit | internal/signer/service.go:131-133 | In every run every stored transaction is for an asset of the deployment and at most the limit |
| SignerStatements.CustodyWithinLimit | internal/signer/service.go:131-133 | In every run no transfer out of custody on any branch of the chain exceeds the limit |
| SignerStatements.SentWithinLimit | internal/signer/service.go:131-133 | In every run a payout or sweep carries a transaction only within the limit |
| SweepStatements.PlanStatement | internal/sweep/store.go:18-105 | In every run a plan is written exactly when the source's whole snapshot balance lies within the policy, is indexed, matched, not yet swept, and no earlier sweep of the source is open or used the run |
| SweepStatements.PlannedWithinPolicy | internal/sweep/store.go:18-105 | Every new sweep of any run was planned so: its amount within the policy's bounds, its source a deposit wallet, its destination the hot wallet |
| Findings.WalletRuleExact | internal/reconciliation/detectors.go:93-173 | An asset whose newest run has the ledger between the wallets and the wallets plus payouts in flight has no finding; any other has exactly one, critical above, a warning below |
| Findings.NewestExists | internal/reconciliation/detectors.go:70-92 | Each asset with a run has exactly one newest run, by height and then by order; one without has no finding |
| Findings.SemanticExact | internal/reconciliation/detectors.go:275-355 | The five aggregates of the semantic rules accept exactly the two lines of the expected move |
| Findings.UnbalancedExact | internal/reconciliation/detectors.go:175-220 | On any ledger a journal is reported for an asset exactly when it has one line of it, or its debits and credits of it differ, or it has no line at all |
| Findings.IntentFindingsExact | internal/reconciliation/detectors.go:222-355 | On any database an intent is reported exactly when its credit journal is not about it or is not the credit of its amount |
| Findings.PayoutFindingsExact | internal/reconciliation/detectors.go:357-426 | On any database a payout's links are reported exactly when the journal is not about it |
| Findings.PayoutMovesExact | internal/reconciliation/detectors.go:428-544 | On any database a payout's links are reported exactly when the journal is not that move of its amount |
| Invariants.InvStep | internal/payout/execution_worker.go:96-197 | Every step of every actor (store transaction, chain, worker call, scanner call, capture call, crash) keeps the global invariant and progresses |
| Invariants.InvRun | internal/payout/execution_worker.go:96-197 | Every state of every run satisfies the global invariant |
| Invariants.StepRows | internal/payout/execution.go:62-356 | Every step changes at most one leased row, in one of the listed ways, and moves a leased row only by a worker whose position justifies it |
| RowSteps.WorkRows | internal/payout/execution.go:100-356 | A worker's step changes a row only as its position in the protocol justifies, and only while the row's current lease is that worker's |
| LedgerTransactions.CreateKeeps | internal/payout/store.go:89-235 | Create keeps the ledger invariant; it either changes nothing or inserts the payout with its freshly posted freeze, and it never fails on a posting conflict or a negative balance |
| LedgerTransactions.ReviewKeeps | internal/payout/review.go:81-207 | Review keeps the ledger invariant; it changes nothing, or approves a pending payout with a valid screening, or rejects it with a fresh release and event; its defensive branches are unreachable |
| LedgerTransactions.FinalizeKeeps | internal/payout/execution.go:222-356 | The terminal transaction keeps the ledger invariant; it changes nothing, or it settles or releases under a live lease with a freshly posted journal; its defensive branches are unreachable |
| OutboxProofs.OneEvent | internal/payout/execution.go:358-382 | The event of a settled payout stands at one position of the outbox only |
| Payouts.FindExistingExact | internal/payout/store.go:273-313 | The lookup finds nothing exactly when no row of the merchant has the key or the reference, finds a payout exactly when it is the only such row and its asset, reference, destination and amount text are the request's, and is a conflict otherwise |
| Idempotency.CreateOnce | internal/payout/store.go:89-235 | Once a call has created a payout, the same call at any later state of any run, any number of times, returns that payout and leaves the database as it is |
| Idempotency.RepeatChangesNothing | internal/payout/store.go:117-129 | A request that a payout already answers is answered by it without any change, even for an inactive merchant or asset |
| Idempotency.DifferingChangesNothing | internal/payout/store.go:299-301 | A request that shares a key or reference with a payout of its merchant but differs in asset, reference, destination or amount text is a conflict and changes nothing |
| Idempotency.AnswerIsOnly | internal/payout/store.go:281-287 | A payout that answers a request is the only row that shares its key or reference |
| Idempotency.IdentityKept | internal/payout/store.go:209-218 | Merchant, asset, key, reference, destination, amount and freeze journal of a payout never change along a run |
| PayoutStore.Store.Lookup | internal/payout/store.go:273-313 | The row loop computes the lookup |
| PayoutStore.Store.Submit | internal/payout/store.go:89-103 | A request as it arrives is trimmed, checked and given its hexadecimal destination; an invalid one changes nothing, any other one makes exactly the specified transition |
| PayoutStore.DestinationKept | internal/payout/store.go:95-101 | The stored hexadecimal destination is an address whose Base58Check form is the text that was sent |
| PayoutStore.Store.Create | internal/payout/store.go:104-235 | The transaction of Create on the mutable tables, with rollback, makes exactly the specified transition with the specified outcome |
| PayoutStore.Store.Insert | internal/payout/store.go:193-224 | Posting the freeze and inserting the row: both or neither |
| PayoutStore.Store.Review | internal/payout/review.go:81-207 | Review on the mutable tables makes exactly the specified transition with the specified outcome |
| PayoutStore.Store.Reject | internal/payout/review.go:249-308 | The rejection of a pending payout: release, row and event together, or nothing |
| PayoutStore.Store.FinalizeConfirmation | internal/payout/execution.go:222-356 | The terminal transaction on the mutable tables makes exactly the specified transition with the specified outcome |
| Storage.Database.AccountBalance | internal/payout/store.go:315-340 | The sum over all posted entries of an account is its balance |
| Storage.Database.FindByKey | internal/ledger/repository.go:152-163 | Finds a journal of this requester and key if and only if there is one |
| Storage.Database.FindByReference | internal/ledger/repository.go:165-182 | Finds a journal of this requester and reference if and only if there is one |
| Storage.KeyDecides | internal/ledger/repository.go:138-150 | With unique keys the journal holding the key decides between a repeat and a conflict, whatever row the lookup returns |
| Storage.InsertedExactly | internal/ledger/repository.go:68-135 | A journal is inserted exactly when its id, its key and its reference are unused by its requester |
| Storage.ReferenceDecides | internal/ledger/repository.go:138-150 | When no journal holds the key, the one holding the reference decides |
| Storage.Database.ExistingPost | internal/ledger/repository.go:138-150 | The fallback after a blocked insert computes the specified result |
| Storage.Database.PostInTransaction | internal/ledger/repository.go:68-136 | Draft, entry loop and flip post the journal once, or leave the journals as they are and report the repeat or conflict |
| Ledger.BalanceAfterPost | internal/ledger/repository.go:107-130 | A posting moves the balance of every account by exactly its own entries |
| Ledger.SameCountSameBalance | internal/wallet/checkpoint.go:54-60 | Two checkpoints of an append-only ledger with equal entry counts of an account have equal balances of it |
| Storage.Database.ClaimNext | internal/payout/execution.go:62-97 | An unlocked row of the phase's status, without a live lease and due, is leased under the next epoch and nothing else changes; or every unlocked row of that status has a live lease or is not due, and nothing changes |
| Storage.Database.CompleteSigning | internal/payout/signing.go:88-128 | Stores the transaction if and only if the claim's lease is live and the transaction is on no other row; otherwise changes nothing |
| Storage.Database.ReleaseSigning | internal/payout/signing.go:131-157 | Gives the row back if and only if the lease is still this claim's, and says whether it did |
| Storage.Database.BeginConfirmation | internal/payout/execution.go:100-136 | Starts confirmation if and only if the claim's lease is live; otherwise changes nothing |
| Storage.Database.ReleaseConfirmation | internal/payout/execution.go:179-206 | Schedules the next confirmation if and only if the lease is still this claim's, live or expired, and says whether it did |
| Storage.Database.FinalizeSweep | internal/sweep/execution.go:272-309 | Settles a sweep execution if and only if the claim's lease is live; otherwise changes nothing |
| Workers.ExecutionWorker.RunOnce | internal/payout/execution_worker.go:96-124 | Between its calls the whole system runs; a pass either makes the calls of exactly one job and remembers its kind, or found no broadcast and then no confirmation to do; all of it extends a run of the gateway |
| Workers.ExecutionWorker.TryConfirm | internal/payout/execution_worker.go:98-106 | Claims and finishes one confirmation, or no unlocked row was open to it |
| Workers.ExecutionWorker.TryBroadcast | internal/payout/execution_worker.go:108-115 | Claims and finishes one broadcast, or no unlocked row was open to it |
| Workers.ExecutionWorker.Broadcast | internal/payout/execution_worker.go:126-146 | One submission of the stored transaction, then one statement that begins confirmation |
| Workers.ExecutionWorker.Confirm | internal/payout/execution_worker.go:148-197 | Transaction read, maybe head read, maybe rebroadcast, then exactly one statement, which does to the row and its money what the node's answer calls for |
| Workers.ExecutionWorker.ConfirmMissing | internal/payout/execution_worker.go:170-194 | The head is read after the transaction; from the expiration on the row is failed and its amount released, before it the same transaction is sent again and the row is due again |
| Workers.ExecutionWorker.Rebroadcast | internal/sweep/execution_worker.go:190-201 | A rebroadcast and the release of the row |
| Workers.ExecutionWorker.Settle | internal/payout/execution_worker.go:154-169 | One terminal statement, which settles the row and its amount by the verdict when the lease is live and the accounts open |
| Workers.SigningWorker.RunOnce | internal/payout/signing_worker.go:87-116 | Claim, one signer call, then completion or release; or no unlocked row was open to signing |
| Workers.SigningWorker.Sign | internal/payout/signing_worker.go:95-105 | One signer call, whose answer may be lost after it was stored |
| Finality.ExpiryExact | internal/payout/execution_worker.go:170-182 | In every reachable state the expiry a worker declares is right if and only if the transaction was on no block solidified between its two reads |
| Finality.StableIsQuiet | internal/payout/execution_worker.go:149-171 | A solidified head that did not move between the two reads is enough |
| Finality.MissingAboveHead | internal/payout/execution_worker.go:175-177 | A transaction missing from a solidified prefix whose head has reached its expiration is missing from the whole chain |
| Finality.ExpiredStays | internal/payout/execution_worker.go:175-182 | A transaction that is missing and expired stays so under every step |
| Finality.FinalStep | internal/payout/execution_worker.go:162-182 | Every step whose expiry decision is quiet keeps failed rows unpaid for good |
| Finality.FinalRun | internal/payout/execution_worker.go:162-182 | Failed rows are unpaid for good in every state of every quiet run |
| Counterexample.UnquietExpiryPaysTwice | internal/payout/execution_worker.go:148-182 | From every reachable state in which a paid payout is declared expired after its block solidified between the reads, the next two steps fail it and release its amount while the payment stands |
| PaidTwice.PaidAndRefunded | internal/payout/execution_worker.go:148-182 | A complete run from an empty deployment that ends with a payout failed, its amount available again, and its payment executed |
| CustodyFlow.WalletsTotal | internal/wallet/snapshot.go:77-95 | The balances of distinct wallets add up to what came in to any of them minus what left any of them |
| CustodyFlow.CustodyPayer | internal/payout/execution_worker.go:126-146 | Every transfer out of custody was paid by a row whose transaction was sent, for exactly its amount |
| CustodyFlow.PaidOnce | internal/payout/signing.go:101-126 | Two custody transfers for one request are the same transfer |
| CustodyFlow.PayerCommitted | internal/wallet/checkpoint.go:75-83 | The row that paid counts as in flight or has succeeded; it never failed |
| Reconciliation.PaidOutBounded | internal/wallet/checkpoint.go:75-83 | What left the hot wallet on any canonical prefix is covered by payouts in flight or succeeded |
| Reconciliation.CreditedDeposited | internal/deposit/posting.go:75-132 | Merchants were credited no more than deposit addresses received on the solidified chain |
| Reconciliation.CustodyHolds | internal/wallet/snapshot.go:77-95 | On any canonical prefix the wallets hold at least deposits received minus what payouts took |
| Reconciliation.IntervalBound | internal/reconciliation/detectors.go:113-130 | Ledger custody <= wallets on the solidified chain + payouts in flight, for the ledger of this very state |
| Captures.AcceptedSound | internal/wallet/checkpoint.go:46-62 | Equal checkpoints around the balance reads give the interval bound, even when payouts failed and others of equal amount started in between |
| Captures.CapturesRun | internal/wallet/checkpoint.go:40-63 | Every capture position and every saved snapshot of every quiet run is sound |
| Snapshots.Capturer.Capture | internal/wallet/checkpoint.go:40-63 | A saved snapshot took the whole call sequence checkpoint, head, every wallet, head, checkpoint, save; a failed capture stopped at the call that failed; all of it extends a run |
| Snapshots.Capturer.Collect | internal/wallet/snapshot.go:56-111 | Every wallet is read once between two head reads, or the collection stopped early |
| Snapshots.Capturer.Save | internal/wallet/store.go:81-156 | The run is appended if and only if the checkpoint still holds |
| Snapshots.LedgerCheckpoint | internal/wallet/checkpoint.go:65-153 | The row-by-row aggregates count custody entries, confirming rows and rows claimed for broadcast, and nothing else; there is no checkpoint without an open custody account or readable numbers |
| Snapshots.ValidateWalletSet | internal/wallet/snapshot.go:113-130 | Accepts exactly the sets of distinct UUIDs and distinct non-blank addresses of one asset |
| Snapshots.ValidateBalances | internal/wallet/store.go:206-227 | Accepts exactly distinct wallets with amount texts whose unbounded sum is below 2^256 and is what the total text says |
| Snapshots.ValidateLedger | internal/wallet/store.go:187-205 | Accepts exactly non-negative counts and amount texts that are zero together |
| Snapshots.ValidateSnapshot | internal/wallet/store.go:183-229 | Accepts exactly the valid snapshots |
| Snapshots.EqualStrings | internal/wallet/store.go:231-241 | True exactly for equal lists |
| Amounts.ParseAmount | internal/wallet/snapshot.go:139-150 | Accepts exactly the canonical decimal texts of values below 2^256, and returns the value |
| Amounts.CanonicalUnique | internal/wallet/store.go:225-227 | Canonical texts are equal exactly when their values are |
| Amounts.SmallIsShort | internal/wallet/snapshot.go:140-142 | The 78-character limit rejects no value below 2^256 |
| Amounts.Decimal | internal/wallet/store.go:225-227 | The decimal text of a number is canonical and reads back as that number |
| Detectors.LedgerSilent | internal/reconciliation/detectors.go:175-544 | When every link's journal is posted and is the posting its row calls for, none of the five aggregates selects a row |
| Detectors.WalletsOnlyExceed | internal/reconciliation/detectors.go:105-138 | Without a shortfall in any run, the wallet rule reports exactly an excess warning for each asset whose latest run shows less on the ledger than in the wallets |
| Detectors.Report | internal/reconciliation/detectors.go:143-168 | One finding per selected row, in order |
| Signer.SignedAgain | internal/signer/service.go:112-141 | After one success every later signing of the request returns that transaction and changes no record, however the node answers then |
| SignerStores.PostgresStore.Resolve | internal/signer/postgres.go:28-67 | Load, create and insert under the lock make exactly the specified transition; a result is always the stored record |
| SignerStores.PostgresStore.Load | internal/signer/postgres.go:69-95 | Nothing, the stored transaction, or a conflict with another fingerprint |
| SignerStores.ValidRequestHash | internal/signer/postgres.go:97-109 | Accepts exactly 64 lower-case hexadecimal characters |
| SignerStores.FileStore.Resolve | internal/signer/store.go:54-124 | With other instances linking between load and link, the result is the record on disk, no record is replaced, and no temporary file stays |
| SignerStores.FileStore.Load | internal/signer/store.go:137-166 | Nothing, the stored transaction, or a conflict with another fingerprint |
| SignerStores.Service.SignTransfer | internal/signer/service.go:112-141 | Policy checks and the store give the specified result |
| SignerStores.Service.SignSweep | internal/signer/service.go:144-154 | A sweep whose source is not the key's address is refused without any change; otherwise it is signed as a transfer |
| DepositProofs.MatchRoutes | internal/deposit/matcher.go:13-144 | Every event is left alone, set aside for the first reason whose condition holds, or applied to the intent it pays when none does and it lies in the intent's time |
| DepositProofs.MatchKeeps | internal/deposit/matcher.go:13-144 | Matching keeps the ledger and deposit invariants, posts a journal and an event exactly when it credits, and never fails half-way |
| DepositProofs.ApplyKeeps | internal/deposit/posting.go:45-132 | A payment keeps both invariants; an intent is credited only when it was not before |
| DepositProofs.ExpireKeeps | internal/deposit/matcher.go:163-187 | Expiring an intent keeps both invariants |
| DepositProofs.CreateIntentKeeps | internal/deposit/store.go:112-183 | A new intent keeps both invariants |
| DepositStore.Store.MatchNext | internal/deposit/matcher.go:13-144 | Matching on the mutable tables makes exactly the specified transition, and sets an event aside or applies it as its screening, statuses and time call for |
| DepositStore.Store.ApplyMatchedPayment | internal/deposit/posting.go:45-73 | Accumulation on the mutable tables makes exactly the specified transition |
| DepositStore.Store.CreditExactPayment | internal/deposit/posting.go:75-132 | Posting, marking and announcing the credit: all or nothing |
| DepositStore.Store.SelectDue | internal/deposit/matcher.go:163-187 | Due unlocked rows up to the limit; fewer than the limit only if no other is due |
| DepositStore.Store.ExpireDue | internal/deposit/matcher.go:163-187 | Exactly the selected rows become expired or underpaid |
| DepositStore.ExpiredOneByOne | internal/deposit/matcher.go:163-187 | Closing rows in one statement is closing them one by one |
| IndexProofs.EventsOfExact | internal/chain/tron/indexer/scanner.go:96-100 | The rows built for a block are those of the contract's transfers, no fewer and no more |
| IndexProofs.ExactExtends | internal/chain/tron/indexer/scanner.go:91-107 | Committing the next block extends the exactly indexed range by that block |
| IndexProofs.NeverConflicts | internal/chain/tron/indexer/scanner.go:158-194 | On a valid chain the next block's keys are not stored yet |
| Scanners.ValidTransfers | internal/chain/tron/indexer/scanner.go:112-143 | The contract's transfers in order, if and only if receipts and transfers are well-formed and unambiguous |
| Scanners.InsertEvents | internal/chain/tron/indexer/scanner.go:96-100 | All rows are added, if and only if none clashes with a stored row of other content |
| Scanners.CommitBlock | internal/chain/tron/indexer/scanner.go:91-107 | Inserting and advancing in one transaction: the specified transition or nothing |
| Scanners.TargetsSameEvents | internal/chain/tron/indexer/scanner.go:112-143 | Filtering first does not change the rows a block contributes |
| Scanners.Scanner.Step | internal/chain/tron/indexer/scanner.go:50-110 | A pass makes the calls bind, claim, head, block, commit in order; it reports a processed block only after the cursor moved up by one, and every other pass that had a lease ends by releasing it |
| Scanners.Scanner.ScanNextBlock | internal/chain/tron/indexer/scanner.go:59-107 | The part of a pass under its lease |
| Scanners.Scanner.Bind | internal/chain/tron/indexer/cursor.go:52-77 | Binds an untouched cursor to the contract, or finds it bound to this one or another |
| Scanners.Scanner.Release | internal/chain/tron/indexer/cursor.go:172-189 | Afterwards the cursor is not leased under this claim |
| SweepProofs.PlanKeeps | internal/sweep/store.go:151-320 | Planning keeps one active sweep per source and committed amounts within the inbound |
| SweepProofs.PlanExclusive | internal/sweep/store.go:18-105 | A candidate has no other active sweep |
| SweepFunds.SourceCovered | internal/sweep/store.go:18-105 | From planning until execution the amount lies in the source wallet |
| SweepFunds.HonestObservationPasses | internal/sweep/signing.go:186-193 | The balance check before signing never stops a sweep whose source is observed honestly |
| SweepStore.Planner.IsCandidate | internal/sweep/store.go:18-105 | The candidate query for one source and run, aggregate by aggregate |
| SweepStore.Planner.PlanOnce | internal/sweep/store.go:151-320 | One attempt makes exactly the specified transition |
| SweepStore.Planner.PlanNext | internal/sweep/store.go:122-149 | Serialization conflicts are retried; the first attempt without one decides; when all conflict nothing changes |
| Simulator.ValidateBlock | internal/chain/tron/simulator/simulator.go:234-285 | Accepts exactly the blocks that continue the chain with unique hashes, transactions and events |
| Simulator.Extend | internal/chain/tron/simulator/simulator.go:85-94 | A replacement is accepted exactly when every block of it continues the one before |
| Simulator.Search | internal/chain/tron/simulator/simulator.go:178-190 | The receipt found scanning down is the only one of its transaction |
| Simulator.Simulator.AppendBlock | internal/chain/tron/simulator/simulator.go:66-74 | Appends a fitting block and nothing else; the chain stays valid and its solidified prefix the same |
| Simulator.Simulator.ReplaceUnfinalized | internal/chain/tron/simulator/simulator.go:77-96 | Replaces the whole suffix or nothing, never at or below the solidified height |
| Simulator.Simulator.Solidify | internal/chain/tron/simulator/simulator.go:99-107 | The solidified height moves up within the chain or not at all |
| Simulator.Simulator.FailNext | internal/chain/tron/simulator/simulator.go:110-118 | Failures queue up per point |
| Simulator.Simulator.ReadError | internal/chain/tron/simulator/simulator.go:222-232 | The oldest failure of the point is consumed |
| Simulator.Simulator.SolidifiedHead | internal/chain/tron/simulator/simulator.go:131-138 | The solidified header or the queued failure |
| Simulator.Simulator.SolidifiedBlockByHeight | internal/chain/tron/simulator/simulator.go:154-164 | A block at or below the solidified height, and no other |
| Simulator.Simulator.Transaction | internal/chain/tron/simulator/simulator.go:167-197 | The answer is the one located on the chain, and is one an honest node may give |
| Simulator.Simulator.Broadcast | internal/chain/tron/simulator/simulator.go:200-220 | Records a transaction once, refuses other content under its id, and may record it without telling the caller |
| Simulator.AnswerExact | internal/chain/tron/simulator/simulator.go:167-197 | On a valid chain a transaction with a receipt is answered by that receipt and block, as solidified exactly when the block is |
| Simulator.AnswerAbsent | internal/chain/tron/simulator/simulator.go:167-197 | A transaction without a receipt is pending once a node accepted it and missing before |
| Simulator.AnswersHonestly | internal/chain/tron/simulator/simulator.go:167-197 | Every answer is one the protocol proofs allow |
| Simulator.SolidifiedAnswerIsFinal | internal/chain/tron/simulator/simulator.go:167-197 | Once an answer is solidified, every later answer is the same, whatever happens to the chain |
| Simulator.LocatedUnique | internal/chain/tron/simulator/simulator.go:178-190 | On a valid chain a transaction has one receipt, and it is the one located |
| Chain.HashesUnique | internal/chain/tron/simulator/simulator.go:234-255 | Hashes of a valid chain are unique |
| Chain.LinkedToParent | internal/chain/tron/simulator/simulator.go:234-255 | Every block of a valid chain names the hash of the one before |
| Chain.ReceiptUnique | internal/chain/tron/simulator/simulator.go:256-268 | A transaction id has at most one receipt on a valid chain |
| Chain.ContentSound | internal/chain/tron/simulator/simulator.go:249-284 | On a valid chain every receipt names a result, and every transfer is complete, positive and of a transaction that succeeded in its block |
| Chain.EventIdsUnique | internal/chain/tron/simulator/simulator.go:269-284 | Two transfers of a valid chain never share a transaction and log index, whatever their contracts |
| Validation.ValidateTransaction | internal/ledger/transaction.go:57-112 | Accepts if and only if there are at least two well-formed positive entries whose unbounded debit and credit sums agree per trimmed asset and fit in int64; the running int64 totals never overflow |
| Validation.AddEntries | internal/ledger/transaction.go:68-102 | The entry loop's totals are the unbounded sums, or the transaction is not postable |
| Validation.CompareTotals | internal/ledger/transaction.go:103-111 | The final comparison decides postability |
| Rendering.ClashFaithful | internal/ledger/repository.go:75-90 | Two journals clash on the texts of their unique keys exactly when they clash on the modelled keys |
| Rendering.GatewayPostingsValid | internal/ledger/transaction.go:57-112 | Every posting the gateway makes passes validation |
| Address.AlphabetExact | internal/chain/tron/address.go:15 | The alphabet is the digits and letters in code order without 0, I, O and l |
| Address.DecodeEncode | internal/chain/tron/address.go:92-138 | Every byte string survives encoding and decoding, leading zeros included |
| Address.EncodeDecode | internal/chain/tron/address.go:92-138 | Every text over the alphabet survives decoding and encoding, leading ones included |
| Address.EncodedLength | internal/chain/tron/address.go:113-138 | Every address encodes to exactly 34 characters |
| Address.HexToBase58 | internal/chain/tron/address.go:52-90 | A hexadecimal address has a 34-character accepted Base58Check form, which normalizes back to it |
| Address.Base58ToHex | internal/chain/tron/address.go:52-90 | An accepted Base58Check address is 34 characters long and has a hexadecimal form, which normalizes back to it |
| Address.FormsCorrespond | internal/chain/tron/address.go:52-90 | The two normalizations are inverse to each other between the two forms |
| AddressCodec.DecodeBase58 | internal/chain/tron/address.go:92-111 | The decoding loop computes the specified bytes, or nothing for a foreign character |
| AddressCodec.EncodeBase58Check | internal/chain/tron/address.go:113-138 | The encoding loops compute the specified text |
| AddressCodec.ReverseInPlace | internal/chain/tron/address.go:134-136 | The swap loop reverses the buffer |
| Base58.ConvertBack | internal/chain/tron/address.go:92-138 | Converting a digit sequence to another base and back restores it |
| Base58.DigitCount | internal/chain/tron/address.go:113-138 | The powers around a number fix its digit count |
| Calldata.DataExact | internal/chain/tron/transfer_transaction.go:112-117 | Call data decodes to its destination and amount, and no other bytes do |
| Calldata.AcceptedExactly | internal/chain/tron/transfer_transaction.go:118-120 | A data field is accepted exactly when it is hexadecimal text of the call with this destination and amount |
| Calldata.BuilderAgrees | internal/chain/tron/nodehttp/builder.go:88-91 | The builder's 64-byte parameter is the validator's data without its selector |
| Calldata.ExpectedData | internal/chain/tron/transfer_transaction.go:112-117 | The buffer filled in place is the specified data |
| Calldata.BuildParameter | internal/chain/tron/nodehttp/builder.go:88-91 | The buffer filled in place is the specified parameter |
| Calldata.FillBytes | internal/chain/tron/transfer_transaction.go:117 | The amount is written big-endian into the last 32 bytes and nothing else changes |
| Calldata.OnlyFields | internal/chain/tron/transfer_transaction.go:137-148 | True exactly when every field is allowed |
| Text.TrimExact | internal/ledger/transaction.go:57-67 | Trimming drops the spaces at both ends and nothing else |
| Text.UUIDExact | internal/identity/uuid.go:39-46 | An id is accepted exactly with four hyphens in their places and 32 hexadecimal digits of either case around them |
| Text.TrimEmptyIffBlank | internal/ledger/transaction.go:57-67 | Trimming leaves nothing exactly when the text is blank |

## Left out

- HTTP, TLS, configuration, command lines, JSON, logging, metrics, the release tool: no property of the money path.
- SHA-256, Keccak, ECDSA, KMS, AES-GCM: the Base58Check checksum is any function to four bytes; signing yields a payload or nothing.
- The protobuf in `raw_data_hex` and the bytes of a signed transaction: opaque; the validator's other field checks are not modelled, only the JSON field names and the call data.
- PostgreSQL: isolation, deadlocks and ambiguous commits; every transaction is one atomic step.
- Liveness: nothing says that a payout ever ends.
- The idempotency keys of deposit intents, the pool that assigns their addresses, and address registration: creation is what its insert checks and writes; whether merchant, asset and address are active then is not asked, which allows more intents than the source does.
- Screening workers, webhooks, merchant authentication, backoff, audit rows, timestamps: the decision and event they produce are inputs and appended rows.
- UUID format of payout, plan and merchant ids: any non-empty text; wallet, snapshot and account ids are checked as UUIDs.
- Network and asset conditions of the sweep claims, and the observation columns of a sweep: a sweep may be signed whenever its lease allows; the observation check is stated by `SweepFunds.HonestObservationPasses`.
- `AddressFromPublicKey`, `Ensure` of the cursor, `Head` and `BlockByHeight` of the simulator, worker constructors' argument checks.
- int64 limits of heights, epochs and counters: unbounded here; int64 is modelled for ledger amounts and totals and for payout amounts.
- Workers.ExecutionWorker.Broadcast: the early stop on a locally invalid signed transaction is a crash at that point in the state machine, not a branch of the method; a stored transaction has passed the same parse when its signing completed.
- Workers.ExecutionWorker.Release: an answer of zero affected rows is not passed on as an error; the row is unchanged then.
- Snapshots.Capturer.Capture: errors of the balance and head reads abandon the capture as by a crash, and the wallet set is fixed, so its validation is the separate `ValidateWalletSet`.
- Snapshots.Capturer.Collect: errors of the balance and head reads abandon the capture as by a crash.
- Snapshots.Capturer.Save: the asset's row and the wallet set are not read again, both being fixed; `EqualStrings` is the comparison of the wallet ids.
- Detectors.Report: the evidence texts of findings, and errors while rows are read.
- SignerStores.PostgresStore.Resolve: the refusal of malformed request ids and digests (`ValidRequestHash` is the digest check) and of oversized transactions.
- SignerStores.PostgresStore.Load: the format checks of the stored id and payload; only checked transactions are stored.
- SignerStores.FileStore.Resolve: file modes, size limits and failures of the file system.
- SignerStores.FileStore.Load: file modes, size limits and the format checks of the stored record.
- SignerStores.Service.SignTransfer: requests arrive trimmed, with normalized addresses, on the service's network; the node's transaction enters as an input.
- DepositStore.Store.MatchNext: the event is an input instead of the first row of an ordered query, and every indexed event has its block's time, so `missing_block_time` does not occur.
- SweepStore.Planner.IsCandidate: asset status and screening evidence enter as one input.
- SweepStore.Planner.PlanNext: the source and run are an input instead of the first row of an ordered query, and any saved run may be used, which allows more plans than the source does.
- Simulator.Simulator.ReadError: a cancelled context answers like a queued failure that stays queued; it is not modelled.
- Workers.World: the bodies of `Build` and `Others` are one allowed behaviour each; callers rely on their contracts only, which allow any.
- Text: lengths count characters, not UTF-8 bytes, and lower-casing is that of ASCII letters.
