# Payment rail: a verified model

A model of the payment rail's money path and of the protocols around it, with proofs over every run and every
interleaving. It is written in Dafny 4.11; `dafny verify dfyconfig.toml` checks the whole project.

The rail moves money in a double-entry ledger, submits token transfers to a chain, watches their confirmations and
settles them. A poll-based watcher feeds a transactional sink. The chain can reorganise, every reply of the node can
fail or lag, every delivery can fail, and the process can stop at any point. Around this core stand a hash-chained
audit log, a reconciliation report, velocity limits, a four-eyes approval queue, idempotent create, a transactional
outbox with webhook fan-out, a nonce allocator and an isolated signer.

## How the model is built

| file | what it models |
|---|---|
| `Base.dfy`, `Bytes.dfy` | optional values, int64 and uint64 with their wrap-around, big-endian numbers |
| `Ledger.dfy`, `Concurrency.dfy` | the checks and effect of one posting; transactions under row locks, statement by statement |
| `Watcher.dfy`, `Language.dfy` | the polling state machine as a class; the language of the statuses it emits |
| `Store.dfy`, `Settlement.dfy` | the shared tables and the sink, as classes proved against functions on values |
| `Effects.dfy` | what each operation on the database does, in terms of accounts, entries and rows alone |
| `Money.dfy`, `Clearing.dfy` | what every run keeps true of the money, the clearing account and the published events |
| `Sinks.dfy` | several sinks on one settlement row, statement by statement |
| `Pipeline.dfy`, `Race.dfy` | watcher, sink, rescan, failed deliveries and crashes together; the runs that show what each hypothesis is for |
| `Recovery.dfy` | what one rescan brings back after a crash or at any other moment |
| `Audit.dfy`, `Appends.dfy` | the canonical encoding, the verifier's walk, what a head hash pins; interleaved appends |
| `Reconcile.dfy`, `Report.dfy`, `Reserves.dfy` | keyset paging, the report, and both read against the ledger |
| `Velocity.dfy`, `Approval.dfy`, `Idempotency.dfy`, `Outbox.dfy` | the limit and exactly-once protocols, as methods and as step systems |
| `Signer.dfy`, `Nonce.dfy` | calldata packing, the signer's policy and spend limit, nonce allocation |

Code that changes things step by step is a method, usually of a class, proved against a function of the old state.
Protocols are step systems: a step is one statement of the source or one event of the environment, a run is a sequence
of states, and the theorems speak of every state of every run.

Replies of the node, failures of the database and of the broker, clocks and crashes are inputs chosen by an adversary.
SHA-256, the lock hash, the message parser and the partitioner are arbitrary functions. Instants are integers:
nanoseconds in the audit log, microseconds in the velocity window, and plain positions elsewhere.

The external references the source renders as text (`settle:<payment>:<block>` and the like) are structured values. The
rendering is injective, because a UUID has a fixed length and a block hash follows it.

## Hypotheses the theorems carry

- The sum of one side of a posting stays below 2^63. `Balanced` adds without an overflow check, so beyond that it can
  accept a lopsided posting (`Ledger.BalancedOverflow`). Settlement and payment entries have one line a side, so they
  meet the hypothesis by themselves.
- Rescan resurrects no transaction. It reads a list of rows and seeds from it afterwards, beside the polling loop, so a
  finalization can overtake the list. A seed breaks the agreement of entries and rows exactly when its key is not
  tracked and its row is finalized by then, or its Finalized is still undelivered (`Pipeline.SeedKeepsIff`). It is
  enough that no key is seeded that was evicted since the list was read, or whose Finalized was undelivered when it was
  read (`Pipeline.TimelyRunsResurrectNothing`). Without the hypothesis the sink can post a second settle over a
  finalized row, whether the seed comes before the delivery of the Finalized (`Race.RescanRaceDoubleSettles`) or after
  it, from the older list (`Race.StaleListDoubleSettles`). The reason is that `settle` guards on the status `settled`
  only, and an update that matches no row still commits the posting. Which delivery does it is exact:
  `Money.HandleKeepsIff`.
- There is one watcher process with one sink, which applies one status at a time. With several, two can read a row
  before either commits and both post a settle, at different blocks (`Sinks.TwoSinksSettleTwice`). The exact condition
  for any number of sinks is that every posting that commits has updated its row (`Sinks.MatchedThroughoutIff`), and with
  one sink that fails exactly for a settle over a finalized row (`Sinks.OneSinkMissesIff`).
- Phase and row correspond exactly from a restart on if and only if no step parts them
  (`Pipeline.ExactSinceRestartIff`). Two deliveries do: a Reorged left unapplied while its row is settled
  (`Race.FailedReorgParts`) and a Confirmed applied without acknowledgement. One kind of seed does: it registers a key
  anew from a listed row that differs from the row of that moment on being settled, or on the block it is settled at
  (`Race.OldListMisleads`). A timely seed never does (`Pipeline.TimelySeedDoesNotMislead`).
- A payment names no clearing account as source or destination, where the clearing balance is tied to the rows.
- No pending entry is found in block number zero, where anchors are compared; that is exact
  (`Pipeline.AnchorsThroughoutIff`). `emit` shows no block hash for number zero, and `Resume` refuses an empty one, so
  such a row settles and can never be resumed (`Race.BlockZeroLosesTheAnchor`).
- An empty hash from the broadcast means that nothing was sent. The bound without it, and a run that meets the bound,
  are `Approval.AtMostOneBroadcast` and `Approval.LostReplySendsTwice`.
- No TTL sweep of idempotency keys, and a handler that commits a payment exactly when it answers with a 2xx.

## Where the code and its documentation differ

The model follows the code.

- ADR-0022 expects the balances outside the clearing accounts to sum to at most zero. The ledger keeps every balance at
  or above zero, so the reported liabilities are never positive and the verdict UNDERCOLLATERALIZED cannot occur
  (`Reserves.ReconcileReport`).
- ADR-0022 says that a reorg walks a finalized row back out. `reverse` does nothing unless the row is settled.
- ADR-0005 answers 422 to a different request under a key that is in flight. The code tests the in-flight state first
  and answers 409 (`Idempotency.Replay`).
- ADR-0016 says that a failed Reorged is resumed by the next rescan. The entry is still tracked then, so `Resume` does
  nothing until the process restarts (`Race.PartedForGood`).
- The nonce allocator's comment says that different senders never contend. One mutex serves all of them, which makes no
  difference to what is proved.

## Model

| member | source | states |
|---|---|---|
| Base.WrapUnique | internal/ledger/balance.go:24-41 | int64 totals are equal exactly when the true totals agree modulo 2^64 |
| Ledger.Balanced | internal/ledger/balance.go:21-45 | the loop accepts a well-formed posting exactly when its debits and credits agree modulo 2^64, and calls it invalid exactly when a line is malformed |
| Ledger.BalancedExactWhenTotalsFit | internal/ledger/balance.go:21-45 | while both totals fit an int64, accepted means debits equal credits |
| Ledger.BalancedOverflow | internal/ledger/balance.go:24-41 | an accepted posting whose debits exceed its credit by 2^64 |
| Ledger.ApplyToBalances | internal/ledger/balance.go:55-78 | the projected map holds each account's balance plus its lines, is returned only if nothing in it is negative, and otherwise the rejection says why |
| Ledger.AccountIds | internal/ledger/ledger.go:207-221 | the lock set is every touched account once, strictly ascending |
| Ledger.PostingKeeps | internal/ledger/ledger.go:138-194 | an accepted posting keeps every balance in [0, 2^63), every asset's total and the uniqueness of keys |
| Ledger.CoveredExact | internal/ledger/balance.go:55-78 | on a solvent ledger funds are refused exactly when a balance would leave [0, 2^63); wrap-around hides nothing |
| Ledger.VerdictExactly | internal/ledger/ledger.go:138-194 | on a solvent ledger, while the totals fit: accepted if and only if the fields are given, the lines are well formed and balanced, every account exists, is active and has the asset, no balance leaves [0, 2^63) and the key is new; and each refusal if and only if its check is the first to fail |
| Ledger.SolventTotal | internal/db/ledger.sql.go:60-75 | any group of accounts of a solvent ledger has a non-negative total |
| Concurrency.PlanClimbs | internal/ledger/ledger.go:143-152 | accounts in id order, then the entry key, then the row, then the audit lock is an ascending order of locks |
| Concurrency.CommitShields | internal/ledger/ledger.go:138-194 | the locks a committing transaction holds keep every other live transaction's reads true |
| Concurrency.CommitIsPosting | internal/ledger/ledger.go:138-194 | a transaction ready to commit would be accepted if it ran alone on the committed journal |
| Concurrency.InterleavingsAreSerial | internal/ledger/store_sql.go:39-56 | every interleaving keeps balances non-negative, conserves each asset, repeats no key, and equals the committed transactions run serially in commit order |
| Concurrency.AtMostOneReversal | internal/payments/payments.go:220-298 | a payment is canceled exactly when its reversal is posted, and that is posted at most once |
| Concurrency.WaitingClimbs | internal/settlement/settlement.go:201-253 | what a waiter wants lies below what the holder wants in the lock order |
| Concurrency.NoWaitCycle | internal/ledger/ledger.go:143-152 | the wait-for graph of every reachable state is acyclic |
| Concurrency.SomeoneCanStep | internal/audit/audit.go:73-78 | while a transaction is unfinished, some unfinished one waits for nobody and its next statement is enabled |
| Watcher.Watcher.constructor | internal/chain/evm/watcher.go:135-159 | a new watcher tracks nothing |
| Watcher.Watcher.New | internal/chain/evm/watcher.go:135-159 | refused exactly for a zero depth, a finality not beyond it or a non-positive interval |
| Watcher.Watcher.Track | internal/chain/evm/watcher.go:165-176 | registers a well-formed hash as pending once, never resetting an entry |
| Watcher.Watcher.Resume | internal/chain/evm/watcher.go:188-208 | registers a settled anchor as Confirmed once; an empty block hash is refused |
| Watcher.HashTextIsWellFormed | internal/chain/evm/watcher.go:536-545 | every 32-byte hash written in hexadecimal behind 0x is accepted, and none of another length |
| Watcher.Watcher.EmitStatus | internal/chain/evm/watcher.go:461-478 | surfaces a status unless it repeats the last phase at no greater depth |
| Watcher.Watcher.ReverseEntry | internal/chain/evm/watcher.go:450-455 | Reorged against the old anchor, then the entry is pending without an anchor |
| Watcher.Watcher.PollPending | internal/chain/evm/watcher.go:262-438 | the branch of the pass for a pending entry |
| Watcher.Watcher.PollMined | internal/chain/evm/watcher.go:262-438 | the branch for a mined entry |
| Watcher.Watcher.PollConfirmed | internal/chain/evm/watcher.go:262-438 | the branch for a confirmed entry, with eviction at finality |
| Watcher.Watcher.Poll | internal/chain/evm/watcher.go:262-438 | a pass replaces or evicts every tracked entry by its one observation, in whatever order the map yields the keys, and emits exactly those observations' statuses |
| Watcher.Watcher.Delivered | internal/chain/evm/watcher.go:217-254 | a failed Confirmed rolls its entry back to mined with an empty memory; nothing else changes |
| Language.NothingSwallowed | internal/chain/evm/watcher.go:461-478 | every phase change and eviction surfaces its own status, with the old anchor for Finalized; an unchanged phase surfaces at most a deeper Mined |
| Language.PendingExactly | internal/chain/evm/watcher.go:304-334 | a pending entry moves exactly when a receipt answers, to the receipt's block, Confirmed exactly if it is deep enough under the head and Mined if not; entry and status written out |
| Language.AnchoredExactly | internal/chain/evm/watcher.go:335-438 | Reorged if and only if the receipt is gone, or receipt and header answer and the header hash differs from the anchor; Confirmed and Finalized if and only if the header names the anchor under enough blocks; a mined entry again if and only if it is deeper; otherwise nothing changes |
| Language.ReorgIsReported | internal/chain/evm/watcher.go:217-438 | in every history, a tick that shows the anchor gone, of an entry that is mined or confirmed, adds a Reorged |
| Language.EveryLetterHasItsReason | internal/chain/evm/watcher.go:188-438 | in every history, each status was emitted at a tick that shows its reason: no Finalized or Confirmed of an anchored block without a header that names it, no Reorged without a missing receipt or a differing header |
| Language.OneTick | internal/chain/evm/watcher.go:217-254 | one poll with its delivery is one transition of the status automaton, or none |
| Language.HistoryInLanguage | internal/chain/evm/watcher.go:188-254 | whatever the chain answers and whichever deliveries fail, the statuses of a registration form a word of the language |
| Language.FinalizedIsLast | internal/chain/evm/watcher.go:262-438 | from any state of the automaton, Finalized comes last, right after a delivered Confirmed at the same block, or first of all from a confirmed anchor there |
| Language.ConfirmedSeparated | internal/chain/evm/watcher.go:217-254 | between two Confirmed lies a Reorged, or the first delivery failed |
| Language.MinedDeepens | internal/chain/evm/watcher.go:461-478 | consecutive Mined name the same block at strictly growing depth |
| Language.HistoriesAreOrdered | internal/chain/evm/watcher.go:188-478 | the three facts above, said of every history of every registration, fresh or resumed |
| Language.ResumedIsSilent | internal/chain/evm/watcher.go:188-208 | after Resume nothing precedes a Reorged or a Finalized of the resumed anchor |
| Language.NoFalseReorg | internal/chain/evm/watcher.go:262-438 | if every answer is truthful about a chain that keeps the block, no Reorged is emitted, whatever faults and lagging heads occur |
| Language.TwoPollsFinalize | internal/chain/evm/watcher.go:507-512 | once the head is finality deep over the anchor, two fault-free delivered polls finalize and evict the entry |
| Language.FailedConfirmIsRetried | internal/chain/evm/watcher.go:217-254 | a Confirmed that was not delivered is emitted again by the next fault-free poll, at the same block |
| Store.Database.PostWithin | internal/ledger/ledger.go:138-194 | lock, check, read, project and insert in place give the verdict of the posting run alone; nothing is written unless it is accepted |
| Store.Database.CheckAccounts | internal/ledger/ledger.go:229-247 | passes exactly when every locked account exists, is active and has the entry's asset, said of the accounts themselves |
| Store.Database.ReadBalances | internal/db/ledger.sql.go:60-75 | the derived balance of each account, or a storage error when one is outside bigint |
| Store.Database.Create | internal/payments/payments.go:90-158 | entry, payment row, event and audit row together, or nothing |
| Store.Database.Cancel | internal/payments/payments.go:220-298 | reversal, flag, event and audit row together, or nothing |
| Store.Database.LinkTx | internal/settlement/settlement.go:77-98 | binds a transaction to a payment once; rebinding to another is refused |
| Settlement.Sink.MarkSettled | internal/db/settlement.sql.go:170-188 | moves a pending or reorged row to settled with its entry and anchor, and no other row |
| Settlement.Sink.MarkReorged | internal/db/settlement.sql.go:142-153 | moves a settled row to reorged without an anchor, and no other row |
| Settlement.Sink.MarkFinalized | internal/db/settlement.sql.go:115-125 | moves a settled row to finalized, and no other row |
| Settlement.Sink.SettleRow | internal/settlement/settlement.go:180-257 | the statements of settle, in order, add up to the settle function, including the posting that commits over a finalized row |
| Settlement.Sink.UnsettleRow | internal/settlement/settlement.go:264-324 | the statements of reverse add up to its function |
| Settlement.Sink.FinalizeRow | internal/settlement/settlement.go:334-373 | the statements of finalize add up to its function |
| Settlement.Sink.OnStatus | internal/settlement/settlement.go:135-171 | one status takes effect as a whole or not at all, is acknowledged only after it did, and without a fault fails only when the handler refuses |
| Effects.TransferAcceptedIff | internal/ledger/ledger.go:138-194 | a two-line entry is posted if and only if both accounts are active in the asset, the amount is positive, the key is new, the payer has it and the payee has room |
| Effects.CreateExactly | internal/payments/payments.go:90-158 | a payment is created if and only if its id is new and its entry can be posted; the entry lowers the source and raises the destination by the amount, with one event and one audit row |
| Effects.CancelExactly | internal/payments/payments.go:220-298 | a payment is canceled if and only if it is known, not canceled and its reversal can be posted; payment flag, entry, event and audit row written out |
| Effects.CancelUndoesCreate | internal/payments/payments.go:220-298 | whatever was posted in between, the two entries together leave every balance alone |
| Effects.ReorgedExactly | internal/settlement/settlement.go:264-324 | a Reorged on a settled row is applied if and only if no reversal of the payment at that very block exists, the house holds the amount, the destination has room and both accounts are active in the asset; entry, row, event and audit row written out; on any other row it changes nothing |
| Effects.ConfirmedExactly | internal/settlement/settlement.go:180-257 | a Confirmed on a pending or reorged row is applied if and only if the payment was not settled at that block before, the destination holds the amount, the house has room and both accounts are active in the asset; everything it writes is spelled out, also over a finalized row |
| Effects.FinalizedExactly | internal/settlement/settlement.go:334-373 | a Finalized moves a settled row to finalized with its event, posts nothing and changes no other row |
| Effects.OthersExactly | internal/settlement/settlement.go:135-171 | Pending, Mined and statuses of unknown transactions change nothing and are acknowledged |
| Effects.ReorgUndoesSettle | internal/settlement/settlement.go:180-324 | a Confirmed followed by a Reorged at its block is always accepted, restores every balance and leaves the row reorged without an anchor |
| Effects.SettlesAgainAfterReorg | internal/settlement/settlement.go:191-211 | after that the payment can be settled again at another block, and is |
| Effects.LinkExactly | internal/settlement/settlement.go:77-98 | a transaction is bound if and only if the payment is known and the hash is free or already bound to it; a new binding is a pending row at the end |
| Money.HandleKeepsIff | internal/settlement/settlement.go:180-257 | a handled status keeps the money matched to the rows exactly when it is not a Confirmed for a finalized row |
| Money.NextKeeps | internal/payments/payments.go:90-298 | creating, canceling, linking and every other delivery keep it too |
| Money.MoneyFollowsRows | internal/settlement/settlement.go:135-373 | in every run without such a delivery, a payment's settle and reversal entries move its amount from destination to house once per settled or finalized row, and nothing otherwise |
| Money.SingleRowMoney | internal/settlement/settlement.go:191-281 | with one row the amount is in the house while the row is settled or finalized, and the net effect is zero while it is pending or reorged |
| Money.BlockSettlesOnce | internal/settlement/settlement.go:191-211 | however a run goes on, a block that settled a payment once never settles it again: a later Confirmed there is refused or finds the row settled |
| Clearing.HouseHoldsLiveValue | internal/settlement/settlement.go:191-281 | in every such run the clearing account of each asset holds exactly the value of its settled and finalized rows |
| Clearing.EventsTellTheStatus | internal/settlement/settlement.go:235-253 | in every run, with no hypothesis on deliveries, a transaction's published events alternate confirmed and reorged, end with at most one finalized, lead to exactly its row's status, and equal the audited ones |
| Pipeline.HandleMovesRow | internal/db/settlement.sql.go:115-188 | what each status does to its own row, and that no other row moves |
| Pipeline.SeedKeepsIff | cmd/chainwatcher/main.go:164-182 | a seed, from however old a list, keeps entries and rows in agreement exactly when its key is tracked, refused, or its row neither finalized nor about to be |
| Pipeline.TimelySeedIsCurrent | cmd/chainwatcher/main.go:164-182 | a key not evicted since the list was read, and with no Finalized undelivered then, is seeded from a row that is still as listed |
| Pipeline.StepKeepsSafe | internal/chain/evm/watcher.go:217-254 | every poll visit, delivery, list, crash, payment operation and every seed that resurrects nothing keeps the relation of entries, undelivered statuses, listed rows and rows |
| Pipeline.TimelyRunsResurrectNothing | cmd/chainwatcher/main.go:156-188 | a run whose seeds are all timely resurrects nothing |
| Pipeline.WatcherAgreesWithRows | cmd/chainwatcher/main.go:156-188 | over all faults, failed deliveries, crashes, stale lists and seeds that resurrect nothing, a tracked row is never finalized, Confirmed means settled outside a hand-over, and the next delivery finds no finalized row to settle |
| Pipeline.MoneyInEveryRun | internal/settlement/settlement.go:135-373 | so in every such run the money follows the rows, with no hypothesis left on deliveries |
| Pipeline.SafeThroughoutIff | cmd/chainwatcher/main.go:156-188 | entries, undelivered statuses and rows agree throughout a run if and only if no seed of it resurrects its key |
| Pipeline.HandKeepsExactIff | internal/chain/evm/watcher.go:225-251 | a delivery keeps phase and row in exact correspondence if and only if it is neither a Reorged left unapplied while its row is settled nor a Confirmed applied without acknowledgement |
| Pipeline.SeedKeepsExactIff | cmd/chainwatcher/main.go:55-61 | a seed, from however old a list, keeps it if and only if the listed row still agrees with the row on being settled and on the block, or the key is tracked, refused or awaits a hand-over |
| Pipeline.TimelySeedDoesNotMislead | cmd/chainwatcher/main.go:164-182 | a timely seed always keeps it |
| Pipeline.StepKeepsExactIff | internal/chain/evm/watcher.go:217-254 | of all the steps of the system, exactly those deliveries and seeds part an entry from its row |
| Pipeline.VisitKeepsAnchorsIff | internal/chain/evm/watcher.go:304-334 | a visit keeps every entry anchored if and only if it does not place a pending one in block zero |
| Pipeline.AnchorsThroughoutIff | cmd/chainwatcher/main.go:55-61 | in a run that resurrects nothing, every settled row names its block throughout, so that seed can resume it, if and only if no pending entry is ever found in block zero |
| Pipeline.ExactSinceRestartIff | cmd/chainwatcher/main.go:55-61 | from any restart on, in a run that resurrects nothing and meets no block zero, an entry outside a hand-over is Confirmed exactly when its row is settled, at the row's block, throughout, if and only if no step parts them |
| Recovery.FeedExactly | internal/db/settlement.sql.go:70-82 | of each transaction the list holds the row of that moment, unless it is finalized |
| Recovery.FeedIsOldestFirst | internal/db/settlement.sql.go:70-82 | the list keeps the rows in the order of their creation |
| Recovery.RescanExactly | cmd/chainwatcher/main.go:55-61 | one list and all its seeds, at any moment: a tracked key keeps its entry; of the others exactly those with a well-formed hash and a row neither finalized nor settled at an empty block become tracked, Confirmed at the row's anchor if it is settled with one, from scratch if not |
| Recovery.RecoveryRestoresWatcher | cmd/chainwatcher/main.go:156-188 | in every run that resurrects nothing and meets no block zero, after a crash at any point one rescan leaves tracked exactly the well-formed transactions whose row is not finalized, Confirmed if and only if settled, at the row's own block |
| Recovery.StepKeepsTracked | internal/chain/evm/watcher.go:262-438 | of all the steps of the system exactly a crash and the visit that reports it Finalized make a tracked key untracked |
| Recovery.SeededStaysTracked | cmd/chainwatcher/main.go:164-182 | however polls, deliveries and rescans interleave, a seeded key stays tracked until a crash or the visit that reports it Finalized |
| Sinks.StepMatchesIff | internal/settlement/settlement.go:214-228 | of all the steps of any number of sinks on a row, exactly the commit of a posting whose update matched no row breaks the match of money and row |
| Sinks.MatchedThroughoutIff | internal/settlement/settlement.go:180-373 | however they interleave, each block is settled and reversed at most once, and the match holds throughout if and only if every posting that commits has updated its row |
| Sinks.RowMovesExactly | internal/db/settlement.sql.go:115-188 | in every interleaving the row moves at exactly the commits whose update matched: pending or reorged to settled, settled to reorged, settled to finalized |
| Sinks.FinalizedForever | internal/db/settlement.sql.go:115-188 | a finalized row stays finalized, whatever any number of sinks deliver |
| Sinks.OneSinkMissesIff | internal/settlement/settlement.go:135-171 | with one sink, a posting misses its row exactly when it is a settle and the row is finalized |
| Sinks.TwoSinksSettleTwice | internal/settlement/settlement.go:187-224 | a run of two sinks that both read the row while it is pending and settle it at two blocks |
| Race.SecondSettleIsPosted | internal/settlement/settlement.go:214-228 | a Confirmed at a new block over a finalized row is posted and commits |
| Race.RescanRaceDoubleSettles | cmd/chainwatcher/main.go:156-188 | a run in which rescan seeds a row whose Finalized is undelivered, and the payment is settled twice |
| Race.StaleListDoubleSettles | cmd/chainwatcher/main.go:164-182 | a run in which rescan seeds from its older list after that delivery, with nothing under way, and the payment is settled twice |
| Race.FailedReorgParts | internal/chain/evm/watcher.go:230-250 | a run in which a Reorged is rolled back and a pending entry stays over a settled row |
| Race.PartedForGood | cmd/chainwatcher/main.go:164-182 | there, reading the rows again and seeding them changes nothing |
| Race.OldListMisleads | cmd/chainwatcher/main.go:164-182 | a run in which a row settles and is evicted, its Finalized is rolled back, and a list read before registers it as pending |
| Race.BlockZeroLosesTheAnchor | internal/chain/evm/watcher.go:467-470 | a run in which a transaction confirmed in block zero settles without a block hash, so that seed refuses its row |
| Bytes.NumberOfBigEndian | internal/audit/audit.go:136-139 | reading back a big-endian number gives the number |
| Bytes.BigEndianOfNumber | internal/audit/audit.go:136-139 | writing a number read from bytes gives the bytes |
| Audit.Canonical | internal/audit/audit.go:132-154 | the buffer's writes add up to the length-prefixed encoding |
| Audit.EncodedExactly | internal/audit/audit.go:132-154 | the layout written out: number and microseconds in two's complement, then the five fields, each behind its eight-byte length |
| Audit.DecodeEncoded | internal/audit/audit.go:132-154 | a decoder inverts the encoding on all field tuples |
| Audit.DecodeIff | internal/audit/audit.go:132-154 | the decoder accepts exactly the encodings |
| Audit.EncodedInjective | internal/audit/audit.go:132-154 | equal encodings mean equal fields |
| Audit.ChainGrows | internal/audit/verify.go:100-120 | a row extends a chain exactly when the walk finds no fault in it |
| Audit.GenesisIsZero | internal/audit/audit.go:35-37 | the hash before the first row is 32 zero bytes |
| Audit.FaultExactly | internal/audit/verify.go:91-120 | a gap, a broken link and a hash mismatch, each if and only if its comparison on the rows is the first to fail |
| Audit.Verify | internal/audit/verify.go:75-135 | accepts exactly the chains whose head meets the anchor, with count and head number equal to the length, and otherwise reports the first faulty row and its kind |
| Audit.HeadPinsHistory | internal/audit/verify.go:91-134 | two chains with one head hash have one length and agree row by row in number, actor, action, aggregate, payload, both hashes and the microsecond, or two different preimages with one digest are returned |
| Audit.AnchorPinsHistory | internal/audit/verify.go:59-67 | a list accepted against the head of a known chain is that chain, or a collision is returned |
| Audit.ChangeIsCaught | internal/audit/verify.go:75-135 | a chain with one row changed in any of these fields is no chain, or a collision is returned, or it is the last row and its hash was changed too |
| Audit.ChangeIsCaughtByAnchor | internal/audit/verify.go:59-67 | against the head as it was, every such change is refused, or a collision is returned |
| Appends.Log.Append | internal/audit/audit.go:61-111 | one row onto the head, with the entry's own fields, the next number, the hash before it, the instant cut to the microsecond and the digest of all that; or an error and no row; a chain stays a chain |
| Appends.AppendKeepsChain | internal/audit/audit.go:80-111 | a row built on the head keeps the chain while its number fits an int64 |
| Appends.StepKeeps | internal/audit/audit.go:73-111 | every statement of every transaction keeps it so that only the lock holder has rows of its own, and they continue the committed chain |
| Appends.LogAlwaysVerifies | internal/audit/audit.go:61-111 | any interleaving with any rollbacks leaves a log that the verifier accepts, with count and head number equal to the committed appends, growing only at the end |
| Reconcile.BeyondIsRest | internal/db/reconcile.sql.go:15-23 | past the cursor of the k-th row of the ordered table lies exactly the rest of it |
| Reconcile.Accumulate | internal/reconcile/aggregate.go:80-91 | one more row keeps each asset's two int64 sums right |
| Reconcile.QueriesExactly | internal/reconcile/aggregate.go:41-75 | the loop asks one query for every full page and one more that finds fewer rows |
| Reconcile.AggregateSettlements | internal/reconcile/aggregate.go:41-75 | asks one query per full page and one more, fails exactly for a page size below one or a failed query among them, and returns the sums of one pass over the table |
| Reconcile.ZeroNeverEnds | internal/reconcile/aggregate.go:58-72 | with a page size of zero the loop's guard holds after every pass, whatever the table |
| Report.UnionKeys | internal/reconcile/report.go:111-128 | every asset of the three inputs once, in ascending order |
| Report.BelowIff | internal/reconcile/report.go:111-128 | ascending means that a proper prefix comes first, and else the first difference decides |
| Report.BuildReport | internal/reconcile/report.go:62-106 | one row per asset in order, each with its finalized and confirmed sums, on-chain sum, discrepancy and verdict; clean exactly when every row is reconciled |
| Reserves.ExpectedIsHouseBalance | internal/reconcile/report.go:78-82 | finalized plus confirmed is the clearing account's balance exactly: neither int64 sum can wrap |
| Reserves.ColumnsAreStatuses | internal/reconcile/aggregate.go:80-91 | finalized rows and no others are summed in the finalized column, settled rows and no others in the confirmed column |
| Reserves.NonHouseExactly | internal/db/reconcile.sql.go:123-137 | the accounts of the asset that are not of the clearing kind |
| Reserves.PositiveAlong | internal/payments/payments.go:90-158 | every recorded payment has a positive amount, in every run |
| Reserves.ReadBalances | cmd/paymentrailctl/reconcile.go:143-160 | collects the on-chain balances per asset, and fails exactly when a call fails |
| Reserves.ReadLiabilities | cmd/paymentrailctl/reconcile.go:162-173 | the negated non-house total of each asset, which is never positive |
| Reserves.ReconcileReport | cmd/paymentrailctl/reconcile.go:137-173 | each discrepancy is the on-chain balance less the clearing account's, the two columns are the sums of the finalized and of the settled rows, every verdict is OK, the report is clean exactly when no discrepancy shows, and it fails exactly for the listed causes |
| Reserves.ReservesInEveryRun | internal/settlement/settlement.go:135-373 | in every state watcher, sink, rescan, crashes and failed deliveries reach, the paged sums add up to the clearing account's balance |
| Velocity.Store.Charge | cmd/paymentrailctl/velocitystore.go:40-87 | recorded exactly when enforcement is on, the amount is a positive int64, nothing fails and the caps allow it; otherwise no trace, with the outcome named |
| Velocity.RefusedIffOver | internal/policy/velocity.go:71-98 | a charge is refused exactly when it would put its own window over a cap |
| Velocity.CountIsCardinality | internal/db/velocity.sql.go:41-45 | the count is the number of charges of the key in the window, ends included |
| Velocity.EveryWindowHolds | internal/policy/velocity.go:71-98 | if each charge was decided on what the query saw, every closed window of the configured width, wherever it starts, respects both caps, in any order of timestamps |
| Velocity.StepKeeps | cmd/paymentrailctl/velocitystore.go:56-86 | every statement of every transaction keeps what a transaction past its lock has read true |
| Velocity.NoWindowEverOver | internal/db/velocity.sql.go:41-45 | in every interleaving, whatever the lock hash does and however clocks disagree, no window of any key is over its caps |
| Velocity.StoppedIffOver | cmd/paymentrailctl/velocitystore.go:56-86 | in every interleaving, a charge that has read its usage is stopped exactly when it would break a cap on what is committed by then |
| Approval.NewGate | internal/policy/approval.go:51-57 | the gate knows exactly the listed approvers |
| Approval.Store.Propose | cmd/paymentrailctl/approvalstore.go:69-136 | parks the intent as pending, or nothing; an amount outside int64 is refused |
| Approval.Store.Claim | cmd/paymentrailctl/approvalstore.go:145-238 | flips a row exactly when it is pending and the approver is authorized, and returns the intent as parked; each refusal has its cause |
| Approval.Store.MarkBroadcast | cmd/paymentrailctl/approvalstore.go:244-260 | records a hash exactly on an approved row without one |
| Approval.Store.Reopen | cmd/paymentrailctl/approvalstore.go:268-281 | reopens exactly an approved row without a hash |
| Approval.Store.Conclude | cmd/paymentrailctl/approve.go:109-147 | after a claim the row is reopened, hashed or left for reconciliation according to the returned hash alone |
| Approval.StepKeeps | internal/db/approval.sql.go:73-119 | every step of every approver, with lost commits and crashes, keeps an open row in the hands of the one process that claimed it |
| Approval.AtMostOneBroadcast | cmd/paymentrailctl/approve.go:86-146 | an approval is broadcast at most once more than the number of its accepted transactions whose hash was lost, and at most once exactly when none was lost, or one was and no hash came back |
| Approval.FourEyes | internal/policy/approval.go:96-104 | whenever a row is approved its approver is allowlisted and is not the proposer; a recorded hash is the one that was sent |
| Approval.HashedRowIsFinal | cmd/paymentrailctl/approvalstore.go:262-281 | a row never changes its intent or proposer, and a hashed row is never touched again |
| Approval.LostReplySendsTwice | internal/chain/evm/adapter.go:206-220 | a run with one accepted transaction whose hash was lost, in which the payment is sent twice |
| Idempotency.ReplayExactly | cmd/api/middleware.go:108-121 | 409 while the key is claimed and unfinished, whatever was asked; then 422 for another request and the stored answer for the same |
| Idempotency.Server.Begin | internal/payments/idempotency.go:44-63 | fresh exactly when the key was not there; otherwise the stored row |
| Idempotency.Server.Complete | internal/payments/idempotency.go:69-80 | stores the answer under the key |
| Idempotency.Server.Delete | internal/payments/idempotency.go:84-89 | releases the key |
| Idempotency.Server.Serve | cmd/api/middleware.go:25-105 | what a request gets and leaves behind, for every handler outcome and storage failure: a payment exactly for a fresh key and a 2xx, a replay for a known key |
| Idempotency.StepKeeps | internal/db/idempotency.sql.go:86-91 | every step of every request keeps the key in the hands of the one request that claimed it |
| Idempotency.AtMostOnePayment | cmd/api/middleware.go:25-105 | however requests interleave, fail, crash or lose the outcome of their claim, a key creates at most one payment |
| Idempotency.StoredForever | internal/payments/idempotency.go:65-80 | a stored answer is never replaced or released |
| Idempotency.ReplayReturnsTheOriginal | cmd/api/middleware.go:108-121 | once an answer is stored, the same request gets exactly the status and body the handler returned, and a different one gets 422 |
| Idempotency.InFlightIsRefused | cmd/api/middleware.go:108-121 | in every run a request that finds its key claimed and unfinished gets 409 and changes nothing |
| Idempotency.FailureReleasesTheKey | cmd/api/middleware.go:60-105 | a finished request leaves its key free exactly when it panicked or did not answer with a 2xx, and the next request then claims it |
| Idempotency.EverySuccessIsThePayment | cmd/api/middleware.go:25-121 | in every interleaving with every crash, a 2xx goes out only for a key whose one payment is committed, and all 2xx replies of a key carry the same status and body and answer the same request |
| Outbox.Relay.DrainBatch | internal/outbox/relay.go:36-61 | publishes the claimed rows in order and marks exactly them, or marks nothing |
| Outbox.Consumer.Handle | internal/webhook/consumer.go:43-70 | poison and transient failures change nothing; otherwise exactly the active subscriptions to the event's kind that had no row get one, with its kind and payload, and no row changes |
| Outbox.Consumer.Run | cmd/webhookd/kafka.go:59-82 | every message before the committed offset is poison or has the row of each subscription that matched; rows are never lost |
| Outbox.RelayKeeps | internal/outbox/relay.go:85-109 | through claims, partial publishes, rollbacks and crashes, what is marked sent or about to be is in the log, and every message in the log is that of an outbox row whose publication was tried |
| Outbox.SentIsLogged | internal/db/outbox.sql.go:80-93 | in every run a row marked sent has its message in the log |
| Outbox.RelaysShareNoRow | internal/db/outbox.sql.go:20-93 | in every run no two relays hold the same row, and none holds a row that is sent already |
| Outbox.CommittedIsDelivered | internal/db/webhook.sql.go:79-85 | in every run, once the committed offset passes a copy of an event, a step of the run handled that copy, and each subscription active and matching at that step has its one delivery row |
| Outbox.HandledWhen | internal/webhook/consumer.go:56-63 | every handling on record was made by one step of the run, on the subscriptions that were active and matching then |
| Outbox.EveryDeliveryHasItsEvent | internal/db/webhook.sql.go:79-85 | every delivery row was put there by a step that handled a copy of its event, with that payload, while its subscription was active and matching, and that copy is the message of a committed outbox row |
| Outbox.DeliveriesAreKept | internal/webhook/consumer.go:56-63 | redelivery neither loses, duplicates nor overwrites a row |
| Outbox.CommittedIsNotFetchedAgain | cmd/webhookd/kafka.go:59-82 | in every run, once a message is committed neither it nor an earlier one of its partition is fetched again |
| Signer.FillBytes | internal/chain/evm/calldata.go:62-64 | writes the number big-endian into its slice and leaves the rest of the buffer |
| Signer.PackTransfer | internal/chain/evm/calldata.go:46-66 | packs exactly the amounts 1 to 2^256-1: selector a9059cbb, twelve zero bytes, recipient, amount |
| Signer.ChargedIff | internal/signer/policy.go:46-134 | an amount is charged if and only if the key is registered on the request's chain, there is a destination, the fee cap is positive and no lower than the tip, gas is between 21000 and 30 million, and the request pays exactly that amount, natively or by a token's transfer |
| Signer.RefusedFor | internal/signer/policy.go:46-59 | an unknown key is reported first, then the wrong chain |
| Signer.PackedIsChargedExactly | internal/signer/policy.go:46-134 | every packed transfer in a sound request is charged at exactly its amount |
| Signer.ChargeFixesTheTransfer | internal/signer/policy.go:117-134 | whatever is charged is the value of a native transfer or the amount word of a token call, and nothing else is signed |
| Signer.PackedInjective | internal/chain/evm/calldata.go:46-66 | equal calldata pays the same recipient the same amount |
| Signer.SpendBucket.Charge | internal/signer/limiter.go:51-74 | the callback runs exactly when the limit allows it, and only a successful one is charged |
| Signer.Sign | internal/signer/signer.go:92-120 | validate and charge in sequence change the key's bucket as one attempt does |
| Signer.SpentIsWhatMoved | internal/signer/limiter.go:51-74 | over any sequence of signs on a key, spent is what the signed transactions move, and never exceeds the limit |
| Signer.SignedIff | internal/signer/signer.go:92-120 | after any sequence of signs the next sound payment is signed exactly when what was moved and what it moves fit the limit |
| Nonce.Allocator.WithNonce | internal/chain/evm/nonce.go:49-74 | the nonce is the larger of the pending nonce and the high-water, which becomes one more, wrapping at the largest uint64, on success and only then |
| Nonce.NoncesIncreaseIff | internal/chain/evm/nonce.go:49-74 | over any sequence of calls, a sender's committed nonces are at least the pending nonce and follow each other unless the node was further on, and they strictly increase if and only if none but the last is the largest uint64 |
| Nonce.NoncesGaplessIff | internal/chain/evm/nonce.go:49-74 | a sender's nonces are consecutive if and only if none but the last is the largest uint64 and the node was never further on |
| Nonce.FailuresConsumeNothing | internal/chain/evm/nonce.go:57-70 | a sequence of calls grants exactly what its committing calls grant by themselves, one nonce each |
| Nonce.GrantsFollowCalls | internal/chain/evm/nonce.go:57-73 | each granted nonce belongs to the sender of its committing call and to the pending nonce the node reported there |
| Nonce.OverflowReuses | internal/chain/evm/nonce.go:72 | at the largest uint64 the high-water wraps to zero, and the next nonce is one used long before |

## Left out

- Reconcile.AggregateSettlements: the table does not change between pages; a call that never ends, which a page size of zero makes when no query ever fails, is described by Reconcile.ZeroNeverEnds.
- Concurrency.InterleavingsAreSerial: speaks of postings whose totals fit an int64; beyond that the source's own check accepts lopsided postings, as Ledger.BalancedOverflow shows.
- Velocity.Store.Charge: instants are whole microseconds, so the rounding of finer clock readings on their way into the database is not modelled.
- Approval.Store.Propose: the parsing of the approval and payment identifiers and the audit row are part of the one failure flag.
- Outbox.CommittedIsDelivered: one consumer session per partition at a time; a group member that lost its partition and still commits is not modelled.
- Outbox.Relay.DrainBatch: which rows a claim picks, and their order by creation time, is left open; the claim may be any unsent, unlocked rows.
- Pipeline.WatcherAgreesWithRows: speaks of runs whose seeds resurrect nothing, which the source does not enforce; Race.RescanRaceDoubleSettles and Race.StaleListDoubleSettles are the runs it leaves out, and Pipeline.SeedKeepsIff says which seeds they are.
- Audit.HeadPinsHistory: of instants outside the int64 range of microseconds nothing is said, because the source's integers keep them only modulo 2^64.
- Accounts and clearing accounts are fixed for the whole of a run in every theorem about the system.
- The sink's transactions are single steps of the system runs; that interleaved postings behave as if they were is what the Concurrency module proves, and what several sinks on one row do is in the Sinks module.
- Block numbers are stored as int64 and read back as uint64, which is the identity on all values.
- HTTP, gRPC, Kafka and Postgres plumbing, beyond the step semantics the code relies on.
- Signing, RLP, key files and transaction hashes, which are library code.
- JSON, UUID, RFC 3339, base64 and pagination-cursor text, which are library round trips.
- The threshold test that sends a payment to the approval queue, which is one comparison.
- Webhook signing, delivery attempts and backoff, denylist loading, gas pricing and configuration: short single-function facts.
- Tickers, leases and TTL sweeps: time is an input, and the absence of a sweep is a hypothesis.
- Logging, redaction, error texts, report rendering, the load-test harness and generated code.
