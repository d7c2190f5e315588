# BetSync: wallet, settlement, aggregates and protocols

BetSync tracks bets against a real escrow wallet. This project models the parts of it where money and state
must agree, and proves what they promise. `dafny verify dfyconfig.toml` verifies everything.

## What is modelled

**Wallets, picks, ledger, outbox, parlays.** `Tables` holds the committed state: a wallet per user (available,
locked), the picks, an append-only ledger whose lines carry balance snapshots, the keyed outbox and the parlays.
`Domain` is the pick with its validator and settlement arithmetic. `Engine` gives each service as a function from one
committed state to the next, in the order of its guards; an error is a raised exception, whose rollback leaves the state
alone. `Session` is the same services as the program runs them, statement by statement on a session's fields, each
method proved against its `Engine` function. `Reconciliation` and `Audit` are the drift checks, the repair and the two
audits.

**Runs.** `Invariants`, `Runs`, `History`, `Guards` and `ParlayRuns` prove what every serial run of requests keeps.
A run is any sequence of create, resolve, delete, confirm or reject, edit, repair and add-parlay requests, accepted or
not. `Acceptance`, `Guards` and `Answers` say exactly which requests are accepted and with which error the others are
refused; `Columns` and `ParlayOdds` say what an accepted one stores, and that over every run the stored odds, closing line
values, profits and payouts are the promised ones. `PaidOnce` is what no run breaks, from whatever state it starts.

**Interleavings.** `Concurrency` splits settlement, staked creation and repair at their row locks; `Alone` proves that an
undisturbed worker does exactly what the service does. `Serializability` proves that any interleaving of any number of
workers leaves the tables of some serial run of the workers that committed, provided that no repair reads a line that
misleads it, and that some worker can always run, with no such proviso. `Repairs` says exactly which repairs are misled
and that a schedule is serial at every moment if and only if none of them commits. `Stamps` says what the drift gate does
with lines appended out of the order of their stamps. `Resolves` adds the parlay checks of the resolve endpoint to the
workers and says exactly which schedules leave a parlay open.

**Counterexamples.** `Witnesses` and `Overlap` drive the models from a seeded system to the states that one would not expect.

**Aggregates.** `Aggregates`, `Rollups` and `DualRead` compare the batched additive backfill, the full-day recompute,
and profit computed in SQL.

**Protocols.** `Idempotency` interleaves the Redis commands and commits of pick creation under one key. `Outbox` is the
delivery of events by concurrent workers.

**Arithmetic and combinatorics.** `Suggestions` (parlay enumeration), `ParlayOdds`, `BestPrices`, `Fiscal` and
`FiscalYears`, and `Money`, `Odds`, `Sorting`, `Keyset` below them.

## How numbers and time are modelled

- Stored money is whole cents. Products of cents and odds (scaled by 10^4) are exact micros, and writing them to a
  `Numeric(_, 2)` column rounds half away from zero, as PostgreSQL does. Python's `quantize` and ideal `round` are half
  to even.
- Stakes are whole cents. The request schema does not enforce this (app/schemas/pick.py:20).
- Hashes of event keys, request bodies and idempotency keys are taken to be injective, so a key is the value hashed.
- A ledger line's `created_at` is the start of its transaction. A serial run starts each transaction no earlier than the
  one before; in an interleaving stamps are arbitrary. Among equal stamps the last line appended is taken as the latest.
- The clock that a request reads is a parameter, so `resolved_at` may lie before `created_at`, and the validator's answer
  to that is part of the results.

## What turned out not to hold as one might expect

- Editing the stake of a pending pick moves no escrow (app/services/pick_service.py:429-431). Throughout a serial run
  locked funds equal the pending stakes if and only if no accepted edit changes what an owned pick has at stake
  (`History.ExactIffStakesStay`, and `History.EditKeepsEscrowIff` for one edit). `Guards.StakeEditStrandsThePick` reaches
  a pick that no outcome can settle any more; `Guards.SettlementAcceptedIff` gives the exact condition.
- A repair picks its ledger line by `created_at`, which is the start of a transaction. When stakes were edited and a
  transaction overtook another, it can write a total that is off by a cent: `Witnesses.OvertakenRepairMakesACent` ends a
  cent above what serving the same workers in commit order leaves. `Repairs.MisledIff` is the exact condition in the values read,
  and `Repairs.SerialIffNeverMisled` shows that nothing else breaks serializability.
- For the same reason the drift gate can refuse every settlement on correct books:
  `Witnesses.OvertakenPayoutClosesTheGate`. `Stamps.GateOpenIff` says how far later lines move the total.
- Rejecting a suggested pick voids it without looking at its parlays (app/services/pick_service.py:486-487), unlike the
  resolve endpoint. `ParlayRuns.OpenIff` is exact: parlays are open for a reason throughout a serial run if and only if no
  rejection strands one, and `Witnesses.RejectionStrandsAParlay` is a run that does.
- Two legs resolved by overlapping transactions can miss each other, and leave their parlay open for no reason:
  `Overlap.OverlappingResolvesStrandAParlay`. `Resolves.LeftOpenIff` and `Resolves.TwoResolvesIff` are exact. It takes a
  leg that moves no money: legs that share a balance lock never miss each other (`Resolves.OneBalanceNeverMisses`).
- When a transaction overtook another, a repair can rewrite a wallet classed free of drift
  (`Witnesses.NoDriftYetRewritten`); `Reconciliation.NoDriftRewrittenIff` is the exact condition. After a serial run it
  never does (`Guards.NoDriftIsIdle`).
- A funded wallet without ledger lines counts as critical until its first stake lock: `Guards.DriftOverRuns`.
- The idempotency promise needs both that a holder finishes within its lock's time to live and that its response gets
  stored: `Idempotency.LateHolderCommitsTwice` and `Idempotency.LostResponseCommitsTwice`. The lock holds no owner.
  `Idempotency.OncePerWindowIff` says for every schedule exactly when it fails.
- One bookmaker that lists an outcome without a price, or with a number between -100 and 100, can hide every valid quote
  on it: `BestPrices.OutcomeTakenIff` is the exact condition, `BestPrices.MissingPriceHidesAQuote` a feed.
- The fiscal summary's net is not always its winnings minus its losses (`Fiscal.SummaryAddsUpIff`, `Fiscal.HalfCentYear`),
  and a won bet stored with zero odds separates the CSV from the summary (`Fiscal.CsvAgreesWithSummary`,
  `Fiscal.ZeroOddsYear`). The services never store such a bet (`Fiscal.KeptPicksAgree`).
- The CSV calls commissions and refunds of voids neutral (app/services/fiscal_service.py:342) and yet enters them as money
  in, while the summary's cash flow leaves them out. `FiscalYears.CashflowAgrees` says how far apart that puts the two, and
  `FiscalYears.CommissionSeparates` is a year.
- The SQL and the Python definitions of profit part exactly on picks that store a return but no profit
  (`DualRead.SharesAgreeIff`). The services never write such a pick.

## Model

| member | source | states |
|---|---|---|
| Serializability.InterleavingIsSerial | app/services/settlement_engine.py:71-166 | any number of workers settling, creating and repairing, interleaved at their locks and aborted at will, from any state that serial runs reach: with no misled repair among the commits the tables equal those of serving the committed workers one at a time in commit order, each accepted in its turn; rejected and unfinished workers have no effect; the books stay sound |
| Repairs.SerialIffNeverMisled | app/services/reconciliation_service.py:238-251 | a schedule is serial at every moment iff no misled repair commits under it |
| Repairs.MisledIff | app/services/reconciliation_service.py:238-292 | a repair that goes through is misled iff the user has a line, its total is a cent off the wallet's, and the repair rewrites the wallet or finds it covered only by that cent |
| Repairs.WithoutRepairsNeverMisled | app/services/settlement_engine.py:71-166 | plans without repairs are serial from any state that serial runs reach |
| Repairs.TrueTotalsNeverMislead | app/services/reconciliation_service.py:238-249 | so are plans whose repairs read a line with the total of the user's last line |
| Repairs.ExactStartNeverMisleads | app/services/reconciliation_service.py:276-292 | so are all plans from exact escrow, whatever line their repairs read, and escrow stays exact |
| Serializability.InterleavingIsOrderly | app/services/ledger_service.py:54-71 | under every schedule, misled repairs included: locks are exclusive, nothing read under a lock goes stale, and balances, picks, settlement lines and events stay right |
| Alone.ServesAlone | app/services/settlement_engine.py:45-177 | a worker run alone finishes within seven statements and has done exactly what the service does, or nothing when it is refused |
| Concurrency.NoDeadlock | app/services/ledger_service.py:54-71 | up to the end of a settlement, creation or repair, in no state whatever do workers wait in a circle: the pick lock precedes the balance lock, and nobody who holds a balance waits |
| Serializability.SomeoneRuns | app/services/settlement_engine.py:71-166 | while a worker is unfinished, some worker can run its next statement, whatever was scheduled before and from any intact state |
| Stamps.GateOpenIff | app/services/reconciliation_service.py:357-375 | the line chosen by `created_at` misses exactly the payouts less their stakes, less the losses, on the user's later lines, and the drift gate opens iff these come to at most a cent |
| Stamps.OvertakenByLocksIsHarmless | app/services/reconciliation_service.py:238-249 | in every serializable interleaved state, a latest line followed only by locks and refunds of its user still opens the gate |
| Witnesses.OvertakenPayoutClosesTheGate | app/models/ledger.py:45-47 | two bets placed serially and settled by interleaved workers, the payout stamped 3 committing after the loss stamped 5: the books are sound and the gate refuses |
| Witnesses.OvertakenRepairMakesACent | app/services/reconciliation_service.py:238-292 | a stake edit, a creation overtaking a loss, and a repair: the wallet ends a cent above what serving the three in commit order leaves |
| Tables.StaleLineMissesGains | app/services/reconciliation_service.py:357-369 | a user's last total is that of any earlier line plus the gains of the lines between |
| Tables.LatestIsTail | app/services/reconciliation_service.py:358-363 | with stamps in order, the line chosen by `created_at` is the last one appended |
| Runs.RunKeepsSound | app/services/settlement_engine.py:45-177 | over every serial run, stake edits and repairs included: balances stay non-negative, every pick has exactly the ledger lines and events its status calls for, and each user's last line carries the wallet's total |
| Runs.GateOpen | app/services/reconciliation_service.py:130-143 | in a serial run the drift gate never refuses an owned pick, whatever edits and repairs came before |
| Runs.SettleDecides | app/services/ledger_service.py:121-297 | settling a pending pick: missing escrow, a clock behind the pick and a missing stake are the only refusals left, and otherwise exact cents move; what the row then stores is `Columns.SettlementStores` |
| Columns.SettlementStores | app/services/settlement_engine.py:126-135 | an accepted settlement of a pending pick stores the status, the clock read, the result of the outcome to the nearest cent, and, when closing odds are given, these and the nearest hundredth of a percent to the bet's relative gain over them, with its sign; the rest of the row stays |
| Columns.CreationStores | app/services/pick_service.py:302-319 | a created row says what the request said, is pending without a result, and its decimal odds follow its American ones |
| Columns.ConfirmationStores | app/services/pick_service.py:478-498 | in every reachable state a suggestion can be confirmed whatever its status, and gains the clock read and nothing else |
| Columns.RunKeepsRows | app/worker/pipeline/calculator.py:4-30 | over every run, serial or not, each row's decimal odds are a / 100 + 1 exactly for an underdog and the nearest to 100 / a + 1 for a favourite, and it has a closing line value iff it has closing odds, the nearest to its gain over them |
| Columns.WinsPayAsQuoted | app/services/pick_service.py:276-278 | over every serial run a bet won at +a has stored a hundredths of its stake as profit, to the nearest cent, and one won at -a 100 parts in a of it, within half a cent and half a ten-thousandth of the stake |
| History.SettledAtMostOnce | app/services/ledger_service.py:143-190 | over every serial run a pick has at most one line across payouts, losses and refunds together; exactly one, of the right kind, iff it is terminal with an owner and a positive stake; and exactly one `pick.settled` event, carrying its status, iff it is terminal |
| History.TerminalIsFinal | app/services/pick_service.py:151-219 | once terminal, a pick keeps its status, stake, odds, market, return and profit for the rest of any run |
| History.WalletIsSeedPlusProfits | app/services/ledger_service.py:264-275 | over every serial run, available plus locked is the seeded total plus the stored profits of the user's settled picks, to the cent |
| History.RunIsExact | app/services/ledger_service.py:109-118 | in runs in which no edit moves a stake, locked funds are exactly the pending stakes, and replaying the ledger from the seed, with each payout's stake taken from its lock line, reproduces every snapshot and the final wallets |
| History.ExactIffStakesStay | app/services/pick_service.py:429-431 | throughout a serial run locked funds equal pending stakes iff no accepted edit changes what an owned pick has at stake |
| History.EditKeepsEscrowIff | app/services/pick_service.py:408-440 | from exact escrow, one accepted edit keeps it iff the pick has no owner or as much at stake as before |
| History.RepairIsIdle | app/services/reconciliation_service.py:276-292 | with exact escrow a repair that succeeds changes nothing |
| Guards.GuardsNeverFire | app/services/ledger_service.py:205-230 | over every serial run in which no edit moves a stake no request ever meets a broken-books guard, and a settlement is accepted iff the request itself is good |
| Guards.SettlementAcceptedIff | app/services/settlement_engine.py:82-122 | in every reachable state, stake edits included, a settlement is accepted iff it repeats the status, or the pick is settleable and locked funds cover its stake; broken-books errors come from missing escrow alone |
| Guards.SettleAnswers | app/services/settlement_engine.py:82-122 | the one error that each refused settlement returns |
| Guards.OthersUntouched | app/services/ledger_service.py:54-71 | a request touches the wallet of at most one user, and never another's |
| Guards.StakeEditStrandsThePick | app/services/pick_service.py:408-440 | a concrete run: create with a stake, raise the stake, and no outcome settles the pick |
| Guards.EscrowCovers | app/services/ledger_service.py:222-230 | exact escrow covers the stake of every pending pick |
| Guards.DriftOverRuns | app/services/reconciliation_service.py:332-386 | after any serial run a user is critical iff they have no ledger line and more than a cent; once they have a line the gate stays open, they are in warning iff pending stakes and locked funds are more than a cent apart, and a repair succeeds iff the pending stakes fit into the wallet |
| Acceptance.CreationAcceptedIff | app/services/pick_service.py:297-352 | exactly which picks are created, in every reachable state |
| Acceptance.CreationMovesStake | app/services/ledger_service.py:74-118 | an accepted staked creation moves exactly the stake from available to locked, with one lock line and one event; an unstaked one writes the pick alone, with no owner |
| Answers.RunAnswers | app/services/settlement_engine.py:71-122 | after every serial run, whatever the next request: it is accepted iff `Refusal` finds nothing wrong with it in the tables, and otherwise refused with that one error, for all seven kinds of request |
| Answers.CreationAnswers | app/services/pick_service.py:297-352 | the first of five faults of a creation, or acceptance |
| Answers.EditAnswers | app/services/pick_service.py:408-440 | the first of five faults of an edit, or acceptance |
| Answers.VoidingAnswers | app/services/pick_service.py:455-498 | the first fault of a deletion, a rejection or a confirmation, or acceptance |
| Answers.ParlayAnswers | app/services/parlay_service.py:21-42 | the first fault of a parlay, or acceptance |
| Answers.RepairAnswers | app/services/reconciliation_service.py:209-274 | in a state reached serially, a repair is refused for an unknown user, for more than a cent without a ledger line, or for pending stakes that do not fit into the wallet, and accepted otherwise |
| PaidOnce.NeverPaidTwice | app/services/ledger_service.py:143-190 | from any state at all in which no pick has two settlement lines, and with any stamps, no run ever writes a second one |
| PaidOnce.IndexesHold | alembic/versions/20260323_1400_e2f3a4b5c6d7_settlement_cascade_ledger_outbox.py:59-97 | the unique indexes on ledger lines and event keys hold over every run that starts with them, from any state and with any stamps |
| PaidOnce.SettlingAgainMovesNothing | app/services/ledger_service.py:158-190 | a pending pick that already has a settlement line can only be settled to the outcome of that line, which completes the row, announces it and moves no money |
| PaidOnce.SettlingAgainAnswers | app/services/settlement_engine.py:105-122 | how it is refused otherwise, in any state: a void never undoes a payout or a loss, several lines are ambiguous, and a line of another outcome is a mismatch |
| Guards.VoidingAcceptedIff | app/services/pick_service.py:455-487 | exactly which deletions and rejections are accepted, in every reachable state |
| Acceptance.EditAcceptedIff | app/services/pick_service.py:408-440 | exactly which edits are accepted, and that they change the named fields, the decimal odds with the American ones, and nothing else |
| Invariants.CreditIsStakePlusProfit | app/services/ledger_service.py:264-275 | on every outcome the credit equals the stored return, which equals stake plus stored profit, and a win never pays less than the stake |
| Invariants.SettlingRounds | app/services/ledger_service.py:264-297 | after column rounding, the change of available funds, the line amount and the stored return agree |
| Domain.StoredRowValidates | app/services/pick_service.py:241-264 | the rounded row of a settled pick passes the validator again at the default tolerance |
| Domain.ValidatorAcceptsIff | app/services/pick_service.py:100-264 | exactly which rows the validator lets through, given the row before and at any tolerance |
| Domain.ResolvedValidates | app/services/pick_service.py:100-264 | exactly when settling a pending pick passes the validator, and that the stored result is well kept |
| Reconciliation.RepairIsProjection | app/services/reconciliation_service.py:251-292 | a successful repair leaves no drift; a rewritten wallet agrees with ledger and escrow to the cent; it rewrites iff one column is off by more than the tolerance; a second repair changes nothing |
| Reconciliation.ReportSays | app/services/reconciliation_service.py:88-105 | what a drift report says of a wallet, and when it is critical, a warning or fine |
| Reconciliation.NoDriftRewrittenIff | app/services/reconciliation_service.py:96-105 | a repair that succeeds rewrites a wallet classed free of drift iff the line read is off the wallet's total and the pending stakes are as much off the locked funds the other way |
| Guards.NoDriftIsIdle | app/services/reconciliation_service.py:276-292 | after no serial run does a repair rewrite a wallet classed free of drift |
| Witnesses.NoDriftYetRewritten | app/services/reconciliation_service.py:251-292 | a stake edited down by a cent and an overtaken loss of a cent, through the interleaving machine: the wallet is classed free of drift and the repair rewrites it |
| Session.Session.LockAndGetBalance | app/services/ledger_service.py:54-71 | the locked row, inserted empty when missing |
| Session.Session.RecordMovement | app/services/ledger_service.py:74-118 | stake lock against its specification, errors included |
| Session.Session.RecordSettlement | app/services/ledger_service.py:121-297 | settlement of the row, wallet and ledger against its specification |
| Session.Session.ExecuteSettlement | app/services/settlement_engine.py:45-177 | all guards, gate, locks, settlement and outbox row against `Engine.Settle`, with the savepoint restored on error; `Columns.SettlementStores` describes the row |
| Session.Session.AssertFinancialHealth | app/services/reconciliation_service.py:130-149 | the drift gate |
| Session.Session.CreatePick | app/services/pick_service.py:297-352 | creation against its specification, whose row `Columns.CreationStores` describes |
| Session.Session.UpdatePick | app/services/pick_service.py:408-440 | partial edit, field by field, against its specification |
| Session.Session.DeletePick | app/services/pick_service.py:455-475 | deletion as a void settlement |
| Session.Session.ConfirmPick | app/services/pick_service.py:478-498 | confirmation, or rejection as a void settlement |
| Session.Session.ResolvePick | app/routers/picks.py:148-158 | settle, then check the parlays, in one transaction |
| Session.Session.CreateParlay | app/services/parlay_service.py:21-67 | parlay creation against its specification, whose row `ParlayOdds.CreationStores` describes |
| Session.Session.AutoResolveParlaysForPick | app/services/parlay_service.py:103-127 | the loop over parlays, in any order, against its specification |
| Session.Session.FixUserBalance | app/services/reconciliation_service.py:204-329 | repair against its specification, with its report |
| Session.Session.SummarizeFinancialHealth | app/services/reconciliation_service.py:152-190 | the paginated count equals the tally over all wallets, for any batch size from one |
| Session.Session.ReconcileAllUsers | app/services/reconciliation_service.py:404-471 | same counts as the summary, anomalies in id order, one audit row each |
| Audit.HealthPartitionsWallets | app/services/reconciliation_service.py:185-190 | the total is ok plus warning plus critical, each bucket counts exactly its users, each wallet once |
| Audit.AnomaliesExact | app/services/reconciliation_service.py:441-451 | the anomalies are exactly the users that are not fine, once each, by ascending id |
| Keyset.PageIsNext | app/services/reconciliation_service.py:428-461 | resuming after the last id seen returns exactly the next rows, so every row is visited once |
| ParlayRuns.ParlaysStayConsistent | app/services/parlay_service.py:110-126 | over every run: won means every leg won and the potential return paid; lost means no pending leg, some lost leg and nothing paid |
| ParlayRuns.DecidedParlayIsFinal | app/services/parlay_service.py:112-113 | a decided parlay never changes |
| ParlayRuns.OpenIff | app/routers/picks.py:148-158 | throughout a serial run every parlay is open iff a leg is pending, or none is lost and some is push or void: this holds at every moment iff no rejection strands a parlay |
| ParlayRuns.QuietVoidStrandsIff | app/services/pick_service.py:486-487 | an accepted rejection leaves an open parlay of its pick open for a reason iff another leg was pending before or no leg was lost |
| Witnesses.RejectionStrandsAParlay | app/services/pick_service.py:486-487 | a bet and a suggestion in a parlay, the bet resolved lost and the suggestion rejected: the parlay stays open for no reason |
| Resolves.LeftOpenIff | app/services/parlay_service.py:103-127 | over all schedules of any number of workers, a parlay ends open for no reason iff its legs call for a decision and every committed resolve of one made its check before the commit that settled another |
| Resolves.TwoResolvesIff | app/routers/picks.py:148-158 | two committed resolves of different pending legs, in any schedule: the parlay ends open for no reason iff each check came before the other's commit, and the two outcomes with the other legs call for a decision |
| Resolves.OneBalanceNeverMisses | app/services/ledger_service.py:65-69 | legs whose settlements all move their owner's money never miss each other, since the balance row is locked until the first commit |
| Resolves.BetsStay | app/services/parlay_service.py:110-124 | in every schedule of checks and commits parlays agree with their legs, and a decided one never changes |
| Overlap.OverlappingResolvesStrandAParlay | app/routers/picks.py:148-158 | from a seeded system, a bet resolved lost and an unstaked suggestion resolved void by overlapping transactions leave their parlay open for no reason |
| ParlayOdds.CreatedIff | app/services/parlay_service.py:22-42 | exactly which parlays are created |
| ParlayOdds.CreatedOdds | app/services/parlay_service.py:44-47 | a created parlay has the rounded product the pipeline gives the same legs |
| ParlayOdds.CreationStores | app/services/parlay_service.py:44-57 | a created parlay keeps the legs and the stake asked for, has the product of the legs' decimal odds to the nearest 0.0001 and a potential return of stake times odds to the nearest cent, and is open without a result |
| ParlayOdds.ParlaysPayAsPromised | app/services/parlay_service.py:119-124 | over every serial run each parlay's potential return is its stake times its odds, to the nearest cent, and a won parlay has returned that |
| ParlayOdds.PaysAtLeastStake | app/services/parlay_service.py:44-47 | a parlay's odds are at least one, so that its potential return is at least its stake |
| Aggregates.BackfillAgreesWithRecompute | scripts/backfill_aggregates.py:240-278 | for any batch size, backfill and recompute agree on every count, and on each money total up to k + 1 half-cents when k batches touch the row |
| Aggregates.BackfillEqualsRecompute | app/services/aggregate_recompute.py:66-161 | they write the same row when contributions are whole cents |
| Aggregates.KeptPicksAreWholeCents | app/services/aggregate_recompute.py:40-63 | every pick the services keep contributes whole cents |
| Aggregates.RecomputedDescribes | app/services/aggregate_recompute.py:40-63 | the row of a group of kept picks counts them, and each status among them, and holds the sums of their stake, profit and return columns |
| Aggregates.UnfilledContributes | scripts/backfill_aggregates.py:54-77 | a decided pick without result columns contributes what it would with them filled in, to half a cent |
| Aggregates.BucketsPartition | app/services/dashboard_service.py:114-123 | the status buckets of a row partition its picks, so the row check always passes |
| Rollups.AggregateTables.Backfill | scripts/backfill_aggregates.py:225-278 | the loop with truncation or without leaves exactly the touched rows, each the sum of its rounded batches on top of what was there; after a truncation, rows of kept picks describe their groups |
| Rollups.AggregateTables.RecomputeDay | app/services/aggregate_recompute.py:66-161 | the day's row and its sportsbook rows are replaced by the exact totals, rounded once, in any scan order, so that rows of kept picks describe their groups; other days stay |
| Rollups.AggregateTables.Flush | scripts/backfill_aggregates.py:100-166 | additive upsert of both tables |
| Rollups.AggregateTables.Batch | scripts/backfill_aggregates.py:258-263 | the two dictionaries hold exactly the groups a batch touches, with exact totals |
| Rollups.Buckets.Merge | scripts/backfill_aggregates.py:80-97 | one contribution added to one group |
| Rollups.SumPermutes | app/services/aggregate_recompute.py:68-70 | totals do not depend on the order of the rows |
| Rollups.RecomputeAfterBackfill | app/services/aggregate_recompute.py:66-161 | after a backfill of kept picks, rows exist for exactly the touched groups, each describes its group, and a recompute writes the value already there |
| DualRead.SharesAgreeIff | app/services/dashboard_service.py:35-47 | SQL and Python give a pick the same profit iff it is not half settled |
| DualRead.KeptPicksAgree | app/services/pick_service.py:267-286 | the services never keep a half-settled pick |
| DualRead.DualReadAfterRecompute | app/services/dashboard_service.py:191-217 | right after a recompute counts agree and profits differ by the half-settled gap give or take half a cent: no mismatch without such picks, always one beyond a cent and a half |
| DualRead.ValidationPasses | scripts/backfill_aggregates.py:186-222 | after a backfill of kept picks both validation differences are exactly zero, for any batch size |
| Idempotency.AtMostOneCommitPerWindow | app/core/idempotency.py:84-94 | under any interleaving with punctual holders and stored responses, at most one pick is committed per key until its result expires, and never two requests hold the lock |
| Idempotency.StoredResultIsReplayed | app/core/idempotency.py:99-115 | until a stored result expires nothing more is committed under the key, and each request that starts then gets exactly that response for the same body and a mismatch for another |
| Idempotency.RepliesAreJustified | app/routers/picks.py:41-96 | over every such run each created, replayed or mismatch reply stands for a commit that justifies it at that time |
| Idempotency.HeldKeyTurnsAway | app/core/idempotency.py:84-115 | over every such run, while one request holds the key a request that reads it is answered as in progress, and none gets past `begin` |
| Idempotency.AbortReopens | app/core/idempotency.py:84-116 | a holder whose work failed gives the key back: the next request gets it, and one that has only its last read left is still answered as in progress |
| Idempotency.OncePerWindowIff | app/core/idempotency.py:84-94 | under any schedule at all, each commit waits for the result before it to expire iff no holder ever commits while an earlier result is unstored or unexpired |
| Idempotency.LateHolderCommitsTwice | app/core/idempotency.py:85-87 | two identical requests both commit when a holder outlives its lock |
| Idempotency.LostResponseCommitsTwice | app/core/idempotency.py:159-175 | they do too when the response is lost after its commit |
| Idempotency.Redis.BeginPickCreate | app/core/idempotency.py:70-115 | its four commands follow the step machine, whatever others do in between |
| Idempotency.Redis.CompletePickCreate | app/core/idempotency.py:139-164 | the response is stored for the result's time to live |
| Idempotency.Redis.AbortIfProcessing | app/core/idempotency.py:178-187 | frees the key when it looked unfinished, and otherwise leaves a result alone |
| Outbox.DeliveredAtLeastOnce | app/services/outbox_worker.py:12-51 | under any interleaving of workers: batches are disjoint, an event is marked only after delivery, and it is delivered more than once only as often as a delivery was rolled back |
| Outbox.FetchIsOldestFirst | app/services/outbox_worker.py:18-25 | a fetch returns different free rows, oldest first, up to the limit, and skips no older free row |
| Outbox.DeliverEvent | app/services/outbox_worker.py:28-36 | handled and marked once, skipped when marked already |
| Outbox.RunBatch | app/services/outbox_worker.py:39-51 | each fetched event is handled once, in order, and counted |
| Suggestions.SuggestedExactly | app/worker/pipeline/calculator.py:33-66 | exactly the position sets of an allowed size with distinct matches and a rounded product at or above the minimum, each once, in descending order |
| Suggestions.CombinationsAreSubsets | app/worker/pipeline/calculator.py:48 | the combinations of a size are exactly the subsets of that size, each once |
| Suggestions.DistinctIff | app/worker/pipeline/calculator.py:49-51 | comparing the list with its set tests for pairwise distinct matches |
| Suggestions.BuildParlaySuggestions | app/worker/pipeline/calculator.py:33-66 | the nested loops against their specification |
| Suggestions.CutKeepsTheBest | app/worker/pipeline/runner.py:439-446 | no eligible suggestion left out by a cut beats one that was kept |
| Sorting.SortIsStable | app/worker/pipeline/calculator.py:65 | the sort permutes, orders by key, and keeps equal keys in their order |
| BestPrices.FindBestOdds | app/worker/pipeline/runner.py:334-373 | the loops, with their defaults for missing fields, produce exactly the best entries of every named market |
| BestPrices.QuotesAreStated | app/worker/pipeline/runner.py:346-358 | the quotes that count are exactly those that the feed states, with its defaults for what is missing |
| BestPrices.MarketsAreNamed | app/worker/pipeline/runner.py:346-353 | the markets of the result are exactly those that some bookmaker names |
| BestPrices.PicksSayRight | app/worker/pipeline/runner.py:298-329 | each pick carries its outcome's kept price, decimal odds that follow it, the nearest probability to one over those, and the first grade whose threshold it reaches, which is good enough |
| BestPrices.OneEntryPerOutcome | app/worker/pipeline/runner.py:354-372 | one entry per outcome quoted in a market |
| BestPrices.EntryIsRight | app/worker/pipeline/runner.py:359-372 | the price was offered and is the highest, and the entry lists exactly the quotes on its outcome, in input order |
| BestPrices.ProcessMarket | app/worker/pipeline/runner.py:298-329 | the loop that filters and grades the outcomes of a market |
| BestPrices.OutcomeTakenIff | app/worker/pipeline/runner.py:296-329 | an outcome becomes a pick iff its highest number is a price that exists and is graded well enough; no other valid quote pays more; with some valid quote, the highest number does not exist iff every quote is below 100 and some is above -100 |
| BestPrices.TakenAtBestIsTakenAtAny | app/worker/pipeline/runner.py:309-317 | a better price is graded no better, so an outcome taken at its best price is taken at any |
| BestPrices.MissingPriceHidesAQuote | app/worker/pipeline/runner.py:354-364 | a feed in which a bookmaker without a price removes the outcome that another quotes at -110 |
| Odds.AmericanToDecimalMonotone | app/worker/pipeline/calculator.py:4-16 | monotonicity alone, used for the filter of prices: a higher American price never pays less, across the change of sign too |
| Odds.AmericanIsNearest | app/worker/pipeline/calculator.py:13-16 | the decimal odds of an underdog are exactly a / 100 + 1, and a favourite's the nearest representable value to 100 / a + 1 |
| Odds.ClvIsNearest | app/worker/pipeline/calculator.py:26-30 | the closing line value is the nearest hundredth, with the right sign |
| Fiscal.CsvAgreesWithSummary | app/services/fiscal_service.py:82-121 | over the bets that `FiscalYears.BetCountsInItsYear` places in the year, the net of the CSV's pick rows is within won + 1 half-cents of the summary's net, once won bets with zero odds are set aside; without them to that bound, with too many never |
| Fiscal.SummaryAddsUpIff | app/services/fiscal_service.py:212-232 | net equals winnings minus losses iff the winnings do not end in half a cent or the losses are an even number of cents |
| Fiscal.HalfCentYear | app/services/fiscal_service.py:221-233 | a year in which they differ |
| Fiscal.ZeroOddsYear | app/services/fiscal_service.py:301-302 | a year in which CSV and summary differ by the stake of one bet |
| Fiscal.KeptPicksAgree | app/services/fiscal_service.py:300-330 | on the picks the services keep the CSV agrees with the summary to won + 1 half-cents |
| Fiscal.RowIsProfitIff | app/services/fiscal_service.py:307-325 | a kept pick's row shows its stored profit iff it was not won with a return ending in half a cent after an even number of cents |
| Fiscal.TaxableIsPositiveNet | app/services/fiscal_service.py:219-232 | the reported taxable base is the reported net when positive, else zero |
| Fiscal.CsvIsSortedPermutation | app/services/fiscal_service.py:300-364 | the CSV is a date-sorted permutation of the year's pick and transaction rows |
| Fiscal.FiscalDetailRows | app/services/fiscal_service.py:241-364 | the two loops and the sort against their specification, whose rows `FiscalYears` describes |
| FiscalYears.BetCountsInItsYear | app/services/fiscal_service.py:77-121 | wherever the query returns it, a bet enters the winnings, losses, counts and CSV rows of the year in which it was resolved, or while it has no resolution was run, with that date, and of no other year |
| FiscalYears.RowOfBet | app/services/fiscal_service.py:300-325 | the money in a bet's row, for each outcome |
| FiscalYears.OverNewYearCounts | app/services/fiscal_service.py:44-51 | a bet run in 2024 and won in 2025: its gain is in 2025 and 2024 shows nothing of it |
| FiscalYears.FlowsAreNearest | app/services/fiscal_service.py:124-165 | deposits, withdrawals and cash flow are the nearest cents to the year's sums of amount times rate over deposits and bonuses, over withdrawals, and to their difference |
| FiscalYears.CashflowAgrees | app/services/fiscal_service.py:332-359 | the net of the CSV's transaction rows is within a half-cent per transaction and one more of the summary's cash flow, once commissions and refunds of voids are set aside; without them to that bound, with too many never |
| FiscalYears.CommissionSeparates | app/services/fiscal_service.py:342-344 | a year in which CSV and summary differ by a commission |
| FiscalYears.CsvIsChronological | app/services/fiscal_service.py:361-362 | the rows come in the order of the calendar |

## Left out

- Column widths and overflow: amounts are unbounded integers, and Decimal arithmetic is exact rather than 28 digits.
- IEEE floats: `round` of odds, closing line value and parlay odds is ideal rounding half to even.
- Grades and implied probabilities as columns of a pick, and its selection text; only the pipeline's use of them to filter prices is modelled.
- The validator's test that timestamps carry the UTC offset, and time zones in general.
- Pick, user and parlay ids are naturals, and ids generated for new picks are fresh.
- `update_pick`, `confirm_pick`, `delete_pick` and `create_parlay` read without locks and are atomic steps only; in the interleaved model a deletion or rejection is its settlement.
- A unique violation in an interleaving is an abort: blocking on another transaction's uncommitted key is not modelled.
- Serializability.InterleavingIsSerial: the serial run stamps its own ledger lines, so `created_at` of the lines is not compared. A misled repair is excluded, exactly as `Repairs.SerialIffNeverMisled` says.
- Concurrency.NoDeadlock: stops where a settlement ends. The row locks that the resolve endpoint then takes on parlays are not modelled: `Resolves` lets a commit write its decisions at once, so its schedules include those that such locks allow, and a circle of waits on parlay rows is not excluded.
- Resolves.LeftOpenIff: a check reads its parlay and its legs in one statement, rereads a leg that another check of the same request has read, and parlays are not created meanwhile.
- SETTLEMENT_STATUS_INVALID, SETTLEMENT_USER_MISMATCH and LEDGER_TYPE_UNSUPPORTED cannot be raised from the modelled callers.
- Wallet deposits and withdrawals; audit rows of repairs; Redis counters, logs, caches and metrics.
- The Celery recompute, its coalescing lock and the freshness of aggregates; the dashboard's staleness test, totals, return and ROI.
- Rollups.AggregateTables.Backfill: interruption between batches is not modelled, and the rows per sportsbook also carry status counts, which their table has no columns for.
- Requests without an idempotency key, and keys other than the one modelled, which share no state with it.
- Suggestions.BuildParlaySuggestions: `itertools.combinations` and `list.sort` are library calls given by their specification; the pipeline's own parlay rows are not added to the tables.
- BestPrices.FindBestOdds: the entries are values of a map, not dictionaries updated through shared references.
- Rows that queries return without a complete order (equal dates, equal `created_at`) come in any fixed order.
- Fiscal: cash flow by sportsbook, text columns of the CSV, and calendar years outside four digits.
- The odds API client, match upsert, pick CRUD queries, streaks, authentication and migrations beyond the two unique indexes.
