/** The pick, its lifecycle and its settlement arithmetic (`app/services/pick_service.py`,
    `app/models/pick.py`). */
module Domain {
  import opened Money

  datatype Option<+T> = None | Some(value: T)

  datatype Result<+T> = Ok(value: T) | Err(error: Error)

  /** One constructor per error the services raise. */
  datatype Error =
    | PickNotFound | PickAlreadyResolved | PickNotPending | PickInParlay | PickNotFromPipeline
    | TerminalStateConflict | PickOwnershipMismatch | SettlementAlreadyDecided | SettlementRace
    | SettlementAmbiguous | SettlementTypeMismatch | SettlementPickNotPending
    | SettlementBalanceRequired | CriticalInvariantBroken | FinancialStateCorrupted
    | UserBalanceNotFound | RepairUnsafeState | RepairInvariantViolation
    | LedgerAmountInvalid | InsufficientAvailable | UserIdRequired | UniqueViolation | NotNullViolation
    | OddsInvalid | ClosingOddsInvalid | ResolveToPending
    | PicksNotFound | ParlayDuplicateMatch | ParlayPickNotPending | ParlaySize
    | TerminalRequiresResolvedAt | PendingRequiresNoResolvedAt | ResolvedBeforeCreated | StakeInvalid
    | StakeImmutable | OddsImmutable | MarketImmutable | StatusImmutable | InvalidTransition
    | PendingProfit | PendingSettlement | VoidProfit | ResolvedRequiresStake | ProfitRequired | ProfitMismatch

  type UserId = nat
  type PickId = nat
  type ParlayId = nat

  const DEFAULT_USER: UserId := 1

  datatype Status = Pending | Won | Lost | Push | Void {
    predicate Terminal() {
      !Pending?
    }
  }

  datatype Source = Manual | Pipeline

  /** A stored row: `settledReturn` and `profit` are rounded to cents. */
  datatype Pick = Pick(
    owner: Option<UserId>,
    matchId: nat,
    book: nat,
    runDate: int,
    market: string,
    oddsAmerican: int,
    odds: int,
    stake: Option<int>,
    status: Status,
    source: Source,
    closing: Option<int>,
    clv: Option<int>,
    confirmedAt: Option<int>,
    createdAt: int,
    resolvedAt: Option<int>,
    settledReturn: Option<int>,
    profit: Option<int>)

  /** Money moves only for a pick with an owner and a positive stake. */
  predicate Financial(p: Pick) {
    p.owner.Some? && p.stake.Some? && p.stake.value > 0
  }

  /** The in-memory object before its flush: the two settlement results are still exact. */
  datatype Draft = Draft(row: Pick, settledReturn: Option<int>, profit: Option<int>)

  function RoundOption(micros: Option<int>): Option<int> {
    if micros.None? then None else Some(ToCents(micros.value))
  }

  function ExactOption(cents: Option<int>): Option<int> {
    if cents.None? then None else Some(FromCents(cents.value))
  }

  function Flush(d: Draft): Pick {
    d.row.(settledReturn := RoundOption(d.settledReturn), profit := RoundOption(d.profit))
  }

  function Load(p: Pick): Draft {
    Draft(p, ExactOption(p.settledReturn), ExactOption(p.profit))
  }

  // ---- Settlement arithmetic, in micros ----

  function ExpectedProfit(status: Status, stake: Option<int>, odds: int): Option<int> {
    if stake.None? then None
    else match status
      case Won => Some(stake.value * odds - FromCents(stake.value))
      case Lost => Some(-FromCents(stake.value))
      case Push => Some(0)
      case Void => Some(0)
      case Pending => None
  }

  /** (settled_return, profit) of a status, exact. */
  function SettlementFor(status: Status, stake: Option<int>, odds: int): (Option<int>, Option<int>) {
    if stake.None? then
      if status.Void? then (None, Some(0)) else (None, None)
    else match status
      case Won => (Some(stake.value * odds), Some(stake.value * odds - FromCents(stake.value)))
      case Lost => (Some(0), Some(-FromCents(stake.value)))
      case Push => (Some(FromCents(stake.value)), Some(0))
      case Void => (Some(FromCents(stake.value)), Some(0))
      case Pending => (None, None)
  }

  /** What the two columns hold once a pick with this outcome has been flushed. */
  predicate HoldsSettlement(p: Pick) {
    var s := SettlementFor(p.status, p.stake, p.odds);
    p.settledReturn == RoundOption(s.0) && p.profit == RoundOption(s.1)
  }

  /** The accounting assertion made right after a settlement can never fire. */
  lemma AccountingAssertionHolds(status: Status, stake: Option<int>, odds: int)
    ensures ExpectedProfit(status, stake, odds).Some? ==>
              SettlementFor(status, stake, odds).1 == ExpectedProfit(status, stake, odds)
    ensures ExpectedProfit(status, stake, odds).None? ==>
              stake.None? || status.Pending?
  {
  }

  // ---- DomainValidator ----

  /** The default `pick_profit_tolerance` of 0.02, in micros. */
  const PROFIT_TOLERANCE: int := 20_000

  function Lifecycle(d: Draft): Option<Error> {
    var p := d.row;
    if p.status.Terminal() && p.resolvedAt.None? then Some(TerminalRequiresResolvedAt)
    else if p.status.Pending? && p.resolvedAt.Some? then Some(PendingRequiresNoResolvedAt)
    else if p.resolvedAt.Some? && p.resolvedAt.value < p.createdAt then Some(ResolvedBeforeCreated)
    else if p.stake.Some? && p.stake.value <= 0 then Some(StakeInvalid)
    else None
  }

  function Frozen(p: Pick, prior: Pick): Option<Error> {
    if p.stake != prior.stake then Some(StakeImmutable)
    else if p.oddsAmerican != prior.oddsAmerican then Some(OddsImmutable)
    else if p.odds != prior.odds then Some(OddsImmutable)
    else if p.market != prior.market then Some(MarketImmutable)
    else None
  }

  function Transition(p: Pick, prior: Pick): Option<Error> {
    if prior.resolvedAt.Some? && Frozen(p, prior).Some? then Frozen(p, prior)
    else if prior.status.Terminal() then
      if p.status != prior.status then Some(StatusImmutable) else Frozen(p, prior)
    else if p.status != prior.status && !p.status.Terminal() then Some(InvalidTransition)
    else None
  }

  function Accounting(d: Draft, tolerance: int): Option<Error> {
    var p := d.row;
    if p.status.Pending? && d.profit.Some? then Some(PendingProfit)
    else if p.status.Pending? && d.settledReturn.Some? then Some(PendingSettlement)
    else if p.status.Void? && d.profit != Some(0) then Some(VoidProfit)
    else if p.status.Won? || p.status.Lost? || p.status.Push? then
      if p.stake.None? || p.stake.value <= 0 then Some(ResolvedRequiresStake)
      else
        var expected := ExpectedProfit(p.status, p.stake, p.odds);
        if d.profit.None? || expected.None? then Some(ProfitRequired)
        else if Abs(d.profit.value - expected.value) > tolerance then Some(ProfitMismatch)
        else None
    else None
  }

  /** `DomainValidator.validate`: the first violated rule, if any. */
  function Validate(d: Draft, prior: Option<Pick>, tolerance: int): Option<Error> {
    if Lifecycle(d).Some? then Lifecycle(d)
    else if prior.Some? && Transition(d.row, prior.value).Some? then Transition(d.row, prior.value)
    else Accounting(d, tolerance)
  }

  /** Everything the validator promises of a row it lets through, given the row before. A pick that was resolved
      keeps its terms and, once terminal, its status. */
  predicate LegalRow(d: Draft, prior: Option<Pick>, tolerance: int) {
    var p := d.row;
    && (p.status.Pending? <==> p.resolvedAt.None?)
    && (p.resolvedAt.Some? ==> p.resolvedAt.value >= p.createdAt)
    && (p.stake.Some? ==> p.stake.value > 0)
    && (prior.Some? && (prior.value.status.Terminal() || prior.value.resolvedAt.Some?) ==>
          && p.stake == prior.value.stake && p.market == prior.value.market
          && p.oddsAmerican == prior.value.oddsAmerican && p.odds == prior.value.odds)
    && (prior.Some? && prior.value.status.Terminal() ==> p.status == prior.value.status)
    && match p.status
       case Pending => d.profit.None? && d.settledReturn.None?
       case Void => d.profit == Some(0)
       case Won => p.stake.Some? && d.profit.Some? && Abs(d.profit.value - p.stake.value * (p.odds - 10_000)) <= tolerance
       case Lost => p.stake.Some? && d.profit.Some? && Abs(d.profit.value + 10_000 * p.stake.value) <= tolerance
       case Push => p.stake.Some? && d.profit.Some? && Abs(d.profit.value) <= tolerance
  }

  /** The validator lets through exactly the legal rows. */
  lemma ValidatorAcceptsIff(d: Draft, prior: Option<Pick>, tolerance: int)
    ensures Validate(d, prior, tolerance).None? <==> LegalRow(d, prior, tolerance)
  {
    if d.row.stake.Some? {
      assert d.row.stake.value * (d.row.odds - 10_000) == d.row.stake.value * d.row.odds - FromCents(d.row.stake.value);
    }
  }

  // ---- Settling a pick in memory ----

  function Resolved(p: Pick, status: Status, now: int): Draft {
    var s := SettlementFor(status, p.stake, p.odds);
    Draft(p.(status := status, resolvedAt := Some(now)), s.0, s.1)
  }

  /** A pick as every service keeps it. */
  predicate PickOk(p: Pick) {
    && (p.stake.Some? ==> p.stake.value > 0)
    && p.odds >= ODDS_ONE
    && (p.status.Pending? <==> p.resolvedAt.None?)
    && (p.resolvedAt.Some? ==> p.resolvedAt.value >= p.createdAt)
    && HoldsSettlement(p)
    && (p.status.Won? || p.status.Lost? || p.status.Push? ==> p.stake.Some?)
  }

  /** Settling a well-kept pending pick passes the validator exactly when an outcome other than
      void has a stake and the clock has not run behind the row's creation. */
  lemma ResolvedValidates(p: Pick, q: Pick, status: Status, now: int)
    requires PickOk(p) && p.status.Pending? && status.Terminal()
    requires q == p.(closing := q.closing, clv := q.clv)
    ensures Validate(Resolved(q, status, now), Some(p), PROFIT_TOLERANCE).None?
       <==> (status.Void? || p.stake.Some?) && now >= p.createdAt
    ensures Validate(Resolved(q, status, now), Some(p), PROFIT_TOLERANCE).None? ==> PickOk(Flush(Resolved(q, status, now)))
  {
  }

  /** The validator accepts the stored row of a settled pick: rounding its profit to cents stays
      within the default tolerance, so re-reading and re-validating it cannot fail. */
  lemma StoredRowValidates(p: Pick)
    requires PickOk(p)
    ensures Validate(Load(p), Some(p), PROFIT_TOLERANCE).None?
  {
    var expected := ExpectedProfit(p.status, p.stake, p.odds);
    if expected.Some? {
      ToCentsError(expected.value);
    }
  }
}
