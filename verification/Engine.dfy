/** The services as functions from one committed state of the tables to the next
    (`app/services/ledger_service.py`, `settlement_engine.py`, `pick_service.py`, `parlay_service.py`).

    Each service is split into the rows it reads, a pure decision that turns those rows into a
    `Write`, and the publication of that write. An error stands for a raised exception, whose
    rollback leaves the tables as they were. */
module Engine {
  import opened Money
  import opened Odds
  import opened Domain
  import opened Tables
  import opened Reconciliation

  // ---- Writes ----

  /** Everything one transaction of the engine inserts or updates. */
  datatype Write = Write(wallet: Option<(UserId, Wallet)>, pid: PickId, pick: Pick,
                         line: Option<Entry>, event: Option<Event>)

  function Publish(db: Db, w: Write): Db {
    Db(if w.wallet.Some? then db.wallets[w.wallet.value.0 := w.wallet.value.1] else db.wallets,
       db.picks[w.pid := w.pick],
       if w.line.Some? then db.ledger + [w.line.value] else db.ledger,
       if w.event.Some? then db.outbox + [w.event.value] else db.outbox,
       db.parlays)
  }

  /** `lock_and_get_balance`: the row, inserted empty when there was none. */
  function WalletOf(db: Db, u: UserId): Wallet {
    if u in db.wallets then db.wallets[u] else Wallet(0, 0)
  }

  // ---- record_movement ----

  /** Moving a stake from available to locked, with its ledger line. */
  function StakeLockOn(u: UserId, w: Wallet, amount: int, ref: PickId, at: int): Result<(Wallet, Entry)> {
    if amount <= 0 then Err(LedgerAmountInvalid)
    else if w.available < amount then Err(InsufficientAvailable)
    else
      var moved := Wallet(w.available - amount, w.locked + amount);
      Ok((moved, Entry(u, amount, StakeLock, ref, moved.available, moved.locked, at)))
  }

  // ---- record_settlement ----

  function LineType(status: Status): EntryType
    requires status.Terminal()
  {
    match status
    case Won => Payout
    case Lost => Loss
    case Push => Refund
    case Void => Refund
  }

  /** The new balances and the line amount, exact (in micros). */
  datatype Movement = Movement(available: int, locked: int, amount: int)

  function Settling(w: Wallet, status: Status, stake: int, profit: Option<int>): Movement {
    var locked := FromCents(w.locked) - FromCents(stake);
    if status.Won? then
      var payout := FromCents(stake) + (if profit.Some? then profit.value else 0);
      Movement(FromCents(w.available) + payout, locked, payout)
    else if status.Lost? then
      Movement(FromCents(w.available), locked, FromCents(stake))
    else
      Movement(FromCents(w.available) + FromCents(stake), locked, FromCents(stake))
  }

  /** The balances and the ledger line of a settlement whose owner's wallet is locked. */
  function MoneySettled(pid: PickId, u: UserId, w: Wallet, status: Status, stake: int, profit: Option<int>,
                        lineTaken: bool, at: int): Result<(Wallet, Entry)>
    requires status.Terminal()
  {
    var m := Settling(w, status, stake, profit);
    if m.available < 0 || m.locked < 0 then Err(CriticalInvariantBroken)
    else if lineTaken then Err(SettlementRace)
    else
      var settled := Wallet(ToCents(m.available), ToCents(m.locked));
      Ok((settled, Entry(u, ToCents(m.amount), LineType(status), pid, settled.available, settled.locked, at)))
  }

  /** Settlement of `q` (the row read as `prior`, with closing odds set) given the settlement
      lines its pick already has and, when money moves, the owner's locked wallet. */
  function RecordSettlement(pid: PickId, q: Pick, prior: Pick, rows: seq<Entry>, wallet: Option<Wallet>,
                            lineTaken: bool, status: Status, now: int, at: int): Result<Write>
    requires status.Terminal()
  {
    var d := Resolved(q, status, now);
    var fault := Validate(d, Some(prior), PROFIT_TOLERANCE);
    if |rows| > 1 then Err(SettlementAmbiguous)
    else if |rows| == 1 then
      if rows[0].kind != LineType(status) then Err(SettlementTypeMismatch)
      else if q.status.Terminal() then Ok(Write(None, pid, q, None, None))
      else if fault.Some? then Err(fault.value)
      else Ok(Write(None, pid, Flush(d), None, None))
    else if !q.status.Pending? then Err(SettlementPickNotPending)
    else if !Financial(q) then
      if fault.Some? then Err(fault.value) else Ok(Write(None, pid, Flush(d), None, None))
    else if wallet.None? then Err(SettlementBalanceRequired)
    else if wallet.value.available < 0 || wallet.value.locked < q.stake.value then Err(CriticalInvariantBroken)
    else if fault.Some? then Err(fault.value)
    else
      match MoneySettled(pid, q.owner.value, wallet.value, status, q.stake.value, d.profit, lineTaken, at)
      case Err(e) => Err(e)
      case Ok((settled, line)) => Ok(Write(Some((q.owner.value, settled)), pid, Flush(d), Some(line), None))
  }

  // ---- execute_settlement ----

  datatype Verdict = NoOp | Refuse(error: Error) | Proceed(pick: Pick)

  function WithClosing(p: Pick, closing: Option<int>): Pick
    requires closing.Some? ==> closing.value > 0
  {
    if closing.None? then p else p.(closing := closing, clv := Some(Clv(p.odds, closing.value)))
  }

  /** The guards passed with the pick row locked, in their order. */
  function Judge(p: Pick, target: Status, decided: bool, closing: Option<int>): Verdict {
    if p.status == target then NoOp
    else if p.status.Terminal() then Refuse(TerminalStateConflict)
    else if p.owner.Some? && p.owner.value != DEFAULT_USER then Refuse(PickOwnershipMismatch)
    else if target.Void? && decided then Refuse(SettlementAlreadyDecided)
    else if closing.Some? && closing.value <= 0 then Refuse(ClosingOddsInvalid)
    else Proceed(WithClosing(p, closing))
  }

  /** Settlement and its outbox row. */
  function SettleWrite(pid: PickId, q: Pick, prior: Pick, rows: seq<Entry>, wallet: Option<Wallet>,
                       lineTaken: bool, keyTaken: bool, status: Status, now: int, at: int): Result<Write>
    requires status.Terminal()
  {
    match RecordSettlement(pid, q, prior, rows, wallet, lineTaken, status, now, at)
    case Err(e) => Err(e)
    case Ok(w) =>
      if keyTaken then Err(SettlementRace)
      else Ok(w.(event := Some(PickSettled(pid, q.owner, status))))
  }

  /** The settlement of `q`, whose guards have passed: drift gate, balance lock, records. */
  function Complete(db: Db, pid: PickId, q: Pick, prior: Pick, target: Status, now: int, at: int): Result<Db>
    requires target.Terminal()
  {
    if Financial(q) && DriftGate(db, q.owner.value).Some? then Err(DriftGate(db, q.owner.value).value)
    else
      var wallet := if Financial(q) then Some(WalletOf(db, q.owner.value)) else None;
      match SettleWrite(pid, q, prior, Settlements(db.ledger, pid), wallet, LineTaken(db.ledger, pid, LineType(target)),
                        KeyTaken(db.outbox, SettledKey(pid, target)), target, now, at)
      case Err(e) => Err(e)
      case Ok(w) => Ok(Publish(db, w))
  }

  function Settle(db: Db, pid: PickId, target: Status, closing: Option<int>, now: int, at: int): Result<Db> {
    if pid !in db.picks then Err(PickNotFound)
    else
      match Judge(db.picks[pid], target, Decided(db.ledger, pid), closing)
      case NoOp => Ok(db)
      case Refuse(e) => Err(e)
      case Proceed(q) => Complete(db, pid, q, db.picks[pid], target, now, at)
  }

  // ---- create_pick ----

  datatype NewPick = NewPick(pid: PickId, user: Option<UserId>, matchId: nat, book: nat, runDate: int, market: string,
                             oddsAmerican: int, stake: Option<int>, source: Source, createdAt: int)

  predicate Staked(r: NewPick) {
    r.stake.Some? && r.stake.value > 0
  }

  function FreshPick(r: NewPick): Pick
    requires ValidAmerican(r.oddsAmerican)
  {
    Pick(if Staked(r) then r.user else None, r.matchId, r.book, r.runDate, r.market, r.oddsAmerican,
         AmericanToDecimal(r.oddsAmerican), r.stake, Status.Pending, r.source, None, None, None, r.createdAt, None, None, None)
  }

  /** Creation given the owner's locked wallet and the state of the unique indexes. */
  function CreateWrite(r: NewPick, w: Wallet, pickTaken: bool, lineTaken: bool, keyTaken: bool, at: int): Result<Write> {
    if !ValidAmerican(r.oddsAmerican) then Err(OddsInvalid)
    else
      var p := FreshPick(r);
      var fault := Validate(Load(p), None, PROFIT_TOLERANCE);
      if fault.Some? then Err(fault.value)
      else if !Staked(r) then
        if pickTaken then Err(UniqueViolation) else Ok(Write(None, r.pid, p, None, None))
      else if r.user.None? then Err(UserIdRequired)
      else
        match StakeLockOn(r.user.value, w, r.stake.value, r.pid, at)
        case Err(e) => Err(e)
        case Ok((moved, line)) =>
          if pickTaken || lineTaken || keyTaken then Err(UniqueViolation)
          else Ok(Write(Some((r.user.value, moved)), r.pid, p, Some(line),
                        Some(PickCreated(r.pid, r.user.value, r.stake.value))))
  }

  function CreatePick(db: Db, r: NewPick, at: int): Result<Db> {
    var w := if r.user.Some? then WalletOf(db, r.user.value) else Wallet(0, 0);
    match CreateWrite(r, w, r.pid in db.picks, LineTaken(db.ledger, r.pid, StakeLock), KeyTaken(db.outbox, CreatedKey(r.pid)), at)
    case Err(e) => Err(e)
    case Ok(write) => Ok(Publish(db, write))
  }

  // ---- update_pick ----

  /** A field of a partial update: absent, or present with a value that may be null. */
  datatype Edit<+T> = Keep | Set(value: T)

  datatype Changes = Changes(odds: Edit<Option<int>>, stake: Edit<Option<int>>, market: Edit<Option<string>>)

  function Edited(p: Pick, c: Changes): Result<Pick> {
    if c.odds.Set? && (c.odds.value.None? || !ValidAmerican(c.odds.value.value)) then Err(OddsInvalid)
    else
      var q := if c.odds.Set? then p.(oddsAmerican := c.odds.value.value, odds := AmericanToDecimal(c.odds.value.value)) else p;
      var r := if c.stake.Set? then q.(stake := c.stake.value) else q;
      var s := if c.market.Set? && c.market.value.Some? then r.(market := c.market.value.value) else r;
      var fault := Validate(Load(s), Some(p), PROFIT_TOLERANCE);
      if fault.Some? then Err(fault.value)
      else if c.market.Set? && c.market.value.None? then Err(NotNullViolation)
      else Ok(s)
  }

  function UpdatePick(db: Db, pid: PickId, c: Changes): Result<Db> {
    if pid !in db.picks then Err(PickNotFound)
    else if !db.picks[pid].status.Pending? then Err(PickAlreadyResolved)
    else
      match Edited(db.picks[pid], c)
      case Err(e) => Err(e)
      case Ok(q) => Ok(db.(picks := db.picks[pid := q]))
  }

  // ---- delete_pick and confirm_pick ----

  predicate InParlay(db: Db, pid: PickId) {
    exists q :: q in db.parlays && pid in db.parlays[q].legs
  }

  function DeletePick(db: Db, pid: PickId, now: int, at: int): Result<Db> {
    if pid !in db.picks then Err(PickNotFound)
    else if !db.picks[pid].status.Pending? then Err(PickNotPending)
    else if InParlay(db, pid) then Err(PickInParlay)
    else Settle(db, pid, Status.Void, None, now, at)
  }

  function ConfirmPick(db: Db, pid: PickId, confirmed: bool, now: int, at: int): Result<Db> {
    if pid !in db.picks then Err(PickNotFound)
    else if !db.picks[pid].source.Pipeline? then Err(PickNotFromPipeline)
    else if !confirmed then Settle(db, pid, Status.Void, None, now, at)
    else
      var q := db.picks[pid].(confirmedAt := Some(now));
      var fault := Validate(Load(q), Some(db.picks[pid]), PROFIT_TOLERANCE);
      if fault.Some? then Err(fault.value) else Ok(db.(picks := db.picks[pid := q]))
  }

  // ---- Parlays ----

  function LegStatus(picks: map<PickId, Pick>, leg: PickId): Status {
    if leg in picks then picks[leg].status else Status.Pending
  }

  predicate SomeLeg(picks: map<PickId, Pick>, legs: seq<PickId>, s: Status) {
    exists i :: 0 <= i < |legs| && LegStatus(picks, legs[i]) == s
  }

  predicate EveryLeg(picks: map<PickId, Pick>, legs: seq<PickId>, s: Status) {
    forall i :: 0 <= i < |legs| ==> LegStatus(picks, legs[i]) == s
  }

  /** The check made on one parlay after one of its legs was resolved. */
  function AutoResolve(q: Parlay, picks: map<PickId, Pick>): Parlay {
    if !q.status.Open? || SomeLeg(picks, q.legs, Status.Pending) then q
    else if EveryLeg(picks, q.legs, Status.Won) then q.(status := ParlayStatus.Won, actualReturn := Some(q.potentialReturn))
    else if SomeLeg(picks, q.legs, Status.Lost) then q.(status := ParlayStatus.Lost, actualReturn := Some(0))
    else q
  }

  function AutoResolveParlays(db: Db, pid: PickId): Db {
    db.(parlays := map q | q in db.parlays ::
          if pid in db.parlays[q].legs then AutoResolve(db.parlays[q], db.picks) else db.parlays[q])
  }

  function ResolvePick(db: Db, pid: PickId, target: Status, closing: Option<int>, now: int, at: int): Result<Db> {
    if target.Pending? then Err(ResolveToPending)
    else
      match Settle(db, pid, target, closing, now, at)
      case Err(e) => Err(e)
      case Ok(settled) => Ok(AutoResolveParlays(settled, pid))
  }

  /** Product of decimal odds, scaled by 10^(4 |legs|). */
  function OddsProduct(picks: map<PickId, Pick>, legs: seq<PickId>): int {
    if legs == [] then 1
    else OddsProduct(picks, legs[..|legs| - 1]) * (if legs[|legs| - 1] in picks then picks[legs[|legs| - 1]].odds else ODDS_ONE)
  }

  function Pow10k(n: nat): (p: int)
    ensures p > 0
  {
    if n == 0 then 1 else 10_000 * Pow10k(n - 1)
  }

  function CreateParlay(db: Db, q: ParlayId, legs: seq<PickId>, stake: int): Result<Db> {
    if !(2 <= |legs| <= 8) then Err(ParlaySize)
    else if (exists i :: 0 <= i < |legs| && legs[i] !in db.picks) || (exists i, j :: 0 <= i < j < |legs| && legs[i] == legs[j])
    then Err(PicksNotFound)
    else if exists i, j :: 0 <= i < j < |legs| && db.picks[legs[i]].matchId == db.picks[legs[j]].matchId
    then Err(ParlayDuplicateMatch)
    else if exists i :: 0 <= i < |legs| && !db.picks[legs[i]].status.Pending? then Err(ParlayPickNotPending)
    else if q in db.parlays then Err(UniqueViolation)
    else
      var total := HalfEven(OddsProduct(db.picks, legs), Pow10k(|legs| - 1));
      var potential := HalfEven(stake * total, ODDS_ONE);
      Ok(db.(parlays := db.parlays[q := Parlay(legs, stake, total, potential, None, Open)]))
  }

  // ---- One request, and runs of requests ----

  datatype Op =
    | Create(request: NewPick)
    | Resolve(pid: PickId, target: Status, closing: Option<int>)
    | Delete(pid: PickId)
    | Confirm(pid: PickId, confirmed: bool)
    | Update(pid: PickId, changes: Changes)
    | Repair(user: UserId)
    | AddParlay(parlay: ParlayId, legs: seq<PickId>, stake: int)

  /** A request with the application clock it reads and the start of its transaction. */
  datatype Request = Request(op: Op, now: int, at: int)

  function Execute(db: Db, r: Request): Result<Db> {
    match r.op
    case Create(request) => CreatePick(db, request, r.at)
    case Resolve(pid, target, closing) => ResolvePick(db, pid, target, closing, r.now, r.at)
    case Delete(pid) => DeletePick(db, pid, r.now, r.at)
    case Confirm(pid, confirmed) => ConfirmPick(db, pid, confirmed, r.now, r.at)
    case Update(pid, changes) => UpdatePick(db, pid, changes)
    case Repair(user) => FixUserBalance(db, user)
    case AddParlay(parlay, legs, stake) => CreateParlay(db, parlay, legs, stake)
  }

  /** The tables after one request; a raised error rolls everything back. */
  function After(db: Db, r: Request): Db {
    match Execute(db, r)
    case Ok(next) => next
    case Err(_) => db
  }

  /** The tables after a run. */
  function Run(db: Db, rs: seq<Request>): Db {
    if rs == [] then db else After(Run(db, rs[..|rs| - 1]), rs[|rs| - 1])
  }

  /** Requests served one after the other: each transaction starts no earlier than the last. */
  ghost predicate Serial(rs: seq<Request>, start: int) {
    && (forall i, j :: 0 <= i <= j < |rs| ==> rs[i].at <= rs[j].at)
    && (forall i :: 0 <= i < |rs| ==> start <= rs[i].at)
  }
}
