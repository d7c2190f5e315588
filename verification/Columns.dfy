/** What the columns of a pick hold, after each service and over every run. */
module Columns {
  import opened Money
  import opened Odds
  import opened Domain
  import opened Tables
  import opened Reconciliation
  import opened Engine
  import opened Invariants
  import opened Runs

  // ---- What a settlement stores ----

  /** The two result columns of an outcome. A win returns stake times odds to the nearest cent. */
  predicate ResultColumns(p: Pick) {
    match p.status
    case Won =>
      && p.stake.Some? && p.settledReturn.Some? && p.profit.Some?
      && 2 * Abs(10_000 * p.settledReturn.value - p.stake.value * p.odds) <= 10_000
      && 2 * Abs(10_000 * p.profit.value - p.stake.value * (p.odds - 10_000)) <= 10_000
    case Lost => p.stake.Some? && p.settledReturn == Some(0) && p.profit == Some(-p.stake.value)
    case Push => p.stake.Some? && p.settledReturn == p.stake && p.profit == Some(0)
    case Void => p.settledReturn == p.stake && p.profit == Some(0)
    case Pending => p.settledReturn == None && p.profit == None
  }

  /** The closing price and the relative gain of the bet over it, in percent to the nearest hundredth:
      positive when the bet was at the better price, negative when at the worse. */
  predicate ClosingColumns(p: Pick) {
    if p.closing.None? then p.clv.None?
    else
      && p.clv.Some? && p.closing.value > 0
      && 2 * Abs(p.closing.value * p.clv.value - (p.odds - p.closing.value) * 10_000) <= p.closing.value
      && (p.odds >= p.closing.value ==> p.clv.value >= 0)
      && (p.odds <= p.closing.value ==> p.clv.value <= 0)
  }

  lemma ClosingIsStored(p: Pick, closing: Option<int>)
    requires closing.Some? ==> closing.value > 0
    ensures closing.None? ==> WithClosing(p, closing) == p
    ensures closing.Some? ==> ClosingColumns(WithClosing(p, closing)) && WithClosing(p, closing).closing == closing
    ensures WithClosing(p, closing) == p.(closing := WithClosing(p, closing).closing, clv := WithClosing(p, closing).clv)
  {
    if closing.Some? {
      ClvIsNearest(p.odds, closing.value);
    }
    hide Clv;
  }

  lemma ResultIsStored(q: Pick, prior: Pick, target: Status, now: int)
    requires target.Terminal() && Validate(Resolved(q, target, now), Some(prior), PROFIT_TOLERANCE).None?
    ensures ResultColumns(Flush(Resolved(q, target, now)))
  {
    if q.stake.Some? {
      var s := q.stake.value;
      ToCentsError(s * q.odds);
      ToCentsError(s * q.odds - FromCents(s));
      Expand(s, q.odds);
      ToCentsExact(s);
      ToCentsExact(-s);
    }
    ToCentsExact(0);
  }

  lemma Expand(stake: int, odds: int)
    ensures stake * (odds - ODDS_ONE) == stake * odds - FromCents(stake)
  {
  }

  /** An accepted settlement of a pending pick stores its outcome, the clock it read and the closing odds it was
      given, if any, and changes nothing else of the row. */
  lemma SettlementStores(db: Db, pid: PickId, target: Status, closing: Option<int>, now: int, at: int)
    requires pid in db.picks && db.picks[pid].status.Pending? && target.Terminal()
    requires Settle(db, pid, target, closing, now, at).Ok?
    ensures pid in Settle(db, pid, target, closing, now, at).value.picks
    ensures
      var p, q := db.picks[pid], Settle(db, pid, target, closing, now, at).value.picks[pid];
      && q == p.(status := target, resolvedAt := Some(now), closing := q.closing, clv := q.clv,
                 settledReturn := q.settledReturn, profit := q.profit)
      && (closing.None? ==> q.closing == p.closing && q.clv == p.clv)
      && (closing.Some? ==> q.closing == closing && ClosingColumns(q))
      && ResultColumns(q)
  {
    var p := db.picks[pid];
    SettleIsFlush(db, pid, target, closing, now, at);
    ClosingIsStored(p, closing);
    ResultIsStored(WithClosing(p, closing), p, target, now);
    hide Settle, WithClosing, Validate, ToCents;
  }

  lemma SettleIsFlush(db: Db, pid: PickId, target: Status, closing: Option<int>, now: int, at: int)
    requires pid in db.picks && db.picks[pid].status.Pending? && target.Terminal()
    requires Settle(db, pid, target, closing, now, at).Ok?
    ensures closing.Some? ==> closing.value > 0
    ensures
      var d := Resolved(WithClosing(db.picks[pid], closing), target, now);
      && Validate(d, Some(db.picks[pid]), PROFIT_TOLERANCE).None?
      && Settle(db, pid, target, closing, now, at).value.picks == db.picks[pid := Flush(d)]
  {
    hide RecordSettlement, Validate, Clv, DriftGate, Decided, Settlements, LineTaken, KeyTaken, SettlementFor, Flush, Resolved;
    var p, q := db.picks[pid], WithClosing(db.picks[pid], closing);
    var wallet := if Financial(q) then Some(WalletOf(db, q.owner.value)) else None;
    RecordIsFlush(pid, q, p, Settlements(db.ledger, pid), wallet, LineTaken(db.ledger, pid, LineType(target)), target, now, at);
  }

  lemma RecordIsFlush(pid: PickId, q: Pick, prior: Pick, rows: seq<Entry>, wallet: Option<Wallet>, lineTaken: bool,
                      target: Status, now: int, at: int)
    requires target.Terminal() && q.status.Pending?
    ensures
      var d, r := Resolved(q, target, now), RecordSettlement(pid, q, prior, rows, wallet, lineTaken, target, now, at);
      r.Ok? ==>
        Validate(d, Some(prior), PROFIT_TOLERANCE).None? && r.value.pid == pid && r.value.pick == Flush(d)
  {
    hide Validate, SettlementFor, Settling, Flush;
  }

  // ---- What a creation and a confirmation store ----

  /** The decimal odds follow the American ones: exactly for an underdog, to the nearest 0.0001 for a favourite. */
  predicate OddsColumns(p: Pick) {
    && ValidAmerican(p.oddsAmerican)
    && (p.oddsAmerican > 0 ==> 100 * (p.odds - 10_000) == 10_000 * p.oddsAmerican)
    && (p.oddsAmerican < 0 ==> 2 * Abs(-p.oddsAmerican * (p.odds - 10_000) - 1_000_000) <= -p.oddsAmerican)
  }

  /** A created row is pending, says what the request said, and has no result yet. */
  lemma CreationStores(db: Db, r: NewPick, at: int)
    requires CreatePick(db, r, at).Ok?
    ensures r.pid in CreatePick(db, r, at).value.picks
    ensures
      var p := CreatePick(db, r, at).value.picks[r.pid];
      && p.matchId == r.matchId && p.book == r.book && p.runDate == r.runDate && p.market == r.market
      && p.oddsAmerican == r.oddsAmerican && OddsColumns(p)
      && p.stake == r.stake && p.owner == (if r.stake.Some? then r.user else None)
      && p.source == r.source && p.createdAt == r.createdAt && p.confirmedAt.None?
      && p.status.Pending? && p.resolvedAt.None? && ClosingColumns(p) && p.closing.None? && ResultColumns(p)
  {
    if r.oddsAmerican != 0 {
      hide AmericanToDecimal;
      AmericanIsNearest(r.oddsAmerican);
    }
  }

  /** A well-kept suggestion of the pipeline can always be confirmed, whatever its status, and then gains
      the clock read and nothing else. */
  lemma ConfirmationStores(db: Db, pid: PickId, now: int, at: int)
    requires PicksOk(db)
    ensures ConfirmPick(db, pid, true, now, at).Ok? <==> pid in db.picks && db.picks[pid].source.Pipeline?
    ensures ConfirmPick(db, pid, true, now, at).Ok? ==>
              ConfirmPick(db, pid, true, now, at).value == db.(picks := db.picks[pid := db.picks[pid].(confirmedAt := Some(now))])
  {
    if pid in db.picks {
      StoredRowValidates(db.picks[pid].(confirmedAt := Some(now)));
      ConfirmingIsFree(db.picks[pid], now);
    }
    hide Validate, PickOk;
  }

  lemma ConfirmingIsFree(p: Pick, now: int)
    requires PickOk(p)
    ensures
      var q := p.(confirmedAt := Some(now));
      Validate(Load(q), Some(p), PROFIT_TOLERANCE).None?
  {
    StoredRowValidates(p);
  }

  // ---- Every run ----

  predicate RowOk(p: Pick) {
    OddsColumns(p) && ClosingColumns(p) && (p.status.Pending? ==> p.closing.None?)
  }

  ghost predicate RowsOk(db: Db) {
    forall pid :: pid in db.picks ==> RowOk(db.picks[pid])
  }

  /** A settlement that succeeds repeats the status, or settles a pending pick. */
  lemma SettleJudges(db: Db, pid: PickId, target: Status, closing: Option<int>, now: int, at: int)
    requires Settle(db, pid, target, closing, now, at).Ok?
    ensures pid in db.picks
    ensures || (db.picks[pid].status == target && Settle(db, pid, target, closing, now, at).value == db)
            || (db.picks[pid].status.Pending? && target.Terminal())
  {
    hide Complete, Decided;
  }

  lemma SettlingKeepsRows(db: Db, pid: PickId, target: Status, closing: Option<int>, now: int, at: int)
    requires RowsOk(db) && Settle(db, pid, target, closing, now, at).Ok?
    ensures RowsOk(Settle(db, pid, target, closing, now, at).value)
  {
    hide Settle, Flush, Resolved, WithClosing, Validate, ResultColumns, OddsColumns, ClosingColumns;
    SettleJudges(db, pid, target, closing, now, at);
    if Settle(db, pid, target, closing, now, at).value != db {
      SettleIsFlush(db, pid, target, closing, now, at);
      SettlementStores(db, pid, target, closing, now, at);
      SameQuote(db.picks[pid], Settle(db, pid, target, closing, now, at).value.picks[pid]);
    }
  }

  lemma SameQuote(p: Pick, q: Pick)
    requires q.oddsAmerican == p.oddsAmerican && q.odds == p.odds
    ensures OddsColumns(p) ==> OddsColumns(q)
    ensures ClosingColumns(p) && q.closing == p.closing && q.clv == p.clv ==> ClosingColumns(q)
  {
  }

  lemma EditKeepsRow(p: Pick, c: Changes)
    requires RowOk(p) && p.status.Pending? && Edited(p, c).Ok?
    ensures RowOk(Edited(p, c).value)
  {
    hide Validate, AmericanToDecimal, OddsColumns;
    var q := Edited(p, c).value;
    if c.odds.Set? {
      AmericanIsNearest(c.odds.value.value);
      FollowsQuote(q);
    } else {
      SameQuote(p, q);
    }
  }

  lemma FollowsQuote(p: Pick)
    requires ValidAmerican(p.oddsAmerican) && p.odds == AmericanToDecimal(p.oddsAmerican)
    ensures OddsColumns(p)
  {
    hide AmericanToDecimal;
    AmericanIsNearest(p.oddsAmerican);
  }

  lemma RequestKeepsRows(db: Db, r: Request)
    requires RowsOk(db)
    ensures RowsOk(After(db, r))
  {
    if Execute(db, r).Ok? {
      hide Settle, RowOk, CreatePick, FixUserBalance, CreateParlay, Edited, AutoResolve, Validate;
      match r.op
      case Create(request) => CreationKeepsRows(db, request, r.at);
      case Resolve(pid, target, closing) => SettlingKeepsRows(db, pid, target, closing, r.now, r.at);
      case Delete(pid) => SettlingKeepsRows(db, pid, Status.Void, None, r.now, r.at);
      case Confirm(pid, confirmed) =>
        if confirmed { ConfirmingKeepsRows(db, pid, r.now, r.at); }
        else { SettlingKeepsRows(db, pid, Status.Void, None, r.now, r.at); }
      case Update(pid, changes) => EditKeepsRow(db.picks[pid], changes);
      case Repair(u) => RepairWrites(db, u);
      case AddParlay(q, legs, stake) => ParlayKeepsPicks(db, q, legs, stake);
    }
  }

  lemma ParlayKeepsPicks(db: Db, q: ParlayId, legs: seq<PickId>, stake: int)
    requires CreateParlay(db, q, legs, stake).Ok?
    ensures CreateParlay(db, q, legs, stake).value.picks == db.picks
  {
    hide OddsProduct, Pow10k, HalfEven;
  }

  lemma ConfirmingKeepsRows(db: Db, pid: PickId, now: int, at: int)
    requires RowsOk(db) && ConfirmPick(db, pid, true, now, at).Ok?
    ensures RowsOk(ConfirmPick(db, pid, true, now, at).value)
  {
    hide Validate, OddsColumns, ClosingColumns;
    var p := db.picks[pid];
    assert RowOk(p);
    SameQuote(p, p.(confirmedAt := Some(now)));
  }

  lemma CreationKeepsRows(db: Db, r: NewPick, at: int)
    requires RowsOk(db) && CreatePick(db, r, at).Ok?
    ensures RowsOk(CreatePick(db, r, at).value)
  {
    CreationStores(db, r, at);
    CreationAdds(db, r, at);
    hide CreatePick, OddsColumns, ClosingColumns;
  }

  lemma CreationAdds(db: Db, r: NewPick, at: int)
    requires CreatePick(db, r, at).Ok?
    ensures forall pid :: pid in CreatePick(db, r, at).value.picks && pid != r.pid ==>
              pid in db.picks && CreatePick(db, r, at).value.picks[pid] == db.picks[pid]
  {
    hide LineTaken, KeyTaken, AmericanToDecimal, Validate;
  }

  /** Over every run, serial or not, each row's decimal odds follow its American ones, and it has a closing
      line value exactly when it has closing odds: the nearest to its relative gain. */
  lemma {:induction false} RunKeepsRows(db: Db, rs: seq<Request>)
    requires RowsOk(db)
    ensures RowsOk(Run(db, rs))
  {
    if rs != [] {
      RunKeepsRows(db, rs[..|rs| - 1]);
      hide After, RowsOk;
      RequestKeepsRows(Run(db, rs[..|rs| - 1]), rs[|rs| - 1]);
    }
  }

  /** A bet won at +a has stored a profit of a hundredths of its stake, to the nearest cent; one won at -a a
      profit within half a cent, and half a ten-thousandth of the stake, of 100 parts in a of the stake. */
  predicate PaysAsQuoted(p: Pick) {
    && p.stake.Some? && p.profit.Some? && ValidAmerican(p.oddsAmerican)
    && var (stake, profit, a) := (p.stake.value, p.profit.value, p.oddsAmerican);
    && (a > 0 ==> 2 * Abs(100 * profit - stake * a) <= 100)
    && (a < 0 ==> 2 * Abs(-a * profit - 100 * stake) * 10_000 <= -a * (10_000 + stake))
  }

  /** Over every serial run, every won bet has paid what its American odds promise. */
  lemma WinsPayAsQuoted(db: Db, rs: seq<Request>, start: int, pid: PickId)
    requires Seeded(db) && Serial(rs, start)
    requires pid in Run(db, rs).picks && Run(db, rs).picks[pid].status.Won?
    ensures PaysAsQuoted(Run(db, rs).picks[pid])
  {
    var p := Run(db, rs).picks[pid];
    assert RowsOk(db);
    RunKeepsRows(db, rs);
    RunKeepsSound(db, rs, start);
    hide Run, Seeded, Serial, OwnersOk, LinesOk, SettledOnce, Announced, TailTotals, ChainOk, OddsColumns, ClosingColumns, PickOk, PaysAsQuoted;
    assert RowOk(p) && PickOk(p);
    WinPaysAsQuoted(p);
  }

  lemma WinPaysAsQuoted(p: Pick)
    requires OddsColumns(p) && PickOk(p) && p.status.Won?
    ensures PaysAsQuoted(p)
  {
    var stake, odds, a := p.stake.value, p.odds, p.oddsAmerican;
    ToCentsError(stake * odds - FromCents(stake));
    Expand(stake, odds);
    var profit := p.profit.value;
    assert 2 * Abs(stake * (odds - 10_000) - 10_000 * profit) <= 10_000;
    hide ToCents;
    if a > 0 {
      UnderdogProfit(stake, odds - 10_000, profit, a);
    } else {
      FavouriteProfit(stake, odds - 10_000, profit, -a);
    }
  }

  lemma UnderdogProfit(stake: int, gain: int, profit: int, a: int)
    requires 100 * gain == 10_000 * a && 2 * Abs(stake * gain - 10_000 * profit) <= 10_000
    ensures 2 * Abs(100 * profit - stake * a) <= 100
  {
    assert gain == 100 * a;
    assert stake * gain == 100 * (stake * a);
  }

  lemma FavouriteProfit(stake: int, gain: int, profit: int, b: int)
    requires b > 0 && stake >= 0
    requires 2 * Abs(b * gain - 1_000_000) <= b && 2 * Abs(stake * gain - 10_000 * profit) <= 10_000
    ensures 2 * Abs(b * profit - 100 * stake) * 10_000 <= b * (10_000 + stake)
  {
    // b times the second error, and stake times the first
    var e, f := stake * gain - 10_000 * profit, b * gain - 1_000_000;
    assert 10_000 * (b * profit - 100 * stake) == stake * f - b * e by {
      assert b * e == b * (stake * gain) - 10_000 * (b * profit);
      assert stake * f == stake * (b * gain) - 1_000_000 * stake;
      assert b * (stake * gain) == stake * (b * gain);
    }
    ScaledAbs(stake, f, b);
    ScaledAbs(b, e, 10_000);
    assert b * (10_000 + stake) == b * 10_000 + stake * b;
  }

  lemma ScaledAbs(k: int, x: int, bound: int)
    requires k >= 0 && 2 * Abs(x) <= bound
    ensures 2 * Abs(k * x) <= k * bound
  {
    if x >= 0 { Scale(k, 2 * x, bound); } else { Scale(k, -2 * x, bound); }
    assert k * (2 * x) == 2 * (k * x) && k * (-2 * x) == -2 * (k * x);
    assert x >= 0 ==> k * x >= 0;
    assert x <= 0 ==> k * x <= 0;
  }
}
