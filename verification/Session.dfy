/** The services as the program runs them: statement by statement over a session's tables.

    Each method does what the service does, in its order, and is proved against the engine's
    functions; a method that reports an error may leave the tables half written, and the method that
    opened the savepoint puts them back. */
module Session {
  import opened Money
  import opened Odds
  import opened Domain
  import opened Tables
  import opened Reconciliation
  import opened Keyset
  import opened Audit
  import opened Engine

  datatype AuditRow = AuditRow(user: UserId, escrowDrift: nat, ledgerDrift: nat, repaired: bool)

  /** What a repair reports. */
  datatype RepairReport = RepairReport(before: Drift, repaired: bool, previous: Wallet, current: Wallet)

  datatype AuditSummary = AuditSummary(health: Health, anomalies: seq<Report>)

  /** The audit rows a set of anomalies leaves. */
  function RowsFor(anomalies: seq<Report>): seq<AuditRow> {
    seq(|anomalies|, i requires 0 <= i < |anomalies| =>
      AuditRow(anomalies[i].user, anomalies[i].escrowDrift, anomalies[i].ledgerDrift, false))
  }

  lemma RowForOneMore(anomalies: seq<Report>, r: Report)
    ensures RowsFor(anomalies + [r]) == RowsFor(anomalies) + [AuditRow(r.user, r.escrowDrift, r.ledgerDrift, false)]
  {
  }

  lemma NothingSeen(db: Db)
    ensures Tally(db, []) == Health(0, 0, 0, 0) && Anomalies(db, []) == [] && RowsFor([]) == []
  {
  }

  lemma JudgeProceeds(p: Pick, target: Status, decided: bool, closing: Option<int>)
    requires Judge(p, target, decided, closing).Proceed?
    ensures target.Terminal() && p.status.Pending?
  {
  }

  class Session {
    var wallets: map<UserId, Wallet>
    var picks: map<PickId, Pick>
    var ledger: seq<Entry>
    var outbox: seq<Event>
    var parlays: map<ParlayId, Parlay>
    var audits: seq<AuditRow>

    function Tables(): Db
      reads this
    {
      Db(wallets, picks, ledger, outbox, parlays)
    }

    /** Back to a savepoint. */
    method Rollback(saved: Db)
      modifies this
      ensures Tables() == saved && audits == old(audits)
    {
      wallets, picks, ledger, outbox, parlays := saved.wallets, saved.picks, saved.ledger, saved.outbox, saved.parlays;
    }

    // ---- Ledger service ----

    method LockAndGetBalance(u: UserId) returns (w: Wallet)
      modifies this`wallets
      ensures w == WalletOf(old(Tables()), u)
      ensures wallets == old(wallets)[u := w]
    {
      if u !in wallets {
        wallets := wallets[u := Wallet(0, 0)];
      }
      w := wallets[u];
      assert wallets == old(wallets)[u := w];
    }

    method RecordMovement(u: UserId, amount: int, ref: PickId, at: int) returns (r: Result<Entry>)
      modifies this`wallets, this`ledger
      ensures match StakeLockOn(u, WalletOf(old(Tables()), u), amount, ref, at)
              case Err(e) => r == Err(e)
              case Ok((moved, line)) =>
                r == Ok(line) && wallets == old(wallets)[u := moved] && ledger == old(ledger) + [line]
    {
      var w := LockAndGetBalance(u);
      if amount <= 0 {
        return Err(LedgerAmountInvalid);
      }
      if w.available < amount {
        return Err(InsufficientAvailable);
      }
      w := w.(available := w.available - amount);
      w := w.(locked := w.locked + amount);
      wallets := wallets[u := w];
      var line := Entry(u, amount, StakeLock, ref, w.available, w.locked, at);
      ledger := ledger + [line];
      return Ok(line);
    }

    /** The pick's part of a settlement: results are exact in memory and rounded by the flush. */
    method ResolveRow(pid: PickId, q: Pick, prior: Pick, status: Status, now: int) returns (r: Result<Draft>)
      requires status.Terminal()
      modifies this`picks
      ensures
        var d := Resolved(q, status, now);
        match Validate(d, Some(prior), PROFIT_TOLERANCE)
        case Some(e) => r == Err(e) && picks == old(picks)
        case None => r == Ok(d) && picks == old(picks)[pid := Flush(d)]
    {
      var d := Load(q);
      d := d.(row := d.row.(status := status));
      d := d.(row := d.row.(resolvedAt := Some(now)));
      var (settledReturn, profit) := SettlementFor(status, q.stake, q.odds);
      d := d.(settledReturn := settledReturn, profit := profit);
      AccountingAssertionHolds(status, q.stake, q.odds);
      assert ExpectedProfit(status, q.stake, q.odds).Some? ==> d.profit == ExpectedProfit(status, q.stake, q.odds);
      assert d == Resolved(q, status, now);
      hide Validate;
      var fault := Validate(d, Some(prior), PROFIT_TOLERANCE);
      if fault.Some? {
        return Err(fault.value);
      }
      picks := picks[pid := Flush(d)];
      return Ok(d);
    }

    /** The money's part: the balance, then the line. */
    method MoveMoney(pid: PickId, u: UserId, balance: Wallet, status: Status, stake: int, profit: Option<int>, at: int)
        returns (r: Result<()>)
      requires status.Terminal()
      modifies this`wallets, this`ledger
      ensures match MoneySettled(pid, u, balance, status, stake, profit, old(LineTaken(ledger, pid, LineType(status))), at)
              case Err(e) => r == Err(e)
              case Ok((settled, line)) => r == Ok(()) && wallets == old(wallets)[u := settled] && ledger == old(ledger) + [line]
    {
      var available, locked := FromCents(balance.available), FromCents(balance.locked);
      var amount;
      if status.Won? {
        amount := FromCents(stake) + (if profit.Some? then profit.value else 0);
        locked := locked - FromCents(stake);
        available := available + amount;
      } else if status.Lost? {
        locked := locked - FromCents(stake);
        amount := FromCents(stake);
      } else {
        locked := locked - FromCents(stake);
        available := available + FromCents(stake);
        amount := FromCents(stake);
      }
      if available < 0 || locked < 0 {
        return Err(CriticalInvariantBroken);
      }
      if LineTaken(ledger, pid, LineType(status)) {
        return Err(SettlementRace);
      }
      wallets := wallets[u := Wallet(ToCents(available), ToCents(locked))];
      ledger := ledger + [Entry(u, ToCents(amount), LineType(status), pid, ToCents(available), ToCents(locked), at)];
      return Ok(());
    }

    /** Settles the in-memory pick `q`, read as `prior`, whose owner's balance row is locked. */
    method RecordSettlement(pid: PickId, q: Pick, prior: Pick, status: Status, balance: Option<Wallet>, now: int, at: int)
        returns (r: Result<()>)
      requires status.Terminal()
      modifies this`picks, this`wallets, this`ledger
      ensures match Engine.RecordSettlement(pid, q, prior, old(Settlements(ledger, pid)), balance,
                                            old(LineTaken(ledger, pid, LineType(status))), status, now, at)
              case Err(e) => r == Err(e)
              case Ok(w) => r == Ok(()) && Tables() == Publish(old(Tables()), w) && pid in picks
    {
      hide Validate, MoneySettled, Settlements, LineTaken, Resolved, Flush;
      var existing := Settlements(ledger, pid);
      if |existing| > 1 {
        return Err(SettlementAmbiguous);
      }
      if |existing| == 1 {
        if existing[0].kind != LineType(status) {
          return Err(SettlementTypeMismatch);
        }
        if q.status.Terminal() {
          picks := picks[pid := q];
          return Ok(());
        }
        var repaired := ResolveRow(pid, q, prior, status, now);
        return if repaired.Err? then Err(repaired.error) else Ok(());
      }
      if !q.status.Pending? {
        return Err(SettlementPickNotPending);
      }
      if Financial(q) {
        if balance.None? {
          return Err(SettlementBalanceRequired);
        }
        if balance.value.available < 0 {
          return Err(CriticalInvariantBroken);
        }
        if balance.value.locked < q.stake.value {
          return Err(CriticalInvariantBroken);
        }
      }
      var row := ResolveRow(pid, q, prior, status, now);
      if row.Err? {
        return Err(row.error);
      }
      if !Financial(q) {
        return Ok(());
      }
      r := MoveMoney(pid, q.owner.value, balance.value, status, q.stake.value, row.value.profit, at);
    }

    // ---- Settlement engine ----

    method AssertFinancialHealth(u: UserId) returns (fault: Option<Error>)
      ensures fault == DriftGate(Tables(), u)
      ensures fault.None? ==> u in wallets
    {
      var r := ReconcileUser(Tables(), u);
      if r.Err? {
        return Some(r.error);
      }
      if r.value.severity.Critical? {
        return Some(FinancialStateCorrupted);
      }
      return None;
    }

    /** The guards on the locked pick row; a pick that passes them comes back with its closing odds. */
    method CheckPick(pid: PickId, p: Pick, target: Status, closing: Option<int>) returns (v: Verdict)
      ensures v == Judge(p, target, Decided(ledger, pid), closing)
    {
      if p.status == target {
        return NoOp;
      }
      if p.status.Terminal() {
        return Refuse(TerminalStateConflict);
      }
      if p.owner.Some? && p.owner.value != DEFAULT_USER {
        return Refuse(PickOwnershipMismatch);
      }
      if target.Void? {
        if Decided(ledger, pid) {
          return Refuse(SettlementAlreadyDecided);
        }
      }
      var q := p;
      if closing.Some? {
        if closing.value <= 0 {
          return Refuse(ClosingOddsInvalid);
        }
        q := q.(closing := closing);
        q := q.(clv := Some(Clv(q.odds, closing.value)));
      }
      return Proceed(q);
    }

    /** Gate, balance lock, records and outbox row of a settlement whose guards have passed. */
    method CompleteSettlement(pid: PickId, q: Pick, prior: Pick, target: Status, now: int, at: int) returns (r: Result<()>)
      requires target.Terminal()
      modifies this`wallets, this`picks, this`ledger, this`outbox
      ensures match Complete(old(Tables()), pid, q, prior, target, now, at)
              case Err(e) => r == Err(e)
              case Ok(next) => r == Ok(()) && Tables() == next && pid in picks
    {
      hide Engine.RecordSettlement, DriftGate, Settlements, LineTaken, KeyTaken;
      var balance: Option<Wallet> := None;
      if Financial(q) {
        var fault := AssertFinancialHealth(q.owner.value);
        if fault.Some? {
          return Err(fault.value);
        }
        var w := LockAndGetBalance(q.owner.value);
        assert wallets == old(wallets);
        balance := Some(w);
      }
      var recorded := RecordSettlement(pid, q, prior, target, balance, now, at);
      if recorded.Err? {
        return Err(recorded.error);
      }
      if KeyTaken(outbox, SettledKey(pid, target)) {
        return Err(SettlementRace);
      }
      outbox := outbox + [PickSettled(pid, q.owner, target)];
      return Ok(());
    }

    method ExecuteSettlement(pid: PickId, target: Status, closing: Option<int>, now: int, at: int) returns (r: Result<Pick>)
      modifies this
      ensures match Settle(old(Tables()), pid, target, closing, now, at)
              case Err(e) => r == Err(e) && Tables() == old(Tables())
              case Ok(next) => Tables() == next && pid in picks && r == Ok(picks[pid])
      ensures audits == old(audits)
    {
      hide Complete, Decided, Judge;
      var saved := Tables();
      if pid !in picks {
        return Err(PickNotFound);
      }
      var p := picks[pid];
      var verdict := CheckPick(pid, p, target, closing);
      if verdict.NoOp? {
        return Ok(p);
      }
      if verdict.Refuse? {
        return Err(verdict.error);
      }
      JudgeProceeds(p, target, Decided(ledger, pid), closing);
      var completed := CompleteSettlement(pid, verdict.pick, p, target, now, at);
      if completed.Err? {
        Rollback(saved);
        return Err(completed.error);
      }
      return Ok(picks[pid]);
    }

    // ---- Pick service ----

    method CreatePick(request: NewPick, at: int) returns (r: Result<Pick>)
      modifies this
      ensures match Engine.CreatePick(old(Tables()), request, at)
              case Err(e) => r == Err(e) && Tables() == old(Tables())
              case Ok(next) => Tables() == next && request.pid in picks && r == Ok(picks[request.pid])
      ensures audits == old(audits)
    {
      var saved := Tables();
      if !ValidAmerican(request.oddsAmerican) {
        return Err(OddsInvalid);
      }
      var p := FreshPick(request);
      var fault := Validate(Load(p), None, PROFIT_TOLERANCE);
      if fault.Some? {
        return Err(fault.value);
      }
      if Staked(request) {
        if request.user.None? {
          return Err(UserIdRequired);
        }
        var moved := RecordMovement(request.user.value, request.stake.value, request.pid, at);
        if moved.Err? {
          Rollback(saved);
          return Err(moved.error);
        }
        if request.pid in picks || LineTaken(saved.ledger, request.pid, StakeLock) || KeyTaken(outbox, CreatedKey(request.pid)) {
          Rollback(saved);
          return Err(UniqueViolation);
        }
        picks := picks[request.pid := p];
        outbox := outbox + [PickCreated(request.pid, request.user.value, request.stake.value)];
      } else {
        if request.pid in picks {
          return Err(UniqueViolation);
        }
        picks := picks[request.pid := p];
      }
      return Ok(p);
    }

    method UpdatePick(pid: PickId, changes: Changes) returns (r: Result<Pick>)
      modifies this`picks
      ensures match Engine.UpdatePick(old(Tables()), pid, changes)
              case Err(e) => r == Err(e) && Tables() == old(Tables())
              case Ok(next) => Tables() == next && pid in picks && r == Ok(picks[pid])
    {
      if pid !in picks {
        return Err(PickNotFound);
      }
      var p := picks[pid];
      if !p.status.Pending? {
        return Err(PickAlreadyResolved);
      }
      var prior := p;
      if changes.odds.Set? {
        if changes.odds.value.None? || !ValidAmerican(changes.odds.value.value) {
          return Err(OddsInvalid);
        }
        p := p.(oddsAmerican := changes.odds.value.value);
        p := p.(odds := AmericanToDecimal(changes.odds.value.value));
      }
      if changes.stake.Set? {
        p := p.(stake := changes.stake.value);
      }
      if changes.market.Set? && changes.market.value.Some? {
        p := p.(market := changes.market.value.value);
      }
      var fault := Validate(Load(p), Some(prior), PROFIT_TOLERANCE);
      if fault.Some? {
        return Err(fault.value);
      }
      if changes.market.Set? && changes.market.value.None? {
        return Err(NotNullViolation);
      }
      picks := picks[pid := p];
      return Ok(p);
    }

    method DeletePick(pid: PickId, now: int, at: int) returns (r: Result<Pick>)
      modifies this
      ensures match Engine.DeletePick(old(Tables()), pid, now, at)
              case Err(e) => r == Err(e) && Tables() == old(Tables())
              case Ok(next) => Tables() == next && pid in picks && r == Ok(picks[pid])
    {
      if pid !in picks {
        return Err(PickNotFound);
      }
      if !picks[pid].status.Pending? {
        return Err(PickNotPending);
      }
      if InParlay(Tables(), pid) {
        return Err(PickInParlay);
      }
      r := ExecuteSettlement(pid, Status.Void, None, now, at);
    }

    method ConfirmPick(pid: PickId, confirmed: bool, now: int, at: int) returns (r: Result<Pick>)
      modifies this
      ensures match Engine.ConfirmPick(old(Tables()), pid, confirmed, now, at)
              case Err(e) => r == Err(e) && Tables() == old(Tables())
              case Ok(next) => Tables() == next && pid in picks && r == Ok(picks[pid])
    {
      if pid !in picks {
        return Err(PickNotFound);
      }
      if !picks[pid].source.Pipeline? {
        return Err(PickNotFromPipeline);
      }
      if !confirmed {
        r := ExecuteSettlement(pid, Status.Void, None, now, at);
        return;
      }
      var p := picks[pid].(confirmedAt := Some(now));
      var fault := Validate(Load(p), Some(picks[pid]), PROFIT_TOLERANCE);
      if fault.Some? {
        return Err(fault.value);
      }
      picks := picks[pid := p];
      return Ok(p);
    }

    // ---- Parlays ----

    /** `reduce` over the legs' odds. */
    method MultiplyOdds(legs: seq<PickId>) returns (product: int)
      requires forall i :: 0 <= i < |legs| ==> legs[i] in picks
      ensures product == OddsProduct(picks, legs)
    {
      product := 1;
      for i := 0 to |legs|
        invariant product == OddsProduct(picks, legs[..i])
      {
        assert legs[..i + 1][..i] == legs[..i];
        product := product * picks[legs[i]].odds;
      }
      assert legs[..|legs|] == legs;
    }

    method CreateParlay(q: ParlayId, legs: seq<PickId>, stake: int) returns (r: Result<Parlay>)
      modifies this`parlays
      ensures match Engine.CreateParlay(old(Tables()), q, legs, stake)
              case Err(e) => r == Err(e) && Tables() == old(Tables())
              case Ok(next) => Tables() == next && q in parlays && r == Ok(parlays[q])
    {
      hide OddsProduct, Pow10k, HalfEven;
      if !(2 <= |legs| <= 8) {
        return Err(ParlaySize);
      }
      if (exists i :: 0 <= i < |legs| && legs[i] !in picks) || (exists i, j :: 0 <= i < j < |legs| && legs[i] == legs[j]) {
        return Err(PicksNotFound);
      }
      if exists i, j :: 0 <= i < j < |legs| && picks[legs[i]].matchId == picks[legs[j]].matchId {
        return Err(ParlayDuplicateMatch);
      }
      if exists i :: 0 <= i < |legs| && !picks[legs[i]].status.Pending? {
        return Err(ParlayPickNotPending);
      }
      if q in parlays {
        return Err(UniqueViolation);
      }
      var product := MultiplyOdds(legs);
      var total := HalfEven(product, Pow10k(|legs| - 1));
      var parlay := Parlay(legs, stake, total, HalfEven(stake * total, ODDS_ONE), None, Open);
      parlays := parlays[q := parlay];
      r := Ok(parlay);
    }

    method CheckParlay(parlay: Parlay) returns (p: Parlay)
      ensures p == AutoResolve(parlay, picks)
    {
      hide SomeLeg, EveryLeg;
      p := parlay;
      if !p.status.Open? {
        return;
      }
      if SomeLeg(picks, p.legs, Status.Pending) {
        return;
      }
      if EveryLeg(picks, p.legs, Status.Won) {
        p := p.(status := ParlayStatus.Won);
        p := p.(actualReturn := Some(p.potentialReturn));
      } else if SomeLeg(picks, p.legs, Status.Lost) {
        p := p.(status := ParlayStatus.Lost);
        p := p.(actualReturn := Some(0));
      }
    }

    /** Checks, one by one, every parlay the resolved pick belongs to. */
    method AutoResolveParlaysForPick(pid: PickId)
      modifies this`parlays
      ensures Tables() == AutoResolveParlays(old(Tables()), pid)
    {
      ghost var goal := AutoResolveParlays(Tables(), pid).parlays;
      hide AutoResolve;
      var todo := set q | q in parlays && pid in parlays[q].legs;
      while todo != {}
        invariant todo <= parlays.Keys == old(parlays).Keys
        invariant forall q :: q in todo ==> pid in old(parlays)[q].legs
        invariant forall q :: q in parlays ==> parlays[q] == if q in todo then old(parlays)[q] else goal[q]
        decreases |todo|
      {
        var q :| q in todo;
        todo := todo - {q};
        var parlay := CheckParlay(parlays[q]);
        parlays := parlays[q := parlay];
      }
      assert parlays == goal;
    }

    /** The resolve endpoint: settle, then check parlays; one transaction. */
    method ResolvePick(pid: PickId, target: Status, closing: Option<int>, now: int, at: int) returns (r: Result<Pick>)
      modifies this
      ensures match Engine.ResolvePick(old(Tables()), pid, target, closing, now, at)
              case Err(e) => r == Err(e) && Tables() == old(Tables())
              case Ok(next) => Tables() == next && pid in picks && r == Ok(picks[pid])
    {
      if target.Pending? {
        return Err(ResolveToPending);
      }
      r := ExecuteSettlement(pid, target, closing, now, at);
      if r.Ok? {
        AutoResolveParlaysForPick(pid);
      }
    }

    // ---- Reconciliation ----

    /** The repair itself, with the balance row locked. */
    method RewriteBalance(u: UserId) returns (r: Result<Wallet>)
      requires u in wallets
      modifies this`wallets
      ensures r == RepairedWallet(old(wallets)[u], Escrow(picks, u), Latest(ledger, u))
      ensures wallets == if r.Ok? then old(wallets)[u := r.value] else old(wallets)
    {
      hide Escrow, Latest;
      var previous := wallets[u];
      var rowTotal := previous.available + previous.locked;
      var expectedLocked := Escrow(picks, u);
      var lastRow := Latest(ledger, u);
      var ledgerTotal := if lastRow.None? then 0 else lastRow.value.balanceAfter + lastRow.value.lockedAfter;
      if Abs(ledgerTotal - rowTotal) > TOLERANCE {
        return Err(RepairUnsafeState);
      }
      var expectedAvailable := ledgerTotal - expectedLocked;
      if expectedLocked < 0 || expectedAvailable < 0 {
        return Err(RepairInvariantViolation);
      }
      if Abs(expectedLocked - previous.locked) <= TOLERANCE && Abs(expectedAvailable - previous.available) <= TOLERANCE {
        assert wallets[u := previous] == wallets;
        return Ok(previous);
      }
      wallets := wallets[u := Wallet(expectedAvailable, expectedLocked)];
      return Ok(wallets[u]);
    }

    method FixUserBalance(u: UserId) returns (r: Result<RepairReport>)
      modifies this`wallets, this`audits
      ensures match Reconciliation.FixUserBalance(old(Tables()), u)
              case Err(e) => r == Err(e) && Tables() == old(Tables()) && audits == old(audits)
              case Ok(next) =>
                && Tables() == next && r.Ok? && u in wallets && u in old(wallets)
                && r.value == RepairReport(DriftType(ReconcileUser(old(Tables()), u).value), wallets[u] != old(wallets)[u],
                                           old(wallets)[u], wallets[u])
                && audits == old(audits) + (if r.value.repaired
                     then [AuditRow(u, Abs(old(wallets)[u].locked - wallets[u].locked), 0, true)] else [])
    {
      hide Escrow, Latest, RepairedWallet, ReportOn;
      var report := ReconcileUser(Tables(), u);
      if report.Err? {
        return Err(report.error);
      }
      var before := DriftType(report.value);
      if before.FullInconsistent? || before.LedgerMismatch? {
        return Err(RepairUnsafeState);
      }
      var previous := wallets[u];
      var rewritten := RewriteBalance(u);
      if rewritten.Err? {
        return Err(rewritten.error);
      }
      var repaired := rewritten.value != previous;
      if repaired {
        audits := audits + [AuditRow(u, Abs(previous.locked - rewritten.value.locked), 0, true)];
      }
      return Ok(RepairReport(before, repaired, previous, rewritten.value));
    }

    /** Counts severities over all wallets in batches, writing nothing. */
    method SummarizeFinancialHealth(batchSize: nat) returns (h: Health)
      ensures h == Tally(Tables(), Visited(Tables(), batchSize))
    {
      ghost var ids := Sorted(wallets.Keys);
      ghost var seen := 0;
      var total, ok, warning, critical := 0, 0, 0, 0;
      var last: Option<UserId> := None;
      SortedIsOrder(wallets.Keys);
      hide Sorted, Page, Tally, Anomalies, ReconcileUser, RowsFor;
      NothingSeen(Tables());
      while true
        invariant seen <= |ids| && (batchSize == 0 ==> seen == 0)
        invariant last == if seen == 0 then None else Some(ids[seen - 1])
        invariant Health(total, ok, warning, critical) == Tally(Tables(), ids[..seen])
        decreases |ids| - seen
      {
        PageIsNext(wallets.Keys, seen, batchSize);
        var batch := Page(wallets.Keys, last, batchSize);
        if batch == [] {
          break;
        }
        for k := 0 to |batch|
          invariant Health(total, ok, warning, critical) == Tally(Tables(), ids[..seen + k])
        {
          TallyNext(Tables(), ids, seen + k);
          total := total + 1;
          var severity := ReconcileUser(Tables(), batch[k]).value.severity;
          if severity.Fine? {
            ok := ok + 1;
          } else if severity.Warning? {
            warning := warning + 1;
          } else {
            critical := critical + 1;
          }
        }
        last := Some(batch[|batch| - 1]);
        seen := seen + |batch|;
      }
      assert batchSize != 0 ==> ids[..seen] == ids;
      h := Health(total, ok, warning, critical);
    }

    /** The same walk, collecting and persisting the anomalies. */
    method ReconcileAllUsers(batchSize: nat) returns (summary: AuditSummary)
      modifies this`audits
      ensures summary == AuditSummary(Tally(Tables(), Visited(Tables(), batchSize)), Anomalies(Tables(), Visited(Tables(), batchSize)))
      ensures audits == old(audits) + RowsFor(summary.anomalies)
    {
      ghost var ids := Sorted(wallets.Keys);
      ghost var seen := 0;
      var total, ok, warning, critical := 0, 0, 0, 0;
      var anomalies: seq<Report> := [];
      var last: Option<UserId> := None;
      SortedIsOrder(wallets.Keys);
      hide Sorted, Page, Tally, Anomalies, ReconcileUser, RowsFor, Min;
      NothingSeen(Tables());
      while true
        invariant seen <= |ids| && (batchSize == 0 ==> seen == 0)
        invariant last == if seen == 0 then None else Some(ids[seen - 1])
        invariant Health(total, ok, warning, critical) == Tally(Tables(), ids[..seen])
        invariant anomalies == Anomalies(Tables(), ids[..seen])
        invariant audits == old(audits) + RowsFor(anomalies)
        decreases |ids| - seen
      {
        PageIsNext(wallets.Keys, seen, batchSize);
        var batch := Page(wallets.Keys, last, batchSize);
        if batch == [] {
          break;
        }
        for k := 0 to |batch|
          invariant Health(total, ok, warning, critical) == Tally(Tables(), ids[..seen + k])
          invariant anomalies == Anomalies(Tables(), ids[..seen + k])
          invariant audits == old(audits) + RowsFor(anomalies)
        {
          TallyNext(Tables(), ids, seen + k);
          total := total + 1;
          var report := ReconcileUser(Tables(), batch[k]).value;
          if report.severity.Fine? {
            ok := ok + 1;
            continue;
          }
          RowForOneMore(anomalies, report);
          anomalies := anomalies + [report];
          if report.severity.Critical? {
            critical := critical + 1;
          } else {
            warning := warning + 1;
          }
          audits := audits + [AuditRow(report.user, report.escrowDrift, report.ledgerDrift, false)];
        }
        last := Some(batch[|batch| - 1]);
        seen := seen + |batch|;
      }
      assert batchSize != 0 ==> ids[..seen] == ids;
      summary := AuditSummary(Health(total, ok, warning, critical), anomalies);
    }
  }
}
