/** When requests are accepted and which guards can fire, over whole serial runs. */
module Guards {
  import opened Money
  import opened Odds
  import opened Domain
  import opened Tables
  import opened Reconciliation
  import opened Engine
  import opened Invariants
  import opened Runs
  import opened History

  /** The errors that would mean broken books rather than a bad request. */
  predicate BooksBroken(e: Error) {
    || e.CriticalInvariantBroken? || e.FinancialStateCorrupted? || e.SettlementAmbiguous? || e.SettlementTypeMismatch?
    || e.SettlementRace? || e.SettlementPickNotPending? || e.SettlementBalanceRequired? || e.SettlementAlreadyDecided?
  }

  /** What a caller must satisfy for a settlement to be accepted, besides the escrow. */
  predicate Settleable(p: Pick, target: Status, closing: Option<int>, now: int) {
    && p.status.Pending?
    && (p.owner.Some? ==> p.owner.value == DEFAULT_USER)
    && (closing.Some? ==> closing.value > 0)
    && (target.Void? || p.stake.Some?)
    && now >= p.createdAt
  }

  /** The refusals decided by the locked pick row alone. */
  lemma SettleJudged(db: Db, pid: PickId, target: Status, closing: Option<int>, now: int, at: int)
    ensures pid !in db.picks ==> Settle(db, pid, target, closing, now, at) == Err(PickNotFound)
    ensures pid in db.picks ==>
      var verdict := Judge(db.picks[pid], target, Decided(db.ledger, pid), closing);
      && (verdict.NoOp? ==> Settle(db, pid, target, closing, now, at) == Ok(db))
      && (verdict.Refuse? ==> Settle(db, pid, target, closing, now, at) == Err(verdict.error))
  {
  }

  /** What settlement answers in a state reached serially, stake edits included. */
  function SettleAnswer(db: Db, pid: PickId, target: Status, closing: Option<int>, now: int): Option<Error> {
    if pid !in db.picks then Some(PickNotFound)
    else
      var p := db.picks[pid];
      if p.status == target then None
      else if p.status.Terminal() then Some(TerminalStateConflict)
      else if p.owner.Some? && p.owner.value != DEFAULT_USER then Some(PickOwnershipMismatch)
      else if closing.Some? && closing.value <= 0 then Some(ClosingOddsInvalid)
      else if Financial(p) && WalletOf(db, p.owner.value).locked < p.stake.value then Some(CriticalInvariantBroken)
      else if now < p.createdAt then Some(ResolvedBeforeCreated)
      else if !target.Void? && p.stake.None? then Some(ResolvedRequiresStake)
      else None
  }

  lemma SettleAnswers(db: Db, pid: PickId, target: Status, closing: Option<int>, now: int, at: int, t: int)
    requires Sound(db) && InOrder(db.ledger, t)
    ensures match SettleAnswer(db, pid, target, closing, now)
            case None => Settle(db, pid, target, closing, now, at).Ok?
            case Some(e) => Settle(db, pid, target, closing, now, at) == Err(e)
  {
    hide Settle, Sound, InOrder, Decided;
    SettleJudged(db, pid, target, closing, now, at);
    if pid in db.picks && db.picks[pid].status != target && db.picks[pid].status.Pending? {
      PendingUndecided(db, pid, target);
      var p := db.picks[pid];
      if (p.owner.Some? ==> p.owner.value == DEFAULT_USER) && (closing.Some? ==> closing.value > 0) {
        PendingAnswers(db, pid, target, closing, now, at, t);
      }
    }
  }

  lemma PendingUndecided(db: Db, pid: PickId, target: Status)
    requires Sound(db) && pid in db.picks && db.picks[pid].status.Pending? && target.Terminal()
    ensures !Decided(db.ledger, pid)
    ensures db.picks[pid].owner.Some? ==> db.picks[pid].owner.value in db.wallets
  {
    assert OwnersOk(db);
    PendingIsUnsettled(db, pid, target);
    hide Sound, Decided;
  }

  /** The answer to settling a pending pick that its guards let through. */
  lemma PendingAnswers(db: Db, pid: PickId, target: Status, closing: Option<int>, now: int, at: int, t: int)
    requires Sound(db) && InOrder(db.ledger, t)
    requires pid in db.picks && db.picks[pid].status.Pending? && target.Terminal()
    requires db.picks[pid].owner.Some? ==> db.picks[pid].owner.value == DEFAULT_USER
    requires closing.Some? ==> closing.value > 0
    ensures
      var p := db.picks[pid];
      var answer := if Financial(p) && WalletOf(db, p.owner.value).locked < p.stake.value then Some(CriticalInvariantBroken)
                    else if now < p.createdAt then Some(ResolvedBeforeCreated)
                    else if !target.Void? && p.stake.None? then Some(ResolvedRequiresStake)
                    else None;
      match answer
      case None => Settle(db, pid, target, closing, now, at).Ok?
      case Some(e) => Settle(db, pid, target, closing, now, at) == Err(e)
  {
    PendingUndecided(db, pid, target);
    hide Settle, Sound, InOrder, SettleRead, IsSettlement, Publish;
    SettleDecides(db, pid, target, closing, now, at, t);
  }

  /** In a state reached serially, stake edits included, settlement is accepted iff it repeats the
      pick's status, or the pick is settleable and its stake is still covered by locked funds. The
      drift gate and the ledger, uniqueness and outbox checks never reject. */
  lemma SettlementAcceptedIff(db: Db, pid: PickId, target: Status, closing: Option<int>, now: int, at: int, t: int)
    requires Sound(db) && InOrder(db.ledger, t)
    ensures Settle(db, pid, target, closing, now, at).Ok? <==>
              && pid in db.picks
              && (db.picks[pid].status == target
                  || (&& Settleable(db.picks[pid], target, closing, now)
                      && (Financial(db.picks[pid]) ==>
                            WalletOf(db, db.picks[pid].owner.value).locked >= db.picks[pid].stake.value)))
    ensures Settle(db, pid, target, closing, now, at).Err? && BooksBroken(Settle(db, pid, target, closing, now, at).error) ==>
              && pid in db.picks && db.picks[pid].status.Pending? && Financial(db.picks[pid])
              && WalletOf(db, db.picks[pid].owner.value).locked < db.picks[pid].stake.value
  {
    hide Settle, Sound, InOrder;
    SettleAnswers(db, pid, target, closing, now, at, t);
  }

  /** A pending pick's stake is still covered by its owner's locked funds. */
  predicate Covered(db: Db, p: Pick) {
    Financial(p) ==> WalletOf(db, p.owner.value).locked >= p.stake.value
  }

  /** A pick is deleted iff it is pending, belongs to no parlay and can be voided; a suggestion is rejected iff it comes
      from the pipeline and is void already or can be voided, whatever parlays it belongs to. */
  lemma VoidingAcceptedIff(db: Db, pid: PickId, now: int, at: int, t: int)
    requires Sound(db) && InOrder(db.ledger, t)
    ensures DeletePick(db, pid, now, at).Ok? <==>
              && pid in db.picks && db.picks[pid].status.Pending?
              && (forall q :: q in db.parlays ==> pid !in db.parlays[q].legs)
              && Settleable(db.picks[pid], Status.Void, None, now) && Covered(db, db.picks[pid])
    ensures ConfirmPick(db, pid, false, now, at).Ok? <==>
              && pid in db.picks && db.picks[pid].source.Pipeline?
              && (db.picks[pid].status.Void? || (Settleable(db.picks[pid], Status.Void, None, now) && Covered(db, db.picks[pid])))
  {
    hide Settle, Sound, InOrder;
    SettlementAcceptedIff(db, pid, Status.Void, None, now, at, t);
  }

  /** Exact escrow covers every pending stake. */
  lemma EscrowCovers(db: Db, pid: PickId)
    requires PicksOk(db) && OwnersOk(db) && EscrowExact(db)
    requires pid in db.picks && db.picks[pid].status.Pending? && Financial(db.picks[pid])
    ensures db.wallets[db.picks[pid].owner.value].locked >= db.picks[pid].stake.value
  {
    var u := db.picks[pid].owner.value;
    TotalBounds(db.picks, u, PendingStake);
    assert Share(db.picks[pid], u, PendingStake) <= Total(db.picks, u, PendingStake);
  }

  /** Over every serial run in which no edit moves a stake, whatever request comes next: no request ever meets
      a broken-books guard, and a settlement is accepted exactly when the request itself is good. */
  lemma GuardsNeverFire(db: Db, rs: seq<Request>, start: int, r: Request)
    requires Seeded(db) && Serial(rs, start) && LastStart(rs, start) <= r.at
    requires StakesStay(db, rs)
    ensures var last := Run(db, rs);
            && (Execute(last, r).Err? ==> !BooksBroken(Execute(last, r).error))
            && (r.op.Resolve? ==>
                  (Execute(last, r).Ok? <==>
                     && !r.op.target.Pending? && r.op.pid in last.picks
                     && (last.picks[r.op.pid].status == r.op.target
                         || Settleable(last.picks[r.op.pid], r.op.target, r.op.closing, r.now))))
  {
    var last := Run(db, rs);
    RunKeepsSound(db, rs, start);
    RunIsExact(db, rs, start);
    ExecuteNeverBroken(last, r, LastStart(rs, start));
  }

  lemma ResolveNeverBroken(db: Db, pid: PickId, target: Status, closing: Option<int>, now: int, at: int, t: int)
    requires Sound(db) && InOrder(db.ledger, t) && EscrowExact(db)
    ensures ResolvePick(db, pid, target, closing, now, at).Ok? <==>
              && !target.Pending? && pid in db.picks
              && (db.picks[pid].status == target || Settleable(db.picks[pid], target, closing, now))
    ensures ResolvePick(db, pid, target, closing, now, at).Err? ==> !BooksBroken(ResolvePick(db, pid, target, closing, now, at).error)
  {
    SettlementNeverBroken(db, pid, target, closing, now, at, t);
  }

  lemma VoidingNeverBroken(db: Db, pid: PickId, confirmed: bool, now: int, at: int, t: int)
    requires Sound(db) && InOrder(db.ledger, t) && EscrowExact(db)
    ensures DeletePick(db, pid, now, at).Err? ==> !BooksBroken(DeletePick(db, pid, now, at).error)
    ensures ConfirmPick(db, pid, confirmed, now, at).Err? ==> !BooksBroken(ConfirmPick(db, pid, confirmed, now, at).error)
  {
    hide Settle, Sound, InOrder, EscrowExact;
    SettlementNeverBroken(db, pid, Status.Void, None, now, at, t);
  }

  lemma ExecuteNeverBroken(db: Db, r: Request, t: int)
    requires Sound(db) && InOrder(db.ledger, t) && EscrowExact(db)
    ensures Execute(db, r).Err? ==> !BooksBroken(Execute(db, r).error)
    ensures r.op.Resolve? ==>
              (Execute(db, r).Ok? <==>
                 && !r.op.target.Pending? && r.op.pid in db.picks
                 && (db.picks[r.op.pid].status == r.op.target
                     || Settleable(db.picks[r.op.pid], r.op.target, r.op.closing, r.now)))
  {
    match r.op
    case Resolve(pid, target, closing) => ResolveNeverBroken(db, pid, target, closing, r.now, r.at, t);
    case Delete(pid) => VoidingNeverBroken(db, pid, true, r.now, r.at, t);
    case Confirm(pid, confirmed) => VoidingNeverBroken(db, pid, confirmed, r.now, r.at, t);
    case _ => OtherErrors(db, r);
  }

  /** Requests that settle nothing have no such guard. */
  lemma OtherErrors(db: Db, r: Request)
    requires !r.op.Resolve? && !r.op.Delete? && !r.op.Confirm?
    ensures Execute(db, r).Err? ==> !BooksBroken(Execute(db, r).error)
  {
    match r.op
    case Create(request) => CreateErrors(db, request, r.at);
    case Update(pid, changes) => UpdateErrors(db, pid, changes);
    case _ => hide Latest, Escrow, ReportOn, Validate, OddsProduct;
  }

  lemma ValidatorErrors(d: Draft, prior: Option<Pick>)
    ensures match Validate(d, prior, PROFIT_TOLERANCE) case None => true case Some(e) => !BooksBroken(e)
  {
  }

  lemma CreateErrors(db: Db, r: NewPick, at: int)
    ensures CreatePick(db, r, at).Err? ==> !BooksBroken(CreatePick(db, r, at).error)
  {
    if ValidAmerican(r.oddsAmerican) {
      ValidatorErrors(Load(FreshPick(r)), None);
    }
    hide Validate, LineTaken, KeyTaken;
  }

  lemma UpdateErrors(db: Db, pid: PickId, c: Changes)
    ensures UpdatePick(db, pid, c).Err? ==> !BooksBroken(UpdatePick(db, pid, c).error)
  {
    forall d, prior ensures Validate(d, prior, PROFIT_TOLERANCE).None? || !BooksBroken(Validate(d, prior, PROFIT_TOLERANCE).value) {
      ValidatorErrors(d, prior);
    }
    hide Validate;
  }

  lemma SettlementNeverBroken(db: Db, pid: PickId, target: Status, closing: Option<int>, now: int, at: int, t: int)
    requires Sound(db) && InOrder(db.ledger, t) && EscrowExact(db)
    ensures Settle(db, pid, target, closing, now, at).Ok? <==>
              pid in db.picks && (db.picks[pid].status == target || Settleable(db.picks[pid], target, closing, now))
    ensures Settle(db, pid, target, closing, now, at).Err? ==> !BooksBroken(Settle(db, pid, target, closing, now, at).error)
  {
    SettlementAcceptedIff(db, pid, target, closing, now, at, t);
    if pid in db.picks && db.picks[pid].status.Pending? && Financial(db.picks[pid]) {
      EscrowCovers(db, pid);
    }
  }

  // ---- One user at a time ----

  /** The only user whose wallet a request may move. */
  function UserOf(db: Db, op: Op): Option<UserId> {
    match op
    case Create(r) => if Staked(r) then r.user else None
    case Resolve(pid, _, _) => if pid in db.picks then db.picks[pid].owner else None
    case Delete(pid) => if pid in db.picks then db.picks[pid].owner else None
    case Confirm(pid, _) => if pid in db.picks then db.picks[pid].owner else None
    case Update(_, _) => None
    case Repair(u) => Some(u)
    case AddParlay(_, _, _) => None
  }

  lemma SettleWritesOwner(db: Db, pid: PickId, target: Status, closing: Option<int>, now: int, at: int)
    requires Settle(db, pid, target, closing, now, at).Ok? && pid in db.picks
    ensures Settle(db, pid, target, closing, now, at).value == db
            || exists w: Write :: Settle(db, pid, target, closing, now, at).value == Publish(db, w)
                               && (w.wallet.Some? ==> Some(w.wallet.value.0) == db.picks[pid].owner)
  {
  }

  lemma PublishTouchesOneWallet(db: Db, w: Write, v: UserId)
    requires v in db.wallets
    ensures v in Publish(db, w).wallets
    ensures (w.wallet.Some? ==> w.wallet.value.0 != v) ==> Publish(db, w).wallets[v] == db.wallets[v]
    ensures db.ledger <= Publish(db, w).ledger && |Publish(db, w).ledger| <= |db.ledger| + 1
    ensures db.outbox <= Publish(db, w).outbox
  {
  }

  lemma SettleOthersUntouched(db: Db, pid: PickId, target: Status, closing: Option<int>, now: int, at: int, v: UserId)
    requires Settle(db, pid, target, closing, now, at).Ok? && pid in db.picks && v in db.wallets
    ensures
      var next := Settle(db, pid, target, closing, now, at).value;
      && v in next.wallets && (Some(v) != db.picks[pid].owner ==> next.wallets[v] == db.wallets[v])
      && db.ledger <= next.ledger && |next.ledger| <= |db.ledger| + 1 && db.outbox <= next.outbox
  {
    SettleWritesOwner(db, pid, target, closing, now, at);
    var next := Settle(db, pid, target, closing, now, at).value;
    if next != db {
      var w: Write :| next == Publish(db, w) && (w.wallet.Some? ==> Some(w.wallet.value.0) == db.picks[pid].owner);
      PublishTouchesOneWallet(db, w, v);
    }
  }

  lemma CreateOthersUntouched(db: Db, r: NewPick, at: int, v: UserId)
    requires CreatePick(db, r, at).Ok? && v in db.wallets
    ensures
      var next := CreatePick(db, r, at).value;
      && v in next.wallets && (Some(v) != (if Staked(r) then r.user else None) ==> next.wallets[v] == db.wallets[v])
      && db.ledger <= next.ledger && |next.ledger| <= |db.ledger| + 1 && db.outbox <= next.outbox
  {
  }

  /** Whatever the state, no request touches another user's wallet, rewrites a ledger line or an
      outbox event, or appends more than one ledger line. */
  lemma OthersUntouched(db: Db, r: Request, v: UserId)
    requires v in db.wallets
    ensures v in After(db, r).wallets
    ensures Some(v) != UserOf(db, r.op) ==> After(db, r).wallets[v] == db.wallets[v]
    ensures db.ledger <= After(db, r).ledger && |After(db, r).ledger| <= |db.ledger| + 1
    ensures db.outbox <= After(db, r).outbox
  {
    if Execute(db, r).Ok? {
      match r.op
      case Create(request) => CreateOthersUntouched(db, request, r.at, v);
      case Resolve(pid, target, closing) => SettleOthersUntouched(db, pid, target, closing, r.now, r.at, v);
      case Delete(pid) => SettleOthersUntouched(db, pid, Status.Void, None, r.now, r.at, v);
      case Confirm(pid, confirmed) => if !confirmed { SettleOthersUntouched(db, pid, Status.Void, None, r.now, r.at, v); }
      case _ =>
    }
  }

  // ---- Drift and repair over serial runs ----

  /** A user is critical exactly when no ledger line of theirs exists yet and their wallet holds more than a cent. Once
      they have a line, the gate stays open, they are in warning exactly when pending stakes and locked funds are
      more than a cent apart, and a repair succeeds exactly when the pending stakes fit into the wallet. */
  ghost predicate DriftIsKnown(db: Db, u: UserId)
    requires u in db.wallets
  {
    var w, r := db.wallets[u], ReconcileUser(db, u);
    && r.Ok?
    && (r.value.severity.Critical? <==> Tail(db.ledger, u).None? && w.available + w.locked > TOLERANCE)
    && (Tail(db.ledger, u).Some? ==>
          && DriftGate(db, u).None?
          && (r.value.severity.Warning? <==> Abs(Escrow(db.picks, u) - w.locked) > TOLERANCE)
          && (FixUserBalance(db, u).Ok? <==> Escrow(db.picks, u) <= w.available + w.locked))
  }

  /** After any serial run, stake edits and repairs included. */
  lemma DriftOverRuns(db: Db, rs: seq<Request>, start: int, u: UserId)
    requires Seeded(db) && Serial(rs, start) && u in db.wallets
    ensures u in Run(db, rs).wallets && DriftIsKnown(Run(db, rs), u)
  {
    var last := Run(db, rs);
    RunKeepsSound(db, rs, start);
    hide Run, Serial, Seeded, Sound, Latest, Tail, Escrow, DriftGate, DriftIsKnown;
    LatestIsTail(last.ledger, LastStart(rs, start), u);
    DriftInOrder(last, u);
  }

  lemma DriftInOrder(db: Db, u: UserId)
    requires Sound(db) && u in db.wallets && Latest(db.ledger, u) == Tail(db.ledger, u)
    ensures DriftIsKnown(db, u)
  {
    WalletParts(db, u);
    StakesAreCounted(db, u);
    hide Sound, FixUserBalance, ReconcileUser, DriftType, Escrow, Latest, Tail;
    ReportSays(db, u);
    RepairSucceedsIff(db, u);
    assert Tail(db.ledger, u).None? ==> SnapshotTotal(Tail(db.ledger, u)) == 0;
    hide SnapshotTotal;
  }

  lemma WalletParts(db: Db, u: UserId)
    requires Sound(db) && u in db.wallets
    ensures db.wallets[u].available >= 0 && db.wallets[u].locked >= 0
    ensures Tail(db.ledger, u).Some? ==> SnapshotTotal(Tail(db.ledger, u)) == db.wallets[u].available + db.wallets[u].locked
  {
    assert Solvent(db) && TailTotals(db);
  }

  lemma StakesAreCounted(db: Db, u: UserId)
    requires Sound(db)
    ensures Escrow(db.picks, u) >= 0
  {
    assert PicksOk(db);
    hide Sound, PicksOk;
    forall k | k in db.picks ensures Share(db.picks[k], u, PendingStake) >= 0 {
      assert PickOk(db.picks[k]) by { assert PicksOk(db); }
    }
    TotalBounds(db.picks, u, PendingStake);
  }

  /** No serial run, stake edits included, leads to a wallet that is classed free of drift and that a
      repair would rewrite. */
  lemma NoDriftIsIdle(db: Db, rs: seq<Request>, start: int, u: UserId)
    requires Seeded(db) && Serial(rs, start)
    ensures
      var last := Run(db, rs);
      ReconcileUser(last, u).Ok? && DriftType(ReconcileUser(last, u).value) == NoDrift && FixUserBalance(last, u).Ok? ==>
        FixUserBalance(last, u).value == last
  {
    var last := Run(db, rs);
    RunKeepsSound(db, rs, start);
    hide Run, Serial, Seeded;
    LatestIsTail(last.ledger, LastStart(rs, start), u);
    if ReconcileUser(last, u).Ok? && DriftType(ReconcileUser(last, u).value) == NoDrift && FixUserBalance(last, u).Ok? {
      NoDriftInOrder(last, u);
    }
  }

  lemma NoDriftInOrder(db: Db, u: UserId)
    requires Sound(db) && Latest(db.ledger, u) == Tail(db.ledger, u)
    requires ReconcileUser(db, u).Ok? && DriftType(ReconcileUser(db, u).value) == NoDrift && FixUserBalance(db, u).Ok?
    ensures FixUserBalance(db, u).value == db
  {
    assert TailTotals(db) && Solvent(db);
    NoDriftRewrittenIff(db, u);
    RepairSucceedsIff(db, u);
    hide Sound, Tail, Latest, Escrow, FixUserBalance;
  }

  // ---- Why stake edits are excluded ----

  function StrandingSeed(): Db {
    Db(map[DEFAULT_USER := Wallet(1_000, 0)], map[], [], [], map[])
  }

  function StrandingPick(): NewPick {
    NewPick(0, Some(DEFAULT_USER), 0, 0, 0, "h2h", 100, Some(100), Manual, 0)
  }

  /** A stake of 1.00 is locked, then edited to 2.00. */
  function StrandingRun(): seq<Request> {
    [Request(Create(StrandingPick()), 0, 0), Request(Update(0, Changes(Keep, Set(Some(200)), Keep)), 1, 1)]
  }

  function StrandedPick(): Pick {
    FreshPick(StrandingPick()).(stake := Some(200))
  }

  function StrandedDb(): Db {
    Db(map[DEFAULT_USER := Wallet(900, 100)], map[0 := StrandedPick()],
       [Entry(DEFAULT_USER, 100, StakeLock, 0, 900, 100, 0)], [PickCreated(0, DEFAULT_USER, 100)], map[])
  }

  lemma StrandingReaches()
    ensures Run(StrandingSeed(), StrandingRun()) == StrandedDb()
  {
    var one := StrandedDb().(picks := map[0 := FreshPick(StrandingPick())]);
    assert After(StrandingSeed(), StrandingRun()[0]) == one;
    EditStake(one, 0, 200);
    assert one.picks[0 := StrandedPick()] == StrandedDb().picks;
    RunOfTwo(StrandingSeed(), StrandingRun()[0], StrandingRun()[1]);
  }

  /** An edit that raises a pending stake moves no escrow, so the pick it edits can no longer be
      settled to any outcome: this run ends in a refused settlement. */
  lemma StakeEditStrandsThePick(target: Status)
    requires target.Terminal()
    ensures Seeded(StrandingSeed()) && Serial(StrandingRun(), 0)
    ensures Execute(Run(StrandingSeed(), StrandingRun()), Request(Resolve(0, target, None), 2, 2)) == Err(CriticalInvariantBroken)
  {
    hide Run, Settle, Sound, InOrder;
    StrandingReaches();
    RunKeepsSound(StrandingSeed(), StrandingRun(), 0);
    SettleAnswers(StrandedDb(), 0, target, None, 2, 2, 1);
  }

  lemma EditStake(db: Db, pid: PickId, stake: int)
    requires pid in db.picks && PickOk(db.picks[pid]) && db.picks[pid].status.Pending? && stake > 0
    ensures UpdatePick(db, pid, Changes(Keep, Set(Some(stake)), Keep))
         == Ok(db.(picks := db.picks[pid := db.picks[pid].(stake := Some(stake))]))
  {
  }

  lemma RunOfTwo(db: Db, r: Request, s: Request)
    ensures Run(db, [r, s]) == After(After(db, r), s)
  {
    assert [r, s][..1] == [r] && [r][..0] == [];
    assert Run(db, [r]) == After(Run(db, []), r);
  }
}
