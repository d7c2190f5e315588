/** Whole-run results: settlement happens once and is final, profits account for every cent, and in
    runs in which no edit moves a stake escrow is exact and the ledger replays to the wallets. */
module History {
  import opened Money
  import opened Domain
  import opened Tables
  import opened Reconciliation
  import opened Engine
  import opened Invariants
  import opened Runs
  import opened Acceptance

  // ---- Settled at most once, and finally ----

  /** Over every serial run a pick has at most one line across payouts, losses and refunds together;
      it has exactly one, of the right kind, iff it is terminal with an owner and a positive stake;
      and its outbox events are exactly its creation (when owned) and its settlement (when terminal). */
  lemma SettledAtMostOnce(db: Db, rs: seq<Request>, start: int, pid: PickId)
    requires Seeded(db) && Serial(rs, start) && pid in Run(db, rs).picks
    ensures
      var last := Run(db, rs);
      var p, rows, events := last.picks[pid], Settlements(last.ledger, pid), EventsOf(last.outbox, pid);
      && |rows| <= 1
      && (|rows| == 1 <==> p.status.Terminal() && p.owner.Some? && p.stake.Some? && p.stake.value > 0)
      && (|rows| == 1 ==> rows[0].kind == LineType(p.status) && Some(rows[0].user) == p.owner)
      && (forall e :: e in events && e.PickSettled? ==> p.status.Terminal() && e == PickSettled(pid, p.owner, p.status))
      && (p.status.Terminal() ==> events != [] && events[|events| - 1] == PickSettled(pid, p.owner, p.status))
      && (forall i :: 0 <= i < |events| - 1 ==> events[i].PickCreated?)
  {
    hide Run, Sound, Serial, Seeded;
    RunKeepsSound(db, rs, start);
    SettledOnceEach(Run(db, rs), pid);
  }

  lemma SettledOnceEach(db: Db, pid: PickId)
    requires Sound(db) && pid in db.picks
    ensures
      var p, rows, events := db.picks[pid], Settlements(db.ledger, pid), EventsOf(db.outbox, pid);
      && |rows| <= 1
      && (|rows| == 1 <==> p.status.Terminal() && p.owner.Some? && p.stake.Some? && p.stake.value > 0)
      && (|rows| == 1 ==> rows[0].kind == LineType(p.status) && Some(rows[0].user) == p.owner)
      && (forall e :: e in events && e.PickSettled? ==> p.status.Terminal() && e == PickSettled(pid, p.owner, p.status))
      && (p.status.Terminal() ==> events != [] && events[|events| - 1] == PickSettled(pid, p.owner, p.status))
      && (forall i :: 0 <= i < |events| - 1 ==> events[i].PickCreated?)
  {
    hide Settlements, EventsOf, LockOf, Sound, SettledRight, ExpectedEvents;
    HeldRecords(db, pid);
    RowsMean(db.picks[pid], Settlements(db.ledger, pid));
    EventsMean(pid, db.picks[pid], LockOf(db.ledger, pid));
  }

  lemma HeldRecords(db: Db, pid: PickId)
    requires Sound(db) && pid in db.picks
    ensures SettledRight(db.picks[pid], Settlements(db.ledger, pid))
    ensures EventsOf(db.outbox, pid) == ExpectedEvents(pid, db.picks[pid], LockOf(db.ledger, pid))
  {
    assert SettledOnce(db) && Announced(db);
    hide Settlements, EventsOf, LockOf, SettledRight, ExpectedEvents, Sound;
  }

  lemma RowsMean(p: Pick, rows: seq<Entry>)
    requires SettledRight(p, rows)
    ensures |rows| <= 1 && (|rows| == 1 <==> p.status.Terminal() && p.owner.Some? && p.stake.Some? && p.stake.value > 0)
    ensures |rows| == 1 ==> rows[0].kind == LineType(p.status) && Some(rows[0].user) == p.owner
  {
  }

  lemma EventsMean(pid: PickId, p: Pick, lock: Option<Entry>)
    ensures
      var events := ExpectedEvents(pid, p, lock);
      && (forall e :: e in events && e.PickSettled? ==> p.status.Terminal() && e == PickSettled(pid, p.owner, p.status))
      && (p.status.Terminal() ==> events != [] && events[|events| - 1] == PickSettled(pid, p.owner, p.status))
      && (forall i :: 0 <= i < |events| - 1 ==> events[i].PickCreated?)
  {
  }

  /** One request never alters a settled pick beyond its confirmation time. */
  lemma RequestKeepsTerminal(db: Db, r: Request, t: int, pid: PickId)
    requires Sound(db) && InOrder(db.ledger, t) && pid in db.picks && db.picks[pid].status.Terminal()
    ensures pid in After(db, r).picks
    ensures After(db, r).picks[pid] == db.picks[pid].(confirmedAt := After(db, r).picks[pid].confirmedAt)
  {
    hide Execute, Sound, InOrder;
    if Execute(db, r).Ok? {
      ExecuteChanges(db, r, t);
      var c :| Legal(db, c, r.at) && Execute(db, r).value.(parlays := db.parlays) == Apply(db, c);
      assert Execute(db, r).value.picks == Apply(db, c).picks;
    }
  }

  /** Once terminal, a pick keeps its status, stake, odds, market, return and profit for the rest of
      any serial run. */
  lemma {:induction false} TerminalIsFinal(db: Db, rs: seq<Request>, t: int, pid: PickId)
    requires Sound(db) && InOrder(db.ledger, t) && Serial(rs, t)
    requires pid in db.picks && db.picks[pid].status.Terminal()
    ensures Sound(Run(db, rs)) && InOrder(Run(db, rs).ledger, LastStart(rs, t))
    ensures pid in Run(db, rs).picks
    ensures Run(db, rs).picks[pid] == db.picks[pid].(confirmedAt := Run(db, rs).picks[pid].confirmedAt)
  {
    if rs != [] {
      var n := |rs| - 1;
      TerminalIsFinal(db, rs[..n], t, pid);
      hide Sound, InOrder, After;
      RequestKeepsTerminal(Run(db, rs[..n]), rs[n], LastStart(rs[..n], t), pid);
      RequestKeepsSound(Run(db, rs[..n]), rs[n], LastStart(rs[..n], t));
    }
  }

  // ---- Every wallet is its seed plus the profits of its settled picks ----

  /** A settlement moves one user's locked funds with the pending stakes and the user's total with
      the settled profits. */
  lemma SettlementMoves(db: Db, w: Write, target: Status, at: int, u: UserId)
    requires PicksOk(db) && IsSettlement(db, w, target, at) && u in db.wallets
    ensures
      var before, after := db.wallets[u], Publish(db, w).wallets[u];
      var picks := Publish(db, w).picks;
      && after.locked - before.locked == Escrow(picks, u) - Escrow(db.picks, u)
      && after.available + after.locked - before.available - before.locked
           == Total(picks, u, SettledProfit) - Total(db.picks, u, SettledProfit)
  {
    TotalUpdate(db.picks, u, PendingStake, w.pid, w.pick);
    TotalUpdate(db.picks, u, SettledProfit, w.pid, w.pick);
    if Financial(w.pick) {
      CreditIsStakePlusProfit(w.pick);
    }
  }

  lemma CreationMoves(db: Db, w: Write, at: int, u: UserId)
    requires IsCreation(db, w, at) && u in db.wallets
    ensures
      var before, after := db.wallets[u], Publish(db, w).wallets[u];
      var picks := Publish(db, w).picks;
      && after.locked - before.locked == Escrow(picks, u) - Escrow(db.picks, u)
      && after.available + after.locked - before.available - before.locked
           == Total(picks, u, SettledProfit) - Total(db.picks, u, SettledProfit)
  {
    TotalUpdate(db.picks, u, PendingStake, w.pid, w.pick);
    TotalUpdate(db.picks, u, SettledProfit, w.pid, w.pick);
  }

  lemma TouchMoves(picks: map<PickId, Pick>, pid: PickId, q: Pick, u: UserId)
    requires pid in picks && IsTouch(picks[pid], q)
    ensures Total(picks[pid := q], u, SettledProfit) == Total(picks, u, SettledProfit)
    ensures q.stake == picks[pid].stake ==> Escrow(picks[pid := q], u) == Escrow(picks, u)
  {
    TotalUpdate(picks, u, PendingStake, pid, q);
    TotalUpdate(picks, u, SettledProfit, pid, q);
  }

  lemma ChangeKeepsProfits(db: Db, c: Change, at: int, seeds: map<UserId, Wallet>)
    requires PicksOk(db) && Legal(db, c, at) && ProfitsAddUp(db, seeds)
    ensures ProfitsAddUp(Apply(db, c), seeds)
  {
    var db' := Apply(db, c);
    assert db'.wallets.Keys == db.wallets.Keys;
    forall u | u in db'.wallets
      ensures db'.wallets[u].available + db'.wallets[u].locked
           == seeds[u].available + seeds[u].locked + Total(db'.picks, u, SettledProfit)
    {
      match c
      case Settled(w, target) => SettlementMoves(db, w, target, at, u);
      case Created(w) => CreationMoves(db, w, at, u);
      case Touched(pid, q) => TouchMoves(db.picks, pid, q, u);
      case _ =>
    }
  }

  /** Conservation over every serial run, stake edits and repairs included: available plus locked is
      the seeded total plus the stored profits of the user's settled picks, to the cent. */
  lemma {:induction false} WalletIsSeedPlusProfits(db: Db, rs: seq<Request>, start: int)
    requires Seeded(db) && Serial(rs, start)
    ensures ProfitsAddUp(Run(db, rs), db.wallets)
  {
    if rs != [] {
      var n := |rs| - 1;
      WalletIsSeedPlusProfits(db, rs[..n], start);
      RunKeepsSound(db, rs[..n], start);
      hide Seeded, Sound, ProfitsAddUp, InOrder;
      RequestKeepsProfits(Run(db, rs[..n]), rs[n], LastStart(rs[..n], start), db.wallets);
    }
  }

  lemma RequestKeepsProfits(db: Db, r: Request, t: int, seeds: map<UserId, Wallet>)
    requires Sound(db) && InOrder(db.ledger, t) && ProfitsAddUp(db, seeds)
    ensures ProfitsAddUp(After(db, r), seeds)
  {
    hide Execute, InOrder, PicksOk, LinesOk, OwnersOk, SettledOnce, Announced, TailTotals, ChainOk, Solvent;
    if Execute(db, r).Ok? {
      ExecuteChanges(db, r, t);
      var c :| Legal(db, c, r.at) && Execute(db, r).value.(parlays := db.parlays) == Apply(db, c);
      hide Legal;
      ChangeKeepsProfits(db, c, r.at, seeds);
      ProfitsIgnoreParlays(After(db, r), db.parlays, seeds);
    }
  }

  lemma ProfitsIgnoreParlays(db: Db, parlays: map<ParlayId, Parlay>, seeds: map<UserId, Wallet>)
    ensures ProfitsAddUp(db.(parlays := parlays), seeds) <==> ProfitsAddUp(db, seeds)
  {
  }

  // ---- Escrow and replay, in runs in which no edit moves a stake ----

  /** Locked funds are exactly the pending stakes. */
  ghost predicate EscrowExact(db: Db) {
    forall u :: u in db.wallets ==> db.wallets[u].locked == Escrow(db.picks, u)
  }

  /** Every owned pick still has the stake it locked. */
  ghost predicate StakesLocked(db: Db) {
    forall pid :: pid in db.picks && db.picks[pid].owner.Some? && LockOf(db.ledger, pid).Some? ==>
      db.picks[pid].stake == Some(LockOf(db.ledger, pid).value.amount)
  }

  /** One ledger line applied to a wallet; a payout releases the stake locked under its reference. */
  function Post(history: seq<Entry>, e: Entry, w: Wallet): Wallet {
    match e.kind
    case StakeLock => Wallet(w.available - e.amount, w.locked + e.amount)
    case Loss => Wallet(w.available, w.locked - e.amount)
    case Refund => Wallet(w.available + e.amount, w.locked - e.amount)
    case Payout => Wallet(w.available + e.amount, w.locked - (if LockOf(history, e.ref).Some? then LockOf(history, e.ref).value.amount else 0))
  }

  /** A user's wallet computed from the seed and the ledger alone. */
  function Replay(ledger: seq<Entry>, seed: Wallet, u: UserId): Wallet {
    if ledger == [] then seed
    else
      var history, e := ledger[..|ledger| - 1], ledger[|ledger| - 1];
      if e.user == u then Post(history, e, Replay(history, seed, u)) else Replay(history, seed, u)
  }

  /** The replay reproduces the snapshots stored on line `k`. */
  ghost predicate Reproduces(ledger: seq<Entry>, seeds: map<UserId, Wallet>, k: nat)
    requires k < |ledger|
  {
    var e := ledger[k];
    e.user in seeds && Replay(ledger[..k + 1], seeds[e.user], e.user) == Wallet(e.balanceAfter, e.lockedAfter)
  }

  ghost predicate Replays(db: Db, seeds: map<UserId, Wallet>) {
    && seeds.Keys == db.wallets.Keys
    && (forall u :: u in seeds ==> Replay(db.ledger, seeds[u], u) == db.wallets[u])
    && (forall k :: 0 <= k < |db.ledger| ==> Reproduces(db.ledger, seeds, k))
  }

  lemma ReplayAppended(ledger: seq<Entry>, e: Entry, seeds: map<UserId, Wallet>)
    requires forall k :: 0 <= k < |ledger| ==> Reproduces(ledger, seeds, k)
    requires e.user in seeds
    requires Post(ledger, e, Replay(ledger, seeds[e.user], e.user)) == Wallet(e.balanceAfter, e.lockedAfter)
    ensures forall k :: 0 <= k <= |ledger| ==> Reproduces(ledger + [e], seeds, k)
    ensures forall u | u in seeds :: Replay(ledger + [e], seeds[u], u)
              == if u == e.user then Wallet(e.balanceAfter, e.lockedAfter) else Replay(ledger, seeds[u], u)
  {
    var longer := ledger + [e];
    assert longer[..|ledger|] == ledger && longer[..|ledger| + 1] == longer;
    forall k | 0 <= k <= |ledger| ensures Reproduces(longer, seeds, k) {
      if k < |ledger| {
        assert Reproduces(ledger, seeds, k);
        assert longer[..k + 1] == ledger[..k + 1];
      }
    }
  }

  /** The stronger invariant of such runs. */
  ghost predicate Exact(db: Db, seeds: map<UserId, Wallet>) {
    Sound(db) && EscrowExact(db) && StakesLocked(db) && Replays(db, seeds)
  }

  lemma ChangeKeepsEscrow(db: Db, c: Change, at: int)
    requires PicksOk(db) && EscrowExact(db) && Legal(db, c, at)
    requires c.Touched? ==> c.pick.stake == db.picks[c.pid].stake
    ensures EscrowExact(Apply(db, c))
  {
    var db' := Apply(db, c);
    assert db'.wallets.Keys == db.wallets.Keys;
    forall u | u in db'.wallets ensures db'.wallets[u].locked == Escrow(db'.picks, u) {
      match c
      case Settled(w, target) => SettlementMoves(db, w, target, at, u);
      case Created(w) => CreationMoves(db, w, at, u);
      case Touched(pid, q) => TouchMoves(db.picks, pid, q, u);
      case _ =>
    }
  }

  lemma RebalanceIsIdle(db: Db, u: UserId, w: Wallet, at: int)
    requires EscrowExact(db) && Legal(db, Rebalanced(u, w), at)
    ensures Apply(db, Rebalanced(u, w)) == db
  {
    assert db.wallets[u := w] == db.wallets;
  }

  lemma SettlementKeepsLocks(db: Db, w: Write, target: Status, at: int)
    requires StakesLocked(db) && IsSettlement(db, w, target, at)
    ensures StakesLocked(Publish(db, w))
  {
    if Financial(db.picks[w.pid]) {
      Appended(db.ledger, w.line.value);
    }
    hide PickOk, Settlements, Tail, Latest;
  }

  lemma CreationKeepsLocks(db: Db, w: Write, at: int)
    requires LinesOk(db) && StakesLocked(db) && IsCreation(db, w, at)
    ensures StakesLocked(Publish(db, w))
  {
    NoRows(db.ledger, w.pid);
    if w.pick.owner.Some? {
      Appended(db.ledger, w.line.value);
    }
    hide PickOk, Settlements, Tail, Latest;
  }

  lemma ChangeKeepsLocks(db: Db, c: Change, at: int)
    requires LinesOk(db) && StakesLocked(db) && Legal(db, c, at)
    requires c.Touched? ==> c.pick.stake == db.picks[c.pid].stake
    ensures StakesLocked(Apply(db, c))
  {
    hide IsSettlement, IsCreation, LinesOk, Publish, PickOk;
    match c
    case Settled(w, target) => SettlementKeepsLocks(db, w, target, at);
    case Created(w) => CreationKeepsLocks(db, w, at);
    case _ =>
  }

  lemma SettlementReplays(db: Db, w: Write, target: Status, at: int, seeds: map<UserId, Wallet>)
    requires PicksOk(db) && OwnersOk(db) && StakesLocked(db) && Replays(db, seeds) && IsSettlement(db, w, target, at)
    ensures Replays(Publish(db, w), seeds)
  {
    if Financial(db.picks[w.pid]) {
      CreditIsStakePlusProfit(w.pick);
      ReplayAppended(db.ledger, w.line.value, seeds);
    }
  }

  lemma CreationReplays(db: Db, w: Write, at: int, seeds: map<UserId, Wallet>)
    requires Replays(db, seeds) && IsCreation(db, w, at)
    ensures Replays(Publish(db, w), seeds)
  {
    if w.pick.owner.Some? {
      ReplayAppended(db.ledger, w.line.value, seeds);
    }
  }

  lemma ChangeKeepsReplay(db: Db, c: Change, at: int, seeds: map<UserId, Wallet>)
    requires Exact(db, seeds) && Legal(db, c, at)
    ensures Replays(Apply(db, c), seeds)
  {
    match c
    case Settled(w, target) => SettlementReplays(db, w, target, at, seeds);
    case Created(w) => CreationReplays(db, w, at, seeds);
    case Rebalanced(u, w) => RebalanceIsIdle(db, u, w, at);
    case _ =>
  }

  // ---- Edits that move a stake ----

  function StakeOf(p: Pick): int {
    if p.stake.Some? then p.stake.value else 0
  }

  /** An accepted edit that changes what an owned pick has at stake; no stake counts as zero. */
  ghost predicate MovesStake(db: Db, r: Request) {
    && r.op.Update? && r.op.pid in db.picks && db.picks[r.op.pid].owner.Some?
    && Edited(db.picks[r.op.pid], r.op.changes).Ok? && db.picks[r.op.pid].status.Pending?
    && StakeOf(Edited(db.picks[r.op.pid], r.op.changes).value) != StakeOf(db.picks[r.op.pid])
  }

  /** From exact escrow, an accepted edit keeps it exact if and only if the pick has no owner or has as
      much at stake as before. */
  lemma EditKeepsEscrowIff(db: Db, pid: PickId, c: Changes)
    requires OwnersOk(db) && EscrowExact(db) && UpdatePick(db, pid, c).Ok?
    ensures pid in db.picks && pid in UpdatePick(db, pid, c).value.picks
    ensures EscrowExact(UpdatePick(db, pid, c).value) <==>
              db.picks[pid].owner.None? || StakeOf(UpdatePick(db, pid, c).value.picks[pid]) == StakeOf(db.picks[pid])
  {
    var next := UpdatePick(db, pid, c).value;
    var p, q := db.picks[pid], next.picks[pid];
    assert next == db.(picks := db.picks[pid := q]) && q.owner == p.owner && q.status == p.status && p.status.Pending?;
    hide UpdatePick, Total, LockOf;
    forall u: UserId ensures Escrow(next.picks, u) == Escrow(db.picks, u) + (if p.owner == Some(u) then StakeOf(q) - StakeOf(p) else 0) {
      TotalUpdate(db.picks, u, PendingStake, pid, q);
    }
    if p.owner.Some? {
      assert db.wallets[p.owner.value].locked == Escrow(db.picks, p.owner.value);
    }
  }

  /** An edit that moves no stake keeps everything exact. */
  lemma EditKeepsExact(db: Db, r: Request, t: int, seeds: map<UserId, Wallet>)
    requires Exact(db, seeds) && r.op.Update? && !MovesStake(db, r) && Execute(db, r).Ok?
    ensures EscrowExact(After(db, r)) && StakesLocked(After(db, r)) && Replays(After(db, r), seeds)
  {
    hide Edited, EscrowExact, UpdatePick, LockOf, Replay, Reproduces, Sound, PickOk;
    var pid, c := r.op.pid, r.op.changes;
    var next := UpdatePick(db, pid, c).value;
    UpdateIsEdit(db, pid, c);
    SoundOwners(db);
    EditKeepsEscrowIff(db, pid, c);
    SameLedgerReplays(db, next, seeds);
    if db.picks[pid].owner.Some? {
      SameStake(db.picks[pid], next.picks[pid]);
    }
  }

  lemma SameStake(p: Pick, q: Pick)
    requires PickOk(p) && p.stake.Some? && StakeOf(q) == StakeOf(p)
    ensures q.stake == p.stake
  {
  }

  lemma SoundOwners(db: Db)
    requires Sound(db)
    ensures OwnersOk(db) && forall pid :: pid in db.picks ==> PickOk(db.picks[pid])
  {
  }

  lemma UpdateIsEdit(db: Db, pid: PickId, c: Changes)
    requires UpdatePick(db, pid, c).Ok?
    ensures pid in db.picks && db.picks[pid].status.Pending? && Edited(db.picks[pid], c).Ok?
    ensures UpdatePick(db, pid, c).value == db.(picks := db.picks[pid := Edited(db.picks[pid], c).value])
    ensures Edited(db.picks[pid], c).value.owner == db.picks[pid].owner
  {
  }

  lemma SameLedgerReplays(db: Db, next: Db, seeds: map<UserId, Wallet>)
    requires Replays(db, seeds) && next.wallets == db.wallets && next.ledger == db.ledger
    ensures Replays(next, seeds)
  {
    hide Replay, Reproduces;
  }

  ghost predicate StakesStay(db: Db, rs: seq<Request>) {
    forall k :: 0 <= k < |rs| ==> !MovesStake(Run(db, rs[..k]), rs[k])
  }

  lemma StakesStayBefore(db: Db, rs: seq<Request>, n: nat)
    requires StakesStay(db, rs) && n <= |rs|
    ensures StakesStay(db, rs[..n])
  {
    hide Run, MovesStake;
    forall k | 0 <= k < n ensures !MovesStake(Run(db, rs[..n][..k]), rs[..n][k]) {
      assert rs[..n][..k] == rs[..k];
      assert !MovesStake(Run(db, rs[..k]), rs[k]);
    }
  }

  /** Over every serial run in which no edit moves a stake: each wallet's locked funds are exactly the
      user's pending stakes, and replaying the ledger from the seeds reproduces every stored snapshot
      and the final wallets. */
  lemma {:induction false} RunIsExact(db: Db, rs: seq<Request>, start: int)
    requires Seeded(db) && Serial(rs, start) && StakesStay(db, rs)
    ensures Exact(Run(db, rs), db.wallets)
  {
    RunKeepsSound(db, rs, start);
    if rs != [] {
      var n := |rs| - 1;
      var prior, r := Run(db, rs[..n]), rs[n];
      StakesStayBefore(db, rs, n);
      assert !MovesStake(prior, r);
      hide MovesStake, StakesStay, EscrowExact, StakesLocked, Replays, Sound, Execute;
      RunIsExact(db, rs[..n], start);
      RunKeepsSound(db, rs[..n], start);
      if Execute(prior, r).Ok? {
        RequestKeepsExact(prior, r, LastStart(rs[..n], start), db.wallets);
      }
    }
  }

  /** Locked funds equal the pending stakes throughout a serial run if and only if no edit moves a
      stake. */
  lemma ExactIffStakesStay(db: Db, rs: seq<Request>, start: int)
    requires Seeded(db) && Serial(rs, start)
    ensures (forall k :: 0 <= k <= |rs| ==> EscrowExact(Run(db, rs[..k]))) <==> StakesStay(db, rs)
  {
    hide Run, EscrowExact, Seeded, MovesStake;
    if StakesStay(db, rs) {
      forall k | 0 <= k <= |rs| ensures EscrowExact(Run(db, rs[..k])) {
        StakesStayBefore(db, rs, k);
        RunIsExact(db, rs[..k], start);
      }
    }
    if forall k :: 0 <= k <= |rs| ==> EscrowExact(Run(db, rs[..k])) {
      forall k | 0 <= k < |rs| ensures !MovesStake(Run(db, rs[..k]), rs[k]) {
        RunKeepsSound(db, rs[..k], start);
        assert EscrowExact(Run(db, rs[..k])) && EscrowExact(Run(db, rs[..k + 1]));
        RunStep(db, rs, k);
        MovedStakeShows(Run(db, rs[..k]), rs[k]);
      }
    }
  }

  lemma RunStep(db: Db, rs: seq<Request>, k: nat)
    requires k < |rs|
    ensures Run(db, rs[..k + 1]) == After(Run(db, rs[..k]), rs[k])
  {
    assert rs[..k + 1][..k] == rs[..k];
  }

  lemma MovedStakeShows(db: Db, r: Request)
    requires Sound(db) && EscrowExact(db) && EscrowExact(After(db, r))
    ensures !MovesStake(db, r)
  {
    assert OwnersOk(db);
    assert MovesStake(db, r) ==> UpdatePick(db, r.op.pid, r.op.changes).Ok?;
    if MovesStake(db, r) {
      hide Edited, EscrowExact, Sound, OwnersOk;
      EditKeepsEscrowIff(db, r.op.pid, r.op.changes);
    }
  }

  lemma ExactIgnoresParlays(db: Db, parlays: map<ParlayId, Parlay>, seeds: map<UserId, Wallet>)
    ensures EscrowExact(db.(parlays := parlays)) <==> EscrowExact(db)
    ensures StakesLocked(db.(parlays := parlays)) <==> StakesLocked(db)
    ensures Replays(db.(parlays := parlays), seeds) <==> Replays(db, seeds)
  {
  }

  lemma RequestKeepsExact(db: Db, r: Request, t: int, seeds: map<UserId, Wallet>)
    requires Exact(db, seeds) && InOrder(db.ledger, t) && !MovesStake(db, r) && Execute(db, r).Ok?
    ensures EscrowExact(After(db, r)) && StakesLocked(After(db, r)) && Replays(After(db, r), seeds)
  {
    if r.op.Update? {
      hide Execute, InOrder, MovesStake, Exact;
      EditKeepsExact(db, r, t, seeds);
    } else {
      OtherRequestsKeepExact(db, r, t, seeds);
    }
  }

  lemma OtherRequestsKeepExact(db: Db, r: Request, t: int, seeds: map<UserId, Wallet>)
    requires Exact(db, seeds) && InOrder(db.ledger, t) && !r.op.Update? && Execute(db, r).Ok?
    ensures EscrowExact(After(db, r)) && StakesLocked(After(db, r)) && Replays(After(db, r), seeds)
  {
    hide Execute, InOrder, Replays, EscrowExact, StakesLocked, PicksOk, LinesOk, OwnersOk, SettledOnce, Announced,
      TailTotals, ChainOk, Solvent;
    ExecuteChanges(db, r, t);
    var c :| Legal(db, c, r.at) && Execute(db, r).value.(parlays := db.parlays) == Apply(db, c)
             && (c.Touched? && c.pick.stake != db.picks[c.pid].stake ==> r.op.Update?);
    ChangeKeepsEscrow(db, c, r.at);
    ChangeKeepsLocks(db, c, r.at);
    ChangeKeepsReplay(db, c, r.at, seeds);
    ExactIgnoresParlays(After(db, r), db.parlays, seeds);
  }

  /** A repair that succeeds in such a run changes nothing. */
  lemma RepairIsIdle(db: Db, u: UserId, t: int)
    requires Sound(db) && EscrowExact(db) && InOrder(db.ledger, t) && FixUserBalance(db, u).Ok?
    ensures FixUserBalance(db, u).value == db
  {
    RepairChanges(db, u, t);
    RebalanceIsIdle(db, u, FixUserBalance(db, u).value.wallets[u], t);
  }
}
