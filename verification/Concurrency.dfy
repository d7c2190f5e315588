/** Requests served at the same time, at the granularity of row locks and statements.

    Every worker runs one transaction: a settlement, a creation or a repair. Statements read the
    committed tables (READ COMMITTED); a worker's own writes become visible when it commits, which
    also releases its locks; it may abort at any point before that. A settlement locks the pick row,
    reads the drift gate's three values without a lock, then locks the balance row; a creation and a
    repair lock the balance row only. */
module Concurrency {
  import opened Odds
  import opened Domain
  import opened Tables
  import opened Reconciliation
  import opened Engine

  datatype Job =
    | SettleJob(pid: PickId, target: Status, closing: Option<int>, now: int)
    | CreateJob(request: NewPick)
    | RepairJob(user: UserId)

  /** A job and the start of its transaction, which stamps its ledger line. */
  datatype Task = Task(job: Job, at: int)

  /** Where a worker stands, with the values it has read so far. */
  datatype Phase =
    | Start
    | PickHeld(pick: Pick)
    | GateWallet(of: Option<Pick>, wallet: Wallet)
    | GateEscrow(of: Option<Pick>, wallet: Wallet, escrow: int)
    | AwaitBalance(of: Option<Pick>)
    | BalanceHeld(of: Option<Pick>, wallet: Wallet)
    | EscrowHeld(wallet: Wallet, escrow: int)
    | Written(write: Write)
    | Rebalancing(wallet: Wallet)
    | Committed
    | Rejected
  {
    predicate Finished() {
      Committed? || Rejected?
    }
  }

  /** The committed tables, the workers, and the order in which they committed. */
  datatype System = System(db: Db, phases: seq<Phase>, log: seq<nat>)

  function Owner(p: Pick): UserId {
    if p.owner.Some? then p.owner.value else 0
  }

  // ---- Locks ----

  predicate HoldsPick(t: Task, ph: Phase, pid: PickId) {
    && t.job.SettleJob? && t.job.pid == pid
    && (ph.PickHeld? || ph.GateWallet? || ph.GateEscrow? || ph.AwaitBalance? || ph.BalanceHeld? || ph.Written?)
  }

  predicate HoldsBalance(t: Task, ph: Phase, u: UserId) {
    match t.job
    case SettleJob(_, _, _, _) =>
      || (ph.BalanceHeld? && ph.of.Some? && Owner(ph.of.value) == u)
      || (ph.Written? && ph.write.wallet.Some? && ph.write.wallet.value.0 == u)
    case CreateJob(r) => (ph.BalanceHeld? || ph.Written?) && Staked(r) && r.user == Some(u)
    case RepairJob(user) => user == u && (ph.BalanceHeld? || ph.EscrowHeld? || ph.Rebalancing?)
  }

  predicate PickFree(plan: seq<Task>, s: System, i: nat, pid: PickId)
    requires |s.phases| == |plan|
  {
    forall j :: 0 <= j < |plan| && j != i ==> !HoldsPick(plan[j], s.phases[j], pid)
  }

  predicate BalanceFree(plan: seq<Task>, s: System, i: nat, u: UserId)
    requires |s.phases| == |plan|
  {
    forall j :: 0 <= j < |plan| && j != i ==> !HoldsBalance(plan[j], s.phases[j], u)
  }

  // ---- One statement of one worker ----

  datatype Outcome = Stay | Become(phase: Phase) | Commit(db: Db)

  function Recorded(db: Db, t: Task, p: Pick, wallet: Option<Wallet>): Phase
    requires t.job.SettleJob? && t.job.target.Terminal() && (t.job.closing.Some? ==> t.job.closing.value > 0)
  {
    var pid, target := t.job.pid, t.job.target;
    match SettleWrite(pid, WithClosing(p, t.job.closing), p, Settlements(db.ledger, pid), wallet,
                      LineTaken(db.ledger, pid, LineType(target)), KeyTaken(db.outbox, SettledKey(pid, target)),
                      target, t.job.now, t.at)
    case Err(_) => Rejected
    case Ok(w) => Written(w)
  }

  function NextSettle(db: Db, t: Task, ph: Phase, pickFree: bool, balanceFree: UserId -> bool): Outcome
    requires t.job.SettleJob?
  {
    match ph
    case Start =>
      if t.job.pid !in db.picks then Become(Rejected)
      else if pickFree then Become(PickHeld(db.picks[t.job.pid])) else Stay
    case PickHeld(p) =>
      (match Judge(p, t.job.target, Decided(db.ledger, t.job.pid), t.job.closing)
       case NoOp => Commit(db)
       case Refuse(_) => Become(Rejected)
       case Proceed(q) =>
         if !Financial(p) then Become(Recorded(db, t, p, None))
         else if Owner(p) in db.wallets then Become(GateWallet(Some(p), db.wallets[Owner(p)]))
         else Become(Rejected))
    case GateWallet(Some(p), w) => Become(GateEscrow(Some(p), w, Escrow(db.picks, Owner(p))))
    case GateEscrow(Some(p), w, escrow) =>
      if ReportOn(Owner(p), w, escrow, Latest(db.ledger, Owner(p))).severity.Critical? then Become(Rejected)
      else Become(AwaitBalance(Some(p)))
    case AwaitBalance(Some(p)) =>
      if balanceFree(Owner(p)) then Become(BalanceHeld(Some(p), WalletOf(db, Owner(p)))) else Stay
    case BalanceHeld(Some(p), w) =>
      if t.job.target.Terminal() && (t.job.closing.Some? ==> t.job.closing.value > 0)
      then Become(Recorded(db, t, p, Some(w))) else Stay
    case Written(w) => Commit(Publish(db, w))
    case _ => Stay
  }

  /** Creation checks made before any lock is taken. */
  predicate Admissible(r: NewPick) {
    && ValidAmerican(r.oddsAmerican) && Validate(Load(FreshPick(r)), None, PROFIT_TOLERANCE).None?
    && (Staked(r) ==> r.user.Some?)
  }

  function Inserted(db: Db, r: NewPick, w: Wallet, at: int): Phase {
    match CreateWrite(r, w, r.pid in db.picks, LineTaken(db.ledger, r.pid, StakeLock), KeyTaken(db.outbox, CreatedKey(r.pid)), at)
    case Err(_) => Rejected
    case Ok(write) => Written(write)
  }

  function NextCreate(db: Db, t: Task, ph: Phase, balanceFree: UserId -> bool): Outcome
    requires t.job.CreateJob?
  {
    var r := t.job.request;
    match ph
    case Start =>
      if !Admissible(r) then Become(Rejected)
      else if !Staked(r) then Become(Inserted(db, r, Wallet(0, 0), t.at))
      else if balanceFree(r.user.value) then Become(BalanceHeld(None, WalletOf(db, r.user.value))) else Stay
    case BalanceHeld(_, w) => Become(Inserted(db, r, w, t.at))
    case Written(w) => Commit(Publish(db, w))
    case _ => Stay
  }

  function NextRepair(db: Db, t: Task, ph: Phase, balanceFree: UserId -> bool): Outcome
    requires t.job.RepairJob?
  {
    var u := t.job.user;
    match ph
    case Start => if u in db.wallets then Become(GateWallet(None, db.wallets[u])) else Become(Rejected)
    case GateWallet(_, w) => Become(GateEscrow(None, w, Escrow(db.picks, u)))
    case GateEscrow(_, w, escrow) =>
      if DriftType(ReportOn(u, w, escrow, Latest(db.ledger, u))).LedgerBad() then Become(Rejected)
      else Become(AwaitBalance(None))
    case AwaitBalance(_) =>
      if u !in db.wallets then Become(Rejected)
      else if balanceFree(u) then Become(BalanceHeld(None, db.wallets[u])) else Stay
    case BalanceHeld(_, w) => Become(EscrowHeld(w, Escrow(db.picks, u)))
    case EscrowHeld(w, escrow) =>
      (match RepairedWallet(w, escrow, Latest(db.ledger, u))
       case Err(_) => Become(Rejected)
       case Ok(fixed) => Become(Rebalancing(fixed)))
    case Rebalancing(w) => Commit(db.(wallets := db.wallets[u := w]))
    case _ => Stay
  }

  function Next(plan: seq<Task>, s: System, i: nat): Outcome
    requires i < |plan| == |s.phases|
  {
    var t, ph := plan[i], s.phases[i];
    var free := (u: UserId) => |s.phases| == |plan| && BalanceFree(plan, s, i, u);
    match t.job
    case SettleJob(pid, _, _, _) => NextSettle(s.db, t, ph, PickFree(plan, s, i, pid), free)
    case CreateJob(_) => NextCreate(s.db, t, ph, free)
    case RepairJob(_) => NextRepair(s.db, t, ph, free)
  }

  /** The scheduler lets one worker run a statement, or one transaction aborts. */
  datatype Choice = Go(worker: nat) | Abort(worker: nat)

  function Step(plan: seq<Task>, s: System, c: Choice): System
    requires |plan| == |s.phases|
    ensures |Step(plan, s, c).phases| == |plan|
  {
    var i := c.worker;
    if i >= |plan| || s.phases[i].Finished() then s
    else if c.Abort? then s.(phases := s.phases[i := Rejected])
    else
      match Next(plan, s, i)
      case Stay => s
      case Become(ph) => s.(phases := s.phases[i := ph])
      case Commit(db) => System(db, s.phases[i := Committed], s.log + [i])
  }

  function Interleave(plan: seq<Task>, s: System, cs: seq<Choice>): System
    requires |plan| == |s.phases|
    ensures |Interleave(plan, s, cs).phases| == |plan|
  {
    if cs == [] then s else Step(plan, Interleave(plan, s, cs[..|cs| - 1]), cs[|cs| - 1])
  }

  function Begin(db: Db, plan: seq<Task>): System {
    System(db, seq(|plan|, i => Start), [])
  }

  // ---- The serial reference ----

  function Serve(db: Db, job: Job, at: int): Result<Db> {
    match job
    case SettleJob(pid, target, closing, now) => Settle(db, pid, target, closing, now, at)
    case CreateJob(r) => CreatePick(db, r, at)
    case RepairJob(u) => FixUserBalance(db, u)
  }

  /** The tables after serving, one at a time and in this order, the jobs of the listed workers; the
      k-th transaction starts at `start + k`. */
  function ServeAll(db: Db, plan: seq<Task>, log: seq<nat>, start: int): Db {
    if log == [] then db
    else
      var prior, i := ServeAll(db, plan, log[..|log| - 1], start), log[|log| - 1];
      if i >= |plan| then prior
      else
        match Serve(prior, plan[i].job, start + |log|)
        case Ok(next) => next
        case Err(_) => prior
  }

  /** The k-th listed worker is accepted when its turn comes. */
  predicate Accepted(db: Db, plan: seq<Task>, log: seq<nat>, start: int, k: nat)
    requires k < |log|
  {
    log[k] < |plan| && Serve(ServeAll(db, plan, log[..k], start), plan[log[k]].job, start + k + 1).Ok?
  }

  /** Equal tables, up to the stamps on the ledger lines. */
  ghost predicate SameTables(a: Db, b: Db) {
    && a.wallets == b.wallets && a.picks == b.picks && a.outbox == b.outbox && a.parlays == b.parlays
    && |a.ledger| == |b.ledger|
    && forall k :: 0 <= k < |a.ledger| ==> a.ledger[k] == b.ledger[k].(createdAt := a.ledger[k].createdAt)
  }

  // ---- Deadlock ----

  /** Worker i cannot run because worker j holds the lock it asks for next. */
  predicate Waits(plan: seq<Task>, s: System, i: nat, j: nat)
    requires |plan| == |s.phases| && i < |plan| && j < |plan|
  {
    var t, ph := plan[i], s.phases[i];
    i != j &&
    match t.job
    case SettleJob(pid, _, _, _) =>
      || (ph.Start? && pid in s.db.picks && HoldsPick(plan[j], s.phases[j], pid))
      || (ph.AwaitBalance? && ph.of.Some? && HoldsBalance(plan[j], s.phases[j], Owner(ph.of.value)))
    case CreateJob(r) =>
      ph.Start? && Admissible(r) && Staked(r) && HoldsBalance(plan[j], s.phases[j], r.user.value)
    case RepairJob(u) => ph.AwaitBalance? && u in s.db.wallets && HoldsBalance(plan[j], s.phases[j], u)
  }

  /** In the circle c[0], c[1], ..., c[n-1], c[0]: does the k-th worker wait for the next one? */
  predicate WaitsForNext(plan: seq<Task>, s: System, c: seq<nat>, k: nat)
    requires |plan| == |s.phases| && k < |c| && forall j :: 0 <= j < |c| ==> c[j] < |plan|
  {
    Waits(plan, s, c[k], c[if k + 1 == |c| then 0 else k + 1])
  }

  /** Up to the end of these jobs no set of workers waits in a circle, in any state whatsoever: only a
      settlement waits while holding a lock, it then holds a pick and waits for a balance, and nobody
      holding a balance waits. */
  lemma NoDeadlock(plan: seq<Task>, s: System, c: seq<nat>)
    requires |plan| == |s.phases| && c != [] && forall k :: 0 <= k < |c| ==> c[k] < |plan|
    ensures exists k :: 0 <= k < |c| && !WaitsForNext(plan, s, c, k)
  {
    var second := if 1 == |c| then 0 else 1;
    var third := if second + 1 == |c| then 0 else second + 1;
    if WaitsForNext(plan, s, c, 0) && WaitsForNext(plan, s, c, second) {
      HoldersOfBalancesRun(plan, s, c[0], c[second], c[third]);
      if WaitsForNext(plan, s, c, third) {
        HoldersOfBalancesRun(plan, s, c[second], c[third], c[if third + 1 == |c| then 0 else third + 1]);
      }
    }
  }

  /** A worker that is waited for and itself waits is a settlement between its two locks. */
  lemma HoldersOfBalancesRun(plan: seq<Task>, s: System, i: nat, j: nat, k: nat)
    requires |plan| == |s.phases| && i < |plan| && j < |plan| && k < |plan|
    requires Waits(plan, s, i, j) && Waits(plan, s, j, k)
    ensures plan[j].job.SettleJob? && s.phases[j].AwaitBalance? && s.phases[j].of.Some?
    ensures HoldsBalance(plan[k], s.phases[k], Owner(s.phases[j].of.value))
    ensures s.phases[i].Start?
  {
  }
}
