/** Every interleaving of the workers leaves the tables as serving the committed ones one at a time,
    in the order of their commits. */
module Serializability {
  import opened Money
  import opened Odds
  import opened Domain
  import opened Tables
  import opened Reconciliation
  import opened Engine
  import opened Invariants
  import opened Runs
  import opened Acceptance
  import opened History
  import opened Guards
  import opened Concurrency

  // ---- What each worker may rely on while it holds its locks ----

  ghost predicate AtPick(db: Db, t: Task, p: Pick)
    requires t.job.SettleJob?
  {
    t.job.pid in db.picks && db.picks[t.job.pid] == p
  }

  /** The pick guards passed and the settlement will move money. */
  ghost predicate Moving(t: Task, p: Pick)
    requires t.job.SettleJob?
  {
    Judge(p, t.job.target, false, t.job.closing).Proceed? && Financial(p)
  }

  ghost predicate SettleLocal(db: Db, t: Task, ph: Phase)
    requires t.job.SettleJob?
  {
    match ph
    case PickHeld(p) => AtPick(db, t, p)
    case GateWallet(of, _) => of.Some? && AtPick(db, t, of.value) && Moving(t, of.value)
    case GateEscrow(of, _, _) => of.Some? && AtPick(db, t, of.value) && Moving(t, of.value)
    case AwaitBalance(of) => of.Some? && AtPick(db, t, of.value) && Moving(t, of.value)
    case BalanceHeld(of, w) => of.Some? && AtPick(db, t, of.value) && Moving(t, of.value) && w == WalletOf(db, Owner(of.value))
    case Written(w) =>
      && t.job.pid in db.picks && Judge(db.picks[t.job.pid], t.job.target, false, t.job.closing).Proceed?
      && SettleRead(db, t.job.pid, t.job.target, t.job.closing, t.job.now, t.at) == Ok(w)
    case EscrowHeld(_, _) => false
    case Rebalancing(_) => false
    case _ => true
  }

  function CreateRead(db: Db, r: NewPick, at: int): Result<Write> {
    CreateWrite(r, if r.user.Some? then WalletOf(db, r.user.value) else Wallet(0, 0), false, false, false, at)
  }

  ghost predicate CreateLocal(db: Db, t: Task, ph: Phase)
    requires t.job.CreateJob?
  {
    var r := t.job.request;
    match ph
    case Start => true
    case BalanceHeld(_, w) => Staked(r) && r.user.Some? && w == WalletOf(db, r.user.value)
    case Written(w) => r.pid !in db.picks && CreateRead(db, r, t.at) == Ok(w)
    case Committed => true
    case Rejected => true
    case _ => false
  }

  ghost predicate RepairLocal(db: Db, t: Task, ph: Phase)
    requires t.job.RepairJob?
  {
    var u := t.job.user;
    match ph
    case BalanceHeld(_, w) => u in db.wallets && w == db.wallets[u]
    case EscrowHeld(w, escrow) => u in db.wallets && w == db.wallets[u] && escrow == Escrow(db.picks, u)
    case Rebalancing(w) => u in db.wallets && RepairedWallet(db.wallets[u], Escrow(db.picks, u), Latest(db.ledger, u)) == Ok(w)
    case PickHeld(_) => false
    case Written(_) => false
    case _ => true
  }

  ghost predicate Local(db: Db, t: Task, ph: Phase) {
    match t.job
    case SettleJob(_, _, _, _) => SettleLocal(db, t, ph)
    case CreateJob(_) => CreateLocal(db, t, ph)
    case RepairJob(_) => RepairLocal(db, t, ph)
  }

  /** No two workers hold the same lock. */
  ghost predicate Exclusive(plan: seq<Task>, phases: seq<Phase>)
    requires |plan| == |phases|
  {
    && (forall i, j, pid :: 0 <= i < |plan| && 0 <= j < |plan| && i != j && HoldsPick(plan[i], phases[i], pid) ==>
          !HoldsPick(plan[j], phases[j], pid))
    && (forall i, j, u :: 0 <= i < |plan| && 0 <= j < |plan| && i != j && HoldsBalance(plan[i], phases[i], u) ==>
          !HoldsBalance(plan[j], phases[j], u))
  }

  /** Fresh pick ids never collide. */
  ghost predicate FreshIds(plan: seq<Task>) {
    forall i, j :: 0 <= i < j < |plan| && plan[i].job.CreateJob? && plan[j].job.CreateJob? ==>
      plan[i].job.request.pid != plan[j].job.request.pid
  }

  /** The committed workers, each once, in commit order. */
  ghost predicate LogOk(plan: seq<Task>, s: System)
    requires |plan| == |s.phases|
  {
    && (forall k :: 0 <= k < |s.log| ==> s.log[k] < |plan| && s.phases[s.log[k]].Committed?)
    && (forall j, k :: 0 <= j < k < |s.log| ==> s.log[j] != s.log[k])
    && (forall i :: 0 <= i < |plan| && s.phases[i].Committed? ==> i in s.log)
  }

  /** The tables every batch may start from: any state that serial runs reach, stake edits included. */
  ghost predicate GoodStart(db: Db, start: int) {
    Sound(db) && InOrder(db.ledger, start)
  }

  /** What every schedule keeps, even one in which a repair is misled. */
  ghost predicate Intact(db: Db) {
    Solvent(db) && PicksOk(db) && OwnersOk(db) && LinesOk(db) && SettledOnce(db) && Announced(db)
  }

  // ---- The effect of a commit, as seen by the tables and by the serial reference ----

  /** What the commit of a transaction may change: one pick, one wallet, one line and one event. */
  ghost predicate Disturbs(db: Db, next: Db, pid: Option<PickId>, u: Option<UserId>) {
    && (forall k: PickId :: Some(k) != pid ==> (k in next.picks <==> k in db.picks) && (k in db.picks ==> next.picks[k] == db.picks[k]))
    && (forall v: UserId :: Some(v) != u ==> (v in next.wallets <==> v in db.wallets) && (v in db.wallets ==> next.wallets[v] == db.wallets[v]))
    && (forall v: UserId :: Some(v) != u ==> Latest(next.ledger, v) == Latest(db.ledger, v))
    && (forall v: UserId :: Some(v) != u && v in db.wallets ==> Escrow(next.picks, v) == Escrow(db.picks, v))
  }

  lemma SettlementDisturbs(db: Db, w: Write, target: Status, at: int)
    requires PicksOk(db) && IsSettlement(db, w, target, at)
    ensures Disturbs(db, Publish(db, w), Some(w.pid), if w.wallet.Some? then Some(w.wallet.value.0) else None)
  {
    hide PickOk, Latest, Settlements, Tail, LockOf, Total, PicksOk, Credit, Chained;
    var next := Publish(db, w);
    var u := if w.wallet.Some? then Some(w.wallet.value.0) else None;
    if w.line.Some? { Appended(db.ledger, w.line.value); }
    forall v | Some(v) != u && v in db.wallets ensures Escrow(next.picks, v) == Escrow(db.picks, v) {
      SettlementMoves(db, w, target, at, v);
    }
  }

  lemma CreationDisturbs(db: Db, w: Write, at: int)
    requires IsCreation(db, w, at)
    ensures Disturbs(db, Publish(db, w), Some(w.pid), if w.wallet.Some? then Some(w.wallet.value.0) else None)
  {
    var next := Publish(db, w);
    var u := if w.wallet.Some? then Some(w.wallet.value.0) else None;
    if w.line.Some? { Appended(db.ledger, w.line.value); }
    forall v | Some(v) != u && v in db.wallets ensures Escrow(next.picks, v) == Escrow(db.picks, v) {
      CreationMoves(db, w, at, v);
    }
    hide PickOk, Latest, Settlements, Tail, LockOf, Total;
  }

  /** A worker whose locks cover what it relies on is not affected by someone else's commit. */
  lemma LocalIsStable(db: Db, next: Db, t: Task, ph: Phase, pid: Option<PickId>, u: Option<UserId>)
    requires Local(db, t, ph) && Disturbs(db, next, pid, u)
    requires pid.Some? ==> !HoldsPick(t, ph, pid.value)
    requires u.Some? ==> !HoldsBalance(t, ph, u.value)
    requires t.job.CreateJob? && ph.Written? ==> Some(t.job.request.pid) != pid
    ensures Local(next, t, ph)
  {
    hide Latest, Total, CreateWrite, SettleWrite, RepairedWallet;
    match t.job
    case SettleJob(_, _, _, _) =>
      if ph.Written? {
        SettleWritesWallet(db, t.job.pid, t.job.target, t.job.closing, t.job.now, t.at);
      }
    case CreateJob(r) =>
      if ph.Written? && !Staked(r) {
        UnstakedIgnoresWallet(db, next, r, t.at);
      }
    case RepairJob(_) =>
  }

  lemma SettleWritesWallet(db: Db, pid: PickId, target: Status, closing: Option<int>, now: int, at: int)
    requires pid in db.picks && Judge(db.picks[pid], target, false, closing).Proceed?
    requires SettleRead(db, pid, target, closing, now, at).Ok?
    ensures
      var w := SettleRead(db, pid, target, closing, now, at).value;
      if Financial(db.picks[pid]) then w.wallet.Some? && w.wallet.value.0 == Owner(db.picks[pid]) else w.wallet.None?
  {
  }

  lemma UnstakedIgnoresWallet(db: Db, next: Db, r: NewPick, at: int)
    requires !Staked(r)
    ensures CreateRead(db, r, at) == CreateRead(next, r, at)
  {
  }

  // ---- Commits keep the tables sound ----

  /** The ledger, uniqueness and outbox reads of a settlement in a sound system are empty. */
  lemma RecordedIsSettleRead(db: Db, t: Task, wallet: Option<Wallet>)
    requires SettledOnce(db) && Announced(db) && t.job.SettleJob? && t.job.pid in db.picks
    requires Judge(db.picks[t.job.pid], t.job.target, false, t.job.closing).Proceed?
    requires wallet == if Financial(db.picks[t.job.pid]) then Some(WalletOf(db, Owner(db.picks[t.job.pid]))) else None
    ensures Recorded(db, t, db.picks[t.job.pid], wallet)
         == match SettleRead(db, t.job.pid, t.job.target, t.job.closing, t.job.now, t.at)
            case Err(_) => Rejected
            case Ok(w) => Written(w)
  {
    PendingIsUnsettled(db, t.job.pid, t.job.target);
    hide SettleWrite, Settlements, LineTaken, KeyTaken, SettledOnce, Announced;
  }

  /** A settlement write computed from the locked rows is a settlement of the current tables. */
  lemma SettleCommit(db: Db, t: Task, w: Write)
    requires PicksOk(db) && OwnersOk(db) && Solvent(db) && t.job.SettleJob? && SettleLocal(db, t, Written(w))
    ensures w.pid == t.job.pid && IsSettlement(db, w, t.job.target, t.at)
  {
    var p := db.picks[t.job.pid];
    var q := WithClosing(p, t.job.closing);
    SettleWriteIsSettlement(db, t.job.pid, q, [], if Financial(q) then Some(WalletOf(db, q.owner.value)) else None,
                            false, false, t.job.target, t.job.now, t.at);
    hide SettleWrite, IsSettlement, PickOk, LockOf;
  }

  lemma CreateCommit(db: Db, t: Task, w: Write)
    requires t.job.CreateJob? && CreateLocal(db, t, Written(w))
    ensures w.pid == t.job.request.pid && IsCreation(db, w, t.at)
  {
    var r := t.job.request;
    CreateWriteIsCreation(db, r, if r.user.Some? then WalletOf(db, r.user.value) else Wallet(0, 0), false, false, false, t.at);
  }

  /** The wallet a repair writes is never negative. */
  lemma RepairKeepsIntact(db: Db, u: UserId, w: Wallet)
    requires Intact(db) && u in db.wallets
    requires RepairedWallet(db.wallets[u], Escrow(db.picks, u), Latest(db.ledger, u)) == Ok(w)
    ensures Intact(db.(wallets := db.wallets[u := w]))
  {
    var next := db.(wallets := db.wallets[u := w]);
    assert next.wallets.Keys == db.wallets.Keys;
    RepairIsSolvent(db.wallets[u], Escrow(db.picks, u), Latest(db.ledger, u));
    hide RepairedWallet, PicksOk, OwnersOk, LinesOk, SettledOnce, Announced, Latest, Escrow;
    WalletsAside(db, next);
  }

  lemma RepairDisturbs(db: Db, u: UserId, w: Wallet)
    ensures Disturbs(db, db.(wallets := db.wallets[u := w]), None, Some(u))
  {
    hide Latest, Escrow;
  }

  lemma RepairIsSolvent(w: Wallet, escrow: int, latest: Option<Entry>)
    requires w.available >= 0 && w.locked >= 0 && RepairedWallet(w, escrow, latest).Ok?
    ensures RepairedWallet(w, escrow, latest).value.available >= 0 && RepairedWallet(w, escrow, latest).value.locked >= 0
  {
  }

  lemma WalletsAside(db: Db, next: Db)
    requires next == db.(wallets := next.wallets) && next.wallets.Keys == db.wallets.Keys
    ensures PicksOk(next) <==> PicksOk(db)
    ensures OwnersOk(next) <==> OwnersOk(db)
    ensures LinesOk(next) <==> LinesOk(db)
    ensures SettledOnce(next) <==> SettledOnce(db)
    ensures Announced(next) <==> Announced(db)
  {
    hide PickOk, LockOf, SettledRight, Settlements, EventsOf, ExpectedEvents;
  }

  // ---- The serial reference accepts the same writes ----

  function Restamp(w: Write, at: int): Write {
    if w.line.Some? then w.(line := Some(w.line.value.(createdAt := at))) else w
  }

  lemma SettleReadRestamps(db: Db, pid: PickId, target: Status, closing: Option<int>, now: int, at: int, later: int)
    requires pid in db.picks && target.Terminal() && (closing.Some? ==> closing.value > 0)
    requires SettleRead(db, pid, target, closing, now, at).Ok?
    ensures SettleRead(db, pid, target, closing, now, later) == Ok(Restamp(SettleRead(db, pid, target, closing, now, at).value, later))
  {
  }

  lemma CreateReadRestamps(db: Db, r: NewPick, at: int, later: int)
    requires CreateRead(db, r, at).Ok?
    ensures CreateRead(db, r, later) == Ok(Restamp(CreateRead(db, r, at).value, later))
  {
  }

  lemma PublishRestamped(db: Db, serial: Db, w: Write, later: int)
    requires SameTables(db, serial)
    ensures SameTables(Publish(db, w), Publish(serial, Restamp(w, later)))
  {
  }

  lemma ServeSettlement(db: Db, serial: Db, t: Task, w: Write, start: int, at: int)
    requires SameTables(db, serial) && Sound(serial) && InOrder(serial.ledger, start)
    requires t.job.SettleJob? && SettleLocal(db, t, Written(w))
    ensures Serve(serial, t.job, at) == Ok(Publish(serial, Restamp(w, at)))
  {
    var pid, target, closing, now := t.job.pid, t.job.target, t.job.closing, t.job.now;
    SettleReads(serial, pid, target, closing, now, at, start);
    assert SettleRead(serial, pid, target, closing, now, at) == SettleRead(db, pid, target, closing, now, at);
    SettleReadRestamps(db, pid, target, closing, now, t.at, at);
  }

  lemma ServeCreation(db: Db, serial: Db, t: Task, w: Write, at: int)
    requires SameTables(db, serial) && LinesOk(serial) && Announced(serial)
    requires t.job.CreateJob? && CreateLocal(db, t, Written(w))
    ensures Serve(serial, t.job, at) == Ok(Publish(serial, Restamp(w, at)))
  {
    FreshIsUntaken(serial, t.job.request.pid);
    CreateReadRestamps(db, t.job.request, t.at, at);
    assert CreateRead(serial, t.job.request, at) == CreateRead(db, t.job.request, at);
  }

  /** The last lines of two ledgers that differ in their stamps alone carry the same totals. */
  lemma {:induction false} SameTails(a: seq<Entry>, b: seq<Entry>, u: UserId)
    requires |a| == |b| && forall k :: 0 <= k < |a| ==> a[k] == b[k].(createdAt := a[k].createdAt)
    ensures SnapshotTotal(Tail(a, u)) == SnapshotTotal(Tail(b, u))
  {
    if a != [] {
      var n := |a| - 1;
      assert forall k :: 0 <= k < n ==> a[..n][k] == a[k] && b[..n][k] == b[k];
      SameTails(a[..n], b[..n], u);
    }
  }

  lemma RepairReadsTotal(w: Wallet, escrow: int, a: Option<Entry>, b: Option<Entry>)
    requires SnapshotTotal(a) == SnapshotTotal(b)
    ensures RepairedWallet(w, escrow, a) == RepairedWallet(w, escrow, b)
  {
  }

  /** The answer of a repair that reads the last line. */
  function RepairOnTail(db: Db, u: UserId): Result<Wallet>
    requires u in db.wallets
  {
    RepairedWallet(db.wallets[u], Escrow(db.picks, u), Tail(db.ledger, u))
  }

  /** The answer of a repair that reads the line chosen by `created_at`. */
  function RepairOnLatest(db: Db, u: UserId): Result<Wallet>
    requires u in db.wallets
  {
    RepairedWallet(db.wallets[u], Escrow(db.picks, u), Latest(db.ledger, u))
  }

  lemma FixReads(db: Db, u: UserId)
    requires u in db.wallets
    ensures FixUserBalance(db, u).Ok? <==> RepairOnLatest(db, u).Ok?
    ensures RepairOnLatest(db, u).Ok? ==> FixUserBalance(db, u) == Ok(db.(wallets := db.wallets[u := RepairOnLatest(db, u).value]))
  {
    hide Latest, Escrow;
  }

  /** Served serially, a repair reads the last line. */
  lemma ServeRepair(db: Db, serial: Db, u: UserId, start: int, at: int)
    requires SameTables(db, serial) && InOrder(serial.ledger, start) && u in db.wallets
    ensures Serve(serial, RepairJob(u), at).Ok? <==> RepairOnTail(db, u).Ok?
    ensures RepairOnTail(db, u).Ok? ==>
              Serve(serial, RepairJob(u), at) == Ok(serial.(wallets := serial.wallets[u := RepairOnTail(db, u).value]))
  {
    SameTails(db.ledger, serial.ledger, u);
    LatestIsTail(serial.ledger, start, u);
    FixReads(serial, u);
    hide Tail, Latest, Escrow, FixUserBalance, RepairedWallet, InOrder;
    RepairReadsTotal(db.wallets[u], Escrow(db.picks, u), Tail(db.ledger, u), Tail(serial.ledger, u));
  }

  // ---- Misled repairs ----

  /** A repair that would answer differently if it read the user's last line. */
  ghost predicate Misled(db: Db, u: UserId) {
    u in db.wallets && RepairOnLatest(db, u) != RepairOnTail(db, u)
  }

  // ---- One commit ----

  /** The interleaved tables and their serial reference. */
  ghost predicate Paired(db: Db, serial: Db, t: int) {
    Sound(db) && Sound(serial) && InOrder(serial.ledger, t) && SameTables(db, serial)
  }

  lemma SettlementPairs(db: Db, serial: Db, t: Task, w: Write, start: int)
    requires Paired(db, serial, start) && t.job.SettleJob? && SettleLocal(db, t, Written(w))
    ensures Serve(serial, t.job, start + 1) == Ok(Publish(serial, Restamp(w, start + 1)))
    ensures Paired(Publish(db, w), Publish(serial, Restamp(w, start + 1)), start + 1)
  {
    var target, at := t.job.target, start + 1;
    var z := Restamp(w, at);
    hide Sound, SettleLocal, SameTables, InOrder, Settle, Serve, Publish;
    assert IsSettlement(db, w, target, t.at) && w.pid == t.job.pid by { PairedParts(db, serial, start); SettleCommit(db, t, w); }
    PairedParts(db, serial, start);
    ServeSettlement(db, serial, t, w, start, at);
    PublishRestamped(db, serial, w, at);
    SettlementRestamps(db, serial, w, target, t.at, at);
    SettlementKeepsSound(db, w, target, t.at);
    SettlementKeepsSound(serial, z, target, at);
    ChangeKeepsOrder(serial, Settled(z, target), at, start);
  }

  lemma PairedParts(db: Db, serial: Db, t: int)
    requires Paired(db, serial, t)
    ensures PicksOk(db) && OwnersOk(db) && Solvent(db) && PicksOk(serial) && LinesOk(serial) && Announced(serial)
  {
  }

  lemma SettlementRestamps(db: Db, serial: Db, w: Write, target: Status, at: int, later: int)
    requires SameTables(db, serial) && IsSettlement(db, w, target, at)
    ensures IsSettlement(serial, Restamp(w, later), target, later)
  {
  }

  lemma CreationRestamps(db: Db, serial: Db, w: Write, at: int, later: int)
    requires SameTables(db, serial) && IsCreation(db, w, at)
    ensures IsCreation(serial, Restamp(w, later), later)
  {
  }

  lemma CreationPairs(db: Db, serial: Db, t: Task, w: Write, start: int)
    requires Paired(db, serial, start) && t.job.CreateJob? && CreateLocal(db, t, Written(w))
    ensures Serve(serial, t.job, start + 1) == Ok(Publish(serial, Restamp(w, start + 1)))
    ensures Paired(Publish(db, w), Publish(serial, Restamp(w, start + 1)), start + 1)
  {
    var at := start + 1;
    var z := Restamp(w, at);
    hide Sound, CreateLocal, SameTables, InOrder, CreatePick, Serve, Publish;
    PairedParts(db, serial, start);
    CreateCommit(db, t, w);
    ServeCreation(db, serial, t, w, at);
    PublishRestamped(db, serial, w, at);
    CreationRestamps(db, serial, w, t.at, at);
    CreationKeepsSound(db, w, t.at);
    CreationKeepsSound(serial, z, at);
    ChangeKeepsOrder(serial, Created(z), at, start);
  }

  // ---- The invariant of the interleaved system ----

  /** Workers' locks, what they rely on, and the log, in any schedule. */
  ghost predicate Orderly(plan: seq<Task>, s: System) {
    && |s.phases| == |plan| && Intact(s.db)
    && (forall i :: 0 <= i < |plan| ==> Local(s.db, plan[i], s.phases[i]))
    && Exclusive(plan, s.phases)
    && LogOk(plan, s)
  }

  /** The tables equal those of serving the committed workers in turn, and each was accepted. */
  ghost predicate SerialAt(db0: Db, plan: seq<Task>, start: int, s: System) {
    && SameTables(s.db, ServeAll(db0, plan, s.log, start))
    && (forall k :: 0 <= k < |s.log| ==> Accepted(db0, plan, s.log, start, k))
  }

  ghost predicate Reaches(db0: Db, plan: seq<Task>, start: int, s: System) {
    && Orderly(plan, s)
    && Paired(s.db, ServeAll(db0, plan, s.log, start), start + |s.log|)
    && (forall k :: 0 <= k < |s.log| ==> Accepted(db0, plan, s.log, start, k))
  }

  /** A worker that stops holds nothing. */
  lemma FinishingKeepsExclusive(plan: seq<Task>, phases: seq<Phase>, i: nat, ph: Phase)
    requires |plan| == |phases| && i < |plan| && Exclusive(plan, phases) && ph.Finished()
    ensures Exclusive(plan, phases[i := ph])
  {
  }

  /** A worker takes a lock only when nobody else has it. */
  lemma TakingKeepsExclusive(plan: seq<Task>, s: System, i: nat, ph: Phase)
    requires |plan| == |s.phases| && i < |plan| && Exclusive(plan, s.phases)
    requires forall pid :: HoldsPick(plan[i], ph, pid) ==> HoldsPick(plan[i], s.phases[i], pid) || PickFree(plan, s, i, pid)
    requires forall u :: HoldsBalance(plan[i], ph, u) ==> HoldsBalance(plan[i], s.phases[i], u) || BalanceFree(plan, s, i, u)
    ensures Exclusive(plan, s.phases[i := ph])
  {
  }

  lemma SettleBecomes(plan: seq<Task>, s: System, i: nat)
    requires i < |plan| == |s.phases| && plan[i].job.SettleJob? && Next(plan, s, i).Become?
    requires SettledOnce(s.db) && Announced(s.db) && Local(s.db, plan[i], s.phases[i])
    ensures Local(s.db, plan[i], Next(plan, s, i).phase)
    ensures forall pid :: HoldsPick(plan[i], Next(plan, s, i).phase, pid) ==> HoldsPick(plan[i], s.phases[i], pid) || PickFree(plan, s, i, pid)
    ensures forall u :: HoldsBalance(plan[i], Next(plan, s, i).phase, u) ==> HoldsBalance(plan[i], s.phases[i], u) || BalanceFree(plan, s, i, u)
  {
    var ph := s.phases[i];
    hide SettleWrite, SettleRead, Recorded, Latest, Escrow, ReportOn, PickFree, BalanceFree, SettledOnce, Announced;
    if ph.PickHeld? {
      JudgedBecomes(plan, s, i);
    } else if ph.BalanceHeld? {
      MovingBecomes(plan, s, i);
    } else {
      hide Judge, WithClosing, Decided;
    }
  }

  lemma JudgedBecomes(plan: seq<Task>, s: System, i: nat)
    requires i < |plan| == |s.phases| && plan[i].job.SettleJob? && Next(plan, s, i).Become? && s.phases[i].PickHeld?
    requires SettledOnce(s.db) && Announced(s.db) && Local(s.db, plan[i], s.phases[i])
    ensures SettleLocal(s.db, plan[i], Next(plan, s, i).phase)
    ensures forall u :: !HoldsBalance(plan[i], Next(plan, s, i).phase, u)
  {
    var t, p := plan[i], s.phases[i].pick;
    hide SettleWrite, SettleRead, Recorded, Latest, Escrow, PickFree, BalanceFree, SettledOnce, Announced, WithClosing, Decided;
    JudgeIgnoresLedger(s.db, t, p);
    if Judge(p, t.job.target, false, t.job.closing).Proceed? && !Financial(p) {
      UnfundedRecords(s.db, t, p);
    }
  }

  lemma MovingBecomes(plan: seq<Task>, s: System, i: nat)
    requires i < |plan| == |s.phases| && plan[i].job.SettleJob? && Next(plan, s, i).Become? && s.phases[i].BalanceHeld?
    requires SettledOnce(s.db) && Announced(s.db) && Local(s.db, plan[i], s.phases[i])
    ensures SettleLocal(s.db, plan[i], Next(plan, s, i).phase)
    ensures forall u :: HoldsBalance(plan[i], Next(plan, s, i).phase, u) ==> HoldsBalance(plan[i], s.phases[i], u)
  {
    hide SettleWrite, SettleRead, Recorded, Latest, Escrow, PickFree, BalanceFree, SettledOnce, Announced, WithClosing, Decided;
    RecordedIsSettleRead(s.db, plan[i], Some(s.phases[i].wallet));
    SettleWritesOwnersWallet(s.db, plan[i]);
  }

  /** With the pick row locked, the ledger question about voids is already answered. */
  lemma JudgeIgnoresLedger(db: Db, t: Task, p: Pick)
    requires SettledOnce(db) && Announced(db) && t.job.SettleJob? && AtPick(db, t, p)
    ensures Judge(p, t.job.target, Decided(db.ledger, t.job.pid), t.job.closing) == Judge(p, t.job.target, false, t.job.closing)
  {
    if p.status.Pending? && t.job.target.Terminal() {
      PendingIsUnsettled(db, t.job.pid, t.job.target);
    }
    hide SettledOnce, Announced, Decided, Settlements, LineTaken, KeyTaken, WithClosing;
  }

  /** A settlement that moves no money is written without a balance lock. */
  lemma UnfundedRecords(db: Db, t: Task, p: Pick)
    requires SettledOnce(db) && Announced(db) && t.job.SettleJob? && AtPick(db, t, p)
    requires Judge(p, t.job.target, false, t.job.closing).Proceed? && !Financial(p)
    ensures
      var next := Recorded(db, t, p, None);
      SettleLocal(db, t, next) && (next.Rejected? || (next.Written? && next.write.wallet.None?))
  {
    RecordedIsSettleRead(db, t, None);
    SettleWritesOwnersWallet(db, t);
    hide Recorded, SettleRead, SettledOnce, Announced;
  }

  lemma SettleWritesOwnersWallet(db: Db, t: Task)
    requires t.job.SettleJob? && t.job.pid in db.picks
    requires Judge(db.picks[t.job.pid], t.job.target, false, t.job.closing).Proceed?
    ensures
      var r := SettleRead(db, t.job.pid, t.job.target, t.job.closing, t.job.now, t.at);
      r.Ok? ==> if Financial(db.picks[t.job.pid])
                then r.value.wallet.Some? && r.value.wallet.value.0 == Owner(db.picks[t.job.pid]) else r.value.wallet.None?
  {
    var r := SettleRead(db, t.job.pid, t.job.target, t.job.closing, t.job.now, t.at);
    if r.Ok? {
      SettleWritesWallet(db, t.job.pid, t.job.target, t.job.closing, t.job.now, t.at);
    }
  }

  lemma CreateBecomes(plan: seq<Task>, s: System, i: nat)
    requires i < |plan| == |s.phases| && plan[i].job.CreateJob? && Next(plan, s, i).Become?
    requires LinesOk(s.db) && Announced(s.db) && Local(s.db, plan[i], s.phases[i])
    ensures Local(s.db, plan[i], Next(plan, s, i).phase)
    ensures forall u :: HoldsBalance(plan[i], Next(plan, s, i).phase, u) ==> HoldsBalance(plan[i], s.phases[i], u) || BalanceFree(plan, s, i, u)
  {
    var t, ph := plan[i], s.phases[i];
    var r := t.job.request;
    var w := if Staked(r) && r.user.Some? then WalletOf(s.db, r.user.value) else Wallet(0, 0);
    InsertedIsCreateRead(s.db, r, w, t.at);
    hide CreateWrite, CreateRead, Inserted, BalanceFree, LinesOk, Announced, Validate;
  }

  lemma InsertedIsCreateRead(db: Db, r: NewPick, w: Wallet, at: int)
    requires LinesOk(db) && Announced(db)
    requires w == if Staked(r) && r.user.Some? then WalletOf(db, r.user.value) else Wallet(0, 0)
    ensures
      var next := Inserted(db, r, w, at);
      next.Rejected? || (next.Written? && r.pid !in db.picks && CreateRead(db, r, at) == Ok(next.write))
  {
    if r.pid !in db.picks {
      FreshIsUntaken(db, r.pid);
    }
  }

  lemma RepairBecomes(plan: seq<Task>, s: System, i: nat)
    requires i < |plan| == |s.phases| && plan[i].job.RepairJob? && Next(plan, s, i).Become?
    requires Local(s.db, plan[i], s.phases[i])
    ensures Local(s.db, plan[i], Next(plan, s, i).phase)
    ensures forall u :: HoldsBalance(plan[i], Next(plan, s, i).phase, u) ==> HoldsBalance(plan[i], s.phases[i], u) || BalanceFree(plan, s, i, u)
  {
    hide RepairedWallet, Escrow, Latest, ReportOn, BalanceFree;
  }

  lemma HeldPickExists(db: Db, t: Task, ph: Phase, pid: PickId)
    requires Local(db, t, ph) && HoldsPick(t, ph, pid)
    ensures pid in db.picks
  {
  }

  /** A pick row is written under its lock, or inserted under a fresh id. */
  ghost predicate MayWritePick(db: Db, t: Task, ph: Phase, pid: PickId) {
    HoldsPick(t, ph, pid) || (t.job.CreateJob? && t.job.request.pid == pid && pid !in db.picks)
  }

  /** Everyone else keeps what they rely on when worker i commits. */
  lemma OthersKeepLocal(plan: seq<Task>, s: System, i: nat, next: Db, pid: Option<PickId>, u: Option<UserId>)
    requires |s.phases| == |plan| && i < |plan| && Exclusive(plan, s.phases) && FreshIds(plan)
    requires forall j :: 0 <= j < |plan| ==> Local(s.db, plan[j], s.phases[j])
    requires Disturbs(s.db, next, pid, u)
    requires pid.Some? ==> MayWritePick(s.db, plan[i], s.phases[i], pid.value)
    requires u.Some? ==> HoldsBalance(plan[i], s.phases[i], u.value)
    ensures forall j :: 0 <= j < |plan| && j != i ==> Local(next, plan[j], s.phases[j])
  {
    hide Disturbs, HoldsBalance;
    forall j | 0 <= j < |plan| && j != i ensures Local(next, plan[j], s.phases[j]) {
      assert Local(s.db, plan[j], s.phases[j]) && Local(s.db, plan[i], s.phases[i]);
      if pid.Some? {
        if HoldsPick(plan[i], s.phases[i], pid.value) { HeldPickExists(s.db, plan[i], s.phases[i], pid.value); }
        if HoldsPick(plan[j], s.phases[j], pid.value) { HeldPickExists(s.db, plan[j], s.phases[j], pid.value); }
      }
      hide Local;
      LocalIsStable(s.db, next, plan[j], s.phases[j], pid, u);
    }
  }

  ghost predicate Confined(db: Db, t: Task, ph: Phase, next: Db, pid: Option<PickId>, u: Option<UserId>) {
    && Disturbs(db, next, pid, u)
    && (pid.Some? ==> MayWritePick(db, t, ph, pid.value))
    && (u.Some? ==> HoldsBalance(t, ph, u.value))
  }

  /** A commit leaves intact tables and changes only rows its worker may write. */
  ghost predicate CommitOk(db: Db, t: Task, ph: Phase, next: Db) {
    Intact(next) && exists pid: Option<PickId>, u: Option<UserId> :: Confined(db, t, ph, next, pid, u)
  }

  lemma SettlementKeepsIntact(db: Db, w: Write, target: Status, at: int)
    requires Intact(db) && IsSettlement(db, w, target, at)
    ensures Intact(Publish(db, w))
  {
    hide Publish, IsSettlement, Solvent, PicksOk, OwnersOk, LinesOk, SettledOnce, Announced;
    SettlementKeepsOwners(db, w, target, at);
    SettlementKeepsSettledOnce(db, w, target, at);
    SettlementKeepsAnnounced(db, w, target, at);
  }

  lemma CreationKeepsIntact(db: Db, w: Write, at: int)
    requires Intact(db) && IsCreation(db, w, at)
    ensures Intact(Publish(db, w))
  {
    hide Publish, IsCreation, Solvent, PicksOk, OwnersOk, LinesOk, SettledOnce, Announced;
    CreationKeepsOwners(db, w, at);
    CreationKeepsSettledOnce(db, w, at);
    CreationKeepsAnnounced(db, w, at);
  }

  lemma SettleCommits(db: Db, t: Task, w: Write)
    requires Intact(db) && t.job.SettleJob? && SettleLocal(db, t, Written(w))
    ensures CommitOk(db, t, Written(w), Publish(db, w))
  {
    SettleCommit(db, t, w);
    hide Disturbs, Publish, SettleLocal, IsSettlement, Solvent, OwnersOk, LinesOk, SettledOnce, Announced;
    SettlementKeepsIntact(db, w, t.job.target, t.at);
    SettlementDisturbs(db, w, t.job.target, t.at);
    var u := if w.wallet.Some? then Some(w.wallet.value.0) else None;
    assert Confined(db, t, Written(w), Publish(db, w), Some(t.job.pid), u);
  }

  lemma CreateCommits(db: Db, t: Task, w: Write)
    requires Intact(db) && t.job.CreateJob? && CreateLocal(db, t, Written(w))
    ensures CommitOk(db, t, Written(w), Publish(db, w))
  {
    CreateCommit(db, t, w);
    CreatedWallet(db, t.job.request, t.at);
    hide Disturbs, Publish, IsCreation, CreateRead, Solvent, OwnersOk, LinesOk, SettledOnce, Announced;
    CreationKeepsIntact(db, w, t.at);
    CreationDisturbs(db, w, t.at);
    var u := if w.wallet.Some? then Some(w.wallet.value.0) else None;
    assert Confined(db, t, Written(w), Publish(db, w), Some(t.job.request.pid), u);
  }

  lemma RepairCommits(db: Db, t: Task, w: Wallet)
    requires Intact(db) && t.job.RepairJob? && RepairLocal(db, t, Rebalancing(w))
    ensures CommitOk(db, t, Rebalancing(w), db.(wallets := db.wallets[t.job.user := w]))
  {
    hide Disturbs, Intact;
    RepairKeepsIntact(db, t.job.user, w);
    RepairDisturbs(db, t.job.user, w);
    assert Confined(db, t, Rebalancing(w), db.(wallets := db.wallets[t.job.user := w]), None, Some(t.job.user));
  }

  lemma IdleCommits(db: Db, t: Task, ph: Phase)
    requires Intact(db)
    ensures CommitOk(db, t, ph, db)
  {
    Undisturbed(db);
    hide Disturbs, Intact;
    assert Confined(db, t, ph, db, None, None);
  }

  /** Who commits, and what. */
  lemma NextCommits(plan: seq<Task>, s: System, i: nat)
    requires i < |plan| == |s.phases| && Next(plan, s, i).Commit?
    ensures
      var t, ph, db := plan[i], s.phases[i], Next(plan, s, i).db;
      match t.job
      case SettleJob(_, target, _, _) =>
        (ph.Written? && db == Publish(s.db, ph.write)) || (ph.PickHeld? && ph.pick.status == target && db == s.db)
      case CreateJob(_) => ph.Written? && db == Publish(s.db, ph.write)
      case RepairJob(u) => ph.Rebalancing? && db == s.db.(wallets := s.db.wallets[u := ph.wallet])
  {
    hide SettleWrite, CreateWrite, RepairedWallet, Latest, Escrow, ReportOn, PickFree, BalanceFree, Validate, Publish, Settlements;
  }

  lemma CommitStays(plan: seq<Task>, s: System, i: nat)
    requires i < |plan| == |s.phases| && Next(plan, s, i).Commit?
    requires Intact(s.db) && Local(s.db, plan[i], s.phases[i])
    ensures CommitOk(s.db, plan[i], s.phases[i], Next(plan, s, i).db)
  {
    var t, ph := plan[i], s.phases[i];
    NextCommits(plan, s, i);
    hide Next, Intact, CommitOk, Publish, SettleRead, CreateRead, Validate, RepairedWallet;
    match t.job
    case SettleJob(_, _, _, _) =>
      if ph.Written? { SettleCommits(s.db, t, ph.write); } else { IdleCommits(s.db, t, ph); }
    case CreateJob(_) => CreateCommits(s.db, t, ph.write);
    case RepairJob(_) => RepairCommits(s.db, t, ph.wallet);
  }

  /** Worker i is about to commit a repair that was misled. */
  ghost predicate MisledStep(plan: seq<Task>, s: System, c: Choice)
    requires |s.phases| == |plan|
  {
    && c.Go? && c.worker < |plan| && plan[c.worker].job.RepairJob? && s.phases[c.worker].Rebalancing?
    && Misled(s.db, plan[c.worker].job.user)
  }

  /** Unless it is a misled repair, the serial reference serves the committing worker too, and the
      tables stay paired. */
  lemma CommitPairs(plan: seq<Task>, s: System, i: nat, serial: Db, start: int)
    requires i < |plan| == |s.phases| && Next(plan, s, i).Commit? && !MisledStep(plan, s, Go(i))
    requires Paired(s.db, serial, start) && Local(s.db, plan[i], s.phases[i])
    ensures Serve(serial, plan[i].job, start + 1).Ok?
    ensures Paired(Next(plan, s, i).db, Serve(serial, plan[i].job, start + 1).value, start + 1)
  {
    var t, ph := plan[i], s.phases[i];
    NextCommits(plan, s, i);
    hide Next, Paired, Serve, Publish, SettleRead, CreateRead, Validate, RepairedWallet;
    match t.job
    case SettleJob(_, _, _, _) =>
      if ph.Written? {
        SettlementPairs(s.db, serial, t, ph.write, start);
      } else {
        RepeatPairs(s.db, serial, t, start);
      }
    case CreateJob(_) =>
      CreationPairs(s.db, serial, t, ph.write, start);
    case RepairJob(user) =>
      RepairPairs(s.db, serial, user, ph.wallet, start);
  }

  lemma CreatedWallet(db: Db, r: NewPick, at: int)
    requires CreateRead(db, r, at).Ok?
    ensures
      var w := CreateRead(db, r, at).value;
      if Staked(r) then w.wallet.Some? && r.user == Some(w.wallet.value.0) else w.wallet.None?
  {
  }

  lemma Undisturbed(db: Db)
    ensures Disturbs(db, db, None, None)
  {
  }

  lemma RepeatPairs(db: Db, serial: Db, t: Task, start: int)
    requires Paired(db, serial, start) && t.job.SettleJob? && t.job.pid in db.picks && db.picks[t.job.pid].status == t.job.target
    ensures Serve(serial, t.job, start + 1) == Ok(serial) && Paired(db, serial, start + 1)
  {
    SettleJudged(serial, t.job.pid, t.job.target, t.job.closing, t.job.now, start + 1);
    hide Settle, Sound;
  }

  /** A repair that reads the wallet's true total keeps it. */
  lemma RepairKeepsTotal(w: Wallet, escrow: int, tail: Option<Entry>)
    requires w.available >= 0 && w.locked >= 0 && escrow >= 0 && RepairedWallet(w, escrow, tail).Ok?
    requires tail.Some? ==> SnapshotTotal(tail) == w.available + w.locked
    ensures
      var fixed := RepairedWallet(w, escrow, tail).value;
      && fixed.available >= 0 && fixed.locked >= 0 && fixed.available + fixed.locked == w.available + w.locked
      && (fixed != w ==> fixed.locked == escrow != w.locked)
  {
  }

  lemma WalletTotals(db: Db, u: UserId)
    requires Sound(db) && u in db.wallets
    ensures db.wallets[u].available >= 0 && db.wallets[u].locked >= 0 && Escrow(db.picks, u) >= 0
    ensures Tail(db.ledger, u).Some? ==> SnapshotTotal(Tail(db.ledger, u)) == db.wallets[u].available + db.wallets[u].locked
  {
    assert Solvent(db) && TailTotals(db);
    assert forall k :: k in db.picks ==> Share(db.picks[k], u, PendingStake) >= 0;
    hide Sound, Tail, Total;
    TotalBounds(db.picks, u, PendingStake);
  }

  lemma RepairIsLegal(db: Db, u: UserId, w: Wallet)
    requires Sound(db) && u in db.wallets && RepairOnTail(db, u) == Ok(w)
    ensures Legal(db, Rebalanced(u, w), 0)
  {
    hide Sound, Tail, Escrow, RepairedWallet;
    WalletTotals(db, u);
    RepairKeepsTotal(db.wallets[u], Escrow(db.picks, u), Tail(db.ledger, u));
  }

  lemma RepairServed(db: Db, serial: Db, u: UserId, w: Wallet, start: int)
    requires SameTables(db, serial) && InOrder(serial.ledger, start) && u in db.wallets && RepairOnLatest(db, u) == Ok(w) && !Misled(db, u)
    ensures RepairOnTail(db, u) == Ok(w)
    ensures Serve(serial, RepairJob(u), start + 1) == Ok(serial.(wallets := serial.wallets[u := w]))
  {
    hide RepairOnTail, RepairOnLatest, Serve, SameTables, InOrder;
    ServeRepair(db, serial, u, start, start + 1);
  }

  lemma RepairStaysPaired(db: Db, serial: Db, u: UserId, w: Wallet, start: int)
    requires Paired(db, serial, start) && u in db.wallets && RepairOnTail(db, u) == Ok(w)
    ensures Paired(db.(wallets := db.wallets[u := w]), serial.(wallets := serial.wallets[u := w]), start + 1)
  {
    hide Sound, RepairOnTail, Escrow;
    RepairIsLegal(db, u, w);
    assert Legal(serial, Rebalanced(u, w), 0);
    hide Legal;
    RebalanceKeepsSound(db, u, w, 0);
    RebalanceKeepsSound(serial, u, w, 0);
  }

  lemma RepairPairs(db: Db, serial: Db, u: UserId, w: Wallet, start: int)
    requires Paired(db, serial, start) && u in db.wallets && RepairOnLatest(db, u) == Ok(w) && !Misled(db, u)
    ensures Serve(serial, RepairJob(u), start + 1) == Ok(serial.(wallets := serial.wallets[u := w]))
    ensures Paired(db.(wallets := db.wallets[u := w]), serial.(wallets := serial.wallets[u := w]), start + 1)
  {
    assert SameTables(db, serial) && InOrder(serial.ledger, start);
    hide Paired, Serve, RepairOnTail, RepairOnLatest, Misled, SameTables, InOrder;
    RepairServed(db, serial, u, w, start);
    RepairStaysPaired(db, serial, u, w, start);
  }

  /** A misled repair parts the tables from their serial reference. */
  lemma MisledDiverges(db: Db, serial: Db, u: UserId, w: Wallet, start: int)
    requires Paired(db, serial, start) && u in db.wallets && RepairOnLatest(db, u) == Ok(w) && Misled(db, u)
    ensures
      var served := Serve(serial, RepairJob(u), start + 1);
      !(served.Ok? && SameTables(db.(wallets := db.wallets[u := w]), served.value))
  {
    ServeRepair(db, serial, u, start, start + 1);
    var served := Serve(serial, RepairJob(u), start + 1);
    hide Sound, RepairOnTail, RepairOnLatest, Serve;
    if served.Ok? {
      assert served.value.wallets[u] != w;
      assert db.(wallets := db.wallets[u := w]).wallets[u] == w;
    }
  }

  // ---- The main theorem ----

  lemma LogGrows(plan: seq<Task>, s: System, i: nat, db: Db)
    requires i < |plan| == |s.phases| && !s.phases[i].Finished() && LogOk(plan, s)
    ensures LogOk(plan, System(db, s.phases[i := Committed], s.log + [i]))
  {
    var next := System(db, s.phases[i := Committed], s.log + [i]);
    forall j | 0 <= j < |plan| && next.phases[j].Committed? ensures j in next.log {
      if j == i { assert next.log[|s.log|] == i; }
    }
  }

  lemma AcceptedGrows(db0: Db, plan: seq<Task>, log: seq<nat>, start: int, i: nat, served: Db)
    requires forall k :: 0 <= k < |log| ==> Accepted(db0, plan, log, start, k)
    requires i < |plan| && Serve(ServeAll(db0, plan, log, start), plan[i].job, start + |log| + 1) == Ok(served)
    ensures forall k :: 0 <= k <= |log| ==> Accepted(db0, plan, log + [i], start, k)
    ensures ServeAll(db0, plan, log + [i], start) == served
  {
    hide Settle, CreatePick, FixUserBalance;
    var longer := log + [i];
    assert longer[..|log|] == log;
    forall k | 0 <= k <= |log| ensures Accepted(db0, plan, longer, start, k) {
      assert longer[..k] == log[..k];
      assert k < |log| ==> Accepted(db0, plan, log, start, k);
    }
  }

  lemma CommitKeepsOrderly(plan: seq<Task>, s: System, i: nat)
    requires FreshIds(plan) && Orderly(plan, s)
    requires i < |plan| && !s.phases[i].Finished() && Next(plan, s, i).Commit?
    ensures Orderly(plan, System(Next(plan, s, i).db, s.phases[i := Committed], s.log + [i]))
  {
    hide Next, Intact, Disturbs, Local, Exclusive, LogOk, HoldsPick, HoldsBalance, FreshIds, MayWritePick;
    var db := Next(plan, s, i).db;
    CommitStays(plan, s, i);
    var pid: Option<PickId>, u: Option<UserId> :| Confined(s.db, plan[i], s.phases[i], db, pid, u);
    OthersKeepLocal(plan, s, i, db, pid, u);
    CommittedIsLocal(db, plan[i]);
    FinishingKeepsExclusive(plan, s.phases, i, Committed);
    LogGrows(plan, s, i, db);
  }

  lemma CommitKeepsPaired(db0: Db, plan: seq<Task>, start: int, s: System, i: nat)
    requires i < |plan| == |s.phases| && Next(plan, s, i).Commit? && !MisledStep(plan, s, Go(i))
    requires Local(s.db, plan[i], s.phases[i]) && Paired(s.db, ServeAll(db0, plan, s.log, start), start + |s.log|)
    requires forall k :: 0 <= k < |s.log| ==> Accepted(db0, plan, s.log, start, k)
    ensures Paired(Next(plan, s, i).db, ServeAll(db0, plan, s.log + [i], start), start + |s.log| + 1)
    ensures forall k :: 0 <= k <= |s.log| ==> Accepted(db0, plan, s.log + [i], start, k)
  {
    hide Next, Paired, Local, Accepted, ServeAll, Serve, MisledStep;
    var serial := ServeAll(db0, plan, s.log, start);
    CommitPairs(plan, s, i, serial, start + |s.log|);
    AcceptedGrows(db0, plan, s.log, start, i, Serve(serial, plan[i].job, start + |s.log| + 1).value);
  }

  lemma ReachesParts(db0: Db, plan: seq<Task>, start: int, s: System, i: nat)
    requires Reaches(db0, plan, start, s) && i < |plan|
    ensures |s.phases| == |plan| && Orderly(plan, s) && Local(s.db, plan[i], s.phases[i])
    ensures Paired(s.db, ServeAll(db0, plan, s.log, start), start + |s.log|)
    ensures forall k :: 0 <= k < |s.log| ==> Accepted(db0, plan, s.log, start, k)
  {
    hide Paired, Local, Accepted, ServeAll, Exclusive, LogOk, Intact;
  }

  lemma CommitKeepsReaches(db0: Db, plan: seq<Task>, start: int, s: System, i: nat)
    requires FreshIds(plan) && Reaches(db0, plan, start, s)
    requires i < |plan| && |s.phases| == |plan| && !s.phases[i].Finished() && Next(plan, s, i).Commit? && !MisledStep(plan, s, Go(i))
    ensures Reaches(db0, plan, start, System(Next(plan, s, i).db, s.phases[i := Committed], s.log + [i]))
  {
    hide Next, Paired, Local, Orderly, Accepted, ServeAll, FreshIds, MisledStep;
    ReachesParts(db0, plan, start, s, i);
    CommitKeepsOrderly(plan, s, i);
    CommitKeepsPaired(db0, plan, start, s, i);
  }

  lemma CommittedIsLocal(db: Db, t: Task)
    ensures Local(db, t, Committed) && Local(db, t, Rejected)
  {
  }

  lemma MoveKeepsOrderly(plan: seq<Task>, s: System, i: nat, ph: Phase)
    requires Orderly(plan, s) && i < |plan| && !s.phases[i].Finished() && !ph.Committed?
    requires Local(s.db, plan[i], ph) && Exclusive(plan, s.phases[i := ph])
    ensures Orderly(plan, s.(phases := s.phases[i := ph]))
  {
    hide Local, Exclusive, Intact;
  }

  lemma BecomeKeepsOrderly(plan: seq<Task>, s: System, i: nat)
    requires Orderly(plan, s) && i < |plan| && !s.phases[i].Finished() && Next(plan, s, i).Become?
    ensures Orderly(plan, s.(phases := s.phases[i := Next(plan, s, i).phase]))
  {
    var ph := Next(plan, s, i).phase;
    assert SettledOnce(s.db) && Announced(s.db) && LinesOk(s.db);
    assert Local(s.db, plan[i], s.phases[i]);
    hide Local, HoldsBalance, HoldsPick, Next, PickFree, BalanceFree, Exclusive, LogOk, Intact, SettledOnce, Announced, LinesOk;
    NextIsUncommitted(plan, s, i);
    NextHolds(plan, s, i);
    TakingKeepsExclusive(plan, s, i, ph);
    MoveKeepsOrderly(plan, s, i, ph);
  }

  lemma NextHolds(plan: seq<Task>, s: System, i: nat)
    requires i < |plan| == |s.phases| && Next(plan, s, i).Become?
    requires LinesOk(s.db) && SettledOnce(s.db) && Announced(s.db) && Local(s.db, plan[i], s.phases[i])
    ensures Local(s.db, plan[i], Next(plan, s, i).phase)
    ensures forall pid :: HoldsPick(plan[i], Next(plan, s, i).phase, pid) ==> HoldsPick(plan[i], s.phases[i], pid) || PickFree(plan, s, i, pid)
    ensures forall u :: HoldsBalance(plan[i], Next(plan, s, i).phase, u) ==> HoldsBalance(plan[i], s.phases[i], u) || BalanceFree(plan, s, i, u)
  {
    hide Next, PickFree, BalanceFree, SettledOnce, Announced, LinesOk, Local, HoldsBalance;
    match plan[i].job
    case SettleJob(_, _, _, _) => SettleBecomes(plan, s, i);
    case CreateJob(_) => CreateBecomes(plan, s, i);
    case RepairJob(_) => RepairBecomes(plan, s, i);
  }

  lemma NextIsUncommitted(plan: seq<Task>, s: System, i: nat)
    requires i < |plan| == |s.phases| && Next(plan, s, i).Become?
    ensures !Next(plan, s, i).phase.Committed?
  {
    hide SettleWrite, CreateWrite, RepairedWallet, Latest, Escrow, ReportOn, PickFree, BalanceFree, Validate, Judge;
  }

  lemma RejectKeepsOrderly(plan: seq<Task>, s: System, i: nat)
    requires Orderly(plan, s) && i < |plan| && !s.phases[i].Finished()
    ensures Orderly(plan, s.(phases := s.phases[i := Rejected]))
  {
    FinishingKeepsExclusive(plan, s.phases, i, Rejected);
    CommittedIsLocal(s.db, plan[i]);
    hide Local, Exclusive, LogOk, Intact;
    MoveKeepsOrderly(plan, s, i, Rejected);
  }

  lemma StepKeepsOrderly(plan: seq<Task>, s: System, c: Choice)
    requires Orderly(plan, s) && FreshIds(plan)
    ensures Orderly(plan, Step(plan, s, c))
  {
    assert |s.phases| == |plan|;
    hide Orderly, Next, FreshIds;
    var i := c.worker;
    if i < |plan| && !s.phases[i].Finished() {
      if c.Abort? {
        RejectKeepsOrderly(plan, s, i);
      } else if Next(plan, s, i).Become? {
        BecomeKeepsOrderly(plan, s, i);
      } else if Next(plan, s, i).Commit? {
        CommitKeepsOrderly(plan, s, i);
      }
    }
  }

  /** What holds under every schedule, misled repairs included: locks are exclusive, nobody's reads go
      stale under their locks, and balances, picks, settlement lines and events stay right. */
  lemma {:induction false} InterleavingIsOrderly(db: Db, plan: seq<Task>, cs: seq<Choice>)
    requires Intact(db) && FreshIds(plan)
    ensures Orderly(plan, Interleave(plan, Begin(db, plan), cs))
  {
    if cs == [] {
      BeginIsOrderly(db, plan);
    } else {
      var n := |cs| - 1;
      InterleavingIsOrderly(db, plan, cs[..n]);
      hide Orderly, Step, FreshIds;
      StepKeepsOrderly(plan, Interleave(plan, Begin(db, plan), cs[..n]), cs[n]);
    }
  }

  lemma BeginIsOrderly(db: Db, plan: seq<Task>)
    requires Intact(db)
    ensures Orderly(plan, Begin(db, plan))
  {
    hide Intact;
  }

  lemma BeginReaches(db: Db, plan: seq<Task>, start: int)
    requires GoodStart(db, start)
    ensures Reaches(db, plan, start, Begin(db, plan))
  {
    assert Intact(db);
    BeginIsOrderly(db, plan);
    hide Sound, InOrder, Orderly, Intact;
  }

  lemma StepKeepsReaches(db: Db, plan: seq<Task>, start: int, s: System, c: Choice)
    requires Reaches(db, plan, start, s) && FreshIds(plan) && !MisledStep(plan, s, c)
    ensures Reaches(db, plan, start, Step(plan, s, c))
  {
    var i := c.worker;
    assert |s.phases| == |plan|;
    hide Orderly, Next, FreshIds;
    if c.Go? && i < |plan| && !s.phases[i].Finished() && Next(plan, s, i).Commit? {
      hide Reaches;
      assert Go(i) == c;
      CommitKeepsReaches(db, plan, start, s, i);
      hide MisledStep;
    } else {
      hide MisledStep, Paired, Accepted, ServeAll;
      StepKeepsOrderly(plan, s, c);
      assert Step(plan, s, c).db == s.db && Step(plan, s, c).log == s.log;
    }
  }

  /** No repair that commits under this schedule is misled. */
  ghost predicate NeverMisled(db: Db, plan: seq<Task>, cs: seq<Choice>) {
    forall k :: 0 <= k < |cs| ==> !MisledStep(plan, Interleave(plan, Begin(db, plan), cs[..k]), cs[k])
  }

  lemma NeverMisledBefore(db: Db, plan: seq<Task>, cs: seq<Choice>)
    requires cs != [] && NeverMisled(db, plan, cs)
    ensures
      var n := |cs| - 1;
      NeverMisled(db, plan, cs[..n]) && !MisledStep(plan, Interleave(plan, Begin(db, plan), cs[..n]), cs[n])
  {
    hide Interleave, MisledStep;
    var n := |cs| - 1;
    forall k | 0 <= k < n ensures !MisledStep(plan, Interleave(plan, Begin(db, plan), cs[..n][..k]), cs[..n][k]) {
      assert cs[..n][..k] == cs[..k];
      assert !MisledStep(plan, Interleave(plan, Begin(db, plan), cs[..k]), cs[k]);
    }
  }

  lemma {:induction false} InterleaveReaches(db: Db, plan: seq<Task>, start: int, cs: seq<Choice>)
    requires GoodStart(db, start) && FreshIds(plan) && NeverMisled(db, plan, cs)
    ensures Reaches(db, plan, start, Interleave(plan, Begin(db, plan), cs))
  {
    if cs == [] {
      BeginReaches(db, plan, start);
    } else {
      var n := |cs| - 1;
      NeverMisledBefore(db, plan, cs);
      hide Reaches, Step, NeverMisled, GoodStart, FreshIds, MisledStep;
      InterleaveReaches(db, plan, start, cs[..n]);
      StepKeepsReaches(db, plan, start, Interleave(plan, Begin(db, plan), cs[..n]), cs[n]);
    }
  }

  /** Serializability. Start N workers from any state that serial runs reach, and let any scheduler
      interleave their statements and abort any of them, with no misled repair among the commits. At
      every moment the tables (ledger stamps aside) are exactly those of serving, one at a time in
      commit order, the workers that have committed: each of them once, each accepted in its turn, and
      no rejected or unfinished worker has had any effect. The tables remain sound. */
  lemma InterleavingIsSerial(db: Db, plan: seq<Task>, start: int, cs: seq<Choice>)
    requires GoodStart(db, start) && FreshIds(plan) && NeverMisled(db, plan, cs)
    ensures
      var s := Interleave(plan, Begin(db, plan), cs);
      && SameTables(s.db, ServeAll(db, plan, s.log, start))
      && (forall k :: 0 <= k < |s.log| ==> Accepted(db, plan, s.log, start, k))
      && (forall i :: 0 <= i < |plan| ==> (i in s.log <==> s.phases[i].Committed?))
      && (forall j, k :: 0 <= j < k < |s.log| ==> s.log[j] != s.log[k])
      && Sound(s.db)
  {
    InterleaveReaches(db, plan, start, cs);
    hide Accepted, ServeAll, Interleave, SameTables, Sound, Intact, Local, Exclusive, GoodStart, FreshIds, NeverMisled;
  }

  // ---- Progress ----

  /** A worker that does not move waits for another one. */
  lemma StuckWaits(plan: seq<Task>, s: System, i: nat)
    requires i < |plan| == |s.phases| && !s.phases[i].Finished()
    requires Local(s.db, plan[i], s.phases[i]) && Next(plan, s, i).Stay?
    ensures exists j :: 0 <= j < |plan| && Waits(plan, s, i, j)
  {
    var t, ph := plan[i], s.phases[i];
    hide SettleWrite, CreateWrite, RepairedWallet, Latest, Escrow, ReportOn, Publish, SettleRead, CreateRead;
    match t.job
    case SettleJob(pid, _, _, _) =>
      if ph.Start? {
        var j :| 0 <= j < |plan| && j != i && HoldsPick(plan[j], s.phases[j], pid);
        assert Waits(plan, s, i, j);
      } else {
        var j :| 0 <= j < |plan| && j != i && HoldsBalance(plan[j], s.phases[j], Owner(ph.of.value));
        assert Waits(plan, s, i, j);
      }
    case CreateJob(r) =>
      var j :| 0 <= j < |plan| && j != i && HoldsBalance(plan[j], s.phases[j], r.user.value);
      assert Waits(plan, s, i, j);
    case RepairJob(u) =>
      var j :| 0 <= j < |plan| && j != i && HoldsBalance(plan[j], s.phases[j], u);
      assert Waits(plan, s, i, j);
  }

  lemma MovesOn(plan: seq<Task>, s: System, i: nat)
    requires i < |plan| == |s.phases| && !s.phases[i].Finished() && !Next(plan, s, i).Stay?
    ensures Step(plan, s, Go(i)) != s
  {
    hide SettleWrite, CreateWrite, RepairedWallet, Latest, Escrow, ReportOn, Publish, PickFree, BalanceFree, Validate, Judge;
    if Next(plan, s, i).Become? {
      assert Step(plan, s, Go(i)).phases[i] != s.phases[i];
    } else {
      assert |Step(plan, s, Go(i)).log| == |s.log| + 1;
    }
  }

  lemma BalanceHolderMoves(plan: seq<Task>, s: System, k: nat, u: UserId)
    requires k < |plan| == |s.phases| && HoldsBalance(plan[k], s.phases[k], u) && Local(s.db, plan[k], s.phases[k])
    ensures !s.phases[k].Finished() && !Next(plan, s, k).Stay?
  {
    hide SettleWrite, CreateWrite, RepairedWallet, Latest, Escrow, ReportOn, Publish, SettleRead, CreateRead, PickFree, BalanceFree;
  }

  lemma WaitedForIsUnfinished(plan: seq<Task>, s: System, i: nat, j: nat)
    requires i < |plan| == |s.phases| && j < |plan| && Waits(plan, s, i, j)
    ensures !s.phases[j].Finished()
  {
  }

  /** As long as some worker has neither committed nor been rejected, some worker can run its next
      statement, whatever has been scheduled so far. */
  lemma SomeoneRuns(db: Db, plan: seq<Task>, cs: seq<Choice>, i: nat)
    requires Intact(db) && FreshIds(plan)
    requires i < |plan| && !Interleave(plan, Begin(db, plan), cs).phases[i].Finished()
    ensures exists j :: 0 <= j < |plan| && Step(plan, Interleave(plan, Begin(db, plan), cs), Go(j)) != Interleave(plan, Begin(db, plan), cs)
  {
    InterleavingIsOrderly(db, plan, cs);
    var s := Interleave(plan, Begin(db, plan), cs);
    assert forall k :: 0 <= k < |plan| ==> Local(s.db, plan[k], s.phases[k]);
    hide Orderly, Intact, Local, Next, Step, Interleave, FreshIds, Waits, HoldsBalance, HoldsPick;
    var at := i;
    if Next(plan, s, i).Stay? {
      StuckWaits(plan, s, i);
      var j :| 0 <= j < |plan| && Waits(plan, s, i, j);
      at := j;
      WaitedForIsUnfinished(plan, s, i, j);
      if Next(plan, s, j).Stay? {
        StuckWaits(plan, s, j);
        var k :| 0 <= k < |plan| && Waits(plan, s, j, k);
        at := k;
        HoldersOfBalancesRun(plan, s, i, j, k);
        BalanceHolderMoves(plan, s, k, Owner(s.phases[j].of.value));
      }
    }
    MovesOn(plan, s, at);
  }
}
