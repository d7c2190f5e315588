/** Serial runs of requests: what any run keeps, and what they keep on top when no edit moves a stake. */
module Runs {
  import opened Money
  import opened Odds
  import opened Domain
  import opened Tables
  import opened Reconciliation
  import opened Engine
  import opened Invariants

  // ---- Every accepted request is one of five changes ----

  datatype Change =
    | Same
    | Settled(write: Write, target: Status)
    | Created(write: Write)
    | Touched(pid: PickId, pick: Pick)
    | Rebalanced(user: UserId, wallet: Wallet)

  function Apply(db: Db, c: Change): Db {
    match c
    case Same => db
    case Settled(w, _) => Publish(db, w)
    case Created(w) => Publish(db, w)
    case Touched(pid, q) => db.(picks := db.picks[pid := q])
    case Rebalanced(u, w) => db.(wallets := db.wallets[u := w])
  }

  /** A pick edited or confirmed in place: a settled one may only gain a confirmation time. */
  ghost predicate IsTouch(p: Pick, q: Pick) {
    && PickOk(q) && q.owner == p.owner && q.status == p.status
    && (p.status.Terminal() ==> q == p.(confirmedAt := q.confirmedAt))
  }

  ghost predicate Legal(db: Db, c: Change, at: int) {
    match c
    case Same => true
    case Settled(w, target) => IsSettlement(db, w, target, at)
    case Created(w) => IsCreation(db, w, at)
    case Touched(pid, q) => pid in db.picks && IsTouch(db.picks[pid], q)
    case Rebalanced(u, w) =>
      && u in db.wallets && w.available >= 0 && w.locked >= 0
      && w.available + w.locked == db.wallets[u].available + db.wallets[u].locked
      && (w != db.wallets[u] ==> w.locked == Escrow(db.picks, u) != db.wallets[u].locked)
  }

  lemma {:induction false} LockGivesTail(ledger: seq<Entry>, pid: PickId)
    requires LockOf(ledger, pid).Some?
    ensures Tail(ledger, LockOf(ledger, pid).value.user).Some?
  {
    var e := ledger[|ledger| - 1];
    if !(e.ref == pid && e.kind.StakeLock?) {
      LockGivesTail(ledger[..|ledger| - 1], pid);
    }
  }

  /** In a serial run the drift gate lets every settlement of a staked pick through. */
  lemma GateOpen(db: Db, pid: PickId, t: int)
    requires OwnersOk(db) && TailTotals(db) && InOrder(db.ledger, t)
    requires pid in db.picks && db.picks[pid].owner.Some?
    ensures DriftGate(db, db.picks[pid].owner.value).None?
  {
    var u := db.picks[pid].owner.value;
    LockGivesTail(db.ledger, pid);
    LatestIsTail(db.ledger, t, u);
  }

  /** A pending pick has no settlement line and no settlement event yet. */
  lemma PendingIsUnsettled(db: Db, pid: PickId, target: Status)
    requires SettledOnce(db) && Announced(db) && pid in db.picks && db.picks[pid].status.Pending? && target.Terminal()
    ensures Settlements(db.ledger, pid) == [] && !Decided(db.ledger, pid)
    ensures !LineTaken(db.ledger, pid, LineType(target)) && !KeyTaken(db.outbox, SettledKey(pid, target))
  {
    assert SettledRight(db.picks[pid], Settlements(db.ledger, pid));
    if Decided(db.ledger, pid) {
      var i :| 0 <= i < |db.ledger| && db.ledger[i].ref == pid && (db.ledger[i].kind.Payout? || db.ledger[i].kind.Loss?);
      LineTakenIsHeld(db.ledger, pid, db.ledger[i].kind);
    }
    if LineTaken(db.ledger, pid, LineType(target)) {
      LineTakenIsHeld(db.ledger, pid, LineType(target));
    }
    var key := SettledKey(pid, target);
    if KeyTaken(db.outbox, key) {
      KeyTakenIsHeld(db.outbox, key);
    }
  }

  /** The validator's answer to settling a well-kept pending pick. */
  lemma SettlingFault(p: Pick, q: Pick, target: Status, now: int)
    requires PickOk(p) && p.status.Pending? && target.Terminal()
    requires q == p.(closing := q.closing, clv := q.clv)
    ensures Validate(Resolved(q, target, now), Some(p), PROFIT_TOLERANCE)
         == if now < p.createdAt then Some(ResolvedBeforeCreated)
            else if !target.Void? && p.stake.None? then Some(ResolvedRequiresStake)
            else None
  {
  }

  /** The rows a settlement reads in a sound system, and what its decision is then. */
  function SettleRead(db: Db, pid: PickId, target: Status, closing: Option<int>, now: int, at: int): Result<Write>
    requires pid in db.picks && target.Terminal() && (closing.Some? ==> closing.value > 0)
  {
    var q := WithClosing(db.picks[pid], closing);
    SettleWrite(pid, q, db.picks[pid], [], if Financial(q) then Some(WalletOf(db, q.owner.value)) else None,
                false, false, target, now, at)
  }

  lemma SettleReads(db: Db, pid: PickId, target: Status, closing: Option<int>, now: int, at: int, t: int)
    requires OwnersOk(db) && TailTotals(db) && SettledOnce(db) && Announced(db) && InOrder(db.ledger, t)
    requires pid in db.picks && db.picks[pid].status.Pending? && target.Terminal()
    requires db.picks[pid].owner.Some? ==> db.picks[pid].owner.value == DEFAULT_USER
    requires closing.Some? ==> closing.value > 0
    ensures Settle(db, pid, target, closing, now, at) ==
              match SettleRead(db, pid, target, closing, now, at)
              case Err(e) => Err(e)
              case Ok(w) => Ok(Publish(db, w))
  {
    hide SettleWrite, DriftGate, Decided, Settlements, LineTaken, KeyTaken, SettledOnce, Announced, TailTotals, InOrder;
    PendingIsUnsettled(db, pid, target);
    if Financial(db.picks[pid]) {
      GateOpen(db, pid, t);
    }
  }

  /** The complete outcome of settling a pending pick whose guards pass: missing escrow and the
      validator are the only rejections left, and an accepted settlement writes exact cents. */
  lemma SettleDecides(db: Db, pid: PickId, target: Status, closing: Option<int>, now: int, at: int, t: int)
    requires Sound(db) && InOrder(db.ledger, t)
    requires pid in db.picks && db.picks[pid].status.Pending? && target.Terminal()
    requires db.picks[pid].owner.Some? ==> db.picks[pid].owner.value == DEFAULT_USER
    requires closing.Some? ==> closing.value > 0
    ensures
      var p := db.picks[pid];
      SettleRead(db, pid, target, closing, now, at).Ok? <==>
        && (Financial(p) ==> db.wallets[p.owner.value].locked >= p.stake.value)
        && (target.Void? || p.stake.Some?) && now >= p.createdAt
    ensures
      var p := db.picks[pid];
      Settle(db, pid, target, closing, now, at) ==
        if Financial(p) && db.wallets[p.owner.value].locked < p.stake.value then Err(CriticalInvariantBroken)
        else if now < p.createdAt then Err(ResolvedBeforeCreated)
        else if !target.Void? && p.stake.None? then Err(ResolvedRequiresStake)
        else Ok(Publish(db, SettleRead(db, pid, target, closing, now, at).value))
    ensures
      var w := SettleRead(db, pid, target, closing, now, at);
      w.Ok? ==> w.value.pid == pid && IsSettlement(db, w.value, target, at)
  {
    var p := db.picks[pid];
    SettleReads(db, pid, target, closing, now, at, t);
    var q := WithClosing(p, closing);
    var wallet := if Financial(q) then Some(WalletOf(db, q.owner.value)) else None;
    SettleWriteIsSettlement(db, pid, q, [], wallet, false, false, target, now, at);
    SettlingFault(p, q, target, now);
  }

  lemma SettleChanges(db: Db, pid: PickId, target: Status, closing: Option<int>, now: int, at: int, t: int)
    requires Sound(db) && InOrder(db.ledger, t)
    requires Settle(db, pid, target, closing, now, at).Ok?
    ensures exists c :: Legal(db, c, at) && Settle(db, pid, target, closing, now, at).value == Apply(db, c)
                     && (c.Same? || (c.Settled? && c.write.pid == pid && c.target == target))
  {
    if db.picks[pid].status == target {
      assert Legal(db, Same, at) && Apply(db, Same) == db;
    } else {
      SettleDecides(db, pid, target, closing, now, at, t);
      var w := SettleRead(db, pid, target, closing, now, at).value;
      var c := Settled(w, target);
      assert Legal(db, c, at) && Apply(db, c) == Publish(db, w);
    }
  }

  lemma EditTouches(p: Pick, c: Changes)
    requires PickOk(p) && p.status.Pending? && Edited(p, c).Ok?
    ensures IsTouch(p, Edited(p, c).value)
    ensures !c.stake.Set? ==> Edited(p, c).value.stake == p.stake
  {
  }

  lemma ConfirmTouches(p: Pick, now: int)
    requires PickOk(p)
    ensures IsTouch(p, p.(confirmedAt := Some(now)))
  {
  }

  /** A repair moves money between the two columns of one wallet and conserves its total. */
  lemma RepairChanges(db: Db, u: UserId, t: int)
    requires Sound(db) && InOrder(db.ledger, t) && FixUserBalance(db, u).Ok?
    ensures FixUserBalance(db, u).value.wallets.Keys == db.wallets.Keys
    ensures u in db.wallets && Legal(db, Rebalanced(u, FixUserBalance(db, u).value.wallets[u]), t)
    ensures FixUserBalance(db, u).value == Apply(db, Rebalanced(u, FixUserBalance(db, u).value.wallets[u]))
  {
    RepairWrites(db, u);
    LatestIsTail(db.ledger, t, u);
    RepairedWalletIsProjection(u, db.wallets[u], Escrow(db.picks, u), Latest(db.ledger, u));
  }

  lemma CreateChanges(db: Db, r: NewPick, at: int)
    requires CreatePick(db, r, at).Ok?
    ensures exists c :: Legal(db, c, at) && CreatePick(db, r, at).value == Apply(db, c) && c.Created?
  {
    var w := if r.user.Some? then WalletOf(db, r.user.value) else Wallet(0, 0);
    var taken, locked, known := r.pid in db.picks, LineTaken(db.ledger, r.pid, StakeLock), KeyTaken(db.outbox, CreatedKey(r.pid));
    CreateWriteIsCreation(db, r, w, taken, locked, known, at);
    var c := Created(CreateWrite(r, w, taken, locked, known, at).value);
    hide CreateWrite, Publish, IsCreation;
    assert Legal(db, c, at) && CreatePick(db, r, at).value == Apply(db, c);
  }

  lemma ConfirmChanges(db: Db, pid: PickId, confirmed: bool, now: int, at: int, t: int)
    requires Sound(db) && InOrder(db.ledger, t) && ConfirmPick(db, pid, confirmed, now, at).Ok?
    ensures exists c :: Legal(db, c, at) && ConfirmPick(db, pid, confirmed, now, at).value == Apply(db, c)
                     && (c.Touched? ==> c.pick.stake == db.picks[c.pid].stake)
  {
    hide Settle, Validate, Publish;
    if confirmed {
      ConfirmTouches(db.picks[pid], now);
      var c := Touched(pid, db.picks[pid].(confirmedAt := Some(now)));
      assert Legal(db, c, at) && ConfirmPick(db, pid, confirmed, now, at).value == Apply(db, c);
    } else {
      SettleChanges(db, pid, Status.Void, None, now, at, t);
    }
  }

  lemma UpdateChanges(db: Db, pid: PickId, changes: Changes, at: int)
    requires Sound(db) && UpdatePick(db, pid, changes).Ok?
    ensures exists c :: Legal(db, c, at) && UpdatePick(db, pid, changes).value == Apply(db, c)
                     && c.Touched? && (c.pick.stake != db.picks[c.pid].stake ==> changes.stake.Set?)
  {
    EditTouches(db.picks[pid], changes);
    hide Edited, Sound;
    var c := Touched(pid, Edited(db.picks[pid], changes).value);
    assert Legal(db, c, at) && UpdatePick(db, pid, changes).value == Apply(db, c);
  }

  lemma ResolveChanges(db: Db, pid: PickId, target: Status, closing: Option<int>, now: int, at: int, t: int)
    requires Sound(db) && InOrder(db.ledger, t) && ResolvePick(db, pid, target, closing, now, at).Ok?
    ensures exists c :: Legal(db, c, at) && ResolvePick(db, pid, target, closing, now, at).value.(parlays := db.parlays) == Apply(db, c)
                     && !c.Touched?
  {
    hide Settle, Sound, InOrder;
    SettleChanges(db, pid, target, closing, now, at, t);
    var c :| Legal(db, c, at) && Settle(db, pid, target, closing, now, at).value == Apply(db, c) && (c.Same? || c.Settled?);
    assert Apply(db, c).parlays == db.parlays;
  }

  lemma ExecuteChanges(db: Db, r: Request, t: int)
    requires Sound(db) && InOrder(db.ledger, t) && Execute(db, r).Ok?
    ensures exists c :: Legal(db, c, r.at) && Execute(db, r).value.(parlays := db.parlays) == Apply(db, c)
                     && (c.Touched? && c.pick.stake != db.picks[c.pid].stake ==> r.op.Update?)
  {
    hide Settle, CreatePick, ResolvePick, ConfirmPick, UpdatePick, FixUserBalance, Sound, InOrder;
    match r.op
    case Create(request) => CreateChanges(db, request, r.at); ParlaysKept(db, r);
    case Resolve(pid, target, closing) => ResolveChanges(db, pid, target, closing, r.now, r.at, t);
    case Delete(pid) => SettleChanges(db, pid, Status.Void, None, r.now, r.at, t); ParlaysKept(db, r);
    case Confirm(pid, confirmed) => ConfirmChanges(db, pid, confirmed, r.now, r.at, t); ParlaysKept(db, r);
    case Update(pid, changes) => UpdateChanges(db, pid, changes, r.at); ParlaysKept(db, r);
    case Repair(u) =>
      RepairChanges(db, u, t);
      ParlaysKept(db, r);
      var c := Rebalanced(u, Execute(db, r).value.wallets[u]);
      assert Legal(db, c, r.at);
    case AddParlay(_, _, _) =>
      assert Legal(db, Same, r.at) && Execute(db, r).value.(parlays := db.parlays) == Apply(db, Same);
  }

  /** Only resolving a pick or adding a parlay writes parlays. */
  lemma ParlaysKept(db: Db, r: Request)
    requires Execute(db, r).Ok? && !r.op.Resolve? && !r.op.AddParlay?
    ensures Execute(db, r).value.parlays == db.parlays
    ensures Execute(db, r).value.(parlays := db.parlays) == Execute(db, r).value
  {
  }

  // ---- Soundness over every run ----

  lemma TouchKeepsRows(db: Db, pid: PickId, q: Pick)
    requires OwnersOk(db) && LinesOk(db) && SettledOnce(db) && pid in db.picks && IsTouch(db.picks[pid], q)
    ensures OwnersOk(Apply(db, Touched(pid, q))) && LinesOk(Apply(db, Touched(pid, q)))
    ensures SettledOnce(Apply(db, Touched(pid, q)))
  {
    var db' := Apply(db, Touched(pid, q));
    forall k | k in db'.picks ensures SettledRight(db'.picks[k], Settlements(db'.ledger, k)) {
      assert SettledRight(db.picks[k], Settlements(db.ledger, k));
    }
  }

  lemma TouchKeepsEvents(db: Db, pid: PickId, q: Pick)
    requires Announced(db) && pid in db.picks && IsTouch(db.picks[pid], q)
    ensures Announced(Apply(db, Touched(pid, q)))
  {
  }

  /** A pick whose stake may still change has no payout line. */
  lemma TouchKeepsChain(db: Db, pid: PickId, q: Pick)
    requires SettledOnce(db) && ChainOk(db) && pid in db.picks && IsTouch(db.picks[pid], q)
    ensures ChainOk(db.(picks := db.picks[pid := q]))
  {
    var picks := db.picks[pid := q];
    assert SettledRight(db.picks[pid], Settlements(db.ledger, pid));
    if db.picks[pid].status.Pending? && LineTaken(db.ledger, pid, Payout) {
      LineTakenIsHeld(db.ledger, pid, Payout);
    }
    assert forall k :: 0 <= k < |db.ledger| ==> Gain(picks, db.ledger[k]) == Gain(db.picks, db.ledger[k]);
    hide Chained;
    ChainKept(db.picks, picks, db.ledger);
  }

  lemma TouchKeepsSound(db: Db, pid: PickId, q: Pick)
    requires Sound(db) && pid in db.picks && IsTouch(db.picks[pid], q)
    ensures Sound(Apply(db, Touched(pid, q)))
  {
    TouchKeepsRows(db, pid, q);
    TouchKeepsEvents(db, pid, q);
    TouchKeepsChain(db, pid, q);
    var db' := Apply(db, Touched(pid, q));
    assert TailTotals(db') && Solvent(db');
    hide ChainOk;
  }

  lemma RebalanceKeepsSound(db: Db, u: UserId, w: Wallet, at: int)
    requires Sound(db) && Legal(db, Rebalanced(u, w), at)
    ensures Sound(Apply(db, Rebalanced(u, w)))
  {
    var db' := Apply(db, Rebalanced(u, w));
    assert db'.wallets.Keys == db.wallets.Keys;
    assert SettledOnce(db') <==> SettledOnce(db);
    assert Announced(db') <==> Announced(db);
    assert PicksOk(db') <==> PicksOk(db);
  }

  lemma ChangeKeepsOrder(db: Db, c: Change, at: int, t: int)
    requires InOrder(db.ledger, t) && t <= at && Legal(db, c, at)
    ensures InOrder(Apply(db, c).ledger, at)
    ensures Apply(db, c).wallets.Keys == db.wallets.Keys
  {
  }

  lemma ChangeKeepsSound(db: Db, c: Change, at: int)
    requires Sound(db) && Legal(db, c, at)
    ensures Sound(Apply(db, c))
  {
    match c
    case Same =>
    case Settled(w, target) => SettlementKeepsSound(db, w, target, at);
    case Created(w) => CreationKeepsSound(db, w, at);
    case Touched(pid, q) => TouchKeepsSound(db, pid, q);
    case Rebalanced(u, w) => RebalanceKeepsSound(db, u, w, at);
  }

  function LastStart(rs: seq<Request>, start: int): int {
    if rs == [] then start else rs[|rs| - 1].at
  }

  /** Over every serial run from a seeded system, stake edits and repairs included: balances stay
      non-negative, every pick has exactly the ledger lines and outbox events its status calls for,
      and every user's last ledger line carries the total of the wallet. */
  lemma {:induction false} RunKeepsSound(db: Db, rs: seq<Request>, start: int)
    requires Seeded(db) && Serial(rs, start)
    ensures Sound(Run(db, rs)) && InOrder(Run(db, rs).ledger, LastStart(rs, start))
    ensures Run(db, rs).wallets.Keys == db.wallets.Keys
  {
    if rs != [] {
      var n := |rs| - 1;
      RunKeepsSound(db, rs[..n], start);
      RequestKeepsSound(Run(db, rs[..n]), rs[n], LastStart(rs[..n], start));
    }
  }

  lemma RequestKeepsSound(db: Db, r: Request, t: int)
    requires Sound(db) && InOrder(db.ledger, t) && t <= r.at
    ensures Sound(After(db, r)) && InOrder(After(db, r).ledger, r.at)
    ensures After(db, r).wallets.Keys == db.wallets.Keys
  {
    if Execute(db, r).Ok? {
      ExecuteChanges(db, r, t);
      var c :| Legal(db, c, r.at) && Execute(db, r).value.(parlays := db.parlays) == Apply(db, c);
      ChangeKeepsSound(db, c, r.at);
      ChangeKeepsOrder(db, c, r.at, t);
      SoundIgnoresParlays(Execute(db, r).value, db.parlays);
    }
  }

  lemma SoundIgnoresParlays(db: Db, parlays: map<ParlayId, Parlay>)
    ensures Sound(db.(parlays := parlays)) <==> Sound(db)
  {
    var other := db.(parlays := parlays);
    assert PicksOk(other) <==> PicksOk(db);
    assert LinesOk(other) <==> LinesOk(db);
    assert OwnersOk(other) <==> OwnersOk(db);
    assert TailTotals(other) <==> TailTotals(db);
    assert ChainOk(other) <==> ChainOk(db);
    assert Announced(other) <==> Announced(db);
    assert SettledOnce(other) <==> SettledOnce(db);
  }
}
