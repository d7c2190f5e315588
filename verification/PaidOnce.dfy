/** What the settlement services promise in any state whatever, sound or not, and under any order of the clocks: the
    checks on existing ledger lines (`app/services/ledger_service.py`). */
module PaidOnce {
  import opened Money
  import opened Odds
  import opened Domain
  import opened Tables
  import opened Reconciliation
  import opened Engine
  import opened Invariants
  import opened Runs
  import opened Columns

  /** No pick has been paid out, lost or refunded twice. */
  ghost predicate AtMostOnce(db: Db) {
    forall pid :: |Settlements(db.ledger, pid)| <= 1
  }

  /** The line that a settled pick with money at stake must have. */
  function KindFor(target: Status): Option<EntryType> {
    match target
    case Pending => None
    case Won => Some(Payout)
    case Lost => Some(Loss)
    case Push => Some(Refund)
    case Void => Some(Refund)
  }

  /** One settlement: it writes a line, of the kind of its outcome, only for a pick without one, and moves no balance
      without a line. */
  lemma RecordWritesLine(pid: PickId, q: Pick, prior: Pick, rows: seq<Entry>, wallet: Option<Wallet>, lineTaken: bool,
                         target: Status, now: int, at: int)
    requires target.Terminal() && RecordSettlement(pid, q, prior, rows, wallet, lineTaken, target, now, at).Ok?
    ensures
      var w := RecordSettlement(pid, q, prior, rows, wallet, lineTaken, target, now, at).value;
      && w.pid == pid && (w.wallet.Some? <==> w.line.Some?)
      && (w.line.Some? ==> rows == [] && Some(w.line.value.kind) == KindFor(target) && w.line.value.ref == pid)
      && (rows != [] ==> |rows| == 1 && Some(rows[0].kind) == KindFor(target))
  {
    hide Validate, SettlementFor, Settling, Flush, Resolved;
  }

  lemma CompleteWritesLine(db: Db, pid: PickId, q: Pick, prior: Pick, target: Status, now: int, at: int)
    requires target.Terminal() && Complete(db, pid, q, prior, target, now, at).Ok?
    ensures
      var next, rows := Complete(db, pid, q, prior, target, now, at).value, Settlements(db.ledger, pid);
      && (next.ledger == db.ledger ==> next.wallets == db.wallets)
      && (next.ledger != db.ledger ==>
            && rows == [] && |next.ledger| == |db.ledger| + 1 && next.ledger == db.ledger + [next.ledger[|db.ledger|]]
            && next.ledger[|db.ledger|].ref == pid && Some(next.ledger[|db.ledger|].kind) == KindFor(target))
      && next.outbox == db.outbox + [PickSettled(pid, q.owner, target)] && !KeyTaken(db.outbox, SettledKey(pid, target))
      && (rows != [] ==> |rows| == 1 && Some(rows[0].kind) == KindFor(target))
  {
    hide RecordSettlement, DriftGate, Settlements, LineTaken, KeyTaken;
    var wallet := if Financial(q) then Some(WalletOf(db, q.owner.value)) else None;
    RecordWritesLine(pid, q, prior, Settlements(db.ledger, pid), wallet, LineTaken(db.ledger, pid, LineType(target)), target, now, at);
  }

  lemma SettleWritesLine(db: Db, pid: PickId, target: Status, closing: Option<int>, now: int, at: int)
    requires Settle(db, pid, target, closing, now, at).Ok?
    ensures
      var next, rows := Settle(db, pid, target, closing, now, at).value, Settlements(db.ledger, pid);
      && (next.ledger == db.ledger ==> next.wallets == db.wallets)
      && (next.ledger != db.ledger ==>
            && rows == [] && |next.ledger| == |db.ledger| + 1 && next.ledger == db.ledger + [next.ledger[|db.ledger|]]
            && next.ledger[|db.ledger|].ref == pid && Some(next.ledger[|db.ledger|].kind) == KindFor(target))
  {
    hide Complete, Settlements, Decided, Clv;
    if db.picks[pid].status != target {
      var p := db.picks[pid];
      SettleJudges(db, pid, target, closing, now, at);
      CompleteWritesLine(db, pid, WithClosing(p, closing), p, target, now, at);
    }
  }

  /** A pending pick that already has settlement lines, as no serial run leaves one, is settled only to the outcome of its
      one line: it becomes terminal and is announced, and no money moves. */
  lemma SettlingAgainMovesNothing(db: Db, pid: PickId, target: Status, closing: Option<int>, now: int, at: int)
    requires pid in db.picks && db.picks[pid].status.Pending? && target.Terminal() && Settlements(db.ledger, pid) != []
    requires Settle(db, pid, target, closing, now, at).Ok?
    ensures
      var next, rows := Settle(db, pid, target, closing, now, at).value, Settlements(db.ledger, pid);
      && |rows| == 1 && Some(rows[0].kind) == KindFor(target)
      && next.wallets == db.wallets && next.ledger == db.ledger && next.parlays == db.parlays
      && next.outbox == db.outbox + [PickSettled(pid, db.picks[pid].owner, target)]
      && pid in next.picks && next.picks[pid].status == target
  {
    SettlementStores(db, pid, target, closing, now, at);
    hide Complete, Settlements, Decided, Clv, ResultColumns, ClosingColumns;
    var p := db.picks[pid];
    CompleteWritesLine(db, pid, WithClosing(p, closing), p, target, now, at);
    CompleteKeepsParlays(db, pid, WithClosing(p, closing), p, target, now, at);
  }

  /** Some line of a pick decides it: it was paid out, or lost. */
  predicate Decides(rows: seq<Entry>) {
    exists k :: 0 <= k < |rows| && (rows[k].kind.Payout? || rows[k].kind.Loss?)
  }

  lemma {:induction false} DecidedByItsLines(ledger: seq<Entry>, pid: PickId)
    ensures Decided(ledger, pid) <==> Decides(Settlements(ledger, pid))
  {
    if ledger != [] {
      var n := |ledger| - 1;
      var before := Settlements(ledger[..n], pid);
      DecidedByItsLines(ledger[..n], pid);
      if Decided(ledger, pid) {
        var i :| 0 <= i < |ledger| && ledger[i].ref == pid && (ledger[i].kind.Payout? || ledger[i].kind.Loss?);
        if i == n {
          assert Settlements(ledger, pid)[|before|] == ledger[n];
        } else {
          assert ledger[..n][i] == ledger[i];
        }
      }
      if Decided(ledger[..n], pid) {
        var i :| 0 <= i < n && ledger[..n][i].ref == pid && (ledger[..n][i].kind.Payout? || ledger[..n][i].kind.Loss?);
        assert ledger[i] == ledger[..n][i];
        var k :| 0 <= k < |before| && (before[k].kind.Payout? || before[k].kind.Loss?);
        assert Settlements(ledger, pid)[k] == before[k];
      }
    }
  }

  /** How a request to settle such a pick is refused: a void does not undo a payout or a loss, two lines are never
      taken for one, and a line of another outcome is not overwritten. */
  lemma SettlingAgainAnswers(db: Db, pid: PickId, target: Status, closing: Option<int>, now: int, at: int)
    requires pid in db.picks && db.picks[pid].status.Pending? && target.Terminal() && Settlements(db.ledger, pid) != []
    requires db.picks[pid].owner.Some? ==> db.picks[pid].owner.value == DEFAULT_USER && DriftGate(db, DEFAULT_USER).None?
    requires closing.Some? ==> closing.value > 0
    ensures
      var rows, answer := Settlements(db.ledger, pid), Settle(db, pid, target, closing, now, at);
      && (target.Void? && Decides(rows) ==> answer == Err(SettlementAlreadyDecided))
      && (!(target.Void? && Decides(rows)) && |rows| > 1 ==> answer == Err(SettlementAmbiguous))
      && (!(target.Void? && Decides(rows)) && |rows| == 1 && Some(rows[0].kind) != KindFor(target) ==>
            answer == Err(SettlementTypeMismatch))
  {
    hide Validate, Clv, DriftGate, Decided, Settlements, LineTaken, KeyTaken, MoneySettled, SettlementFor, Flush, Resolved, Decides;
    DecidedByItsLines(db.ledger, pid);
  }

  lemma CompleteKeepsParlays(db: Db, pid: PickId, q: Pick, prior: Pick, target: Status, now: int, at: int)
    requires target.Terminal() && Complete(db, pid, q, prior, target, now, at).Ok?
    ensures Complete(db, pid, q, prior, target, now, at).value.parlays == db.parlays
  {
    hide SettleWrite, DriftGate, Settlements, LineTaken, KeyTaken;
  }

  lemma SettlingPaysOnce(db: Db, pid: PickId, target: Status, closing: Option<int>, now: int, at: int)
    requires AtMostOnce(db) && Settle(db, pid, target, closing, now, at).Ok?
    ensures AtMostOnce(Settle(db, pid, target, closing, now, at).value)
  {
    hide Settle, Settlements;
    SettleWritesLine(db, pid, target, closing, now, at);
    var next := Settle(db, pid, target, closing, now, at).value;
    if next.ledger != db.ledger {
      Appended(db.ledger, next.ledger[|db.ledger|]);
    }
  }

  lemma CreatingPaysNobody(db: Db, r: NewPick, at: int)
    requires AtMostOnce(db) && CreatePick(db, r, at).Ok?
    ensures AtMostOnce(CreatePick(db, r, at).value)
  {
    hide Settlements;
    CreationLocks(db, r, at);
    var next := CreatePick(db, r, at).value;
    hide CreatePick;
    if next.ledger != db.ledger {
      Appended(db.ledger, next.ledger[|db.ledger|]);
    }
  }

  lemma CreationLocks(db: Db, r: NewPick, at: int)
    requires CreatePick(db, r, at).Ok?
    ensures
      var next := CreatePick(db, r, at).value;
      next.ledger == db.ledger
      || (|next.ledger| == |db.ledger| + 1 && next.ledger == db.ledger + [next.ledger[|db.ledger|]] && next.ledger[|db.ledger|].kind.StakeLock?)
  {
    hide LineTaken, KeyTaken, AmericanToDecimal, Validate;
  }

  lemma RequestPaysOnce(db: Db, r: Request)
    requires AtMostOnce(db)
    ensures AtMostOnce(After(db, r))
  {
    if Execute(db, r).Ok? {
      hide Settle, CreatePick, FixUserBalance, CreateParlay, Edited, AutoResolve, Validate, Settlements;
      match r.op
      case Create(request) => CreatingPaysNobody(db, request, r.at);
      case Resolve(pid, target, closing) => SettlingPaysOnce(db, pid, target, closing, r.now, r.at);
      case Delete(pid) => SettlingPaysOnce(db, pid, Status.Void, None, r.now, r.at);
      case Confirm(pid, confirmed) => if !confirmed { SettlingPaysOnce(db, pid, Status.Void, None, r.now, r.at); }
      case Update(pid, changes) =>
      case Repair(u) => RepairWrites(db, u);
      case AddParlay(q, legs, stake) => ParlayKeepsLedger(db, q, legs, stake);
    }
  }

  lemma ParlayKeepsLedger(db: Db, q: ParlayId, legs: seq<PickId>, stake: int)
    requires CreateParlay(db, q, legs, stake).Ok?
    ensures CreateParlay(db, q, legs, stake).value.ledger == db.ledger && CreateParlay(db, q, legs, stake).value.outbox == db.outbox
  {
    hide OddsProduct, Pow10k, HalfEven;
  }

  /** From any state in which no pick has two settlement lines, sound or not, no run of requests ever writes a second
      one, whatever the stamps of its transactions. */
  lemma {:induction false} NeverPaidTwice(db: Db, rs: seq<Request>)
    requires AtMostOnce(db)
    ensures AtMostOnce(Run(db, rs))
  {
    if rs != [] {
      NeverPaidTwice(db, rs[..|rs| - 1]);
      hide After, AtMostOnce;
      RequestPaysOnce(Run(db, rs[..|rs| - 1]), rs[|rs| - 1]);
    }
  }

  // ---- The two unique indexes ----

  /** Both announce the creation of one pick, or its settlement to one status. */
  predicate SameNews(e: Event, f: Event) {
    e.pick == f.pick && ((e.PickCreated? && f.PickCreated?) || (e.PickSettled? && f.PickSettled? && e.status == f.status))
  }

  /** No two lines share a pick and a kind, and no two events say the same. */
  ghost predicate Unique(ledger: seq<Entry>, outbox: seq<Event>) {
    && (forall i, j :: 0 <= i < j < |ledger| && ledger[i].ref == ledger[j].ref ==> ledger[i].kind != ledger[j].kind)
    && (forall i, j :: 0 <= i < j < |outbox| ==> !SameNews(outbox[i], outbox[j]))
  }

  lemma SameNewsSameKey(e: Event, f: Event)
    ensures SameNews(e, f) <==> KeyOf(e) == KeyOf(f)
  {
  }

  /** At most one line and at most one event more, neither under a taken key. */
  ghost predicate Extends(before: Db, after: Db) {
    && (after.ledger == before.ledger
        || (&& after.ledger != [] && after.ledger == before.ledger + [after.ledger[|after.ledger| - 1]]
            && !LineTaken(before.ledger, after.ledger[|after.ledger| - 1].ref, after.ledger[|after.ledger| - 1].kind)))
    && (after.outbox == before.outbox
        || (&& after.outbox != [] && after.outbox == before.outbox + [after.outbox[|after.outbox| - 1]]
            && !KeyTaken(before.outbox, KeyOf(after.outbox[|after.outbox| - 1]))))
  }

  lemma ExtensionIsUnique(before: Db, after: Db)
    requires Unique(before.ledger, before.outbox) && Extends(before, after)
    ensures Unique(after.ledger, after.outbox)
  {
    var n, m := |before.ledger|, |before.outbox|;
    forall i, j | 0 <= i < j < |after.ledger| && after.ledger[i].ref == after.ledger[j].ref
      ensures after.ledger[i].kind != after.ledger[j].kind
    {
      assert before.ledger[i] == after.ledger[i];
    }
    forall i, j | 0 <= i < j < |after.outbox| ensures !SameNews(after.outbox[i], after.outbox[j]) {
      assert before.outbox[i] == after.outbox[i];
      SameNewsSameKey(after.outbox[i], after.outbox[j]);
    }
  }

  lemma SettlingExtends(db: Db, pid: PickId, target: Status, closing: Option<int>, now: int, at: int)
    requires Settle(db, pid, target, closing, now, at).Ok?
    ensures Extends(db, Settle(db, pid, target, closing, now, at).value)
  {
    hide Complete, Settlements, Decided, Clv, LineTaken, KeyTaken, WithClosing;
    var next := Settle(db, pid, target, closing, now, at).value;
    SettleJudges(db, pid, target, closing, now, at);
    if next != db {
      var p := db.picks[pid];
      CompleteWritesLine(db, pid, WithClosing(p, closing), p, target, now, at);
      if next.ledger != db.ledger {
        var line := next.ledger[|db.ledger|];
        assert next.ledger[|next.ledger| - 1] == line;
        if LineTaken(db.ledger, pid, line.kind) {
          LineTakenIsHeld(db.ledger, pid, line.kind);
        }
      }
    }
  }

  lemma CreationExtends(db: Db, r: NewPick, at: int)
    requires CreatePick(db, r, at).Ok?
    ensures Extends(db, CreatePick(db, r, at).value)
  {
    hide LineTaken, KeyTaken, AmericanToDecimal, Validate;
  }

  lemma RequestExtends(db: Db, r: Request)
    ensures Extends(db, After(db, r))
  {
    if Execute(db, r).Ok? {
      hide Settle, CreatePick, FixUserBalance, CreateParlay, Edited, AutoResolve, Validate, LineTaken, KeyTaken;
      match r.op
      case Create(request) => CreationExtends(db, request, r.at);
      case Resolve(pid, target, closing) => SettlingExtends(db, pid, target, closing, r.now, r.at);
      case Delete(pid) => SettlingExtends(db, pid, Status.Void, None, r.now, r.at);
      case Confirm(pid, confirmed) => if !confirmed { SettlingExtends(db, pid, Status.Void, None, r.now, r.at); }
      case Update(pid, changes) =>
      case Repair(u) => RepairWrites(db, u);
      case AddParlay(q, legs, stake) => ParlayKeepsLedger(db, q, legs, stake);
    }
  }

  /** Both unique indexes hold over every run that starts with them, from any state and with any stamps: no stake is
      locked twice, and no event is announced twice. */
  lemma {:induction false} IndexesHold(db: Db, rs: seq<Request>)
    requires Unique(db.ledger, db.outbox)
    ensures Unique(Run(db, rs).ledger, Run(db, rs).outbox)
  {
    if rs != [] {
      var before := Run(db, rs[..|rs| - 1]);
      IndexesHold(db, rs[..|rs| - 1]);
      hide After, Unique, Extends;
      RequestExtends(before, rs[|rs| - 1]);
      ExtensionIsUnique(before, After(before, rs[|rs| - 1]));
    }
  }
}
