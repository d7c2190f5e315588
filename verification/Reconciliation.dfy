/** Drift classification and escrow repair (`app/services/reconciliation_service.py`). */
module Reconciliation {
  import opened Money
  import opened Domain
  import opened Tables

  /** 0.01, in cents. */
  const TOLERANCE: int := 1

  datatype Severity = Fine | Warning | Critical

  datatype Drift = NoDrift | EscrowMismatch | LedgerMismatch | FullInconsistent {
    predicate LedgerBad() {
      LedgerMismatch? || FullInconsistent?
    }
  }

  datatype Report = Report(user: UserId, escrowExpected: int, escrowActual: int,
                           ledgerExpected: int, ledgerActual: int,
                           escrowDrift: nat, ledgerDrift: nat, severity: Severity)

  function ClassifySeverity(escrowDrift: int, ledgerDrift: int): Severity {
    if ledgerDrift > TOLERANCE then Critical
    else if escrowDrift > TOLERANCE then Warning
    else Fine
  }

  function DriftType(r: Report): Drift {
    var ledgerBad, escrowBad := r.ledgerDrift > TOLERANCE, r.escrowDrift > TOLERANCE;
    if ledgerBad && escrowBad then FullInconsistent
    else if ledgerBad then LedgerMismatch
    else if escrowBad then EscrowMismatch
    else NoDrift
  }

  /** The report computed from the three values the audit reads. */
  function ReportOn(u: UserId, w: Wallet, escrow: int, latest: Option<Entry>): Report {
    var expected, actual := SnapshotTotal(latest), w.available + w.locked;
    var escrowDrift, ledgerDrift := Abs(escrow - w.locked), Abs(expected - actual);
    Report(u, escrow, w.locked, expected, actual, escrowDrift, ledgerDrift, ClassifySeverity(escrowDrift, ledgerDrift))
  }

  function ReconcileUser(db: Db, u: UserId): Result<Report> {
    if u !in db.wallets then Err(UserBalanceNotFound)
    else Ok(ReportOn(u, db.wallets[u], Escrow(db.picks, u), Latest(db.ledger, u)))
  }

  /** The settlement drift gate: the error it raises, if any. */
  function DriftGate(db: Db, u: UserId): Option<Error> {
    match ReconcileUser(db, u)
    case Err(e) => Some(e)
    case Ok(r) => if r.severity.Critical? then Some(FinancialStateCorrupted) else None
  }

  /** The wallet a repair leaves, from what it reads under the balance lock. */
  function RepairedWallet(w: Wallet, escrow: int, latest: Option<Entry>): Result<Wallet> {
    var total := SnapshotTotal(latest);
    if Abs(total - (w.available + w.locked)) > TOLERANCE then Err(RepairUnsafeState)
    else if escrow < 0 || total - escrow < 0 then Err(RepairInvariantViolation)
    else if Abs(escrow - w.locked) <= TOLERANCE && Abs(total - escrow - w.available) <= TOLERANCE then Ok(w)
    else Ok(Wallet(total - escrow, escrow))
  }

  function FixUserBalance(db: Db, u: UserId): Result<Db> {
    match ReconcileUser(db, u)
    case Err(e) => Err(e)
    case Ok(r) =>
      if DriftType(r).LedgerBad() then Err(RepairUnsafeState)
      else
        match RepairedWallet(db.wallets[u], Escrow(db.picks, u), Latest(db.ledger, u))
        case Err(e) => Err(e)
        case Ok(w) => Ok(db.(wallets := db.wallets[u := w]))
  }

  /** What a report says: pending stakes against locked funds, the last line's total against the wallet's, and
      critical, warning or fine as the second pair, or else the first, or neither is more than a cent apart. */
  lemma ReportSays(db: Db, u: UserId)
    requires u in db.wallets
    ensures ReconcileUser(db, u).Ok?
    ensures
      var r, w := ReconcileUser(db, u).value, db.wallets[u];
      var off, gap := SnapshotTotal(Latest(db.ledger, u)) - (w.available + w.locked), Escrow(db.picks, u) - w.locked;
      && r.user == u && r.escrowExpected - r.escrowActual == gap && r.ledgerExpected - r.ledgerActual == off
      && r.escrowActual == w.locked && r.ledgerActual == w.available + w.locked
      && r.escrowDrift == Abs(gap) && r.ledgerDrift == Abs(off)
      && (r.severity.Critical? <==> Abs(off) > 1)
      && (r.severity.Warning? <==> Abs(off) <= 1 && Abs(gap) > 1)
      && (DriftType(r).LedgerBad() <==> r.severity.Critical?)
      && (DriftType(r).EscrowMismatch? <==> r.severity.Warning?)
      && (DriftType(r).FullInconsistent? <==> r.severity.Critical? && Abs(gap) > 1)
  {
    hide Latest, Escrow, SnapshotTotal;
  }

  // ---- Repair is a projection ----

  lemma RepairedWalletIsProjection(u: UserId, w: Wallet, escrow: int, latest: Option<Entry>)
    requires RepairedWallet(w, escrow, latest).Ok?
    ensures
      var fixed := RepairedWallet(w, escrow, latest).value;
      var r := ReportOn(u, fixed, escrow, latest);
      && r.escrowDrift <= TOLERANCE && r.ledgerDrift <= TOLERANCE
      && DriftType(r) == NoDrift
      && (fixed != w ==> r.escrowDrift == 0 && r.ledgerDrift == 0)
      && (fixed != w ==> fixed.available + fixed.locked == SnapshotTotal(latest))
      && (fixed != w <==>
            || Abs(escrow - w.locked) > TOLERANCE
            || Abs(SnapshotTotal(latest) - escrow - w.available) > TOLERANCE)
      && RepairedWallet(fixed, escrow, latest) == Ok(fixed)
  {
  }

  /** The wallet write of a successful repair. */
  lemma RepairWrites(db: Db, u: UserId)
    requires FixUserBalance(db, u).Ok?
    ensures u in db.wallets && RepairedWallet(db.wallets[u], Escrow(db.picks, u), Latest(db.ledger, u)).Ok?
    ensures FixUserBalance(db, u).value
         == db.(wallets := db.wallets[u := RepairedWallet(db.wallets[u], Escrow(db.picks, u), Latest(db.ledger, u)).value])
  {
  }

  /** A repair that succeeds leaves a wallet without drift; a wallet it rewrote agrees with the
      ledger and with the escrow to the cent; and a second repair succeeds and changes nothing.
      It rewrites exactly when one of the two columns is off by more than the tolerance. */
  lemma RepairIsProjection(db: Db, u: UserId)
    requires FixUserBalance(db, u).Ok?
    ensures u in db.wallets && u in FixUserBalance(db, u).value.wallets
    ensures
      var fixed := FixUserBalance(db, u).value;
      var r := ReconcileUser(fixed, u);
      && r.Ok? && DriftType(r.value) == NoDrift
      && (fixed != db ==> r.value.escrowDrift == 0 && r.value.ledgerDrift == 0)
      && (fixed != db ==>
            fixed.wallets[u].available + fixed.wallets[u].locked == SnapshotTotal(Latest(db.ledger, u)))
      && (fixed != db <==>
            || Abs(Escrow(db.picks, u) - db.wallets[u].locked) > TOLERANCE
            || Abs(SnapshotTotal(Latest(db.ledger, u)) - Escrow(db.picks, u) - db.wallets[u].available) > TOLERANCE)
    ensures FixUserBalance(FixUserBalance(db, u).value, u) == FixUserBalance(db, u)
  {
    RepairWrites(db, u);
    var escrow, latest := Escrow(db.picks, u), Latest(db.ledger, u);
    var w := RepairedWallet(db.wallets[u], escrow, latest).value;
    RepairedWalletIsProjection(u, db.wallets[u], escrow, latest);
    var fixed := db.(wallets := db.wallets[u := w]);
    assert fixed.wallets[u := w] == fixed.wallets;
    assert fixed == db <==> w == db.wallets[u] by {
      if w == db.wallets[u] { assert fixed.wallets == db.wallets; }
    }
    assert ReconcileUser(fixed, u) == Ok(ReportOn(u, w, escrow, latest));
  }

  /** When a repair succeeds: the stored total agrees with the ledger to a cent and the pending
      stakes fit into it. Otherwise the first of the two that fails is the error. */
  lemma RepairSucceedsIff(db: Db, u: UserId)
    requires u in db.wallets
    ensures
      var total, escrow := SnapshotTotal(Latest(db.ledger, u)), Escrow(db.picks, u);
      FixUserBalance(db, u).Ok? <==>
        && Abs(total - (db.wallets[u].available + db.wallets[u].locked)) <= TOLERANCE
        && 0 <= escrow <= total
    ensures FixUserBalance(db, u).Err? ==>
              FixUserBalance(db, u).error
                == if Abs(SnapshotTotal(Latest(db.ledger, u)) - (db.wallets[u].available + db.wallets[u].locked)) > TOLERANCE
                   then RepairUnsafeState else RepairInvariantViolation
  {
    hide Latest, Escrow;
  }

  /** Exactly when a repair that succeeds rewrites a wallet already classed as free of drift: the line it
      reads is a cent off the wallet's total, and the pending stakes are the same cent off the locked
      funds the other way, so that the two add up in the available column. */
  lemma NoDriftRewrittenIff(db: Db, u: UserId)
    requires ReconcileUser(db, u).Ok? && DriftType(ReconcileUser(db, u).value) == NoDrift && FixUserBalance(db, u).Ok?
    ensures
      var w := db.wallets[u];
      var off, gap := SnapshotTotal(Latest(db.ledger, u)) - (w.available + w.locked), Escrow(db.picks, u) - w.locked;
      FixUserBalance(db, u).value != db <==> off != 0 && gap == -off
  {
    RepairIsProjection(db, u);
    hide Latest, Escrow, FixUserBalance;
  }
}
