/** Ledger lines appended out of the order of their stamps, and what the drift gate then does. */
module Stamps {
  import opened Money
  import opened Domain
  import opened Tables
  import opened Reconciliation
  import opened Engine
  import opened Invariants
  import opened Runs
  import opened Concurrency
  import opened Serializability

  /** The line chosen by `created_at` misses exactly the gains of the user's later lines (payouts less
      their stakes, less losses), and the gate opens exactly when these come to at most a cent. */
  lemma GateOpenIff(db: Db, u: UserId, i: nat)
    requires Sound(db) && i < |db.ledger| && db.ledger[i].user == u && Latest(db.ledger, u) == Some(db.ledger[i])
    ensures u in db.wallets
    ensures db.wallets[u].available + db.wallets[u].locked
         == SnapshotTotal(Latest(db.ledger, u)) + Gains(db.picks, db.ledger, i, u)
    ensures DriftGate(db, u).None? <==> Abs(Gains(db.picks, db.ledger, i, u)) <= TOLERANCE
  {
    StaleLineMissesGains(db.picks, db.ledger, i, u);
    assert TailTotals(db) && LinesOk(db);
    hide Tail, Latest, Gains, Escrow, Sound;
  }

  /** In every interleaved state without a misled repair, a line that was overtaken only by locks and
      refunds of its user still opens the gate. */
  lemma OvertakenByLocksIsHarmless(db: Db, plan: seq<Task>, start: int, cs: seq<Choice>, u: UserId, i: nat)
    requires GoodStart(db, start) && FreshIds(plan) && NeverMisled(db, plan, cs)
    requires
      var l := Interleave(plan, Begin(db, plan), cs).db.ledger;
      && i < |l| && l[i].user == u && Latest(l, u) == Some(l[i])
      && forall k :: i < k < |l| && l[k].user == u ==> l[k].kind.StakeLock? || l[k].kind.Refund?
    ensures DriftGate(Interleave(plan, Begin(db, plan), cs).db, u).None?
  {
    InterleavingIsSerial(db, plan, start, cs);
    var last := Interleave(plan, Begin(db, plan), cs).db;
    hide Interleave, GoodStart, FreshIds, NeverMisled, Sound;
    LocksGainNothing(last.picks, last.ledger, i, u);
    GateOpenIff(last, u, i);
  }
}
