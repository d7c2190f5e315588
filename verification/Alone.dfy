/** A worker that nobody disturbs: its statements, run one after the other, do exactly what the service
    does in one step. */
module Alone {
  import opened Domain
  import opened Tables
  import opened Reconciliation
  import opened Engine
  import opened Concurrency

  /** Nobody else holds what worker i asks for. */
  ghost predicate Quiet(plan: seq<Task>, s: System, i: nat) {
    && |s.phases| == |plan| && i < |plan|
    && (forall j, u :: 0 <= j < |plan| && j != i ==> !HoldsBalance(plan[j], s.phases[j], u))
    && (plan[i].job.SettleJob? ==> forall j :: 0 <= j < |plan| && j != i ==> !HoldsPick(plan[j], s.phases[j], plan[i].job.pid))
  }

  function Solo(i: nat, n: nat): (cs: seq<Choice>)
    ensures |cs| == n
  {
    seq(n, _ => Go(i))
  }

  /** Worker i at a phase. */
  function At(s: System, i: nat, ph: Phase): System
    requires i < |s.phases|
  {
    s.(phases := s.phases[i := ph])
  }

  /** The system once worker i has finished, with new tables or rejected. */
  function Done(s: System, i: nat, r: Option<Db>): System
    requires i < |s.phases|
  {
    match r
    case None => At(s, i, Rejected)
    case Some(db) => System(db, s.phases[i := Committed], s.log + [i])
  }

  lemma {:induction false} InterleaveSplits(plan: seq<Task>, s: System, a: seq<Choice>, b: seq<Choice>)
    requires |plan| == |s.phases|
    ensures Interleave(plan, s, a + b) == Interleave(plan, Interleave(plan, s, a), b)
  {
    if b == [] {
      assert a + b == a;
    } else {
      var n := |b| - 1;
      assert (a + b)[..|a| + n] == a + b[..n] && (a + b)[|a| + n] == b[n];
      InterleaveSplits(plan, s, a, b[..n]);
    }
  }

  /** From this phase, `n` statements finish the job. */
  ghost predicate Ends(plan: seq<Task>, s: System, i: nat, ph: Phase, n: nat, r: Option<Db>)
    requires i < |plan| == |s.phases|
  {
    Interleave(plan, At(s, i, ph), Solo(i, n)) == Done(s, i, r)
  }

  lemma OneMoreStep(plan: seq<Task>, s: System, i: nat, n: nat)
    requires |plan| == |s.phases|
    ensures Interleave(plan, s, Solo(i, n + 1)) == Interleave(plan, Step(plan, s, Go(i)), Solo(i, n))
  {
    assert Solo(i, n + 1) == Solo(i, 1) + Solo(i, n);
    InterleaveSplits(plan, s, Solo(i, 1), Solo(i, n));
    assert Solo(i, 1)[..0] == [];
    hide Step;
  }

  lemma {:induction false} FinishedStays(plan: seq<Task>, s: System, i: nat, n: nat)
    requires i < |plan| == |s.phases| && s.phases[i].Finished()
    ensures Interleave(plan, s, Solo(i, n)) == s
  {
    if n > 0 {
      FinishedStays(plan, s, i, n - 1);
      OneMoreStep(plan, s, i, n - 1);
    }
  }

  lemma EndsRejected(plan: seq<Task>, s: System, i: nat, n: nat)
    requires i < |plan| == |s.phases|
    ensures Ends(plan, s, i, Rejected, n, None)
  {
    FinishedStays(plan, At(s, i, Rejected), i, n);
  }

  lemma EndsNext(plan: seq<Task>, s: System, i: nat, ph: Phase, next: Phase, n: nat, r: Option<Db>)
    requires i < |plan| == |s.phases| && !ph.Finished()
    requires Next(plan, At(s, i, ph), i) == Become(next) && Ends(plan, s, i, next, n, r)
    ensures Ends(plan, s, i, ph, n + 1, r)
  {
    hide Next;
    OneMoreStep(plan, At(s, i, ph), i, n);
    assert Step(plan, At(s, i, ph), Go(i)) == At(s, i, next);
    hide Interleave, Step;
  }

  lemma EndsNextTwo(plan: seq<Task>, s: System, i: nat, a: Phase, b: Phase, c: Phase, n: nat, r: Option<Db>)
    requires i < |plan| == |s.phases| && !a.Finished() && !b.Finished()
    requires Next(plan, At(s, i, a), i) == Become(b) && Next(plan, At(s, i, b), i) == Become(c) && Ends(plan, s, i, c, n, r)
    ensures Ends(plan, s, i, a, n + 2, r)
  {
    hide Next, Ends;
    EndsNext(plan, s, i, b, c, n, r);
    EndsNext(plan, s, i, a, b, n + 1, r);
  }

  lemma EndsCommit(plan: seq<Task>, s: System, i: nat, ph: Phase, n: nat, db: Db)
    requires i < |plan| == |s.phases| && !ph.Finished() && Next(plan, At(s, i, ph), i) == Commit(db)
    ensures Ends(plan, s, i, ph, n + 1, Some(db))
  {
    hide Next;
    OneMoreStep(plan, At(s, i, ph), i, n);
    var t := Step(plan, At(s, i, ph), Go(i));
    assert t == Done(s, i, Some(db));
    FinishedStays(plan, t, i, n);
  }

  lemma AllFree(plan: seq<Task>, s: System, i: nat, ph: Phase)
    requires Quiet(plan, s, i)
    ensures plan[i].job.SettleJob? ==> PickFree(plan, At(s, i, ph), i, plan[i].job.pid)
    ensures forall u :: BalanceFree(plan, At(s, i, ph), i, u)
  {
  }

  // ---- Settlement ----

  /** From the moment the settlement has its verdict to go on. */
  lemma RecordsAlone(plan: seq<Task>, s: System, i: nat, ph: Phase, p: Pick, wallet: Option<Wallet>, n: nat)
    requires Quiet(plan, s, i) && plan[i].job.SettleJob? && !ph.Finished()
    requires plan[i].job.target.Terminal() && (plan[i].job.closing.Some? ==> plan[i].job.closing.value > 0)
    requires Next(plan, At(s, i, ph), i) == Become(Recorded(s.db, plan[i], p, wallet))
    ensures
      var w := Recorded(s.db, plan[i], p, wallet);
      Ends(plan, s, i, ph, n + 2, if w.Written? then Some(Publish(s.db, w.write)) else None)
  {
    var w := Recorded(s.db, plan[i], p, wallet);
    hide SettleWrite, Ends, Publish, Settlements, LineTaken, KeyTaken, WithClosing;
    if w.Written? {
      assert Next(plan, At(s, i, w), i) == Commit(Publish(s.db, w.write));
      EndsCommit(plan, s, i, w, n, Publish(s.db, w.write));
      EndsNext(plan, s, i, ph, w, n + 1, Some(Publish(s.db, w.write)));
    } else {
      EndsRejected(plan, s, i, n + 1);
      EndsNext(plan, s, i, ph, Rejected, n + 1, None);
    }
  }

  /** The balance lock of a settlement that moves money. */
  lemma LocksAlone(plan: seq<Task>, s: System, i: nat, p: Pick)
    requires Quiet(plan, s, i) && plan[i].job.SettleJob? && Owner(p) in s.db.wallets
    requires plan[i].job.target.Terminal() && (plan[i].job.closing.Some? ==> plan[i].job.closing.value > 0)
    ensures
      var w := Recorded(s.db, plan[i], p, Some(s.db.wallets[Owner(p)]));
      Ends(plan, s, i, AwaitBalance(Some(p)), 3, if w.Written? then Some(Publish(s.db, w.write)) else None)
  {
    var wallet := s.db.wallets[Owner(p)];
    var c, d := AwaitBalance(Some(p)), BalanceHeld(Some(p), wallet);
    var w := Recorded(s.db, plan[i], p, Some(wallet));
    AllFree(plan, s, i, c);
    hide Recorded, Ends, Publish, Escrow, Latest, ReportOn, BalanceFree, PickFree;
    assert Next(plan, At(s, i, d), i) == Become(w);
    RecordsAlone(plan, s, i, d, p, Some(wallet), 0);
    assert Next(plan, At(s, i, c), i) == Become(d);
    EndsNext(plan, s, i, c, d, 2, if w.Written? then Some(Publish(s.db, w.write)) else None);
  }

  /** The gate's three unlocked reads. */
  lemma GateAlone(plan: seq<Task>, s: System, i: nat, p: Pick)
    requires Quiet(plan, s, i) && plan[i].job.SettleJob? && Owner(p) in s.db.wallets
    ensures
      var wallet, escrow := s.db.wallets[Owner(p)], Escrow(s.db.picks, Owner(p));
      && Next(plan, At(s, i, GateWallet(Some(p), wallet)), i) == Become(GateEscrow(Some(p), wallet, escrow))
      && Next(plan, At(s, i, GateEscrow(Some(p), wallet, escrow)), i)
         == Become(if DriftGate(s.db, Owner(p)).None? then AwaitBalance(Some(p)) else Rejected)
  {
    hide Recorded, Escrow, Latest, ReportOn, BalanceFree, PickFree, Judge;
  }

  /** Its drift gate, and then the lock. */
  lemma MovesAlone(plan: seq<Task>, s: System, i: nat, p: Pick)
    requires Quiet(plan, s, i) && plan[i].job.SettleJob? && Owner(p) in s.db.wallets
    requires plan[i].job.target.Terminal() && (plan[i].job.closing.Some? ==> plan[i].job.closing.value > 0)
    ensures
      var u := Owner(p);
      var w := Recorded(s.db, plan[i], p, Some(s.db.wallets[u]));
      Ends(plan, s, i, GateWallet(Some(p), s.db.wallets[u]), 5,
           if DriftGate(s.db, u).None? && w.Written? then Some(Publish(s.db, w.write)) else None)
  {
    assert i < |plan| == |s.phases|;
    hide *;
    var u := Owner(p);
    var wallet, escrow := s.db.wallets[u], Escrow(s.db.picks, u);
    var a, b := GateWallet(Some(p), wallet), GateEscrow(Some(p), wallet, escrow);
    GateAlone(plan, s, i, p);
    if DriftGate(s.db, u).None? {
      var w := Recorded(s.db, plan[i], p, Some(wallet));
      LocksAlone(plan, s, i, p);
      EndsNextTwo(plan, s, i, a, b, AwaitBalance(Some(p)), 3, if w.Written? then Some(Publish(s.db, w.write)) else None);
    } else {
      EndsRejected(plan, s, i, 3);
      EndsNextTwo(plan, s, i, a, b, Rejected, 3, None);
    }
  }

  function Served(r: Result<Db>): Option<Db> {
    if r.Ok? then Some(r.value) else None
  }

  lemma JudgeTerminal(p: Pick, target: Status, decided: bool, closing: Option<int>)
    requires Judge(p, target, decided, closing).Proceed?
    ensures target.Terminal() && (closing.Some? ==> closing.value > 0)
    ensures Judge(p, target, decided, closing).pick == WithClosing(p, closing)
    ensures Financial(WithClosing(p, closing)) == Financial(p) && WithClosing(p, closing).owner == p.owner
  {
  }

  /** The six statements that bring a settlement of an owned stake to its commit. */
  lemma WritesAlone(plan: seq<Task>, s: System, i: nat, p: Pick, w: Write)
    requires Quiet(plan, s, i) && plan[i].job.SettleJob? && plan[i].job.pid in s.db.picks && p == s.db.picks[plan[i].job.pid]
    requires Judge(p, plan[i].job.target, Decided(s.db.ledger, plan[i].job.pid), plan[i].job.closing).Proceed?
    requires Financial(p) && Owner(p) in s.db.wallets && DriftGate(s.db, Owner(p)).None?
    requires plan[i].job.target.Terminal() && (plan[i].job.closing.Some? ==> plan[i].job.closing.value > 0)
    requires Recorded(s.db, plan[i], p, Some(s.db.wallets[Owner(p)])) == Phase.Written(w)
    ensures
      var wallet, escrow := s.db.wallets[Owner(p)], Escrow(s.db.picks, Owner(p));
      && Next(plan, At(s, i, Start), i) == Become(PickHeld(p))
      && Next(plan, At(s, i, PickHeld(p)), i) == Become(GateWallet(Some(p), wallet))
      && Next(plan, At(s, i, GateWallet(Some(p), wallet)), i) == Become(GateEscrow(Some(p), wallet, escrow))
      && Next(plan, At(s, i, GateEscrow(Some(p), wallet, escrow)), i) == Become(AwaitBalance(Some(p)))
      && Next(plan, At(s, i, AwaitBalance(Some(p))), i) == Become(BalanceHeld(Some(p), wallet))
      && Next(plan, At(s, i, BalanceHeld(Some(p), wallet)), i) == Become(Phase.Written(w))
  {
    AllFree(plan, s, i, Start);
    GateAlone(plan, s, i, p);
    hide Recorded, Escrow, Latest, ReportOn, BalanceFree, PickFree, Judge, Decided, DriftGate, Quiet;
  }

  lemma CompletesAlone(plan: seq<Task>, s: System, i: nat, p: Pick)
    requires Quiet(plan, s, i) && plan[i].job.SettleJob? && plan[i].job.pid in s.db.picks && p == s.db.picks[plan[i].job.pid]
    requires Judge(p, plan[i].job.target, Decided(s.db.ledger, plan[i].job.pid), plan[i].job.closing).Proceed?
    ensures
      var t := plan[i];
      Ends(plan, s, i, PickHeld(p), 6,
           Served(Complete(s.db, t.job.pid, WithClosing(p, t.job.closing), p, t.job.target, t.job.now, t.at)))
  {
    var t := plan[i];
    JudgeTerminal(p, t.job.target, Decided(s.db.ledger, t.job.pid), t.job.closing);
    AllFree(plan, s, i, PickHeld(p));
    hide SettleWrite, Ends, Publish, Settlements, LineTaken, KeyTaken, WithClosing, Decided, Escrow, Latest, ReportOn, Judge;
    if !Financial(p) {
      assert Next(plan, At(s, i, PickHeld(p)), i) == Become(Recorded(s.db, t, p, None));
      RecordsAlone(plan, s, i, PickHeld(p), p, None, 4);
    } else if Owner(p) in s.db.wallets {
      var next := GateWallet(Some(p), s.db.wallets[Owner(p)]);
      assert Next(plan, At(s, i, PickHeld(p)), i) == Become(next);
      MovesAlone(plan, s, i, p);
      var w := Recorded(s.db, t, p, Some(s.db.wallets[Owner(p)]));
      EndsNext(plan, s, i, PickHeld(p), next, 5,
               if DriftGate(s.db, Owner(p)).None? && w.Written? then Some(Publish(s.db, w.write)) else None);
    } else {
      assert Next(plan, At(s, i, PickHeld(p)), i) == Become(Rejected);
      EndsRejected(plan, s, i, 5);
      EndsNext(plan, s, i, PickHeld(p), Rejected, 5, None);
    }
  }

  lemma SettlesAlone(plan: seq<Task>, s: System, i: nat)
    requires Quiet(plan, s, i) && plan[i].job.SettleJob?
    ensures Ends(plan, s, i, Start, 7, Served(Serve(s.db, plan[i].job, plan[i].at)))
  {
    var t := plan[i];
    AllFree(plan, s, i, Start);
    hide Complete, Ends, Decided, Recorded;
    if t.job.pid !in s.db.picks {
      EndsRejected(plan, s, i, 6);
      EndsNext(plan, s, i, Start, Rejected, 6, None);
    } else {
      var p := s.db.picks[t.job.pid];
      var held := PickHeld(p);
      var verdict := Judge(p, t.job.target, Decided(s.db.ledger, t.job.pid), t.job.closing);
      assert Next(plan, At(s, i, Start), i) == Become(held);
      match verdict
      case NoOp =>
        EndsCommit(plan, s, i, held, 5, s.db);
        EndsNext(plan, s, i, Start, held, 6, Some(s.db));
      case Refuse(_) =>
        EndsRejected(plan, s, i, 5);
        EndsNext(plan, s, i, held, Rejected, 5, None);
        EndsNext(plan, s, i, Start, held, 6, None);
      case Proceed(q) =>
        JudgeTerminal(p, t.job.target, Decided(s.db.ledger, t.job.pid), t.job.closing);
        CompletesAlone(plan, s, i, p);
        hide Next, Judge;
        EndsNext(plan, s, i, Start, held, 6, Served(Complete(s.db, t.job.pid, q, p, t.job.target, t.job.now, t.at)));
    }
  }

  // ---- Creation ----

  lemma InsertsAlone(plan: seq<Task>, s: System, i: nat, ph: Phase, w: Wallet, n: nat)
    requires Quiet(plan, s, i) && plan[i].job.CreateJob? && !ph.Finished()
    requires Next(plan, At(s, i, ph), i) == Become(Inserted(s.db, plan[i].job.request, w, plan[i].at))
    ensures
      var next := Inserted(s.db, plan[i].job.request, w, plan[i].at);
      Ends(plan, s, i, ph, n + 2, if next.Written? then Some(Publish(s.db, next.write)) else None)
  {
    var next := Inserted(s.db, plan[i].job.request, w, plan[i].at);
    hide CreateWrite, Ends, Publish, LineTaken, KeyTaken;
    if next.Written? {
      assert Next(plan, At(s, i, next), i) == Commit(Publish(s.db, next.write));
      EndsCommit(plan, s, i, next, n, Publish(s.db, next.write));
      EndsNext(plan, s, i, ph, next, n + 1, Some(Publish(s.db, next.write)));
    } else {
      EndsRejected(plan, s, i, n + 1);
      EndsNext(plan, s, i, ph, Rejected, n + 1, None);
    }
  }

  lemma InadmissibleFails(db: Db, r: NewPick, at: int)
    requires !Admissible(r)
    ensures CreatePick(db, r, at).Err?
  {
    hide LineTaken, KeyTaken, Validate;
  }

  lemma CreateIsInserted(db: Db, r: NewPick, w: Wallet, at: int)
    requires Staked(r) && r.user.Some? ==> w == WalletOf(db, r.user.value)
    ensures
      var next := Inserted(db, r, w, at);
      Served(CreatePick(db, r, at)) == if next.Written? then Some(Publish(db, next.write)) else None
  {
    hide LineTaken, KeyTaken, Validate, Publish;
  }

  lemma CreatesAlone(plan: seq<Task>, s: System, i: nat)
    requires Quiet(plan, s, i) && plan[i].job.CreateJob?
    ensures Ends(plan, s, i, Start, 7, Served(Serve(s.db, plan[i].job, plan[i].at)))
  {
    var t, r := plan[i], plan[i].job.request;
    AllFree(plan, s, i, Start);
    hide Ends, Inserted, CreatePick, Validate, Publish;
    if !Admissible(r) {
      InadmissibleFails(s.db, r, t.at);
      EndsRejected(plan, s, i, 6);
      EndsNext(plan, s, i, Start, Rejected, 6, None);
    } else if !Staked(r) {
      CreateIsInserted(s.db, r, Wallet(0, 0), t.at);
      InsertsAlone(plan, s, i, Start, Wallet(0, 0), 5);
    } else {
      var w := WalletOf(s.db, r.user.value);
      var held := BalanceHeld(None, w);
      CreateIsInserted(s.db, r, w, t.at);
      assert Next(plan, At(s, i, Start), i) == Become(held);
      InsertsAlone(plan, s, i, held, w, 4);
      EndsNext(plan, s, i, Start, held, 6, Served(CreatePick(s.db, r, t.at)));
    }
  }

  // ---- Repair ----

  lemma RepairsAlone(plan: seq<Task>, s: System, i: nat)
    requires Quiet(plan, s, i) && plan[i].job.RepairJob?
    ensures Ends(plan, s, i, Start, 7, Served(Serve(s.db, plan[i].job, plan[i].at)))
  {
    var u := plan[i].job.user;
    if u !in s.db.wallets {
      hide Ends;
      EndsRejected(plan, s, i, 6);
      EndsNext(plan, s, i, Start, Rejected, 6, None);
    } else {
      var w, escrow, latest := s.db.wallets[u], Escrow(s.db.picks, u), Latest(s.db.ledger, u);
      var r := Served(FixUserBalance(s.db, u));
      hide Ends, Escrow, Latest;
      ChecksAlone(plan, s, i, r);
      assert Next(plan, At(s, i, Start), i) == Become(GateWallet(None, w));
      EndsNext(plan, s, i, Start, GateWallet(None, w), 6, r);
    }
  }

  lemma ChecksAlone(plan: seq<Task>, s: System, i: nat, r: Option<Db>)
    requires Quiet(plan, s, i) && plan[i].job.RepairJob? && plan[i].job.user in s.db.wallets
    requires r == Served(FixUserBalance(s.db, plan[i].job.user))
    ensures Ends(plan, s, i, GateWallet(None, s.db.wallets[plan[i].job.user]), 6, r)
  {
    var u := plan[i].job.user;
    var w, escrow, latest := s.db.wallets[u], Escrow(s.db.picks, u), Latest(s.db.ledger, u);
    var a, b := GateWallet(None, w), GateEscrow(None, w, escrow);
    hide Ends, Escrow, Latest, RepairedWallet;
    assert Next(plan, At(s, i, a), i) == Become(b);
    if DriftType(ReportOn(u, w, escrow, latest)).LedgerBad() {
      assert Next(plan, At(s, i, b), i) == Become(Rejected);
      EndsRejected(plan, s, i, 4);
      EndsNext(plan, s, i, b, Rejected, 4, None);
    } else {
      assert Next(plan, At(s, i, b), i) == Become(AwaitBalance(None));
      RewritesAlone(plan, s, i);
      EndsNext(plan, s, i, b, AwaitBalance(None), 4, r);
    }
    EndsNext(plan, s, i, a, b, 5, r);
  }

  /** The repair's reads under the balance lock, and its write. */
  lemma RewriteNext(plan: seq<Task>, s: System, i: nat)
    requires Quiet(plan, s, i) && plan[i].job.RepairJob? && plan[i].job.user in s.db.wallets
    ensures
      var u := plan[i].job.user;
      var w, escrow := s.db.wallets[u], Escrow(s.db.picks, u);
      var fixed := RepairedWallet(w, escrow, Latest(s.db.ledger, u));
      && Next(plan, At(s, i, AwaitBalance(None)), i) == Become(BalanceHeld(None, w))
      && Next(plan, At(s, i, BalanceHeld(None, w)), i) == Become(EscrowHeld(w, escrow))
      && Next(plan, At(s, i, EscrowHeld(w, escrow)), i) == Become(if fixed.Ok? then Rebalancing(fixed.value) else Rejected)
      && (fixed.Ok? ==>
            Next(plan, At(s, i, Rebalancing(fixed.value)), i) == Commit(s.db.(wallets := s.db.wallets[u := fixed.value])))
  {
    AllFree(plan, s, i, AwaitBalance(None));
    hide Escrow, Latest, RepairedWallet, BalanceFree, PickFree, ReportOn;
  }

  lemma RewritesAlone(plan: seq<Task>, s: System, i: nat)
    requires Quiet(plan, s, i) && plan[i].job.RepairJob? && plan[i].job.user in s.db.wallets
    ensures
      var u := plan[i].job.user;
      var fixed := RepairedWallet(s.db.wallets[u], Escrow(s.db.picks, u), Latest(s.db.ledger, u));
      Ends(plan, s, i, AwaitBalance(None), 4, if fixed.Ok? then Some(s.db.(wallets := s.db.wallets[u := fixed.value])) else None)
  {
    var u := plan[i].job.user;
    var w, escrow := s.db.wallets[u], Escrow(s.db.picks, u);
    var fixed := RepairedWallet(w, escrow, Latest(s.db.ledger, u));
    var r := if fixed.Ok? then Some(s.db.(wallets := s.db.wallets[u := fixed.value])) else None;
    hide *;
    RewriteNext(plan, s, i);
    if fixed.Ok? {
      EndsCommit(plan, s, i, Rebalancing(fixed.value), 0, r.value);
      EndsNext(plan, s, i, EscrowHeld(w, escrow), Rebalancing(fixed.value), 1, r);
    } else {
      EndsRejected(plan, s, i, 1);
      EndsNext(plan, s, i, EscrowHeld(w, escrow), Rejected, 1, r);
    }
    EndsNextTwo(plan, s, i, AwaitBalance(None), BalanceHeld(None, w), EscrowHeld(w, escrow), 2, r);
  }

  /** A worker scheduled alone for seven statements finishes, and has done exactly what the service does:
      the same tables when it is accepted, nothing when it is refused. */
  lemma ServesAlone(plan: seq<Task>, s: System, i: nat)
    requires Quiet(plan, s, i) && s.phases[i].Start?
    ensures Interleave(plan, s, Solo(i, 7)) == Done(s, i, Served(Serve(s.db, plan[i].job, plan[i].at)))
  {
    assert At(s, i, Start) == s;
    hide Serve, Interleave;
    match plan[i].job
    case SettleJob(_, _, _, _) => SettlesAlone(plan, s, i);
    case CreateJob(_) => CreatesAlone(plan, s, i);
    case RepairJob(_) => RepairsAlone(plan, s, i);
  }
}
