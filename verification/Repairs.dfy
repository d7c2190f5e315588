/** Repairs among interleaved workers: which line they read decides whether the schedule is serial. */
module Repairs {
  import opened Money
  import opened Domain
  import opened Tables
  import opened Reconciliation
  import opened Engine
  import opened Invariants
  import opened Runs
  import opened History
  import opened Concurrency
  import opened Serializability

  /** Exactly when a repair that goes through is misled, in the values it reads: the line's total is off the
      wallet's, and then by one cent, and the repair either rewrites the wallet or finds it covered only by
      that cent. A user without a line cannot mislead it. */
  lemma MisledIff(db: Db, u: UserId)
    requires Sound(db) && u in db.wallets && RepairOnLatest(db, u).Ok?
    ensures
      var w, latest := db.wallets[u], Latest(db.ledger, u);
      var off, gap := SnapshotTotal(latest) - (w.available + w.locked), Escrow(db.picks, u) - w.locked;
      && -TOLERANCE <= off <= TOLERANCE
      && (Misled(db, u) <==> latest.Some? && off != 0 && (Abs(gap) > TOLERANCE || Abs(off - gap) > TOLERANCE || w.available < gap))
  {
    hide Sound, Tail, Latest, Escrow, RepairOnLatest, RepairOnTail, Misled;
    TotalsOf(db, u);
    MisledReads(db, u);
    hide RepairedWallet;
    OffByACent(db.wallets[u], Escrow(db.picks, u), Latest(db.ledger, u), Tail(db.ledger, u));
  }

  lemma MisledReads(db: Db, u: UserId)
    requires u in db.wallets
    ensures RepairOnLatest(db, u) == RepairedWallet(db.wallets[u], Escrow(db.picks, u), Latest(db.ledger, u))
    ensures RepairOnTail(db, u) == RepairedWallet(db.wallets[u], Escrow(db.picks, u), Tail(db.ledger, u))
    ensures Misled(db, u) <==> RepairOnLatest(db, u) != RepairOnTail(db, u)
  {
    hide RepairedWallet, Latest, Tail, Escrow;
  }

  lemma TotalsOf(db: Db, u: UserId)
    requires Sound(db) && u in db.wallets
    ensures Latest(db.ledger, u).None? <==> Tail(db.ledger, u).None?
    ensures Tail(db.ledger, u).Some? ==> SnapshotTotal(Tail(db.ledger, u)) == db.wallets[u].available + db.wallets[u].locked
    ensures db.wallets[u].available >= 0 && db.wallets[u].locked >= 0
  {
    NoLineNoTail(db.ledger, u);
    assert TailTotals(db);
    hide Tail, Latest;
  }

  lemma OffByACent(w: Wallet, escrow: int, latest: Option<Entry>, tail: Option<Entry>)
    requires tail.Some? ==> SnapshotTotal(tail) == w.available + w.locked
    requires (latest.None? <==> tail.None?) && RepairedWallet(w, escrow, latest).Ok?
    ensures
      var off, gap := SnapshotTotal(latest) - (w.available + w.locked), escrow - w.locked;
      && -TOLERANCE <= off <= TOLERANCE
      && (RepairedWallet(w, escrow, latest) != RepairedWallet(w, escrow, tail)
          <==> latest.Some? && off != 0 && (Abs(gap) > TOLERANCE || Abs(off - gap) > TOLERANCE || w.available < gap))
  {
    hide SnapshotTotal;
  }

  // ---- When no repair can be misled ----

  /** Plans without repairs. */
  lemma WithoutRepairsNeverMisled(db: Db, plan: seq<Task>, cs: seq<Choice>)
    requires forall i :: 0 <= i < |plan| ==> !plan[i].job.RepairJob?
    ensures NeverMisled(db, plan, cs)
  {
    hide Interleave, Misled;
  }

  /** Repairs that read a line with the total of the user's last line. */
  lemma TrueTotalsNeverMislead(db: Db, plan: seq<Task>, cs: seq<Choice>)
    requires forall k, u :: 0 <= k < |cs| && cs[k].worker < |plan| && plan[cs[k].worker].job == RepairJob(u) ==>
               var l := Interleave(plan, Begin(db, plan), cs[..k]).db.ledger;
               SnapshotTotal(Latest(l, u)) == SnapshotTotal(Tail(l, u))
    ensures NeverMisled(db, plan, cs)
  {
    hide Interleave, Latest, Tail, RepairedWallet;
    forall k | 0 <= k < |cs| ensures !MisledStep(plan, Interleave(plan, Begin(db, plan), cs[..k]), cs[k]) {
      var s, c := Interleave(plan, Begin(db, plan), cs[..k]), cs[k];
      if c.Go? && c.worker < |plan| && plan[c.worker].job.RepairJob? && plan[c.worker].job.user in s.db.wallets {
        var u := plan[c.worker].job.user;
        assert plan[cs[k].worker].job == RepairJob(u);
        RepairReadsTotal(s.db.wallets[u], Escrow(s.db.picks, u), Latest(s.db.ledger, u), Tail(s.db.ledger, u));
      }
    }
  }

  lemma ServeChanges(db: Db, job: Job, at: int, t: int)
    requires Sound(db) && InOrder(db.ledger, t) && t <= at && Serve(db, job, at).Ok?
    ensures exists c :: Legal(db, c, at) && !c.Touched? && Serve(db, job, at).value == Apply(db, c)
  {
    hide Sound, InOrder, Settle, CreatePick, FixUserBalance;
    match job
    case SettleJob(pid, target, closing, now) => SettleChanges(db, pid, target, closing, now, at, t);
    case CreateJob(r) => CreateChanges(db, r, at);
    case RepairJob(u) =>
      RepairChanges(db, u, t);
      var c := Rebalanced(u, FixUserBalance(db, u).value.wallets[u]);
      assert Legal(db, c, at) && Serve(db, job, at).value == Apply(db, c);
  }

  lemma {:induction false} ServeAllKeepsEscrow(db: Db, plan: seq<Task>, log: seq<nat>, start: int)
    requires GoodStart(db, start) && EscrowExact(db)
    ensures var last := ServeAll(db, plan, log, start); GoodStart(last, start + |log|) && EscrowExact(last)
  {
    ServeAllStep(db, plan, log, start);
    hide GoodStart, EscrowExact, Serve, ServeAll;
    if log != [] {
      var n := |log| - 1;
      ServeAllKeepsEscrow(db, plan, log[..n], start);
      var prior, i := ServeAll(db, plan, log[..n], start), log[n];
      LaterStart(prior, start + n, start + |log|);
      if i < |plan| && Serve(prior, plan[i].job, start + |log|).Ok? {
        ServeKeepsEscrow(prior, plan[i].job, start + |log|, start + n);
      }
    }
  }

  lemma ServeAllStep(db: Db, plan: seq<Task>, log: seq<nat>, start: int)
    ensures log == [] ==> ServeAll(db, plan, log, start) == db
    ensures log != [] ==>
      var prior, i := ServeAll(db, plan, log[..|log| - 1], start), log[|log| - 1];
      ServeAll(db, plan, log, start)
      == if i < |plan| && Serve(prior, plan[i].job, start + |log|).Ok? then Serve(prior, plan[i].job, start + |log|).value else prior
  {
    hide Serve;
  }

  lemma LaterStart(db: Db, t: int, at: int)
    requires GoodStart(db, t) && t <= at
    ensures GoodStart(db, at)
  {
    hide Sound;
  }

  lemma ServeKeepsEscrow(db: Db, job: Job, at: int, t: int)
    requires GoodStart(db, t) && EscrowExact(db) && t <= at && Serve(db, job, at).Ok?
    ensures GoodStart(Serve(db, job, at).value, at) && EscrowExact(Serve(db, job, at).value)
  {
    SoundPicks(db);
    hide Sound, EscrowExact, Serve, PicksOk, InOrder;
    ServeChanges(db, job, at, t);
    var c :| Legal(db, c, at) && !c.Touched? && Serve(db, job, at).value == Apply(db, c);
    hide Legal, Apply;
    ChangeKeepsSound(db, c, at);
    ChangeKeepsOrder(db, c, at, t);
    ChangeKeepsEscrow(db, c, at);
  }

  lemma SoundPicks(db: Db)
    requires Sound(db)
    ensures PicksOk(db)
  {
  }

  /** With exact escrow a repair that goes through writes nothing, whatever line it reads. */
  lemma ExactIsNeverMisled(db: Db, u: UserId)
    requires Sound(db) && EscrowExact(db) && u in db.wallets && RepairOnLatest(db, u).Ok?
    ensures !Misled(db, u)
  {
    MisledIff(db, u);
    TotalsOf(db, u);
    hide Sound, Latest, Tail, Escrow, Misled, RepairOnLatest, RepairOnTail;
  }

  lemma {:induction false} NoLineNoTail(a: seq<Entry>, u: UserId)
    ensures Latest(a, u).None? <==> Tail(a, u).None?
  {
    if a != [] {
      NoLineNoTail(a[..|a| - 1], u);
    }
  }

  /** Starts with exact escrow, as every serial run without moved stakes reaches. Escrow stays exact. */
  lemma {:induction false} ExactStartNeverMisleads(db: Db, plan: seq<Task>, start: int, cs: seq<Choice>)
    requires GoodStart(db, start) && EscrowExact(db) && FreshIds(plan)
    ensures NeverMisled(db, plan, cs) && EscrowExact(Interleave(plan, Begin(db, plan), cs).db)
  {
    if cs != [] {
      var n := |cs| - 1;
      var s := Interleave(plan, Begin(db, plan), cs[..n]);
      hide MisledStep, GoodStart, EscrowExact, Interleave, FreshIds, NeverMisled;
      ExactStartNeverMisleads(db, plan, start, cs[..n]);
      InterleaveReaches(db, plan, start, cs[..n]);
      ExactStepNotMisled(db, plan, start, s, cs[n]);
      NeverMisledAfter(db, plan, cs);
    }
    EscrowStaysExact(db, plan, start, cs);
  }

  lemma EscrowStaysExact(db: Db, plan: seq<Task>, start: int, cs: seq<Choice>)
    requires GoodStart(db, start) && EscrowExact(db) && FreshIds(plan) && (cs == [] || NeverMisled(db, plan, cs))
    ensures NeverMisled(db, plan, cs) && EscrowExact(Interleave(plan, Begin(db, plan), cs).db)
  {
    hide Interleave, GoodStart, FreshIds, MisledStep, ServeAll, Sound;
    InterleavingIsSerial(db, plan, start, cs);
    var s := Interleave(plan, Begin(db, plan), cs);
    ServeAllKeepsEscrow(db, plan, s.log, start);
  }

  lemma ExactStepNotMisled(db: Db, plan: seq<Task>, start: int, s: System, c: Choice)
    requires Reaches(db, plan, start, s) && EscrowExact(s.db)
    ensures !MisledStep(plan, s, c)
  {
    ReachesPaired(db, plan, start, s);
    if MisledStep(plan, s, c) {
      var i := c.worker;
      assert Local(s.db, plan[i], s.phases[i]);
      hide Reaches, Misled, EscrowExact, Sound;
      RebalancingReads(s.db, plan[i], s.phases[i].wallet);
      ExactIsNeverMisled(s.db, plan[i].job.user);
    }
  }

  lemma NeverMisledAfter(db: Db, plan: seq<Task>, cs: seq<Choice>)
    requires cs != [] && NeverMisled(db, plan, cs[..|cs| - 1])
    requires !MisledStep(plan, Interleave(plan, Begin(db, plan), cs[..|cs| - 1]), cs[|cs| - 1])
    ensures NeverMisled(db, plan, cs)
  {
    hide Interleave, MisledStep;
    var n := |cs| - 1;
    forall k | 0 <= k < |cs| ensures !MisledStep(plan, Interleave(plan, Begin(db, plan), cs[..k]), cs[k]) {
      if k < n {
        assert cs[..n][..k] == cs[..k] && cs[..n][k] == cs[k];
        assert !MisledStep(plan, Interleave(plan, Begin(db, plan), cs[..n][..k]), cs[..n][k]);
      }
    }
  }

  // ---- And exactly then ----

  lemma {:induction false} SerialIsNeverMisled(db: Db, plan: seq<Task>, start: int, cs: seq<Choice>)
    requires GoodStart(db, start) && FreshIds(plan)
    requires forall k :: 0 <= k <= |cs| ==> SerialAt(db, plan, start, Interleave(plan, Begin(db, plan), cs[..k]))
    ensures NeverMisled(db, plan, cs)
  {
    if cs != [] {
      var n := |cs| - 1;
      var s := Interleave(plan, Begin(db, plan), cs[..n]);
      hide SerialAt, GoodStart, FreshIds;
      forall k | 0 <= k <= n ensures SerialAt(db, plan, start, Interleave(plan, Begin(db, plan), cs[..n][..k])) {
        assert cs[..n][..k] == cs[..k];
        assert SerialAt(db, plan, start, Interleave(plan, Begin(db, plan), cs[..k]));
      }
      SerialIsNeverMisled(db, plan, start, cs[..n]);
      InterleaveReaches(db, plan, start, cs[..n]);
      assert cs[..|cs|] == cs;
      assert SerialAt(db, plan, start, Step(plan, s, cs[n]));
      hide Interleave, Step;
      if MisledStep(plan, s, cs[n]) {
        MisledStepParts(db, plan, start, s, cs[n]);
      }
      NeverMisledAfter(db, plan, cs);
    }
  }

  lemma MisledStepParts(db: Db, plan: seq<Task>, start: int, s: System, c: Choice)
    requires Reaches(db, plan, start, s) && MisledStep(plan, s, c)
    ensures !SerialAt(db, plan, start, Step(plan, s, c))
  {
    var i := c.worker;
    var u, w := plan[i].job.user, s.phases[i].wallet;
    assert Local(s.db, plan[i], s.phases[i]);
    ReachesPaired(db, plan, start, s);
    RebalancingCommits(plan, s, i);
    RebalancingReads(s.db, plan[i], w);
    hide Reaches, Misled, ServeAll, RepairOnLatest, Step, Local, Paired, Serve, SameTables, Accepted;
    MisledDiverges(s.db, ServeAll(db, plan, s.log, start), u, w, start + |s.log|);
    if SerialAt(db, plan, start, Step(plan, s, c)) {
      assert Accepted(db, plan, s.log + [i], start, |s.log|);
      ServedNext(db, plan, start, s.log, i);
    }
  }

  lemma RebalancingCommits(plan: seq<Task>, s: System, i: nat)
    requires i < |plan| == |s.phases| && plan[i].job.RepairJob? && s.phases[i].Rebalancing?
    ensures Step(plan, s, Go(i))
         == System(s.db.(wallets := s.db.wallets[plan[i].job.user := s.phases[i].wallet]), s.phases[i := Committed], s.log + [i])
  {
  }

  lemma ReachesPaired(db: Db, plan: seq<Task>, start: int, s: System)
    requires Reaches(db, plan, start, s)
    ensures Paired(s.db, ServeAll(db, plan, s.log, start), start + |s.log|)
  {
  }

  lemma RebalancingReads(db: Db, t: Task, w: Wallet)
    requires t.job.RepairJob? && Local(db, t, Rebalancing(w))
    ensures t.job.user in db.wallets && RepairOnLatest(db, t.job.user) == Ok(w)
  {
  }

  lemma ServedNext(db: Db, plan: seq<Task>, start: int, log: seq<nat>, i: nat)
    requires i < |plan| && Accepted(db, plan, log + [i], start, |log|)
    ensures Serve(ServeAll(db, plan, log, start), plan[i].job, start + |log| + 1) == Ok(ServeAll(db, plan, log + [i], start))
  {
    hide Settle, CreatePick, FixUserBalance;
    var longer := log + [i];
    assert longer[..|log|] == log && longer[|log|] == i;
  }

  /** A schedule is serial at every moment exactly when no misled repair commits under it. */
  lemma SerialIffNeverMisled(db: Db, plan: seq<Task>, start: int, cs: seq<Choice>)
    requires GoodStart(db, start) && FreshIds(plan)
    ensures (forall k :: 0 <= k <= |cs| ==> SerialAt(db, plan, start, Interleave(plan, Begin(db, plan), cs[..k])))
       <==> NeverMisled(db, plan, cs)
  {
    hide GoodStart, FreshIds, Interleave, MisledStep;
    if NeverMisled(db, plan, cs) {
      forall k | 0 <= k <= |cs| ensures SerialAt(db, plan, start, Interleave(plan, Begin(db, plan), cs[..k])) {
        NeverMisledPrefix(db, plan, cs, k);
        InterleavingIsSerial(db, plan, start, cs[..k]);
      }
    } else if forall k :: 0 <= k <= |cs| ==> SerialAt(db, plan, start, Interleave(plan, Begin(db, plan), cs[..k])) {
      SerialIsNeverMisled(db, plan, start, cs);
    }
  }

  lemma NeverMisledPrefix(db: Db, plan: seq<Task>, cs: seq<Choice>, k: nat)
    requires k <= |cs| && NeverMisled(db, plan, cs)
    ensures NeverMisled(db, plan, cs[..k])
  {
    hide Interleave, MisledStep;
    forall j | 0 <= j < k ensures !MisledStep(plan, Interleave(plan, Begin(db, plan), cs[..k][..j]), cs[..k][j]) {
      assert cs[..k][..j] == cs[..j];
      assert !MisledStep(plan, Interleave(plan, Begin(db, plan), cs[..j]), cs[j]);
    }
  }
}
