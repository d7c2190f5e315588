/** The resolve endpoint among interleaved workers (`app/routers/picks.py`, `app/services/parlay_service.py`).

    On top of the workers of `Concurrency`, a settlement that comes through the endpoint checks the
    parlays of its pick when it has written its own rows and before it commits. Each check is one
    statement: it reads the committed rows and the transaction's own writes, with its locks held. What
    it decides is written to the parlay's row by the commit. */
module Resolves {
  import opened Domain
  import opened Tables
  import opened Reconciliation
  import opened Engine
  import opened Invariants
  import opened Runs
  import opened ParlayRuns
  import opened Concurrency
  import opened Serializability

  /** What a check found: how many workers had committed, the balance its transaction held, the picks it
      read, and the row it decided to write, if any. */
  datatype Finding = Finding(seen: nat, lock: Option<UserId>, picks: map<PickId, Pick>, update: Option<Parlay>)

  /** The workers, their findings, and the position in the log of the commit that settled each pick. */
  datatype State = State(core: System, found: seq<map<ParlayId, Finding>>, settled: map<PickId, nat>)

  datatype Move = Do(choice: Choice) | Check(worker: nat, parlay: ParlayId)

  /** A settlement with nothing left to do but to commit. */
  predicate Ready(t: Task, ph: Phase) {
    t.job.SettleJob? && (ph.Written? || (ph.PickHeld? && ph.pick.status == t.job.target))
  }

  /** The committed tables with the transaction's own writes. */
  function OwnView(db: Db, ph: Phase): Db {
    if ph.Written? then Publish(db, ph.write) else db
  }

  function BalanceOf(ph: Phase): Option<UserId> {
    if ph.Written? && ph.write.wallet.Some? then Some(ph.write.wallet.value.0) else None
  }

  predicate Sized(plan: seq<Task>, st: State) {
    |st.core.phases| == |st.found| == |plan|
  }

  /** Worker i came through the endpoint and has still to check this parlay. */
  predicate MayCheck(plan: seq<Task>, via: set<nat>, st: State, i: nat, q: ParlayId)
    requires Sized(plan, st)
  {
    && i < |plan| && i in via && Ready(plan[i], st.core.phases[i]) && q !in st.found[i]
    && q in st.core.db.parlays && plan[i].job.pid in st.core.db.parlays[q].legs
  }

  function Looked(st: State, ph: Phase, q: ParlayId): Finding
    requires q in st.core.db.parlays
  {
    var p, picks := st.core.db.parlays[q], OwnView(st.core.db, ph).picks;
    var r := AutoResolve(p, picks);
    Finding(|st.core.log|, BalanceOf(ph), picks, if r == p then None else Some(r))
  }

  function With(found: map<ParlayId, Finding>, q: ParlayId, f: Finding): map<ParlayId, Finding> {
    found[q := f]
  }

  /** The rows that the checks of a transaction changed. */
  function Overlay(parlays: map<ParlayId, Parlay>, found: map<ParlayId, Finding>): map<ParlayId, Parlay> {
    map q | q in parlays :: if q in found && found[q].update.Some? then found[q].update.value else parlays[q]
  }

  /** The commit of worker i settles its pick. */
  predicate SettlesNow(plan: seq<Task>, before: System, next: System, i: nat)
    requires i < |plan|
  {
    && |next.log| > |before.log| && plan[i].job.SettleJob?
    && plan[i].job.pid in before.db.picks && before.db.picks[plan[i].job.pid].status.Pending?
    && plan[i].job.pid in next.db.picks && next.db.picks[plan[i].job.pid].status.Terminal()
  }

  function Perform(plan: seq<Task>, via: set<nat>, st: State, m: Move): (next: State)
    requires Sized(plan, st)
    ensures Sized(plan, next)
  {
    match m
    case Check(i, q) =>
      if MayCheck(plan, via, st, i, q) then st.(found := st.found[i := With(st.found[i], q, Looked(st, st.core.phases[i], q))]) else st
    case Do(c) =>
      var i := c.worker;
      var ends := c.Go? && i < |plan| && i in via && Ready(plan[i], st.core.phases[i]);
      if i >= |plan| || (ends && exists q :: q in st.core.db.parlays && MayCheck(plan, via, st, i, q)) then st
      else
        var next := Step(plan, st.core, c);
        State(if ends then next.(db := next.db.(parlays := Overlay(next.db.parlays, st.found[i]))) else next,
              st.found,
              if SettlesNow(plan, st.core, next, i) then st.settled[plan[i].job.pid := |st.core.log|] else st.settled)
  }

  function Performed(plan: seq<Task>, via: set<nat>, st: State, ms: seq<Move>): (next: State)
    requires Sized(plan, st)
    ensures Sized(plan, next)
  {
    if ms == [] then st else Perform(plan, via, Performed(plan, via, st, ms[..|ms| - 1]), ms[|ms| - 1])
  }

  function Opening(db: Db, plan: seq<Task>): (st: State)
    ensures Sized(plan, st)
  {
    State(Begin(db, plan), seq(|plan|, _ => map[]), map[])
  }

  /** The endpoint refuses to resolve to pending. */
  ghost predicate Endpoint(plan: seq<Task>, via: set<nat>) {
    forall i :: i in via ==> i < |plan| && plan[i].job.SettleJob? && plan[i].job.target.Terminal()
  }

  // ---- One commit, as the picks see it ----

  ghost predicate Carried(before: map<PickId, Pick>, after: map<PickId, Pick>) {
    forall k :: k in before ==>
      k in after && after[k].owner == before[k].owner && (before[k].status.Terminal() ==> after[k].status == before[k].status)
      && after[k].stake == before[k].stake
  }

  lemma CarriedOn(a: map<PickId, Pick>, b: map<PickId, Pick>, c: map<PickId, Pick>)
    requires Carried(a, b) && Carried(b, c)
    ensures Carried(a, c)
  {
  }

  /** A commit changes the status of the picks that were there in at most one place, its own pick's. */
  ghost predicate Settling(before: map<PickId, Pick>, after: map<PickId, Pick>, job: Job) {
    && Carried(before, after)
    && (forall k :: k in before && !(job.SettleJob? && job.pid == k) ==> after[k].status == before[k].status)
    && (job.SettleJob? ==> job.pid in before && job.pid in after && after[job.pid].status == job.target)
  }

  lemma ReadyCommits(plan: seq<Task>, s: System, i: nat)
    requires i < |plan| == |s.phases| && Ready(plan[i], s.phases[i])
    ensures !s.phases[i].Finished() && Next(plan, s, i) == Commit(OwnView(s.db, s.phases[i]))
  {
    hide Publish, Decided, PickFree, BalanceFree;
  }

  lemma SettlementSettles(db: Db, w: Write, job: Job, at: int)
    requires job.SettleJob? && w.pid == job.pid && IsSettlement(db, w, job.target, at)
    ensures Publish(db, w).parlays == db.parlays && Settling(db.picks, Publish(db, w).picks, job)
  {
    hide PickOk, Credit, LineType;
  }

  lemma WriteSettles(db: Db, t: Task, w: Write)
    requires Intact(db) && t.job.SettleJob? && SettleLocal(db, t, Written(w))
    ensures Publish(db, w).parlays == db.parlays && Settling(db.picks, Publish(db, w).picks, t.job)
  {
    hide SettleLocal, IsSettlement, Publish, Settling, PicksOk, OwnersOk, Solvent, LinesOk, SettledOnce, Announced;
    SettleCommit(db, t, w);
    SettlementSettles(db, w, t.job, t.at);
  }

  lemma InsertSettles(db: Db, t: Task, w: Write)
    requires t.job.CreateJob? && CreateLocal(db, t, Written(w))
    ensures Publish(db, w).parlays == db.parlays && Settling(db.picks, Publish(db, w).picks, t.job)
  {
    CreateCommit(db, t, w);
    hide CreateLocal, PickOk;
  }

  lemma HeldIsCommitted(db: Db, t: Task, p: Pick)
    requires t.job.SettleJob? && Local(db, t, PickHeld(p)) && p.status == t.job.target
    ensures Settling(db.picks, db.picks, t.job)
  {
  }

  lemma CommitSettles(plan: seq<Task>, s: System, i: nat)
    requires Orderly(plan, s) && i < |plan| && Next(plan, s, i).Commit?
    ensures Next(plan, s, i).db.parlays == s.db.parlays
    ensures Settling(s.db.picks, Next(plan, s, i).db.picks, plan[i].job)
    ensures plan[i].job.SettleJob? ==> Ready(plan[i], s.phases[i])
  {
    assert Local(s.db, plan[i], s.phases[i]) && Intact(s.db);
    hide Next, SettleRead, CreateRead, Orderly, Intact, Publish;
    NextCommits(plan, s, i);
    var t, ph := plan[i], s.phases[i];
    match t.job
    case SettleJob(_, _, _, _) => if ph.Written? { WriteSettles(s.db, t, ph.write); } else { HeldIsCommitted(s.db, t, ph.pick); }
    case CreateJob(_) => InsertSettles(s.db, t, ph.write);
    case RepairJob(_) =>
  }

  lemma OrderlyIsIntact(plan: seq<Task>, s: System)
    requires Orderly(plan, s)
    ensures Intact(s.db)
  {
  }

  // ---- The invariant ----

  predicate Closable(legs: seq<PickId>, picks: map<PickId, Pick>) {
    !SomeLeg(picks, legs, Status.Pending) && (EveryLeg(picks, legs, Status.Won) || SomeLeg(picks, legs, Status.Lost))
  }

  ghost predicate SameBet(p: Parlay, r: Parlay) {
    r == p.(status := r.status, actualReturn := r.actualReturn)
  }

  /** Rows keep their bets, and decided ones stay as they are. */
  ghost predicate BetsKept(before: map<ParlayId, Parlay>, after: map<ParlayId, Parlay>) {
    && after.Keys == before.Keys
    && forall q :: q in before ==> SameBet(before[q], after[q]) && (!before[q].status.Open? ==> after[q] == before[q])
  }

  /** What a finding says of another leg: it was pending when it is still, or when it was settled by a
      commit that the check did not see. */
  ghost predicate SawLeg(st: State, f: Finding, leg: PickId) {
    && (LegStatus(f.picks, leg).Pending? <==>
          LegStatus(st.core.db.picks, leg).Pending? || (leg in st.settled && st.settled[leg] >= f.seen))
    && (!LegStatus(f.picks, leg).Pending? ==> LegStatus(st.core.db.picks, leg) == LegStatus(f.picks, leg))
  }

  /** A finding against the worker it belongs to. */
  ghost predicate FoundBy(t: Task, ph: Phase, f: Finding, now: map<PickId, Pick>)
    requires t.job.SettleJob?
  {
    && (!ph.Rejected? ==> LegStatus(f.picks, t.job.pid) == t.job.target)
    && (!ph.Finished() ==> Ready(t, ph) && f.lock == BalanceOf(ph))
    && (ph.Committed? ==> LegStatus(now, t.job.pid) == t.job.target)
  }

  /** A finding against the parlay's row. */
  ghost predicate FoundFor(f: Finding, p: Parlay) {
    && (SomeLeg(f.picks, p.legs, Status.Pending) ==> f.update.None?)
    && (p.status.Open? ==> (f.update.Some? <==> Closable(p.legs, f.picks)))
    && (f.update.Some? ==>
          Closable(p.legs, f.picks) && SameBet(p, f.update.value) && !f.update.value.status.Open? && Consistent(f.update.value, f.picks))
  }

  ghost predicate FindingOk(plan: seq<Task>, via: set<nat>, st: State, i: nat, q: ParlayId)
    requires Sized(plan, st) && i < |plan| && q in st.found[i]
  {
    var f := st.found[i][q];
    && i in via && plan[i].job.SettleJob? && q in st.core.db.parlays && plan[i].job.pid in st.core.db.parlays[q].legs
    && f.seen <= |st.core.log| && i !in st.core.log[..f.seen]
    && FoundBy(plan[i], st.core.phases[i], f, st.core.db.picks) && FoundFor(f, st.core.db.parlays[q])
    && forall leg :: leg in st.core.db.parlays[q].legs && leg != plan[i].job.pid ==> SawLeg(st, f, leg)
  }

  ghost predicate Findings(plan: seq<Task>, via: set<nat>, st: State)
    requires Sized(plan, st)
  {
    forall i, q :: 0 <= i < |plan| && q in st.found[i] ==> FindingOk(plan, via, st, i, q)
  }

  /** Each settled pick was settled by the commit at its position. */
  ghost predicate SettledOk(plan: seq<Task>, st: State) {
    forall k :: k in st.settled ==>
      && st.settled[k] < |st.core.log| && st.core.log[st.settled[k]] < |plan|
      && plan[st.core.log[st.settled[k]]].job.SettleJob? && plan[st.core.log[st.settled[k]]].job.pid == k
  }

  /** And every pick that is no longer pending was. */
  ghost predicate AllSettled(before: map<PickId, Pick>, st: State) {
    && Carried(before, st.core.db.picks)
    && forall k :: k in before && before[k].status.Pending? && !st.core.db.picks[k].status.Pending? ==> k in st.settled
  }

  /** A parlay is still open exactly when it was and no committed check decided it. */
  ghost predicate DecidedOk(plan: seq<Task>, before: map<ParlayId, Parlay>, st: State)
    requires Sized(plan, st)
  {
    && BetsKept(before, st.core.db.parlays)
    && forall q :: q in before ==>
         (st.core.db.parlays[q].status.Open? <==>
            && before[q].status.Open?
            && forall i :: 0 <= i < |plan| && st.core.phases[i].Committed? && q in st.found[i] ==> st.found[i][q].update.None?)
  }

  /** Nobody commits before the checks are done. */
  ghost predicate Thorough(plan: seq<Task>, via: set<nat>, st: State)
    requires Sized(plan, st)
  {
    forall i :: 0 <= i < |plan| && i in via && st.core.phases[i].Committed? && plan[i].job.SettleJob? ==>
      forall q :: q in st.core.db.parlays && plan[i].job.pid in st.core.db.parlays[q].legs ==> q in st.found[i]
  }

  /** Of two checks made under the same balance lock, one saw the other's commit. */
  ghost predicate Ordered(st: State, i: nat, q: ParlayId, j: nat, p: ParlayId)
    requires i < |st.found| && j < |st.found| && q in st.found[i] && p in st.found[j]
  {
    var f, g := st.found[i][q], st.found[j][p];
    f.lock.Some? && f.lock == g.lock && f.seen <= |st.core.log| && g.seen <= |st.core.log| ==>
      j in st.core.log[..f.seen] || i in st.core.log[..g.seen]
  }

  ghost predicate LocksOk(plan: seq<Task>, st: State)
    requires Sized(plan, st)
  {
    forall i, j :: 0 <= i < |plan| && 0 <= j < |plan| && i != j && !st.core.phases[i].Rejected? && !st.core.phases[j].Rejected? ==>
      forall q, p :: q in st.found[i] && p in st.found[j] ==> Ordered(st, i, q, j, p)
  }

  /** A check of a settlement that moved money was made under the owner's balance lock. */
  ghost predicate MoneyLocked(plan: seq<Task>, before: map<PickId, Pick>, st: State)
    requires Sized(plan, st)
  {
    forall i :: 0 <= i < |plan| && MovedMoney(plan, before, st, i) ==>
      forall q :: q in st.found[i] ==> st.found[i][q].lock == Some(DEFAULT_USER)
  }

  /** Worker i settled its pick, and the pick had money at stake. */
  ghost predicate MovedMoney(plan: seq<Task>, before: map<PickId, Pick>, st: State, i: nat)
    requires i < |plan|
  {
    && plan[i].job.SettleJob? && plan[i].job.pid in st.settled
    && st.settled[plan[i].job.pid] < |st.core.log| && st.core.log[st.settled[plan[i].job.pid]] == i
    && plan[i].job.pid in before && Financial(before[plan[i].job.pid])
  }

  ghost predicate Inv(db: Db, plan: seq<Task>, via: set<nat>, st: State) {
    && Sized(plan, st) && Orderly(plan, st.core) && ParlaysConsistent(st.core.db)
    && Findings(plan, via, st) && SettledOk(plan, st) && AllSettled(db.picks, st) && DecidedOk(plan, db.parlays, st)
    && Thorough(plan, via, st) && LocksOk(plan, st) && MoneyLocked(plan, db.picks, st)
  }

  lemma OpeningHolds(db: Db, plan: seq<Task>, via: set<nat>)
    requires Intact(db) && ParlaysConsistent(db)
    ensures Inv(db, plan, via, Opening(db, plan))
  {
    hide Orderly, Intact, ParlaysConsistent, FindingOk, Ordered, MovedMoney;
    BeginIsOrderly(db, plan);
    var st := Opening(db, plan);
    assert st.core.db == db && st.settled == map[] && forall i :: 0 <= i < |plan| ==> st.found[i] == map[] && st.core.phases[i].Start?;
  }

  // ---- A check ----

  lemma AutoResolveIff(p: Parlay, picks: map<PickId, Pick>)
    ensures AutoResolve(p, picks) != p <==> p.status.Open? && Closable(p.legs, picks)
    ensures SameBet(p, AutoResolve(p, picks))
  {
    hide SomeLeg, EveryLeg;
  }

  lemma SettlingGrows(before: map<PickId, Pick>, after: map<PickId, Pick>, job: Job)
    requires Settling(before, after, job)
    ensures StatusesGrow(before, after)
  {
  }

  /** A check against the row it reads. */
  lemma LookedForRow(p: Parlay, before: map<PickId, Pick>, picks: map<PickId, Pick>)
    requires Consistent(p, before) && StatusesGrow(before, picks)
    ensures
      var r := AutoResolve(p, picks);
      var update := if r == p then None else Some(r);
      && (SomeLeg(picks, p.legs, Status.Pending) ==> update.None?)
      && (update.Some? <==> p.status.Open? && Closable(p.legs, picks))
      && (update.Some? ==> SameBet(p, r) && !r.status.Open? && Consistent(r, picks))
  {
    hide Consistent, Closable, AutoResolve, StatusesGrow;
    GrowthKeepsConsistent(p, before, picks);
    CheckIsPrompt(p, picks);
    AutoResolveIff(p, picks);
    PendingIsNotClosable(p.legs, picks);
    if AutoResolve(p, picks) != p {
      DecidedIsNotOpen(p, picks);
    }
  }

  lemma DecidedIsNotOpen(p: Parlay, picks: map<PickId, Pick>)
    requires AutoResolve(p, picks) != p
    ensures !AutoResolve(p, picks).status.Open?
  {
    hide SomeLeg, EveryLeg;
  }

  /** And against the other legs. */
  lemma LookedAtLeg(plan: seq<Task>, st: State, i: nat, picks: map<PickId, Pick>, f: Finding, leg: PickId)
    requires i < |plan| && plan[i].job.SettleJob? && leg != plan[i].job.pid && SettledOk(plan, st)
    requires Settling(st.core.db.picks, picks, plan[i].job) && leg in st.core.db.picks
    requires f.picks == picks && f.seen == |st.core.log|
    ensures SawLeg(st, f, leg)
  {
  }

  lemma LookedOk(plan: seq<Task>, via: set<nat>, st: State, i: nat, q: ParlayId)
    requires Sized(plan, st) && Orderly(plan, st.core) && ParlaysConsistent(st.core.db) && SettledOk(plan, st)
    requires MayCheck(plan, via, st, i, q)
    ensures
      var f := Looked(st, st.core.phases[i], q);
      && FoundFor(f, st.core.db.parlays[q]) && FoundBy(plan[i], st.core.phases[i], f, st.core.db.picks)
      && f.seen == |st.core.log| && i !in st.core.log
      && forall leg :: leg in st.core.db.parlays[q].legs && leg != plan[i].job.pid ==> SawLeg(st, f, leg)
  {
    var p, ph := st.core.db.parlays[q], st.core.phases[i];
    var picks := OwnView(st.core.db, ph).picks;
    assert Consistent(p, st.core.db.picks);
    hide Orderly, ParlaysConsistent, OwnView, Next, AutoResolve, Consistent, Closable, SettledOk, SomeLeg, SameBet, Settling, StatusesGrow, SawLeg;
    ReadyCommits(plan, st.core, i);
    CommitSettles(plan, st.core, i);
    UnfinishedIsUnlogged(plan, st.core, i);
    SettlingGrows(st.core.db.picks, picks, plan[i].job);
    LookedForRow(p, st.core.db.picks, picks);
    ConsistentHasLegs(p, st.core.db.picks);
    SettledStatus(st.core.db.picks, picks, plan[i].job);
    var f := Looked(st, ph, q);
    forall leg | leg in p.legs && leg != plan[i].job.pid ensures SawLeg(st, f, leg) {
      LookedAtLeg(plan, st, i, picks, f, leg);
    }
  }

  lemma SettledStatus(before: map<PickId, Pick>, after: map<PickId, Pick>, job: Job)
    requires Settling(before, after, job)
    ensures job.SettleJob? ==> LegStatus(after, job.pid) == job.target
  {
  }

  lemma PendingIsNotClosable(legs: seq<PickId>, picks: map<PickId, Pick>)
    ensures SomeLeg(picks, legs, Status.Pending) ==> !Closable(legs, picks)
  {
  }

  lemma ConsistentHasLegs(p: Parlay, picks: map<PickId, Pick>)
    requires Consistent(p, picks)
    ensures forall leg :: leg in p.legs ==> leg in picks
  {
  }

  lemma UnfinishedIsUnlogged(plan: seq<Task>, s: System, i: nat)
    requires Orderly(plan, s) && i < |plan| && !s.phases[i].Committed?
    ensures i !in s.log
  {
    assert LogOk(plan, s);
    forall k | 0 <= k < |s.log| ensures s.log[k] != i {
    }
  }

  /** Two unfinished workers never hold the same balance. */
  lemma OneHolder(plan: seq<Task>, s: System, i: nat, j: nat)
    requires Orderly(plan, s) && i < |plan| && j < |plan| && i != j && Ready(plan[i], s.phases[i]) && Ready(plan[j], s.phases[j])
    ensures BalanceOf(s.phases[i]).Some? ==> BalanceOf(s.phases[i]) != BalanceOf(s.phases[j])
  {
    assert Exclusive(plan, s.phases);
    var u := BalanceOf(s.phases[i]);
    if u.Some? && u == BalanceOf(s.phases[j]) {
      assert HoldsBalance(plan[i], s.phases[i], u.value) && HoldsBalance(plan[j], s.phases[j], u.value);
    }
  }

  lemma CommittedIsLogged(plan: seq<Task>, s: System, i: nat)
    requires Orderly(plan, s) && i < |plan| && s.phases[i].Committed?
    ensures i in s.log && s.log[..|s.log|] == s.log
  {
    assert LogOk(plan, s);
  }

  lemma CheckKeepsFindings(plan: seq<Task>, via: set<nat>, st: State, next: State, i: nat, q: ParlayId, f: Finding)
    requires Sized(plan, st) && Findings(plan, via, st) && i < |plan| && i in via && plan[i].job.SettleJob?
    requires q in st.core.db.parlays && plan[i].job.pid in st.core.db.parlays[q].legs
    requires next == st.(found := st.found[i := With(st.found[i], q, f)])
    requires FoundFor(f, st.core.db.parlays[q]) && FoundBy(plan[i], st.core.phases[i], f, st.core.db.picks)
    requires f.seen == |st.core.log| && i !in st.core.log
    requires forall leg :: leg in st.core.db.parlays[q].legs && leg != plan[i].job.pid ==> SawLeg(st, f, leg)
    ensures Findings(plan, via, next)
  {
    hide FoundFor, FoundBy;
    forall j, p | 0 <= j < |plan| && p in next.found[j] ensures FindingOk(plan, via, next, j, p) {
      if !(j == i && p == q) {
        assert FindingOk(plan, via, st, j, p);
      }
    }
  }

  lemma CheckKeepsLocks(plan: seq<Task>, via: set<nat>, st: State, next: State, i: nat, q: ParlayId, f: Finding)
    requires Sized(plan, st) && Orderly(plan, st.core) && Findings(plan, via, st) && LocksOk(plan, st)
    requires i < |plan| && Ready(plan[i], st.core.phases[i])
    requires next == st.(found := st.found[i := With(st.found[i], q, f)])
    requires f.seen == |st.core.log| && f.lock == BalanceOf(st.core.phases[i])
    ensures LocksOk(plan, next)
  {
    hide Orderly, Ready, FoundFor;
    forall j, k | 0 <= j < |plan| && 0 <= k < |plan| && j != k && !st.core.phases[j].Rejected? && !st.core.phases[k].Rejected?
      ensures forall a, b :: a in next.found[j] && b in next.found[k] ==> Ordered(next, j, a, k, b)
    {
      forall a, b | a in next.found[j] && b in next.found[k] ensures Ordered(next, j, a, k, b) {
        if j == i && a == q {
          assert FindingOk(plan, via, st, k, b);
          NewCheckOrdered(plan, st, i, f, k, st.found[k][b]);
        } else if k == i && b == q {
          assert FindingOk(plan, via, st, j, a);
          NewCheckOrdered(plan, st, i, f, j, st.found[j][a]);
        } else {
          assert Ordered(st, j, a, k, b);
        }
      }
    }
  }

  lemma NewCheckOrdered(plan: seq<Task>, st: State, i: nat, f: Finding, k: nat, g: Finding)
    requires Sized(plan, st) && Orderly(plan, st.core) && i < |plan| && k < |plan| && i != k
    requires Ready(plan[i], st.core.phases[i]) && plan[k].job.SettleJob? && FoundBy(plan[k], st.core.phases[k], g, st.core.db.picks)
    requires f.seen == |st.core.log| && f.lock == BalanceOf(st.core.phases[i]) && !st.core.phases[k].Rejected?
    ensures f.lock.Some? && f.lock == g.lock ==> k in st.core.log[..f.seen]
  {
    if st.core.phases[k].Committed? {
      CommittedIsLogged(plan, st.core, k);
    } else {
      OneHolder(plan, st.core, i, k);
    }
    hide Orderly, Ready;
  }

  lemma CheckKeeps(db: Db, plan: seq<Task>, via: set<nat>, st: State, i: nat, q: ParlayId)
    requires Inv(db, plan, via, st) && MayCheck(plan, via, st, i, q)
    ensures Inv(db, plan, via, Perform(plan, via, st, Check(i, q)))
  {
    var f := Looked(st, st.core.phases[i], q);
    var next := st.(found := st.found[i := With(st.found[i], q, f)]);
    assert Perform(plan, via, st, Check(i, q)) == next;
    assert f.lock == BalanceOf(st.core.phases[i]) && Ready(plan[i], st.core.phases[i]);
    LookedOk(plan, via, st, i, q);
    hide Looked, Orderly, ParlaysConsistent, Perform, Findings, LocksOk, SettledOk, AllSettled, DecidedOk, Thorough, MoneyLocked,
      FoundFor, FoundBy, SawLeg;
    CheckKeepsFindings(plan, via, st, next, i, q, f);
    CheckKeepsLocks(plan, via, st, next, i, q, f);
    CheckKeepsRest(plan, via, db, st, next, i, q, f);
  }

  lemma CheckKeepsRest(plan: seq<Task>, via: set<nat>, db: Db, st: State, next: State, i: nat, q: ParlayId, f: Finding)
    requires Sized(plan, st) && i < |plan| && i !in st.core.log && !st.core.phases[i].Committed?
    requires next == st.(found := st.found[i := With(st.found[i], q, f)])
    requires SettledOk(plan, st) && AllSettled(db.picks, st) && DecidedOk(plan, db.parlays, st) && Thorough(plan, via, st) && MoneyLocked(plan, db.picks, st)
    ensures SettledOk(plan, next) && AllSettled(db.picks, next) && DecidedOk(plan, db.parlays, next) && Thorough(plan, via, next)
    ensures MoneyLocked(plan, db.picks, next)
  {
    forall k | 0 <= k < |plan| && MovedMoney(plan, db.picks, next, k)
      ensures forall p :: p in next.found[k] ==> next.found[k][p].lock == Some(DEFAULT_USER)
    {
      assert MovedMoney(plan, db.picks, st, k);
      assert k in st.core.log;
    }
    hide Carried, BetsKept, MovedMoney;
  }

  // ---- A commit ----

  function Mark(settled: map<PickId, nat>, job: Job, picks: map<PickId, Pick>, position: nat): map<PickId, nat> {
    if job.SettleJob? && job.pid in picks && picks[job.pid].status.Pending? && job.target.Terminal()
    then settled[job.pid := position] else settled
  }

  /** What the log position of a settled pick and the picks' statuses become when worker i commits. */
  ghost predicate Commits(plan: seq<Task>, st: State, next: State, i: nat)
    requires Sized(plan, st) && Sized(plan, next) && i < |plan|
  {
    && !st.core.phases[i].Finished()
    && next.core.phases == st.core.phases[i := Committed] && next.core.log == st.core.log + [i] && next.found == st.found
    && Settling(st.core.db.picks, next.core.db.picks, plan[i].job)
    && next.settled == Mark(st.settled, plan[i].job, st.core.db.picks, |st.core.log|)
    && next.core.db.parlays == Overlay(st.core.db.parlays, st.found[i])
  }

  lemma NothingFound(parlays: map<ParlayId, Parlay>)
    ensures Overlay(parlays, map[]) == parlays
  {
  }

  lemma CommitIs(plan: seq<Task>, via: set<nat>, st: State, c: Choice)
    requires Sized(plan, st) && Orderly(plan, st.core) && Findings(plan, via, st)
    requires c.Go? && c.worker < |plan| && !st.core.phases[c.worker].Finished() && Next(plan, st.core, c.worker).Commit?
    requires c.worker in via ==> plan[c.worker].job.SettleJob?
    requires !(c.worker in via && exists q :: q in st.core.db.parlays && MayCheck(plan, via, st, c.worker, q))
    ensures Commits(plan, st, Perform(plan, via, st, Do(c)), c.worker)
  {
    hide Orderly, Next, FindingOk, MayCheck, Ready, Settling, Overlay, SettlesNow, Mark;
    var i := c.worker;
    var next := Step(plan, st.core, c);
    CommitSettles(plan, st.core, i);
    assert next == System(Next(plan, st.core, i).db, st.core.phases[i := Committed], st.core.log + [i]);
    MarksTheSettled(plan, st.core, next, i, st.settled);
    if i !in via {
      OutsidersFindNothing(plan, via, st, i);
    } else {
      assert Ready(plan[i], st.core.phases[i]);
    }
    NothingFound(next.db.parlays);
  }

  lemma MarksTheSettled(plan: seq<Task>, s: System, next: System, i: nat, settled: map<PickId, nat>)
    requires i < |plan| && |next.log| == |s.log| + 1 && Settling(s.db.picks, next.db.picks, plan[i].job)
    ensures (if SettlesNow(plan, s, next, i) then settled[plan[i].job.pid := |s.log|] else settled)
         == Mark(settled, plan[i].job, s.db.picks, |s.log|)
  {
  }

  lemma OutsidersFindNothing(plan: seq<Task>, via: set<nat>, st: State, i: nat)
    requires Sized(plan, st) && Findings(plan, via, st) && i < |plan| && i !in via
    ensures st.found[i] == map[]
  {
    forall q ensures q !in st.found[i] {
      assert q in st.found[i] ==> FindingOk(plan, via, st, i, q);
    }
  }

  lemma SawLegAfter(plan: seq<Task>, st: State, next: State, i: nat, f: Finding, leg: PickId)
    requires Sized(plan, st) && Sized(plan, next) && i < |plan| && Commits(plan, st, next, i)
    requires SawLeg(st, f, leg) && leg in st.core.db.picks && f.seen <= |st.core.log|
    ensures SawLeg(next, f, leg)
  {
    hide Overlay;
  }

  lemma FoundByAfter(plan: seq<Task>, st: State, next: State, i: nat, j: nat, f: Finding)
    requires Sized(plan, st) && Sized(plan, next) && i < |plan| && Commits(plan, st, next, i)
    requires j < |plan| && plan[j].job.SettleJob? && plan[j].job.target.Terminal() && FoundBy(plan[j], st.core.phases[j], f, st.core.db.picks)
    ensures FoundBy(plan[j], next.core.phases[j], f, next.core.db.picks)
  {
    hide Overlay, Ready, Mark;
  }

  lemma FoundForAfter(f: Finding, p: Parlay, r: Parlay)
    requires FoundFor(f, p) && SameBet(p, r) && (p.status.Open? ==> r == p || !r.status.Open?) && (!p.status.Open? ==> !r.status.Open?)
    ensures FoundFor(f, r)
  {
    hide Closable, Consistent, SomeLeg;
  }

  /** The row of a parlay after a commit: as it was, or decided. */
  lemma RowAfter(plan: seq<Task>, via: set<nat>, st: State, next: State, i: nat, q: ParlayId)
    requires Sized(plan, st) && Sized(plan, next) && i < |plan| && Commits(plan, st, next, i) && Findings(plan, via, st)
    requires q in st.core.db.parlays
    ensures
      var p, r := st.core.db.parlays[q], next.core.db.parlays[q];
      && q in next.core.db.parlays && SameBet(p, r)
      && (q in st.found[i] && st.found[i][q].update.Some? ==> r == st.found[i][q].update.value && !r.status.Open?)
      && (!(q in st.found[i] && st.found[i][q].update.Some?) ==> r == p)
  {
    if q in st.found[i] {
      assert FindingOk(plan, via, st, i, q);
    }
    hide Settling, Closable, Consistent, SomeLeg, FoundBy, SawLeg, Mark;
  }

  lemma CommitKeepsFindings(plan: seq<Task>, via: set<nat>, st: State, next: State, i: nat)
    requires Sized(plan, st) && Sized(plan, next) && i < |plan| && Commits(plan, st, next, i) && Endpoint(plan, via)
    requires Findings(plan, via, st) && ParlaysConsistent(st.core.db)
    ensures Findings(plan, via, next)
  {
    forall j, q | 0 <= j < |plan| && q in next.found[j] ensures FindingOk(plan, via, next, j, q) {
      assert FindingOk(plan, via, st, j, q);
      var f, p := st.found[j][q], st.core.db.parlays[q];
      assert next.core.log[..f.seen] == st.core.log[..f.seen];
      assert Consistent(p, st.core.db.picks);
      RowAfter(plan, via, st, next, i, q);
      hide Consistent, FoundFor, FoundBy, SawLeg, Commits, Findings;
      ConsistentHasLegs(p, st.core.db.picks);
      FoundForAfter(f, p, next.core.db.parlays[q]);
      FoundByAfter(plan, st, next, i, j, f);
      forall leg | leg in p.legs && leg != plan[j].job.pid ensures SawLeg(next, f, leg) {
        SawLegAfter(plan, st, next, i, f, leg);
      }
    }
  }

  lemma SameLegsConsistent(p: Parlay, a: map<PickId, Pick>, b: map<PickId, Pick>)
    requires Consistent(p, a) && forall leg :: leg in p.legs ==> leg in b && LegStatus(b, leg) == LegStatus(a, leg)
    ensures Consistent(p, b)
  {
    assert forall i :: 0 <= i < |p.legs| ==> LegStatus(b, p.legs[i]) == LegStatus(a, p.legs[i]);
  }

  /** Consistent decisions on one bet agree. */
  lemma DecisionIsUnique(p: Parlay, r: Parlay, picks: map<PickId, Pick>)
    requires SameBet(p, r) && Consistent(p, picks) && Consistent(r, picks) && !p.status.Open? && !r.status.Open?
    ensures p == r
  {
  }

  lemma ClosableLeg(legs: seq<PickId>, picks: map<PickId, Pick>, leg: PickId)
    requires Closable(legs, picks) && leg in legs
    ensures !LegStatus(picks, leg).Pending?
  {
    var i :| 0 <= i < |legs| && legs[i] == leg;
  }

  /** What a check decided still holds when it is written. */
  lemma UpdateStaysConsistent(plan: seq<Task>, via: set<nat>, st: State, next: State, i: nat, q: ParlayId)
    requires Sized(plan, st) && Sized(plan, next) && i < |plan| && Commits(plan, st, next, i) && Findings(plan, via, st)
    requires q in st.found[i] && st.found[i][q].update.Some? && ParlaysConsistent(st.core.db)
    ensures Consistent(st.found[i][q].update.value, next.core.db.picks)
  {
    assert FindingOk(plan, via, st, i, q);
    var f, p := st.found[i][q], st.core.db.parlays[q];
    assert Consistent(p, st.core.db.picks);
    hide Consistent, Closable, Findings, Mark, Overlay;
    ConsistentHasLegs(p, st.core.db.picks);
    forall leg | leg in p.legs ensures leg in next.core.db.picks && LegStatus(next.core.db.picks, leg) == LegStatus(f.picks, leg) {
      ClosableLeg(p.legs, f.picks, leg);
      assert leg != plan[i].job.pid ==> SawLeg(st, f, leg);
    }
    SameLegsConsistent(f.update.value, f.picks, next.core.db.picks);
  }

  lemma CommitKeepsConsistent(plan: seq<Task>, via: set<nat>, st: State, next: State, i: nat)
    requires Sized(plan, st) && Sized(plan, next) && i < |plan| && Commits(plan, st, next, i) && Findings(plan, via, st)
    requires ParlaysConsistent(st.core.db)
    ensures ParlaysConsistent(next.core.db) && BetsKept(st.core.db.parlays, next.core.db.parlays)
  {
    SettlingGrows(st.core.db.picks, next.core.db.picks, plan[i].job);
    assert next.core.db.parlays.Keys == st.core.db.parlays.Keys;
    forall q | q in next.core.db.parlays
      ensures Consistent(next.core.db.parlays[q], next.core.db.picks)
      ensures !st.core.db.parlays[q].status.Open? ==> next.core.db.parlays[q] == st.core.db.parlays[q]
      ensures SameBet(st.core.db.parlays[q], next.core.db.parlays[q])
    {
      var p, r := st.core.db.parlays[q], next.core.db.parlays[q];
      assert Consistent(p, st.core.db.picks);
      RowAfter(plan, via, st, next, i, q);
      hide Consistent, StatusesGrow, Commits, Findings;
      GrowthKeepsConsistent(p, st.core.db.picks, next.core.db.picks);
      if q in st.found[i] && st.found[i][q].update.Some? {
        UpdateStaysConsistent(plan, via, st, next, i, q);
        if !p.status.Open? { DecisionIsUnique(p, r, next.core.db.picks); }
      }
    }
  }

  lemma CommitKeepsDecided(plan: seq<Task>, via: set<nat>, before: map<ParlayId, Parlay>, st: State, next: State, i: nat)
    requires Sized(plan, st) && Sized(plan, next) && i < |plan| && Commits(plan, st, next, i) && Findings(plan, via, st)
    requires DecidedOk(plan, before, st) && BetsKept(st.core.db.parlays, next.core.db.parlays)
    ensures DecidedOk(plan, before, next)
  {
    forall q | q in before
      ensures next.core.db.parlays[q].status.Open? <==>
                && before[q].status.Open?
                && forall j :: 0 <= j < |plan| && next.core.phases[j].Committed? && q in next.found[j] ==> next.found[j][q].update.None?
    {
      RowAfter(plan, via, st, next, i, q);
      hide Commits, Findings;
      assert st.core.db.parlays[q].status.Open? <==>
               && before[q].status.Open?
               && forall j :: 0 <= j < |plan| && st.core.phases[j].Committed? && q in st.found[j] ==> st.found[j][q].update.None?;
      CommittedAfter(plan, st, next, i);
    }
    hide Commits, Findings;
  }

  lemma CommittedAfter(plan: seq<Task>, st: State, next: State, i: nat)
    requires Sized(plan, st) && Sized(plan, next) && i < |plan| && Commits(plan, st, next, i)
    ensures next.found == st.found && !st.core.phases[i].Finished()
    ensures forall j :: 0 <= j < |plan| ==> (next.core.phases[j].Committed? <==> st.core.phases[j].Committed? || j == i)
    ensures forall j :: 0 <= j < |plan| ==> (next.core.phases[j].Rejected? <==> st.core.phases[j].Rejected?)
  {
    hide Settling, Overlay;
  }

  lemma CommitKeepsSettled(plan: seq<Task>, before: map<PickId, Pick>, st: State, next: State, i: nat)
    requires Sized(plan, st) && Sized(plan, next) && i < |plan| && Commits(plan, st, next, i)
    requires SettledOk(plan, st) && AllSettled(before, st)
    ensures SettledOk(plan, next) && AllSettled(before, next)
  {
    CarriedOn(before, st.core.db.picks, next.core.db.picks);
    hide Overlay, Carried;
    assert Carried(before, next.core.db.picks);
    assert forall k :: 0 <= k < |st.core.log| ==> next.core.log[k] == st.core.log[k];
    forall k | k in before && before[k].status.Pending? && !next.core.db.picks[k].status.Pending? ensures k in next.settled {
      StatusAfter(st.core.db.picks, next.core.db.picks, plan[i].job, before, k);
    }
  }

  lemma StatusAfter(now: map<PickId, Pick>, next: map<PickId, Pick>, job: Job, before: map<PickId, Pick>, k: PickId)
    requires Carried(before, now) && Settling(now, next, job) && k in before
    ensures k in now && k in next
    ensures next[k].status == now[k].status || (job.SettleJob? && job.pid == k && now[k].status.Pending? && next[k].status == job.target)
  {
  }

  lemma CommitKeepsThorough(plan: seq<Task>, via: set<nat>, st: State, next: State, i: nat)
    requires Sized(plan, st) && Sized(plan, next) && i < |plan| && Commits(plan, st, next, i)
    requires Thorough(plan, via, st) && BetsKept(st.core.db.parlays, next.core.db.parlays)
    requires i in via ==> Ready(plan[i], st.core.phases[i]) && !exists q :: q in st.core.db.parlays && MayCheck(plan, via, st, i, q)
    ensures Thorough(plan, via, next)
  {
    CommittedAfter(plan, st, next, i);
    hide Commits, Ready;
    forall j | 0 <= j < |plan| && j in via && next.core.phases[j].Committed? && plan[j].job.SettleJob?
      ensures forall q :: q in next.core.db.parlays && plan[j].job.pid in next.core.db.parlays[q].legs ==> q in next.found[j]
    {
      forall q | q in next.core.db.parlays && plan[j].job.pid in next.core.db.parlays[q].legs ensures q in next.found[j] {
        assert SameBet(st.core.db.parlays[q], next.core.db.parlays[q]);
        if j == i {
          assert !MayCheck(plan, via, st, i, q);
        }
      }
    }
  }

  lemma CommitKeepsLocks(plan: seq<Task>, via: set<nat>, st: State, next: State, i: nat)
    requires Sized(plan, st) && Sized(plan, next) && i < |plan| && Commits(plan, st, next, i)
    requires LocksOk(plan, st) && Findings(plan, via, st)
    ensures LocksOk(plan, next)
  {
    CommittedAfter(plan, st, next, i);
    assert next.core.log == st.core.log + [i];
    hide Commits;
    forall j, k | 0 <= j < |plan| && 0 <= k < |plan| && j != k && !next.core.phases[j].Rejected? && !next.core.phases[k].Rejected?
      ensures forall a, b :: a in next.found[j] && b in next.found[k] ==> Ordered(next, j, a, k, b)
    {
      forall a, b | a in next.found[j] && b in next.found[k] ensures Ordered(next, j, a, k, b) {
        assert Ordered(st, j, a, k, b);
        assert FindingOk(plan, via, st, j, a) && FindingOk(plan, via, st, k, b);
        var f, g := st.found[j][a], st.found[k][b];
        assert next.core.log[..f.seen] == st.core.log[..f.seen] && next.core.log[..g.seen] == st.core.log[..g.seen];
      }
    }
  }

  /** A settlement about to move money holds its owner's balance. */
  lemma MoneyHeld(db: Db, t: Task, ph: Phase)
    requires Local(db, t, ph) && Ready(t, ph) && t.job.pid in db.picks && db.picks[t.job.pid].status.Pending? && t.job.target.Terminal()
    requires Financial(db.picks[t.job.pid])
    ensures BalanceOf(ph) == Some(DEFAULT_USER)
  {
    assert ph.Written?;
    SettleWritesWallet(db, t.job.pid, t.job.target, t.job.closing, t.job.now, t.at);
    hide SettleRead;
  }

  lemma CommitKeepsMoney(plan: seq<Task>, via: set<nat>, before: map<PickId, Pick>, st: State, next: State, i: nat)
    requires Sized(plan, st) && Sized(plan, next) && i < |plan| && Commits(plan, st, next, i) && Orderly(plan, st.core)
    requires MoneyLocked(plan, before, st) && Findings(plan, via, st) && SettledOk(plan, st) && Carried(before, st.core.db.picks)
    ensures MoneyLocked(plan, before, next)
  {
    UnfinishedIsUnlogged(plan, st.core, i);
    assert Local(st.core.db, plan[i], st.core.phases[i]);
    hide Orderly, Overlay, Findings;
    forall k | 0 <= k < |plan| && MovedMoney(plan, before, next, k)
      ensures forall q :: q in next.found[k] ==> next.found[k][q].lock == Some(DEFAULT_USER)
    {
      if k == i {
        MovedNow(plan, st, next, i, before);
        MoneyHeldByFindings(plan, via, st, i);
      } else {
        MovedBefore(plan, st, next, i, before, k);
      }
    }
  }

  lemma MovedNow(plan: seq<Task>, st: State, next: State, i: nat, before: map<PickId, Pick>)
    requires Sized(plan, st) && Sized(plan, next) && i < |plan| && Commits(plan, st, next, i) && SettledOk(plan, st)
    requires i !in st.core.log && MovedMoney(plan, before, next, i) && Carried(before, st.core.db.picks)
    ensures plan[i].job.SettleJob? && plan[i].job.pid in st.core.db.picks && st.core.db.picks[plan[i].job.pid].status.Pending?
    ensures plan[i].job.target.Terminal() && Financial(st.core.db.picks[plan[i].job.pid])
  {
    hide Overlay, Settling;
    forall n | 0 <= n < |st.core.log| ensures next.core.log[n] != i {
      assert next.core.log[n] == st.core.log[n] && st.core.log[n] in st.core.log;
    }
  }

  lemma MovedBefore(plan: seq<Task>, st: State, next: State, i: nat, before: map<PickId, Pick>, k: nat)
    requires Sized(plan, st) && Sized(plan, next) && i < |plan| && Commits(plan, st, next, i) && SettledOk(plan, st)
    requires k < |plan| && k != i && MovedMoney(plan, before, next, k)
    ensures MovedMoney(plan, before, st, k) && next.found == st.found
  {
    hide Overlay, Settling;
  }

  lemma MoneyHeldByFindings(plan: seq<Task>, via: set<nat>, st: State, i: nat)
    requires Sized(plan, st) && i < |plan| && Findings(plan, via, st) && Local(st.core.db, plan[i], st.core.phases[i])
    requires !st.core.phases[i].Finished() && plan[i].job.SettleJob? && plan[i].job.target.Terminal()
    requires plan[i].job.pid in st.core.db.picks && st.core.db.picks[plan[i].job.pid].status.Pending? && Financial(st.core.db.picks[plan[i].job.pid])
    ensures forall q :: q in st.found[i] ==> st.found[i][q].lock == Some(DEFAULT_USER)
  {
    forall q | q in st.found[i] ensures st.found[i][q].lock == Some(DEFAULT_USER) {
      assert FindingOk(plan, via, st, i, q);
      hide Local, FoundFor, SawLeg;
      MoneyHeld(st.core.db, plan[i], st.core.phases[i]);
    }
  }

  // ---- Every move ----

  /** A move that commits nothing changes one phase at most. */
  ghost predicate Moves(plan: seq<Task>, st: State, next: State, i: nat, ph: Phase)
    requires Sized(plan, st) && i < |plan|
  {
    next == st.(core := st.core.(phases := st.core.phases[i := ph])) && !ph.Committed? && !st.core.phases[i].Finished()
  }

  lemma MoveKeeps(db: Db, plan: seq<Task>, via: set<nat>, st: State, next: State, i: nat, ph: Phase)
    requires Inv(db, plan, via, st) && i < |plan| && Moves(plan, st, next, i, ph) && Orderly(plan, next.core)
    requires ph.Rejected? || !Ready(plan[i], st.core.phases[i])
    ensures Inv(db, plan, via, next)
  {
    hide Orderly, ParlaysConsistent, Carried, BetsKept, MovedMoney;
    assert Findings(plan, via, next) by {
      hide LocksOk, AllSettled, DecidedOk, Thorough, MoneyLocked, SettledOk;
      forall j, q | 0 <= j < |plan| && q in next.found[j] ensures FindingOk(plan, via, next, j, q) {
        assert FindingOk(plan, via, st, j, q);
        hide FoundFor, Ready, LegStatus;
      }
    }
    hide Findings, Ready;
    assert LocksOk(plan, next) by { MoveKeepsLocks(plan, st, next, i, ph); }
    assert MoneyLocked(plan, db.picks, next) by { MoveKeepsMoney(plan, db.picks, st, next); }
  }

  lemma MoveKeepsMoney(plan: seq<Task>, before: map<PickId, Pick>, st: State, next: State)
    requires Sized(plan, st) && Sized(plan, next) && MoneyLocked(plan, before, st)
    requires next.core.log == st.core.log && next.settled == st.settled && next.found == st.found
    ensures MoneyLocked(plan, before, next)
  {
    assert forall i :: 0 <= i < |plan| ==> (MovedMoney(plan, before, next, i) <==> MovedMoney(plan, before, st, i));
  }

  lemma MoveKeepsLocks(plan: seq<Task>, st: State, next: State, i: nat, ph: Phase)
    requires Sized(plan, st) && Sized(plan, next) && i < |plan| && Moves(plan, st, next, i, ph) && LocksOk(plan, st)
    ensures LocksOk(plan, next)
  {
    forall j, k | 0 <= j < |plan| && 0 <= k < |plan| && j != k && !next.core.phases[j].Rejected? && !next.core.phases[k].Rejected?
      ensures forall a, b :: a in next.found[j] && b in next.found[k] ==> Ordered(next, j, a, k, b)
    {
      forall a, b | a in next.found[j] && b in next.found[k] ensures Ordered(next, j, a, k, b) {
        assert Ordered(st, j, a, k, b);
      }
    }
  }

  lemma InvParts(db: Db, plan: seq<Task>, via: set<nat>, st: State)
    requires Inv(db, plan, via, st)
    ensures Sized(plan, st) && Orderly(plan, st.core) && ParlaysConsistent(st.core.db)
    ensures Findings(plan, via, st) && SettledOk(plan, st) && AllSettled(db.picks, st) && DecidedOk(plan, db.parlays, st)
    ensures Thorough(plan, via, st) && LocksOk(plan, st) && MoneyLocked(plan, db.picks, st) && Carried(db.picks, st.core.db.picks)
  {
  }

  lemma CommitKeeps(db: Db, plan: seq<Task>, via: set<nat>, st: State, next: State, i: nat)
    requires Inv(db, plan, via, st) && Endpoint(plan, via) && i < |plan| && Sized(plan, next) && Commits(plan, st, next, i)
    requires Orderly(plan, next.core)
    requires i in via ==> Ready(plan[i], st.core.phases[i]) && !exists q :: q in st.core.db.parlays && MayCheck(plan, via, st, i, q)
    ensures Inv(db, plan, via, next)
  {
    InvParts(db, plan, via, st);
    hide Orderly, ParlaysConsistent, Findings, SettledOk, AllSettled, DecidedOk, Thorough, LocksOk, MoneyLocked, Carried, BetsKept, Commits,
      Endpoint, Ready, MayCheck, Sized;
    CommitKeepsConsistent(plan, via, st, next, i);
    CommitKeepsFindings(plan, via, st, next, i);
    CommitKeepsSettled(plan, db.picks, st, next, i);
    CommitKeepsDecided(plan, via, db.parlays, st, next, i);
    CommitKeepsThorough(plan, via, st, next, i);
    CommitKeepsLocks(plan, via, st, next, i);
    CommitKeepsMoney(plan, via, db.picks, st, next, i);
  }

  /** Parlay rows aside, a move of the endpoint's machine is a move of the workers'. */
  lemma PerformIsOrderly(plan: seq<Task>, via: set<nat>, st: State, c: Choice)
    requires Sized(plan, st) && Orderly(plan, st.core) && FreshIds(plan)
    ensures Orderly(plan, Perform(plan, via, st, Do(c)).core)
  {
    StepKeepsOrderly(plan, st.core, c);
    var next := Step(plan, st.core, c);
    hide Orderly, Step, MayCheck, Ready, FreshIds;
    if c.worker < |plan| {
      ParlaysAside(plan, next, Overlay(next.db.parlays, st.found[c.worker]));
    }
  }

  lemma ParlaysAside(plan: seq<Task>, s: System, parlays: map<ParlayId, Parlay>)
    requires Orderly(plan, s)
    ensures Orderly(plan, s.(db := s.db.(parlays := parlays)))
  {
    var db := s.db.(parlays := parlays);
    IntactWithout(s.db, parlays);
    hide Intact, Exclusive, LogOk;
    forall i | 0 <= i < |plan| ensures Local(db, plan[i], s.phases[i]) {
      assert Local(s.db, plan[i], s.phases[i]);
      LocalWithout(s.db, parlays, plan[i], s.phases[i]);
      hide Local;
    }
  }

  lemma IntactWithout(db: Db, parlays: map<ParlayId, Parlay>)
    requires Intact(db)
    ensures Intact(db.(parlays := parlays))
  {
    hide PickOk, LockOf, SettledRight, Settlements, EventsOf, ExpectedEvents;
  }

  lemma LocalWithout(db: Db, parlays: map<ParlayId, Parlay>, t: Task, ph: Phase)
    requires Local(db, t, ph)
    ensures Local(db.(parlays := parlays), t, ph)
  {
    hide Latest, Total, CreateWrite, SettleWrite, RepairedWallet, Judge;
  }

  lemma PerformKeeps(db: Db, plan: seq<Task>, via: set<nat>, st: State, m: Move)
    requires Inv(db, plan, via, st) && Endpoint(plan, via) && FreshIds(plan)
    ensures Inv(db, plan, via, Perform(plan, via, st, m))
  {
    InvParts(db, plan, via, st);
    match m
    case Check(i, q) =>
      hide Inv, MayCheck, Orderly, Findings;
      if MayCheck(plan, via, st, i, q) { CheckKeeps(db, plan, via, st, i, q); }
    case Do(c) =>
      PerformIsOrderly(plan, via, st, c);
      hide Inv, MayCheck, Orderly, Findings, Endpoint, Ready, FreshIds;
      DoKeeps(db, plan, via, st, c);
  }

  lemma MoveIs(plan: seq<Task>, via: set<nat>, st: State, c: Choice)
    requires Sized(plan, st) && c.worker < |plan| && !st.core.phases[c.worker].Finished()
    requires c.Go? ==> !Next(plan, st.core, c.worker).Commit?
    ensures
      var next := Perform(plan, via, st, Do(c));
      || next == st
      || exists ph :: Moves(plan, st, next, c.worker, ph) && (ph.Rejected? || !Ready(plan[c.worker], st.core.phases[c.worker]))
  {
    var i, next := c.worker, Perform(plan, via, st, Do(c));
    if c.Go? && Ready(plan[i], st.core.phases[i]) { ReadyCommits(plan, st.core, i); }
    var ready := Ready(plan[i], st.core.phases[i]);
    if c.Go? && Next(plan, st.core, i).Become? { NextIsUncommitted(plan, st.core, i); }
    hide Next, Ready, MayCheck;
    if c.Abort? {
      assert Moves(plan, st, next, i, Rejected);
    } else if Next(plan, st.core, i).Become? {
      assert Moves(plan, st, next, i, Next(plan, st.core, i).phase);
    } else {
      assert next == st;
    }
  }

  lemma DoKeeps(db: Db, plan: seq<Task>, via: set<nat>, st: State, c: Choice)
    requires Inv(db, plan, via, st) && Endpoint(plan, via) && Sized(plan, st) && Orderly(plan, st.core) && Findings(plan, via, st)
    requires Orderly(plan, Perform(plan, via, st, Do(c)).core)
    ensures Inv(db, plan, via, Perform(plan, via, st, Do(c)))
  {
    var i, next := c.worker, Perform(plan, via, st, Do(c));
    assert i in via ==> i < |plan| && plan[i].job.SettleJob?;
    hide Orderly, Inv, Findings, Endpoint, MayCheck, Next, Ready;
    if i < |plan| && !st.core.phases[i].Finished() && next != st {
      if c.Go? && Next(plan, st.core, i).Commit? {
        CommitSettles(plan, st.core, i);
        CommitIs(plan, via, st, c);
        CommitKeeps(db, plan, via, st, next, i);
      } else {
        MoveIs(plan, via, st, c);
        var ph :| Moves(plan, st, next, i, ph) && (ph.Rejected? || !Ready(plan[i], st.core.phases[i]));
        MoveKeeps(db, plan, via, st, next, i, ph);
      }
    } else {
      FinishedStays(plan, via, st, c);
    }
  }

  lemma FinishedStays(plan: seq<Task>, via: set<nat>, st: State, c: Choice)
    requires Sized(plan, st)
    ensures c.worker >= |plan| || st.core.phases[c.worker].Finished() ==> Perform(plan, via, st, Do(c)) == st
  {
    hide Next, MayCheck;
  }

  /** The invariant of every schedule of workers and checks. */
  lemma {:induction false} PerformedHolds(db: Db, plan: seq<Task>, via: set<nat>, ms: seq<Move>)
    requires Intact(db) && ParlaysConsistent(db) && Endpoint(plan, via) && FreshIds(plan)
    ensures Inv(db, plan, via, Performed(plan, via, Opening(db, plan), ms))
  {
    hide Inv, Intact, ParlaysConsistent, Endpoint, FreshIds, Perform, Opening;
    if ms == [] {
      OpeningHolds(db, plan, via);
    } else {
      var n := |ms| - 1;
      PerformedHolds(db, plan, via, ms[..n]);
      PerformKeeps(db, plan, via, Performed(plan, via, Opening(db, plan), ms[..n]), ms[n]);
    }
  }

  // ---- Which schedules leave a parlay open ----

  lemma {:induction false} BetsStay(db: Db, plan: seq<Task>, via: set<nat>, ms: seq<Move>)
    requires Intact(db) && ParlaysConsistent(db) && Endpoint(plan, via) && FreshIds(plan)
    ensures
      var st := Performed(plan, via, Opening(db, plan), ms);
      Intact(st.core.db) && ParlaysConsistent(st.core.db) && BetsKept(db.parlays, st.core.db.parlays) && Carried(db.picks, st.core.db.picks)
  {
    PerformedHolds(db, plan, via, ms);
    var st := Performed(plan, via, Opening(db, plan), ms);
    InvParts(db, plan, via, st);
    OrderlyIsIntact(plan, st.core);
    hide Performed, Opening, Findings, LocksOk, Orderly, ParlaysConsistent, BetsKept, Carried, Intact;
  }

  lemma NoReasonIff(p: Parlay, picks: map<PickId, Pick>)
    requires Consistent(p, picks)
    ensures !OpenForAReason(p, picks) <==> p.status.Open? && Closable(p.legs, picks)
  {
    if !SomeLeg(picks, p.legs, Status.Pending) && !SomeLeg(picks, p.legs, Status.Lost) && !SomeLeg(picks, p.legs, Status.Push) && !SomeLeg(picks, p.legs, Status.Void) {
      forall k | 0 <= k < |p.legs| ensures LegStatus(picks, p.legs[k]) == Status.Won {
        assert SomeLeg(picks, p.legs, LegStatus(picks, p.legs[k]));
      }
    }
    if EveryLeg(picks, p.legs, Status.Won) {
      assert LegStatus(picks, p.legs[0]) == Status.Won;
    }
  }

  /** The check of worker i came before the commit that settled another leg. */
  ghost predicate Missed(plan: seq<Task>, st: State, i: nat, q: ParlayId)
    requires Sized(plan, st) && i < |plan| && plan[i].job.SettleJob? && q in st.found[i] && q in st.core.db.parlays
  {
    exists leg :: leg in st.core.db.parlays[q].legs && leg != plan[i].job.pid && leg in st.settled && st.settled[leg] >= st.found[i][q].seen
  }

  /** Worker i came through the endpoint for a leg of the parlay, and committed. */
  ghost predicate Served(plan: seq<Task>, via: set<nat>, st: State, i: nat, q: ParlayId)
    requires Sized(plan, st)
  {
    && i < |plan| && i in via && st.core.phases[i].Committed? && plan[i].job.SettleJob?
    && q in st.core.db.parlays && plan[i].job.pid in st.core.db.parlays[q].legs
  }

  lemma SameStatusesClose(legs: seq<PickId>, a: map<PickId, Pick>, b: map<PickId, Pick>)
    requires forall leg :: leg in legs ==> LegStatus(a, leg) == LegStatus(b, leg)
    ensures Closable(legs, a) <==> Closable(legs, b)
  {
    forall s ensures SomeLeg(a, legs, s) <==> SomeLeg(b, legs, s) {
    }
    assert EveryLeg(a, legs, Status.Won) <==> EveryLeg(b, legs, Status.Won);
  }

  /** On a parlay that could be closed now, a committed check decided unless it missed a leg. */
  lemma DecidedUnlessMissed(db: Db, plan: seq<Task>, via: set<nat>, st: State, i: nat, q: ParlayId)
    requires Inv(db, plan, via, st) && Served(plan, via, st, i, q) && Closable(st.core.db.parlays[q].legs, st.core.db.picks)
    ensures q in st.found[i]
    ensures Missed(plan, st, i, q) ==> st.found[i][q].update.None?
    ensures st.core.db.parlays[q].status.Open? && st.found[i][q].update.None? ==> Missed(plan, st, i, q)
  {
    InvParts(db, plan, via, st);
    assert FindingOk(plan, via, st, i, q);
    var f, p := st.found[i][q], st.core.db.parlays[q];
    hide Inv, Orderly, Findings, Closable, Consistent, SomeLeg;
    if leg :| leg in p.legs && leg != plan[i].job.pid && leg in st.settled && st.settled[leg] >= f.seen {
      assert SawLeg(st, f, leg);
      PendingLeg(p.legs, f.picks, leg);
    } else {
      forall leg | leg in p.legs ensures LegStatus(f.picks, leg) == LegStatus(st.core.db.picks, leg) {
        ClosableLeg(p.legs, st.core.db.picks, leg);
        assert leg != plan[i].job.pid ==> SawLeg(st, f, leg);
      }
      SameStatusesClose(p.legs, f.picks, st.core.db.picks);
    }
  }

  lemma PendingLeg(legs: seq<PickId>, picks: map<PickId, Pick>, leg: PickId)
    requires leg in legs && LegStatus(picks, leg).Pending?
    ensures SomeLeg(picks, legs, Status.Pending)
  {
    var k :| 0 <= k < |legs| && legs[k] == leg;
  }

  /** Every committed resolve of a leg missed another one. */
  ghost predicate AllMissed(plan: seq<Task>, via: set<nat>, st: State, q: ParlayId)
    requires Sized(plan, st)
  {
    forall i: nat :: Served(plan, via, st, i, q) ==> q in st.found[i] && Missed(plan, st, i, q)
  }

  lemma FindersServed(plan: seq<Task>, via: set<nat>, st: State, q: ParlayId, i: nat)
    requires Sized(plan, st) && Findings(plan, via, st) && i < |plan| && st.core.phases[i].Committed? && q in st.found[i]
    ensures Served(plan, via, st, i, q)
  {
    assert FindingOk(plan, via, st, i, q);
  }

  /** On a parlay that could be closed now, it is open exactly when every check missed a leg. */
  lemma OpenIffAllMissed(db: Db, plan: seq<Task>, via: set<nat>, st: State, q: ParlayId)
    requires Inv(db, plan, via, st) && q in db.parlays && db.parlays[q].status.Open? && q in st.core.db.parlays
    requires Closable(st.core.db.parlays[q].legs, st.core.db.picks)
    ensures st.core.db.parlays[q].status.Open? <==> AllMissed(plan, via, st, q)
  {
    InvParts(db, plan, via, st);
    hide Inv, Orderly, ParlaysConsistent, LocksOk, MoneyLocked, SettledOk, AllSettled, Missed, Findings, Closable, BetsKept, Thorough;
    forall i: nat | Served(plan, via, st, i, q)
      ensures q in st.found[i]
      ensures Missed(plan, st, i, q) ==> st.found[i][q].update.None?
      ensures st.core.db.parlays[q].status.Open? && st.found[i][q].update.None? ==> Missed(plan, st, i, q)
    {
      DecidedUnlessMissed(db, plan, via, st, i, q);
    }
    forall i | 0 <= i < |plan| && st.core.phases[i].Committed? && q in st.found[i] ensures Served(plan, via, st, i, q) {
      FindersServed(plan, via, st, q, i);
    }
    hide Served;
  }

  lemma LeftOpen(db: Db, plan: seq<Task>, via: set<nat>, st: State, q: ParlayId)
    requires Inv(db, plan, via, st) && q in db.parlays && db.parlays[q].status.Open?
    ensures q in st.core.db.parlays
    ensures
      var p, picks := st.core.db.parlays[q], st.core.db.picks;
      !OpenForAReason(p, picks) <==> Closable(p.legs, picks) && AllMissed(plan, via, st, q)
  {
    InvParts(db, plan, via, st);
    var p, picks := st.core.db.parlays[q], st.core.db.picks;
    assert Consistent(p, picks);
    hide Inv, Orderly, ParlaysConsistent, Consistent, OpenForAReason, LocksOk, MoneyLocked, SettledOk, AllSettled, Findings, AllMissed, Closable;
    NoReasonIff(p, picks);
    if Closable(p.legs, picks) {
      OpenIffAllMissed(db, plan, via, st, q);
    }
  }

  /** Over all schedules of any number of workers: a parlay that was open ends open for no reason if and
      only if its legs call for a decision and every committed resolve of one of them made its check
      before the commit that settled another. */
  lemma LeftOpenIff(db: Db, plan: seq<Task>, via: set<nat>, ms: seq<Move>, q: ParlayId)
    requires Intact(db) && ParlaysConsistent(db) && Endpoint(plan, via) && FreshIds(plan)
    requires q in db.parlays && db.parlays[q].status.Open?
    ensures
      var st := Performed(plan, via, Opening(db, plan), ms);
      && q in st.core.db.parlays
      && var p, picks := st.core.db.parlays[q], st.core.db.picks;
      && p.legs == db.parlays[q].legs
      && (!OpenForAReason(p, picks) <==> Closable(p.legs, picks) && AllMissed(plan, via, st, q))
  {
    hide Inv, Performed, Opening, Intact, ParlaysConsistent, Endpoint, FreshIds, AllMissed, OpenForAReason, Closable, Carried;
    PerformedHolds(db, plan, via, ms);
    BetsStay(db, plan, via, ms);
    LeftOpen(db, plan, via, Performed(plan, via, Opening(db, plan), ms), q);
  }

  // ---- Legs settled under one balance lock ----

  lemma {:induction false} LastSettled(legs: seq<PickId>, settled: map<PickId, nat>) returns (last: PickId)
    requires exists leg :: leg in legs && leg in settled
    ensures last in legs && last in settled && forall other :: other in legs && other in settled ==> settled[other] <= settled[last]
  {
    var n := |legs| - 1;
    assert forall leg :: leg in legs <==> leg in legs[..n] || leg == legs[n] by { assert legs == legs[..n] + [legs[n]]; }
    last := legs[n];
    if exists leg :: leg in legs[..n] && leg in settled {
      var earlier := LastSettled(legs[..n], settled);
      if !(last in settled && settled[last] > settled[earlier]) {
        last := earlier;
      }
    }
  }

  lemma LogPositions(log: seq<nat>, k: nat, n: nat)
    requires k < |log| && n <= k && forall i, j :: 0 <= i < j < |log| ==> log[i] != log[j]
    ensures log[k] !in log[..n]
  {
  }

  lemma NotInPrefix(log: seq<nat>, k: nat, n: nat)
    requires k < |log| && n <= |log| && log[k] !in log[..n]
    ensures n <= k
  {
    assert forall m :: 0 <= m < n ==> log[..n][m] == log[m] && log[m] in log[..n];
  }

  /** Every settlement of a leg comes through the endpoint and moves its owner's money. */
  ghost predicate Funded(db: Db, plan: seq<Task>, via: set<nat>, legs: seq<PickId>) {
    forall i :: 0 <= i < |plan| && plan[i].job.SettleJob? && plan[i].job.pid in legs ==>
      i in via && plan[i].job.pid in db.picks && Financial(db.picks[plan[i].job.pid])
  }

  ghost predicate SawAll(plan: seq<Task>, via: set<nat>, st: State, i: nat, q: ParlayId)
    requires Sized(plan, st)
  {
    Served(plan, via, st, i, q) && q in st.found[i] && !Missed(plan, st, i, q)
  }

  /** The commit that settled a leg, and the check before it. */
  lemma SettlerOf(db: Db, plan: seq<Task>, via: set<nat>, st: State, q: ParlayId, leg: PickId)
    requires Inv(db, plan, via, st) && q in st.core.db.parlays && leg in st.core.db.parlays[q].legs && leg in st.settled
    requires Funded(db, plan, via, st.core.db.parlays[q].legs)
    ensures st.settled[leg] < |st.core.log|
    ensures
      var i := st.core.log[st.settled[leg]];
      && Served(plan, via, st, i, q) && plan[i].job.pid == leg && q in st.found[i]
      && st.found[i][q].lock == Some(DEFAULT_USER) && st.found[i][q].seen <= st.settled[leg]
  {
    InvParts(db, plan, via, st);
    assert LogOk(plan, st.core);
    hide Inv, Orderly, ParlaysConsistent, AllSettled, DecidedOk, LocksOk, LogOk, FoundFor, FoundBy, SawLeg;
    var i := st.core.log[st.settled[leg]];
    assert st.core.phases[i].Committed? by { LoggedIsCommitted(plan, st.core, st.settled[leg]); }
    assert MovedMoney(plan, db.picks, st, i);
    assert FindingOk(plan, via, st, i, q);
    NotInPrefix(st.core.log, st.settled[leg], st.found[i][q].seen);
  }

  lemma LoggedIsCommitted(plan: seq<Task>, s: System, k: nat)
    requires |plan| == |s.phases| && LogOk(plan, s) && k < |s.log|
    ensures s.log[k] < |plan| && s.phases[s.log[k]].Committed?
  {
  }

  /** Two legs settled under the lock: the later check saw the earlier commit. */
  lemma LaterCheckSees(db: Db, plan: seq<Task>, via: set<nat>, st: State, q: ParlayId, last: PickId, leg: PickId)
    requires Inv(db, plan, via, st) && q in st.core.db.parlays && last in st.core.db.parlays[q].legs && last in st.settled
    requires leg in st.core.db.parlays[q].legs && leg in st.settled && leg != last && st.settled[leg] <= st.settled[last]
    requires Funded(db, plan, via, st.core.db.parlays[q].legs)
    ensures
      var i := st.core.log[st.settled[last]];
      i < |plan| && q in st.found[i] && st.settled[leg] < st.found[i][q].seen
  {
    SettlerOf(db, plan, via, st, q, last);
    SettlerOf(db, plan, via, st, q, leg);
    InvParts(db, plan, via, st);
    assert LogOk(plan, st.core);
    var log := st.core.log;
    var i, j := log[st.settled[last]], log[st.settled[leg]];
    assert forall m, n :: 0 <= m < n < |log| ==> log[m] != log[n];
    hide Inv, Orderly, ParlaysConsistent, AllSettled, DecidedOk, LogOk, Findings, MoneyLocked, Thorough, Funded;
    assert Ordered(st, i, q, j, q);
    hide LocksOk, Served;
    var n, m := st.found[i][q].seen, st.found[j][q].seen;
    LogPositions(log, st.settled[last], m);
    if n <= st.settled[leg] { LogPositions(log, st.settled[leg], n); }
  }

  /** The check of the last leg to be settled saw the others. */
  lemma LastCheckSees(db: Db, plan: seq<Task>, via: set<nat>, st: State, q: ParlayId, last: PickId)
    requires Inv(db, plan, via, st) && q in st.core.db.parlays && last in st.core.db.parlays[q].legs && last in st.settled
    requires forall leg :: leg in st.core.db.parlays[q].legs && leg in st.settled ==> st.settled[leg] <= st.settled[last]
    requires Funded(db, plan, via, st.core.db.parlays[q].legs)
    ensures exists i: nat :: SawAll(plan, via, st, i, q)
  {
    InvParts(db, plan, via, st);
    hide Inv, Funded, Orderly, Findings, SettledOk, AllSettled, DecidedOk, Thorough, LocksOk, MoneyLocked, ParlaysConsistent, Served;
    SettlerOf(db, plan, via, st, q, last);
    var i := st.core.log[st.settled[last]];
    forall leg | leg in st.core.db.parlays[q].legs && leg != last && leg in st.settled ensures st.settled[leg] < st.found[i][q].seen {
      LaterCheckSees(db, plan, via, st, q, last, leg);
    }
    assert SawAll(plan, via, st, i, q);
  }

  lemma ConsistentAt(db: Db, q: ParlayId)
    requires ParlaysConsistent(db) && q in db.parlays
    ensures Consistent(db.parlays[q], db.picks)
  {
  }

  lemma UnsettledIsUnchanged(db: Db, plan: seq<Task>, via: set<nat>, st: State, q: ParlayId)
    requires Inv(db, plan, via, st) && ParlaysConsistent(db) && q in db.parlays && forall leg :: leg in db.parlays[q].legs ==> leg !in st.settled
    ensures Closable(db.parlays[q].legs, st.core.db.picks) <==> Closable(db.parlays[q].legs, db.picks)
  {
    InvParts(db, plan, via, st);
    var p := db.parlays[q];
    assert Consistent(p, db.picks);
    hide Inv, Orderly, ParlaysConsistent, Findings, SettledOk, DecidedOk, Thorough, LocksOk, MoneyLocked, Closable, Consistent;
    ConsistentHasLegs(p, db.picks);
    SameStatusesClose(p.legs, st.core.db.picks, db.picks);
  }

  /** Legs whose settlements all move their owner's money never miss each other, in any schedule: the
      owner's balance row is locked until the first commit, and the last check sees every leg. */
  lemma OneBalanceNeverMisses(db: Db, plan: seq<Task>, via: set<nat>, ms: seq<Move>, q: ParlayId)
    requires Intact(db) && ParlaysConsistent(db) && Endpoint(plan, via) && FreshIds(plan)
    requires q in db.parlays && db.parlays[q].status.Open? && OpenForAReason(db.parlays[q], db.picks)
    requires Funded(db, plan, via, db.parlays[q].legs)
    ensures
      var st := Performed(plan, via, Opening(db, plan), ms);
      q in st.core.db.parlays && OpenForAReason(st.core.db.parlays[q], st.core.db.picks)
  {
    hide Inv, Performed, Opening, Intact, ParlaysConsistent, Endpoint, FreshIds, OpenForAReason, Closable, Funded, Consistent, Missed, Served;
    var st := Performed(plan, via, Opening(db, plan), ms);
    ConsistentAt(db, q);
    PerformedHolds(db, plan, via, ms);
    LeftOpenIff(db, plan, via, ms, q);
    NoReasonIff(db.parlays[q], db.picks);
    var legs := db.parlays[q].legs;
    if exists leg :: leg in legs && leg in st.settled {
      var last := LastSettled(legs, st.settled);
      LastCheckSees(db, plan, via, st, q, last);
      var i: nat :| SawAll(plan, via, st, i, q);
    } else {
      UnsettledIsUnchanged(db, plan, via, st, q);
    }
  }

  // ---- Two resolves ----

  /** The two outcomes and the other legs call for a decision. */
  ghost predicate Decides(legs: seq<PickId>, picks: map<PickId, Pick>, a: PickId, x: Status, b: PickId, y: Status) {
    && (forall leg :: leg in legs && leg != a && leg != b ==> !LegStatus(picks, leg).Pending?)
    && (|| x.Lost? || y.Lost? || (exists leg :: leg in legs && leg != a && leg != b && LegStatus(picks, leg).Lost?)
        || (x.Won? && y.Won? && forall leg :: leg in legs && leg != a && leg != b ==> LegStatus(picks, leg).Won?))
  }

  lemma DecidesIff(legs: seq<PickId>, before: map<PickId, Pick>, after: map<PickId, Pick>, a: PickId, x: Status, b: PickId, y: Status)
    requires a in legs && b in legs && a != b && x.Terminal() && y.Terminal()
    requires LegStatus(after, a) == x && LegStatus(after, b) == y
    requires forall leg :: leg in legs && leg != a && leg != b ==> LegStatus(after, leg) == LegStatus(before, leg)
    ensures Closable(legs, after) <==> Decides(legs, before, a, x, b, y)
  {
    SomeLegIs(legs, after, Status.Pending);
    SomeLegIs(legs, after, Status.Lost);
    assert EveryLeg(after, legs, Status.Won) <==> forall leg :: leg in legs ==> LegStatus(after, leg) == Status.Won;
    hide SomeLeg, EveryLeg, LegStatus;
  }

  lemma SomeLegIs(legs: seq<PickId>, picks: map<PickId, Pick>, s: Status)
    ensures SomeLeg(picks, legs, s) <==> exists leg :: leg in legs && LegStatus(picks, leg) == s
  {
    if leg :| leg in legs && LegStatus(picks, leg) == s {
      var k :| 0 <= k < |legs| && legs[k] == leg;
    }
  }

  /** Two resolves of different pending legs of an open parlay. */
  ghost predicate Pair(db: Db, plan: seq<Task>, q: ParlayId) {
    && |plan| == 2 && Endpoint(plan, {0, 1}) && plan[0].job.SettleJob? && plan[1].job.SettleJob?
    && plan[0].job.target.Terminal() && plan[1].job.target.Terminal() && plan[0].job.pid != plan[1].job.pid
    && plan[0].job.pid in db.picks && db.picks[plan[0].job.pid].status.Pending?
    && plan[1].job.pid in db.picks && db.picks[plan[1].job.pid].status.Pending?
    && q in db.parlays && db.parlays[q].status.Open? && plan[0].job.pid in db.parlays[q].legs && plan[1].job.pid in db.parlays[q].legs
  }

  /** One of the two, once committed. */
  lemma OneOfPair(db: Db, plan: seq<Task>, st: State, q: ParlayId, i: nat)
    requires Pair(db, plan, q) && Inv(db, plan, {0, 1}, st) && i < 2 && st.core.phases[i].Committed?
    ensures Served(plan, {0, 1}, st, i, q) && q in st.found[i]
    ensures plan[i].job.pid in st.settled && LegStatus(st.core.db.picks, plan[i].job.pid) == plan[i].job.target
  {
    hide Inv, Orderly, ParlaysConsistent, LocksOk, MoneyLocked, SettledOk, Findings, AllSettled, Endpoint, DecidedOk, BetsKept, FoundBy, Carried, LegStatus;
    InvParts(db, plan, {0, 1}, st);
    RowStays(db, plan, st, q);
    assert Served(plan, {0, 1}, st, i, q);
    FoundByServed(plan, {0, 1}, st, i, q);
    SettledByNow(db, st, plan[i].job.pid);
  }

  lemma RowStays(db: Db, plan: seq<Task>, st: State, q: ParlayId)
    requires Sized(plan, st) && DecidedOk(plan, db.parlays, st) && q in db.parlays
    ensures q in st.core.db.parlays && st.core.db.parlays[q].legs == db.parlays[q].legs
  {
  }

  lemma FoundByServed(plan: seq<Task>, via: set<nat>, st: State, i: nat, q: ParlayId)
    requires Sized(plan, st) && Findings(plan, via, st) && Thorough(plan, via, st) && Served(plan, via, st, i, q)
    ensures q in st.found[i] && LegStatus(st.core.db.picks, plan[i].job.pid) == plan[i].job.target
  {
    assert FindingOk(plan, via, st, i, q);
    hide FoundFor, SawLeg, Ready;
  }

  lemma SettledByNow(db: Db, st: State, k: PickId)
    requires AllSettled(db.picks, st) && k in db.picks && db.picks[k].status.Pending? && LegStatus(st.core.db.picks, k).Terminal()
    ensures k in st.settled
  {
  }

  /** Nothing else is settled. */
  lemma PairSettles(db: Db, plan: seq<Task>, st: State, q: ParlayId)
    requires Pair(db, plan, q) && Inv(db, plan, {0, 1}, st)
    ensures Sized(plan, st) && forall k :: k in st.settled ==> k == plan[0].job.pid || k == plan[1].job.pid
  {
    hide Inv, Orderly, ParlaysConsistent, Findings, LocksOk, MoneyLocked, DecidedOk, AllSettled, Endpoint, Thorough, Carried;
    InvParts(db, plan, {0, 1}, st);
    assert |plan| == 2 && plan[0].job.SettleJob? && plan[1].job.SettleJob?;
    hide Pair;
    forall k | k in st.settled ensures k == plan[0].job.pid || k == plan[1].job.pid {
      assert st.core.log[st.settled[k]] == 0 || st.core.log[st.settled[k]] == 1;
    }
  }

  lemma PairMisses(db: Db, plan: seq<Task>, st: State, q: ParlayId)
    requires Pair(db, plan, q) && Sized(plan, st) && Served(plan, {0, 1}, st, 0, q) && Served(plan, {0, 1}, st, 1, q)
    requires q in st.found[0] && q in st.found[1]
    requires plan[0].job.pid in st.settled && plan[1].job.pid in st.settled
    requires forall k :: k in st.settled ==> k == plan[0].job.pid || k == plan[1].job.pid
    ensures AllMissed(plan, {0, 1}, st, q) <==>
              st.settled[plan[1].job.pid] >= st.found[0][q].seen && st.settled[plan[0].job.pid] >= st.found[1][q].seen
  {
    assert plan[0].job.pid != plan[1].job.pid;
    assert plan[0].job.pid in st.core.db.parlays[q].legs && plan[1].job.pid in st.core.db.parlays[q].legs;
    hide Endpoint, Pair;
    assert Missed(plan, st, 0, q) <==> st.settled[plan[1].job.pid] >= st.found[0][q].seen;
    assert Missed(plan, st, 1, q) <==> st.settled[plan[0].job.pid] >= st.found[1][q].seen;
    hide Missed;
    assert forall i: nat :: Served(plan, {0, 1}, st, i, q) ==> i == 0 || i == 1;
    hide Served;
  }

  /** Two resolves of different pending legs, both committed, in any schedule: their parlay ends open for no
      reason if and only if each check came before the other's commit, and the two outcomes with the other
      legs call for a decision. */
  lemma TwoResolvesIff(db: Db, plan: seq<Task>, ms: seq<Move>, q: ParlayId)
    requires Intact(db) && ParlaysConsistent(db) && FreshIds(plan) && Pair(db, plan, q)
    requires Performed(plan, {0, 1}, Opening(db, plan), ms).core.phases == [Committed, Committed]
    ensures
      var st, a, b := Performed(plan, {0, 1}, Opening(db, plan), ms), plan[0].job, plan[1].job;
      && q in st.core.db.parlays && q in st.found[0] && q in st.found[1] && a.pid in st.settled && b.pid in st.settled
      && (!OpenForAReason(st.core.db.parlays[q], st.core.db.picks) <==>
            && st.settled[b.pid] >= st.found[0][q].seen && st.settled[a.pid] >= st.found[1][q].seen
            && Decides(db.parlays[q].legs, db.picks, a.pid, a.target, b.pid, b.target))
  {
    var st := Performed(plan, {0, 1}, Opening(db, plan), ms);
    hide Inv, Performed, Opening, Intact, ParlaysConsistent, Endpoint, FreshIds, OpenForAReason, Closable, Decides, AllMissed, Missed, Served;
    PerformedHolds(db, plan, {0, 1}, ms);
    LeftOpenIff(db, plan, {0, 1}, ms, q);
    OneOfPair(db, plan, st, q, 0);
    OneOfPair(db, plan, st, q, 1);
    PairSettles(db, plan, st, q);
    PairMisses(db, plan, st, q);
    PairDecides(db, plan, st, q);
  }

  lemma PairDecides(db: Db, plan: seq<Task>, st: State, q: ParlayId)
    requires Pair(db, plan, q) && Inv(db, plan, {0, 1}, st) && ParlaysConsistent(db)
    requires LegStatus(st.core.db.picks, plan[0].job.pid) == plan[0].job.target && LegStatus(st.core.db.picks, plan[1].job.pid) == plan[1].job.target
    ensures Closable(db.parlays[q].legs, st.core.db.picks)
       <==> Decides(db.parlays[q].legs, db.picks, plan[0].job.pid, plan[0].job.target, plan[1].job.pid, plan[1].job.target)
  {
    hide Inv, ParlaysConsistent, Endpoint, Closable, Decides, LegStatus;
    PairSettles(db, plan, st, q);
    var legs := db.parlays[q].legs;
    forall leg | leg in legs && leg != plan[0].job.pid && leg != plan[1].job.pid ensures LegStatus(st.core.db.picks, leg) == LegStatus(db.picks, leg) {
      OtherLegStays(db, plan, {0, 1}, st, q, leg);
    }
    DecidesIff(legs, db.picks, st.core.db.picks, plan[0].job.pid, plan[0].job.target, plan[1].job.pid, plan[1].job.target);
  }

  lemma OtherLegStays(db: Db, plan: seq<Task>, via: set<nat>, st: State, q: ParlayId, leg: PickId)
    requires Inv(db, plan, via, st) && ParlaysConsistent(db) && q in db.parlays && leg in db.parlays[q].legs && leg !in st.settled
    ensures LegStatus(st.core.db.picks, leg) == LegStatus(db.picks, leg)
  {
    InvParts(db, plan, via, st);
    ConsistentAt(db, q);
    ConsistentHasLegs(db.parlays[q], db.picks);
    hide Inv, Orderly, ParlaysConsistent, Findings, SettledOk, DecidedOk, Thorough, LocksOk, MoneyLocked, Consistent;
  }
}
