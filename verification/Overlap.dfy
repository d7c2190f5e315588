/** Two resolves that overlap: a bet lost under its owner's balance lock, and a suggestion voided without
    one. Neither check sees the other leg settled, and their parlay stays open for no reason. */
module Overlap {
  import opened Domain
  import opened Tables
  import opened Reconciliation
  import opened Engine
  import opened Invariants
  import opened Runs
  import opened History
  import opened Guards
  import opened ParlayRuns
  import opened Concurrency
  import opened Serializability
  import Alone
  import opened Resolves
  import Witnesses

  function Resolvers(): seq<Task> {
    [Task(SettleJob(0, Status.Lost, None, 10), 4), Task(SettleJob(1, Status.Void, None, 10), 5)]
  }

  /** The second worker writes and checks, then the first, and then both commit. */
  function Schedule(): seq<Move> {
    [Do(Go(1)), Do(Go(1)), Check(1, 0), Do(Go(0)), Do(Go(0)), Do(Go(0)), Do(Go(0)), Do(Go(0)), Do(Go(0)), Check(0, 0), Do(Go(1)), Do(Go(0))]
  }

  /** The tables with a parlay of a pending bet and a pending suggestion. */
  ghost predicate Combined(db: Db) {
    && GoodStart(db, 3) && EscrowExact(db) && ParlaysConsistent(db) && Witnesses.Placed(db, 0, 100)
    && 1 in db.picks && db.picks[1].status.Pending? && db.picks[1].owner.None? && db.picks[1].stake.None? && db.picks[1].createdAt == 0
    && db.parlays.Keys == {0} && db.parlays[0].status.Open? && db.parlays[0].legs == [0, 1]
  }

  /** Before any commit. */
  function Stage(db: Db, first: Phase, second: Phase, found: seq<map<ParlayId, Finding>>): State {
    State(System(db, [first, second], []), found, map[])
  }

  lemma DoBecomes(plan: seq<Task>, st: State, i: nat, next: Phase)
    requires Sized(plan, st) && i < |plan| && !st.core.phases[i].Finished() && !Ready(plan[i], st.core.phases[i])
    requires Next(plan, st.core, i) == Become(next)
    ensures Perform(plan, {0, 1}, st, Do(Go(i))) == st.(core := st.core.(phases := st.core.phases[i := next]))
  {
    hide Next, Ready, MayCheck;
  }

  lemma PerformedAdds(plan: seq<Task>, st: State, ms: seq<Move>, m: Move)
    requires Sized(plan, st)
    ensures Performed(plan, {0, 1}, st, ms + [m]) == Perform(plan, {0, 1}, Performed(plan, {0, 1}, st, ms), m)
  {
    assert (ms + [m])[..|ms|] == ms;
  }

  lemma PerformedOne(plan: seq<Task>, st: State, ms: seq<Move>, k: nat)
    requires Sized(plan, st) && k < |ms|
    ensures Performed(plan, {0, 1}, st, ms[..k + 1]) == Perform(plan, {0, 1}, Performed(plan, {0, 1}, st, ms[..k]), ms[k])
  {
    assert ms[..k + 1] == ms[..k] + [ms[k]];
    PerformedAdds(plan, st, ms[..k], ms[k]);
  }

  /** What each worker will write. */
  lemma Accepts(db: Db)
    requires Combined(db)
    ensures SettleRead(db, 0, Status.Lost, None, 10, 4).Ok? && SettleRead(db, 1, Status.Void, None, 10, 5).Ok?
    ensures U in db.wallets && DriftGate(db, U).None?
  {
    assert PicksOk(db) && OwnersOk(db) && TailTotals(db);
    hide Sound, InOrder, SettleRead, ParlaysConsistent, EscrowExact, DriftGate, TailTotals;
    EscrowCovers(db, 0);
    SettleDecides(db, 0, Status.Lost, None, 10, 4, 3);
    SettleDecides(db, 1, Status.Void, None, 10, 5, 3);
    GateOpen(db, 0, 3);
  }

  const U: UserId := DEFAULT_USER

  /** What the two will record, in a sound system. */
  lemma Records(db: Db)
    requires Combined(db)
    ensures SettleRead(db, 0, Status.Lost, None, 10, 4).Ok? && SettleRead(db, 1, Status.Void, None, 10, 5).Ok? && U in db.wallets
    ensures Recorded(db, Resolvers()[0], db.picks[0], Some(db.wallets[U])) == Phase.Written(SettleRead(db, 0, Status.Lost, None, 10, 4).value)
    ensures Recorded(db, Resolvers()[1], db.picks[1], None) == Phase.Written(SettleRead(db, 1, Status.Void, None, 10, 5).value)
    ensures Judge(db.picks[0], Status.Lost, Decided(db.ledger, 0), None).Proceed? && Judge(db.picks[1], Status.Void, Decided(db.ledger, 1), None).Proceed?
  {
    assert SettledOnce(db) && Announced(db);
    hide Sound, InOrder, SettleRead, ParlaysConsistent, EscrowExact, Recorded, Decided, WithClosing, SettledOnce, Announced;
    Accepts(db);
    JudgeIgnoresLedger(db, Resolvers()[0], db.picks[0]);
    JudgeIgnoresLedger(db, Resolvers()[1], db.picks[1]);
    RecordedIsSettleRead(db, Resolvers()[0], Some(db.wallets[U]));
    RecordedIsSettleRead(db, Resolvers()[1], None);
  }

  /** The second worker, up to its commit. */
  lemma SecondWrites(db: Db)
    requires Combined(db)
    ensures
      var p, w := db.picks[1], SettleRead(db, 1, Status.Void, None, 10, 5);
      && w.Ok?
      && Next(Resolvers(), System(db, [Start, Start], []), 1) == Become(PickHeld(p))
      && Next(Resolvers(), System(db, [Start, PickHeld(p)], []), 1) == Become(Phase.Written(w.value))
  {
    hide GoodStart, SettleRead, ParlaysConsistent, EscrowExact, Recorded, Decided, Judge;
    Records(db);
  }

  /** The first one, beside it. */
  lemma FirstWrites(db: Db, other: Write)
    requires Combined(db) && other.wallet.None?
    ensures
      var p, w := db.picks[0], SettleRead(db, 0, Status.Lost, None, 10, 4);
      && w.Ok? && U in db.wallets
      && var wallet, escrow := db.wallets[U], Escrow(db.picks, U);
      && Next(Resolvers(), System(db, [Start, Phase.Written(other)], []), 0) == Become(PickHeld(p))
      && Next(Resolvers(), System(db, [PickHeld(p), Phase.Written(other)], []), 0) == Become(GateWallet(Some(p), wallet))
      && Next(Resolvers(), System(db, [GateWallet(Some(p), wallet), Phase.Written(other)], []), 0) == Become(GateEscrow(Some(p), wallet, escrow))
      && Next(Resolvers(), System(db, [GateEscrow(Some(p), wallet, escrow), Phase.Written(other)], []), 0) == Become(AwaitBalance(Some(p)))
      && Next(Resolvers(), System(db, [AwaitBalance(Some(p)), Phase.Written(other)], []), 0) == Become(BalanceHeld(Some(p), wallet))
      && Next(Resolvers(), System(db, [BalanceHeld(Some(p), wallet), Phase.Written(other)], []), 0) == Become(Phase.Written(w.value))
  {
    hide GoodStart, SettleRead, ParlaysConsistent, EscrowExact, Recorded, Decided, Judge, Next, DriftGate, Escrow, Alone.Quiet;
    Records(db);
    Accepts(db);
    QuietBeside(db, other);
    Alone.WritesAlone(Resolvers(), System(db, [Start, Phase.Written(other)], []), 0, db.picks[0], SettleRead(db, 0, Status.Lost, None, 10, 4).value);
    forall ph ensures Alone.At(System(db, [Start, Phase.Written(other)], []), 0, ph) == System(db, [ph, Phase.Written(other)], []) {
    }
  }

  lemma QuietBeside(db: Db, other: Write)
    requires other.wallet.None?
    ensures Alone.Quiet(Resolvers(), System(db, [Start, Phase.Written(other)], []), 0)
  {
  }

  lemma UnfundedWrite(db: Db)
    requires Combined(db) && SettleRead(db, 1, Status.Void, None, 10, 5).Ok?
    ensures SettleRead(db, 1, Status.Void, None, 10, 5).value.wallet.None?
  {
    SettleWritesWallet(db, 1, Status.Void, None, 10, 5);
    hide SettleRead;
  }

  /** After a check. */
  lemma CheckFinds(db: Db, first: Phase, second: Phase, found: seq<map<ParlayId, Finding>>, i: nat)
    requires |found| == 2 && i < 2 && 0 in db.parlays && db.parlays[0].legs == [0, 1]
    requires Ready(Resolvers()[i], if i == 0 then first else second) && 0 !in found[i]
    ensures
      var f := Looked(Stage(db, first, second, found), if i == 0 then first else second, 0);
      && f.seen == 0
      && Perform(Resolvers(), {0, 1}, Stage(db, first, second, found), Check(i, 0))
         == Stage(db, first, second, found[i := With(found[i], 0, f)])
  {
    assert LookedSees(Stage(db, first, second, found), if i == 0 then first else second);
    hide Looked, Ready;
  }

  predicate LookedSees(st: State, ph: Phase) {
    0 in st.core.db.parlays ==> Looked(st, ph, 0).seen == |st.core.log|
  }

  lemma FreshStage(db: Db)
    ensures Performed(Resolvers(), {0, 1}, Opening(db, Resolvers()), []) == Stage(db, Start, Start, [map[], map[]])
  {
  }

  /** The state before the k-th move. */
  function Before(db: Db, k: nat): (st: State)
    requires k <= |Schedule()|
    ensures Sized(Resolvers(), st)
  {
    Performed(Resolvers(), {0, 1}, Opening(db, Resolvers()), Schedule()[..k])
  }

  lemma BeforeNext(db: Db, k: nat)
    requires k < |Schedule()|
    ensures Before(db, k + 1) == Perform(Resolvers(), {0, 1}, Before(db, k), Schedule()[k])
  {
    PerformedOne(Resolvers(), Opening(db, Resolvers()), Schedule(), k);
  }

  /** One statement of a worker that is not at its commit. */
  lemma Statement(db: Db, k: nat, i: nat, first: Phase, second: Phase, next: Phase, found: seq<map<ParlayId, Finding>>)
    requires k < |Schedule()| && Schedule()[k] == Do(Go(i)) && i < 2 && |found| == 2
    requires Before(db, k) == Stage(db, first, second, found)
    requires !(if i == 0 then first else second).Finished() && !Ready(Resolvers()[i], if i == 0 then first else second)
    requires Next(Resolvers(), System(db, [first, second], []), i) == Become(next)
    ensures Before(db, k + 1) == Stage(db, if i == 0 then next else first, if i == 0 then second else next, found)
  {
    hide Next, Ready, Before;
    BeforeNext(db, k);
    DoBecomes(Resolvers(), Before(db, k), i, next);
  }

  function SecondWrite(db: Db): Phase
    requires Combined(db)
  {
    SecondWrites(db);
    Phase.Written(SettleRead(db, 1, Status.Void, None, 10, 5).value)
  }

  function FirstWrite(db: Db): Phase
    requires Combined(db)
  {
    Accepts(db);
    Phase.Written(SettleRead(db, 0, Status.Lost, None, 10, 4).value)
  }

  lemma WritesReady(db: Db)
    requires Combined(db)
    ensures Ready(Resolvers()[0], FirstWrite(db)) && Ready(Resolvers()[1], SecondWrite(db))
    ensures !Ready(Resolvers()[1], Start) && !Ready(Resolvers()[1], PickHeld(db.picks[1]))
    ensures 0 in db.parlays && db.parlays[0].legs == [0, 1] && db.parlays.Keys == {0} && 0 in db.picks && db.picks[0].status.Pending?
  {
    hide SettleRead;
  }

  lemma AfterTwoStatements(db: Db)
    requires Combined(db)
    ensures Before(db, 2) == Stage(db, Start, SecondWrite(db), [map[], map[]])
  {
    hide Next, Before, SettleRead, Combined, Ready, SecondWrite;
    SecondSteps(db);
    WritesReady(db);
    StageZero(db);
    Statement(db, 0, 1, Start, Start, PickHeld(db.picks[1]), [map[], map[]]);
    Statement(db, 1, 1, Start, PickHeld(db.picks[1]), SecondWrite(db), [map[], map[]]);
  }

  lemma SecondSteps(db: Db)
    requires Combined(db)
    ensures 1 in db.picks
    ensures Next(Resolvers(), System(db, [Start, Start], []), 1) == Become(PickHeld(db.picks[1]))
    ensures Next(Resolvers(), System(db, [Start, PickHeld(db.picks[1])], []), 1) == Become(SecondWrite(db))
  {
    SecondWrites(db);
    hide Next, SettleRead;
  }

  lemma StageZero(db: Db)
    ensures Before(db, 0) == Stage(db, Start, Start, [map[], map[]])
  {
    FreshStage(db);
    assert Schedule()[..0] == [];
  }

  ghost predicate SeenNone(found: map<ParlayId, Finding>) {
    found.Keys == {0} && found[0].seen == 0
  }

  /** One check. */
  lemma CheckAt(db: Db, k: nat, i: nat, first: Phase, second: Phase, found: seq<map<ParlayId, Finding>>) returns (f: map<ParlayId, Finding>)
    requires k < |Schedule()| && Schedule()[k] == Check(i, 0) && i < 2 && |found| == 2 && found[i] == map[]
    requires Before(db, k) == Stage(db, first, second, found) && 0 in db.parlays && db.parlays[0].legs == [0, 1]
    requires Ready(Resolvers()[i], if i == 0 then first else second)
    ensures SeenNone(f) && Before(db, k + 1) == Stage(db, first, second, found[i := f])
  {
    hide Before, Ready, Perform, Looked;
    BeforeNext(db, k);
    CheckFinds(db, first, second, found, i);
    f := With(found[i], 0, Looked(Stage(db, first, second, found), if i == 0 then first else second, 0));
  }

  /** The second worker's check. */
  lemma AfterSecondCheck(db: Db) returns (found: map<ParlayId, Finding>)
    requires Combined(db)
    ensures SeenNone(found) && Before(db, 3) == Stage(db, Start, SecondWrite(db), [map[], found])
  {
    hide Before, Combined, SecondWrite, FirstWrite, Ready, SeenNone;
    AfterTwoStatements(db);
    WritesReady(db);
    found := CheckAt(db, 2, 1, Start, SecondWrite(db), [map[], map[]]);
  }

  lemma FirstNotReady(p: Pick, w: Wallet, escrow: int)
    requires p.status.Pending?
    ensures !Ready(Resolvers()[0], Start) && !Ready(Resolvers()[0], PickHeld(p)) && !Ready(Resolvers()[0], GateWallet(Some(p), w))
    ensures !Ready(Resolvers()[0], GateEscrow(Some(p), w, escrow)) && !Ready(Resolvers()[0], AwaitBalance(Some(p)))
    ensures !Ready(Resolvers()[0], BalanceHeld(Some(p), w))
  {
  }

  lemma FirstSteps(db: Db)
    requires Combined(db)
    ensures 0 in db.picks && U in db.wallets
    ensures
      var p, wallet, escrow, other := db.picks[0], db.wallets[U], Escrow(db.picks, U), SecondWrite(db);
      && Next(Resolvers(), System(db, [Start, other], []), 0) == Become(PickHeld(p))
      && Next(Resolvers(), System(db, [PickHeld(p), other], []), 0) == Become(GateWallet(Some(p), wallet))
      && Next(Resolvers(), System(db, [GateWallet(Some(p), wallet), other], []), 0) == Become(GateEscrow(Some(p), wallet, escrow))
      && Next(Resolvers(), System(db, [GateEscrow(Some(p), wallet, escrow), other], []), 0) == Become(AwaitBalance(Some(p)))
      && Next(Resolvers(), System(db, [AwaitBalance(Some(p)), other], []), 0) == Become(BalanceHeld(Some(p), wallet))
      && Next(Resolvers(), System(db, [BalanceHeld(Some(p), wallet), other], []), 0) == Become(FirstWrite(db))
  {
    Accepts(db);
    UnfundedWrite(db);
    FirstWrites(db, SettleRead(db, 1, Status.Void, None, 10, 5).value);
    hide Next, SettleRead, Escrow;
  }

  /** The first worker's six statements. */
  lemma AfterFirst(db: Db, found: map<ParlayId, Finding>)
    requires Combined(db) && Before(db, 3) == Stage(db, Start, SecondWrite(db), [map[], found])
    ensures Before(db, 9) == Stage(db, FirstWrite(db), SecondWrite(db), [map[], found])
  {
    hide Next, Before, Combined, Ready, Escrow, FirstWrite, SecondWrite, Stage;
    FirstSteps(db);
    WritesReady(db);
    var p, w, escrow, other := db.picks[0], db.wallets[U], Escrow(db.picks, U), SecondWrite(db);
    FirstNotReady(p, w, escrow);
    Statement(db, 3, 0, Start, other, PickHeld(p), [map[], found]);
    Statement(db, 4, 0, PickHeld(p), other, GateWallet(Some(p), w), [map[], found]);
    Statement(db, 5, 0, GateWallet(Some(p), w), other, GateEscrow(Some(p), w, escrow), [map[], found]);
    Statement(db, 6, 0, GateEscrow(Some(p), w, escrow), other, AwaitBalance(Some(p)), [map[], found]);
    Statement(db, 7, 0, AwaitBalance(Some(p)), other, BalanceHeld(Some(p), w), [map[], found]);
    Statement(db, 8, 0, BalanceHeld(Some(p), w), other, FirstWrite(db), [map[], found]);
  }

  /** And its check. */
  lemma AfterChecks(db: Db) returns (first: map<ParlayId, Finding>, second: map<ParlayId, Finding>)
    requires Combined(db)
    ensures SeenNone(first) && SeenNone(second)
    ensures Before(db, 10) == Stage(db, FirstWrite(db), SecondWrite(db), [first, second])
  {
    hide Before, Combined, SecondWrite, FirstWrite, Ready, SeenNone;
    second := AfterSecondCheck(db);
    AfterFirst(db, second);
    WritesReady(db);
    first := CheckAt(db, 9, 0, FirstWrite(db), SecondWrite(db), [map[], second]);
  }

  lemma EndpointOk()
    ensures Endpoint(Resolvers(), {0, 1}) && FreshIds(Resolvers())
  {
  }

  lemma CombinedIsIntact(db: Db)
    requires Combined(db)
    ensures Intact(db) && ParlaysConsistent(db) && Pair(db, Resolvers(), 0)
  {
    EndpointOk();
  }

  /** A commit once every parlay is checked. */
  lemma CommitAt(db: Db, k: nat, i: nat)
    requires Combined(db) && k < |Schedule()| && Schedule()[k] == Do(Go(i)) && i < 2
    requires Before(db, k).core.db.parlays.Keys <= Before(db, k).found[i].Keys && Ready(Resolvers()[i], Before(db, k).core.phases[i])
    ensures
      var st, next := Before(db, k), Before(db, k + 1);
      && next.core.phases == st.core.phases[i := Committed] && next.found == st.found
      && next.core.db.parlays.Keys == st.core.db.parlays.Keys
  {
    hide Performed, Perform, Ready, Orderly, Findings, Inv, Next, Intact, ParlaysConsistent, Combined, Endpoint, FreshIds;
    CombinedIsIntact(db);
    EndpointOk();
    PerformedHolds(db, Resolvers(), {0, 1}, Schedule()[..k]);
    InvParts(db, Resolvers(), {0, 1}, Before(db, k));
    ReadyCommits(Resolvers(), Before(db, k).core, i);
    BeforeNext(db, k);
    assert forall q :: q in Before(db, k).core.db.parlays ==> !MayCheck(Resolvers(), {0, 1}, Before(db, k), i, q);
    CommitIs(Resolvers(), {0, 1}, Before(db, k), Go(i));
    hide Before;
  }

  lemma BothCommit(db: Db)
    requires Combined(db)
    ensures
      var st := Before(db, 12);
      && st.core.phases == [Committed, Committed] && 0 in st.found[0] && 0 in st.found[1] && st.found[0][0].seen == 0 && st.found[1][0].seen == 0
  {
    hide Before, SettleRead, Ready, Perform, Combined, FirstWrite, SecondWrite;
    var first, second := AfterChecks(db);
    WritesReady(db);
    CommitAt(db, 10, 1);
    CommitAt(db, 11, 0);
  }

  lemma LostAndVoidDecide(db: Db)
    ensures Decides([0, 1], db.picks, 0, Status.Lost, 1, Status.Void)
  {
  }

  lemma WholeSchedule(db: Db)
    ensures Before(db, 12) == Performed(Resolvers(), {0, 1}, Opening(db, Resolvers()), Schedule())
  {
    assert Schedule()[..12] == Schedule();
  }

  /** The parlay ends open for no reason. */
  lemma OverlapStrands(db: Db)
    requires Combined(db)
    ensures
      var st := Performed(Resolvers(), {0, 1}, Opening(db, Resolvers()), Schedule());
      && st.core.phases == [Committed, Committed] && 0 in st.core.db.parlays && !OpenForAReason(st.core.db.parlays[0], st.core.db.picks)
  {
    hide Before, Performed, Opening, Combined, Intact, ParlaysConsistent, Endpoint, FreshIds, Pair, Decides, OpenForAReason, FirstWrite, SecondWrite, Schedule;
    BothCommit(db);
    WholeSchedule(db);
    CombinedIsIntact(db);
    EndpointOk();
    LostAndVoidDecide(db);
    WritesReady(db);
    TwoResolvesIff(db, Resolvers(), Schedule(), 0);
  }

  /** From a seeded system: a bet and a suggestion are placed and combined serially, and then resolved by
      overlapping transactions, the bet lost and the suggestion void. Both commit, and the parlay stays open
      for no reason. */
  lemma OverlappingResolvesStrandAParlay()
    ensures Seeded(Witnesses.Seed()) && Serial(Witnesses.LostLeg()[..3], 0)
    ensures
      var db := Run(Witnesses.Seed(), Witnesses.LostLeg()[..3]);
      var st := Performed(Resolvers(), {0, 1}, Opening(db, Resolvers()), Schedule());
      && GoodStart(db, 3) && ParlaysPrompt(db) && st.core.phases == [Committed, Committed]
      && 0 in st.core.db.parlays && !OpenForAReason(st.core.db.parlays[0], st.core.db.picks)
  {
    Witnesses.LostLegServes();
    Witnesses.ParlayJoins();
    var rs := Witnesses.LostLeg()[..3];
    var db := Run(Witnesses.Seed(), rs);
    hide Run, Performed, Opening, Seeded, Serial, Sound, InOrder, ParlaysConsistent, EscrowExact, StakesStay;
    RunKeepsSound(Witnesses.Seed(), rs, 0);
    RunIsExact(Witnesses.Seed(), rs, 0);
    ParlaysStayConsistent(Witnesses.Seed(), rs, 0);
    PendingIsAReason(db);
    OverlapStrands(db);
  }

  lemma PendingIsAReason(db: Db)
    requires 0 in db.picks && db.picks[0].status.Pending? && db.parlays.Keys == {0} && db.parlays[0].status.Open? && db.parlays[0].legs == [0, 1]
    ensures ParlaysPrompt(db)
  {
    assert LegStatus(db.picks, db.parlays[0].legs[0]) == Status.Pending;
  }
}
