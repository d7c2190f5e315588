/** Runs that end where one would not expect, each from a seeded system: a gate closed on correct books and
    a repair that makes a cent, both driven by the interleaving machine, and a stranded parlay. */
module Witnesses {
  import opened Money
  import opened Odds
  import opened Domain
  import opened Tables
  import opened Reconciliation
  import opened Engine
  import opened Invariants
  import opened Runs
  import opened History
  import opened Acceptance
  import opened Guards
  import opened ParlayRuns
  import opened ParlayOdds
  import opened Concurrency
  import opened Serializability
  import opened Repairs
  import opened Alone

  const U: UserId := DEFAULT_USER

  /** One user with ten units. */
  function Seed(): Db {
    Db(map[U := Wallet(1_000, 0)], map[], [], [], map[])
  }

  /** A bet at even money. */
  function Bet(pid: PickId, stake: int): NewPick {
    NewPick(pid, Some(U), pid, 0, 0, "h2h", 100, Some(stake), Manual, 0)
  }

  /** Sound books in order, with a given wallet, and pending stakes that exceed the locked funds by `gap`. */
  ghost predicate Books(db: Db, t: int, w: Wallet, gap: int) {
    GoodStart(db, t) && U in db.wallets && db.wallets[U] == w && Escrow(db.picks, U) == w.locked + gap
  }

  /** A pending bet of the user. */
  ghost predicate Placed(db: Db, pid: PickId, stake: int) {
    && pid in db.picks && db.picks[pid].status.Pending? && db.picks[pid].owner == Some(U)
    && db.picks[pid].stake == Some(stake) && db.picks[pid].odds == 20_000 && db.picks[pid].createdAt == 0
  }

  lemma SeedBooks()
    ensures Seeded(Seed()) && Books(Seed(), 0, Wallet(1_000, 0), 0)
  {
    RunKeepsSound(Seed(), [], 0);
  }

  lemma EvenMoney()
    ensures ValidAmerican(100) && AmericanToDecimal(100) == 20_000
  {
  }

  lemma AfterBet(db: Db, t: int, w: Wallet, gap: int, pid: PickId, stake: int, at: int)
    requires Books(db, t, w, gap) && pid !in db.picks && 0 < stake <= w.available && t <= at
    ensures CreatePick(db, Bet(pid, stake), at).Ok?
    ensures
      var next := CreatePick(db, Bet(pid, stake), at).value;
      && Books(next, at, Wallet(w.available - stake, w.locked + stake), gap) && Placed(next, pid, stake)
      && next.picks == db.picks[pid := next.picks[pid]]
      && next.ledger == db.ledger + [Entry(U, stake, StakeLock, pid, w.available - stake, w.locked + stake, at)]
  {
    hide CreatePick, GoodStart, Escrow, FreshPick;
    BetMade(db, t, pid, stake, at);
    BetKeepsBooks(db, t, pid, stake, at);
  }

  lemma BetMade(db: Db, t: int, pid: PickId, stake: int, at: int)
    requires GoodStart(db, t) && U in db.wallets && pid !in db.picks && 0 < stake <= db.wallets[U].available
    ensures CreatePick(db, Bet(pid, stake), at).Ok?
    ensures
      var w, next := db.wallets[U], CreatePick(db, Bet(pid, stake), at).value;
      && next.wallets == db.wallets[U := Wallet(w.available - stake, w.locked + stake)] && Placed(next, pid, stake)
      && next.picks == db.picks[pid := next.picks[pid]]
      && next.ledger == db.ledger + [Entry(U, stake, StakeLock, pid, w.available - stake, w.locked + stake, at)]
  {
    SoundParts(db);
    EvenMoney();
    hide CreatePick, Sound, InOrder, LinesOk, Announced, PicksOk, AmericanToDecimal;
    CreationAcceptedIff(db, Bet(pid, stake), at);
    CreationMovesStake(db, Bet(pid, stake), at);
    PlacedAs(db, Bet(pid, stake), at);
  }

  lemma BetKeepsBooks(db: Db, t: int, pid: PickId, stake: int, at: int)
    requires GoodStart(db, t) && t <= at && U in db.wallets && CreatePick(db, Bet(pid, stake), at).Ok?
    ensures
      var next := CreatePick(db, Bet(pid, stake), at).value;
      GoodStart(next, at) && U in next.wallets && Escrow(next.picks, U) - next.wallets[U].locked == Escrow(db.picks, U) - db.wallets[U].locked
  {
    hide Sound, InOrder, CreatePick, IsCreation, Escrow, Publish;
    CreateChanges(db, Bet(pid, stake), at);
    var c :| Legal(db, c, at) && CreatePick(db, Bet(pid, stake), at).value == Apply(db, c) && c.Created?;
    ChangeKeepsSound(db, c, at);
    ChangeKeepsOrder(db, c, at, t);
    CreationMoves(db, c.write, at, U);
  }

  lemma SoundParts(db: Db)
    requires Sound(db)
    ensures LinesOk(db) && Announced(db) && PicksOk(db)
  {
  }

  lemma PlacedAs(db: Db, r: NewPick, at: int)
    requires CreatePick(db, r, at).Ok?
    ensures ValidAmerican(r.oddsAmerican) && r.pid in CreatePick(db, r, at).value.picks
    ensures CreatePick(db, r, at).value.picks[r.pid] == FreshPick(r)
  {
    hide LineTaken, KeyTaken, Validate, AmericanToDecimal;
  }

  /** Settling a bet the wallet covers, whenever the transaction started. */
  lemma AfterSettling(db: Db, t: int, w: Wallet, gap: int, pid: PickId, stake: int, target: Status, at: int)
    requires Books(db, t, w, gap) && Placed(db, pid, stake) && 0 < stake <= w.locked && (target.Won? || target.Lost?)
    ensures Settle(db, pid, target, None, 10, at).Ok?
    ensures
      var next := Settle(db, pid, target, None, 10, at).value;
      var after := Wallet(if target.Won? then w.available + 2 * stake else w.available, w.locked - stake);
      && Sound(next) && U in next.wallets && next.wallets[U] == after && Escrow(next.picks, U) == after.locked + gap
      && pid in next.picks && next.picks == db.picks[pid := next.picks[pid]]
      && next.ledger == db.ledger + [Entry(U, if target.Won? then 2 * stake else stake, if target.Won? then Payout else Loss, pid,
                                           after.available, after.locked, at)]
      && (t <= at ==> InOrder(next.ledger, at))
  {
    hide Sound, InOrder, Settle, SettleRead, Escrow, IsSettlement, PickOk, Publish, SettleWrite;
    BetSettles(db, t, pid, stake, target, at);
    var write := SettleRead(db, pid, target, None, 10, at).value;
    SettledBet(db, write, pid, stake, target, at);
    SoundParts(db);
    SettlementMoves(db, write, target, at, U);
    ChangeKeepsSound(db, Settled(write, target), at);
    if t <= at { ChangeKeepsOrder(db, Settled(write, target), at, t); }
  }

  lemma BetSettles(db: Db, t: int, pid: PickId, stake: int, target: Status, at: int)
    requires GoodStart(db, t) && U in db.wallets && Placed(db, pid, stake) && 0 < stake <= db.wallets[U].locked && (target.Won? || target.Lost?)
    ensures SettleRead(db, pid, target, None, 10, at).Ok?
    ensures
      var write := SettleRead(db, pid, target, None, 10, at).value;
      && Settle(db, pid, target, None, 10, at) == Ok(Publish(db, write))
      && write.pid == pid && IsSettlement(db, write, target, at)
  {
    hide Sound, InOrder, Settle, SettleRead, Escrow, IsSettlement, PickOk, Publish;
    SettleDecides(db, pid, target, None, 10, at, t);
  }

  lemma SettledBet(db: Db, write: Write, pid: PickId, stake: int, target: Status, at: int)
    requires Placed(db, pid, stake) && U in db.wallets && stake > 0 && (target.Won? || target.Lost?)
    requires write.pid == pid && IsSettlement(db, write, target, at)
    ensures
      var w, next := db.wallets[U], Publish(db, write);
      var after := Wallet(if target.Won? then w.available + 2 * stake else w.available, w.locked - stake);
      && next.wallets == db.wallets[U := after] && pid in next.picks && next.picks == db.picks[pid := next.picks[pid]]
      && next.ledger == db.ledger + [Entry(U, if target.Won? then 2 * stake else stake, if target.Won? then Payout else Loss, pid,
                                           after.available, after.locked, at)]
  {
    assert FromCents(2 * stake) == stake * 20_000;
    ToCentsExact(2 * stake);
    ToCentsExact(0);
    assert Credit(write.pick) == if target.Won? then 2 * stake else 0;
  }

  lemma RunAdds(db: Db, rs: seq<Request>, r: Request)
    ensures Run(db, rs + [r]) == After(Run(db, rs), r)
  {
    assert (rs + [r])[..|rs|] == rs;
  }

  lemma RunNone(db: Db)
    ensures Run(db, []) == db
  {
  }

  function Place(pid: PickId, stake: int, at: int): Request {
    Request(Create(Bet(pid, stake)), 0, at)
  }

  /** One more bet at the end of a run. */
  lemma RunBet(rs: seq<Request>, t: int, w: Wallet, gap: int, pid: PickId, stake: int, at: int)
    requires Books(Run(Seed(), rs), t, w, gap) && pid !in Run(Seed(), rs).picks && 0 < stake <= w.available && t <= at
    ensures
      var db, next := Run(Seed(), rs), Run(Seed(), rs + [Place(pid, stake, at)]);
      && Books(next, at, Wallet(w.available - stake, w.locked + stake), gap) && Placed(next, pid, stake)
      && pid in next.picks && next.picks == db.picks[pid := next.picks[pid]]
      && next.ledger == db.ledger + [Entry(U, stake, StakeLock, pid, w.available - stake, w.locked + stake, at)]
  {
    RunAdds(Seed(), rs, Place(pid, stake, at));
    AfterBet(Run(Seed(), rs), t, w, gap, pid, stake, at);
    hide Run, Books, CreatePick;
  }

  // ---- A gate closed on correct books ----

  /** Two bets of one unit each. */
  function TwoBets(): seq<Request> {
    [Place(0, 100, 1), Place(1, 100, 2)]
  }

  /** The first is won by a transaction that starts at 3, the second lost by one that starts at 5 and is
      served first. */
  function WonAndLost(): seq<Task> {
    [Task(SettleJob(0, Status.Won, None, 10), 3), Task(SettleJob(1, Status.Lost, None, 10), 5)]
  }

  function LostFirst(): seq<Choice> {
    Solo(1, 7) + Solo(0, 7)
  }

  lemma TwoBetsBooks()
    ensures
      var db := Run(Seed(), TwoBets());
      && Books(db, 2, Wallet(800, 200), 0) && Placed(db, 0, 100) && Placed(db, 1, 100)
      && db.ledger == [Entry(U, 100, StakeLock, 0, 900, 100, 1), Entry(U, 100, StakeLock, 1, 800, 200, 2)]
  {
    FirstBet();
    hide Run, Books;
    RunBet([Place(0, 100, 1)], 1, Wallet(900, 100), 0, 1, 100, 2);
    assert [Place(0, 100, 1)] + [Place(1, 100, 2)] == TwoBets();
  }

  lemma FirstBet()
    ensures
      var db := Run(Seed(), [Place(0, 100, 1)]);
      && Books(db, 1, Wallet(900, 100), 0) && Placed(db, 0, 100) && db.picks.Keys == {0}
      && db.ledger == [Entry(U, 100, StakeLock, 0, 900, 100, 1)]
  {
    SeedBooks();
    RunNone(Seed());
    hide Run, Books;
    RunBet([], 0, Wallet(1_000, 0), 0, 0, 100, 1);
    assert [] + [Place(0, 100, 1)] == [Place(0, 100, 1)];
  }

  /** The two settlements, one after the other. */
  lemma LostThenWonBooks(db: Db)
    requires Books(db, 2, Wallet(800, 200), 0) && Placed(db, 0, 100) && Placed(db, 1, 100)
    ensures Settle(db, 1, Status.Lost, None, 10, 5).Ok?
    ensures Settle(Settle(db, 1, Status.Lost, None, 10, 5).value, 0, Status.Won, None, 10, 3).Ok?
    ensures
      var next := Settle(Settle(db, 1, Status.Lost, None, 10, 5).value, 0, Status.Won, None, 10, 3).value;
      && Sound(next) && U in next.wallets && next.wallets[U] == Wallet(1_000, 0)
      && next.ledger == db.ledger + [Entry(U, 100, Loss, 1, 800, 100, 5)] + [Entry(U, 200, Payout, 0, 1_000, 0, 3)]
  {
    hide Settle, Sound, InOrder, Escrow;
    AfterSettling(db, 2, Wallet(800, 200), 0, 1, 100, Status.Lost, 5);
    AfterSettling(Settle(db, 1, Status.Lost, None, 10, 5).value, 5, Wallet(800, 100), 0, 0, 100, Status.Won, 3);
  }

  lemma GateCloses(db: Db, loss: Entry)
    requires U in db.wallets && db.wallets[U] == Wallet(1_000, 0)
    requires Latest(db.ledger, U) == Some(loss) && loss.balanceAfter == 800 && loss.lockedAfter == 100
    ensures DriftGate(db, U) == Some(FinancialStateCorrupted)
  {
    hide Latest, Escrow;
  }

  /** Correct books on which the gate refuses every further settlement: a payout that started first but
      committed last is overtaken by the stamp of a loss. */
  lemma OvertakenPayoutClosesTheGate()
    ensures Seeded(Seed()) && Serial(TwoBets(), 0) && GoodStart(Run(Seed(), TwoBets()), 2) && FreshIds(WonAndLost())
    ensures
      var s := Interleave(WonAndLost(), Begin(Run(Seed(), TwoBets()), WonAndLost()), LostFirst());
      && s.log == [1, 0] && Sound(s.db) && U in s.db.wallets && s.db.wallets[U] == Wallet(1_000, 0)
      && DriftGate(s.db, U) == Some(FinancialStateCorrupted)
  {
    hide *;
    TwoBetsServe();
    TwoBetsBooks();
    var db := Run(Seed(), TwoBets());
    BooksStart(db, 2, Wallet(800, 200), 0);
    LostThenWonBooks(db);
    LostThenWon(db);
    LatestIsLoss(db.ledger);
    GateCloses(Settle(Settle(db, 1, Status.Lost, None, 10, 5).value, 0, Status.Won, None, 10, 3).value, Entry(U, 100, Loss, 1, 800, 100, 5));
  }

  lemma TwoBetsServe()
    ensures Seeded(Seed()) && Serial(TwoBets(), 0) && FreshIds(WonAndLost())
  {
  }

  lemma BooksStart(db: Db, t: int, w: Wallet, gap: int)
    requires Books(db, t, w, gap)
    ensures GoodStart(db, t)
  {
  }

  lemma LostThenWon(db: Db)
    requires Settle(db, 1, Status.Lost, None, 10, 5).Ok?
    requires Settle(Settle(db, 1, Status.Lost, None, 10, 5).value, 0, Status.Won, None, 10, 3).Ok?
    ensures Interleave(WonAndLost(), Begin(db, WonAndLost()), LostFirst())
         == System(Settle(Settle(db, 1, Status.Lost, None, 10, 5).value, 0, Status.Won, None, 10, 3).value, [Committed, Committed], [1, 0])
  {
    hide Settle, Interleave;
    var plan := WonAndLost();
    var s := Begin(db, plan);
    ServesAlone(plan, s, 1);
    var s1 := Interleave(plan, s, Solo(1, 7));
    assert s1 == System(Settle(db, 1, Status.Lost, None, 10, 5).value, [Start, Committed], [1]);
    ServesAlone(plan, s1, 0);
    InterleaveSplits(plan, s, Solo(1, 7), Solo(0, 7));
  }

  lemma LatestIsLoss(ledger: seq<Entry>)
    requires ledger == [Entry(U, 100, StakeLock, 0, 900, 100, 1), Entry(U, 100, StakeLock, 1, 800, 200, 2)]
    ensures
      var loss, payout := Entry(U, 100, Loss, 1, 800, 100, 5), Entry(U, 200, Payout, 0, 1_000, 0, 3);
      Latest(ledger + [loss] + [payout], U) == Some(loss)
  {
    var loss, payout := Entry(U, 100, Loss, 1, 800, 100, 5), Entry(U, 200, Payout, 0, 1_000, 0, 3);
    Appended([], ledger[0]);
    Appended([ledger[0]], ledger[1]);
    assert [] + [ledger[0]] == [ledger[0]] && [ledger[0]] + [ledger[1]] == ledger;
    Appended(ledger, loss);
    Appended(ledger + [loss], payout);
  }

  // ---- A repair that makes a cent ----

  /** A bet of one unit whose stake is edited, and a bet of one cent. */
  function EditedBets(edited: int): seq<Request> {
    [Place(0, 100, 1), Request(Update(0, Changes(Keep, Set(Some(edited)), Keep)), 0, 1), Place(1, 1, 2)]
  }

  /** A third bet stamped 5, the loss of the cent stamped 3, and a repair, served in this order. */
  function BetLossRepair(): seq<Task> {
    [Task(CreateJob(Bet(2, 10)), 5), Task(SettleJob(1, Status.Lost, None, 10), 3), Task(RepairJob(U), 6)]
  }

  function InTurn(): seq<Choice> {
    Solo(0, 7) + Solo(1, 7) + Solo(2, 7)
  }

  lemma AfterEdit(db: Db, t: int, w: Wallet, gap: int, pid: PickId, stake: int, edited: int, at: int)
    requires Books(db, t, w, gap) && Placed(db, pid, stake) && edited > 0 && t <= at
    ensures UpdatePick(db, pid, Changes(Keep, Set(Some(edited)), Keep)).Ok?
    ensures
      var next := UpdatePick(db, pid, Changes(Keep, Set(Some(edited)), Keep)).value;
      Books(next, at, w, gap + edited - stake) && Placed(next, pid, edited) && next == db.(picks := db.picks[pid := next.picks[pid]])
  {
    var changes := Changes(Keep, Set(Some(edited)), Keep);
    hide UpdatePick, GoodStart, Total;
    EditMade(db, t, pid, changes, at);
    var next := UpdatePick(db, pid, changes).value;
    TotalUpdate(db.picks, U, PendingStake, pid, next.picks[pid]);
  }

  lemma EditMade(db: Db, t: int, pid: PickId, changes: Changes, at: int)
    requires GoodStart(db, t) && t <= at && pid in db.picks && db.picks[pid].status.Pending?
    requires changes.odds.Keep? && changes.market.Keep? && changes.stake.Set? && (changes.stake.value.Some? ==> changes.stake.value.value > 0)
    ensures UpdatePick(db, pid, changes).Ok?
    ensures
      var next := UpdatePick(db, pid, changes).value;
      GoodStart(next, at) && next == db.(picks := db.picks[pid := db.picks[pid].(stake := changes.stake.value)])
  {
    SoundParts(db);
    hide Sound, InOrder, UpdatePick, LinesOk, Announced, PicksOk;
    EditAcceptedIff(db, pid, changes);
    UpdateChanges(db, pid, changes, at);
    var c :| Legal(db, c, at) && UpdatePick(db, pid, changes).value == Apply(db, c) && c.Touched?;
    hide IsTouch;
    ChangeKeepsSound(db, c, at);
    ChangeKeepsOrder(db, c, at, t);
  }

  lemma EditedBetsBooks(edited: int)
    requires edited > 0
    ensures
      var db := Run(Seed(), EditedBets(edited));
      && Books(db, 2, Wallet(899, 101), edited - 100) && Placed(db, 1, 1) && 2 !in db.picks
      && db.ledger == [Entry(U, 100, StakeLock, 0, 900, 100, 1), Entry(U, 1, StakeLock, 1, 899, 101, 2)]
  {
    var rs := EditedBets(edited);
    hide Run, Books;
    FirstBets(edited);
    RunBet([rs[0], rs[1]], 1, Wallet(900, 100), edited - 100, 1, 1, 2);
    assert [rs[0], rs[1]] + [rs[2]] == rs;
  }

  lemma FirstBets(edited: int)
    requires edited > 0
    ensures
      var db := Run(Seed(), [EditedBets(edited)[0], EditedBets(edited)[1]]);
      && Books(db, 1, Wallet(900, 100), edited - 100) && db.picks.Keys == {0}
      && db.ledger == [Entry(U, 100, StakeLock, 0, 900, 100, 1)]
  {
    var rs := EditedBets(edited);
    hide Run, Books, UpdatePick;
    FirstBet();
    RunAdds(Seed(), [rs[0]], rs[1]);
    AfterEdit(Run(Seed(), [rs[0]]), 1, Wallet(900, 100), 0, 0, 100, edited, 1);
    assert [rs[0]] + [rs[1]] == [rs[0], rs[1]];
  }

  /** The bet and the loss, one after the other. */
  lemma BetThenLossBooks(db: Db, gap: int)
    requires Books(db, 2, Wallet(899, 101), gap) && Placed(db, 1, 1) && 2 !in db.picks
    ensures CreatePick(db, Bet(2, 10), 5).Ok? && Settle(CreatePick(db, Bet(2, 10), 5).value, 1, Status.Lost, None, 10, 3).Ok?
    ensures
      var lost := Settle(CreatePick(db, Bet(2, 10), 5).value, 1, Status.Lost, None, 10, 3).value;
      && Sound(lost) && U in lost.wallets && lost.wallets[U] == Wallet(889, 110) && Escrow(lost.picks, U) == 110 + gap
      && lost.ledger == db.ledger + [Entry(U, 10, StakeLock, 2, 889, 111, 5)] + [Entry(U, 1, Loss, 1, 889, 110, 3)]
  {
    hide Settle, CreatePick, Sound, InOrder, Escrow, GoodStart;
    AfterBet(db, 2, Wallet(899, 101), gap, 2, 10, 5);
    AfterSettling(CreatePick(db, Bet(2, 10), 5).value, 5, Wallet(889, 111), gap, 1, 1, Status.Lost, 3);
  }

  /** The line the repair reads, and the last one. */
  ghost predicate Overtaken(db: Db, escrow: int, bet: Entry, loss: Entry) {
    && U in db.wallets && db.wallets[U] == Wallet(889, 110) && Escrow(db.picks, U) == escrow
    && Latest(db.ledger, U) == Some(bet) && bet.balanceAfter == 889 && bet.lockedAfter == 111
    && Tail(db.ledger, U) == Some(loss) && loss.balanceAfter == 889 && loss.lockedAfter == 110
  }

  lemma RepairAnswers(db: Db, bet: Entry, loss: Entry)
    requires Overtaken(db, 310, bet, loss)
    ensures RepairOnLatest(db, U) == Ok(Wallet(690, 310)) && RepairOnTail(db, U) == Ok(Wallet(689, 310))
    ensures FixUserBalance(db, U) == Ok(db.(wallets := db.wallets[U := Wallet(690, 310)]))
  {
    FixReads(db, U);
    hide Latest, Tail, Escrow, FixUserBalance;
  }

  /** What the first two workers leave, each alone. */
  function AfterTwo(edited: int): Db {
    Interleave(BetLossRepair(), Begin(Run(Seed(), EditedBets(edited)), BetLossRepair()), Solo(0, 7) + Solo(1, 7)).db
  }

  lemma AfterTwoIsOvertaken(edited: int)
    requires edited > 0
    ensures GoodStart(Run(Seed(), EditedBets(edited)), 2) && Sound(AfterTwo(edited))
    ensures Overtaken(AfterTwo(edited), 10 + edited, Entry(U, 10, StakeLock, 2, 889, 111, 5), Entry(U, 1, Loss, 1, 889, 110, 3))
    ensures Interleave(BetLossRepair(), Begin(Run(Seed(), EditedBets(edited)), BetLossRepair()), Solo(0, 7) + Solo(1, 7))
         == System(AfterTwo(edited), [Committed, Committed, Start], [0, 1])
    ensures FixUserBalance(AfterTwo(edited), U).Ok? ==>
              (Interleave(BetLossRepair(), Begin(Run(Seed(), EditedBets(edited)), BetLossRepair()), InTurn())
               == System(FixUserBalance(AfterTwo(edited), U).value, [Committed, Committed, Committed], [0, 1, 2]))
  {
    hide Run, EditedBets, Interleave, Books, Placed, Settle, CreatePick, FixUserBalance, GoodStart, Sound, Escrow, Latest, Tail, InTurn;
    EditedBetsBooks(edited);
    var db := Run(Seed(), EditedBets(edited));
    BooksStart(db, 2, Wallet(899, 101), edited - 100);
    BetThenLossBooks(db, edited - 100);
    LatestIsBet(db.ledger);
    BetThenLoss(db);
    if FixUserBalance(AfterTwo(edited), U).Ok? { BetThenLossThenRepair(db); }
  }

  /** The repair reads the third bet's line, which the loss of a cent followed: it writes a total of ten
      units, one cent more than there is and than serving the three in this order would leave. */
  lemma OvertakenRepairMakesACent()
    ensures Seeded(Seed()) && Serial(EditedBets(300), 0) && GoodStart(Run(Seed(), EditedBets(300)), 2) && FreshIds(BetLossRepair())
    ensures
      var db, plan := Run(Seed(), EditedBets(300)), BetLossRepair();
      var s := Interleave(plan, Begin(db, plan), InTurn());
      var serial := ServeAll(db, plan, s.log, 2);
      && s.log == [0, 1, 2] && U in s.db.wallets && U in serial.wallets
      && s.db.wallets[U] == Wallet(690, 310) && serial.wallets[U] == Wallet(689, 310) && !SameTables(s.db, serial)
  {
    hide *;
    EditedBetsServe(300);
    AfterTwoIsOvertaken(300);
    var db, lost := Run(Seed(), EditedBets(300)), AfterTwo(300);
    OvertakenWallet(lost, 310, Entry(U, 10, StakeLock, 2, 889, 111, 5), Entry(U, 1, Loss, 1, 889, 110, 3));
    RepairAnswers(lost, Entry(U, 10, StakeLock, 2, 889, 111, 5), Entry(U, 1, Loss, 1, 889, 110, 3));
    SerialBeforeRepair(db, lost);
    WalletsDiffer(FixUserBalance(lost, U).value, ServeAll(db, BetLossRepair(), [0, 1, 2], 2));
  }

  lemma OvertakenWallet(db: Db, escrow: int, bet: Entry, loss: Entry)
    requires Overtaken(db, escrow, bet, loss)
    ensures U in db.wallets && db.wallets[U] == Wallet(889, 110)
  {
  }

  lemma RepairAnswersNoDrift(db: Db, bet: Entry, loss: Entry)
    requires Overtaken(db, 109, bet, loss)
    ensures ReconcileUser(db, U).Ok? && DriftType(ReconcileUser(db, U).value) == NoDrift
    ensures FixUserBalance(db, U) == Ok(db.(wallets := db.wallets[U := Wallet(891, 109)]))
  {
    FixReads(db, U);
    hide Latest, Tail, Escrow, FixUserBalance;
  }

  /** With the stake edited down by a cent instead, the wallet that the first two workers leave is classed
      free of drift, and the repair rewrites it all the same. */
  lemma NoDriftYetRewritten()
    ensures Seeded(Seed()) && Serial(EditedBets(99), 0) && GoodStart(Run(Seed(), EditedBets(99)), 2) && FreshIds(BetLossRepair())
    ensures Sound(AfterTwo(99)) && ReconcileUser(AfterTwo(99), U).Ok? && DriftType(ReconcileUser(AfterTwo(99), U).value) == NoDrift
    ensures U in AfterTwo(99).wallets && AfterTwo(99).wallets[U] == Wallet(889, 110)
    ensures
      var s := Interleave(BetLossRepair(), Begin(Run(Seed(), EditedBets(99)), BetLossRepair()), InTurn());
      s.phases == [Committed, Committed, Committed] && U in s.db.wallets && s.db.wallets[U] == Wallet(891, 109)
  {
    hide *;
    EditedBetsServe(99);
    AfterTwoIsOvertaken(99);
    OvertakenWallet(AfterTwo(99), 109, Entry(U, 10, StakeLock, 2, 889, 111, 5), Entry(U, 1, Loss, 1, 889, 110, 3));
    RepairAnswersNoDrift(AfterTwo(99), Entry(U, 10, StakeLock, 2, 889, 111, 5), Entry(U, 1, Loss, 1, 889, 110, 3));
  }

  lemma EditedBetsServe(edited: int)
    ensures Seeded(Seed()) && Serial(EditedBets(edited), 0) && FreshIds(BetLossRepair())
  {
  }

  lemma WalletsDiffer(a: Db, b: Db)
    ensures a.wallets != b.wallets ==> !SameTables(a, b)
  {
  }

  lemma LatestIsBet(ledger: seq<Entry>)
    requires ledger == [Entry(U, 100, StakeLock, 0, 900, 100, 1), Entry(U, 1, StakeLock, 1, 899, 101, 2)]
    ensures
      var bet, loss := Entry(U, 10, StakeLock, 2, 889, 111, 5), Entry(U, 1, Loss, 1, 889, 110, 3);
      Latest(ledger + [bet] + [loss], U) == Some(bet) && Tail(ledger + [bet] + [loss], U) == Some(loss)
  {
    var bet, loss := Entry(U, 10, StakeLock, 2, 889, 111, 5), Entry(U, 1, Loss, 1, 889, 110, 3);
    Appended([], ledger[0]);
    Appended([ledger[0]], ledger[1]);
    assert [] + [ledger[0]] == [ledger[0]] && [ledger[0]] + [ledger[1]] == ledger;
    Appended(ledger, bet);
    Appended(ledger + [bet], loss);
  }

  /** The first two workers, each alone. */
  lemma BetThenLoss(db: Db)
    requires CreatePick(db, Bet(2, 10), 5).Ok?
    requires Settle(CreatePick(db, Bet(2, 10), 5).value, 1, Status.Lost, None, 10, 3).Ok?
    ensures Interleave(BetLossRepair(), Begin(db, BetLossRepair()), Solo(0, 7) + Solo(1, 7))
         == System(Settle(CreatePick(db, Bet(2, 10), 5).value, 1, Status.Lost, None, 10, 3).value, [Committed, Committed, Start], [0, 1])
  {
    hide Settle, CreatePick, Interleave;
    var plan := BetLossRepair();
    var s := Begin(db, plan);
    ServesAlone(plan, s, 0);
    var s1 := Interleave(plan, s, Solo(0, 7));
    assert s1 == System(CreatePick(db, Bet(2, 10), 5).value, [Committed, Start, Start], [0]);
    ServesAlone(plan, s1, 1);
    InterleaveSplits(plan, s, Solo(0, 7), Solo(1, 7));
  }

  lemma BetThenLossThenRepair(db: Db)
    requires CreatePick(db, Bet(2, 10), 5).Ok?
    requires Settle(CreatePick(db, Bet(2, 10), 5).value, 1, Status.Lost, None, 10, 3).Ok?
    requires FixUserBalance(Settle(CreatePick(db, Bet(2, 10), 5).value, 1, Status.Lost, None, 10, 3).value, U).Ok?
    ensures Interleave(BetLossRepair(), Begin(db, BetLossRepair()), InTurn())
         == System(FixUserBalance(Settle(CreatePick(db, Bet(2, 10), 5).value, 1, Status.Lost, None, 10, 3).value, U).value,
                   [Committed, Committed, Committed], [0, 1, 2])
  {
    BetThenLoss(db);
    hide Settle, CreatePick, FixUserBalance, Interleave;
    var plan := BetLossRepair();
    var s := Begin(db, plan);
    ServesAlone(plan, Interleave(plan, s, Solo(0, 7) + Solo(1, 7)), 2);
    InterleaveSplits(plan, s, Solo(0, 7) + Solo(1, 7), Solo(2, 7));
  }

  /** The first two served serially instead. */
  lemma TwoServed(db: Db, lost: Db)
    requires GoodStart(db, 2)
    requires Interleave(BetLossRepair(), Begin(db, BetLossRepair()), Solo(0, 7) + Solo(1, 7)) == System(lost, [Committed, Committed, Start], [0, 1])
    ensures Paired(lost, ServeAll(db, BetLossRepair(), [0, 1], 2), 4)
  {
    hide Interleave, GoodStart, ServeAll, Misled, Paired;
    var plan, cs := BetLossRepair(), Solo(0, 7) + Solo(1, 7);
    assert NeverMisled(db, plan, cs);
    InterleaveReaches(db, plan, 2, cs);
    ReachesPaired(db, plan, 2, Interleave(plan, Begin(db, plan), cs));
  }

  /** Served serially after the other two, the repair reads the last line. */
  lemma SerialBeforeRepair(db: Db, lost: Db)
    requires GoodStart(db, 2) && U in lost.wallets && RepairOnTail(lost, U).Ok?
    requires Interleave(BetLossRepair(), Begin(db, BetLossRepair()), Solo(0, 7) + Solo(1, 7)) == System(lost, [Committed, Committed, Start], [0, 1])
    ensures
      var serial := ServeAll(db, BetLossRepair(), [0, 1, 2], 2);
      U in serial.wallets && serial.wallets[U] == RepairOnTail(lost, U).value
  {
    hide Interleave, GoodStart, ServeAll, RepairOnTail, Serve, SameTables, Sound, InOrder;
    TwoServed(db, lost);
    ServeRepair(lost, ServeAll(db, BetLossRepair(), [0, 1], 2), U, 4, 5);
    ServeAllStep(db, BetLossRepair(), [0, 1, 2], 2);
    assert [0, 1, 2][..2] == [0, 1];
  }

  // ---- A stranded parlay ----

  /** A suggestion of the pipeline, without a stake. */
  function Suggestion(pid: PickId): NewPick {
    NewPick(pid, None, pid, 0, 0, "h2h", 100, None, Pipeline, 0)
  }

  /** A bet and a suggestion, combined in a parlay; the bet is then lost. */
  function LostLeg(): seq<Request> {
    [Place(0, 100, 1), Request(Create(Suggestion(1)), 0, 2), Request(AddParlay(0, [0, 1], 100), 0, 3),
     Request(Resolve(0, Status.Lost, None), 10, 4)]
  }

  function Rejection(): Request {
    Request(Confirm(1, false), 10, 5)
  }

  /** The suggestion, beside the bet. */
  lemma SuggestionJoins()
    ensures
      var db := Run(Seed(), LostLeg()[..2]);
      && Placed(db, 0, 100) && db.picks.Keys == {0, 1} && db.parlays == map[]
      && db.picks[1] == FreshPick(Suggestion(1)) && db.picks[0].matchId != 1
  {
    EvenMoney();
    hide Run, Books, CreatePick, FreshPick, AmericanToDecimal;
    FirstBet();
    FirstBetMatch();
    var one := Run(Seed(), LostLeg()[..1]);
    assert LostLeg()[..1] == [Place(0, 100, 1)] && LostLeg()[..1] + [LostLeg()[1]] == LostLeg()[..2];
    RunAdds(Seed(), LostLeg()[..1], LostLeg()[1]);
    SuggestionMade(one);
  }

  lemma SuggestionMade(one: Db)
    requires Books(one, 1, Wallet(900, 100), 0) && one.picks.Keys == {0}
    ensures ValidAmerican(100) && CreatePick(one, Suggestion(1), 2).Ok?
    ensures
      var next := CreatePick(one, Suggestion(1), 2).value;
      next.picks == one.picks[1 := FreshPick(Suggestion(1))] && next.parlays == one.parlays
  {
    SoundParts(one);
    hide CreatePick, FreshPick, Books, LinesOk, Announced, PicksOk;
    CreationAcceptedIff(one, Suggestion(1), 2);
    CreationMovesStake(one, Suggestion(1), 2);
    PlacedAs(one, Suggestion(1), 2);
    CreateAddsOnePick(one, Suggestion(1), 2);
  }

  lemma FirstBetMatch()
    ensures
      var db := Run(Seed(), [Place(0, 100, 1)]);
      db.parlays == map[] && 0 in db.picks && db.picks[0].matchId == 0
  {
    RunNone(Seed());
    RunAdds(Seed(), [], Place(0, 100, 1));
    assert [] + [Place(0, 100, 1)] == [Place(0, 100, 1)];
    SeedBooks();
    hide Run, CreatePick, AmericanToDecimal;
    assert 0 !in Seed().picks;
    AfterBet(Seed(), 0, Wallet(1_000, 0), 0, 0, 100, 1);
    PlacedAs(Seed(), Bet(0, 100), 1);
    CreateAddsOnePick(Seed(), Bet(0, 100), 1);
  }

  lemma LostLegServes()
    ensures Seeded(Seed()) && Serial(LostLeg() + [Rejection()], 0) && Serial(LostLeg(), 0)
    ensures Serial(LostLeg()[..2], 0) && Serial(LostLeg()[..3], 0)
    ensures StakesStay(Seed(), LostLeg()[..3])
    ensures LostLeg()[..2] + [LostLeg()[2]] == LostLeg()[..3] && LostLeg()[..3] + [LostLeg()[3]] == LostLeg()
    ensures LastStart(LostLeg()[..3], 0) == 3 && LastStart(LostLeg(), 0) == 4
  {
    hide Run;
  }

  lemma ParlayPlaced(db: Db)
    requires db.picks.Keys == {0, 1} && Placed(db, 0, 100) && db.picks[0].matchId != 1 && db.picks[1] == FreshPick(Suggestion(1))
    requires db.parlays == map[] && ValidAmerican(100)
    ensures CreateParlay(db, 0, [0, 1], 100).Ok?
    ensures
      var next := CreateParlay(db, 0, [0, 1], 100).value;
      && next.picks == db.picks && next.parlays.Keys == {0} && next.parlays[0].status.Open? && next.parlays[0].legs == [0, 1]
  {
    hide OddsProduct, Pow10k, HalfEven, AmericanToDecimal;
  }

  /** The parlay of two pending legs. */
  lemma ParlayJoins()
    ensures
      var db := Run(Seed(), LostLeg()[..3]);
      && Placed(db, 0, 100) && 1 in db.picks && db.picks[1].status.Pending? && db.picks[1].owner.None? && db.picks[1].source.Pipeline?
      && db.picks[1].createdAt == 0 && db.picks[1].stake.None?
      && db.parlays.Keys == {0} && db.parlays[0].status.Open? && db.parlays[0].legs == [0, 1]
  {
    EvenMoney();
    LostLegServes();
    SuggestionJoins();
    RunAdds(Seed(), LostLeg()[..2], LostLeg()[2]);
    hide Run, CreateParlay, AmericanToDecimal, Seeded, Serial, StakesStay;
    ParlayPlaced(Run(Seed(), LostLeg()[..2]));
  }

  /** The bet is lost, and the parlay left open for the pending suggestion. */
  lemma BetLost()
    ensures
      var db := Run(Seed(), LostLeg());
      && 0 in db.picks && db.picks[0].status.Lost? && 1 in db.picks && db.picks[1].status.Pending? && db.picks[1].owner.None?
      && db.picks[1].source.Pipeline? && db.picks[1].createdAt == 0
      && 0 in db.parlays && db.parlays[0].status.Open? && db.parlays[0].legs == [0, 1]
  {
    LostLegServes();
    ParlayJoins();
    var db, r := Run(Seed(), LostLeg()[..3]), LostLeg()[3];
    RunAdds(Seed(), LostLeg()[..3], r);
    assert Settleable(db.picks[0], Status.Lost, None, 10);
    hide Run, Seeded, Serial, StakesStay, Settleable;
    GuardsNeverFire(Seed(), LostLeg()[..3], 0, r);
    RunKeepsSound(Seed(), LostLeg()[..3], 0);
    LegLost(db, r);
  }

  lemma LegLost(db: Db, r: Request)
    requires Sound(db) && InOrder(db.ledger, 3) && r == LostLeg()[3] && Execute(db, r).Ok?
    requires Placed(db, 0, 100) && 1 in db.picks && db.picks[1].status.Pending?
    requires 0 in db.parlays && db.parlays[0].status.Open? && db.parlays[0].legs == [0, 1]
    ensures
      var next := After(db, r);
      && 0 in next.picks && next.picks[0].status.Lost? && 1 in next.picks && next.picks[1] == db.picks[1]
      && 0 in next.parlays && next.parlays[0] == db.parlays[0]
  {
    hide Settle, Sound, InOrder, AutoResolve;
    SettlesTo(db, 0, Status.Lost, None, 10, 4, 3);
    SettleMovesOnePick(db, 0, Status.Lost, None, 10, 4, 3);
    var settled := Settle(db, 0, Status.Lost, None, 10, 4).value;
    assert LegStatus(settled.picks, db.parlays[0].legs[1]) == Status.Pending;
    StillPending(db.parlays[0], settled.picks);
  }

  lemma StillPending(q: Parlay, picks: map<PickId, Pick>)
    requires SomeLeg(picks, q.legs, Status.Pending)
    ensures AutoResolve(q, picks) == q
  {
  }

  /** A serial run from a seeded system that ends with a parlay open for no reason: its bet is lost, its
      suggestion rejected. */
  lemma RejectionStrandsAParlay()
    ensures Seeded(Seed()) && Serial(LostLeg() + [Rejection()], 0)
    ensures
      var last := Run(Seed(), LostLeg() + [Rejection()]);
      && Strands(Run(Seed(), LostLeg()), Rejection()) && !ParlaysPrompt(last)
  {
    LostLegServes();
    BetLost();
    var db := Run(Seed(), LostLeg());
    RunAdds(Seed(), LostLeg(), Rejection());
    hide Run, Seeded, Serial, StakesStay;
    RunKeepsSound(Seed(), LostLeg(), 0);
    RejectionStrands(db);
    StrandingShows(db, Rejection(), 4);
  }

  lemma RejectionStrands(db: Db)
    requires Sound(db) && InOrder(db.ledger, 4) && 0 in db.picks && db.picks[0].status.Lost?
    requires 1 in db.picks && db.picks[1].status.Pending? && db.picks[1].owner.None? && db.picks[1].source.Pipeline? && db.picks[1].createdAt == 0
    requires 0 in db.parlays && db.parlays[0].status.Open? && db.parlays[0].legs == [0, 1]
    ensures Strands(db, Rejection())
  {
    hide Settle, Sound, InOrder, Validate;
    SettlementAcceptedIff(db, 1, Status.Void, None, 10, 5, 4);
    assert Execute(db, Rejection()).Ok?;
    assert LegStatus(db.picks, db.parlays[0].legs[0]) == Status.Lost;
    assert StrandedBy(db.parlays[0], db.picks, 1);
  }
}
