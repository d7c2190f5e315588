/** What every request is answered, in every state that serial runs reach. */
module Answers {
  import opened Money
  import opened Odds
  import opened Domain
  import opened Tables
  import opened Reconciliation
  import opened Engine
  import opened Invariants
  import opened Runs
  import opened Acceptance
  import opened Guards
  import Columns

  function CreationRefusal(db: Db, r: NewPick): Option<Error> {
    if -100 < r.oddsAmerican < 100 then Some(OddsInvalid)
    else if r.stake.Some? && r.stake.value <= 0 then Some(StakeInvalid)
    else if r.stake.Some? && r.user.None? then Some(UserIdRequired)
    else if r.stake.Some? && (r.user.value !in db.wallets || db.wallets[r.user.value].available < r.stake.value)
    then Some(InsufficientAvailable)
    else if r.pid in db.picks then Some(UniqueViolation)
    else None
  }

  function EditRefusal(db: Db, pid: PickId, c: Changes): Option<Error> {
    if pid !in db.picks then Some(PickNotFound)
    else if db.picks[pid].status != Status.Pending then Some(PickAlreadyResolved)
    else if c.odds.Set? && (c.odds.value.None? || -100 < c.odds.value.value < 100) then Some(OddsInvalid)
    else if c.stake.Set? && c.stake.value.Some? && c.stake.value.value <= 0 then Some(StakeInvalid)
    else if c.market.Set? && c.market.value.None? then Some(NotNullViolation)
    else None
  }

  function DeletionRefusal(db: Db, pid: PickId, now: int): Option<Error> {
    if pid !in db.picks then Some(PickNotFound)
    else if db.picks[pid].status != Status.Pending then Some(PickNotPending)
    else if exists q :: q in db.parlays && pid in db.parlays[q].legs then Some(PickInParlay)
    else SettleAnswer(db, pid, Status.Void, None, now)
  }

  function ConfirmationRefusal(db: Db, pid: PickId, confirmed: bool, now: int): Option<Error> {
    if pid !in db.picks then Some(PickNotFound)
    else if db.picks[pid].source != Pipeline then Some(PickNotFromPipeline)
    else if confirmed then None
    else SettleAnswer(db, pid, Status.Void, None, now)
  }

  function ParlayRefusal(db: Db, q: ParlayId, legs: seq<PickId>): Option<Error> {
    if |legs| < 2 || |legs| > 8 then Some(ParlaySize)
    else if exists leg :: leg in legs && leg !in db.picks then Some(PicksNotFound)
    else if exists i, j :: 0 <= i < j < |legs| && legs[i] == legs[j] then Some(PicksNotFound)
    else if exists i, j :: 0 <= i < j < |legs| && db.picks[legs[i]].matchId == db.picks[legs[j]].matchId then Some(ParlayDuplicateMatch)
    else if exists leg :: leg in legs && leg in db.picks && db.picks[leg].status != Status.Pending then Some(ParlayPickNotPending)
    else if q in db.parlays then Some(UniqueViolation)
    else None
  }

  /** A user with a ledger line is repaired when their pending stakes fit into their wallet; one without, when they hold
      no more than a cent. */
  function RepairRefusal(db: Db, u: UserId): Option<Error> {
    if u !in db.wallets then Some(UserBalanceNotFound)
    else
      var total := db.wallets[u].available + db.wallets[u].locked;
      if Tail(db.ledger, u).None? then if total > 1 then Some(RepairUnsafeState) else None
      else if Escrow(db.picks, u) > total then Some(RepairInvariantViolation)
      else None
  }

  /** The error a request is refused with, if any. */
  function Refusal(db: Db, r: Request): Option<Error> {
    match r.op
    case Create(request) => CreationRefusal(db, request)
    case Resolve(pid, target, closing) => if target.Pending? then Some(ResolveToPending) else SettleAnswer(db, pid, target, closing, r.now)
    case Delete(pid) => DeletionRefusal(db, pid, r.now)
    case Confirm(pid, confirmed) => ConfirmationRefusal(db, pid, confirmed, r.now)
    case Update(pid, changes) => EditRefusal(db, pid, changes)
    case Repair(u) => RepairRefusal(db, u)
    case AddParlay(q, legs, stake) => ParlayRefusal(db, q, legs)
  }

  ghost predicate Answered<T>(r: Result<T>, refusal: Option<Error>) {
    match refusal
    case None => r.Ok?
    case Some(e) => r == Err(e)
  }

  lemma CreationAnswers(db: Db, r: NewPick, at: int)
    requires LinesOk(db) && Announced(db)
    ensures Answered(CreatePick(db, r, at), CreationRefusal(db, r))
  {
    if r.pid !in db.picks {
      FreshIsUntaken(db, r.pid);
    }
    hide LineTaken, KeyTaken, AmericanToDecimal, LinesOk, Announced;
  }

  lemma EditAnswers(db: Db, pid: PickId, c: Changes)
    requires PicksOk(db)
    ensures Answered(UpdatePick(db, pid, c), EditRefusal(db, pid, c))
  {
    hide AmericanToDecimal;
  }

  lemma VoidingAnswers(db: Db, pid: PickId, confirmed: bool, now: int, at: int, t: int)
    requires Sound(db) && InOrder(db.ledger, t)
    ensures Answered(DeletePick(db, pid, now, at), DeletionRefusal(db, pid, now))
    ensures Answered(ConfirmPick(db, pid, confirmed, now, at), ConfirmationRefusal(db, pid, confirmed, now))
  {
    hide Settle, InOrder, Validate, SettleAnswer;
    SettleAnswers(db, pid, Status.Void, None, now, at, t);
    Columns.ConfirmationStores(db, pid, now, at);
    hide Sound;
  }

  lemma ParlayAnswers(db: Db, q: ParlayId, legs: seq<PickId>, stake: int)
    ensures Answered(CreateParlay(db, q, legs, stake), ParlayRefusal(db, q, legs))
  {
    hide OddsProduct, Pow10k, HalfEven;
    if leg :| leg in legs && leg !in db.picks {
      var i :| 0 <= i < |legs| && legs[i] == leg;
    }
    if leg :| leg in legs && leg in db.picks && db.picks[leg].status != Status.Pending {
      var i :| 0 <= i < |legs| && legs[i] == leg;
    }
  }

  lemma RepairAnswers(db: Db, u: UserId, t: int)
    requires Sound(db) && InOrder(db.ledger, t)
    ensures Answered(FixUserBalance(db, u), RepairRefusal(db, u))
  {
    if u in db.wallets {
      LatestIsTail(db.ledger, t, u);
      if Tail(db.ledger, u).None? { NothingPending(db, u); }
      StakesAreCounted(db, u);
      WalletParts(db, u);
      hide FixUserBalance, Sound, InOrder, Tail, Latest, Escrow;
      RepairSucceedsIff(db, u);
    }
  }

  /** A user without ledger lines owns no pick. */
  lemma NothingPending(db: Db, u: UserId)
    requires Sound(db) && Tail(db.ledger, u).None?
    ensures Escrow(db.picks, u) == 0
  {
    assert OwnersOk(db);
    hide Sound, Tail, LockOf;
    forall k | k in db.picks ensures db.picks[k].owner != Some(u) {
      if db.picks[k].owner == Some(u) { LockGivesTail(db.ledger, k); }
    }
    NothingOwned(db.picks, u);
  }

  lemma {:induction false} NothingOwned(picks: map<PickId, Pick>, u: UserId)
    requires forall k :: k in picks ==> picks[k].owner != Some(u)
    ensures Total(picks, u, PendingStake) == 0
    decreases |picks|
  {
    if picks.Keys != {} {
      var k := Least(picks.Keys);
      assert (picks - {k}).Keys == picks.Keys - {k} && |(picks - {k}).Keys| < |picks.Keys|;
      TotalRemove(picks, u, PendingStake, k);
      NothingOwned(picks - {k}, u);
    }
  }

  /** In a state reached serially, stake edits and repairs included, every request is answered as `Refusal` says. */
  lemma RequestAnswers(db: Db, r: Request, t: int)
    requires Sound(db) && InOrder(db.ledger, t)
    ensures Answered(Execute(db, r), Refusal(db, r))
  {
    assert LinesOk(db) && Announced(db) && PicksOk(db);
    hide Sound, InOrder, CreatePick, Settle, DeletePick, ConfirmPick, UpdatePick, FixUserBalance, CreateParlay, CreationRefusal,
      EditRefusal, DeletionRefusal, ConfirmationRefusal, ParlayRefusal, RepairRefusal, SettleAnswer;
    match r.op
    case Create(request) => CreationAnswers(db, request, r.at);
    case Resolve(pid, target, closing) => SettleAnswers(db, pid, target, closing, r.now, r.at, t);
    case Delete(pid) => VoidingAnswers(db, pid, true, r.now, r.at, t);
    case Confirm(pid, confirmed) => VoidingAnswers(db, pid, confirmed, r.now, r.at, t);
    case Update(pid, changes) => EditAnswers(db, pid, changes);
    case Repair(u) => RepairAnswers(db, u, t);
    case AddParlay(q, legs, stake) => ParlayAnswers(db, q, legs, stake);
  }

  /** So it is after every serial run, whatever the next request and whatever came before. */
  lemma RunAnswers(db: Db, rs: seq<Request>, start: int, r: Request)
    requires Seeded(db) && Serial(rs, start)
    ensures Answered(Execute(Run(db, rs), r), Refusal(Run(db, rs), r))
  {
    RunKeepsSound(db, rs, start);
    hide Run, Seeded, Serial, Sound, InOrder, Execute, Refusal, Answered;
    RequestAnswers(Run(db, rs), r, LastStart(rs, start));
  }
}
