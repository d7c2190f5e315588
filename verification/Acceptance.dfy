/** When the other pick services accept a request, and what an accepted one changes. */
module Acceptance {
  import opened Money
  import opened Odds
  import opened Domain
  import opened Tables
  import opened Reconciliation
  import opened Engine
  import opened Invariants
  import opened Runs

  /** Fresh ids are unknown to the unique indexes. */
  lemma FreshIsUntaken(db: Db, pid: PickId)
    requires LinesOk(db) && Announced(db) && pid !in db.picks
    ensures !LineTaken(db.ledger, pid, StakeLock) && !KeyTaken(db.outbox, CreatedKey(pid))
  {
  }

  /** In every reachable state, a pick is created exactly when its id is new, its odds exist, its stake
      is absent or positive, and a positive stake has an owner whose available funds cover it. */
  lemma CreationAcceptedIff(db: Db, r: NewPick, at: int)
    requires LinesOk(db) && Announced(db)
    ensures CreatePick(db, r, at).Ok? <==>
              && r.pid !in db.picks && ValidAmerican(r.oddsAmerican)
              && (r.stake.Some? ==> r.stake.value > 0 && r.user.Some? && WalletOf(db, r.user.value).available >= r.stake.value)
  {
    if r.pid !in db.picks {
      FreshIsUntaken(db, r.pid);
    }
    hide LineTaken, KeyTaken, AmericanToDecimal, LinesOk, Announced;
  }

  /** An accepted creation with a stake moves exactly that stake from available to locked, and writes
      one lock line and one event; without a stake it writes the pick alone, with no owner. */
  lemma CreationMovesStake(db: Db, r: NewPick, at: int)
    requires CreatePick(db, r, at).Ok?
    ensures
      var next := CreatePick(db, r, at).value;
      && r.pid in next.picks && next.picks == db.picks[r.pid := next.picks[r.pid]]
      && next.picks[r.pid].status.Pending? && next.picks[r.pid].stake == r.stake
      && next.picks[r.pid].owner == (if r.stake.Some? then r.user else None)
      && match r.stake
         case None => next.wallets == db.wallets && next.ledger == db.ledger && next.outbox == db.outbox
         case Some(stake) =>
           && r.user.Some?
           && var w := WalletOf(db, r.user.value);
           && next.wallets == db.wallets[r.user.value := Wallet(w.available - stake, w.locked + stake)]
           && next.ledger == db.ledger + [Entry(r.user.value, stake, StakeLock, r.pid, w.available - stake, w.locked + stake, at)]
           && next.outbox == db.outbox + [PickCreated(r.pid, r.user.value, stake)]
  {
    hide LineTaken, KeyTaken, AmericanToDecimal;
  }

  function Changed<T>(e: Edit<T>, was: T): T {
    if e.Set? then e.value else was
  }

  /** An edit of a kept pending pick is accepted exactly when it sets odds that exist, a stake that is
      absent or positive, and a market that is not null. It then changes those fields, with decimal
      odds that follow the American ones, and nothing else; in particular no balance moves. */
  lemma EditAcceptedIff(db: Db, pid: PickId, c: Changes)
    requires PicksOk(db)
    ensures UpdatePick(db, pid, c).Ok? <==>
              && pid in db.picks && db.picks[pid].status.Pending?
              && (c.odds.Set? ==> c.odds.value.Some? && ValidAmerican(c.odds.value.value))
              && (c.stake.Set? && c.stake.value.Some? ==> c.stake.value.value > 0)
              && (c.market.Set? ==> c.market.value.Some?)
    ensures UpdatePick(db, pid, c).Ok? ==>
      var p, next := db.picks[pid], UpdatePick(db, pid, c).value;
      && next == db.(picks := db.picks[pid := next.picks[pid]])
      && next.picks[pid] == p.(oddsAmerican := next.picks[pid].oddsAmerican, odds := next.picks[pid].odds,
                               stake := Changed(c.stake, p.stake), market := next.picks[pid].market)
      && Some(next.picks[pid].market) == Changed(c.market, Some(p.market))
      && Some(next.picks[pid].oddsAmerican) == Changed(c.odds, Some(p.oddsAmerican))
      && next.picks[pid].odds == if c.odds.Set? then AmericanToDecimal(next.picks[pid].oddsAmerican) else p.odds
  {
    hide AmericanToDecimal;
  }
}
