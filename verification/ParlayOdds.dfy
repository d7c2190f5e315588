/** The odds of a created parlay and what it pays (`app/services/parlay_service.py`), against the pipeline's odds. */
module ParlayOdds {
  import opened Money
  import opened Domain
  import opened Tables
  import opened Reconciliation
  import opened Engine
  import opened Invariants
  import opened Runs
  import opened ParlayRuns
  import Suggestions

  predicate LegsExist(db: Db, legs: seq<PickId>) {
    forall i :: 0 <= i < |legs| ==> legs[i] in db.picks
  }

  /** The legs, as the pipeline would see them. */
  function Candidates(db: Db, legs: seq<PickId>): seq<Suggestions.Candidate>
    requires LegsExist(db, legs)
  {
    seq(|legs|, i requires 0 <= i < |legs| =>
      Suggestions.Candidate(legs[i], db.picks[legs[i]].matchId, db.picks[legs[i]].odds))
  }

  /** All positions below `n`. */
  function Positions(n: nat): (c: seq<nat>)
    ensures |c| == n && Suggestions.IsSubset(c, 0, n)
  {
    seq(n, i requires 0 <= i < n => i)
  }

  lemma {:induction false} ProductsAgree(db: Db, legs: seq<PickId>, n: nat)
    requires LegsExist(db, legs) && n <= |legs|
    ensures Suggestions.IsSubset(Positions(n), 0, |legs|)
    ensures Suggestions.Product(Candidates(db, legs), Positions(n)) == OddsProduct(db.picks, legs[..n])
  {
    if n > 0 {
      ProductsAgree(db, legs, n - 1);
      assert legs[..n][..n - 1] == legs[..n - 1];
      assert Positions(n)[..n - 1] == Positions(n - 1);
    }
  }

  ghost predicate Creatable(db: Db, q: ParlayId, legs: seq<PickId>) {
    && 2 <= |legs| <= 8 && LegsExist(db, legs) && q !in db.parlays
    && (forall i, j :: 0 <= i < j < |legs| ==> legs[i] != legs[j])
    && Suggestions.DistinctMatches(Candidates(db, legs), Positions(|legs|))
    && EveryLeg(db.picks, legs, Status.Pending)
  }

  lemma SameTests(db: Db, legs: seq<PickId>)
    requires LegsExist(db, legs)
    ensures Suggestions.DistinctMatches(Candidates(db, legs), Positions(|legs|)) <==>
            forall i, j :: 0 <= i < j < |legs| ==> db.picks[legs[i]].matchId != db.picks[legs[j]].matchId
    ensures EveryLeg(db.picks, legs, Status.Pending) <==> forall i :: 0 <= i < |legs| ==> db.picks[legs[i]].status.Pending?
  {
    var cs, ps := Candidates(db, legs), Positions(|legs|);
    assert forall i :: 0 <= i < |legs| ==> cs[ps[i]].matchId == db.picks[legs[i]].matchId;
    assert forall i :: 0 <= i < |legs| ==> LegStatus(db.picks, legs[i]) == db.picks[legs[i]].status;
  }

  /** A parlay is created exactly from two to eight different pending picks of different matches. */
  lemma CreatedIff(db: Db, q: ParlayId, legs: seq<PickId>, stake: int)
    ensures CreateParlay(db, q, legs, stake).Ok? <==> Creatable(db, q, legs)
  {
    hide OddsProduct, Pow10k, HalfEven, Suggestions.DistinctMatches, EveryLeg;
    if LegsExist(db, legs) {
      SameTests(db, legs);
    }
  }

  /** It then carries the rounded product the pipeline would give its legs. */
  lemma CreatedOdds(db: Db, q: ParlayId, legs: seq<PickId>, stake: int)
    requires CreateParlay(db, q, legs, stake).Ok?
    ensures LegsExist(db, legs) && |legs| >= 2 && q in CreateParlay(db, q, legs, stake).value.parlays
    ensures CreateParlay(db, q, legs, stake).value.parlays[q].oddsTotal
         == Suggestions.RoundedProduct(Candidates(db, legs), Positions(|legs|))
  {
    hide OddsProduct, Pow10k, HalfEven;
    ProductsAgree(db, legs, |legs|);
    assert legs[..|legs|] == legs;
    hide Suggestions.Product;
  }

  lemma {:induction false} ProductAtLeastOne(db: Db, legs: seq<PickId>)
    requires PicksOk(db)
    ensures OddsProduct(db.picks, legs) >= Pow10k(|legs|)
  {
    if legs != [] {
      var n := |legs| - 1;
      ProductAtLeastOne(db, legs[..n]);
      var odds := if legs[n] in db.picks then db.picks[legs[n]].odds else ODDS_ONE;
      var before := OddsProduct(db.picks, legs[..n]);
      Scale(before, ODDS_ONE, odds);
      Scale(ODDS_ONE, Pow10k(n), before);
    }
  }

  lemma HalfEvenAtLeast(n: int, d: int, k: int)
    requires d > 0 && n >= d * k
    ensures HalfEven(n, d) >= k
  {
    HalfEvenError(n, d);
    var h := HalfEven(n, d);
    assert d * (h + 1) == d * h + d;
    if h < k {
      Scale(d, h + 1, k);
    }
  }

  /** The odds of a parlay are at least one, so it never promises less than its stake. */
  lemma PaysAtLeastStake(db: Db, q: ParlayId, legs: seq<PickId>, stake: int)
    requires PicksOk(db) && stake >= 0 && CreateParlay(db, q, legs, stake).Ok?
    ensures
      var parlay := CreateParlay(db, q, legs, stake).value.parlays[q];
      parlay.oddsTotal >= ODDS_ONE && parlay.potentialReturn >= stake
  {
    var n := |legs|;
    var d := Pow10k(n - 1);
    ProductAtLeastOne(db, legs);
    assert Pow10k(n) == ODDS_ONE * d;
    HalfEvenAtLeast(OddsProduct(db.picks, legs), d, ODDS_ONE);
    var total := HalfEven(OddsProduct(db.picks, legs), d);
    Scale(stake, ODDS_ONE, total);
    HalfEvenAtLeast(stake * total, ODDS_ONE, stake);
    hide HalfEven, OddsProduct, Pow10k, PicksOk;
  }

  // ---- What the row says ----

  /** A product taken from the first factor on. */
  function Product(factors: seq<int>): int {
    if factors == [] then 1 else factors[0] * Product(factors[1..])
  }

  /** The scale of a product of `n` decimal odds, from two to eight, that keeps four places. */
  function Scaling(n: nat): int
    requires 2 <= n <= 8
  {
    match n
    case 2 => 10_000
    case 3 => 100_000_000
    case 4 => 1_000_000_000_000
    case 5 => 10_000_000_000_000_000
    case 6 => 100_000_000_000_000_000_000
    case 7 => 1_000_000_000_000_000_000_000_000
    case 8 => 10_000_000_000_000_000_000_000_000_000
  }

  lemma ScalingIsPower(n: nat)
    requires 2 <= n <= 8
    ensures Pow10k(n - 1) == Scaling(n)
  {
    assert Pow10k(3) == 1_000_000_000_000;
    assert n > 4 ==> Pow10k(4) == 10_000_000_000_000_000;
    assert n > 5 ==> Pow10k(5) == 100_000_000_000_000_000_000;
    assert n > 6 ==> Pow10k(6) == 1_000_000_000_000_000_000_000_000;
    assert n > 7 ==> Pow10k(7) == 10_000_000_000_000_000_000_000_000_000;
  }

  function OddsOf(db: Db, legs: seq<PickId>): seq<int>
    requires LegsExist(db, legs)
  {
    seq(|legs|, i requires 0 <= i < |legs| => db.picks[legs[i]].odds)
  }

  lemma {:induction false} ProductAdds(factors: seq<int>, x: int)
    ensures Product(factors + [x]) == Product(factors) * x
  {
    if factors == [] {
      assert [] + [x] == [x] && [x][1..] == [];
      assert Product([x]) == x * Product([]);
    } else {
      assert (factors + [x])[1..] == factors[1..] + [x];
      ProductAdds(factors[1..], x);
      Associates(factors[0], Product(factors[1..]), x);
    }
  }

  lemma Associates(a: int, b: int, c: int)
    ensures a * (b * c) == (a * b) * c
  {
  }

  lemma {:induction false} ProductIsOfLegs(db: Db, legs: seq<PickId>)
    requires LegsExist(db, legs)
    ensures OddsProduct(db.picks, legs) == Product(OddsOf(db, legs))
  {
    if legs != [] {
      var n := |legs| - 1;
      ProductIsOfLegs(db, legs[..n]);
      assert OddsOf(db, legs) == OddsOf(db, legs[..n]) + [db.picks[legs[n]].odds];
      ProductAdds(OddsOf(db, legs[..n]), db.picks[legs[n]].odds);
    }
  }

  /** A parlay pays its stake times its odds, to the nearest cent. */
  predicate PaysItsOdds(q: Parlay) {
    2 * Abs(10_000 * q.potentialReturn - q.stake * q.oddsTotal) <= 10_000
  }

  /** The row of a created parlay: the legs and the stake asked for, the product of the legs' decimal odds to the
      nearest 0.0001, a potential return of stake times odds to the nearest cent, and no result yet. */
  lemma CreationStores(db: Db, q: ParlayId, legs: seq<PickId>, stake: int)
    requires CreateParlay(db, q, legs, stake).Ok?
    ensures LegsExist(db, legs) && 2 <= |legs| <= 8 && q in CreateParlay(db, q, legs, stake).value.parlays
    ensures
      var next := CreateParlay(db, q, legs, stake).value;
      var row := next.parlays[q];
      && next == db.(parlays := db.parlays[q := row])
      && row.legs == legs && row.stake == stake && row.status.Open? && row.actualReturn.None?
      && 2 * Abs(Scaling(|legs|) * row.oddsTotal - Product(OddsOf(db, legs))) <= Scaling(|legs|)
      && PaysItsOdds(row)
  {
    hide OddsProduct, Pow10k, HalfEven, Scaling;
    ScalingIsPower(|legs|);
    ProductIsOfLegs(db, legs);
    var product, d := OddsProduct(db.picks, legs), Pow10k(|legs| - 1);
    HalfEvenError(product, d);
    HalfEvenError(stake * HalfEven(product, d), ODDS_ONE);
  }

  ghost predicate ParlaysPay(db: Db) {
    forall q :: q in db.parlays ==> PaysItsOdds(db.parlays[q])
  }

  lemma RequestKeepsPayouts(db: Db, r: Request, t: int)
    requires Sound(db) && InOrder(db.ledger, t) && ParlaysConsistent(db) && ParlaysPay(db)
    ensures ParlaysPay(After(db, r))
  {
    var next := After(db, r);
    RequestMovesStatuses(db, r, t);
    RequestWritesParlays(db, r, t);
    NewParlayPays(db, r, t);
    hide Execute, After, Sound, InOrder, Consistent, StatusesGrow, AutoResolve, OpenForAReason;
    forall q | q in next.parlays ensures PaysItsOdds(next.parlays[q]) {
      if q in db.parlays {
        GrowthKeepsConsistent(db.parlays[q], db.picks, next.picks);
        CheckIsPrompt(db.parlays[q], next.picks);
      }
    }
  }

  lemma NewParlayPays(db: Db, r: Request, t: int)
    requires Sound(db) && InOrder(db.ledger, t)
    ensures forall q :: q in After(db, r).parlays && q !in db.parlays ==> PaysItsOdds(After(db, r).parlays[q])
  {
    if Execute(db, r).Ok? {
      hide Sound, InOrder, Settle, CreatePick, FixUserBalance, CreateParlay, Edited, AutoResolve, Validate, PaysItsOdds, Product,
        OddsOf, Scaling;
      match r.op
      case Resolve(pid, target, closing) => SettleMovesOnePick(db, pid, target, closing, r.now, r.at, t);
      case AddParlay(q, legs, stake) => CreationStores(db, q, legs, stake);
      case _ => ParlaysKept(db, r);
    }
  }

  /** Over every serial run each parlay promises its stake times its odds, to the nearest cent, and a won one has
      returned just that. */
  lemma {:induction false} ParlaysPayAsPromised(db: Db, rs: seq<Request>, start: int)
    requires Seeded(db) && Serial(rs, start)
    ensures ParlaysPay(Run(db, rs))
    ensures forall q :: q in Run(db, rs).parlays && Run(db, rs).parlays[q].status.Won? ==>
              Run(db, rs).parlays[q].actualReturn == Some(Run(db, rs).parlays[q].potentialReturn)
  {
    ParlaysStayConsistent(db, rs, start);
    if rs != [] {
      var n := |rs| - 1;
      ParlaysPayAsPromised(db, rs[..n], start);
      ParlaysStayConsistent(db, rs[..n], start);
      RunKeepsSound(db, rs[..n], start);
      hide Seeded, Sound, InOrder, ParlaysConsistent, ParlaysPay, After;
      RequestKeepsPayouts(Run(db, rs[..n]), rs[n], LastStart(rs[..n], start));
    }
  }
}
