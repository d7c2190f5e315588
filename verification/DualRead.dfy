/** Two checks of the aggregates against profit computed in SQL: the dashboard's sampled dual read
    (`app/services/dashboard_service.py`) and the validation that ends a backfill
    (`scripts/backfill_aggregates.py`). */
module DualRead {
  import opened Money
  import opened Domain
  import opened Keyset
  import opened Aggregates
  import opened Rollups

  /** The SQL `CASE` of one row. */
  function RawShare(p: Pick): int {
    if p.profit.Some? then FromCents(p.profit.value)
    else if p.status.Void? || p.status.Pending? then 0
    else if p.stake.None? then 0
    else match p.status
      case Won => p.stake.value * p.odds - FromCents(p.stake.value)
      case Lost => -FromCents(p.stake.value)
      case _ => 0
  }

  function RawProfit(picks: seq<Pick>): int {
    if picks == [] then 0 else RawProfit(picks[..|picks| - 1]) + RawShare(picks[|picks| - 1])
  }

  /** A decided pick that stored its return without its profit, where the two definitions part. */
  predicate HalfSettled(p: Pick) {
    && p.profit.None? && p.settledReturn.Some? && p.stake.Some? && p.stake.value != 0
    && (p.status.Lost? || (p.status.Won? && p.odds != ODDS_ONE))
  }

  lemma Cancel(stake: int, odds: int)
    ensures stake * odds == FromCents(stake) <==> stake == 0 || odds == ODDS_ONE
  {
    if stake * odds == FromCents(stake) {
      assert stake * (odds - ODDS_ONE) == 0;
    }
  }

  /** SQL and Python give a pick the same profit exactly unless it is half settled. */
  lemma SharesAgreeIff(p: Pick)
    ensures RawShare(p) == Contribution(p).amounts.profit <==> !HalfSettled(p)
  {
    if p.stake.Some? {
      Cancel(p.stake.value, p.odds);
    }
  }

  /** The services never keep a half-settled pick. */
  lemma KeptPicksAgree(p: Pick)
    requires PickOk(p)
    ensures !HalfSettled(p) && RawShare(p) == Contribution(p).amounts.profit
  {
    assert !HalfSettled(p) by { hide ToCents, FromCents; }
    SharesAgreeIff(p);
  }

  /** `[DUAL_READ_MISMATCH]`: counts differ, or profits by more than one cent. */
  predicate Mismatch(picks: seq<Pick>, row: Option<Totals>, day: int) {
    var stored := if row.Some? then row.value.amounts else ZERO.amounts;
    || |OnDay(picks, day)| != stored.count
    || Abs(RawProfit(OnDay(picks, day)) - FromCents(stored.profit)) > MICROS_PER_CENT
  }

  /** By how much the half-settled picks of a day push the SQL figure away. */
  function Gap(picks: seq<Pick>, day: int): int {
    if picks == [] then 0
    else
      var last := picks[|picks| - 1];
      Gap(picks[..|picks| - 1], day) + (if last.runDate == day then RawShare(last) - Contribution(last).amounts.profit else 0)
  }

  lemma RawGrows(picks: seq<Pick>, p: Pick)
    ensures RawProfit(picks + [p]) == RawProfit(picks) + RawShare(p)
  {
    assert (picks + [p])[..|picks|] == picks;
  }

  lemma GapGrows(picks: seq<Pick>, p: Pick, day: int)
    ensures Gap(picks + [p], day)
         == Gap(picks, day) + (if p.runDate == day then RawShare(p) - Contribution(p).amounts.profit else 0)
  {
    assert (picks + [p])[..|picks|] == picks;
  }

  /** The day's raw figures against its exact totals. */
  lemma {:induction false} RawIsExactPlusGap(picks: seq<Pick>, day: int)
    ensures |OnDay(picks, day)| == Sum(picks, Day(day)).amounts.count
    ensures RawProfit(OnDay(picks, day)) == Sum(picks, Day(day)).amounts.profit + Gap(picks, day)
  {
    if picks != [] {
      var n := |picks| - 1;
      var before, p := picks[..n], picks[n];
      RawIsExactPlusGap(before, day);
      assert picks == before + [p];
      assert Touches(p, Day(day)) <==> p.runDate == day;
      CountsOne(p);
      GapGrows(before, p, day);
      hide RawProfit, RawShare, Contribution, OnDay, Sum, Gap;
      OnDayStep(before, p, day);
      SumGrows(before, p, Day(day));
      RawGrows(OnDay(before, day), p);
    }
  }

  lemma CountsOne(p: Pick)
    ensures Contribution(p).amounts.count == 1
  {
  }

  lemma {:induction false} NoGap(picks: seq<Pick>, day: int)
    requires forall i :: 0 <= i < |picks| && picks[i].runDate == day ==> !HalfSettled(picks[i])
    ensures Gap(picks, day) == 0
  {
    if picks != [] {
      var n := |picks| - 1;
      assert forall i :: 0 <= i < n ==> picks[..n][i] == picks[i];
      NoGap(picks[..n], day);
      SharesAgreeIff(picks[n]);
    }
  }

  /** Right after a recompute, counts agree and the profits differ by the gap of the half-settled
      picks, give or take half a cent: without such picks no mismatch can be reported, and a gap of
      more than a cent and a half is always reported. */
  lemma DualReadAfterRecompute(picks: seq<Pick>, day: int)
    ensures
      var row := Recomputed(picks, Day(day));
      && row.amounts.count == |OnDay(picks, day)|
      && 2 * Abs(RawProfit(OnDay(picks, day)) - Gap(picks, day) - FromCents(row.amounts.profit)) <= MICROS_PER_CENT
      && (2 * Abs(Gap(picks, day)) > 3 * MICROS_PER_CENT ==> Mismatch(picks, Some(row), day))
      && ((forall i :: 0 <= i < |picks| && picks[i].runDate == day ==> !HalfSettled(picks[i])) ==> !Mismatch(picks, Some(row), day))
  {
    RawIsExactPlusGap(picks, day);
    ToCentsError(Sum(picks, Day(day)).amounts.profit);
    hide Sum, Gap, HalfSettled, RawProfit, OnDay, ToCents;
    if forall i :: 0 <= i < |picks| && picks[i].runDate == day ==> !HalfSettled(picks[i]) {
      NoGap(picks, day);
    }
  }

  // ---- The validation that ends a backfill ----

  /** Sums of the stored rows of the given days. */
  function StoredCount(daily: map<Key, Totals>, days: seq<int>): nat {
    if days == [] then 0 else StoredCount(daily, days[..|days| - 1]) + At(daily, Day(days[|days| - 1])).amounts.count
  }

  function StoredProfit(daily: map<Key, Totals>, days: seq<int>): int {
    if days == [] then 0 else StoredProfit(daily, days[..|days| - 1]) + At(daily, Day(days[|days| - 1])).amounts.profit
  }

  /** The days of a table, each once. */
  ghost predicate DaysOf(daily: map<Key, Totals>, days: seq<int>) {
    && (forall i, j :: 0 <= i < j < |days| ==> days[i] != days[j])
    && (forall k :: k in daily <==> k.Day? && k.day in days)
  }

  /** The exact totals of several days, all in one. */
  function SumOver(picks: seq<Pick>, days: seq<int>): Totals {
    if days == [] then ZERO else Plus(SumOver(picks, days[..|days| - 1]), Sum(picks, Day(days[|days| - 1])))
  }

  lemma {:induction false} OneMorePick(picks: seq<Pick>, p: Pick, days: seq<int>)
    requires forall i, j :: 0 <= i < j < |days| ==> days[i] != days[j]
    ensures SumOver(picks + [p], days) == if p.runDate in days then Plus(SumOver(picks, days), Contribution(p)) else SumOver(picks, days)
  {
    hide Contribution, Plus, Sum;
    if days != [] {
      var n := |days| - 1;
      var d := days[n];
      OneMorePick(picks, p, days[..n]);
      SumGrows(picks, p, Day(d));
      assert days == days[..n] + [d];
      assert p.runDate in days <==> p.runDate in days[..n] || p.runDate == d;
      PlusIsMonoid(SumOver(picks, days[..n]), Sum(picks, Day(d)), Contribution(p));
      PlusCommutes(SumOver(picks, days[..n]), Sum(picks, Day(d)), Contribution(p));
      PlusIsMonoid(SumOver(picks, days[..n]), Contribution(p), Sum(picks, Day(d)));
    }
  }

  lemma {:induction false} NothingOver(days: seq<int>)
    ensures SumOver([], days) == ZERO
  {
    if days != [] {
      var n := |days| - 1;
      NothingOver(days[..n]);
      assert Sum([], Day(days[n])) == ZERO;
      PlusIsMonoid(ZERO, ZERO, ZERO);
      hide Sum, Contribution, Plus;
    }
  }

  /** Days that cover every pick add up to all of them. */
  lemma {:induction false} DaysAddUp(picks: seq<Pick>, days: seq<int>)
    requires forall i, j :: 0 <= i < j < |days| ==> days[i] != days[j]
    requires forall i :: 0 <= i < |picks| ==> picks[i].runDate in days && !HalfSettled(picks[i])
    ensures SumOver(picks, days).amounts.count == |picks|
    ensures SumOver(picks, days).amounts.profit == RawProfit(picks)
  {
    if picks == [] {
      NothingOver(days);
    } else {
      var n := |picks| - 1;
      assert picks == picks[..n] + [picks[n]];
      DaysAddUp(picks[..n], days);
      OneMorePick(picks[..n], picks[n], days);
      SharesAgreeIff(picks[n]);
      CountsOne(picks[n]);
      hide SumOver, Contribution, HalfSettled, RawShare;
    }
  }

  lemma CentsAdd(a: int, b: int)
    ensures FromCents(a + b) == FromCents(a) + FromCents(b) && FromCents(0) == 0
  {
  }

  lemma StoredAdds(row: Totals, exact: Totals, before: Totals)
    requires FollowsExactly(row, exact)
    ensures Plus(before, exact).amounts.count == before.amounts.count + row.amounts.count
    ensures Plus(before, exact).amounts.profit == before.amounts.profit + FromCents(row.amounts.profit)
  {
  }

  lemma {:induction false} StoredIsExact(daily: map<Key, Totals>, picks: seq<Pick>, days: seq<int>)
    requires forall d :: d in days ==> FollowsExactly(At(daily, Day(d)), Sum(picks, Day(d)))
    ensures StoredCount(daily, days) == SumOver(picks, days).amounts.count
    ensures FromCents(StoredProfit(daily, days)) == SumOver(picks, days).amounts.profit
  {
    hide FollowsExactly, FromCents, Sum, At, Plus;
    if days == [] {
      CentsAdd(0, 0);
    } else {
      var n := |days| - 1;
      var row, exact := At(daily, Day(days[n])), Sum(picks, Day(days[n]));
      StoredIsExact(daily, picks, days[..n]);
      CentsAdd(StoredProfit(daily, days[..n]), row.amounts.profit);
      StoredAdds(row, exact, SumOver(picks, days[..n]));
    }
  }

  predicate FollowsExactly(row: Totals, exact: Totals) {
    row.amounts.count == exact.amounts.count && FromCents(row.amounts.profit) == exact.amounts.profit
  }

  lemma WholeRowIsExact(picks: seq<Pick>, key: Key)
    requires forall i :: 0 <= i < |picks| ==> PickOk(picks[i])
    ensures FollowsExactly(Recomputed(picks, key), Sum(picks, key))
  {
    forall i | 0 <= i < |picks| ensures WholeCents(Contribution(picks[i]).amounts) {
      KeptPicksAreWholeCents(picks[i]);
    }
    SumOfWholeCents(picks, key);
    WholeIsExact(Sum(picks, key).amounts.profit);
  }

  /** After a backfill into empty tables of picks the services keep, with batches of any size, the
      validation finds both differences exactly zero. */
  lemma ValidationPasses(table: map<Domain.PickId, Pick>, n: nat, daily: map<Key, Totals>, days: seq<int>)
    requires n >= 1 && Backfilled(daily, map[], AllPicks(table), n, false) && DaysOf(daily, days)
    requires forall p :: p in table ==> PickOk(table[p])
    ensures StoredCount(daily, days) == |AllPicks(table)|
    ensures FromCents(StoredProfit(daily, days)) == RawProfit(AllPicks(table))
  {
    var all := AllPicks(table);
    AllPicksAre(table);
    hide PickOk, AllPicks;
    forall d | d in days ensures FollowsExactly(At(daily, Day(d)), Sum(all, Day(d))) {
      RecomputeAfterBackfill(table, n, daily, Day(d));
      AtIn(daily, Day(d));
      WholeRowIsExact(all, Day(d));
      hide *;
    }
    StoredIsExact(daily, all, days);
    forall i | 0 <= i < |all| ensures all[i].runDate in days && !HalfSettled(all[i]) {
      KeptPicksAgree(all[i]);
      assert Touches(all[i], Day(all[i].runDate));
    }
    DaysAddUp(all, days);
  }
}
