/** The daily and per-sportsbook aggregates: the batched backfill (`scripts/backfill_aggregates.py`),
    the full-day recompute (`app/services/aggregate_recompute.py`), and the dashboard's dual read. */
module Aggregates {
  import opened Money
  import opened Domain
  import opened Tables
  import opened Keyset

  // ---- Rows ----

  /** Money is exact (micros) in memory and whole cents in a stored row. */
  datatype Amounts = Amounts(count: nat, stake: int, profit: int, settledReturn: int)

  datatype Counts = Counts(won: nat, lost: nat, push: nat, pending: nat, voided: nat)

  datatype Totals = Totals(amounts: Amounts, counts: Counts)

  const ZERO: Totals := Totals(Amounts(0, 0, 0, 0), Counts(0, 0, 0, 0, 0))

  function Plus(a: Totals, b: Totals): Totals {
    Totals(PlusAmounts(a.amounts, b.amounts),
           Counts(a.counts.won + b.counts.won, a.counts.lost + b.counts.lost, a.counts.push + b.counts.push,
                  a.counts.pending + b.counts.pending, a.counts.voided + b.counts.voided))
  }

  function PlusAmounts(a: Amounts, b: Amounts): Amounts {
    Amounts(a.count + b.count, a.stake + b.stake, a.profit + b.profit, a.settledReturn + b.settledReturn)
  }

  /** Writing totals to the table's `Numeric(14, 2)` columns. */
  function Stored(t: Totals): Totals {
    t.(amounts := Amounts(t.amounts.count, ToCents(t.amounts.stake), ToCents(t.amounts.profit), ToCents(t.amounts.settledReturn)))
  }

  function CountOf(s: Status): Counts {
    match s
    case Won => Counts(1, 0, 0, 0, 0)
    case Lost => Counts(0, 1, 0, 0, 0)
    case Push => Counts(0, 0, 1, 0, 0)
    case Pending => Counts(0, 0, 0, 1, 0)
    case Void => Counts(0, 0, 0, 0, 1)
  }

  /** What one pick adds to its day and its sportsbook, exactly. */
  function Contribution(p: Pick): Totals {
    var s := if p.profit.None? && p.settledReturn.None? && !p.status.Pending?
             then SettlementFor(p.status, p.stake, p.odds)
             else (ExactOption(p.settledReturn), ExactOption(p.profit));
    Totals(Amounts(1, if p.stake.Some? then FromCents(p.stake.value) else 0,
                   if s.1.Some? then s.1.value else 0, if s.0.Some? then s.0.value else 0),
           CountOf(p.status))
  }

  // ---- Groups ----

  datatype Key = Day(day: int) | Book(day: int, book: nat)

  predicate Touches(p: Pick, key: Key) {
    p.runDate == key.day && (key.Book? ==> p.book == key.book)
  }

  predicate SomeTouch(picks: seq<Pick>, key: Key) {
    exists i :: 0 <= i < |picks| && Touches(picks[i], key)
  }

  /** The exact totals of a group. */
  function Sum(picks: seq<Pick>, key: Key): Totals {
    if picks == [] then ZERO
    else
      var last := picks[|picks| - 1];
      var before := Sum(picks[..|picks| - 1], key);
      if Touches(last, key) then Plus(before, Contribution(last)) else before
  }

  lemma PlusIsMonoid(a: Totals, b: Totals, c: Totals)
    ensures Plus(Plus(a, b), c) == Plus(a, Plus(b, c))
    ensures Plus(a, ZERO) == a == Plus(ZERO, a)
  {
  }

  lemma {:induction false} SumSplits(a: seq<Pick>, b: seq<Pick>, key: Key)
    ensures Sum(a + b, key) == Plus(Sum(a, key), Sum(b, key))
  {
    hide Contribution, Plus, Touches;
    if b == [] {
      assert a + b == a;
      PlusIsMonoid(Sum(a, key), ZERO, ZERO);
    } else {
      var n := |b| - 1;
      SumSplits(a, b[..n], key);
      assert (a + b)[..|a| + n] == a + b[..n] && (a + b)[|a| + n] == b[n];
      PlusIsMonoid(Sum(a, key), Sum(b[..n], key), Contribution(b[n]));
    }
  }

  lemma {:induction false} UntouchedIsZero(picks: seq<Pick>, key: Key)
    requires !SomeTouch(picks, key)
    ensures Sum(picks, key) == ZERO
  {
    if picks != [] {
      var n := |picks| - 1;
      assert !SomeTouch(picks[..n], key) by {
        forall i | 0 <= i < n ensures !Touches(picks[..n][i], key) { assert !Touches(picks[i], key); }
      }
      UntouchedIsZero(picks[..n], key);
      assert !Touches(picks[n], key);
    }
  }

  /** The status buckets of a group partition its picks. */
  lemma {:induction false} BucketsPartition(picks: seq<Pick>, key: Key)
    ensures
      var t := Sum(picks, key);
      t.amounts.count == t.counts.won + t.counts.lost + t.counts.push + t.counts.pending + t.counts.voided
  {
    if picks != [] {
      BucketsPartition(picks[..|picks| - 1], key);
    }
  }

  // ---- What the two algorithms leave in a group's row ----

  /** The row a batched, additive backfill builds from position `from` on, with batches of `n`. */
  function Flushed(picks: seq<Pick>, n: nat, from: nat, key: Key): Totals
    requires n >= 1
    decreases |picks| - from
  {
    if from >= |picks| then ZERO
    else Plus(Stored(Sum(picks[from..Min(from + n, |picks|)], key)), Flushed(picks, n, from + n, key))
  }

  /** How many batches contain a pick of the group. */
  function TouchingBatches(picks: seq<Pick>, n: nat, from: nat, key: Key): nat
    requires n >= 1
    decreases |picks| - from
  {
    if from >= |picks| then 0
    else (if SomeTouch(picks[from..Min(from + n, |picks|)], key) then 1 else 0) + TouchingBatches(picks, n, from + n, key)
  }

  /** The row a recompute of the group's day writes. */
  function Recomputed(picks: seq<Pick>, key: Key): Totals {
    Stored(Sum(picks, key))
  }

  /** Distances of the three money columns, in half-cents. */
  predicate WithinHalfCents(a: Amounts, b: Amounts, halves: nat) {
    2 * Abs(a.stake - b.stake) <= halves && 2 * Abs(a.profit - b.profit) <= halves && 2 * Abs(a.settledReturn - b.settledReturn) <= halves
  }

  /** The same, between a row in cents and an exact total. */
  predicate Approximates(row: Amounts, exact: Amounts, halves: nat) {
    && 2 * Abs(FromCents(row.stake) - exact.stake) <= halves * MICROS_PER_CENT
    && 2 * Abs(FromCents(row.profit) - exact.profit) <= halves * MICROS_PER_CENT
    && 2 * Abs(FromCents(row.settledReturn) - exact.settledReturn) <= halves * MICROS_PER_CENT
  }

  /** A stored row follows exact totals: equal counts, and money within the given distance. */
  predicate Follows(row: Totals, exact: Totals, halves: nat) {
    row.counts == exact.counts && row.amounts.count == exact.amounts.count && Approximates(row.amounts, exact.amounts, halves)
  }

  lemma StoringFollows(t: Totals)
    ensures Follows(Stored(t), t, 1)
    ensures Stored(ZERO) == ZERO && Follows(ZERO, ZERO, 0)
  {
    ToCentsError(t.amounts.stake);
    ToCentsError(t.amounts.profit);
    ToCentsError(t.amounts.settledReturn);
  }

  lemma FollowingAdds(a: Totals, x: Totals, h: nat, b: Totals, y: Totals, k: nat)
    requires Follows(a, x, h) && Follows(b, y, k)
    ensures Follows(Plus(a, b), Plus(x, y), h + k)
  {
  }

  lemma {:induction false} BackfillFollows(picks: seq<Pick>, n: nat, from: nat, key: Key)
    requires n >= 1 && from <= |picks|
    ensures Follows(Flushed(picks, n, from, key), Sum(picks[from..], key), TouchingBatches(picks, n, from, key))
    decreases |picks| - from
  {
    hide Follows, Plus, Stored, SomeTouch;
    StoringFollows(ZERO);
    if from == |picks| {
      assert picks[from..] == [];
    } else {
      var next := Min(from + n, |picks|);
      var batch, rest := picks[from..next], picks[next..];
      assert picks[from..] == batch + rest;
      SumSplits(batch, rest, key);
      BackfillFollows(picks, n, next, key);
      FlushedFromEnd(picks, n, from + n, key);
      FlushedFromEnd(picks, n, next, key);
      hide Sum;
      StoringFollows(Sum(batch, key));
      if !SomeTouch(batch, key) {
        UntouchedIsZero(batch, key);
      }
      FollowingAdds(Stored(Sum(batch, key)), Sum(batch, key), if SomeTouch(batch, key) then 1 else 0,
                    Flushed(picks, n, next, key), Sum(rest, key), TouchingBatches(picks, n, next, key));
    }
  }

  lemma FlushedFromEnd(picks: seq<Pick>, n: nat, from: nat, key: Key)
    requires n >= 1
    ensures from >= |picks| ==> Flushed(picks, n, from, key) == ZERO && TouchingBatches(picks, n, from, key) == 0
  {
  }

  lemma FlushedStep(picks: seq<Pick>, n: nat, from: nat, k: Key)
    requires n >= 1 && from < |picks|
    ensures
      var next := Min(from + n, |picks|);
      Flushed(picks, n, from, k) == Plus(Stored(Sum(picks[from..next], k)), Flushed(picks, n, next, k))
  {
    FlushedFromEnd(picks, n, from + n, k);
    FlushedFromEnd(picks, n, Min(from + n, |picks|), k);
    hide Sum;
  }

  /** The backfill and the recompute of a day agree on every count, for any batch size, and on each
      money total up to (k + 1) half-cents, where k batches touch the group. */
  lemma BackfillAgreesWithRecompute(picks: seq<Pick>, n: nat, key: Key)
    requires n >= 1
    ensures
      var batched, scanned := Flushed(picks, n, 0, key), Recomputed(picks, key);
      && batched.counts == scanned.counts && batched.amounts.count == scanned.amounts.count
      && WithinHalfCents(batched.amounts, scanned.amounts, TouchingBatches(picks, n, 0, key) + 1)
  {
    BackfillFollows(picks, n, 0, key);
    assert picks[0..] == picks;
    StoringFollows(Sum(picks, key));
    hide Flushed, Sum, TouchingBatches, Stored;
  }

  predicate WholeCents(t: Amounts) {
    t.stake % MICROS_PER_CENT == 0 && t.profit % MICROS_PER_CENT == 0 && t.settledReturn % MICROS_PER_CENT == 0
  }

  lemma {:induction false} SumOfWholeCents(picks: seq<Pick>, key: Key)
    requires forall i :: 0 <= i < |picks| && Touches(picks[i], key) ==> WholeCents(Contribution(picks[i]).amounts)
    ensures WholeCents(Sum(picks, key).amounts)
  {
    if picks != [] {
      var n := |picks| - 1;
      assert forall i :: 0 <= i < n ==> picks[..n][i] == picks[i];
      SumOfWholeCents(picks[..n], key);
      hide Contribution, WholeCents;
      WholePlus(Sum(picks[..n], key), Contribution(picks[n]));
    } else {
      assert WholeCents(ZERO.amounts);
    }
  }

  lemma WholePlus(a: Totals, b: Totals)
    ensures WholeCents(a.amounts) && WholeCents(b.amounts) ==> WholeCents(Plus(a, b).amounts)
  {
  }

  lemma WholeIsExact(micros: int)
    requires micros % MICROS_PER_CENT == 0
    ensures FromCents(ToCents(micros)) == micros
  {
    var k := micros / MICROS_PER_CENT;
    assert micros == FromCents(k);
    ToCentsExact(k);
  }

  lemma WholeCentsAdd(x: int, y: int)
    requires x % MICROS_PER_CENT == 0 && y % MICROS_PER_CENT == 0
    ensures ToCents(x + y) == ToCents(x) + ToCents(y)
  {
    WholeIsExact(x);
    WholeIsExact(y);
    WholeIsExact(x + y);
    hide ToCents;
  }

  lemma StoringWholeCents(a: Totals, b: Totals)
    requires WholeCents(a.amounts) && WholeCents(b.amounts)
    ensures Stored(Plus(a, b)) == Plus(Stored(a), Stored(b))
  {
    hide ToCents;
    WholeCentsAdd(a.amounts.stake, b.amounts.stake);
    WholeCentsAdd(a.amounts.profit, b.amounts.profit);
    WholeCentsAdd(a.amounts.settledReturn, b.amounts.settledReturn);
  }

  lemma {:induction false} BackfillIsExact(picks: seq<Pick>, n: nat, from: nat, key: Key)
    requires n >= 1 && from <= |picks|
    requires forall i :: 0 <= i < |picks| && Touches(picks[i], key) ==> WholeCents(Contribution(picks[i]).amounts)
    ensures Flushed(picks, n, from, key) == Recomputed(picks[from..], key)
    decreases |picks| - from
  {
    hide Sum, Contribution, Stored, WholeCents, Plus, Flushed, SomeTouch, Min;
    if from == |picks| {
      assert picks[from..] == [];
      FlushedFromEnd(picks, n, from, key);
      SumOfNone(key);
    } else {
      var next := Min(from + n, |picks|);
      var batch, rest := picks[from..next], picks[next..];
      BackfillIsExact(picks, n, next, key);
      assert picks[from..] == batch + rest;
      FlushedStep(picks, n, from, key);
      SumSplits(batch, rest, key);
      SumOfWholeCents(batch, key);
      SumOfWholeCents(rest, key);
      StoringWholeCents(Sum(batch, key), Sum(rest, key));
    }
  }

  lemma SumOfNone(key: Key)
    ensures Sum([], key) == ZERO && Stored(ZERO) == ZERO
  {
    StoringFollows(ZERO);
  }

  /** When every pick of the group contributes whole cents, both algorithms write the same row. */
  lemma BackfillEqualsRecompute(picks: seq<Pick>, n: nat, key: Key)
    requires n >= 1
    requires forall i :: 0 <= i < |picks| && Touches(picks[i], key) ==> WholeCents(Contribution(picks[i]).amounts)
    ensures Flushed(picks, n, 0, key) == Recomputed(picks, key)
  {
    BackfillIsExact(picks, n, 0, key);
    assert picks[0..] == picks;
  }

  /** Every pick the services keep contributes whole cents. */
  lemma KeptPicksAreWholeCents(p: Pick)
    requires PickOk(p)
    ensures WholeCents(Contribution(p).amounts)
  {
    assert p.profit.None? && p.settledReturn.None? ==> SettlementFor(p.status, p.stake, p.odds) == (None, None);
    hide SettlementFor;
  }

  // ---- What the columns of a row mean ----

  function OrZero(amount: Option<int>): int {
    if amount.Some? then amount.value else 0
  }

  /** The sum of a money column over the picks of a group, null counting as zero. */
  function ColumnSum(picks: seq<Pick>, key: Key, column: Pick -> Option<int>): int {
    if picks == [] then 0
    else
      var p := picks[|picks| - 1];
      ColumnSum(picks[..|picks| - 1], key, column) + (if Touches(p, key) then OrZero(column(p)) else 0)
  }

  /** The positions of the picks of a group that have one of the given statuses. */
  function Members(picks: seq<Pick>, key: Key, statuses: set<Status>): set<nat> {
    set i: nat | i < |picks| && Touches(picks[i], key) && picks[i].status in statuses
  }

  const ANY: set<Status> := {Status.Won, Status.Lost, Status.Push, Status.Pending, Status.Void}

  /** A row in cents says of its group how many picks it has, with which statuses, and what their stake, profit
      and return columns add up to. */
  ghost predicate Describes(row: Totals, picks: seq<Pick>, key: Key) {
    && row.amounts.count == |Members(picks, key, ANY)|
    && row.amounts.stake == ColumnSum(picks, key, (p: Pick) => p.stake)
    && row.amounts.profit == ColumnSum(picks, key, (p: Pick) => p.profit)
    && row.amounts.settledReturn == ColumnSum(picks, key, (p: Pick) => p.settledReturn)
    && row.counts.won == |Members(picks, key, {Status.Won})|
    && row.counts.lost == |Members(picks, key, {Status.Lost})|
    && row.counts.push == |Members(picks, key, {Status.Push})|
    && row.counts.pending == |Members(picks, key, {Status.Pending})|
    && row.counts.voided == |Members(picks, key, {Status.Void})|
  }

  lemma OneMoreMember(picks: seq<Pick>, key: Key, statuses: set<Status>)
    requires picks != []
    ensures
      var n := |picks| - 1;
      |Members(picks, key, statuses)|
        == |Members(picks[..n], key, statuses)| + (if Touches(picks[n], key) && picks[n].status in statuses then 1 else 0)
  {
    hide Touches;
    var n := |picks| - 1;
    var before, after, more := Members(picks[..n], key, statuses), Members(picks, key, statuses),
                               Touches(picks[n], key) && picks[n].status in statuses;
    forall i: nat | i < n ensures i in before <==> i in after {
      assert picks[..n][i] == picks[i];
    }
    assert n in after <==> more;
    assert n !in before;
    assert after == if more then before + {n} else before;
  }

  lemma {:induction false} CountsAreMembers(picks: seq<Pick>, key: Key)
    ensures
      var t := Sum(picks, key);
      && t.amounts.count == |Members(picks, key, ANY)|
      && t.counts.won == |Members(picks, key, {Status.Won})|
      && t.counts.lost == |Members(picks, key, {Status.Lost})|
      && t.counts.push == |Members(picks, key, {Status.Push})|
      && t.counts.pending == |Members(picks, key, {Status.Pending})|
      && t.counts.voided == |Members(picks, key, {Status.Void})|
  {
    if picks == [] {
      assert forall statuses :: Members(picks, key, statuses) == {};
    } else {
      CountsAreMembers(picks[..|picks| - 1], key);
      OneMoreMember(picks, key, ANY);
      OneMoreMember(picks, key, {Status.Won});
      OneMoreMember(picks, key, {Status.Lost});
      OneMoreMember(picks, key, {Status.Push});
      OneMoreMember(picks, key, {Status.Pending});
      OneMoreMember(picks, key, {Status.Void});
      hide Members, SettlementFor, Touches;
    }
  }

  /** A kept pick contributes its own columns. */
  lemma KeptPickContributes(p: Pick)
    requires PickOk(p)
    ensures
      var c := Contribution(p).amounts;
      c.stake == FromCents(OrZero(p.stake)) && c.profit == FromCents(OrZero(p.profit)) && c.settledReturn == FromCents(OrZero(p.settledReturn))
  {
    assert p.profit.None? && p.settledReturn.None? ==> SettlementFor(p.status, p.stake, p.odds) == (None, None);
    hide SettlementFor;
  }

  lemma {:induction false} MoneyIsColumnSums(picks: seq<Pick>, key: Key)
    requires forall i :: 0 <= i < |picks| && Touches(picks[i], key) ==> PickOk(picks[i])
    ensures
      var t := Sum(picks, key).amounts;
      && t.stake == FromCents(ColumnSum(picks, key, (p: Pick) => p.stake))
      && t.profit == FromCents(ColumnSum(picks, key, (p: Pick) => p.profit))
      && t.settledReturn == FromCents(ColumnSum(picks, key, (p: Pick) => p.settledReturn))
  {
    if picks != [] {
      var n := |picks| - 1;
      assert forall i :: 0 <= i < n ==> picks[..n][i] == picks[i];
      MoneyIsColumnSums(picks[..n], key);
      hide Contribution, PickOk;
      if Touches(picks[n], key) {
        KeptPickContributes(picks[n]);
      }
    }
  }

  /** The row that a recompute writes for a group of picks that the services keep describes the group. */
  lemma RecomputedDescribes(picks: seq<Pick>, key: Key)
    requires forall i :: 0 <= i < |picks| && Touches(picks[i], key) ==> PickOk(picks[i])
    ensures Describes(Recomputed(picks, key), picks, key)
  {
    CountsAreMembers(picks, key);
    MoneyIsColumnSums(picks, key);
    hide Sum, Members, PickOk, Touches, ToCents, FromCents;
    ToCentsExact(ColumnSum(picks, key, (p: Pick) => p.stake));
    ToCentsExact(ColumnSum(picks, key, (p: Pick) => p.profit));
    ToCentsExact(ColumnSum(picks, key, (p: Pick) => p.settledReturn));
  }

  /** A row without result columns contributes what it would with them filled, to half a cent. */
  lemma UnfilledContributes(p: Pick, filled: Pick)
    requires p.profit.None? && p.settledReturn.None? && !p.status.Pending?
    requires filled == p.(settledReturn := filled.settledReturn, profit := filled.profit) && HoldsSettlement(filled)
    ensures
      var c, d := Contribution(p), Contribution(filled);
      && c.counts == d.counts && c.amounts.count == d.amounts.count && c.amounts.stake == d.amounts.stake
      && 2 * Abs(c.amounts.profit - d.amounts.profit) <= MICROS_PER_CENT
      && 2 * Abs(c.amounts.settledReturn - d.amounts.settledReturn) <= MICROS_PER_CENT
  {
    var s := SettlementFor(p.status, p.stake, p.odds);
    if s.0.Some? { ToCentsError(s.0.value); }
    if s.1.Some? { ToCentsError(s.1.value); }
    hide SettlementFor, ToCents;
  }
}
