/** Which bets and transactions a fiscal year takes in, and what each adds to its summary and its CSV
    (`app/services/fiscal_service.py`). */
module FiscalYears {
  import opened Money
  import opened Domain
  import opened Sorting
  import opened Fiscal

  // ---- Bets ----

  /** The date of a bet is that of its resolution, and of its run while it has none. */
  predicate DatedOn(b: Bet, d: Date) {
    b.resolvedOn == Some(d) || (b.resolvedOn.None? && b.runDate == d)
  }

  /** Everything a year says about its bets. */
  datatype Sums = Sums(winnings: int, losses: int, won: int, lost: int, rows: multiset<Row>)

  function SumsOf(bets: seq<Bet>, year: int): Sums {
    Sums(Winnings(bets, year), Losses(bets, year), Count(bets, Status.Won, year), Count(bets, Status.Lost, year), multiset(BetRows(bets, year)))
  }

  function Entered(s: Sums, b: Bet, year: int): Sums {
    Sums(s.winnings + Win(b, year), s.losses + Loss(b, year), s.won + (if CountsAs(b, Status.Won, year) then 1 else 0),
         s.lost + (if CountsAs(b, Status.Lost, year) then 1 else 0),
         s.rows + (if Reported(b, year) then multiset{BetRow(b)} else multiset{}))
  }

  lemma OneBetAtEnd(bets: seq<Bet>, b: Bet, year: int)
    ensures SumsOf(bets + [b], year) == Entered(SumsOf(bets, year), b, year)
  {
    hide Win, Loss, CountsAs, BetRow, Reported, Winnings, Losses, BetRows, Count;
    OneBetMore(bets, b, year);
    LostAtEnd(bets, b, year);
    OneRowMore(BetRows(bets, year), BetRow(b));
  }

  lemma LostAtEnd(bets: seq<Bet>, b: Bet, year: int)
    ensures Count(bets + [b], Status.Lost, year) == Count(bets, Status.Lost, year) + (if CountsAs(b, Status.Lost, year) then 1 else 0)
  {
    assert (bets + [b])[..|bets|] == bets;
    hide CountsAs;
  }

  lemma OneRowMore(rows: seq<Row>, r: Row)
    ensures multiset(rows + [r]) == multiset(rows) + multiset{r} && multiset(rows + []) == multiset(rows)
  {
    assert rows + [] == rows;
  }

  lemma EnteringCommutes(s: Sums, b: Bet, c: Bet, year: int)
    ensures Entered(Entered(s, b, year), c, year) == Entered(Entered(s, c, year), b, year)
  {
    hide Win, Loss, CountsAs, BetRow, Reported;
  }

  /** A bet enters each sum of a year the same way, whatever order the query returns the bets in. */
  lemma {:induction false} OneBetAmong(left: seq<Bet>, b: Bet, right: seq<Bet>, year: int)
    ensures SumsOf(left + [b] + right, year) == Entered(SumsOf(left + right, year), b, year)
  {
    hide SumsOf, Entered;
    if right == [] {
      assert left + [b] + right == left + [b] && left + right == left;
      OneBetAtEnd(left, b, year);
    } else {
      var n := |right| - 1;
      assert left + [b] + right == (left + [b] + right[..n]) + [right[n]] && left + right == (left + right[..n]) + [right[n]];
      OneBetAmong(left, b, right[..n], year);
      OneBetAtEnd(left + [b] + right[..n], right[n], year);
      OneBetAtEnd(left + right[..n], right[n], year);
      EnteringCommutes(SumsOf(left + right[..n], year), b, right[n], year);
    }
  }

  /** What one bet does to the year of its date: its gain or its stake enters the summary, and its row the CSV, with
      that date. Every other year is left alone, and so is its own while it is pending. */
  lemma BetCountsInItsYear(left: seq<Bet>, b: Bet, right: seq<Bet>, d: Date, txns: seq<Transaction>, year: int)
    requires DatedOn(b, d)
    ensures
      var s, t := FiscalSummary(left + [b] + right, txns, year), FiscalSummary(left + right, txns, year);
      var won := year == d.year && b.stake.Some? && b.status.Won?;
      var lost := year == d.year && b.stake.Some? && b.status.Lost?;
      && s.won == t.won + (if won then 1 else 0) && s.lost == t.lost + (if lost then 1 else 0)
      && (!won && !lost ==> s == t)
      && (won ==> s.losses == t.losses && Abs(10_000 * (s.winnings - t.winnings) - b.stake.value * (b.odds - 10_000)) <= 10_000)
      && (lost ==> s.winnings == t.winnings && s.losses == t.losses + b.stake.value)
    ensures
      multiset(DetailRows(left + [b] + right, txns, year))
        == multiset(DetailRows(left + right, txns, year))
           + (if year == d.year && !b.status.Pending? then multiset{BetRow(b)} else multiset{})
    ensures BetRow(b).date == d
  {
    hide *;
    SharesOf(b, d, year);
    OneBetAmong(left, b, right, year);
    BetsInSummary(left + [b] + right, left + right, b, txns, year);
    RowsInCsv(left + [b] + right, left + right, b, txns, year);
  }

  lemma RowsInCsv(after: seq<Bet>, before: seq<Bet>, b: Bet, txns: seq<Transaction>, year: int)
    requires SumsOf(after, year) == Entered(SumsOf(before, year), b, year)
    ensures multiset(DetailRows(after, txns, year))
         == multiset(DetailRows(before, txns, year)) + (if Reported(b, year) then multiset{BetRow(b)} else multiset{})
  {
    hide DetailRows, BetRows, TxnRows, BetRow, Reported, Win, Loss, CountsAs, Winnings, Losses, Count;
    CsvIsSortedPermutation(after, txns, year);
    CsvIsSortedPermutation(before, txns, year);
  }

  lemma BetsInSummary(after: seq<Bet>, before: seq<Bet>, b: Bet, txns: seq<Transaction>, year: int)
    requires SumsOf(after, year) == Entered(SumsOf(before, year), b, year)
    ensures
      var s, t := FiscalSummary(after, txns, year), FiscalSummary(before, txns, year);
      var won, lost := CountsAs(b, Status.Won, year), CountsAs(b, Status.Lost, year);
      && s.won == t.won + (if won then 1 else 0) && s.lost == t.lost + (if lost then 1 else 0)
      && (Win(b, year) == 0 ==> s.winnings == t.winnings)
      && (Win(b, year) == 0 && Loss(b, year) == 0 && !won && !lost ==> s == t)
      && s.losses == t.losses + Loss(b, year)
      && Abs(10_000 * (s.winnings - t.winnings) - Win(b, year)) <= 10_000
  {
    hide Quantize, BetRow, Win, Loss, CountsAs, Reported, Winnings, Losses, Count, BetRows, Flow;
    QuantizeError(Winnings(before, year));
    QuantizeError(Winnings(after, year));
    QuantizeExact(Losses(before, year));
    QuantizeExact(Losses(after, year));
  }

  /** One bet's part in the sums of a year, by its date. */
  lemma SharesOf(b: Bet, d: Date, year: int)
    requires DatedOn(b, d)
    ensures
      var won, lost := year == d.year && b.stake.Some? && b.status.Won?, year == d.year && b.stake.Some? && b.status.Lost?;
      && Win(b, year) == (if won then b.stake.value * (b.odds - 10_000) else 0)
      && Loss(b, year) == (if lost then b.stake.value else 0)
      && (CountsAs(b, Status.Won, year) <==> won) && (CountsAs(b, Status.Lost, year) <==> lost)
    ensures Reported(b, year) <==> year == d.year && !b.status.Pending?
    ensures BetRow(b).date == d
  {
    if b.stake.Some? {
      assert b.stake.value * (b.odds - 10_000) == b.stake.value * b.odds - FromCents(b.stake.value);
    }
  }

  /** The money in a bet's row: a won bet's stake out and its return in, to the nearest cent, a lost bet's stake out,
      and nothing for a push or a void. Odds stored as zero count as one. */
  lemma RowOfBet(b: Bet)
    ensures
      var r, stake := BetRow(b), if b.stake.Some? then b.stake.value else 0;
      && r.record.PickRow? && r.net == r.credit - r.debit
      && r.debit == (if b.status.Won? || b.status.Lost? then stake else 0)
      && (b.status.Won? ==> 2 * Abs(10_000 * r.credit - stake * (if b.odds == 0 then 10_000 else b.odds)) <= 10_000)
      && (!b.status.Won? ==> r.credit == 0)
  {
    var stake := if b.stake.Some? then b.stake.value else 0;
    QuantizeError(stake * (if b.odds == 0 then 10_000 else b.odds));
    hide Quantize;
  }

  // ---- Transactions ----

  function MoneyIn(t: Transaction, year: int): int {
    if t.taxYear == year && (t.kind.Deposit? || t.kind.Bonus?) then t.amount * t.rate else 0
  }

  function MoneyOut(t: Transaction, year: int): int {
    if t.taxYear == year && t.kind.Withdrawal? then t.amount * t.rate else 0
  }

  /** What the summary leaves out of its cash flow. */
  function MoneyBeside(t: Transaction, year: int): int {
    if t.taxYear == year && (t.kind.Commission? || t.kind.VoidRefund?) then t.amount * t.rate else 0
  }

  function Total(txns: seq<Transaction>, share: Transaction -> int): int {
    if txns == [] then 0 else share(txns[0]) + Total(txns[1..], share)
  }

  lemma {:induction false} TotalAdds(txns: seq<Transaction>, t: Transaction, share: Transaction -> int)
    ensures Total(txns + [t], share) == Total(txns, share) + share(t)
  {
    if txns == [] {
      assert [] + [t] == [t] && [t][1..] == [];
      assert Total([t], share) == share(t) + Total([], share);
    } else {
      assert (txns + [t])[1..] == txns[1..] + [t];
      TotalAdds(txns[1..], t, share);
    }
  }

  function Beside(txns: seq<Transaction>, year: int): int {
    Total(txns, (t: Transaction) => MoneyBeside(t, year))
  }

  function Number(txns: seq<Transaction>, year: int): int {
    Total(txns, (t: Transaction) => if t.taxYear == year then 1 else 0)
  }

  lemma {:induction false} FlowIsTotal(txns: seq<Transaction>, year: int)
    ensures Flow(txns, true, year) == Total(txns, (t: Transaction) => MoneyIn(t, year))
    ensures Flow(txns, false, year) == Total(txns, (t: Transaction) => MoneyOut(t, year))
  {
    if txns != [] {
      var n := |txns| - 1;
      assert txns == txns[..n] + [txns[n]];
      FlowIsTotal(txns[..n], year);
      TotalAdds(txns[..n], txns[n], (t: Transaction) => MoneyIn(t, year));
      TotalAdds(txns[..n], txns[n], (t: Transaction) => MoneyOut(t, year));
      hide Total;
    }
  }

  /** The summary's flows are the nearest cents to the sums of amount times rate over the year's deposits and bonuses,
      over its withdrawals, and to their difference. */
  lemma FlowsAreNearest(bets: seq<Bet>, txns: seq<Transaction>, year: int)
    ensures
      var s := FiscalSummary(bets, txns, year);
      var entered, left := Total(txns, (t: Transaction) => MoneyIn(t, year)), Total(txns, (t: Transaction) => MoneyOut(t, year));
      && 2 * Abs(10_000 * s.deposits - entered) <= 10_000
      && 2 * Abs(10_000 * s.withdrawals - left) <= 10_000
      && 2 * Abs(10_000 * s.cashflow - (entered - left)) <= 10_000
  {
    FlowIsTotal(txns, year);
    QuantizeError(Flow(txns, true, year));
    QuantizeError(Flow(txns, false, year));
    QuantizeError(Flow(txns, true, year) - Flow(txns, false, year));
    hide Total, Flow, Quantize, Winnings, Losses, Count;
  }

  lemma RowOfTransaction(t: Transaction, year: int)
    requires t.taxYear == year
    ensures TxnRow(t).record.TransactionRow? && TxnRow(t).date == t.date
    ensures 2 * Abs(10_000 * TxnRow(t).net - (MoneyIn(t, year) - MoneyOut(t, year) + MoneyBeside(t, year))) <= 10_000
  {
    QuantizeError(t.amount * t.rate);
    hide Quantize;
  }

  /** How far the net of the transaction rows is from the exact flows. */
  function FlowGap(txns: seq<Transaction>, year: int): int {
    10_000 * Net(TxnRows(txns, year), TransactionRow) - (Flow(txns, true, year) - Flow(txns, false, year)) - Beside(txns, year)
  }

  lemma {:induction false} TxnRowsFollowTheFlows(txns: seq<Transaction>, year: int)
    ensures 2 * Abs(FlowGap(txns, year)) <= 10_000 * Number(txns, year)
  {
    if txns != [] {
      var n := |txns| - 1;
      TxnRowsFollowTheFlows(txns[..n], year);
      GapGrows(txns[..n], txns[n], year);
      assert txns == txns[..n] + [txns[n]];
      hide FlowGap, Number;
    }
  }

  lemma GapGrows(txns: seq<Transaction>, t: Transaction, year: int)
    ensures t.taxYear == year ==> 2 * Abs(FlowGap(txns + [t], year) - FlowGap(txns, year)) <= 10_000
    ensures t.taxYear != year ==> FlowGap(txns + [t], year) == FlowGap(txns, year)
    ensures Number(txns + [t], year) == Number(txns, year) + (if t.taxYear == year then 1 else 0)
  {
    var all := txns + [t];
    TotalAdds(txns, t, (t: Transaction) => MoneyBeside(t, year));
    TotalAdds(txns, t, (t: Transaction) => if t.taxYear == year then 1 else 0);
    assert all[..|txns|] == txns;
    hide Total;
    if t.taxYear == year {
      assert TxnRows(all, year) == TxnRows(txns, year) + [TxnRow(t)];
      NetAdds(TxnRows(txns, year), TxnRow(t), TransactionRow);
      RowOfTransaction(t, year);
      hide TxnRow, Net, TxnRows;
    } else {
      assert TxnRows(all, year) == TxnRows(txns, year);
      hide TxnRow, Net, TxnRows;
    }
  }

  lemma {:induction false} NoTransactionRows(bets: seq<Bet>, year: int)
    ensures Net(BetRows(bets, year), TransactionRow) == 0
  {
    if bets != [] {
      var n := |bets| - 1;
      NoTransactionRows(bets[..n], year);
      if Reported(bets[n], year) {
        assert BetRow(bets[n]).record.PickRow?;
        NetAdds(BetRows(bets[..n], year), BetRow(bets[n]), TransactionRow);
      } else {
        assert BetRows(bets, year) == BetRows(bets[..n], year);
      }
      hide BetRow;
    }
  }

  lemma {:induction false} NetOfConcat(rows: seq<Row>, more: seq<Row>, record: RecordType)
    ensures Net(rows + more, record) == Net(rows, record) + Net(more, record)
  {
    if more == [] {
      assert rows + more == rows;
    } else {
      var n := |more| - 1;
      assert rows + more == (rows + more[..n]) + [more[n]];
      NetOfConcat(rows, more[..n], record);
      NetAdds(rows + more[..n], more[n], record);
    }
  }

  /** The net of the year's transaction rows in the CSV differs from the summary's cash flow, once commissions and
      refunds of voids are set aside, by at most a half-cent per transaction and one more. The CSV enters those
      two kinds as money in and the summary not at all, so a year with more of them than that cannot agree. */
  lemma CashflowAgrees(bets: seq<Bet>, txns: seq<Transaction>, year: int)
    ensures
      var csv, s := Net(DetailRows(bets, txns, year), TransactionRow), FiscalSummary(bets, txns, year);
      && 2 * Abs(10_000 * (csv - s.cashflow) - Beside(txns, year)) <= 10_000 * (Number(txns, year) + 1)
      && (Beside(txns, year) == 0 ==> 2 * Abs(csv - s.cashflow) <= Number(txns, year) + 1)
      && (Abs(Beside(txns, year)) > 10_000 * (Number(txns, year) + 1) ==> 2 * Abs(csv - s.cashflow) > Number(txns, year) + 1)
  {
    NetOfSorted(BetRows(bets, year) + TxnRows(txns, year), TransactionRow);
    NetOfConcat(BetRows(bets, year), TxnRows(txns, year), TransactionRow);
    NoTransactionRows(bets, year);
    TxnRowsFollowTheFlows(txns, year);
    QuantizeError(Flow(txns, true, year) - Flow(txns, false, year));
    hide Net, Winnings, Losses, Count, BetRows, TxnRows, Sorted, Quantize, Beside, Number, Flow;
  }

  // ---- The order of the rows ----

  predicate OnCalendar(d: Date) {
    1 <= d.month <= 12 && 1 <= d.day <= 31
  }

  /** The earlier year, month or day first, in this order. */
  predicate NotAfter(d: Date, e: Date) {
    d.year < e.year || (d.year == e.year && (d.month < e.month || (d.month == e.month && d.day <= e.day)))
  }

  /** The rows of the CSV come in the order of the calendar. */
  lemma CsvIsChronological(bets: seq<Bet>, txns: seq<Transaction>, year: int, i: nat, j: nat)
    requires i < j < |DetailRows(bets, txns, year)|
    requires OnCalendar(DetailRows(bets, txns, year)[i].date) && OnCalendar(DetailRows(bets, txns, year)[j].date)
    ensures NotAfter(DetailRows(bets, txns, year)[i].date, DetailRows(bets, txns, year)[j].date)
  {
    CsvIsSortedPermutation(bets, txns, year);
    hide DetailRows;
  }

  // ---- Two years ----

  /** 100.00 at 2.5000, run on the last day of 2024 and won on the second day of 2025. */
  function OverNewYear(): Bet {
    Bet(Status.Won, Some(10_000), 25_000, Date(2024, 12, 31), Some(Date(2025, 1, 2)))
  }

  /** Its 150.00 are winnings of 2025, and 2024 shows nothing of it. */
  lemma OverNewYearCounts()
    ensures FiscalSummary([OverNewYear()], [], 2025).winnings == 15_000 && FiscalSummary([OverNewYear()], [], 2025).won == 1
    ensures FiscalSummary([OverNewYear()], [], 2024).winnings == 0 && FiscalSummary([OverNewYear()], [], 2024).won == 0
    ensures DetailRows([OverNewYear()], [], 2024) == [] && |DetailRows([OverNewYear()], [], 2025)| == 1
  {
    var b := OverNewYear();
    NothingReported(2024);
    NothingReported(2025);
    assert [] + [b] == [b];
    OneBetMore([], b, 2024);
    OneBetMore([], b, 2025);
    CsvIsSortedPermutation([b], [], 2024);
    CsvIsSortedPermutation([b], [], 2025);
    QuantizeExact(15_000);
    QuantizeExact(0);
    assert Win(b, 2025) == FromCents(15_000) && Win(b, 2024) == 0;
    hide Sorted, Quantize, Winnings, Losses, BetRows, Count, TxnRows, DetailRows, BetRow, Win;
    assert |multiset(DetailRows([b], [], 2024))| == 0 && |multiset(DetailRows([b], [], 2025))| == 1;
  }

  /** A commission of 10.00 is money in for the CSV and does not exist for the summary. */
  function PaidCommission(): Transaction {
    Transaction(Commission, 1_000, 10_000, 2025, Date(2025, 1, 2))
  }

  lemma CommissionSeparates()
    ensures Net(DetailRows([], [PaidCommission()], 2025), TransactionRow) == 1_000
    ensures FiscalSummary([], [PaidCommission()], 2025).cashflow == 0
  {
    var t := PaidCommission();
    NothingReported(2025);
    assert [t][..0] == [];
    QuantizeExact(1_000);
    QuantizeExact(0);
    var row := TxnRow(t);
    assert row.net == 1_000;
    assert TxnRows([t], 2025) == TxnRows([], 2025) + [row];
    assert [] + [row] == [row];
    NetOfSorted([row], TransactionRow);
    NetAdds([], row, TransactionRow);
    assert Flow([t], true, 2025) == 0 && Flow([t], false, 2025) == 0 by { assert Flow([], true, 2025) == 0 && Flow([], false, 2025) == 0; }
    hide Sorted, Quantize, TxnRow, Net, Flow;
  }
}
