/** The fiscal summary and its CSV (`app/services/fiscal_service.py`). Products of a stake and its
    odds are exact micros; `quantize` rounds half to even. */
module Fiscal {
  import opened Money
  import opened Domain
  import opened Sorting

  datatype Date = Date(year: int, month: nat, day: nat)

  /** ISO dates compare as this number does. */
  function Ordinal(d: Date): int {
    d.year * 10_000 + d.month * 100 + d.day
  }

  /** The columns of a pick that the fiscal service reads. */
  datatype Bet = Bet(status: Status, stake: Option<int>, odds: int, runDate: Date, resolvedOn: Option<Date>)

  datatype Kind = Deposit | Bonus | Withdrawal | Commission | VoidRefund

  /** The exchange rate is scaled by 10^4, so the amount in MXN is exact in micros. */
  datatype Transaction = Transaction(kind: Kind, amount: int, rate: int, taxYear: int, date: Date)

  datatype RecordType = PickRow | TransactionRow

  datatype Row = Row(record: RecordType, date: Date, debit: int, credit: int, net: int)

  function Quantize(micros: int): int {
    HalfEven(micros, MICROS_PER_CENT)
  }

  function FiscalDate(b: Bet): Date {
    if b.resolvedOn.Some? then b.resolvedOn.value else b.runDate
  }

  // ---- The SQL sums of the summary ----

  predicate CountsAs(b: Bet, status: Status, year: int) {
    b.status == status && b.stake.Some? && FiscalDate(b).year == year
  }

  /** One bet in the sum over won picks, in micros. */
  function Win(b: Bet, year: int): int {
    if CountsAs(b, Status.Won, year) then b.stake.value * b.odds - FromCents(b.stake.value) else 0
  }

  /** One bet in the sum over lost picks, in cents. */
  function Loss(b: Bet, year: int): int {
    if CountsAs(b, Status.Lost, year) then b.stake.value else 0
  }

  function Winnings(bets: seq<Bet>, year: int): int {
    if bets == [] then 0 else Winnings(bets[..|bets| - 1], year) + Win(bets[|bets| - 1], year)
  }

  function Losses(bets: seq<Bet>, year: int): int {
    if bets == [] then 0 else Losses(bets[..|bets| - 1], year) + Loss(bets[|bets| - 1], year)
  }

  function Count(bets: seq<Bet>, status: Status, year: int): nat {
    if bets == [] then 0
    else Count(bets[..|bets| - 1], status, year) + (if CountsAs(bets[|bets| - 1], status, year) then 1 else 0)
  }

  function Flow(txns: seq<Transaction>, inflow: bool, year: int): int {
    if txns == [] then 0
    else
      var t := txns[|txns| - 1];
      Flow(txns[..|txns| - 1], inflow, year)
      + (if t.taxYear == year && (if inflow then t.kind.Deposit? || t.kind.Bonus? else t.kind.Withdrawal?) then t.amount * t.rate else 0)
  }

  datatype Summary = Summary(winnings: int, losses: int, net: int, won: nat, lost: nat, deposits: int, withdrawals: int,
                             cashflow: int, taxable: int)

  /** `get_fiscal_summary`. */
  function FiscalSummary(bets: seq<Bet>, txns: seq<Transaction>, year: int): Summary {
    var winnings, losses := Winnings(bets, year), FromCents(Losses(bets, year));
    var deposits, withdrawals := Flow(txns, true, year), Flow(txns, false, year);
    var net := winnings - losses;
    Summary(Quantize(winnings), Quantize(losses), Quantize(net), Count(bets, Status.Won, year), Count(bets, Status.Lost, year),
            Quantize(deposits), Quantize(withdrawals), Quantize(deposits - withdrawals), Quantize(if net > 0 then net else 0))
  }

  // ---- The rows of the CSV ----

  /** A missing stake counts as zero, and missing or zero odds count as one. */
  function BetRow(b: Bet): Row {
    var stake := if b.stake.Some? then b.stake.value else 0;
    var odds := if b.odds == 0 then ODDS_ONE else b.odds;
    var debit := if b.status.Won? || b.status.Lost? then stake else 0;
    var credit := if b.status.Won? then Quantize(stake * odds) else 0;
    Row(PickRow, FiscalDate(b), debit, credit, credit - debit)
  }

  function TxnRow(t: Transaction): Row {
    var amount := Quantize(t.amount * t.rate);
    if t.kind.Withdrawal? then Row(TransactionRow, t.date, amount, 0, -amount)
    else Row(TransactionRow, t.date, 0, amount, amount)
  }

  /** Settled, and in the fiscal year. */
  predicate Reported(b: Bet, year: int) {
    b.status.Terminal() && FiscalDate(b).year == year
  }

  function BetRows(bets: seq<Bet>, year: int): seq<Row> {
    if bets == [] then []
    else
      var b := bets[|bets| - 1];
      BetRows(bets[..|bets| - 1], year) + (if Reported(b, year) then [BetRow(b)] else [])
  }

  function TxnRows(txns: seq<Transaction>, year: int): seq<Row> {
    if txns == [] then []
    else
      var t := txns[|txns| - 1];
      TxnRows(txns[..|txns| - 1], year) + (if t.taxYear == year then [TxnRow(t)] else [])
  }

  function ByDate(r: Row): int {
    Ordinal(r.date)
  }

  function DetailRows(bets: seq<Bet>, txns: seq<Transaction>, year: int): seq<Row> {
    Sorted(BetRows(bets, year) + TxnRows(txns, year), ByDate)
  }

  /** The CSV is a date-sorted permutation of the rows of the year. */
  lemma CsvIsSortedPermutation(bets: seq<Bet>, txns: seq<Transaction>, year: int)
    ensures multiset(DetailRows(bets, txns, year)) == multiset(BetRows(bets, year)) + multiset(TxnRows(txns, year))
    ensures Ascending(DetailRows(bets, txns, year), ByDate)
  {
    SortIsStable(BetRows(bets, year) + TxnRows(txns, year), ByDate);
  }

  /** `get_fiscal_detail_rows`, given the tables in the order the queries return them. */
  method FiscalDetailRows(bets: seq<Bet>, txns: seq<Transaction>, year: int) returns (rows: seq<Row>)
    ensures rows == DetailRows(bets, txns, year)
  {
    rows := [];
    for i := 0 to |bets|
      invariant rows == BetRows(bets[..i], year)
    {
      assert bets[..i + 1][..i] == bets[..i];
      if Reported(bets[i], year) {
        rows := rows + [BetRow(bets[i])];
      }
    }
    assert bets[..|bets|] == bets;
    ghost var picks := rows;
    for i := 0 to |txns|
      invariant rows == picks + TxnRows(txns[..i], year)
    {
      assert txns[..i + 1][..i] == txns[..i];
      if txns[i].taxYear == year {
        rows := rows + [TxnRow(txns[i])];
      }
    }
    assert txns[..|txns|] == txns;
    rows := Sorted(rows, ByDate);
  }

  // ---- Reconciling the CSV with the summary ----

  function Net(rows: seq<Row>, record: RecordType): int {
    if rows == [] then 0
    else Net(rows[..|rows| - 1], record) + (if rows[|rows| - 1].record == record then rows[|rows| - 1].net else 0)
  }

  lemma NetAdds(rows: seq<Row>, r: Row, record: RecordType)
    ensures Net(rows + [r], record) == Net(rows, record) + (if r.record == record then r.net else 0)
  {
    assert (rows + [r])[..|rows|] == rows;
  }

  lemma {:induction false} NetOfInserted(rows: seq<Row>, r: Row, record: RecordType)
    ensures Net(Insert(rows, r, ByDate), record) == Net(rows, record) + (if r.record == record then r.net else 0)
  {
    if rows == [] || ByDate(rows[|rows| - 1]) <= ByDate(r) {
      NetAdds(rows, r, record);
    } else {
      var n := |rows| - 1;
      NetOfInserted(rows[..n], r, record);
      NetAdds(Insert(rows[..n], r, ByDate), rows[n], record);
    }
  }

  lemma {:induction false} NetOfSorted(rows: seq<Row>, record: RecordType)
    ensures Net(Sorted(rows, ByDate), record) == Net(rows, record)
  {
    if rows != [] {
      NetOfSorted(rows[..|rows| - 1], record);
      NetOfInserted(Sorted(rows[..|rows| - 1], ByDate), rows[|rows| - 1], record);
    }
  }

  lemma {:induction false} NetOfTxnRows(rows: seq<Row>, txns: seq<Transaction>, year: int)
    ensures Net(rows + TxnRows(txns, year), PickRow) == Net(rows, PickRow)
  {
    if txns == [] {
      assert rows + TxnRows(txns, year) == rows;
    } else {
      var n := |txns| - 1;
      NetOfTxnRows(rows, txns[..n], year);
      if txns[n].taxYear == year {
        NetAdds(rows + TxnRows(txns[..n], year), TxnRow(txns[n]), PickRow);
        assert rows + TxnRows(txns, year) == rows + TxnRows(txns[..n], year) + [TxnRow(txns[n])];
      } else {
        assert rows + TxnRows(txns, year) == rows + TxnRows(txns[..n], year);
      }
    }
  }

  /** A won bet stored with zero odds: the summary counts its stake lost, the CSV counts it returned. */
  function ZeroOddsStake(b: Bet, year: int): int {
    if CountsAs(b, Status.Won, year) && b.odds == 0 then b.stake.value else 0
  }

  function ZeroOddsStakes(bets: seq<Bet>, year: int): int {
    if bets == [] then 0 else ZeroOddsStakes(bets[..|bets| - 1], year) + ZeroOddsStake(bets[|bets| - 1], year)
  }

  lemma QuantizeError(micros: int)
    ensures 2 * Abs(FromCents(Quantize(micros)) - micros) <= MICROS_PER_CENT
  {
    HalfEvenError(micros, MICROS_PER_CENT);
  }

  lemma QuantizeExact(cents: int)
    ensures Quantize(FromCents(cents)) == cents
  {
  }

  lemma WonRowError(b: Bet)
    requires b.status.Won? && b.stake.Some?
    ensures 2 * Abs(FromCents(BetRow(b).net) - (b.stake.value * b.odds - FromCents(b.stake.value))
                    - (if b.odds == 0 then FromCents(b.stake.value) else 0)) <= MICROS_PER_CENT
  {
    hide Quantize;
    var stake := b.stake.value;
    if b.odds == 0 {
      QuantizeExact(stake);
      assert BetRow(b).net == 0;
    } else {
      QuantizeError(stake * b.odds);
      assert BetRow(b).net == Quantize(stake * b.odds) - stake;
    }
  }

  lemma PlainRow(b: Bet)
    requires b.status.Won? ==> b.stake.None?
    ensures BetRow(b).net == if b.status.Lost? && b.stake.Some? then -b.stake.value else 0
  {
    QuantizeExact(0);
    hide Quantize;
  }

  /** What one bet adds to the distance between the CSV and the exact sums, in micros. */
  function Excess(b: Bet, year: int): int {
    (if Reported(b, year) then FromCents(BetRow(b).net) else 0) - Win(b, year) + FromCents(Loss(b, year)) - FromCents(ZeroOddsStake(b, year))
  }

  lemma ExcessIsSmall(b: Bet, year: int)
    ensures 2 * Abs(Excess(b, year)) <= if CountsAs(b, Status.Won, year) then MICROS_PER_CENT else 0
  {
    CentsAdd(0, if b.stake.Some? then b.stake.value else 0);
    if b.status.Won? && b.stake.Some? {
      WonRowError(b);
    } else {
      PlainRow(b);
    }
    hide BetRow, FromCents;
  }

  lemma CentsAdd(a: int, b: int)
    ensures FromCents(a + b) == FromCents(a) + FromCents(b) && FromCents(0) == 0 && FromCents(-b) == -FromCents(b)
  {
  }

  function TotalExcess(bets: seq<Bet>, year: int): int {
    FromCents(Net(BetRows(bets, year), PickRow)) - Winnings(bets, year) + FromCents(Losses(bets, year)) - FromCents(ZeroOddsStakes(bets, year))
  }

  lemma ExcessAdds(bets: seq<Bet>, year: int)
    requires bets != []
    ensures TotalExcess(bets, year) == TotalExcess(bets[..|bets| - 1], year) + Excess(bets[|bets| - 1], year)
  {
    var n := |bets| - 1;
    var b := bets[n];
    NetAdds(BetRows(bets[..n], year), BetRow(b), PickRow);
    CentsAdd(Net(BetRows(bets[..n], year), PickRow), BetRow(b).net);
    CentsAdd(Losses(bets[..n], year), Loss(b, year));
    CentsAdd(ZeroOddsStakes(bets[..n], year), ZeroOddsStake(b, year));
    assert BetRow(b).record == PickRow;
    assert Net(BetRows(bets, year), PickRow) == Net(BetRows(bets[..n], year), PickRow) + (if Reported(b, year) then BetRow(b).net else 0) by {
      assert BetRows(bets[..n], year) + [] == BetRows(bets[..n], year);
      hide BetRow, Net;
    }
    hide BetRow, FromCents, Net, BetRows, Win, Loss, ZeroOddsStake;
  }

  lemma {:induction false} RowsFollowTheSums(bets: seq<Bet>, year: int)
    ensures 2 * Abs(TotalExcess(bets, year)) <= Count(bets, Status.Won, year) * MICROS_PER_CENT
  {
    if bets != [] {
      RowsFollowTheSums(bets[..|bets| - 1], year);
      ExcessAdds(bets, year);
      ExcessIsSmall(bets[|bets| - 1], year);
      hide TotalExcess, Excess;
    }
  }

  /** The net of the year's pick rows in the CSV differs from the summary's net gambling income, once
      the stakes of won bets with zero odds are set aside, by at most won + 1 half-cents. Without such
      bets the two agree to that bound; with more of them than the bound covers they cannot. */
  lemma CsvAgreesWithSummary(bets: seq<Bet>, txns: seq<Transaction>, year: int)
    ensures
      var csv, s := Net(DetailRows(bets, txns, year), PickRow), FiscalSummary(bets, txns, year);
      && 2 * Abs(csv - s.net - ZeroOddsStakes(bets, year)) <= s.won + 1
      && (ZeroOddsStakes(bets, year) == 0 ==> 2 * Abs(csv - s.net) <= s.won + 1)
      && (Abs(ZeroOddsStakes(bets, year)) > s.won + 1 ==> 2 * Abs(csv - s.net) > s.won + 1)
  {
    NetOfSorted(BetRows(bets, year) + TxnRows(txns, year), PickRow);
    NetOfTxnRows(BetRows(bets, year), txns, year);
    RowsFollowTheSums(bets, year);
    QuantizeError(Winnings(bets, year) - FromCents(Losses(bets, year)));
    hide Net, Winnings, Losses, ZeroOddsStakes, Count, BetRows, TxnRows, Sorted, Quantize;
  }

  // ---- Do the summary's own figures add up? ----

  /** Half-even rounding commutes with subtracting whole units except at a tie, where it does so
      exactly when the number of units is even. */
  lemma HalfEvenShiftIff(n: int, d: int, k: int)
    requires d > 0
    ensures HalfEven(n - k * d, d) == HalfEven(n, d) - k <==> 2 * (n % d) != d || k % 2 == 0
  {
    ShiftedParts(n, d, k);
  }

  lemma ShiftedParts(n: int, d: int, k: int)
    requires d > 0
    ensures (n - k * d) / d == n / d - k && (n - k * d) % d == n % d
  {
    var q, r := n / d, n % d;
    assert n == q * d + r;
    assert (q - k) * d == q * d - k * d;
    Quotient(n - k * d, d, q - k, r);
  }

  lemma Quotient(m: int, d: int, q: int, r: int)
    requires d > 0 && 0 <= r < d && m == q * d + r
    ensures m / d == q && m % d == r
  {
    var e := m / d - q;
    assert m == (m / d) * d + m % d;
    assert e * d == (m / d) * d - q * d;
    AtLeastOne(e, d);
  }

  lemma AtLeastOne(e: int, d: int)
    requires d > 0
    ensures e >= 1 ==> e * d >= d
    ensures e <= -1 ==> e * d <= -d
  {
    if e >= 1 { Scale(d, 1, e); }
    if e <= -1 { Scale(d, e, -1); }
  }

  /** The reported net equals reported winnings minus reported losses unless the exact winnings end
      in half a cent and the losses are an odd number of cents. */
  lemma SummaryAddsUpIff(bets: seq<Bet>, txns: seq<Transaction>, year: int)
    ensures
      var s := FiscalSummary(bets, txns, year);
      s.net == s.winnings - s.losses
      <==> 2 * (Winnings(bets, year) % MICROS_PER_CENT) != MICROS_PER_CENT || Losses(bets, year) % 2 == 0
  {
    QuantizeExact(Losses(bets, year));
    HalfEvenShiftIff(Winnings(bets, year), MICROS_PER_CENT, Losses(bets, year));
    hide Winnings, Losses, HalfEven;
  }

  lemma NothingReported(year: int)
    ensures Winnings([], year) == 0 && Losses([], year) == 0 && BetRows([], year) == [] && TxnRows([], year) == []
    ensures forall status :: Count([], status, year) == 0
    ensures forall record :: Net([], record) == 0
  {
  }

  /** One bet more in each sum. */
  lemma OneBetMore(bets: seq<Bet>, b: Bet, year: int)
    ensures Winnings(bets + [b], year) == Winnings(bets, year) + Win(b, year)
    ensures Losses(bets + [b], year) == Losses(bets, year) + Loss(b, year)
    ensures Count(bets + [b], Status.Won, year) == Count(bets, Status.Won, year) + (if CountsAs(b, Status.Won, year) then 1 else 0)
    ensures BetRows(bets + [b], year) == BetRows(bets, year) + (if Reported(b, year) then [BetRow(b)] else [])
  {
    assert (bets + [b])[..|bets|] == bets;
  }

  const DAY: Date := Date(2025, 1, 1)

  function HalfCent(): Bet {
    Bet(Status.Won, Some(1), 15_000, DAY, Some(DAY))
  }

  function LostCent(): Bet {
    Bet(Status.Lost, Some(1), 15_000, DAY, Some(DAY))
  }

  function ZeroOdds(): Bet {
    Bet(Status.Won, Some(1_000), 0, DAY, Some(DAY))
  }

  lemma Shares()
    ensures Win(HalfCent(), 2025) == 5_000 && Loss(HalfCent(), 2025) == 0 && Win(LostCent(), 2025) == 0 && Loss(LostCent(), 2025) == 1
    ensures Win(ZeroOdds(), 2025) == -10_000_000 && Loss(ZeroOdds(), 2025) == 0
    ensures BetRow(ZeroOdds()).net == 0 && BetRow(ZeroOdds()).record.PickRow? && Reported(ZeroOdds(), 2025) && CountsAs(ZeroOdds(), Status.Won, 2025)
    ensures Quantize(5_000) == 0 && FromCents(1) == 10_000 && Quantize(10_000) == 1 && Quantize(-5_000) == 0 && Quantize(-10_000_000) == -1_000
  {
  }

  /** A year in which they do not add up: half a cent of winnings on a stake of one cent, and a loss of one
      cent. Nothing is won, one cent is lost, and the net is zero. */
  lemma HalfCentYear()
    ensures
      var s := FiscalSummary([HalfCent(), LostCent()], [], 2025);
      s.winnings == 0 && s.losses == 1 && s.net == 0
  {
    hide Winnings, Losses, Count, HalfCent, LostCent, ZeroOdds, Win, Loss, Quantize, Flow, BetRow, CountsAs, Reported, FromCents;
    Shares();
    NothingReported(2025);
    OneBetMore([], HalfCent(), 2025);
    OneBetMore([HalfCent()], LostCent(), 2025);
    assert [] + [HalfCent()] == [HalfCent()] && [HalfCent()] + [LostCent()] == [HalfCent(), LostCent()];
  }

  /** A year in which the CSV and the summary are ten units apart over one bet: it was won, and stored with
      zero odds. */
  lemma ZeroOddsYear()
    ensures Net(DetailRows([ZeroOdds()], [], 2025), PickRow) == 0
    ensures FiscalSummary([ZeroOdds()], [], 2025).net == -1_000 && FiscalSummary([ZeroOdds()], [], 2025).won == 1
  {
    hide Winnings, Losses, Count, HalfCent, LostCent, ZeroOdds, Win, Loss, Quantize, Flow, BetRow, CountsAs, Reported, FromCents,
      BetRows, TxnRows, Net, Sorted;
    Shares();
    NothingReported(2025);
    OneBetMore([], ZeroOdds(), 2025);
    var row := BetRow(ZeroOdds());
    assert [] + [ZeroOdds()] == [ZeroOdds()] && [row] + [] == [row] && [] + [row] == [row];
    NetOfSorted([row], PickRow);
    NetAdds([], row, PickRow);
    assert FromCents(0) == 0 by { CentsAdd(0, 0); }
  }

  // ---- The picks the services keep ----

  /** A stored pick as the fiscal service reads it; the two functions are the calendar. */
  function BetOf(p: Pick, dayOf: int -> Date, dateOf: int -> Date): Bet {
    Bet(p.status, p.stake, p.odds, dayOf(p.runDate), if p.resolvedAt.Some? then Some(dateOf(p.resolvedAt.value)) else None)
  }

  function BetsOf(picks: seq<Pick>, dayOf: int -> Date, dateOf: int -> Date): seq<Bet> {
    seq(|picks|, i requires 0 <= i < |picks| => BetOf(picks[i], dayOf, dateOf))
  }

  lemma {:induction false} RealOddsLeaveNothing(bets: seq<Bet>, year: int)
    requires forall i :: 0 <= i < |bets| ==> bets[i].odds != 0
    ensures ZeroOddsStakes(bets, year) == 0
  {
    if bets != [] {
      RealOddsLeaveNothing(bets[..|bets| - 1], year);
    }
  }

  /** On the picks the services keep, the CSV agrees with the summary to won + 1 half-cents. */
  lemma KeptPicksAgree(picks: seq<Pick>, dayOf: int -> Date, dateOf: int -> Date, txns: seq<Transaction>, year: int)
    requires forall i :: 0 <= i < |picks| ==> PickOk(picks[i])
    ensures
      var bets := BetsOf(picks, dayOf, dateOf);
      var s := FiscalSummary(bets, txns, year);
      && ZeroOddsStakes(bets, year) == 0
      && 2 * Abs(Net(DetailRows(bets, txns, year), PickRow) - s.net) <= s.won + 1
  {
    var bets := BetsOf(picks, dayOf, dateOf);
    forall i | 0 <= i < |bets| ensures bets[i].odds != 0 {
      assert PickOk(picks[i]);
    }
    hide PickOk, DetailRows, FiscalSummary, Net;
    RealOddsLeaveNothing(bets, year);
    CsvAgreesWithSummary(bets, txns, year);
  }

  /** A kept settled pick's row shows exactly its stored profit, unless it was won and its return ends in
      half a cent after an even number of cents: the column rounds that up, the CSV to even. */
  lemma RowIsProfitIff(p: Pick, dayOf: int -> Date, dateOf: int -> Date)
    requires PickOk(p) && p.status.Terminal() && p.stake.Some?
    ensures p.profit.Some?
    ensures
      var exact := p.stake.value * p.odds;
      BetRow(BetOf(p, dayOf, dateOf)).net == p.profit.value
      <==> !(p.status.Won? && 2 * (exact % MICROS_PER_CENT) == MICROS_PER_CENT && (exact / MICROS_PER_CENT) % 2 == 0)
  {
    var stake := p.stake.value;
    ToCentsExact(0);
    ToCentsExact(stake);
    ToCentsExact(-stake);
    assert FromCents(-stake) == -FromCents(stake);
    if p.status.Won? {
      var exact := stake * p.odds;
      assert exact >= FromCents(stake) by { Scale(stake, ODDS_ONE, p.odds); }
      ProfitRounds(stake, exact);
      HalvesDiffer(exact);
      hide ToCents, Quantize;
    }
  }

  lemma ProfitRounds(stake: int, exact: int)
    requires stake >= 0 && exact >= FromCents(stake)
    ensures ToCents(exact - FromCents(stake)) == ToCents(exact) - stake
  {
    ToCentsShift(stake, exact - FromCents(stake));
  }

  lemma HalvesDiffer(exact: int)
    requires exact >= 0
    ensures Quantize(exact) == ToCents(exact) <==> !(2 * (exact % MICROS_PER_CENT) == MICROS_PER_CENT && (exact / MICROS_PER_CENT) % 2 == 0)
  {
  }

  /** The taxable base is the reported net when that is positive, and nothing otherwise. */
  lemma TaxableIsPositiveNet(bets: seq<Bet>, txns: seq<Transaction>, year: int)
    ensures
      var s := FiscalSummary(bets, txns, year);
      s.taxable == if s.net > 0 then s.net else 0
  {
    var net := Winnings(bets, year) - FromCents(Losses(bets, year));
    QuantizeError(net);
    QuantizeExact(0);
  }
}
