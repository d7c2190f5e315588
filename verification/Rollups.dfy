/** The two algorithms that fill the aggregate tables (`scripts/backfill_aggregates.py`,
    `app/services/aggregate_recompute.py`). */
module Rollups {
  import opened Money
  import opened Domain
  import opened Tables
  import opened Keyset
  import opened Aggregates

  // ---- Queries ----

  /** `ORDER BY pick_id`. */
  function ById(table: map<PickId, Pick>, ids: seq<PickId>): seq<Pick>
    requires forall i :: 0 <= i < |ids| ==> ids[i] in table
  {
    seq(|ids|, i requires 0 <= i < |ids| => table[ids[i]])
  }

  function AllPicks(table: map<PickId, Pick>): seq<Pick> {
    SortedIsOrder(table.Keys);
    ById(table, Sorted(table.Keys))
  }

  lemma AllPicksAre(table: map<PickId, Pick>)
    ensures |AllPicks(table)| == |Sorted(table.Keys)|
    ensures forall i :: 0 <= i < |AllPicks(table)| ==> Sorted(table.Keys)[i] in table && AllPicks(table)[i] == table[Sorted(table.Keys)[i]]
  {
    SortedIsOrder(table.Keys);
    hide Sorted;
    forall i | 0 <= i < |AllPicks(table)| ensures Sorted(table.Keys)[i] in table {
      assert Sorted(table.Keys)[i] in Sorted(table.Keys);
    }
  }

  function OnDay(picks: seq<Pick>, day: int): seq<Pick> {
    if picks == [] then []
    else
      var last := picks[|picks| - 1];
      OnDay(picks[..|picks| - 1], day) + (if last.runDate == day then [last] else [])
  }

  /** `WHERE run_date = day`, in whatever order the database returns the rows. */
  ghost predicate IsScan(scan: seq<Pick>, picks: seq<Pick>, day: int) {
    multiset(scan) == multiset(OnDay(picks, day))
  }

  lemma OnDayStep(picks: seq<Pick>, p: Pick, day: int)
    ensures OnDay(picks + [p], day) == if p.runDate == day then OnDay(picks, day) + [p] else OnDay(picks, day)
  {
    assert (picks + [p])[..|picks|] == picks;
  }

  lemma {:induction false} SumOfDay(picks: seq<Pick>, key: Key)
    ensures Sum(OnDay(picks, key.day), key) == Sum(picks, key)
    ensures SomeTouch(OnDay(picks, key.day), key) <==> SomeTouch(picks, key)
  {
    if picks == [] {
      assert OnDay(picks, key.day) == [];
    } else {
      var n := |picks| - 1;
      var before, p := picks[..n], picks[n];
      SumOfDay(before, key);
      assert picks == before + [p];
      hide Sum, OnDay, SomeTouch, Contribution, Plus;
      OnDayStep(before, p, key.day);
      SumGrows(before, p, key);
      SomeTouchGrows(before, p, key);
      SumGrows(OnDay(before, key.day), p, key);
      SomeTouchGrows(OnDay(before, key.day), p, key);
    }
  }

  lemma {:induction false} OnDayIsOfDay(picks: seq<Pick>, day: int)
    ensures forall i :: 0 <= i < |OnDay(picks, day)| ==> OnDay(picks, day)[i].runDate == day
  {
    if picks != [] {
      OnDayIsOfDay(picks[..|picks| - 1], day);
    }
  }

  lemma SomeTouchGrows(picks: seq<Pick>, p: Pick, key: Key)
    ensures SomeTouch(picks + [p], key) <==> SomeTouch(picks, key) || Touches(p, key)
  {
    if SomeTouch(picks, key) {
      var i :| 0 <= i < |picks| && Touches(picks[i], key);
      assert (picks + [p])[i] == picks[i];
    }
    if Touches(p, key) {
      assert (picks + [p])[|picks|] == p;
    }
  }

  lemma SumGrows(picks: seq<Pick>, p: Pick, key: Key)
    ensures Sum(picks + [p], key) == if Touches(p, key) then Plus(Sum(picks, key), Contribution(p)) else Sum(picks, key)
  {
    assert (picks + [p])[..|picks|] == picks;
  }

  lemma WithoutOne(a: seq<Pick>, left: seq<Pick>, x: Pick, right: seq<Pick>)
    requires multiset(a + [x]) == multiset(left + ([x] + right))
    ensures multiset(a) == multiset(left + right)
  {
    assert multiset(a) == multiset(a + [x]) - multiset{x};
    assert multiset(left + right) == multiset(left + ([x] + right)) - multiset{x};
  }

  lemma PlusCommutes(a: Totals, b: Totals, x: Totals)
    ensures Plus(a, Plus(x, b)) == Plus(Plus(a, b), x)
  {
  }

  /** Totals do not depend on the order the rows come back in. */
  lemma {:induction false} SumPermutes(a: seq<Pick>, b: seq<Pick>, key: Key)
    requires multiset(a) == multiset(b)
    ensures Sum(a, key) == Sum(b, key)
  {
    if a == [] {
      assert |multiset(b)| == 0;
    } else {
      var n := |a| - 1;
      var x := a[n];
      var j := IndexOf(b, x, a);
      var left, right := b[..j], b[j + 1..];
      hide *;
      assert a == a[..n] + [x];
      assert b == left + ([x] + right);
      WithoutOne(a[..n], left, x, right);
      SumPermutes(a[..n], left + right, key);
      SumSplits(a[..n], [x], key);
      SumSplits(left, [x] + right, key);
      SumSplits([x], right, key);
      SumSplits(left, right, key);
      PlusCommutes(Sum(left, key), Sum(right, key), Sum([x], key));
    }
  }

  lemma IndexOf(b: seq<Pick>, x: Pick, a: seq<Pick>) returns (j: nat)
    requires multiset(a) == multiset(b) && x in a
    ensures j < |b| && b[j] == x
  {
    assert x in multiset(b);
    j :| j < |b| && b[j] == x;
  }

  lemma TouchPermutes(a: seq<Pick>, b: seq<Pick>, key: Key)
    requires multiset(a) == multiset(b) && SomeTouch(a, key)
    ensures SomeTouch(b, key)
  {
    var i :| 0 <= i < |a| && Touches(a[i], key);
    assert a[i] in multiset(b);
  }

  lemma ScanSums(scan: seq<Pick>, picks: seq<Pick>, key: Key)
    requires IsScan(scan, picks, key.day)
    ensures Sum(scan, key) == Sum(picks, key) && (SomeTouch(scan, key) <==> SomeTouch(picks, key))
  {
    hide OnDay, Sum, SomeTouch;
    var rows := OnDay(picks, key.day);
    SumPermutes(scan, rows, key);
    SumOfDay(picks, key);
    if SomeTouch(scan, key) { TouchPermutes(scan, rows, key); }
    if SomeTouch(rows, key) { TouchPermutes(rows, scan, key); }
  }

  lemma ScanIsOnDay(scan: seq<Pick>, picks: seq<Pick>, day: int)
    requires IsScan(scan, picks, day)
    ensures forall i :: 0 <= i < |scan| ==> scan[i].runDate == day
  {
    OnDayIsOfDay(picks, day);
    forall i | 0 <= i < |scan| ensures scan[i].runDate == day {
      assert scan[i] in multiset(OnDay(picks, day));
    }
  }

  lemma WholePrefix(picks: seq<Pick>)
    ensures picks[..|picks|] == picks
  {
  }

  lemma PrefixGrows(picks: seq<Pick>, i: nat)
    requires i < |picks|
    ensures picks[..i] + [picks[i]] == picks[..i + 1]
  {
  }

  // ---- In-memory dictionaries of totals ----

  function At(rows: map<Key, Totals>, key: Key): Totals {
    if key in rows then rows[key] else ZERO
  }

  function GroupOf(p: Pick, perBook: bool): Key {
    if perBook then Book(p.runDate, p.book) else Day(p.runDate)
  }

  /** Exactly the touched groups of one grain, each with its exact totals. */
  ghost predicate Summarise(rows: map<Key, Totals>, picks: seq<Pick>, perBook: bool) {
    && (forall k :: k in rows <==> k.Book? == perBook && SomeTouch(picks, k))
    && (forall k :: k in rows ==> rows[k] == Sum(picks, k))
  }

  lemma SummariseGrows(rows: map<Key, Totals>, picks: seq<Pick>, p: Pick, perBook: bool)
    requires Summarise(rows, picks, perBook)
    ensures Summarise(rows[GroupOf(p, perBook) := Plus(At(rows, GroupOf(p, perBook)), Contribution(p))], picks + [p], perBook)
  {
    hide Contribution, Plus, Sum, SomeTouch;
    var g := GroupOf(p, perBook);
    forall k: Key ensures k.Book? == perBook && Touches(p, k) <==> k == g {
    }
    forall k: Key
      ensures SomeTouch(picks + [p], k) <==> SomeTouch(picks, k) || Touches(p, k)
      ensures Sum(picks + [p], k) == if Touches(p, k) then Plus(Sum(picks, k), Contribution(p)) else Sum(picks, k)
    {
      SomeTouchGrows(picks, p, k);
      SumGrows(picks, p, k);
    }
    if g !in rows {
      UntouchedIsZero(picks, g);
    }
  }

  class Buckets {
    var rows: map<Key, Totals>

    constructor ()
      ensures rows == map[]
    {
      rows := map[];
    }

    /** `_merge`. */
    method Merge(key: Key, contribution: Totals)
      modifies this
      ensures rows == old(rows)[key := Plus(At(old(rows), key), contribution)]
    {
      if key !in rows {
        rows := rows[key := ZERO];
      }
      rows := rows[key := Plus(rows[key], contribution)];
    }
  }

  // ---- The tables ----

  /** `INSERT ... ON CONFLICT DO UPDATE` adding the proposed row, already rounded to its columns. */
  function Added(table: map<Key, Totals>, rows: map<Key, Totals>): map<Key, Totals> {
    map k | k in table.Keys + rows.Keys :: if k in rows then Plus(At(table, k), Stored(rows[k])) else table[k]
  }

  /** The rows a backfill leaves on top of the rows it started from. */
  ghost predicate Backfilled(after: map<Key, Totals>, before: map<Key, Totals>, picks: seq<Pick>, n: nat, perBook: bool)
    requires n >= 1
  {
    && (forall k :: k in after <==> k in before || (k.Book? == perBook && SomeTouch(picks, k)))
    && (forall k :: k in after ==> after[k] == if k.Book? == perBook then Plus(At(before, k), Flushed(picks, n, 0, k)) else before[k])
  }

  /** The state between two batches: rows built so far plus batches still to come. */
  ghost predicate Halfway(now: map<Key, Totals>, before: map<Key, Totals>, picks: seq<Pick>, n: nat, from: nat, perBook: bool)
    requires n >= 1 && from <= |picks|
  {
    && (forall k :: k in now <==> k in before || (k.Book? == perBook && SomeTouch(picks[..from], k)))
    && (forall k: Key | k.Book? == perBook ::
          Plus(At(now, k), Flushed(picks, n, from, k)) == Plus(At(before, k), Flushed(picks, n, 0, k)))
    && (forall k: Key | k.Book? != perBook :: At(now, k) == At(before, k))
  }

  /** Both tables, or the dictionaries of one batch. */
  datatype Rows = Rows(daily: map<Key, Totals>, books: map<Key, Totals>)

  ghost predicate Between(now: Rows, before: Rows, picks: seq<Pick>, n: nat, from: nat)
    requires n >= 1 && from <= |picks|
  {
    Halfway(now.daily, before.daily, picks, n, from, false) && Halfway(now.books, before.books, picks, n, from, true)
  }

  lemma StartsHalfway(before: Rows, picks: seq<Pick>, n: nat)
    requires n >= 1
    ensures Between(before, before, picks, n, 0)
  {
    hide Flushed;
  }

  lemma TouchSplits(a: seq<Pick>, b: seq<Pick>, k: Key)
    ensures SomeTouch(a + b, k) <==> SomeTouch(a, k) || SomeTouch(b, k)
  {
    if SomeTouch(a, k) {
      var i :| 0 <= i < |a| && Touches(a[i], k);
      assert (a + b)[i] == a[i];
    }
    if SomeTouch(b, k) {
      var i :| 0 <= i < |b| && Touches(b[i], k);
      assert (a + b)[|a| + i] == b[i];
    }
  }

  lemma AddedAt(now: map<Key, Totals>, rows: map<Key, Totals>, batch: seq<Pick>, perBook: bool, k: Key)
    requires Summarise(rows, batch, perBook)
    ensures At(Added(now, rows), k) == if k.Book? == perBook then Plus(At(now, k), Stored(Sum(batch, k))) else At(now, k)
  {
    hide Sum, SomeTouch, Plus, Stored;
    if k.Book? == perBook && k !in rows {
      UntouchedIsZero(batch, k);
      StoringFollows(ZERO);
      PlusIsMonoid(At(now, k), ZERO, ZERO);
    }
  }

  lemma OneBatchKeys(now: map<Key, Totals>, before: map<Key, Totals>, rows: map<Key, Totals>, done: seq<Pick>,
                     batch: seq<Pick>, perBook: bool)
    requires forall k :: k in now <==> k in before || (k.Book? == perBook && SomeTouch(done, k))
    requires Summarise(rows, batch, perBook)
    ensures forall k :: k in Added(now, rows) <==> k in before || (k.Book? == perBook && SomeTouch(done + batch, k))
  {
    forall k ensures SomeTouch(done + batch, k) <==> SomeTouch(done, k) || SomeTouch(batch, k) {
      TouchSplits(done, batch, k);
    }
    hide SomeTouch, Sum, Stored, At, Plus;
  }

  lemma OneBatchOfTable(now: map<Key, Totals>, before: map<Key, Totals>, rows: map<Key, Totals>, picks: seq<Pick>,
                 n: nat, from: nat, perBook: bool)
    requires n >= 1 && from < |picks| && Halfway(now, before, picks, n, from, perBook)
    requires Summarise(rows, picks[from..Min(from + n, |picks|)], perBook)
    ensures Halfway(Added(now, rows), before, picks, n, Min(from + n, |picks|), perBook)
  {
    hide Flushed, SomeTouch, Sum, Stored, At, Min, Plus, Summarise, Added;
    var next := Min(from + n, |picks|);
    var batch := picks[from..next];
    assert picks[..from] + batch == picks[..next];
    OneBatchKeys(now, before, rows, picks[..from], batch, perBook);
    forall k: Key | k.Book? == perBook
      ensures Plus(At(Added(now, rows), k), Flushed(picks, n, next, k)) == Plus(At(before, k), Flushed(picks, n, 0, k))
    {
      AddedAt(now, rows, batch, perBook, k);
      FlushedStep(picks, n, from, k);
      PlusIsMonoid(At(now, k), Stored(Sum(batch, k)), Flushed(picks, n, next, k));
    }
    forall k: Key | k.Book? != perBook ensures At(Added(now, rows), k) == At(before, k) {
      AddedAt(now, rows, batch, perBook, k);
    }
  }

  lemma EndsBackfilledTable(now: map<Key, Totals>, before: map<Key, Totals>, picks: seq<Pick>, n: nat, perBook: bool)
    requires n >= 1 && Halfway(now, before, picks, n, |picks|, perBook)
    ensures Backfilled(now, before, picks, n, perBook)
  {
    hide Flushed, SomeTouch, Plus, At;
    WholePrefix(picks);
    forall k: Key | k.Book? == perBook ensures At(now, k) == Plus(At(before, k), Flushed(picks, n, 0, k)) {
      FlushedFromEnd(picks, n, |picks|, k);
      PlusIsMonoid(At(now, k), ZERO, ZERO);
    }
    forall k | k in now ensures At(now, k) == now[k] && (k in before ==> At(before, k) == before[k]) {
      AtIn(now, k);
      AtIn(before, k);
    }
  }

  lemma AtIn(rows: map<Key, Totals>, k: Key)
    ensures k in rows ==> At(rows, k) == rows[k]
  {
  }

  lemma EndsBackfilled(now: Rows, before: Rows, picks: seq<Pick>, n: nat)
    requires n >= 1 && Between(now, before, picks, n, |picks|)
    ensures Backfilled(now.daily, before.daily, picks, n, false) && Backfilled(now.books, before.books, picks, n, true)
  {
    hide Halfway, Backfilled;
    EndsBackfilledTable(now.daily, before.daily, picks, n, false);
    EndsBackfilledTable(now.books, before.books, picks, n, true);
  }

  lemma OneBatch(now: Rows, before: Rows, batch: Rows, picks: seq<Pick>, n: nat, from: nat)
    requires n >= 1 && from < |picks| && Between(now, before, picks, n, from)
    requires Summarise(batch.daily, picks[from..Min(from + n, |picks|)], false)
    requires Summarise(batch.books, picks[from..Min(from + n, |picks|)], true)
    ensures Between(Rows(Added(now.daily, batch.daily), Added(now.books, batch.books)), before, picks, n, Min(from + n, |picks|))
  {
    hide Halfway, Added, Summarise, Min;
    OneBatchOfTable(now.daily, before.daily, batch.daily, picks, n, from, false);
    OneBatchOfTable(now.books, before.books, batch.books, picks, n, from, true);
  }

  class AggregateTables {
    var daily: map<Key, Totals>
    var books: map<Key, Totals>

    constructor ()
      ensures daily == map[] && books == map[]
    {
      daily, books := map[], map[];
    }

    /** `_flush_daily` and `_flush_dimension`. */
    method Flush(days: map<Key, Totals>, perBook: map<Key, Totals>)
      modifies this
      ensures daily == Added(old(daily), days) && books == Added(old(books), perBook)
    {
      if days != map[] {
        daily := Added(daily, days);
      }
      if perBook != map[] {
        books := Added(books, perBook);
      }
    }

    /** The dictionaries of one batch. */
    method Batch(picks: seq<Pick>) returns (days: map<Key, Totals>, perBook: map<Key, Totals>)
      ensures Summarise(days, picks, false) && Summarise(perBook, picks, true)
    {
      var daily := new Buckets();
      var dim := new Buckets();
      assert picks[..0] == [];
      hide *;
      for i := 0 to |picks|
        invariant Summarise(daily.rows, picks[..i], false) && Summarise(dim.rows, picks[..i], true)
        invariant fresh(daily) && fresh(dim) && daily != dim
      {
        var p := picks[i];
        SummariseGrows(daily.rows, picks[..i], p, false);
        SummariseGrows(dim.rows, picks[..i], p, true);
        PrefixGrows(picks, i);
        daily.Merge(GroupOf(p, false), Contribution(p));
        dim.Merge(GroupOf(p, true), Contribution(p));
      }
      WholePrefix(picks);
      days, perBook := daily.rows, dim.rows;
    }

    /** One batch of the backfill: merged in memory, then added to the tables. */
    method AddBatch(picks: seq<Pick>) returns (ghost batch: Rows)
      modifies this
      ensures Summarise(batch.daily, picks, false) && Summarise(batch.books, picks, true)
      ensures Rows(daily, books) == Rows(Added(old(daily), batch.daily), Added(old(books), batch.books))
    {
      hide *;
      var days, perBook := Batch(picks);
      Flush(days, perBook);
      batch := Rows(days, perBook);
    }

    /** `main` of the backfill: keyset batches of `n`, merged in memory and added to the tables. */
    method Backfill(table: map<PickId, Pick>, n: nat, skipTruncate: bool)
      requires n >= 1
      modifies this
      ensures Backfilled(daily, if skipTruncate then old(daily) else map[], AllPicks(table), n, false)
      ensures Backfilled(books, if skipTruncate then old(books) else map[], AllPicks(table), n, true)
      ensures !skipTruncate && (forall p :: p in table ==> PickOk(table[p])) ==>
                (forall k :: k in daily ==> Describes(daily[k], AllPicks(table), k))
                && (forall k :: k in books ==> Describes(books[k], AllPicks(table), k))
    {
      if !skipTruncate {
        daily, books := map[], map[];
      }
      hide *;
      ghost var was := Rows(daily, books);
      ghost var all := AllPicks(table);
      var last: Option<nat> := None;
      ghost var done := 0;
      StartsHalfway(was, all, n);
      while true
        invariant done <= |all| && last == Cursor(table, done)
        invariant Between(Rows(daily, books), was, all, n, done)
        decreases |all| - done
      {
        var page := Page(table.Keys, last, n);
        NextPage(table, done, n);
        if page == [] {
          break;
        }
        ghost var before := Rows(daily, books);
        ghost var batch := AddBatch(ById(table, page));
        OneBatch(before, was, batch, all, n, done);
        last := Some(page[|page| - 1]);
        done := Min(done + n, |all|);
      }
      EndsBackfilled(Rows(daily, books), was, all, n);
      BackfilledDescribes(table, n, Rows(daily, books), was);
    }

    /** Its accumulation loop. */
    method Scan(scan: seq<Pick>, day: int, ghost picks: seq<Pick>) returns (total: Totals, rows: map<Key, Totals>)
      requires IsScan(scan, picks, day)
      ensures total == Sum(scan, Day(day)) && Summarise(rows, scan, true)
    {
      total := ZERO;
      var dim := new Buckets();
      assert scan[..0] == [];
      ScanIsOnDay(scan, picks, day);
      assert Sum([], Day(day)) == ZERO && Summarise(dim.rows, [], true);
      hide *;
      for i := 0 to |scan|
        invariant total == Sum(scan[..i], Day(day)) && Summarise(dim.rows, scan[..i], true)
        invariant fresh(dim)
      {
        var p := scan[i];
        SumGrows(scan[..i], p, Day(day));
        SummariseGrows(dim.rows, scan[..i], p, true);
        PrefixGrows(scan, i);
        total := Plus(total, Contribution(p));
        dim.Merge(GroupOf(p, true), Contribution(p));
      }
      WholePrefix(scan);
      rows := dim.rows;
    }

    /** `recompute_pick_aggregates_for_day_sync`, over the rows its scan returned. */
    method RecomputeDay(scan: seq<Pick>, day: int, ghost picks: seq<Pick>)
      requires IsScan(scan, picks, day)
      modifies this
      ensures daily == old(daily)[Day(day) := Recomputed(picks, Day(day))]
      ensures forall k :: k in books <==> (k.day == day && k.Book? && SomeTouch(picks, k)) || (k.day != day && k in old(books))
      ensures forall k :: k in books ==> books[k] == if k.day == day then Recomputed(picks, k) else old(books)[k]
      ensures (forall i :: 0 <= i < |picks| ==> PickOk(picks[i])) ==>
                Describes(daily[Day(day)], picks, Day(day)) && (forall k :: k in books && k.day == day ==> Describes(books[k], picks, k))
    {
      var total, rows := Scan(scan, day, picks);
      DayReplaced(books, rows, scan, picks, day);
      hide *;
      books := map k | k in books && k.day != day :: books[k];
      daily := daily[Day(day) := Stored(total)];
      books := map k | k in books.Keys + rows.Keys :: if k in rows then Stored(rows[k]) else books[k];
      DayDescribes(picks, day);
    }
  }

  /** What a recompute of kept picks writes describes them. */
  lemma DayDescribes(picks: seq<Pick>, day: int)
    ensures (forall i :: 0 <= i < |picks| ==> PickOk(picks[i])) ==>
              forall k: Key | k.day == day :: Describes(Recomputed(picks, k), picks, k)
  {
    hide Recomputed, Describes, PickOk;
    if forall i :: 0 <= i < |picks| ==> PickOk(picks[i]) {
      forall k: Key | k.day == day ensures Describes(Recomputed(picks, k), picks, k) {
        RecomputedDescribes(picks, k);
      }
    }
  }

  lemma BackfilledDescribes(table: map<PickId, Pick>, n: nat, now: Rows, was: Rows)
    requires n >= 1
    requires Backfilled(now.daily, was.daily, AllPicks(table), n, false) && Backfilled(now.books, was.books, AllPicks(table), n, true)
    ensures was == Rows(map[], map[]) && (forall p :: p in table ==> PickOk(table[p])) ==>
              (forall k :: k in now.daily ==> Describes(now.daily[k], AllPicks(table), k))
              && (forall k :: k in now.books ==> Describes(now.books[k], AllPicks(table), k))
  {
    if was == Rows(map[], map[]) && (forall p :: p in table ==> PickOk(table[p])) {
      assert forall k :: k in now.daily ==> !k.Book?;
      assert forall k :: k in now.books ==> k.Book?;
      hide Backfilled, Describes, PickOk, AllPicks, Recomputed;
      forall k | k in now.daily ensures Describes(now.daily[k], AllPicks(table), k) {
        RecomputeAfterBackfill(table, n, now.daily, k);
      }
      forall k | k in now.books ensures Describes(now.books[k], AllPicks(table), k) {
        RecomputeAfterBackfill(table, n, now.books, k);
      }
    }
  }

  /** Deleting a day's rows, then upserting those of the scan. */
  lemma DayReplaced(books: map<Key, Totals>, rows: map<Key, Totals>, scan: seq<Pick>, picks: seq<Pick>, day: int)
    requires IsScan(scan, picks, day) && Summarise(rows, scan, true)
    ensures
      var kept := map k | k in books && k.day != day :: books[k];
      var after := map k | k in kept.Keys + rows.Keys :: if k in rows then Stored(rows[k]) else kept[k];
      && (forall k :: k in after <==> (k.day == day && k.Book? && SomeTouch(picks, k)) || (k.day != day && k in books))
      && (forall k :: k in after ==> after[k] == if k.day == day then Recomputed(picks, k) else books[k])
    ensures Stored(Sum(scan, Day(day))) == Recomputed(picks, Day(day))
  {
    BookRows(rows, scan, picks, day);
    ScanSums(scan, picks, Day(day));
    hide Summarise, IsScan, Sum, SomeTouch, Stored;
  }

  lemma BookRows(rows: map<Key, Totals>, scan: seq<Pick>, picks: seq<Pick>, day: int)
    requires IsScan(scan, picks, day) && Summarise(rows, scan, true)
    ensures forall k :: k in rows <==> k.day == day && k.Book? && SomeTouch(picks, k)
    ensures forall k :: k in rows ==> rows[k] == Sum(picks, k)
  {
    ScanIsOnDay(scan, picks, day);
    hide IsScan, Sum;
    forall k ensures k in rows <==> k.day == day && k.Book? && SomeTouch(picks, k)
             ensures k in rows ==> rows[k] == Sum(picks, k) {
      if k.day == day {
        ScanSums(scan, picks, k);
      }
    }
  }

  ghost function Cursor(table: map<PickId, Pick>, done: nat): Option<nat>
    requires done <= |AllPicks(table)|
  {
    AllPicksAre(table);
    if done == 0 then None else Some(Sorted(table.Keys)[done - 1])
  }

  /** The page queried after `done` rows holds exactly the next rows, up to `n`. */
  lemma NextPage(table: map<PickId, Pick>, done: nat, n: nat)
    requires n >= 1 && done <= |AllPicks(table)|
    ensures
      var page, next := Page(table.Keys, Cursor(table, done), n), Min(done + n, |AllPicks(table)|);
      && (forall i :: 0 <= i < |page| ==> page[i] in table)
      && (page == [] <==> done == |AllPicks(table)|) && ById(table, page) == AllPicks(table)[done..next]
      && (page != [] ==> Some(page[|page| - 1]) == Cursor(table, next))
  {
    AllPicksAre(table);
    PageIsNext(table.Keys, done, n);
    hide Sorted, AllPicks, Page;
  }

  /** After a backfill into empty tables, either table has a row for exactly the groups some pick
      touches, and recomputing the group's day writes the value already there. */
  lemma RecomputeAfterBackfill(table: map<PickId, Pick>, n: nat, rows: map<Key, Totals>, k: Key)
    requires n >= 1 && Backfilled(rows, map[], AllPicks(table), n, k.Book?)
    requires forall p :: p in table ==> PickOk(table[p])
    ensures k in rows <==> SomeTouch(AllPicks(table), k)
    ensures k in rows ==> rows[k] == Recomputed(AllPicks(table), k) && Describes(rows[k], AllPicks(table), k)
  {
    var all := AllPicks(table);
    AllPicksAre(table);
    forall i | 0 <= i < |all| ensures PickOk(all[i]) && WholeCents(Contribution(all[i]).amounts) {
      hide *;
      assert all[i] == table[Sorted(table.Keys)[i]];
      KeptPicksAreWholeCents(all[i]);
    }
    RecomputedDescribes(all, k);
    BackfillEqualsRecompute(all, n, k);
    PlusIsMonoid(Flushed(all, n, 0, k), ZERO, ZERO);
    assert At(map[], k) == ZERO;
    hide Contribution, Recomputed, Flushed, SomeTouch, AllPicks, Plus, PickOk, At, Describes;
  }
}
