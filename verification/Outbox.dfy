/** Delivery of the transactional outbox by concurrent workers (`app/services/outbox_worker.py`). */
module Outbox {
  import opened Domain
  import opened Sorting

  /** A committed row. */
  datatype Row = Row(created: int, processed: bool)

  /** A worker inside its transaction holds its batch locked, and has delivered a prefix of it. */
  datatype Worker = Idle | Busy(batch: seq<nat>, done: nat)

  /** Beside the table and the workers, how often each row was handed to the handler, and how many of
      those deliveries were forgotten by a rollback. */
  datatype System = System(rows: seq<Row>, workers: seq<Worker>, delivered: seq<nat>, forgotten: seq<nat>)

  predicate Locked(workers: seq<Worker>, r: nat) {
    exists w :: 0 <= w < |workers| && workers[w].Busy? && r in workers[w].batch
  }

  /** Unprocessed rows that no other transaction has locked. */
  function Available(rows: seq<Row>, workers: seq<Worker>, n: nat): seq<nat>
    requires n <= |rows|
  {
    if n == 0 then []
    else Available(rows, workers, n - 1) + (if !rows[n - 1].processed && !Locked(workers, n - 1) then [n - 1] else [])
  }

  function First(rs: seq<nat>, limit: nat): seq<nat> {
    if |rs| <= limit then rs else rs[..limit]
  }

  function Created(rows: seq<Row>): nat -> int {
    (r: nat) => if r < |rows| then rows[r].created else 0
  }

  /** `ORDER BY created_at LIMIT n FOR UPDATE SKIP LOCKED`. */
  function Fetched(s: System, limit: nat): seq<nat> {
    First(Sorted(Available(s.rows, s.workers, |s.rows|), Created(s.rows)), limit)
  }

  datatype Choice =
    | Insert(created: int)
    | Fetch(w: nat, limit: nat)
    | Deliver(w: nat)
    | Commit(w: nat)
    | Rollback(w: nat)

  function Bump(counts: seq<nat>, rs: seq<nat>): (r: seq<nat>)
    ensures |r| == |counts|
  {
    seq(|counts|, i requires 0 <= i < |counts| => if i in rs then counts[i] + 1 else counts[i])
  }

  function Processed(rows: seq<Row>, rs: seq<nat>): (r: seq<Row>)
    ensures |r| == |rows|
  {
    seq(|rows|, i requires 0 <= i < |rows| => if i in rs then rows[i].(processed := true) else rows[i])
  }

  function Step(s: System, c: Choice): System {
    if c.Insert? then
      s.(rows := s.rows + [Row(c.created, false)], delivered := s.delivered + [0], forgotten := s.forgotten + [0])
    else if c.w >= |s.workers| then s
    else
      match c
      case Fetch(w, limit) => if s.workers[w].Idle? then s.(workers := s.workers[w := Busy(Fetched(s, limit), 0)]) else s
      case Deliver(w) =>
        if s.workers[w].Busy? && s.workers[w].done < |s.workers[w].batch| then
          s.(workers := s.workers[w := s.workers[w].(done := s.workers[w].done + 1)],
             delivered := Bump(s.delivered, [s.workers[w].batch[s.workers[w].done]]))
        else s
      case Commit(w) =>
        if s.workers[w].Busy? && s.workers[w].done == |s.workers[w].batch| then
          s.(workers := s.workers[w := Idle], rows := Processed(s.rows, s.workers[w].batch))
        else s
      case Rollback(w) =>
        if s.workers[w].Busy? && s.workers[w].done <= |s.workers[w].batch| then
          s.(workers := s.workers[w := Idle], forgotten := Bump(s.forgotten, s.workers[w].batch[..s.workers[w].done]))
        else s
  }

  function Run(s: System, cs: seq<Choice>): System {
    if cs == [] then s else Step(Run(s, cs[..|cs| - 1]), cs[|cs| - 1])
  }

  // ---- The invariant ----

  ghost predicate GoodBatch(s: System, w: nat)
    requires w < |s.workers|
  {
    s.workers[w].Busy? ==>
      && s.workers[w].done <= |s.workers[w].batch|
      && (forall i :: 0 <= i < |s.workers[w].batch| ==> s.workers[w].batch[i] < |s.rows| && !s.rows[s.workers[w].batch[i]].processed)
      && (forall i, j :: 0 <= i < j < |s.workers[w].batch| ==> s.workers[w].batch[i] != s.workers[w].batch[j])
  }

  /** Delivered by a transaction that has neither committed nor rolled back. */
  ghost predicate InFlight(s: System, r: nat) {
    exists w :: 0 <= w < |s.workers| && DeliveredBy(s.workers[w], r)
  }

  predicate DeliveredBy(w: Worker, r: nat) {
    w.Busy? && w.done <= |w.batch| && r in w.batch[..w.done]
  }

  ghost predicate Disjoint(s: System) {
    forall v, w :: 0 <= v < w < |s.workers| && s.workers[v].Busy? && s.workers[w].Busy? ==>
      forall r :: r in s.workers[v].batch ==> r !in s.workers[w].batch
  }

  /** Every delivery is accounted for: kept by a commit, still in flight, or forgotten. */
  ghost predicate Accounted(s: System, r: nat)
    requires r < |s.rows| == |s.delivered| == |s.forgotten|
  {
    s.delivered[r] == s.forgotten[r] + (if s.rows[r].processed then 1 else 0) + (if InFlight(s, r) then 1 else 0)
  }

  ghost predicate Inv(s: System) {
    && |s.rows| == |s.delivered| == |s.forgotten|
    && (forall w :: 0 <= w < |s.workers| ==> GoodBatch(s, w))
    && Disjoint(s)
    && (forall r :: 0 <= r < |s.rows| ==> Accounted(s, r))
  }

  ghost predicate Start(s: System) {
    && |s.rows| == |s.delivered| == |s.forgotten|
    && (forall r :: 0 <= r < |s.rows| ==> !s.rows[r].processed && s.delivered[r] == 0 && s.forgotten[r] == 0)
    && (forall w :: 0 <= w < |s.workers| ==> s.workers[w].Idle?)
  }

  // ---- What a fetch returns ----

  lemma {:induction false} AvailableIs(rows: seq<Row>, workers: seq<Worker>, n: nat)
    requires n <= |rows|
    ensures forall r: nat :: r in Available(rows, workers, n) <==> r < n && !rows[r].processed && !Locked(workers, r)
    ensures Different(Available(rows, workers, n))
  {
    if n > 0 {
      AvailableIs(rows, workers, n - 1);
      var before := Available(rows, workers, n - 1);
      forall i | 0 <= i < |before| ensures before[i] < n - 1 {
        assert before[i] in before;
      }
      hide Locked;
    }
  }

  ghost predicate Different(rs: seq<nat>) {
    forall i, j :: 0 <= i < j < |rs| ==> rs[i] != rs[j]
  }

  lemma {:induction false} DifferentIsOnce(rs: seq<nat>)
    ensures Different(rs) <==> forall r :: multiset(rs)[r] <= 1
  {
    if rs != [] {
      var n := |rs| - 1;
      DifferentIsOnce(rs[..n]);
      assert rs == rs[..n] + [rs[n]];
      if Different(rs) {
        assert Different(rs[..n]);
        assert rs[n] !in rs[..n];
      } else if Different(rs[..n]) {
        assert rs[n] in rs[..n];
        assert multiset(rs)[rs[n]] >= 2;
      } else {
        var r :| multiset(rs[..n])[r] > 1;
        assert multiset(rs)[r] > 1;
      }
    }
  }

  /** A fetch returns different free rows, oldest first, as many as there are up to the limit, and
      leaves out no free row older than one it returns. */
  lemma FetchIsOldestFirst(s: System, limit: nat)
    ensures
      var rs, free := Fetched(s, limit), Available(s.rows, s.workers, |s.rows|);
      && Different(rs) && Ascending(rs, Created(s.rows))
      && (forall r: nat :: r in rs ==> r < |s.rows| && !s.rows[r].processed && !Locked(s.workers, r))
      && |rs| == (if |free| <= limit then |free| else limit)
      && (forall r: nat, q: nat :: r < |s.rows| && !s.rows[r].processed && !Locked(s.workers, r) && r !in rs && q in rs ==>
            s.rows[q].created <= s.rows[r].created)
  {
    var free, key := Available(s.rows, s.workers, |s.rows|), Created(s.rows);
    var sorted := Sorted(free, key);
    AvailableIs(s.rows, s.workers, |s.rows|);
    hide Available, Sorted, Locked, Different, Ascending, First;
    SortedDifferent(free, key);
    FirstOf(sorted, limit, key);
  }

  lemma SortedDifferent(free: seq<nat>, key: nat -> int)
    requires Different(free)
    ensures Different(Sorted(free, key)) && Ascending(Sorted(free, key), key) && |Sorted(free, key)| == |free|
    ensures forall r :: r in Sorted(free, key) <==> r in free
  {
    var sorted := Sorted(free, key);
    SortIsStable(free, key);
    hide Sorted, Different, Ascending;
    DifferentIsOnce(free);
    DifferentIsOnce(sorted);
    assert |sorted| == |multiset(sorted)|;
    forall r ensures r in sorted <==> r in free {
      assert r in multiset(sorted) <==> r in multiset(free);
    }
  }

  lemma FirstOf(sorted: seq<nat>, limit: nat, key: nat -> int)
    requires Different(sorted) && Ascending(sorted, key)
    ensures
      var first := First(sorted, limit);
      && Different(first) && Ascending(first, key) && |first| == (if |sorted| <= limit then |sorted| else limit)
      && (forall r :: r in first ==> r in sorted)
      && (forall r, q :: r in sorted && r !in first && q in first ==> key(q) <= key(r))
  {
    forall r, q | r in sorted && r !in First(sorted, limit) && q in First(sorted, limit) ensures key(q) <= key(r) {
      Left(sorted, limit, key, r, q);
    }
  }

  lemma Left(sorted: seq<nat>, limit: nat, key: nat -> int, r: nat, q: nat)
    requires Ascending(sorted, key) && r in sorted && r !in First(sorted, limit) && q in First(sorted, limit)
    ensures key(q) <= key(r)
  {
    var first := First(sorted, limit);
    forall i | 0 <= i < |first| ensures sorted[i] != r {
      assert first[i] in first;
    }
    var i :| 0 <= i < |sorted| && sorted[i] == r;
    var j :| 0 <= j < |first| && first[j] == q;
    assert first[j] == sorted[j];
  }

  // ---- Every run ----

  lemma InsertKeeps(s: System, created: int)
    requires Inv(s)
    ensures Inv(Step(s, Choice.Insert(created)))
  {
    var t := Step(s, Choice.Insert(created));
    forall w | 0 <= w < |t.workers| ensures GoodBatch(t, w) {
      assert GoodBatch(s, w);
    }
    var n := |s.rows|;
    assert !InFlight(t, n) by {
      forall w | 0 <= w < |t.workers| ensures !DeliveredBy(t.workers[w], n) {
        assert GoodBatch(s, w);
      }
    }
    forall r | 0 <= r < |t.rows| ensures Accounted(t, r) {
      if r < n {
        assert Accounted(s, r);
        assert InFlight(t, r) <==> InFlight(s, r);
      }
    }
  }

  lemma FetchKeeps(s: System, w: nat, limit: nat)
    requires Inv(s) && w < |s.workers| && s.workers[w].Idle?
    ensures Inv(Step(s, Fetch(w, limit)))
  {
    var t := Step(s, Fetch(w, limit));
    FetchIsOldestFirst(s, limit);
    hide Fetched;
    forall v | 0 <= v < |t.workers| ensures GoodBatch(t, v) {
      assert GoodBatch(s, v);
      if v == w {
        forall i | 0 <= i < |t.workers[w].batch| ensures t.workers[w].batch[i] < |s.rows| && !s.rows[t.workers[w].batch[i]].processed {
          assert t.workers[w].batch[i] in t.workers[w].batch;
        }
      }
    }
    forall v | 0 <= v < |t.workers| && v != w && s.workers[v].Busy?
      ensures forall r :: r in s.workers[v].batch ==> r !in t.workers[w].batch
    {
      forall r | r in s.workers[v].batch ensures r !in t.workers[w].batch {
        assert Locked(s.workers, r);
      }
    }
    forall r | 0 <= r < |t.rows| ensures Accounted(t, r) {
      assert Accounted(s, r);
      SameFlight(s, t, w, r);
    }
  }

  /** A worker that has delivered nothing either before or after a step. */
  lemma SameFlight(s: System, t: System, w: nat, r: nat)
    requires w < |s.workers| == |t.workers| && forall v :: 0 <= v < |s.workers| && v != w ==> t.workers[v] == s.workers[v]
    requires DeliveredBy(s.workers[w], r) <==> DeliveredBy(t.workers[w], r)
    ensures InFlight(t, r) <==> InFlight(s, r)
  {
    if InFlight(s, r) {
      var v :| 0 <= v < |s.workers| && DeliveredBy(s.workers[v], r);
      assert DeliveredBy(t.workers[v], r);
    }
    if InFlight(t, r) {
      var v :| 0 <= v < |t.workers| && DeliveredBy(t.workers[v], r);
      assert DeliveredBy(s.workers[v], r);
    }
  }

  /** A row locked by one worker is in flight only through it. */
  lemma FlightOfBatch(s: System, w: nat, r: nat)
    requires Inv(s) && w < |s.workers| && s.workers[w].Busy? && r in s.workers[w].batch
    ensures InFlight(s, r) <==> DeliveredBy(s.workers[w], r)
    ensures forall v :: 0 <= v < |s.workers| && v != w ==> !DeliveredBy(s.workers[v], r)
  {
    forall v | 0 <= v < |s.workers| && v != w ensures !DeliveredBy(s.workers[v], r) {
      if s.workers[v].Busy? {
        assert r !in s.workers[v].batch;
      }
    }
  }

  lemma OthersKeep(s: System, t: System, w: nat)
    requires Inv(s) && w < |s.workers| == |t.workers| && |t.rows| == |s.rows|
    requires forall v :: 0 <= v < |s.workers| && v != w ==> t.workers[v] == s.workers[v]
    requires t.workers[w].Busy? ==> s.workers[w].Busy? && t.workers[w].batch == s.workers[w].batch && t.workers[w].done <= |t.workers[w].batch|
    requires forall r :: 0 <= r < |s.rows| && t.rows[r].processed != s.rows[r].processed ==> t.workers[w].Idle? && Locked([s.workers[w]], r)
    ensures forall v :: 0 <= v < |t.workers| ==> GoodBatch(t, v)
    ensures Disjoint(t)
  {
    forall v | 0 <= v < |t.workers| ensures GoodBatch(t, v) {
      assert GoodBatch(s, v);
      if v != w && t.workers[v].Busy? {
        forall i | 0 <= i < |t.workers[v].batch| ensures !t.rows[t.workers[v].batch[i]].processed {
          assert t.workers[v].batch[i] in s.workers[v].batch;
        }
      }
    }
  }

  lemma DeliverKeeps(s: System, w: nat)
    requires Inv(s) && w < |s.workers| && s.workers[w].Busy? && s.workers[w].done < |s.workers[w].batch|
    ensures Inv(Step(s, Deliver(w)))
  {
    var t := Step(s, Deliver(w));
    var batch, done := s.workers[w].batch, s.workers[w].done;
    OthersKeep(s, t, w);
    assert GoodBatch(s, w);
    assert batch[..done + 1] == batch[..done] + [batch[done]];
    forall r | 0 <= r < |t.rows| ensures Accounted(t, r) {
      assert Accounted(s, r);
      if r == batch[done] {
        FlightOfBatch(s, w, r);
        assert DeliveredBy(t.workers[w], r);
      } else {
        SameFlight(s, t, w, r);
      }
    }
  }

  lemma CommitKeeps(s: System, w: nat)
    requires Inv(s) && w < |s.workers| && s.workers[w].Busy? && s.workers[w].done == |s.workers[w].batch|
    ensures Inv(Step(s, Commit(w)))
  {
    var t := Step(s, Commit(w));
    var batch := s.workers[w].batch;
    assert batch[..|batch|] == batch;
    forall r | 0 <= r < |s.rows| && t.rows[r].processed != s.rows[r].processed ensures Locked([s.workers[w]], r) {
      assert [s.workers[w]][0] == s.workers[w];
    }
    OthersKeep(s, t, w);
    assert GoodBatch(s, w);
    forall r | 0 <= r < |t.rows| ensures Accounted(t, r) {
      assert r in batch ==> !s.rows[r].processed;
      Landed(s, t, w, r);
    }
  }

  lemma RollbackKeeps(s: System, w: nat)
    requires Inv(s) && w < |s.workers| && s.workers[w].Busy?
    ensures Inv(Step(s, Rollback(w)))
  {
    assert GoodBatch(s, w);
    var t := Step(s, Rollback(w));
    OthersKeep(s, t, w);
    forall r | 0 <= r < |t.rows| ensures Accounted(t, r) {
      Landed(s, t, w, r);
    }
  }

  /** When a transaction ends, each of its deliveries is either kept or forgotten. */
  lemma Landed(s: System, t: System, w: nat, r: nat)
    requires Inv(s) && w < |s.workers| && s.workers[w].Busy? && t.workers == s.workers[w := Idle]
    requires r < |s.rows| == |t.rows| == |t.delivered| == |t.forgotten| && t.delivered == s.delivered
    requires t.forgotten[r] + (if t.rows[r].processed then 1 else 0)
          == s.forgotten[r] + (if s.rows[r].processed then 1 else 0) + (if DeliveredBy(s.workers[w], r) then 1 else 0)
    ensures Accounted(t, r)
  {
    assert Accounted(s, r);
    if DeliveredBy(s.workers[w], r) {
      FlightOfBatch(s, w, r);
    } else {
      SameFlight(s, t, w, r);
    }
  }

  lemma StepKeeps(s: System, c: Choice)
    requires Inv(s)
    ensures Inv(Step(s, c))
  {
    match c
    case Insert(created) => InsertKeeps(s, created);
    case Fetch(w, limit) => if w < |s.workers| && s.workers[w].Idle? { FetchKeeps(s, w, limit); }
    case Deliver(w) => if w < |s.workers| && s.workers[w].Busy? && s.workers[w].done < |s.workers[w].batch| { DeliverKeeps(s, w); }
    case Commit(w) => if w < |s.workers| && s.workers[w].Busy? && s.workers[w].done == |s.workers[w].batch| { CommitKeeps(s, w); }
    case Rollback(w) => if w < |s.workers| && s.workers[w].Busy? { RollbackKeeps(s, w); }
  }

  lemma {:induction false} RunKeeps(s: System, cs: seq<Choice>)
    requires Start(s)
    ensures Inv(Run(s, cs))
  {
    if cs != [] {
      RunKeeps(s, cs[..|cs| - 1]);
      StepKeeps(Run(s, cs[..|cs| - 1]), cs[|cs| - 1]);
    }
  }

  /** Under any interleaving of inserts, fetches, deliveries, commits and rollbacks: no two workers hold
      the same row, an event is marked processed only after it was delivered, and it is delivered more
      than once only as often as a delivery of it was rolled back. */
  lemma DeliveredAtLeastOnce(s: System, cs: seq<Choice>, r: nat)
    requires Start(s) && r < |Run(s, cs).rows|
    ensures
      var t := Run(s, cs);
      && Disjoint(t) && r < |t.delivered| && r < |t.forgotten|
      && (t.rows[r].processed ==> t.delivered[r] == 1 + t.forgotten[r])
      && (!t.rows[r].processed ==> t.forgotten[r] <= t.delivered[r] <= 1 + t.forgotten[r])
  {
    RunKeeps(s, cs);
    var t := Run(s, cs);
    hide Run;
    assert Accounted(t, r);
    if t.rows[r].processed {
      ProcessedIsDown(t, r);
    }
  }

  lemma ProcessedIsDown(s: System, r: nat)
    requires Inv(s) && r < |s.rows| && s.rows[r].processed
    ensures !InFlight(s, r)
  {
    forall w | 0 <= w < |s.workers| ensures !DeliveredBy(s.workers[w], r) {
      assert GoodBatch(s, w);
    }
  }

  // ---- The batch loop ----

  class Event {
    var processedAt: Option<int>

    constructor ()
      ensures processedAt == None
    {
      processedAt := None;
    }
  }

  /** The side effects made so far. */
  class Handler {
    var handled: seq<Event>

    constructor ()
      ensures handled == []
    {
      handled := [];
    }

    method Handle(e: Event)
      modifies this
      ensures handled == old(handled) + [e]
    {
      handled := handled + [e];
    }
  }

  /** `deliver_outbox_event`. */
  method DeliverEvent(e: Event, handler: Handler, now: int)
    modifies e, handler
    ensures e.processedAt == if old(e.processedAt).Some? then old(e.processedAt) else Some(now)
    ensures handler.handled == if old(e.processedAt).Some? then old(handler.handled) else old(handler.handled) + [e]
  {
    if e.processedAt.Some? {
      return;
    }
    handler.Handle(e);
    e.processedAt := Some(now);
  }

  /** `run_outbox_batch` on the rows it fetched: each is handled once, in order, and marked. */
  method RunBatch(events: seq<Event>, handler: Handler, now: int) returns (processed: nat)
    requires forall i :: 0 <= i < |events| ==> events[i].processedAt.None?
    requires forall i, j :: 0 <= i < j < |events| ==> events[i] != events[j]
    modifies handler, set e | e in events
    ensures processed == |events| && handler.handled == old(handler.handled) + events
    ensures forall e :: e in events ==> e.processedAt == Some(now)
  {
    processed := 0;
    assert events[..0] == [];
    for i := 0 to |events|
      invariant processed == i && handler.handled == old(handler.handled) + events[..i]
      invariant forall j :: 0 <= j < i ==> events[j].processedAt == Some(now)
      invariant forall j :: i <= j < |events| ==> events[j].processedAt.None?
    {
      DeliverEvent(events[i], handler, now);
      assert events[..i + 1] == events[..i] + [events[i]];
      processed := processed + 1;
    }
    assert events[..|events|] == events;
  }
}
