/** The idempotency lock of pick creation (`app/core/idempotency.py`, `app/routers/picks.py`,
    `app/core/dependencies.py`), as an interleaving of single Redis commands and commits on one key. */
module Idempotency {
  import opened Domain

  const PROCESSING_TTL: int := 120
  const RESULT_TTL: int := 1800

  type Fingerprint = nat
  type Response = nat

  /** What the key holds: the literal "processing", or a finished request's payload. */
  datatype Value = Processing | Stored(fingerprint: Fingerprint, response: Response)

  datatype Cell = Cell(value: Value, expires: int)

  datatype Reply = Created(response: Response) | Cached(response: Response) | InProgress | BodyMismatch | Failed | Unavailable

  /** Where a request stands: before each Redis command of `begin`, inside the database work, and
      before each command of the completion or the abort. */
  datatype Phase =
    | Fresh | FirstRead | Retry | LastRead
    | Working(since: int)
    | Committed(since: int, response: Response, nth: nat)
    | Aborting(since: int)
    | Deleting(since: int)
    | Done(reply: Reply, at: int)
  {
    predicate Begins() {
      Fresh? || FirstRead? || Retry? || LastRead?
    }

    predicate Holds() {
      Working? || Committed? || Aborting? || Deleting?
    }
  }

  datatype Request = Request(fingerprint: Fingerprint, phase: Phase)

  /** A committed pick, with the time its response was stored under the key. */
  datatype Commit = Commit(fingerprint: Fingerprint, response: Response, at: int, stored: Option<int>)

  datatype System = System(clock: int, cell: Option<Cell>, requests: seq<Request>, commits: seq<Commit>)

  // ---- Steps ----

  function Get(cell: Option<Cell>, clock: int): Option<Value> {
    if cell.Some? && clock < cell.value.expires then Some(cell.value.value) else None
  }

  /** `begin`'s answer to the value it read. */
  function Answer(v: Value, fingerprint: Fingerprint): Reply {
    match v
    case Processing => InProgress
    case Stored(f, response) => if f != fingerprint then BodyMismatch else Cached(response)
  }

  /** `Go` is the expected next command, `Finish` a successful commit, and `Fail` whatever else can
      happen: an unreachable Redis, a commit that rolls back, or a crash. */
  datatype Action = Go | Finish(response: Response) | Fail

  datatype Choice = Tick(seconds: nat) | Act(i: nat, action: Action)

  function Moved(s: System, i: nat, phase: Phase): System
    requires i < |s.requests|
  {
    s.(requests := s.requests[i := s.requests[i].(phase := phase)])
  }

  /** `SET key "processing" NX EX`. */
  function Acquire(s: System, i: nat, taken: Phase): System
    requires i < |s.requests|
  {
    if Get(s.cell, s.clock).Some? then Moved(s, i, taken)
    else Moved(s, i, Working(s.clock)).(cell := Some(Cell(Processing, s.clock + PROCESSING_TTL)))
  }

  function Next(s: System, i: nat, action: Action): System
    requires i < |s.requests|
  {
    var r := s.requests[i];
    var v := Get(s.cell, s.clock);
    match r.phase
    case Fresh => if action.Fail? then Moved(s, i, Done(Unavailable, s.clock)) else Acquire(s, i, FirstRead)
    case FirstRead =>
      if action.Fail? then Moved(s, i, Done(Unavailable, s.clock))
      else if v.None? then Moved(s, i, Retry)
      else Moved(s, i, Done(Answer(v.value, r.fingerprint), s.clock))
    case Retry => if action.Fail? then Moved(s, i, Done(Unavailable, s.clock)) else Acquire(s, i, LastRead)
    case LastRead =>
      if action.Fail? then Moved(s, i, Done(Unavailable, s.clock))
      else if v.None? then Moved(s, i, Done(InProgress, s.clock))
      else Moved(s, i, Done(Answer(v.value, r.fingerprint), s.clock))
    case Working(since) =>
      if action.Finish? then
        Moved(s, i, Committed(since, action.response, |s.commits|)).
          (commits := s.commits + [Commit(r.fingerprint, action.response, s.clock, None)])
      else if action.Go? then Moved(s, i, Aborting(since))
      else Moved(s, i, Done(Failed, s.clock))
    case Committed(since, response, nth) =>
      if action.Fail? || nth >= |s.commits| then Moved(s, i, Done(Created(response), s.clock))
      else
        Moved(s, i, Done(Created(response), s.clock)).
          (cell := Some(Cell(Stored(r.fingerprint, response), s.clock + RESULT_TTL)),
           commits := s.commits[nth := s.commits[nth].(stored := Some(s.clock))])
    case Aborting(since) =>
      if !action.Fail? && v == Some(Processing) then Moved(s, i, Deleting(since)) else Moved(s, i, Done(Failed, s.clock))
    case Deleting(since) =>
      if action.Fail? then Moved(s, i, Done(Failed, s.clock))
      else Moved(s, i, Done(Failed, s.clock)).(cell := None)
    case Done(_, _) => s
  }

  function Step(s: System, c: Choice): System {
    match c
    case Tick(seconds) => s.(clock := s.clock + seconds)
    case Act(i, action) => if i < |s.requests| then Next(s, i, action) else s
  }

  function Run(s: System, cs: seq<Choice>): System {
    if cs == [] then s else Step(Run(s, cs[..|cs| - 1]), cs[|cs| - 1])
  }

  // ---- Assumptions ----

  /** Every holder of the lock is still within its time to live. */
  predicate Punctual(s: System) {
    forall i :: 0 <= i < |s.requests| && s.requests[i].phase.Holds() ==> s.clock < s.requests[i].phase.since + PROCESSING_TTL
  }

  /** Storing the response of a committed request fails. */
  predicate Loses(s: System, c: Choice) {
    c.Act? && c.i < |s.requests| && s.requests[c.i].phase.Committed? && c.action.Fail?
  }

  ghost predicate WellTimed(s: System, cs: seq<Choice>) {
    && (forall k :: 0 <= k <= |cs| ==> Punctual(Run(s, cs[..k])))
    && (forall k :: 0 <= k < |cs| ==> !Loses(Run(s, cs[..k]), cs[k]))
  }

  ghost predicate Start(s: System) {
    s.cell == None && s.commits == [] && forall i :: 0 <= i < |s.requests| ==> s.requests[i].phase.Fresh?
  }

  // ---- The invariant ----

  ghost predicate LockHeld(s: System) {
    && (forall i :: 0 <= i < |s.requests| && s.requests[i].phase.Holds() ==>
          && s.cell == Some(Cell(Processing, s.requests[i].phase.since + PROCESSING_TTL))
          && s.requests[i].phase.since <= s.clock)
    && (forall i, j :: 0 <= i < j < |s.requests| && s.requests[i].phase.Holds() ==> !s.requests[j].phase.Holds())
  }

  /** Each commit waits for the result of the one before to expire. */
  ghost predicate OncePerWindow(commits: seq<Commit>) {
    forall i, j :: 0 <= i < j < |commits| ==> commits[i].stored.Some? && commits[i].stored.value + RESULT_TTL <= commits[j].at
  }

  /** While a result has not expired, the key holds it. */
  ghost predicate ResultsHeld(s: System) {
    forall n :: 0 <= n < |s.commits| && s.commits[n].stored.Some? ==>
      && s.commits[n].at <= s.commits[n].stored.value <= s.clock
      && (s.clock < s.commits[n].stored.value + RESULT_TTL ==>
            s.cell == Some(Cell(Stored(s.commits[n].fingerprint, s.commits[n].response), s.commits[n].stored.value + RESULT_TTL)))
  }

  ghost predicate Awaited(s: System, n: nat)
    requires n < |s.commits|
  {
    exists i :: 0 <= i < |s.requests| && s.requests[i].phase.Committed? && s.requests[i].phase.nth == n
  }

  /** A commit not yet stored is the last one, and its request is about to store it. */
  ghost predicate PendingStored(s: System) {
    && (forall n :: 0 <= n < |s.commits| && s.commits[n].stored.None? ==> Awaited(s, n))
    && (forall i :: 0 <= i < |s.requests| && s.requests[i].phase.Committed? ==>
          && s.requests[i].phase.nth + 1 == |s.commits|
          && s.commits[s.requests[i].phase.nth].fingerprint == s.requests[i].fingerprint
          && s.commits[s.requests[i].phase.nth].response == s.requests[i].phase.response
          && s.commits[s.requests[i].phase.nth].at <= s.clock
          && s.commits[s.requests[i].phase.nth].stored.None?)
  }

  ghost predicate IsResult(c: Commit, cell: Cell) {
    cell.value == Stored(c.fingerprint, c.response) && c.stored.Some? && cell.expires == c.stored.value + RESULT_TTL
  }

  ghost predicate CellIsResult(s: System) {
    s.cell.Some? && s.cell.value.value.Stored? ==> exists n :: 0 <= n < |s.commits| && IsResult(s.commits[n], s.cell.value)
  }

  ghost predicate Inv(s: System) {
    LockHeld(s) && OncePerWindow(s.commits) && ResultsHeld(s) && PendingStored(s) && CellIsResult(s)
  }

  lemma StartHolds(s: System)
    requires Start(s)
    ensures Inv(s)
  {
  }

  lemma TickKeeps(s: System, seconds: nat)
    requires Inv(s)
    ensures Inv(s.(clock := s.clock + seconds))
  {
  }

  /** A phase change of a request that neither takes nor gives anything. */
  lemma IdleKeeps(s: System, i: nat, phase: Phase)
    requires Inv(s) && i < |s.requests| && !phase.Committed? && !s.requests[i].phase.Committed?
    requires phase.Holds() ==> s.requests[i].phase.Holds() && phase.since == s.requests[i].phase.since
    ensures Inv(Moved(s, i, phase))
  {
    var t := Moved(s, i, phase);
    forall n | 0 <= n < |s.commits| && s.commits[n].stored.None? ensures Awaited(t, n) {
      var j :| 0 <= j < |s.requests| && s.requests[j].phase.Committed? && s.requests[j].phase.nth == n;
      assert t.requests[j] == s.requests[j];
    }
  }

  lemma FreeIsUnheld(s: System)
    requires LockHeld(s) && Punctual(s) && Get(s.cell, s.clock).None?
    ensures forall i :: 0 <= i < |s.requests| ==> !s.requests[i].phase.Holds()
  {
  }

  /** Taking the lock: nobody holds it, and every earlier result has expired. */
  lemma AcquireKeeps(s: System, i: nat, taken: Phase)
    requires Inv(s) && Punctual(s) && i < |s.requests| && s.requests[i].phase.Begins() && taken.Begins()
    ensures Inv(Acquire(s, i, taken))
  {
    if Get(s.cell, s.clock).Some? {
      IdleKeeps(s, i, taken);
    } else {
      FreeIsUnheld(s);
    }
  }

  /** A holder that is not about to store a response finds every earlier one stored. */
  lemma NoneCommitted(s: System, i: nat)
    requires Inv(s) && i < |s.requests| && s.requests[i].phase.Holds() && !s.requests[i].phase.Committed?
    ensures forall n :: 0 <= n < |s.commits| ==> s.commits[n].stored.Some?
  {
    forall n | 0 <= n < |s.commits| ensures !Awaited(s, n) {
    }
  }

  lemma CommitKeeps(s: System, i: nat, response: Response)
    requires Inv(s) && Punctual(s) && i < |s.requests| && s.requests[i].phase.Working?
    ensures Inv(Next(s, i, Finish(response)))
  {
    var t := Next(s, i, Finish(response));
    NoneCommitted(s, i);
    assert t.requests[i].phase.Committed? && t.requests[i].phase.nth == |s.commits|;
    assert Awaited(t, |s.commits|);
    forall j | 0 <= j < |s.requests| && j != i ensures !t.requests[j].phase.Holds() {
      assert t.requests[j] == s.requests[j];
    }
  }

  lemma StoreKeeps(s: System, i: nat)
    requires Inv(s) && i < |s.requests| && s.requests[i].phase.Committed?
    ensures Inv(Next(s, i, Go))
  {
    var t := Next(s, i, Go);
    var n := s.requests[i].phase.nth;
    forall j | 0 <= j < |s.requests| && j != i ensures !t.requests[j].phase.Holds() {
      assert t.requests[j] == s.requests[j];
    }
    forall m | 0 <= m < |s.commits| && m != n ensures s.commits[m].stored.Some? && s.commits[m].stored.value + RESULT_TTL <= s.clock {
      assert m < n;
    }
    assert IsResult(t.commits[n], t.cell.value);
  }

  lemma DeleteKeeps(s: System, i: nat)
    requires Inv(s) && i < |s.requests| && s.requests[i].phase.Deleting?
    ensures Inv(Next(s, i, Go))
  {
    var t := Next(s, i, Go);
    forall j | 0 <= j < |s.requests| && j != i ensures !t.requests[j].phase.Holds() {
      assert t.requests[j] == s.requests[j];
    }
    NoneCommitted(s, i);
  }

  lemma StepKeeps(s: System, c: Choice)
    requires Inv(s) && Punctual(s) && !Loses(s, c)
    ensures Inv(Step(s, c))
  {
    hide Inv, Punctual, Get;
    match c
    case Tick(seconds) => TickKeeps(s, seconds);
    case Act(i, action) =>
      if i < |s.requests| {
        match s.requests[i].phase
        case Fresh => if action.Fail? { IdleKeeps(s, i, Done(Unavailable, s.clock)); } else { AcquireKeeps(s, i, FirstRead); }
        case FirstRead => ReadKeeps(s, i, action);
        case Retry => if action.Fail? { IdleKeeps(s, i, Done(Unavailable, s.clock)); } else { AcquireKeeps(s, i, LastRead); }
        case LastRead => ReadKeeps(s, i, action);
        case Working(since) =>
          if action.Finish? { CommitKeeps(s, i, action.response); }
          else if action.Go? { IdleKeeps(s, i, Aborting(since)); }
          else { IdleKeeps(s, i, Done(Failed, s.clock)); }
        case Committed(_, _, _) => FinishIsGo(s, i, action); StoreKeeps(s, i);
        case Aborting(since) => IdleKeeps(s, i, Deleting(since)); IdleKeeps(s, i, Done(Failed, s.clock));
        case Deleting(_) =>
          if action.Fail? { IdleKeeps(s, i, Done(Failed, s.clock)); } else { FinishIsGo(s, i, action); DeleteKeeps(s, i); }
        case Done(_, _) =>
      }
  }

  lemma FinishIsGo(s: System, i: nat, action: Action)
    requires i < |s.requests| && (s.requests[i].phase.Committed? || s.requests[i].phase.Deleting?) && !action.Fail?
    ensures Next(s, i, action) == Next(s, i, Go)
  {
  }

  lemma ReadKeeps(s: System, i: nat, action: Action)
    requires Inv(s) && i < |s.requests| && (s.requests[i].phase.FirstRead? || s.requests[i].phase.LastRead?)
    ensures Inv(Next(s, i, action))
  {
    hide Inv;
    IdleKeeps(s, i, Next(s, i, action).requests[i].phase);
  }

  lemma WellTimedBefore(s: System, cs: seq<Choice>)
    requires cs != [] && WellTimed(s, cs)
    ensures
      var n := |cs| - 1;
      WellTimed(s, cs[..n]) && Punctual(Run(s, cs[..n])) && !Loses(Run(s, cs[..n]), cs[n])
  {
    hide Run, Punctual, Loses;
    var n := |cs| - 1;
    forall k | 0 <= k <= n ensures Punctual(Run(s, cs[..n][..k])) {
      assert cs[..n][..k] == cs[..k];
    }
    forall k | 0 <= k < n ensures !Loses(Run(s, cs[..n][..k]), cs[..n][k]) {
      assert cs[..n][..k] == cs[..k];
      assert !Loses(Run(s, cs[..k]), cs[k]);
    }
  }

  lemma {:induction false} RunKeeps(s: System, cs: seq<Choice>)
    requires Inv(s) && WellTimed(s, cs)
    ensures Inv(Run(s, cs))
  {
    if cs != [] {
      WellTimedBefore(s, cs);
      hide Inv, WellTimed, Punctual;
      RunKeeps(s, cs[..|cs| - 1]);
      StepKeeps(Run(s, cs[..|cs| - 1]), cs[|cs| - 1]);
    }
  }

  // ---- Safety ----

  /** Under any interleaving in which holders finish within the processing time and store their
      responses, two picks are committed under one key only if the first result has expired by the
      second commit, and never two requests hold the lock together. */
  lemma AtMostOneCommitPerWindow(s: System, cs: seq<Choice>)
    requires Start(s) && WellTimed(s, cs)
    ensures OncePerWindow(Run(s, cs).commits)
    ensures forall i, j :: 0 <= i < j < |Run(s, cs).requests| && Run(s, cs).requests[i].phase.Holds() ==> !Run(s, cs).requests[j].phase.Holds()
  {
    StartHolds(s);
    RunKeeps(s, cs);
    hide Start, WellTimed, Run;
  }

  // ---- And exactly when it fails ----

  /** A holder commits while the result of an earlier commit is not stored yet, or has not expired. */
  predicate Crowded(s: System, c: Choice) {
    && c.Act? && c.i < |s.requests| && s.requests[c.i].phase.Working? && c.action.Finish?
    && exists n :: 0 <= n < |s.commits| && (s.commits[n].stored.None? || s.clock < s.commits[n].stored.value + RESULT_TTL)
  }

  /** Times never run backwards, and a request that is about to store has a commit of its own. */
  ghost predicate Timed(s: System) {
    && (forall n :: 0 <= n < |s.commits| ==>
          && s.commits[n].at <= s.clock
          && (s.commits[n].stored.Some? ==> s.commits[n].at <= s.commits[n].stored.value <= s.clock))
    && (forall i :: 0 <= i < |s.requests| && s.requests[i].phase.Committed? ==>
          s.requests[i].phase.nth < |s.commits| && s.commits[s.requests[i].phase.nth].stored.None?)
    && (forall i, j :: 0 <= i < j < |s.requests| && s.requests[i].phase.Committed? && s.requests[j].phase.Committed? ==>
          s.requests[i].phase.nth != s.requests[j].phase.nth)
  }

  lemma StepKeepsTimed(s: System, c: Choice)
    requires Timed(s)
    ensures Timed(Step(s, c))
  {
    if c.Act? && c.i < |s.requests| {
      var t := Next(s, c.i, c.action);
      hide Get, Answer;
      if s.requests[c.i].phase.Working? || s.requests[c.i].phase.Committed? {
        HolderKeepsTimed(s, c.i, c.action);
      } else {
        assert t.commits == s.commits && t.clock == s.clock && !t.requests[c.i].phase.Committed?;
        hide Next;
      }
    }
  }

  lemma HolderKeepsTimed(s: System, i: nat, action: Action)
    requires Timed(s) && i < |s.requests| && (s.requests[i].phase.Working? || s.requests[i].phase.Committed?)
    ensures Timed(Next(s, i, action))
  {
  }

  /** Commit `j` fell into the window of commit `n`, for good. */
  ghost predicate Overlaps(commits: seq<Commit>, n: nat, j: nat) {
    n < j < |commits| && (commits[n].stored.None? || commits[j].at < commits[n].stored.value + RESULT_TTL)
  }

  lemma StepKeepsOverlap(s: System, c: Choice, n: nat, j: nat)
    requires Timed(s) && Overlaps(s.commits, n, j)
    ensures Overlaps(Step(s, c).commits, n, j)
  {
  }

  lemma OverlapIsTwice(commits: seq<Commit>, n: nat, j: nat)
    requires Overlaps(commits, n, j)
    ensures !OncePerWindow(commits)
  {
    assert 0 <= n < j < |commits| && commits[n] == commits[n] && commits[j] == commits[j];
  }

  lemma CrowdedOverlaps(s: System, c: Choice)
    requires Timed(s) && Crowded(s, c)
    ensures exists n: nat, j: nat :: Overlaps(Step(s, c).commits, n, j)
  {
    var n :| 0 <= n < |s.commits| && (s.commits[n].stored.None? || s.clock < s.commits[n].stored.value + RESULT_TTL);
    assert Overlaps(Step(s, c).commits, n, |s.commits|);
  }

  lemma AwaitedIsLast(commits: seq<Commit>, nth: nat)
    requires OncePerWindow(commits) && nth < |commits| && commits[nth].stored.None?
    ensures nth == |commits| - 1
  {
    var last := |commits| - 1;
    assert commits[last].at == commits[last].at && commits[nth].stored.None?;
  }

  lemma UncrowdedKeepsWindows(s: System, c: Choice)
    requires Timed(s) && OncePerWindow(s.commits) && !Crowded(s, c)
    ensures OncePerWindow(Step(s, c).commits)
  {
    if c.Act? && c.i < |s.requests| && s.requests[c.i].phase.Committed? {
      AwaitedIsLast(s.commits, s.requests[c.i].phase.nth);
    }
  }

  /** Under any schedule at all: either some commit was crowded, and two commits share a window for good,
      or none was, and no two do. */
  lemma {:induction false} WindowsSoFar(s: System, cs: seq<Choice>)
    requires Start(s)
    ensures Timed(Run(s, cs))
    ensures (exists k :: 0 <= k < |cs| && Crowded(Run(s, cs[..k]), cs[k])) ==>
              exists n: nat, j: nat :: Overlaps(Run(s, cs).commits, n, j)
    ensures !(exists k :: 0 <= k < |cs| && Crowded(Run(s, cs[..k]), cs[k])) ==> OncePerWindow(Run(s, cs).commits)
  {
    hide Timed, Crowded, Overlaps, OncePerWindow, Step;
    if cs == [] {
      StartsTimed(s);
    } else {
      var last := |cs| - 1;
      var before, c := Run(s, cs[..last]), cs[last];
      WindowsSoFar(s, cs[..last]);
      StepKeepsTimed(before, c);
      if k :| 0 <= k < |cs| && Crowded(Run(s, cs[..k]), cs[k]) {
        if k < last {
          assert cs[..last][..k] == cs[..k] && cs[..last][k] == cs[k];
          var n: nat, j: nat :| Overlaps(before.commits, n, j);
          StepKeepsOverlap(before, c, n, j);
        } else {
          CrowdedOverlaps(before, c);
        }
      } else {
        forall k | 0 <= k < last ensures !Crowded(Run(s, cs[..last][..k]), cs[..last][k]) {
          assert cs[..last][..k] == cs[..k] && cs[..last][k] == cs[k];
        }
        UncrowdedKeepsWindows(before, c);
      }
    }
  }

  lemma StartsTimed(s: System)
    requires Start(s)
    ensures Timed(s) && OncePerWindow(s.commits)
  {
  }

  /** Under any schedule, each commit waits for the result before it to expire if and only if no holder
      ever commits while an earlier result is unstored or unexpired. */
  lemma OncePerWindowIff(s: System, cs: seq<Choice>)
    requires Start(s)
    ensures OncePerWindow(Run(s, cs).commits) <==> forall k :: 0 <= k < |cs| ==> !Crowded(Run(s, cs[..k]), cs[k])
  {
    hide Crowded, OncePerWindow, Run, Start, Timed;
    WindowsSoFar(s, cs);
    if k :| 0 <= k < |cs| && Crowded(Run(s, cs[..k]), cs[k]) {
      var n: nat, j: nat :| Overlaps(Run(s, cs).commits, n, j);
      OverlapIsTwice(Run(s, cs).commits, n, j);
    }
  }

  // ---- Replay ----

  /** While a stored result lives, a request that was fresh when it was stored is on its way to the
      one right answer. */
  ghost predicate Replaying(t: System, p: nat, c: Commit, expires: int, commits: seq<Commit>) {
    && p < |t.requests| && t.commits == commits && t.clock < expires
    && t.cell == Some(Cell(Stored(c.fingerprint, c.response), expires))
    && (forall i :: 0 <= i < |t.requests| ==> !t.requests[i].phase.Holds())
    && match t.requests[p].phase
       case Fresh => true
       case FirstRead => true
       case Done(reply, _) => reply == Unavailable || reply == Answer(Stored(c.fingerprint, c.response), t.requests[p].fingerprint)
       case _ => false
  }

  lemma NextReplays(t: System, j: nat, action: Action, p: nat, c: Commit, expires: int, commits: seq<Commit>)
    requires Replaying(t, p, c, expires, commits) && j < |t.requests|
    ensures Replaying(Next(t, j, action), p, c, expires, commits)
    ensures Next(t, j, action).requests[p].fingerprint == t.requests[p].fingerprint
  {
  }

  lemma StepReplays(t: System, choice: Choice, p: nat, c: Commit, expires: int, commits: seq<Commit>)
    requires Replaying(t, p, c, expires, commits) && Step(t, choice).clock < expires
    ensures Replaying(Step(t, choice), p, c, expires, commits)
    ensures Step(t, choice).requests[p].fingerprint == t.requests[p].fingerprint
  {
    if choice.Act? && choice.i < |t.requests| {
      NextReplays(t, choice.i, choice.action, p, c, expires, commits);
      hide Replaying, Next;
    }
  }

  lemma {:induction false} ClockGrows(s: System, cs: seq<Choice>, k: nat)
    requires k <= |cs|
    ensures Run(s, cs[..k]).clock <= Run(s, cs).clock
    decreases |cs|
  {
    if k < |cs| {
      var n := |cs| - 1;
      assert cs[..n][..k] == cs[..k];
      ClockGrows(s, cs[..n], k);
    } else {
      assert cs[..k] == cs;
    }
  }

  lemma {:induction false} RunReplays(s: System, cs: seq<Choice>, p: nat, c: Commit, expires: int, commits: seq<Commit>)
    requires Replaying(s, p, c, expires, commits) && Run(s, cs).clock < expires
    ensures Replaying(Run(s, cs), p, c, expires, commits)
    ensures Run(s, cs).requests[p].fingerprint == s.requests[p].fingerprint
  {
    if cs != [] {
      var n := |cs| - 1;
      ClockGrows(s, cs, n);
      hide Replaying, Step;
      RunReplays(s, cs[..n], p, c, expires, commits);
      StepReplays(Run(s, cs[..n]), cs[n], p, c, expires, commits);
    }
  }

  /** Once a response is stored, and until it expires, nothing more is committed under the key, and
      every request that starts then is answered, if Redis answers at all, with exactly that response
      when its body is the same and with a mismatch when it is not. No timing assumption is needed. */
  lemma StoredResultIsReplayed(s: System, n: nat, cs: seq<Choice>, p: nat)
    requires Inv(s) && n < |s.commits| && s.commits[n].stored.Some?
    requires p < |s.requests| && s.requests[p].phase.Fresh?
    requires Run(s, cs).clock < s.commits[n].stored.value + RESULT_TTL
    ensures
      var t, c := Run(s, cs), s.commits[n];
      && t.commits == s.commits && p < |t.requests|
      && (t.requests[p].phase.Done? ==>
            t.requests[p].phase.reply == Unavailable
            || t.requests[p].phase.reply == if s.requests[p].fingerprint == c.fingerprint then Cached(c.response) else BodyMismatch)
  {
    var c := s.commits[n];
    ClockGrows(s, cs, 0);
    assert cs[..0] == [];
    assert s.cell == Some(Cell(Stored(c.fingerprint, c.response), c.stored.value + RESULT_TTL));
    RunReplays(s, cs, p, c, c.stored.value + RESULT_TTL, s.commits);
    hide Run, Inv;
  }

  // ---- Replies ----

  /** What a finished request's reply means. */
  ghost predicate Justified(s: System, r: Request) {
    r.phase.Done? ==>
      match r.phase.reply
      case Created(response) => exists n :: 0 <= n < |s.commits| && s.commits[n].fingerprint == r.fingerprint && s.commits[n].response == response
      case Cached(response) =>
        exists n :: 0 <= n < |s.commits| && s.commits[n].fingerprint == r.fingerprint && s.commits[n].response == response && StoredBy(s.commits[n], r.phase.at)
      case BodyMismatch => exists n :: 0 <= n < |s.commits| && s.commits[n].fingerprint != r.fingerprint && StoredBy(s.commits[n], r.phase.at)
      case _ => true
  }

  /** The commit's response was in the key at that time. */
  predicate StoredBy(c: Commit, at: int) {
    c.stored.Some? && c.stored.value <= at < c.stored.value + RESULT_TTL
  }

  ghost predicate RepliesJustified(s: System) {
    forall i :: 0 <= i < |s.requests| ==> Justified(s, s.requests[i])
  }

  /** Commits only accumulate, and gain nothing but their storing time. */
  ghost predicate Grown(before: seq<Commit>, after: seq<Commit>) {
    && |before| <= |after|
    && forall n :: 0 <= n < |before| ==>
         && after[n].fingerprint == before[n].fingerprint && after[n].response == before[n].response
         && (before[n].stored.Some? ==> after[n] == before[n])
  }

  lemma GrowthJustifies(s: System, t: System, r: Request)
    requires Justified(s, r) && Grown(s.commits, t.commits)
    ensures Justified(t, r)
  {
    if r.phase.Done? {
      match r.phase.reply
      case Created(response) =>
        var n :| 0 <= n < |s.commits| && s.commits[n].fingerprint == r.fingerprint && s.commits[n].response == response;
        assert t.commits[n].response == response;
      case Cached(response) =>
        var n :| 0 <= n < |s.commits| && s.commits[n].fingerprint == r.fingerprint && s.commits[n].response == response && StoredBy(s.commits[n], r.phase.at);
        assert t.commits[n] == s.commits[n];
      case BodyMismatch =>
        var n :| 0 <= n < |s.commits| && s.commits[n].fingerprint != r.fingerprint && StoredBy(s.commits[n], r.phase.at);
        assert t.commits[n] == s.commits[n];
      case _ =>
    }
  }

  lemma NextGrows(s: System, i: nat, action: Action)
    requires PendingStored(s) && i < |s.requests|
    ensures Grown(s.commits, Next(s, i, action).commits)
    ensures |Next(s, i, action).requests| == |s.requests|
    ensures forall j :: 0 <= j < |s.requests| && j != i ==> Next(s, i, action).requests[j] == s.requests[j]
  {
  }

  lemma ReadIsJustified(s: System, i: nat, v: Value)
    requires Inv(s) && i < |s.requests| && Get(s.cell, s.clock) == Some(v)
    ensures Justified(s, s.requests[i].(phase := Done(Answer(v, s.requests[i].fingerprint), s.clock)))
  {
    if v.Stored? {
      var n :| 0 <= n < |s.commits| && IsResult(s.commits[n], s.cell.value);
      assert StoredBy(s.commits[n], s.clock);
    }
  }

  lemma NextJustified(s: System, i: nat, action: Action)
    requires Inv(s) && i < |s.requests| && Justified(s, s.requests[i])
    ensures Justified(Next(s, i, action), Next(s, i, action).requests[i])
  {
    var t := Next(s, i, action);
    NextGrows(s, i, action);
    var v := Get(s.cell, s.clock);
    match s.requests[i].phase
    case FirstRead => if !action.Fail? && v.Some? { ReadIsJustified(s, i, v.value); }
    case LastRead => if !action.Fail? && v.Some? { ReadIsJustified(s, i, v.value); }
    case Committed(_, response, nth) => assert t.commits[nth].response == response;
    case _ =>
  }

  /** Over every such run, a created reply stands for a committed pick of that body, a cached reply
      repeats the response of a committed pick of the same body that was stored and unexpired when it
      was read, and a mismatch comes from an unexpired result of another body. */
  lemma {:induction false} RepliesAreJustified(s: System, cs: seq<Choice>)
    requires Start(s) && WellTimed(s, cs)
    ensures RepliesJustified(Run(s, cs))
  {
    if cs != [] {
      var n := |cs| - 1;
      WellTimedBefore(s, cs);
      RepliesAreJustified(s, cs[..n]);
      StartHolds(s);
      RunKeeps(s, cs[..n]);
      var t, c := Run(s, cs[..n]), cs[n];
      hide WellTimed, Start, Justified, Next, Inv;
      if c.Act? && c.i < |t.requests| {
        var u := Next(t, c.i, c.action);
        assert PendingStored(t) by { InvPending(t); }
        NextGrows(t, c.i, c.action);
        NextJustified(t, c.i, c.action);
        forall j | 0 <= j < |u.requests| ensures Justified(u, u.requests[j]) {
          if j != c.i { GrowthJustifies(t, u, t.requests[j]); }
        }
      } else {
        forall j | 0 <= j < |t.requests| ensures Justified(Step(t, c), t.requests[j]) {
          GrowthJustifies(t, Step(t, c), t.requests[j]);
        }
      }
    }
  }

  lemma InvPending(s: System)
    requires Inv(s)
    ensures PendingStored(s)
  {
  }

  /** While one request holds the key, no other one gets past `begin`: in every such run the next command of a
      request that has not begun leaves it at `begin`, or ends it as in progress, or finds Redis down. */
  lemma HeldKeyTurnsAway(s: System, cs: seq<Choice>, i: nat, j: nat, action: Action)
    requires Start(s) && WellTimed(s, cs)
    requires i < |Run(s, cs).requests| && j < |Run(s, cs).requests| && i != j
    requires Run(s, cs).requests[i].phase.Holds() && Run(s, cs).requests[j].phase.Begins()
    ensures
      var t, phase := Run(s, cs), Next(Run(s, cs), j, action).requests[j].phase;
      && Next(t, j, action).commits == t.commits && Next(t, j, action).cell == t.cell
      && (phase.Begins() || phase == Done(InProgress, t.clock) || (action.Fail? && phase == Done(Unavailable, t.clock)))
      && (!action.Fail? && (t.requests[j].phase.FirstRead? || t.requests[j].phase.LastRead?) ==> phase == Done(InProgress, t.clock))
  {
    StartHolds(s);
    RunKeeps(s, cs);
    assert cs[..|cs|] == cs;
    assert Punctual(Run(s, cs));
    assert LockHeld(Run(s, cs));
    hide Run, WellTimed, Start;
  }

  /** A holder whose database work failed gives the key back. The next request gets it at once; one that has only its
      last read left is still answered as in progress. */
  lemma AbortReopens(s: System, cs: seq<Choice>, i: nat, j: nat)
    requires Start(s) && WellTimed(s, cs)
    requires i < |Run(s, cs).requests| && j < |Run(s, cs).requests| && i != j
    requires Run(s, cs).requests[i].phase.Aborting?
    ensures
      var freed := Next(Next(Run(s, cs), i, Go), i, Go);
      && freed.cell.None? && freed.commits == Run(s, cs).commits && freed.requests[i].phase == Done(Failed, freed.clock)
      && (Run(s, cs).requests[j].phase.Fresh? ==> Next(freed, j, Go).requests[j].phase == Working(freed.clock))
      && (Run(s, cs).requests[j].phase.LastRead? ==> Next(freed, j, Go).requests[j].phase == Done(InProgress, freed.clock))
  {
    StartHolds(s);
    RunKeeps(s, cs);
    assert cs[..|cs|] == cs;
    assert Punctual(Run(s, cs));
    assert LockHeld(Run(s, cs));
    hide Run, WellTimed, Start, LockHeld, Next;
    KeyGivenBack(Run(s, cs), i, j);
  }

  lemma KeyGivenBack(s: System, i: nat, j: nat)
    requires LockHeld(s) && Punctual(s) && i < |s.requests| && j < |s.requests| && i != j
    requires s.requests[i].phase.Aborting?
    ensures
      var freed := Next(Next(s, i, Go), i, Go);
      && freed.cell.None? && freed.commits == s.commits && freed.requests[i].phase == Done(Failed, freed.clock)
      && (s.requests[j].phase.Fresh? ==> Next(freed, j, Go).requests[j].phase == Working(freed.clock))
      && (s.requests[j].phase.LastRead? ==> Next(freed, j, Go).requests[j].phase == Done(InProgress, freed.clock))
  {
    assert Get(s.cell, s.clock) == Some(Processing);
    var t := Next(s, i, Go);
    assert t == Moved(s, i, Deleting(s.requests[i].phase.since));
    var u := Next(t, i, Go);
    assert u == Moved(t, i, Done(Failed, t.clock)).(cell := None);
    assert u.requests[j] == s.requests[j];
  }

  // ---- Both assumptions are needed ----

  function TwoRequests(): System {
    System(0, None, [Request(7, Fresh), Request(7, Fresh)], [])
  }

  /** A holder that outlives its lock. */
  function LateRun(): seq<Choice> {
    [Act(0, Go), Tick(PROCESSING_TTL), Act(1, Go), Act(1, Finish(2)), Act(0, Finish(1))]
  }

  /** A committed request whose response is never stored. */
  function LostRun(): seq<Choice> {
    [Act(0, Go), Act(0, Finish(1)), Act(0, Fail), Tick(PROCESSING_TTL), Act(1, Go), Act(1, Finish(2))]
  }

  lemma RunFive(s: System, a: Choice, b: Choice, c: Choice, d: Choice, e: Choice)
    ensures Run(s, [a, b, c, d, e]) == Step(Step(Step(Step(Step(s, a), b), c), d), e)
  {
    RunAdds(s, [], a);
    RunAdds(s, [a], b);
    RunAdds(s, [a, b], c);
    RunAdds(s, [a, b, c], d);
    RunAdds(s, [a, b, c, d], e);
    hide Run, Step;
    assert [] + [a] == [a] && [a] + [b] == [a, b] && [a, b] + [c] == [a, b, c];
    assert [a, b, c] + [d] == [a, b, c, d] && [a, b, c, d] + [e] == [a, b, c, d, e];
    assert Run(s, []) == s by { RunOfNone(s); }
  }

  lemma RunOfNone(s: System)
    ensures Run(s, []) == s
  {
  }

  lemma RunAdds(s: System, cs: seq<Choice>, c: Choice)
    ensures Run(s, cs + [c]) == Step(Run(s, cs), c)
  {
    assert (cs + [c])[..|cs|] == cs;
  }

  /** Two identical requests both commit their pick when the first outlives its lock. */
  lemma LateHolderCommitsTwice()
    ensures |Run(TwoRequests(), LateRun()).commits| == 2 && !OncePerWindow(Run(TwoRequests(), LateRun()).commits)
  {
    var s, cs := TwoRequests(), LateRun();
    RunFive(s, cs[0], cs[1], cs[2], cs[3], cs[4]);
    hide Run, OncePerWindow;
    var s3 := Step(Step(Step(s, cs[0]), cs[1]), cs[2]);
    assert s3 == System(120, Some(Cell(Processing, 240)), [Request(7, Working(0)), Request(7, Working(120))], []);
    var s5 := Step(Step(s3, cs[3]), cs[4]);
    TwiceInOneWindow(s5.commits);
  }

  lemma TwiceInOneWindow(commits: seq<Commit>)
    requires |commits| == 2 && commits[0].stored.None?
    ensures !OncePerWindow(commits)
  {
    var i, j := 0, 1;
    assert 0 <= i < j < |commits| && commits[i].stored.None? && commits[j].at == commits[1].at;
  }

  /** So they do when the first response is lost after its commit. */
  lemma LostResponseCommitsTwice()
    ensures |Run(TwoRequests(), LostRun()).commits| == 2 && !OncePerWindow(Run(TwoRequests(), LostRun()).commits)
  {
    LostRunCommits();
    hide Run;
    TwiceInOneWindow(Run(TwoRequests(), LostRun()).commits);
  }

  lemma LostRunCommits()
    ensures Run(TwoRequests(), LostRun()).commits == [Commit(7, 1, 0, None), Commit(7, 2, 120, None)]
  {
    hide Run;
    var s, cs := TwoRequests(), LostRun();
    RunFive(s, cs[0], cs[1], cs[2], cs[3], cs[4]);
    RunAdds(s, cs[..5], cs[5]);
    assert cs[..5] == [cs[0], cs[1], cs[2], cs[3], cs[4]] && cs[..5] + [cs[5]] == cs;
    var s3 := Step(Step(Step(s, cs[0]), cs[1]), cs[2]);
    assert s3 == System(0, Some(Cell(Processing, 120)), [Request(7, Done(Created(1), 0)), Request(7, Fresh)], [Commit(7, 1, 0, None)]);
    var s5 := Step(Step(s3, cs[3]), cs[4]);
    assert s5 == System(120, Some(Cell(Processing, 240)), [Request(7, Done(Created(1), 0)), Request(7, Working(120))], [Commit(7, 1, 0, None)]);
    var s6 := Step(s5, cs[5]);
    assert Run(s, cs) == s6;
    assert s6.commits == [Commit(7, 1, 0, None), Commit(7, 2, 120, None)];
  }

  // ---- The three helpers, against a Redis that others use between their commands ----

  /** The key as one request sees it. */
  function Seen(redis: Redis, r: Request): System
    reads redis
  {
    System(redis.clock, redis.cell, [r], [])
  }

  /** Time passing between two commands, and what other requests leave under the key meanwhile. */
  datatype Pause = Pause(seconds: nat, cell: Option<Cell>)

  /** The next command of `begin` after a pause, unless it has ended. */
  function Continued(s: System, pause: Pause): System
    requires |s.requests| == 1
  {
    if s.requests[0].phase.Begins() then Next(Step(s, Tick(pause.seconds)).(cell := pause.cell), 0, Go) else s
  }

  /** One request's `begin`: its four commands, with the given pauses in between. */
  function Began(s: System, first: Pause, second: Pause, third: Pause): System
    requires |s.requests| == 1
  {
    Continued(Continued(Continued(Next(s, 0, Go), first), second), third)
  }

  class Redis {
    var clock: int
    var cell: Option<Cell>

    constructor (now: int)
      ensures clock == now && cell == None
    {
      clock, cell := now, None;
    }

    method Await(pause: Pause)
      modifies this
      ensures clock == old(clock) + pause.seconds && cell == pause.cell
    {
      clock, cell := clock + pause.seconds, pause.cell;
    }

    method Read() returns (v: Option<Value>)
      ensures v == Get(cell, clock)
    {
      v := if cell.Some? && clock < cell.value.expires then Some(cell.value.value) else None;
    }

    method Set(value: Value, ttl: int)
      modifies this
      ensures clock == old(clock) && cell == Some(Cell(value, clock + ttl))
    {
      cell := Some(Cell(value, clock + ttl));
    }

    method SetNx(value: Value, ttl: int) returns (acquired: bool)
      modifies this
      ensures clock == old(clock) && acquired == Get(old(cell), clock).None?
      ensures cell == if acquired then Some(Cell(value, clock + ttl)) else old(cell)
    {
      var v := Read();
      acquired := v.None?;
      if acquired {
        Set(value, ttl);
      }
    }

    method Delete()
      modifies this
      ensures clock == old(clock) && cell == None
    {
      cell := None;
    }

    /** `begin_pick_create`; `None` is to proceed. */
    method BeginPickCreate(fingerprint: Fingerprint, first: Pause, second: Pause, third: Pause) returns (reply: Option<Reply>)
      modifies this
      ensures
        var t := Began(old(Seen(this, Request(fingerprint, Fresh))), first, second, third);
        && t.clock == clock && t.cell == cell && t.commits == []
        && match reply
           case None => t.requests == [Request(fingerprint, Working(clock))]
           case Some(r) => t.requests == [Request(fingerprint, Done(r, clock))]
    {
      var acquired := SetNx(Processing, PROCESSING_TTL);
      if acquired {
        return None;
      }
      Await(first);
      var raw := Read();
      if raw.None? {
        Await(second);
        acquired := SetNx(Processing, PROCESSING_TTL);
        if acquired {
          return None;
        }
        Await(third);
        raw := Read();
      }
      if raw.None? {
        return Some(InProgress);
      }
      reply := Some(Answer(raw.value, fingerprint));
    }

    /** `complete_pick_create`, when Redis answers. */
    method CompletePickCreate(fingerprint: Fingerprint, response: Response)
      modifies this
      ensures clock == old(clock) && Get(cell, clock) == Some(Stored(fingerprint, response))
      ensures cell.Some? && cell.value.expires == clock + RESULT_TTL
    {
      Set(Stored(fingerprint, response), RESULT_TTL);
    }

    /** `abort_pick_create_if_processing`: a result already stored when it looks stays; otherwise the
        key is freed whatever it holds by then. */
    method AbortIfProcessing(pause: Pause)
      modifies this
      ensures Get(old(cell), old(clock)) == Some(Processing) ==> cell == None && clock == old(clock) + pause.seconds
      ensures Get(old(cell), old(clock)) != Some(Processing) ==> cell == old(cell) && clock == old(clock)
    {
      var raw := Read();
      if raw == Some(Processing) {
        Await(pause);
        Delete();
      }
    }
  }
}
