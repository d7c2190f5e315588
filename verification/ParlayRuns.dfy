/** Parlays over whole runs (`app/services/parlay_service.py`, and the resolve endpoint that calls it). */
module ParlayRuns {
  import opened Domain
  import opened Tables
  import opened Reconciliation
  import opened Engine
  import opened Invariants
  import opened Runs

  /** A parlay agrees with its legs. */
  ghost predicate Consistent(q: Parlay, picks: map<PickId, Pick>) {
    && q.legs != [] && (forall i :: 0 <= i < |q.legs| ==> q.legs[i] in picks)
    && (q.status.Won? ==> EveryLeg(picks, q.legs, Status.Won) && q.actualReturn == Some(q.potentialReturn))
    && (q.status.Lost? ==> !SomeLeg(picks, q.legs, Status.Pending) && SomeLeg(picks, q.legs, Status.Lost) && q.actualReturn == Some(0))
    && (q.status.Open? ==> q.actualReturn == None)
  }

  ghost predicate ParlaysConsistent(db: Db) {
    forall q :: q in db.parlays ==> Consistent(db.parlays[q], db.picks)
  }

  /** Still open only for a reason: a pending leg, or no lost leg and a push or void. */
  ghost predicate OpenForAReason(q: Parlay, picks: map<PickId, Pick>) {
    q.status.Open? <==>
      || SomeLeg(picks, q.legs, Status.Pending)
      || (!SomeLeg(picks, q.legs, Status.Lost) && (SomeLeg(picks, q.legs, Status.Push) || SomeLeg(picks, q.legs, Status.Void)))
  }

  ghost predicate ParlaysPrompt(db: Db) {
    forall q :: q in db.parlays ==> OpenForAReason(db.parlays[q], db.picks)
  }

  /** Picks stay, and only pending ones may change status. */
  ghost predicate StatusesGrow(before: map<PickId, Pick>, after: map<PickId, Pick>) {
    forall k :: k in before ==> k in after && (before[k].status.Terminal() ==> after[k].status == before[k].status)
  }

  /** The pick whose status a request may change. */
  function Settles(op: Op): Option<PickId> {
    match op
    case Resolve(pid, _, _) => Some(pid)
    case Delete(pid) => Some(pid)
    case Confirm(pid, confirmed) => if confirmed then None else Some(pid)
    case _ => None
  }

  lemma SettleMovesOnePick(db: Db, pid: PickId, target: Status, closing: Option<int>, now: int, at: int, t: int)
    requires Sound(db) && InOrder(db.ledger, t) && Settle(db, pid, target, closing, now, at).Ok?
    ensures
      var next := Settle(db, pid, target, closing, now, at).value;
      && next.parlays == db.parlays && next.picks.Keys == db.picks.Keys && StatusesGrow(db.picks, next.picks)
      && forall k :: k in db.picks && k != pid ==> next.picks[k] == db.picks[k]
  {
    hide Settle, InOrder;
    SettleChanges(db, pid, target, closing, now, at, t);
    var c :| Legal(db, c, at) && Settle(db, pid, target, closing, now, at).value == Apply(db, c)
             && (c.Same? || (c.Settled? && c.write.pid == pid && c.target == target));
  }

  /** One request, as the legs of parlays see it. */
  lemma RequestMovesStatuses(db: Db, r: Request, t: int)
    requires Sound(db) && InOrder(db.ledger, t)
    ensures StatusesGrow(db.picks, After(db, r).picks)
    ensures forall k :: k in db.picks && Some(k) != Settles(r.op) ==> After(db, r).picks[k].status == db.picks[k].status
  {
    hide Settle, Sound, InOrder, CreatePick, CreateParlay, Edited, Validate, FixUserBalance;
    if Execute(db, r).Ok? {
      match r.op
      case Create(request) => CreateAddsOnePick(db, request, r.at);
      case Resolve(pid, target, closing) => SettleMovesOnePick(db, pid, target, closing, r.now, r.at, t);
      case Delete(pid) => SettleMovesOnePick(db, pid, Status.Void, None, r.now, r.at, t);
      case Confirm(pid, confirmed) => if !confirmed { SettleMovesOnePick(db, pid, Status.Void, None, r.now, r.at, t); }
      case Update(pid, changes) => EditKeepsStatus(db.picks[pid], changes);
      case Repair(u) => RepairWrites(db, u);
      case AddParlay(q, legs, stake) => ParlayAdded(db, q, legs, stake);
    }
  }

  lemma EditKeepsStatus(p: Pick, c: Changes)
    requires Edited(p, c).Ok?
    ensures Edited(p, c).value.status == p.status
  {
  }

  /** A new parlay is open, on pending legs that all exist. */
  lemma ParlayAdded(db: Db, q: ParlayId, legs: seq<PickId>, stake: int)
    requires CreateParlay(db, q, legs, stake).Ok?
    ensures
      var next := CreateParlay(db, q, legs, stake).value;
      && next.picks == db.picks && q !in db.parlays && q in next.parlays && next.parlays == db.parlays[q := next.parlays[q]]
      && Consistent(next.parlays[q], db.picks) && OpenForAReason(next.parlays[q], db.picks)
  {
    hide OddsProduct, Pow10k;
    assert LegStatus(db.picks, legs[0]) == Status.Pending;
  }

  lemma CreateAddsOnePick(db: Db, r: NewPick, at: int)
    requires CreatePick(db, r, at).Ok?
    ensures CreatePick(db, r, at).value.parlays == db.parlays
    ensures forall k :: k in db.picks ==> k in CreatePick(db, r, at).value.picks && CreatePick(db, r, at).value.picks[k] == db.picks[k]
  {
    CreateChanges(db, r, at);
    var c :| Legal(db, c, at) && CreatePick(db, r, at).value == Apply(db, c) && c.Created?;
    hide CreatePick;
  }

  lemma GrowthKeepsConsistent(q: Parlay, before: map<PickId, Pick>, after: map<PickId, Pick>)
    requires Consistent(q, before) && StatusesGrow(before, after)
    ensures Consistent(q, after)
  {
    if q.status.Lost? {
      var i :| 0 <= i < |q.legs| && LegStatus(before, q.legs[i]) == Status.Lost;
      assert LegStatus(after, q.legs[i]) == Status.Lost;
      forall j | 0 <= j < |q.legs| ensures LegStatus(after, q.legs[j]) != Status.Pending {
        assert LegStatus(before, q.legs[j]) != Status.Pending;
      }
    }
    if q.status.Won? {
      forall j | 0 <= j < |q.legs| ensures LegStatus(after, q.legs[j]) == Status.Won {
        assert LegStatus(before, q.legs[j]) == Status.Won;
      }
    }
  }

  /** A check never breaks consistency, never touches a decided parlay, and leaves a parlay open only
      for a reason. */
  lemma CheckIsPrompt(q: Parlay, picks: map<PickId, Pick>)
    requires Consistent(q, picks)
    ensures Consistent(AutoResolve(q, picks), picks) && OpenForAReason(AutoResolve(q, picks), picks)
    ensures !q.status.Open? ==> AutoResolve(q, picks) == q
    ensures AutoResolve(q, picks) == q.(status := AutoResolve(q, picks).status, actualReturn := AutoResolve(q, picks).actualReturn)
  {
    if forall s :: SomeLeg(picks, q.legs, s) ==> s == Status.Won {
      forall i | 0 <= i < |q.legs| ensures LegStatus(picks, q.legs[i]) == Status.Won {
        assert SomeLeg(picks, q.legs, LegStatus(picks, q.legs[i]));
      }
    }
    if EveryLeg(picks, q.legs, Status.Won) {
      assert LegStatus(picks, q.legs[0]) == Status.Won;
    }
  }

  // ---- Every run ----

  lemma RequestKeepsParlays(db: Db, r: Request, t: int)
    requires Sound(db) && InOrder(db.ledger, t) && ParlaysConsistent(db)
    ensures ParlaysConsistent(After(db, r))
    ensures forall q :: q in db.parlays ==> q in After(db, r).parlays
    ensures forall q :: q in db.parlays && !db.parlays[q].status.Open? ==> After(db, r).parlays[q] == db.parlays[q]
  {
    var next := After(db, r);
    RequestMovesStatuses(db, r, t);
    RequestWritesParlays(db, r, t);
    hide Execute, After, Sound, InOrder, Consistent, StatusesGrow, AutoResolve;
    forall q | q in next.parlays ensures Consistent(next.parlays[q], next.picks) {
      if q in db.parlays {
        GrowthKeepsConsistent(db.parlays[q], db.picks, next.picks);
        CheckIsPrompt(db.parlays[q], next.picks);
      }
    }
    forall q | q in db.parlays && !db.parlays[q].status.Open? ensures next.parlays[q] == db.parlays[q] {
      GrowthKeepsConsistent(db.parlays[q], db.picks, next.picks);
      CheckIsPrompt(db.parlays[q], next.picks);
    }
  }

  /** What one request writes to the parlays: a check of those its resolved pick belongs to, or one
      new parlay. */
  lemma RequestWritesParlays(db: Db, r: Request, t: int)
    requires Sound(db) && InOrder(db.ledger, t)
    ensures
      var next := After(db, r);
      && (forall q :: q in db.parlays ==>
            && q in next.parlays
            && next.parlays[q] == if Execute(db, r).Ok? && r.op.Resolve? && r.op.pid in db.parlays[q].legs
                                  then AutoResolve(db.parlays[q], next.picks) else db.parlays[q])
      && (forall q :: q in next.parlays && q !in db.parlays ==>
            Consistent(next.parlays[q], next.picks) && OpenForAReason(next.parlays[q], next.picks))
  {
    hide Settle, Sound, InOrder, AutoResolve, CreateParlay, CreatePick, UpdatePick, FixUserBalance, ConfirmPick, DeletePick;
    if Execute(db, r).Ok? {
      match r.op
      case Resolve(pid, target, closing) => SettleMovesOnePick(db, pid, target, closing, r.now, r.at, t);
      case AddParlay(q, legs, stake) => ParlayAdded(db, q, legs, stake);
      case _ => ParlaysKept(db, r);
    }
  }

  /** Over every serial run: a won parlay has every leg won and pays its potential return; a lost one
      has no pending leg, a lost leg and pays nothing. */
  lemma {:induction false} ParlaysStayConsistent(db: Db, rs: seq<Request>, start: int)
    requires Seeded(db) && Serial(rs, start)
    ensures ParlaysConsistent(Run(db, rs))
  {
    if rs != [] {
      var n := |rs| - 1;
      ParlaysStayConsistent(db, rs[..n], start);
      RunKeepsSound(db, rs[..n], start);
      hide Seeded, Sound, InOrder, ParlaysConsistent;
      RequestKeepsParlays(Run(db, rs[..n]), rs[n], LastStart(rs[..n], start));
    }
  }

  /** A decided parlay never changes again. */
  lemma {:induction false} DecidedParlayIsFinal(db: Db, rs: seq<Request>, t: int, q: ParlayId)
    requires Sound(db) && InOrder(db.ledger, t) && ParlaysConsistent(db) && Serial(rs, t)
    requires q in db.parlays && !db.parlays[q].status.Open?
    ensures Sound(Run(db, rs)) && InOrder(Run(db, rs).ledger, LastStart(rs, t)) && ParlaysConsistent(Run(db, rs))
    ensures q in Run(db, rs).parlays && Run(db, rs).parlays[q] == db.parlays[q]
  {
    if rs != [] {
      var n := |rs| - 1;
      DecidedParlayIsFinal(db, rs[..n], t, q);
      hide Sound, InOrder, ParlaysConsistent;
      RequestKeepsSound(Run(db, rs[..n]), rs[n], LastStart(rs[..n], t));
      RequestKeepsParlays(Run(db, rs[..n]), rs[n], LastStart(rs[..n], t));
    }
  }

  // ---- Rejections that strand a parlay ----

  /** Some leg besides this one is pending. */
  ghost predicate PendingElsewhere(q: Parlay, picks: map<PickId, Pick>, pid: PickId) {
    exists i :: 0 <= i < |q.legs| && q.legs[i] != pid && LegStatus(picks, q.legs[i]) == Status.Pending
  }

  /** Rejecting a suggested pick voids it without checking its parlays. An accepted rejection strands an
      open parlay when the pick is its last pending leg and another leg is lost: a lost bet that nothing
      closes until one of its legs is resolved again. */
  ghost predicate Strands(db: Db, r: Request) {
    && r.op.Confirm? && !r.op.confirmed && Execute(db, r).Ok?
    && r.op.pid in db.picks && db.picks[r.op.pid].status.Pending?
    && exists q :: q in db.parlays && db.parlays[q].status.Open? && StrandedBy(db.parlays[q], db.picks, r.op.pid)
  }

  ghost predicate StrandedBy(q: Parlay, picks: map<PickId, Pick>, pid: PickId) {
    pid in q.legs && !PendingElsewhere(q, picks, pid) && SomeLeg(picks, q.legs, Status.Lost)
  }

  lemma RequestKeepsPrompt(db: Db, r: Request, t: int)
    requires Sound(db) && InOrder(db.ledger, t) && ParlaysConsistent(db) && ParlaysPrompt(db) && !Strands(db, r)
    ensures ParlaysPrompt(After(db, r))
  {
    var next := After(db, r);
    RequestMovesStatuses(db, r, t);
    RequestWritesParlays(db, r, t);
    assert r.op.Delete? && Execute(db, r).Ok? ==> !InParlay(db, r.op.pid) by { hide Settle; }
    hide Execute, Sound, InOrder, AutoResolve, OpenForAReason;
    forall q | q in next.parlays ensures OpenForAReason(next.parlays[q], next.picks) {
      if q in db.parlays {
        var parlay := db.parlays[q];
        assert Consistent(parlay, db.picks) && OpenForAReason(parlay, db.picks);
        if Execute(db, r).Ok? && r.op.Resolve? && r.op.pid in parlay.legs {
          GrowthKeepsConsistent(parlay, db.picks, next.picks);
          CheckIsPrompt(parlay, next.picks);
        } else if Execute(db, r).Ok? && r.op.Confirm? && !r.op.confirmed && r.op.pid in parlay.legs {
          RejectionKeepsPrompt(db, r, t, q);
        } else if Execute(db, r).Ok? {
          SameLegsSameReason(parlay, db.picks, next.picks);
        }
      }
    }
  }

  lemma RejectionKeepsPrompt(db: Db, r: Request, t: int, q: ParlayId)
    requires Sound(db) && InOrder(db.ledger, t) && r.op.Confirm? && !r.op.confirmed && Execute(db, r).Ok? && !Strands(db, r)
    requires q in db.parlays && r.op.pid in db.parlays[q].legs && OpenForAReason(db.parlays[q], db.picks)
    ensures OpenForAReason(db.parlays[q], After(db, r).picks)
  {
    var pid, parlay, next := r.op.pid, db.parlays[q], After(db, r);
    assert pid in db.picks by { hide Settle; }
    assert next == ConfirmPick(db, pid, false, r.now, r.at).value;
    RequestMovesStatuses(db, r, t);
    hide Execute, Sound, InOrder, ConfirmPick;
    if db.picks[pid].status.Pending? {
      var i :| 0 <= i < |parlay.legs| && parlay.legs[i] == pid;
      assert LegStatus(db.picks, parlay.legs[i]) == Status.Pending;
      QuietVoidStrandsIff(db, pid, r.now, r.at, t, q);
      assert !StrandedBy(parlay, db.picks, pid);
    } else {
      SameLegsSameReason(parlay, db.picks, next.picks);
    }
  }

  lemma StrandingShows(db: Db, r: Request, t: int)
    requires Sound(db) && InOrder(db.ledger, t) && Strands(db, r)
    ensures !ParlaysPrompt(After(db, r))
  {
    var pid, next := r.op.pid, After(db, r);
    assert next == ConfirmPick(db, pid, false, r.now, r.at).value;
    hide Execute, Sound, InOrder, ConfirmPick, OpenForAReason;
    var q :| q in db.parlays && db.parlays[q].status.Open? && StrandedBy(db.parlays[q], db.picks, pid);
    QuietVoidStrandsIff(db, pid, r.now, r.at, t, q);
  }

  lemma SameLegsSameReason(q: Parlay, before: map<PickId, Pick>, after: map<PickId, Pick>)
    requires OpenForAReason(q, before)
    requires forall i :: 0 <= i < |q.legs| ==> LegStatus(after, q.legs[i]) == LegStatus(before, q.legs[i])
    ensures OpenForAReason(q, after)
  {
    forall s ensures SomeLeg(after, q.legs, s) <==> SomeLeg(before, q.legs, s) {
    }
  }

  ghost predicate NeverStrands(db: Db, rs: seq<Request>) {
    forall k :: 0 <= k < |rs| ==> !Strands(Run(db, rs[..k]), rs[k])
  }

  lemma NeverStrandsBefore(db: Db, rs: seq<Request>, n: nat)
    requires n <= |rs| && NeverStrands(db, rs)
    ensures NeverStrands(db, rs[..n])
    ensures n < |rs| ==> !Strands(Run(db, rs[..n]), rs[n])
  {
    hide Run, Strands;
    forall k | 0 <= k < n ensures !Strands(Run(db, rs[..n][..k]), rs[..n][k]) {
      assert rs[..n][..k] == rs[..k];
      assert !Strands(Run(db, rs[..k]), rs[k]);
    }
  }

  lemma SerialBefore(rs: seq<Request>, start: int)
    requires rs != [] && Serial(rs, start)
    ensures Serial(rs[..|rs| - 1], start) && LastStart(rs[..|rs| - 1], start) <= rs[|rs| - 1].at
  {
  }

  lemma RunUnrolls(db: Db, rs: seq<Request>)
    ensures Run(db, rs) == if rs == [] then db else After(Run(db, rs[..|rs| - 1]), rs[|rs| - 1])
  {
  }

  lemma {:induction false} RunKeepsPrompt(db: Db, rs: seq<Request>, start: int)
    requires Seeded(db) && Serial(rs, start) && NeverStrands(db, rs)
    ensures ParlaysPrompt(Run(db, rs))
  {
    RunUnrolls(db, rs);
    if rs != [] {
      var n := |rs| - 1;
      hide Run, Strands, After, Serial, Seeded, Sound, InOrder, ParlaysConsistent, ParlaysPrompt, NeverStrands;
      NeverStrandsBefore(db, rs, n);
      SerialBefore(rs, start);
      RunKeepsPrompt(db, rs[..n], start);
      RunKeepsSound(db, rs[..n], start);
      ParlaysStayConsistent(db, rs[..n], start);
      RequestKeepsPrompt(Run(db, rs[..n]), rs[n], LastStart(rs[..n], start));
    }
  }

  /** Throughout a serial run, every parlay is open iff some leg is pending, or none is lost and some is
      a push or void: this holds at every moment if and only if no rejection strands a parlay. */
  lemma OpenIff(db: Db, rs: seq<Request>, start: int)
    requires Seeded(db) && Serial(rs, start)
    ensures (forall k :: 0 <= k <= |rs| ==> ParlaysPrompt(Run(db, rs[..k]))) <==> NeverStrands(db, rs)
  {
    hide Run, Strands, Seeded, Sound, InOrder, ParlaysPrompt, Serial, After;
    forall k | 0 <= k <= |rs| ensures Serial(rs[..k], start) {
      SerialPrefix(rs, start, k);
    }
    if NeverStrands(db, rs) {
      forall k | 0 <= k <= |rs| ensures ParlaysPrompt(Run(db, rs[..k])) {
        NeverStrandsBefore(db, rs, k);
        RunKeepsPrompt(db, rs[..k], start);
      }
    } else if forall k :: 0 <= k <= |rs| ==> ParlaysPrompt(Run(db, rs[..k])) {
      var k :| 0 <= k < |rs| && Strands(Run(db, rs[..k]), rs[k]);
      RunKeepsSound(db, rs[..k], start);
      StrandingShows(Run(db, rs[..k]), rs[k], LastStart(rs[..k], start));
      RunUnrolls(db, rs[..k + 1]);
      assert rs[..k + 1][..k] == rs[..k];
      assert ParlaysPrompt(Run(db, rs[..k + 1]));
    }
  }

  lemma SerialPrefix(rs: seq<Request>, start: int, k: nat)
    requires k <= |rs| && Serial(rs, start)
    ensures Serial(rs[..k], start)
  {
  }

  /** What an accepted rejection does to an open parlay of its pick: it stays as it is, and is still open
      for a reason exactly when another leg was pending before or no leg was lost. */
  lemma QuietVoidStrandsIff(db: Db, pid: PickId, now: int, at: int, t: int, q: ParlayId)
    requires Sound(db) && InOrder(db.ledger, t)
    requires q in db.parlays && db.parlays[q].status.Open? && pid in db.parlays[q].legs
    requires pid in db.picks && db.picks[pid].status.Pending? && ConfirmPick(db, pid, false, now, at).Ok?
    ensures
      var next := ConfirmPick(db, pid, false, now, at).value;
      && next.parlays == db.parlays
      && (OpenForAReason(next.parlays[q], next.picks) <==>
            PendingElsewhere(db.parlays[q], db.picks, pid) || !SomeLeg(db.picks, db.parlays[q].legs, Status.Lost))
  {
    hide Sound, InOrder, Settle, Validate;
    var next := ConfirmPick(db, pid, false, now, at).value;
    SettleMovesOnePick(db, pid, Status.Void, None, now, at, t);
    SettlesTo(db, pid, Status.Void, None, now, at, t);
    hide ConfirmPick, StatusesGrow;
    VoidedLeg(db.parlays[q], db.picks, next.picks, pid);
  }

  lemma VoidedLeg(q: Parlay, before: map<PickId, Pick>, after: map<PickId, Pick>, pid: PickId)
    requires q.status.Open? && pid in q.legs && pid in before && before[pid].status.Pending?
    requires pid in after && after[pid].status.Void?
    requires forall k :: k in before && k != pid ==> k in after && after[k].status == before[k].status
    requires forall k :: k in after && k != pid ==> k in before
    ensures OpenForAReason(q, after) <==> PendingElsewhere(q, before, pid) || !SomeLeg(before, q.legs, Status.Lost)
  {
    var i :| 0 <= i < |q.legs| && q.legs[i] == pid;
    assert LegStatus(after, q.legs[i]) == Status.Void && LegStatus(before, q.legs[i]) == Status.Pending;
    forall j | 0 <= j < |q.legs| && q.legs[j] != pid ensures LegStatus(after, q.legs[j]) == LegStatus(before, q.legs[j]) {
    }
    assert SomeLeg(after, q.legs, Status.Pending) <==> PendingElsewhere(q, before, pid);
    assert SomeLeg(after, q.legs, Status.Lost) <==> SomeLeg(before, q.legs, Status.Lost);
    assert SomeLeg(after, q.legs, Status.Void);
  }

  /** An accepted settlement of a pending pick leaves it with the requested outcome. */
  lemma SettlesTo(db: Db, pid: PickId, target: Status, closing: Option<int>, now: int, at: int, t: int)
    requires Sound(db) && InOrder(db.ledger, t) && target.Terminal()
    requires pid in db.picks && db.picks[pid].status.Pending? && Settle(db, pid, target, closing, now, at).Ok?
    ensures pid in Settle(db, pid, target, closing, now, at).value.picks
    ensures Settle(db, pid, target, closing, now, at).value.picks[pid].status == target
  {
    assert Judge(db.picks[pid], target, Decided(db.ledger, pid), closing).Proceed? by { hide Complete, Decided, Sound, InOrder; }
    SettleDecides(db, pid, target, closing, now, at, t);
    hide Settle, SettleRead, Sound, InOrder;
  }
}
