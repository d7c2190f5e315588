/** What every request keeps true of wallets, picks, ledger and outbox taken together. */
module Invariants {
  import opened Money
  import opened Odds
  import opened Domain
  import opened Tables
  import opened Reconciliation
  import opened Engine

  // ---- Per-pick history ----

  function EventsOf(outbox: seq<Event>, pid: PickId): seq<Event> {
    if outbox == [] then []
    else
      var e := outbox[|outbox| - 1];
      EventsOf(outbox[..|outbox| - 1], pid) + (if e.pick == pid then [e] else [])
  }

  lemma EventAppended(outbox: seq<Event>, e: Event)
    ensures forall pid :: EventsOf(outbox + [e], pid) == EventsOf(outbox, pid) + (if e.pick == pid then [e] else [])
  {
    assert (outbox + [e])[..|outbox|] == outbox;
  }

  lemma {:induction false} KeyTakenIsHeld(outbox: seq<Event>, key: EventKey)
    requires KeyTaken(outbox, key)
    ensures exists e :: e in EventsOf(outbox, key.pick) && KeyOf(e) == key
  {
    var i :| 0 <= i < |outbox| && KeyOf(outbox[i]) == key;
    var n := |outbox| - 1;
    var last := if outbox[n].pick == key.pick then [outbox[n]] else [];
    assert EventsOf(outbox, key.pick) == EventsOf(outbox[..n], key.pick) + last;
    if i < n {
      assert KeyOf(outbox[..n][i]) == key;
      KeyTakenIsHeld(outbox[..n], key);
      var e :| e in EventsOf(outbox[..n], key.pick) && KeyOf(e) == key;
      assert e in EventsOf(outbox, key.pick);
    } else {
      assert outbox[n] in last;
    }
  }

  lemma {:induction false} LineTakenIsHeld(ledger: seq<Entry>, ref: PickId, kind: EntryType)
    requires LineTaken(ledger, ref, kind)
    ensures kind.StakeLock? ==> LockOf(ledger, ref).Some?
    ensures kind.Settles() ==> Settlements(ledger, ref) != []
  {
    var i :| 0 <= i < |ledger| && ledger[i].ref == ref && ledger[i].kind == kind;
    var n := |ledger| - 1;
    if i < n {
      assert ledger[..n][i].ref == ref && ledger[..n][i].kind == kind;
      LineTakenIsHeld(ledger[..n], ref, kind);
    }
  }

  /** The settlement lines a pick must have. */
  ghost predicate SettledRight(p: Pick, rows: seq<Entry>) {
    if p.status.Terminal() && Financial(p)
    then |rows| == 1 && rows[0].kind == LineType(p.status) && Some(rows[0].user) == p.owner
    else rows == []
  }

  /** The outbox events a pick must have, in order. */
  function ExpectedEvents(pid: PickId, p: Pick, lock: Option<Entry>): seq<Event> {
    (if p.owner.Some? && lock.Some? then [PickCreated(pid, p.owner.value, lock.value.amount)] else [])
    + (if p.status.Terminal() then [PickSettled(pid, p.owner, p.status)] else [])
  }

  // ---- The invariant of every serial run ----

  ghost predicate Solvent(db: Db) {
    forall u :: u in db.wallets ==> db.wallets[u].available >= 0 && db.wallets[u].locked >= 0
  }

  ghost predicate PicksOk(db: Db) {
    forall pid :: pid in db.picks ==> PickOk(db.picks[pid])
  }

  /** An owned pick has a funded owner and the stake lock it was created with. */
  ghost predicate OwnersOk(db: Db) {
    forall pid :: pid in db.picks && db.picks[pid].owner.Some? ==>
      && db.picks[pid].owner.value in db.wallets
      && LockOf(db.ledger, pid).Some? && LockOf(db.ledger, pid).value.user == db.picks[pid].owner.value
  }

  ghost predicate LinesOk(db: Db) {
    forall i :: 0 <= i < |db.ledger| ==>
      && db.ledger[i].user in db.wallets
      && db.ledger[i].ref in db.picks && db.picks[db.ledger[i].ref].owner == Some(db.ledger[i].user)
  }

  ghost predicate SettledOnce(db: Db) {
    forall pid :: pid in db.picks ==> SettledRight(db.picks[pid], Settlements(db.ledger, pid))
  }

  ghost predicate Announced(db: Db) {
    && (forall i :: 0 <= i < |db.outbox| ==> db.outbox[i].pick in db.picks)
    && (forall pid :: pid in db.picks ==>
          EventsOf(db.outbox, pid) == ExpectedEvents(pid, db.picks[pid], LockOf(db.ledger, pid)))
  }

  /** The last line of a user who has one carries the total of the wallet. */
  ghost predicate TailTotals(db: Db) {
    forall u :: u in db.wallets && Tail(db.ledger, u).Some? ==>
      SnapshotTotal(Tail(db.ledger, u)) == db.wallets[u].available + db.wallets[u].locked
  }

  /** Along a user's lines the total moves by payouts less their stakes, and by losses. */
  ghost predicate ChainOk(db: Db) {
    Chained(db.picks, db.ledger)
  }

  /** Wallets only ever gain or lose what their settled picks report as profit. */
  ghost predicate ProfitsAddUp(db: Db, seeds: map<UserId, Wallet>) {
    && seeds.Keys == db.wallets.Keys
    && forall u :: u in db.wallets ==>
         db.wallets[u].available + db.wallets[u].locked
           == seeds[u].available + seeds[u].locked + Total(db.picks, u, SettledProfit)
  }

  /** Everything above but the last: independent of the stamps on the ledger lines. */
  ghost predicate Sound(db: Db) {
    Solvent(db) && PicksOk(db) && OwnersOk(db) && LinesOk(db) && SettledOnce(db) && Announced(db)
    && TailTotals(db) && ChainOk(db)
  }

  /** A freshly seeded system: funded wallets, nothing locked, no history. */
  ghost predicate Seeded(db: Db) {
    && (forall u :: u in db.wallets ==> db.wallets[u].available >= 0 && db.wallets[u].locked == 0)
    && db.picks == map[] && db.ledger == [] && db.outbox == [] && db.parlays == map[]
  }

  // ---- What a settlement writes ----

  /** The write of a settlement of `w.pid` to `target`, in whole cents. */
  ghost predicate IsSettlement(db: Db, w: Write, target: Status, at: int) {
    && w.pid in db.picks && target.Terminal()
    && var p := db.picks[w.pid];
    && p.status.Pending? && PickOk(w.pick)
    && w.pick == p.(status := target, closing := w.pick.closing, clv := w.pick.clv, resolvedAt := w.pick.resolvedAt,
                    settledReturn := w.pick.settledReturn, profit := w.pick.profit)
    && w.event == Some(PickSettled(w.pid, p.owner, target))
    && if Financial(p)
       then
         && p.owner.value in db.wallets
         && w.wallet.Some? && w.wallet.value.0 == p.owner.value
         && w.line == Some(Entry(p.owner.value, if target.Lost? then p.stake.value else Credit(w.pick), LineType(target), w.pid,
                                 w.wallet.value.1.available, w.wallet.value.1.locked, at))
         && w.wallet.value.1.available == db.wallets[p.owner.value].available + Credit(w.pick)
         && w.wallet.value.1.locked == db.wallets[p.owner.value].locked - p.stake.value
         && w.wallet.value.1.locked >= 0
       else w.wallet.None? && w.line.None?
  }

  /** What a settled pick pays back to its owner's available balance. */
  function Credit(p: Pick): int {
    if p.settledReturn.Some? then p.settledReturn.value else 0
  }

  /** On every outcome the amount credited equals the stored return, which equals stake plus stored
      profit; a win pays at least the stake. */
  lemma CreditIsStakePlusProfit(p: Pick)
    requires PickOk(p) && p.status.Terminal() && p.stake.Some?
    ensures p.settledReturn.Some? && p.profit.Some?
    ensures p.settledReturn.value == p.stake.value + p.profit.value
    ensures p.status.Won? ==> p.settledReturn.value >= p.stake.value
    ensures p.status.Lost? ==> p.settledReturn.value == 0
    ensures p.status.Push? || p.status.Void? ==> p.settledReturn.value == p.stake.value
  {
    var s, o := p.stake.value, p.odds;
    WinIsNoLoss(s, o);
    ToCentsShift(s, s * o - FromCents(s));
    ToCentsExact(s);
    ToCentsExact(-s);
  }

  lemma WinIsNoLoss(stake: int, odds: int)
    requires stake > 0 && odds >= ODDS_ONE
    ensures stake * odds >= FromCents(stake)
  {
    Scale(stake, ODDS_ONE, odds);
  }

  /** The exact wallet movement of a settlement, once rounded column by column, is the stored
      return of the pick to the cent. */
  lemma SettlingRounds(w: Wallet, p: Pick, status: Status, now: int)
    requires PickOk(p) && p.status.Pending? && p.stake.Some? && status.Terminal()
    requires w.available >= 0 && w.locked >= p.stake.value
    ensures
      var d := Resolved(p, status, now);
      var m := Settling(w, status, p.stake.value, d.profit);
      && m.available >= 0 && m.locked >= 0
      && ToCents(m.available) == w.available + Credit(Flush(d))
      && ToCents(m.locked) == w.locked - p.stake.value
      && ToCents(m.amount) == (if status.Lost? then p.stake.value else Credit(Flush(d)))
  {
    var s, o := p.stake.value, p.odds;
    WinIsNoLoss(s, o);
    ToCentsExact(w.locked - s);
    ToCentsExact(w.available + s);
    ToCentsExact(w.available);
    ToCentsExact(s);
    ToCentsExact(0);
    ToCentsShift(w.available, s * o);
  }

  /** Settling from rows that agree with the invariant: which reads are needed, and what is written.
      Nothing here depends on how the rows were read. */
  lemma SettleWriteIsSettlement(db: Db, pid: PickId, q: Pick, rows: seq<Entry>, wallet: Option<Wallet>,
                                lineTaken: bool, keyTaken: bool, target: Status, now: int, at: int)
    requires target.Terminal() && pid in db.picks && PickOk(db.picks[pid]) && db.picks[pid].status.Pending?
    requires q == db.picks[pid].(closing := q.closing, clv := q.clv)
    requires rows == [] && !lineTaken && !keyTaken
    requires Financial(q) ==> q.owner.value in db.wallets && wallet == Some(db.wallets[q.owner.value]) && wallet.value.available >= 0
    ensures
      var r := SettleWrite(pid, q, db.picks[pid], rows, wallet, lineTaken, keyTaken, target, now, at);
      && (r.Ok? <==> && (Financial(q) ==> wallet.value.locked >= q.stake.value)
                     && (target.Void? || q.stake.Some?) && now >= q.createdAt)
      && (r.Ok? ==> r.value.pid == pid && IsSettlement(db, r.value, target, at))
  {
    ResolvedValidates(db.picks[pid], q, target, now);
    if Financial(q) && wallet.value.locked >= q.stake.value {
      SettlingRounds(wallet.value, q, target, now);
    }
  }

  // ---- Stability of the invariant under a settlement ----

  lemma SettlementKeepsOwners(db: Db, w: Write, target: Status, at: int)
    requires Solvent(db) && PicksOk(db) && OwnersOk(db) && LinesOk(db) && IsSettlement(db, w, target, at)
    ensures Solvent(Publish(db, w)) && PicksOk(Publish(db, w)) && OwnersOk(Publish(db, w)) && LinesOk(Publish(db, w))
  {
    if Financial(db.picks[w.pid]) {
      Appended(db.ledger, w.line.value);
      CreditIsStakePlusProfit(w.pick);
    }
  }

  lemma SettlementKeepsTails(db: Db, w: Write, target: Status, at: int)
    requires TailTotals(db) && ChainOk(db) && IsSettlement(db, w, target, at)
    ensures TailTotals(Publish(db, w)) && ChainOk(Publish(db, w))
  {
    var next := Publish(db, w);
    assert forall k :: 0 <= k < |db.ledger| ==> Gain(next.picks, db.ledger[k]) == Gain(db.picks, db.ledger[k]);
    hide Chained;
    ChainKept(db.picks, next.picks, db.ledger);
    if Financial(db.picks[w.pid]) {
      Appended(db.ledger, w.line.value);
      CreditIsStakePlusProfit(w.pick);
      assert Gain(next.picks, w.line.value) == Credit(w.pick) - db.picks[w.pid].stake.value;
      hide PickOk, Settlements, LockOf, Latest;
      ChainAppended(next.picks, db.ledger, w.line.value);
    }
  }

  lemma SettlementKeepsSettledOnce(db: Db, w: Write, target: Status, at: int)
    requires SettledOnce(db) && IsSettlement(db, w, target, at)
    ensures SettledOnce(Publish(db, w))
  {
    var db' := Publish(db, w);
    if Financial(db.picks[w.pid]) {
      Appended(db.ledger, w.line.value);
    }
    forall pid | pid in db'.picks ensures SettledRight(db'.picks[pid], Settlements(db'.ledger, pid)) {
      assert SettledRight(db.picks[pid], Settlements(db.ledger, pid));
    }
  }

  lemma SettlementKeepsAnnounced(db: Db, w: Write, target: Status, at: int)
    requires Announced(db) && IsSettlement(db, w, target, at)
    ensures Announced(Publish(db, w))
  {
    var db' := Publish(db, w);
    EventAppended(db.outbox, w.event.value);
    if Financial(db.picks[w.pid]) {
      Appended(db.ledger, w.line.value);
    }
    forall pid | pid in db'.picks
      ensures EventsOf(db'.outbox, pid) == ExpectedEvents(pid, db'.picks[pid], LockOf(db'.ledger, pid))
    {
      assert LockOf(db'.ledger, pid) == LockOf(db.ledger, pid);
    }
  }

  lemma SettlementKeepsSound(db: Db, w: Write, target: Status, at: int)
    requires Sound(db) && IsSettlement(db, w, target, at)
    ensures Sound(Publish(db, w))
  {
    SettlementKeepsOwners(db, w, target, at);
    SettlementKeepsTails(db, w, target, at);
    SettlementKeepsSettledOnce(db, w, target, at);
    SettlementKeepsAnnounced(db, w, target, at);
  }

  // ---- What a staked creation writes ----

  /** The write of a creation: one fresh pick and, when staked, its lock. */
  ghost predicate IsCreation(db: Db, w: Write, at: int) {
    && w.pid !in db.picks && PickOk(w.pick) && w.pick.status.Pending?
    && if w.pick.owner.Some?
       then
         var u := w.pick.owner.value;
         && w.pick.stake.Some? && u in db.wallets
         && w.wallet.Some? && w.wallet.value.0 == u
         && w.wallet.value.1 == Wallet(db.wallets[u].available - w.pick.stake.value, db.wallets[u].locked + w.pick.stake.value)
         && w.wallet.value.1.available >= 0
         && w.line == Some(Entry(u, w.pick.stake.value, StakeLock, w.pid, w.wallet.value.1.available, w.wallet.value.1.locked, at))
         && w.event == Some(PickCreated(w.pid, u, w.pick.stake.value))
       else w.pick.stake.None? && w.wallet.None? && w.line.None? && w.event.None?
  }

  lemma CreateWriteIsCreation(db: Db, r: NewPick, w: Wallet, pickTaken: bool, lineTaken: bool, keyTaken: bool, at: int)
    requires CreateWrite(r, w, pickTaken, lineTaken, keyTaken, at).Ok?
    requires pickTaken == (r.pid in db.picks)
    requires r.user.Some? ==> w == WalletOf(db, r.user.value)
    ensures IsCreation(db, CreateWrite(r, w, pickTaken, lineTaken, keyTaken, at).value, at)
    ensures CreateWrite(r, w, pickTaken, lineTaken, keyTaken, at).value.pid == r.pid
  {
  }

  lemma {:induction false} NoRows(ledger: seq<Entry>, pid: PickId)
    requires forall i :: 0 <= i < |ledger| ==> ledger[i].ref != pid
    ensures Settlements(ledger, pid) == [] && LockOf(ledger, pid) == None
  {
    if ledger != [] {
      NoRows(ledger[..|ledger| - 1], pid);
    }
  }

  lemma {:induction false} NoEvents(outbox: seq<Event>, pid: PickId)
    requires forall i :: 0 <= i < |outbox| ==> outbox[i].pick != pid
    ensures EventsOf(outbox, pid) == []
  {
    if outbox != [] {
      NoEvents(outbox[..|outbox| - 1], pid);
    }
  }

  lemma CreationKeepsOwners(db: Db, w: Write, at: int)
    requires Solvent(db) && PicksOk(db) && OwnersOk(db) && LinesOk(db) && IsCreation(db, w, at)
    ensures Solvent(Publish(db, w)) && PicksOk(Publish(db, w)) && OwnersOk(Publish(db, w)) && LinesOk(Publish(db, w))
  {
    if w.pick.owner.Some? {
      Appended(db.ledger, w.line.value);
    }
  }

  lemma CreationKeepsTails(db: Db, w: Write, at: int)
    requires LinesOk(db) && TailTotals(db) && ChainOk(db) && IsCreation(db, w, at)
    ensures TailTotals(Publish(db, w)) && ChainOk(Publish(db, w))
  {
    var next := Publish(db, w);
    assert forall k :: 0 <= k < |db.ledger| ==> Gain(next.picks, db.ledger[k]) == Gain(db.picks, db.ledger[k]);
    hide Chained;
    ChainKept(db.picks, next.picks, db.ledger);
    if w.pick.owner.Some? {
      Appended(db.ledger, w.line.value);
      hide PickOk, Settlements, LockOf, Latest;
      ChainAppended(next.picks, db.ledger, w.line.value);
    }
  }

  lemma CreationKeepsSettledOnce(db: Db, w: Write, at: int)
    requires LinesOk(db) && SettledOnce(db) && IsCreation(db, w, at)
    ensures SettledOnce(Publish(db, w))
  {
    var db' := Publish(db, w);
    NoRows(db.ledger, w.pid);
    if w.pick.owner.Some? {
      Appended(db.ledger, w.line.value);
    }
    forall pid | pid in db'.picks ensures SettledRight(db'.picks[pid], Settlements(db'.ledger, pid)) {
      assert pid in db.picks ==> SettledRight(db.picks[pid], Settlements(db.ledger, pid));
    }
  }

  lemma CreationKeepsAnnounced(db: Db, w: Write, at: int)
    requires LinesOk(db) && Announced(db) && IsCreation(db, w, at)
    ensures Announced(Publish(db, w))
  {
    var db' := Publish(db, w);
    var event := if w.event.Some? then [w.event.value] else [];
    NoRows(db.ledger, w.pid);
    NoEvents(db.outbox, w.pid);
    if w.pick.owner.Some? {
      Appended(db.ledger, w.line.value);
      EventAppended(db.outbox, w.event.value);
    }
    assert EventsOf(db'.outbox, w.pid) == event;
    forall pid | pid in db'.picks
      ensures EventsOf(db'.outbox, pid) == ExpectedEvents(pid, db'.picks[pid], LockOf(db'.ledger, pid))
    {
      if pid != w.pid {
        assert LockOf(db'.ledger, pid) == LockOf(db.ledger, pid);
        assert EventsOf(db'.outbox, pid) == EventsOf(db.outbox, pid);
      }
    }
  }

  lemma CreationKeepsSound(db: Db, w: Write, at: int)
    requires Sound(db) && IsCreation(db, w, at)
    ensures Sound(Publish(db, w))
  {
    CreationKeepsOwners(db, w, at);
    CreationKeepsTails(db, w, at);
    CreationKeepsSettledOnce(db, w, at);
    CreationKeepsAnnounced(db, w, at);
  }
}
