/** The batched audits over all wallets (`app/services/reconciliation_service.py`). */
module Audit {
  import opened Domain
  import opened Tables
  import opened Reconciliation
  import opened Keyset

  datatype Health = Health(total: nat, ok: nat, warning: nat, critical: nat)

  function SeverityOf(db: Db, u: UserId): Severity
    requires u in db.wallets
  {
    ReconcileUser(db, u).value.severity
  }

  function Counted(h: Health, s: Severity): Health {
    match s
    case Fine => h.(total := h.total + 1, ok := h.ok + 1)
    case Warning => h.(total := h.total + 1, warning := h.warning + 1)
    case Critical => h.(total := h.total + 1, critical := h.critical + 1)
  }

  /** The counts over the given wallets. */
  function Tally(db: Db, ids: seq<UserId>): Health
    requires forall u :: u in ids ==> u in db.wallets
  {
    if ids == [] then Health(0, 0, 0, 0)
    else Counted(Tally(db, ids[..|ids| - 1]), SeverityOf(db, ids[|ids| - 1]))
  }

  /** The reports on those of the given wallets that are not fine, in order. */
  function Anomalies(db: Db, ids: seq<UserId>): seq<Report>
    requires forall u :: u in ids ==> u in db.wallets
  {
    if ids == [] then []
    else
      var u := ids[|ids| - 1];
      Anomalies(db, ids[..|ids| - 1]) + (if SeverityOf(db, u).Fine? then [] else [ReconcileUser(db, u).value])
  }

  /** Those of the given users who have a severity. */
  function Among(db: Db, ids: seq<UserId>, s: Severity): set<UserId>
    requires forall u :: u in ids ==> u in db.wallets
  {
    set u | u in ids && SeverityOf(db, u) == s
  }

  /** The users of a severity. */
  function Having(db: Db, s: Severity): set<UserId> {
    set u | u in db.wallets && SeverityOf(db, u) == s
  }

  lemma AmongMore(db: Db, ids: seq<UserId>, s: Severity)
    requires ids != [] && forall u :: u in ids ==> u in db.wallets
    requires forall i, j :: 0 <= i < j < |ids| ==> ids[i] < ids[j]
    ensures
      var u, shorter := ids[|ids| - 1], ids[..|ids| - 1];
      |Among(db, ids, s)| == |Among(db, shorter, s)| + (if SeverityOf(db, u) == s then 1 else 0)
  {
    var u, shorter := ids[|ids| - 1], ids[..|ids| - 1];
    hide SeverityOf;
    var longer, before := Among(db, ids, s), Among(db, shorter, s);
    assert ids == shorter + [u];
    forall v ensures v in longer <==> v in before || (SeverityOf(db, u) == s && v == u) {
      assert v in ids <==> v in shorter || v == u;
    }
    assert u !in before;
    OneMore(before, longer, u, SeverityOf(db, u) == s);
  }

  lemma OneMore(before: set<nat>, after: set<nat>, u: nat, added: bool)
    requires u !in before && forall v :: v in after <==> v in before || (added && v == u)
    ensures |after| == |before| + (if added then 1 else 0)
  {
    assert after == if added then before + {u} else before;
  }

  lemma {:induction false} TallyCounts(db: Db, ids: seq<UserId>)
    requires forall u :: u in ids ==> u in db.wallets
    requires forall i, j :: 0 <= i < j < |ids| ==> ids[i] < ids[j]
    ensures
      var h := Tally(db, ids);
      && h.total == |ids| == h.ok + h.warning + h.critical
      && h.ok == |Among(db, ids, Fine)| && h.warning == |Among(db, ids, Warning)| && h.critical == |Among(db, ids, Critical)|
      && |Anomalies(db, ids)| == h.warning + h.critical
  {
    hide SeverityOf, Among;
    if ids == [] {
      NobodyAmong(db);
    } else {
      TallyCounts(db, ids[..|ids| - 1]);
      AmongMore(db, ids, Fine);
      AmongMore(db, ids, Warning);
      AmongMore(db, ids, Critical);
    }
  }

  lemma NobodyAmong(db: Db)
    ensures Among(db, [], Fine) == Among(db, [], Warning) == Among(db, [], Critical) == {}
  {
  }

  /** The anomalies are exactly the reports on the users that are not fine, once each, by ascending id. */
  lemma {:induction false} AnomaliesExact(db: Db, ids: seq<UserId>)
    requires forall u :: u in ids ==> u in db.wallets
    requires forall i, j :: 0 <= i < j < |ids| ==> ids[i] < ids[j]
    ensures
      var found := Anomalies(db, ids);
      && (forall i, j :: 0 <= i < j < |found| ==> found[i].user < found[j].user)
      && (forall i :: 0 <= i < |found| ==>
            && found[i].user in ids && !SeverityOf(db, found[i].user).Fine?
            && found[i] == ReconcileUser(db, found[i].user).value)
      && (forall u :: u in ids && !SeverityOf(db, u).Fine? ==> exists i :: 0 <= i < |found| && found[i].user == u)
  {
    hide SeverityOf, ReconcileUser;
    if ids != [] {
      var n := |ids| - 1;
      var u, shorter := ids[n], ids[..n];
      AnomaliesExact(db, shorter);
      ReportNamesUser(db, u);
      assert ids == shorter + [u];
      assert Anomalies(db, ids) == Anomalies(db, shorter) + (if SeverityOf(db, u).Fine? then [] else [ReconcileUser(db, u).value]) by {
        AnomaliesGrow(db, ids);
      }
      NobodyMissed(db, shorter, u, Anomalies(db, shorter), Anomalies(db, ids));
      hide Anomalies;
    }
  }

  lemma NobodyMissed(db: Db, shorter: seq<UserId>, u: UserId, before: seq<Report>, found: seq<Report>)
    requires u in db.wallets && forall v :: v in shorter ==> v in db.wallets
    requires before <= found && (!SeverityOf(db, u).Fine? ==> |found| == |before| + 1 && found[|before|].user == u)
    requires forall v :: v in shorter && !SeverityOf(db, v).Fine? ==> exists i :: 0 <= i < |before| && before[i].user == v
    ensures forall v :: v in shorter + [u] && !SeverityOf(db, v).Fine? ==> exists i :: 0 <= i < |found| && found[i].user == v
  {
    hide SeverityOf;
    forall v | v in shorter + [u] && !SeverityOf(db, v).Fine? ensures exists i :: 0 <= i < |found| && found[i].user == v {
      if v in shorter {
        var i :| 0 <= i < |before| && before[i].user == v;
        assert found[i] == before[i];
      } else {
        assert found[|before|].user == u;
      }
    }
  }

  lemma AnomaliesGrow(db: Db, ids: seq<UserId>)
    requires ids != [] && forall u :: u in ids ==> u in db.wallets
    ensures
      var n := |ids| - 1;
      Anomalies(db, ids) == Anomalies(db, ids[..n]) + (if SeverityOf(db, ids[n]).Fine? then [] else [ReconcileUser(db, ids[n]).value])
  {
    ReportNamesUser(db, ids[|ids| - 1]);
    hide ReconcileUser;
  }

  lemma ReportNamesUser(db: Db, u: UserId)
    requires u in db.wallets
    ensures ReconcileUser(db, u).Ok? && ReconcileUser(db, u).value.user == u
  {
  }

  /** The health summary counts every wallet once: its buckets partition the wallets. */
  lemma HealthPartitionsWallets(db: Db)
    ensures forall u :: u in Sorted(db.wallets.Keys) <==> u in db.wallets
    ensures
      var h := Tally(db, Sorted(db.wallets.Keys));
      && h.total == |db.wallets| == h.ok + h.warning + h.critical
      && h.ok == |Having(db, Fine)| && h.warning == |Having(db, Warning)| && h.critical == |Having(db, Critical)|
      && |Anomalies(db, Sorted(db.wallets.Keys))| == h.warning + h.critical
  {
    var ids := Sorted(db.wallets.Keys);
    SortedIsOrder(db.wallets.Keys);
    TallyCounts(db, ids);
    hide SeverityOf;
    assert Among(db, ids, Fine) == Having(db, Fine);
    assert Among(db, ids, Warning) == Having(db, Warning);
    assert Among(db, ids, Critical) == Having(db, Critical);
  }

  /** The users a walk in batches of the given size visits, in order. */
  function Visited(db: Db, batchSize: nat): (ids: seq<UserId>)
    ensures forall u :: u in ids ==> u in db.wallets
  {
    SortedIsOrder(db.wallets.Keys);
    if batchSize == 0 then [] else Sorted(db.wallets.Keys)
  }

  lemma TallyNext(db: Db, ids: seq<UserId>, k: nat)
    requires k < |ids| && forall u :: u in ids ==> u in db.wallets
    ensures ReconcileUser(db, ids[k]).Ok?
    ensures Tally(db, ids[..k + 1]) == Counted(Tally(db, ids[..k]), ReconcileUser(db, ids[k]).value.severity)
    ensures Anomalies(db, ids[..k + 1])
         == Anomalies(db, ids[..k]) + (if ReconcileUser(db, ids[k]).value.severity.Fine? then [] else [ReconcileUser(db, ids[k]).value])
  {
    assert ids[..k + 1][..k] == ids[..k];
    ReportNamesUser(db, ids[k]);
    hide ReconcileUser;
  }
}
