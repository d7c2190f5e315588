/** The database tables and the queries the services run over them
    (the models, and the `select` statements of the ledger and reconciliation services). */
module Tables {
  import opened Domain

  datatype Wallet = Wallet(available: int, locked: int)

  datatype EntryType = StakeLock | Payout | Loss | Refund {
    predicate Settles() {
      !StakeLock?
    }
  }

  /** A ledger line: amount and balance snapshots in cents; `createdAt` is the start of the
      transaction that wrote it, not the moment it was appended. */
  datatype Entry = Entry(user: UserId, amount: int, kind: EntryType, ref: PickId,
                         balanceAfter: int, lockedAfter: int, createdAt: int)

  datatype Event =
    | PickCreated(pick: PickId, user: UserId, stake: int)
    | PickSettled(pick: PickId, owner: Option<UserId>, status: Status)

  /** Event keys are hashes of these; hashing is taken to be injective. */
  datatype EventKey = CreatedKey(pick: PickId) | SettledKey(pick: PickId, status: Status)

  function KeyOf(e: Event): EventKey {
    match e
    case PickCreated(pick, _, _) => CreatedKey(pick)
    case PickSettled(pick, _, status) => SettledKey(pick, status)
  }

  datatype ParlayStatus = Open | Won | Lost

  datatype Parlay = Parlay(legs: seq<PickId>, stake: int, oddsTotal: int, potentialReturn: int,
                           actualReturn: Option<int>, status: ParlayStatus)

  datatype Db = Db(wallets: map<UserId, Wallet>,
                   picks: map<PickId, Pick>,
                   ledger: seq<Entry>,
                   outbox: seq<Event>,
                   parlays: map<ParlayId, Parlay>)

  // ---- Ordered ids ----

  ghost predicate IsLeast(m: nat, s: set<nat>) {
    m in s && forall x :: x in s ==> m <= x
  }

  lemma {:induction false} LeastExists(s: set<nat>)
    requires s != {}
    ensures exists m :: IsLeast(m, s)
  {
    var k :| k in s;
    var rest := s - {k};
    if rest == {} {
      assert s == {k};
      assert IsLeast(k, s);
    } else {
      LeastExists(rest);
      var m :| IsLeast(m, rest);
      assert forall x :: x in s ==> x == k || x in rest;
      assert IsLeast(if k < m then k else m, s);
    }
  }

  function Least(s: set<nat>): (m: nat)
    requires s != {}
    ensures m in s && forall x :: x in s ==> m <= x
  {
    LeastExists(s);
    assert exists m :: m in s && forall x :: x in s ==> m <= x by { var k :| IsLeast(k, s); }
    var m :| m in s && forall x :: x in s ==> m <= x;
    m
  }

  // ---- Sums over a user's picks ----

  datatype Measure = PendingStake | SettledProfit

  /** What one pick adds to a sum. */
  function Share(p: Pick, u: UserId, m: Measure): int {
    if p.owner != Some(u) then 0
    else match m
      case PendingStake => if p.status.Pending? && p.stake.Some? then p.stake.value else 0
      case SettledProfit => if p.status.Terminal() && p.profit.Some? then p.profit.value else 0
  }

  function Total(picks: map<PickId, Pick>, u: UserId, m: Measure): int
    decreases |picks|
  {
    if picks.Keys == {} then 0
    else
      var k := Least(picks.Keys);
      assert |(picks - {k}).Keys| == |picks.Keys - {k}| by { assert (picks - {k}).Keys == picks.Keys - {k}; }
      Share(picks[k], u, m) + Total(picks - {k}, u, m)
  }

  /** SUM(stake) over a user's pending picks. */
  function Escrow(picks: map<PickId, Pick>, u: UserId): int {
    Total(picks, u, PendingStake)
  }

  lemma {:induction false} TotalRemove(picks: map<PickId, Pick>, u: UserId, m: Measure, k: PickId)
    requires k in picks
    ensures Total(picks, u, m) == Share(picks[k], u, m) + Total(picks - {k}, u, m)
    decreases |picks|
  {
    var least := Least(picks.Keys);
    if least != k {
      var rest := picks - {least};
      assert rest.Keys == picks.Keys - {least} && |rest.Keys| < |picks.Keys|;
      TotalRemove(rest, u, m, k);
      var other := picks - {k};
      assert other.Keys == picks.Keys - {k};
      assert least in other.Keys && Least(other.Keys) in picks.Keys;
      assert Least(other.Keys) == least;
      assert rest - {k} == other - {least};
    }
  }

  /** Writing one pick moves a sum by that pick alone. */
  lemma TotalUpdate(picks: map<PickId, Pick>, u: UserId, m: Measure, k: PickId, p: Pick)
    ensures Total(picks[k := p], u, m)
         == Total(picks, u, m) - (if k in picks then Share(picks[k], u, m) else 0) + Share(p, u, m)
  {
    TotalRemove(picks[k := p], u, m, k);
    if k in picks {
      TotalRemove(picks, u, m, k);
      assert picks[k := p] - {k} == picks - {k};
    } else {
      assert picks[k := p] - {k} == picks;
    }
  }

  lemma {:induction false} TotalBounds(picks: map<PickId, Pick>, u: UserId, m: Measure)
    requires forall k :: k in picks ==> Share(picks[k], u, m) >= 0
    ensures Total(picks, u, m) >= 0
    ensures forall k :: k in picks ==> Share(picks[k], u, m) <= Total(picks, u, m)
    decreases |picks|
  {
    forall k | k in picks
      ensures Total(picks - {k}, u, m) >= 0 && Share(picks[k], u, m) <= Total(picks, u, m)
    {
      TotalRemove(picks, u, m, k);
      assert (picks - {k}).Keys == picks.Keys - {k} && |(picks - {k}).Keys| < |picks.Keys|;
      TotalBounds(picks - {k}, u, m);
    }
    if picks.Keys != {} {
      var least := Least(picks.Keys);
      assert Total(picks - {least}, u, m) >= 0;
    }
  }

  // ---- Ledger queries ----

  /** The settlement lines of a pick, in append order. */
  function Settlements(ledger: seq<Entry>, ref: PickId): seq<Entry> {
    if ledger == [] then []
    else
      var e := ledger[|ledger| - 1];
      Settlements(ledger[..|ledger| - 1], ref) + (if e.ref == ref && e.kind.Settles() then [e] else [])
  }

  /** Whether a payout or loss line exists for a pick. */
  predicate Decided(ledger: seq<Entry>, ref: PickId) {
    exists i :: 0 <= i < |ledger| && ledger[i].ref == ref && (ledger[i].kind.Payout? || ledger[i].kind.Loss?)
  }

  /** Whether the unique index on (reference_id, type) already holds this key. */
  predicate LineTaken(ledger: seq<Entry>, ref: PickId, kind: EntryType) {
    exists i :: 0 <= i < |ledger| && ledger[i].ref == ref && ledger[i].kind == kind
  }

  /** Whether the unique index on event_key already holds this key. */
  predicate KeyTaken(outbox: seq<Event>, key: EventKey) {
    exists i :: 0 <= i < |outbox| && KeyOf(outbox[i]) == key
  }

  /** The stake lock of a pick. */
  function LockOf(ledger: seq<Entry>, ref: PickId): Option<Entry> {
    if ledger == [] then None
    else
      var e := ledger[|ledger| - 1];
      if e.ref == ref && e.kind.StakeLock? then Some(e) else LockOf(ledger[..|ledger| - 1], ref)
  }

  /** The last line appended for a user. */
  function Tail(ledger: seq<Entry>, u: UserId): Option<Entry> {
    if ledger == [] then None
    else
      var e := ledger[|ledger| - 1];
      if e.user == u then Some(e) else Tail(ledger[..|ledger| - 1], u)
  }

  /** ORDER BY created_at DESC LIMIT 1 for a user; among equal stamps, the last appended. */
  function Latest(ledger: seq<Entry>, u: UserId): Option<Entry> {
    if ledger == [] then None
    else
      var e := ledger[|ledger| - 1];
      var earlier := Latest(ledger[..|ledger| - 1], u);
      if e.user == u && (earlier.None? || e.createdAt >= earlier.value.createdAt) then Some(e) else earlier
  }

  /** How each query sees one more line. */
  lemma Appended(ledger: seq<Entry>, e: Entry)
    ensures forall ref :: Settlements(ledger + [e], ref)
                       == Settlements(ledger, ref) + (if e.ref == ref && e.kind.Settles() then [e] else [])
    ensures forall ref :: LockOf(ledger + [e], ref)
                       == if e.ref == ref && e.kind.StakeLock? then Some(e) else LockOf(ledger, ref)
    ensures forall u :: Tail(ledger + [e], u) == if e.user == u then Some(e) else Tail(ledger, u)
    ensures forall u :: Latest(ledger + [e], u)
                     == if e.user == u && (Latest(ledger, u).None? || e.createdAt >= Latest(ledger, u).value.createdAt)
                        then Some(e) else Latest(ledger, u)
  {
    assert (ledger + [e])[..|ledger|] == ledger;
  }

  /** Stamps never decrease along the ledger and stay at or below `t`: what a serial history gives. */
  ghost predicate InOrder(ledger: seq<Entry>, t: int) {
    && (forall i, j :: 0 <= i <= j < |ledger| ==> ledger[i].createdAt <= ledger[j].createdAt)
    && (forall i :: 0 <= i < |ledger| ==> ledger[i].createdAt <= t)
  }

  /** In a serial history the line chosen by `created_at` is the last one appended. */
  lemma {:induction false} LatestIsTail(ledger: seq<Entry>, t: int, u: UserId)
    requires InOrder(ledger, t)
    ensures Latest(ledger, u) == Tail(ledger, u)
    ensures Latest(ledger, u).Some? ==> exists i :: 0 <= i < |ledger| && ledger[i] == Latest(ledger, u).value
  {
    if ledger != [] {
      var n := |ledger| - 1;
      LatestIsTail(ledger[..n], t, u);
      if Latest(ledger[..n], u).Some? {
        var i :| 0 <= i < n && ledger[..n][i] == Latest(ledger[..n], u).value;
        assert ledger[i].createdAt <= ledger[n].createdAt;
        assert ledger[i] == Latest(ledger[..n], u).value;
      }
      if ledger[n].user == u {
        assert Latest(ledger, u) == Some(ledger[n]);
      }
    }
  }

  /** What a line adds to its user's total: a payout brings the amount less the stake, a loss takes the
      stake, and locks and refunds only move money between the two columns. */
  function Gain(picks: map<PickId, Pick>, e: Entry): int {
    match e.kind
    case Payout => e.amount - (if e.ref in picks && picks[e.ref].stake.Some? then picks[e.ref].stake.value else 0)
    case Loss => -e.amount
    case _ => 0
  }

  /** Each line's total is that of the user's line before it, plus its gain. */
  ghost predicate Chained(picks: map<PickId, Pick>, ledger: seq<Entry>) {
    forall k :: 0 <= k < |ledger| ==> Follows(picks, ledger, k)
  }

  ghost predicate Follows(picks: map<PickId, Pick>, ledger: seq<Entry>, k: nat)
    requires k < |ledger|
  {
    var e, before := ledger[k], Tail(ledger[..k], ledger[k].user);
    before.Some? ==> SnapshotTotal(Some(e)) == SnapshotTotal(before) + Gain(picks, e)
  }

  lemma ChainAppended(picks: map<PickId, Pick>, ledger: seq<Entry>, e: Entry)
    requires Chained(picks, ledger)
    requires Tail(ledger, e.user).Some? ==> SnapshotTotal(Some(e)) == SnapshotTotal(Tail(ledger, e.user)) + Gain(picks, e)
    ensures Chained(picks, ledger + [e])
  {
    var longer := ledger + [e];
    hide Tail, Gain;
    forall k | 0 <= k < |longer| ensures Follows(picks, longer, k) {
      if k < |ledger| {
        assert Follows(picks, ledger, k);
        assert longer[..k] == ledger[..k];
      } else {
        assert longer[..k] == ledger;
      }
    }
  }

  /** Only the stakes of paid picks matter. */
  lemma ChainKept(picks: map<PickId, Pick>, other: map<PickId, Pick>, ledger: seq<Entry>)
    requires Chained(picks, ledger) && forall k :: 0 <= k < |ledger| ==> Gain(other, ledger[k]) == Gain(picks, ledger[k])
    ensures Chained(other, ledger)
  {
    hide Tail, Gain;
    forall k | 0 <= k < |ledger| ensures Follows(other, ledger, k) {
      assert Follows(picks, ledger, k);
    }
  }

  /** The gains of a user's lines after position `i`. */
  function Gains(picks: map<PickId, Pick>, ledger: seq<Entry>, i: nat, u: UserId): int {
    if |ledger| <= i + 1 then 0
    else
      var last := ledger[|ledger| - 1];
      Gains(picks, ledger[..|ledger| - 1], i, u) + (if last.user == u then Gain(picks, last) else 0)
  }

  /** The line an audit picks by `created_at` need not be the last one appended, since the stamp is
      taken when a transaction starts. It misses exactly the gains of the user's later lines. */
  lemma {:induction false} StaleLineMissesGains(picks: map<PickId, Pick>, ledger: seq<Entry>, i: nat, u: UserId)
    requires Chained(picks, ledger) && i < |ledger| && ledger[i].user == u
    ensures Tail(ledger, u).Some? && SnapshotTotal(Tail(ledger, u)) == SnapshotTotal(Some(ledger[i])) + Gains(picks, ledger, i, u)
  {
    var n := |ledger| - 1;
    if i < n {
      hide Gain;
      var shorter := ledger[..n];
      forall k | 0 <= k < n ensures Follows(picks, shorter, k) {
        assert Follows(picks, ledger, k);
        assert shorter[..k] == ledger[..k];
      }
      StaleLineMissesGains(picks, shorter, i, u);
      assert Follows(picks, ledger, n);
    }
  }

  /** Locks and refunds gain nothing. */
  lemma {:induction false} LocksGainNothing(picks: map<PickId, Pick>, ledger: seq<Entry>, i: nat, u: UserId)
    requires forall k :: i < k < |ledger| && ledger[k].user == u ==> ledger[k].kind.StakeLock? || ledger[k].kind.Refund?
    ensures Gains(picks, ledger, i, u) == 0
  {
    if |ledger| > i + 1 {
      LocksGainNothing(picks, ledger[..|ledger| - 1], i, u);
    }
  }

  function SnapshotTotal(e: Option<Entry>): int {
    if e.None? then 0 else e.value.balanceAfter + e.value.lockedAfter
  }
}
