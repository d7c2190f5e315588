/** Keyset pagination: `ORDER BY id LIMIT n`, then `WHERE id > last`. */
module Keyset {
  import opened Domain
  import opened Tables

  /** All ids, ascending. */
  function Sorted(s: set<nat>): seq<nat> {
    if s == {} then []
    else
      var m := Least(s);
      [m] + Sorted(s - {m})
  }

  lemma {:induction false} SortedIsOrder(s: set<nat>)
    ensures forall i, j :: 0 <= i < j < |Sorted(s)| ==> Sorted(s)[i] < Sorted(s)[j]
    ensures forall x :: x in s <==> x in Sorted(s)
    ensures |Sorted(s)| == |s|
  {
    if s != {} {
      var m := Least(s);
      var rest := Sorted(s - {m});
      SortedIsOrder(s - {m});
      forall i, j | 0 <= i < j < |Sorted(s)| ensures Sorted(s)[i] < Sorted(s)[j] {
        assert rest[j - 1] in rest;
        assert i > 0 ==> rest[i - 1] < rest[j - 1];
      }
      forall x ensures x in s <==> x in Sorted(s) {
        assert x in Sorted(s) <==> x == m || x in rest;
      }
    }
  }

  /** The rows a cursor has not passed yet. */
  function Beyond(ids: seq<nat>, last: Option<nat>): seq<nat> {
    if ids == [] then []
    else if last.None? || ids[0] > last.value then [ids[0]] + Beyond(ids[1..], last)
    else Beyond(ids[1..], last)
  }

  function Min(a: nat, b: nat): (m: nat)
    ensures m <= a && m <= b && (m == a || m == b)
  {
    if a < b then a else b
  }

  /** One query. */
  function Page(table: set<nat>, last: Option<nat>, limit: nat): seq<nat> {
    var rest := Beyond(Sorted(table), last);
    rest[..Min(limit, |rest|)]
  }

  lemma {:induction false} BeyondIsSuffix(ids: seq<nat>, k: nat)
    requires k <= |ids| && forall i, j :: 0 <= i < j < |ids| ==> ids[i] < ids[j]
    ensures Beyond(ids, if k == 0 then None else Some(ids[k - 1])) == ids[k..]
  {
    var last := if k == 0 then None else Some(ids[k - 1]);
    if ids != [] {
      if k == 0 {
        BeyondIsSuffix(ids[1..], 0);
      } else {
        assert ids[0] <= last.value;
        if k > 1 {
          BeyondIsSuffix(ids[1..], k - 1);
        } else {
          AllBeyond(ids[1..], ids[0]);
        }
      }
    }
  }

  lemma {:induction false} AllBeyond(ids: seq<nat>, last: nat)
    requires forall i :: 0 <= i < |ids| ==> ids[i] > last
    ensures Beyond(ids, Some(last)) == ids
  {
    if ids != [] {
      AllBeyond(ids[1..], last);
    }
  }

  /** A query resumed at the last id of the rows already seen returns exactly the next rows. */
  lemma PageIsNext(table: set<nat>, k: nat, limit: nat)
    requires k <= |Sorted(table)|
    ensures Page(table, if k == 0 then None else Some(Sorted(table)[k - 1]), limit)
         == Sorted(table)[k..Min(k + limit, |Sorted(table)|)]
  {
    hide Sorted, Beyond;
    var ids := Sorted(table);
    SortedIsOrder(table);
    BeyondIsSuffix(ids, k);
    var n := Min(limit, |ids| - k);
    assert ids[k..][..n] == ids[k..k + n];
  }
}
