/** Parlay suggestions (`app/worker/pipeline/calculator.py`, and the cut made by
    `app/worker/pipeline/runner.py`). */
module Suggestions {
  import opened Money
  import opened Engine
  import opened Sorting

  /** A candidate leg; odds are scaled by 10^4. */
  datatype Candidate = Candidate(pickId: nat, matchId: nat, odds: int)

  /** A combination, by position, with its rounded odds. */
  datatype Suggestion = Suggestion(positions: seq<nat>, odds: int)

  // ---- itertools.combinations, on positions ----

  function Prepend(x: nat, cs: seq<seq<nat>>): seq<seq<nat>> {
    seq(|cs|, i requires 0 <= i < |cs| => [x] + cs[i])
  }

  /** Combinations of `size` positions from `lo` on, in lexicographic order. */
  function Combinations(lo: nat, n: nat, size: nat): seq<seq<nat>>
    decreases n - lo, size
  {
    if size == 0 then [[]]
    else if lo >= n then []
    else Prepend(lo, Combinations(lo + 1, n, size - 1)) + Combinations(lo + 1, n, size)
  }

  /** A set of positions, written in increasing order. */
  predicate IsSubset(c: seq<nat>, lo: nat, n: nat) {
    && (forall i :: 0 <= i < |c| ==> lo <= c[i] < n)
    && (forall i, j :: 0 <= i < j < |c| ==> c[i] < c[j])
  }

  /** Exactly the subsets of that size, each once. */
  lemma {:induction false} CombinationsAreSubsets(lo: nat, n: nat, size: nat)
    ensures forall c :: c in Combinations(lo, n, size) <==> IsSubset(c, lo, n) && |c| == size
    ensures AllDifferent(Combinations(lo, n, size))
    decreases n - lo, size
  {
    if size == 0 {
      forall c: seq<nat> ensures c in Combinations(lo, n, 0) <==> IsSubset(c, lo, n) && |c| == 0 {
        var only: seq<seq<nat>> := [[]];
        assert Combinations(lo, n, 0) == only && only[0] == [];
        if |c| == 0 { assert c == only[0]; }
      }
    } else if lo < n {
      CombinationsAreSubsets(lo + 1, n, size - 1);
      CombinationsAreSubsets(lo + 1, n, size);
      WithAndWithout(lo, n, size, Combinations(lo + 1, n, size - 1), Combinations(lo + 1, n, size));
    } else {
      forall c: seq<nat> | |c| == size ensures !IsSubset(c, lo, n) {
        assert !(lo <= c[0] < n);
      }
    }
  }

  lemma WithAndWithout(lo: nat, n: nat, size: nat, with: seq<seq<nat>>, without: seq<seq<nat>>)
    requires lo < n && size > 0
    requires forall c :: c in with <==> IsSubset(c, lo + 1, n) && |c| == size - 1
    requires forall c :: c in without <==> IsSubset(c, lo + 1, n) && |c| == size
    requires AllDifferent(with) && AllDifferent(without)
    ensures forall c :: c in Prepend(lo, with) + without <==> IsSubset(c, lo, n) && |c| == size
    ensures AllDifferent(Prepend(lo, with) + without)
  {
    var first := Prepend(lo, with);
    forall c ensures c in first + without <==> IsSubset(c, lo, n) && |c| == size {
      if IsSubset(c, lo, n) && |c| == size {
        if c[0] == lo {
          SubsetTail(c, lo, n);
          assert c[1..] in with;
          var i :| 0 <= i < |with| && with[i] == c[1..];
          assert first[i] == c;
        } else {
          assert IsSubset(c, lo + 1, n);
        }
      }
      if c in first {
        var i :| 0 <= i < |first| && first[i] == c;
        assert with[i] in with;
        SubsetCons(with[i], lo, n);
      }
    }
    var all := first + without;
    forall i, j | 0 <= i < j < |all| ensures all[i] != all[j] {
      if j < |first| {
        assert all[i][1..] == with[i] && all[j][1..] == with[j];
      } else if i < |first| {
        assert all[i][0] == lo && all[j] in without;
      }
    }
  }

  lemma SubsetTail(c: seq<nat>, lo: nat, n: nat)
    requires |c| > 0 && IsSubset(c, lo, n) && c[0] == lo
    ensures IsSubset(c[1..], lo + 1, n) && [lo] + c[1..] == c
  {
  }

  lemma SubsetCons(c: seq<nat>, lo: nat, n: nat)
    requires lo < n && IsSubset(c, lo + 1, n)
    ensures IsSubset([lo] + c, lo, n)
  {
  }

  // ---- One combination ----

  function MatchesOf(picks: seq<Candidate>, c: seq<nat>): seq<nat>
    requires IsSubset(c, 0, |picks|)
  {
    seq(|c|, i requires 0 <= i < |c| => picks[c[i]].matchId)
  }

  predicate DistinctMatches(picks: seq<Candidate>, c: seq<nat>)
    requires IsSubset(c, 0, |picks|)
  {
    forall i, j :: 0 <= i < j < |c| ==> picks[c[i]].matchId != picks[c[j]].matchId
  }

  /** The exact product, scaled by 10^(4 |c|). */
  function Product(picks: seq<Candidate>, c: seq<nat>): int
    requires IsSubset(c, 0, |picks|)
  {
    if c == [] then 1 else Product(picks, c[..|c| - 1]) * picks[c[|c| - 1]].odds
  }

  function RoundedProduct(picks: seq<Candidate>, c: seq<nat>): int
    requires IsSubset(c, 0, |picks|) && |c| > 0
  {
    HalfEven(Product(picks, c), Pow10k(|c| - 1))
  }

  function Elements(s: seq<nat>): set<nat> {
    set x | x in s
  }

  ghost predicate NoDuplicates(s: seq<nat>) {
    forall i, j :: 0 <= i < j < |s| ==> s[i] != s[j]
  }

  lemma NoDuplicatesGrows(s: seq<nat>, x: nat)
    ensures NoDuplicates(s + [x]) <==> NoDuplicates(s) && x !in s
  {
    var t := s + [x];
    assert forall i :: 0 <= i < |s| ==> t[i] == s[i];
    if NoDuplicates(t) {
      forall i | 0 <= i < |s| ensures s[i] != x {
        assert t[i] != t[|s|];
      }
    }
  }

  /** As many members as elements: the test made on the list of matches. */
  lemma {:induction false} NoDuplicatesIff(s: seq<nat>)
    ensures |Elements(s)| <= |s|
    ensures |Elements(s)| == |s| <==> NoDuplicates(s)
  {
    if s == [] {
      assert Elements(s) == {};
    } else {
      var n := |s| - 1;
      var rest, last := s[..n], s[n];
      assert s == rest + [last];
      hide NoDuplicates;
      NoDuplicatesIff(rest);
      NoDuplicatesGrows(rest, last);
      var before, all := Elements(rest), Elements(s);
      assert all == before + {last};
      if last in rest {
        assert all == before;
      } else {
        assert |all| == |before| + 1;
      }
    }
  }

  lemma DistinctIff(picks: seq<Candidate>, c: seq<nat>)
    requires IsSubset(c, 0, |picks|)
    ensures |Elements(MatchesOf(picks, c))| == |c| <==> DistinctMatches(picks, c)
  {
    var ms := MatchesOf(picks, c);
    NoDuplicatesIff(ms);
    assert forall i :: 0 <= i < |c| ==> ms[i] == picks[c[i]].matchId;
  }

  predicate Keeps(picks: seq<Candidate>, minOdds: int, c: seq<nat>)
    requires IsSubset(c, 0, |picks|) && |c| > 0
  {
    DistinctMatches(picks, c) && RoundedProduct(picks, c) >= minOdds
  }

  // ---- The list before sorting ----

  function Min(a: int, b: int): int {
    if a < b then a else b
  }

  ghost predicate Listed(picks: seq<Candidate>, cs: seq<seq<nat>>, size: nat) {
    forall i :: 0 <= i < |cs| ==> IsSubset(cs[i], 0, |picks|) && |cs[i]| == size
  }

  function Kept(picks: seq<Candidate>, minOdds: int, cs: seq<seq<nat>>, size: nat): seq<Suggestion>
    requires size > 0 && Listed(picks, cs, size)
  {
    if cs == [] then []
    else
      var last := cs[|cs| - 1];
      Kept(picks, minOdds, cs[..|cs| - 1], size)
      + (if Keeps(picks, minOdds, last) then [Suggestion(last, RoundedProduct(picks, last))] else [])
  }

  lemma CombinationsListed(picks: seq<Candidate>, size: nat)
    ensures Listed(picks, Combinations(0, |picks|, size), size)
  {
    CombinationsAreSubsets(0, |picks|, size);
    var cs := Combinations(0, |picks|, size);
    assert forall i :: 0 <= i < |cs| ==> cs[i] in cs;
  }

  /** Suggestions with fewer than `upTo` legs, by size. */
  function Unsorted(picks: seq<Candidate>, minOdds: int, upTo: nat): seq<Suggestion> {
    if upTo <= 2 then []
    else
      CombinationsListed(picks, upTo - 1);
      Unsorted(picks, minOdds, upTo - 1) + Kept(picks, minOdds, Combinations(0, |picks|, upTo - 1), upTo - 1)
  }

  /** A suggestion the caller is entitled to. */
  predicate Eligible(picks: seq<Candidate>, minOdds: int, s: Suggestion) {
    && |s.positions| >= 2 && IsSubset(s.positions, 0, |picks|) && DistinctMatches(picks, s.positions)
    && s.odds == RoundedProduct(picks, s.positions) && s.odds >= minOdds
  }

  ghost predicate EachOnce(out: seq<Suggestion>) {
    forall i, j :: 0 <= i < j < |out| ==> out[i].positions != out[j].positions
  }

  lemma KeptOne(picks: seq<Candidate>, minOdds: int, cs: seq<seq<nat>>, size: nat)
    requires size >= 2 && cs != [] && Listed(picks, cs, size)
    ensures
      var n := |cs| - 1;
      && Listed(picks, cs[..n], size)
      && (forall s :: s in Kept(picks, minOdds, cs, size) <==>
            s in Kept(picks, minOdds, cs[..n], size) || (s.positions == cs[n] && Eligible(picks, minOdds, s)))
      && |Kept(picks, minOdds, cs[..n], size)| <= |Kept(picks, minOdds, cs, size)| <= |Kept(picks, minOdds, cs[..n], size)| + 1
      && Kept(picks, minOdds, cs[..n], size) == Kept(picks, minOdds, cs, size)[..|Kept(picks, minOdds, cs[..n], size)|]
      && (forall i :: |Kept(picks, minOdds, cs[..n], size)| <= i < |Kept(picks, minOdds, cs, size)| ==> Kept(picks, minOdds, cs, size)[i].positions == cs[n])
  {
    hide RoundedProduct, IsSubset, DistinctMatches;
  }

  ghost predicate AllDifferent(cs: seq<seq<nat>>) {
    forall i, j :: 0 <= i < j < |cs| ==> cs[i] != cs[j]
  }

  lemma DifferentBefore(cs: seq<seq<nat>>)
    requires cs != [] && AllDifferent(cs)
    ensures
      var n := |cs| - 1;
      AllDifferent(cs[..n]) && cs[n] !in cs[..n] && forall c :: c in cs <==> c in cs[..n] || c == cs[n]
  {
    assert cs == cs[..|cs| - 1] + [cs[|cs| - 1]];
  }

  lemma {:induction false} KeptIs(picks: seq<Candidate>, minOdds: int, cs: seq<seq<nat>>, size: nat)
    requires size >= 2 && Listed(picks, cs, size) && AllDifferent(cs)
    ensures forall s :: s in Kept(picks, minOdds, cs, size) <==> s.positions in cs && Eligible(picks, minOdds, s)
    ensures EachOnce(Kept(picks, minOdds, cs, size))
  {
    if cs != [] {
      hide Eligible, Listed, EachOnce, AllDifferent, Kept;
      var n := |cs| - 1;
      KeptOne(picks, minOdds, cs, size);
      DifferentBefore(cs);
      KeptIs(picks, minOdds, cs[..n], size);
      AppendedOnce(Kept(picks, minOdds, cs[..n], size), Kept(picks, minOdds, cs, size), cs[..n], cs[n]);
    }
  }

  lemma AppendedOnce(before: seq<Suggestion>, all: seq<Suggestion>, seen: seq<seq<nat>>, last: seq<nat>)
    requires EachOnce(before) && |before| <= |all| <= |before| + 1 && all[..|before|] == before && last !in seen
    requires forall s :: s in before ==> s.positions in seen
    requires forall i :: |before| <= i < |all| ==> all[i].positions == last
    ensures EachOnce(all)
  {
    forall i, j | 0 <= i < j < |all| ensures all[i].positions != all[j].positions {
      assert all[i] == before[i] && before[i] in before;
      assert j < |before| ==> all[j] == before[j];
    }
  }

  lemma {:induction false} UnsortedIs(picks: seq<Candidate>, minOdds: int, upTo: nat)
    requires upTo >= 2
    ensures forall s :: s in Unsorted(picks, minOdds, upTo) <==> |s.positions| < upTo && Eligible(picks, minOdds, s)
    ensures EachOnce(Unsorted(picks, minOdds, upTo))
  {
    if upTo > 2 {
      var size := upTo - 1;
      CombinationsListed(picks, size);
      UnsortedIs(picks, minOdds, size);
      OfSizeIs(picks, minOdds, size);
      OnceTogether(Unsorted(picks, minOdds, size), Kept(picks, minOdds, Combinations(0, |picks|, size), size), size);
      hide Combinations, Kept, Eligible, EachOnce;
    }
  }

  lemma OfSizeIs(picks: seq<Candidate>, minOdds: int, size: nat)
    requires size >= 2 && Listed(picks, Combinations(0, |picks|, size), size)
    ensures
      var more := Kept(picks, minOdds, Combinations(0, |picks|, size), size);
      (forall s :: s in more <==> |s.positions| == size && Eligible(picks, minOdds, s)) && EachOnce(more)
  {
    CombinationsAreSubsets(0, |picks|, size);
    KeptIs(picks, minOdds, Combinations(0, |picks|, size), size);
    hide Combinations, Kept, IsSubset, RoundedProduct, DistinctMatches, EachOnce, Listed;
  }

  lemma OnceTogether(before: seq<Suggestion>, more: seq<Suggestion>, size: nat)
    requires EachOnce(before) && EachOnce(more)
    requires forall s :: s in before ==> |s.positions| < size
    requires forall s :: s in more ==> |s.positions| == size
    ensures EachOnce(before + more)
  {
    forall i, j | 0 <= i < |before| && 0 <= j < |more| ensures before[i].positions != more[j].positions {
      assert before[i] in before && more[j] in more;
    }
  }

  // ---- sort(key=odds_total, reverse=True) ----

  function Descending(s: Suggestion): int {
    -s.odds
  }

  lemma PermutationOnce(a: seq<Suggestion>, b: seq<Suggestion>)
    requires multiset(a) == multiset(b) && EachOnce(a)
    ensures EachOnce(b) && forall s :: s in a <==> s in b
  {
    forall s ensures s in a <==> s in b {
      assert s in multiset(a) <==> s in multiset(b);
    }
    forall i, j | 0 <= i < j < |b| ensures b[i].positions != b[j].positions {
      assert b[i] in a && b[j] in a;
      if b[i] == b[j] {
        TwiceInMultiset(b, i, j);
        OnceInMultiset(a, b[i]);
        assert false;
      }
      var k :| 0 <= k < |a| && a[k] == b[i];
      var l :| 0 <= l < |a| && a[l] == b[j];
      assert k < l || l < k;
    }
  }

  lemma TwiceInMultiset(b: seq<Suggestion>, i: nat, j: nat)
    requires i < j < |b| && b[i] == b[j]
    ensures multiset(b)[b[i]] >= 2
  {
    assert b == b[..i] + [b[i]] + b[i + 1..j] + [b[j]] + b[j + 1..];
  }

  lemma {:induction false} OnceInMultiset(a: seq<Suggestion>, s: Suggestion)
    requires EachOnce(a)
    ensures multiset(a)[s] <= 1
  {
    if a != [] {
      var n := |a| - 1;
      assert a == a[..n] + [a[n]];
      OnceInMultiset(a[..n], s);
      if s in a[..n] {
        assert s != a[n];
      }
    }
  }

  // ---- build_parlay_suggestions ----

  function Suggested(picks: seq<Candidate>, minOdds: int, maxLegs: int): seq<Suggestion> {
    if |picks| < 2 then []
    else
      var sizes := Min(|picks|, maxLegs);
      Sorted(if sizes < 2 then [] else Unsorted(picks, minOdds, sizes + 1), Descending)
  }

  /** The suggestions are exactly the position sets of an allowed size with pairwise distinct matches
      and a rounded product at or above the minimum, each once and in descending order. */
  lemma SuggestedExactly(picks: seq<Candidate>, minOdds: int, maxLegs: int)
    ensures forall s :: s in Suggested(picks, minOdds, maxLegs) <==> Eligible(picks, minOdds, s) && |s.positions| <= Min(|picks|, maxLegs)
    ensures EachOnce(Suggested(picks, minOdds, maxLegs)) && Ascending(Suggested(picks, minOdds, maxLegs), Descending)
  {
    var sizes := Min(|picks|, maxLegs);
    if |picks| < 2 || sizes < 2 {
      NoneFits(picks, minOdds, sizes);
    } else {
      var all := Unsorted(picks, minOdds, sizes + 1);
      UnsortedIs(picks, minOdds, sizes + 1);
      SortIsStable(all, Descending);
      PermutationOnce(all, Sorted(all, Descending));
      hide Eligible, Unsorted, Sorted, EachOnce;
    }
  }

  lemma NoneFits(picks: seq<Candidate>, minOdds: int, sizes: int)
    requires sizes <= |picks| && (|picks| < 2 || sizes < 2)
    ensures forall s :: Eligible(picks, minOdds, s) ==> |s.positions| > sizes
  {
    forall s | Eligible(picks, minOdds, s) ensures |s.positions| > sizes {
      SubsetFits(s.positions, |picks|);
    }
  }

  lemma {:induction false} SubsetFits(c: seq<nat>, n: nat)
    requires IsSubset(c, 0, n)
    ensures |c| <= n
  {
    if c != [] {
      SubsetFits(c[..|c| - 1], c[|c| - 1]);
    }
  }

  /** The pipeline inserts the first five: none of the others beats one of them. */
  lemma CutKeepsTheBest(picks: seq<Candidate>, minOdds: int, maxLegs: int, cut: nat, s: Suggestion)
    requires cut <= |Suggested(picks, minOdds, maxLegs)|
    requires Eligible(picks, minOdds, s) && |s.positions| <= Min(|picks|, maxLegs)
    requires s !in Suggested(picks, minOdds, maxLegs)[..cut]
    ensures forall i :: 0 <= i < cut ==> Suggested(picks, minOdds, maxLegs)[i].odds >= s.odds
  {
    SuggestedExactly(picks, minOdds, maxLegs);
    var out := Suggested(picks, minOdds, maxLegs);
    hide Suggested, Eligible;
    forall i | 0 <= i < cut ensures out[i] != s {
      assert out[..cut][i] in out[..cut];
    }
    var j :| 0 <= j < |out| && out[j] == s;
  }

  /** The running product of one combination. */
  method Multiply(picks: seq<Candidate>, c: seq<nat>) returns (product: int)
    requires IsSubset(c, 0, |picks|)
    ensures product == Product(picks, c)
  {
    product := 1;
    for i := 0 to |c|
      invariant product == Product(picks, c[..i])
    {
      assert c[..i + 1][..i] == c[..i];
      product := product * picks[c[i]].odds;
    }
    assert c[..|c|] == c;
  }

  method OfSize(picks: seq<Candidate>, minOdds: int, size: nat, before: seq<Suggestion>) returns (suggestions: seq<Suggestion>)
    requires size >= 2 && Listed(picks, Combinations(0, |picks|, size), size)
    ensures suggestions == before + Kept(picks, minOdds, Combinations(0, |picks|, size), size)
  {
    hide *;
    var cs := Combinations(0, |picks|, size);
    KeptNone(picks, minOdds, size);
    suggestions := before;
    for i := 0 to |cs|
      invariant Listed(picks, cs[..i], size) && suggestions == before + Kept(picks, minOdds, cs[..i], size)
    {
      var combo := cs[i];
      KeptAdds(picks, minOdds, cs, i, size);
      var matchIds := MatchesOf(picks, combo);
      if |Elements(matchIds)| == |matchIds| {
        var product := Multiply(picks, combo);
        var total := HalfEven(product, Pow10k(size - 1));
        if total >= minOdds {
          suggestions := suggestions + [Suggestion(combo, total)];
        }
      }
    }
    WholeList(cs);
  }

  lemma WholeList(cs: seq<seq<nat>>)
    ensures cs[..|cs|] == cs
  {
  }

  lemma KeptNone(picks: seq<Candidate>, minOdds: int, size: nat)
    requires size > 0
    ensures Listed(picks, [], size) && Kept(picks, minOdds, [], size) == []
  {
  }

  /** The loop body over one combination. */
  lemma KeptAdds(picks: seq<Candidate>, minOdds: int, cs: seq<seq<nat>>, i: nat, size: nat)
    requires size > 0 && i < |cs| && Listed(picks, cs, size)
    ensures Listed(picks, cs[..i], size) && Listed(picks, cs[..i + 1], size) && IsSubset(cs[i], 0, |picks|)
    ensures
      var keeps := |Elements(MatchesOf(picks, cs[i]))| == |MatchesOf(picks, cs[i])| && HalfEven(Product(picks, cs[i]), Pow10k(size - 1)) >= minOdds;
      Kept(picks, minOdds, cs[..i + 1], size)
      == Kept(picks, minOdds, cs[..i], size)
         + (if keeps then [Suggestion(cs[i], HalfEven(Product(picks, cs[i]), Pow10k(size - 1)))] else [])
  {
    hide IsSubset, HalfEven, Product, DistinctMatches;
    DistinctIff(picks, cs[i]);
    assert cs[..i + 1][..i] == cs[..i];
  }

  lemma NoSizes(picks: seq<Candidate>, minOdds: int, maxLegs: int)
    ensures Unsorted(picks, minOdds, 2) == []
    ensures |picks| < 2 ==> Suggested(picks, minOdds, maxLegs) == []
    ensures |picks| >= 2 && Min(|picks|, maxLegs) < 2 ==> Suggested(picks, minOdds, maxLegs) == Sorted([], Descending)
    ensures |picks| >= 2 && Min(|picks|, maxLegs) >= 2 ==>
              Suggested(picks, minOdds, maxLegs) == Sorted(Unsorted(picks, minOdds, Min(|picks|, maxLegs) + 1), Descending)
  {
  }

  lemma OneMoreSize(picks: seq<Candidate>, minOdds: int, size: nat)
    requires size >= 2
    ensures Listed(picks, Combinations(0, |picks|, size), size)
    ensures Unsorted(picks, minOdds, size + 1) == Unsorted(picks, minOdds, size) + Kept(picks, minOdds, Combinations(0, |picks|, size), size)
  {
    CombinationsListed(picks, size);
  }

  /** `build_parlay_suggestions`. */
  method BuildParlaySuggestions(picks: seq<Candidate>, minOdds: int, maxLegs: int) returns (suggestions: seq<Suggestion>)
    ensures suggestions == Suggested(picks, minOdds, maxLegs)
  {
    hide *;
    NoSizes(picks, minOdds, maxLegs);
    if |picks| < 2 {
      return [];
    }
    suggestions := [];
    var size, last := 2, Min(|picks|, maxLegs);
    while size <= last
      invariant size == 2 || 2 < size <= last + 1
      invariant suggestions == Unsorted(picks, minOdds, size)
    {
      OneMoreSize(picks, minOdds, size);
      suggestions := OfSize(picks, minOdds, size, suggestions);
      size := size + 1;
    }
    suggestions := Sorted(suggestions, Descending);
  }
}
