/**
 * The `sorted { … }.prefix(2)` step both searches end with: candidates are
 * ranked by a whole-minute key, ascending for the departure search and
 * descending for the arrival search, and the first two are kept.
 *
 * Swift does not promise which of two equal keys `sorted` puts first, so the
 * sort below is one admissible order and nothing proved about it speaks of
 * the order of ties.
 */
module Ranking {
  import opened DataModels

  /** A bus together with the minute it is ranked by. */
  datatype Candidate = Candidate(bus: Bus, key: int)

  /** `x` may stand before `y`: no later when ascending, no earlier when descending. */
  predicate Precedes(x: Candidate, y: Candidate, ascending: bool)
  {
    if ascending then x.key <= y.key else x.key >= y.key
  }

  /** Every candidate may stand before every candidate after it. */
  predicate Ranked(cs: seq<Candidate>, ascending: bool)
  {
    forall i, j | 0 <= i < j < |cs| :: Precedes(cs[i], cs[j], ascending)
  }

  /** `c` may stand before every candidate in `m`. */
  predicate PrecedesAll(c: Candidate, m: multiset<Candidate>, ascending: bool)
  {
    forall d | d in m :: Precedes(c, d, ascending)
  }

  /** Places `c` in the ranked list `cs`, before the first candidate it may stand before. */
  function Insert(c: Candidate, cs: seq<Candidate>, ascending: bool): (r: seq<Candidate>)
    requires Ranked(cs, ascending)
    ensures Ranked(r, ascending)
    ensures multiset(r) == multiset(cs) + multiset{c}
  {
    if |cs| == 0 || Precedes(c, cs[0], ascending) then
      assert forall d | d in multiset(cs) :: Precedes(c, d, ascending) by {
        forall d | d in multiset(cs) ensures Precedes(c, d, ascending) {
          var k :| 0 <= k < |cs| && cs[k] == d;
          assert k == 0 || Precedes(cs[0], cs[k], ascending);
        }
      }
      RankedCons(c, cs, ascending);
      [c] + cs
    else
      var rest := Insert(c, cs[1..], ascending);
      assert cs == [cs[0]] + cs[1..];
      assert PrecedesAll(cs[0], multiset(rest), ascending) by {
        forall d | d in multiset(rest) ensures Precedes(cs[0], d, ascending) {
          if d != c {
            assert d in multiset(cs[1..]);
            var k :| 0 <= k < |cs[1..]| && cs[1..][k] == d;
            assert cs[k + 1] == d;
          }
        }
      }
      RankedCons(cs[0], rest, ascending);
      [cs[0]] + rest
  }

  /** A candidate that may stand before all of a ranked list may head it. */
  lemma RankedCons(c: Candidate, cs: seq<Candidate>, ascending: bool)
    requires Ranked(cs, ascending)
    requires PrecedesAll(c, multiset(cs), ascending)
    ensures Ranked([c] + cs, ascending)
  {
    var r := [c] + cs;
    forall i, j | 0 <= i < j < |r|
      ensures Precedes(r[i], r[j], ascending)
    {
      assert r[j] == cs[j - 1] && cs[j - 1] in multiset(cs);
      if i > 0 {
        assert r[i] == cs[i - 1];
      }
    }
  }

  /** The candidates in ranked order: the model of Swift's `sorted(by:)` with a strict comparison. */
  function Sort(cs: seq<Candidate>, ascending: bool): (r: seq<Candidate>)
    ensures Ranked(r, ascending)
    ensures multiset(r) == multiset(cs)
  {
    if |cs| == 0 then []
    else
      assert cs == [cs[0]] + cs[1..];
      Insert(cs[0], Sort(cs[1..], ascending), ascending)
  }

  /** How many results a search shows. */
  const ResultLimit := 2

  /**
   * `prefix(2)` of the ranked candidates: as many as there are, up to two;
   * in ranked order; drawn from the input; and the whole input when it is
   * that short.
   */
  function TopTwo(cs: seq<Candidate>, ascending: bool): (r: seq<Candidate>)
    ensures |r| == if |cs| <= ResultLimit then |cs| else ResultLimit
    ensures Ranked(r, ascending)
    ensures multiset(r) <= multiset(cs)
    ensures |cs| <= ResultLimit ==> multiset(r) == multiset(cs)
  {
    var sorted := Sort(cs, ascending);
    assert |sorted| == |cs| by {
      assert |multiset(sorted)| == |multiset(cs)|;
    }
    if |sorted| <= ResultLimit then sorted
    else
      assert sorted == sorted[..ResultLimit] + sorted[ResultLimit..];
      sorted[..ResultLimit]
  }

  /** Every candidate left out may stand after each kept one. */
  lemma TopTwoLeavesOutNoBetter(cs: seq<Candidate>, ascending: bool)
    ensures var r := TopTwo(cs, ascending);
      forall d, c | d in multiset(cs) - multiset(r) && c in r :: Precedes(c, d, ascending)
  {
    var sorted := Sort(cs, ascending);
    var r := TopTwo(cs, ascending);
    if |sorted| > ResultLimit {
      assert sorted == r + sorted[ResultLimit..];
      assert multiset(sorted) == multiset(r) + multiset(sorted[ResultLimit..]);
      forall d, c | d in multiset(cs) - multiset(r) && c in r
        ensures Precedes(c, d, ascending)
      {
        assert d in multiset(sorted[ResultLimit..]);
        var k :| 0 <= k < |sorted[ResultLimit..]| && sorted[ResultLimit..][k] == d;
        var i :| 0 <= i < |r| && r[i] == c;
        assert sorted[i] == c && sorted[ResultLimit + k] == d;
      }
    }
  }
}
