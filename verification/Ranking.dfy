/** Candidate ranking of `application/ranking.py`: a score, and a stable sort by it, strongest first. */
module Ranking {
  import opened Numeric

  datatype Direction = Long | Short

  datatype RankedCandidate = RankedCandidate(
    symbol: string, entryTimestamp: int, entryPrice: real, predictionAtEntry: int,
    adx: real, regimeNormalized: real, volatilityMargin: real, direction: Direction, expectancy: Option<real>)

  const VOLATILITY_MARGIN_DECILE_CUTS := [0.3966, 0.9614, 1.8114, 3.0316, 4.8878, 8.0392, 14.1294, 25.6973, 57.273]
  const REGIME_NORMALIZED_DECILE_CUTS := [0.0667, 0.2351, 0.4403, 0.6821, 0.9504, 1.3043, 1.7584, 2.4345, 3.7582]
  const EXPECTANCY_DECILE_CUTS := [0.4427, 0.6147, 0.7405, 0.8666, 0.9889, 1.1112, 1.2793, 1.59, 1.9682]

  /** The number of cut points at or below a value: where bisecting a sorted list from the right lands. */
  function CutsReached(value: real, cuts: seq<real>): (r: nat)
    ensures r <= |cuts|
  {
    if cuts == [] then 0
    else CutsReached(value, cuts[..|cuts| - 1]) + (if cuts[|cuts| - 1] <= value then 1 else 0)
  }

  function DecileScore(value: real, cuts: seq<real>): real {
    (CutsReached(value, cuts) * 10) as real
  }

  function ScoreCandidate(c: RankedCandidate): real {
    var directionSign := if c.direction == Long then 1.0 else -1.0;
    var expectancyScore := if c.expectancy.None? then 50.0 else DecileScore(c.expectancy.value, EXPECTANCY_DECILE_CUTS);
    DecileScore(c.volatilityMargin, VOLATILITY_MARGIN_DECILE_CUTS) * 1.0
    + DecileScore(c.regimeNormalized, REGIME_NORMALIZED_DECILE_CUTS) * 0.5
    + c.predictionAtEntry as real * directionSign * 2.0
    + c.adx * 1.0
    + expectancyScore * 1.5
  }

  // ---------- the stable descending sort ----------

  /** Puts `x` in front of the first element that does not score higher. */
  function Insert<T>(key: T -> real, x: T, sorted: seq<T>): seq<T> {
    if sorted == [] then [x]
    else if key(sorted[0]) > key(x) then [sorted[0]] + Insert(key, x, sorted[1..])
    else [x] + sorted
  }

  function SortDescending<T>(key: T -> real, xs: seq<T>): seq<T> {
    if xs == [] then [] else Insert(key, xs[0], SortDescending(key, xs[1..]))
  }

  ghost predicate Descending<T>(key: T -> real, xs: seq<T>) {
    forall i, j :: 0 <= i < j < |xs| ==> key(xs[i]) >= key(xs[j])
  }

  /** The elements with one score, in order. */
  function WithScore<T>(key: T -> real, xs: seq<T>, score: real): seq<T> {
    if xs == [] then [] else (if key(xs[0]) == score then [xs[0]] else []) + WithScore(key, xs[1..], score)
  }

  lemma {:induction false} InsertKeeps<T>(key: T -> real, x: T, sorted: seq<T>)
    ensures multiset(Insert(key, x, sorted)) == multiset(sorted) + multiset{x}
  {
    if sorted != [] {
      assert sorted == [sorted[0]] + sorted[1..];
      InsertKeeps(key, x, sorted[1..]);
    }
  }

  lemma {:induction false} InsertBelow<T>(key: T -> real, x: T, sorted: seq<T>, top: real)
    requires key(x) <= top && forall i :: 0 <= i < |sorted| ==> key(sorted[i]) <= top
    ensures forall i :: 0 <= i < |Insert(key, x, sorted)| ==> key(Insert(key, x, sorted)[i]) <= top
  {
    if sorted != [] {
      InsertBelow(key, x, sorted[1..], top);
    }
  }

  lemma InFront<T>(key: T -> real, x: T, rest: seq<T>)
    requires Descending(key, rest) && forall i :: 0 <= i < |rest| ==> key(rest[i]) <= key(x)
    ensures Descending(key, [x] + rest)
  {
  }

  lemma {:induction false} InsertSorted<T>(key: T -> real, x: T, sorted: seq<T>)
    requires Descending(key, sorted)
    ensures Descending(key, Insert(key, x, sorted))
  {
    if sorted != [] && key(sorted[0]) > key(x) {
      InsertSorted(key, x, sorted[1..]);
      InsertBelow(key, x, sorted[1..], key(sorted[0]));
      hide Descending;
      InFront(key, sorted[0], Insert(key, x, sorted[1..]));
    } else {
      InFront(key, x, sorted);
    }
  }

  lemma {:induction false} InsertStable<T>(key: T -> real, x: T, sorted: seq<T>, score: real)
    requires Descending(key, sorted)
    ensures WithScore(key, Insert(key, x, sorted), score) == WithScore(key, [x] + sorted, score)
  {
    assert ([x] + sorted)[1..] == sorted;
    if sorted != [] && key(sorted[0]) > key(x) {
      InsertStable(key, x, sorted[1..], score);
      var rest := Insert(key, x, sorted[1..]);
      assert ([sorted[0]] + rest)[1..] == rest;
      assert ([x] + sorted[1..])[1..] == sorted[1..];
      assert Descending(key, sorted[1..]);
    }
  }

  /** Main result. The ranking is the same candidates, strongest first, and equal scores keep their order. */
  lemma {:induction false} RankingIsStableSort<T>(key: T -> real, xs: seq<T>, score: real)
    ensures Descending(key, SortDescending(key, xs))
    ensures multiset(SortDescending(key, xs)) == multiset(xs)
    ensures WithScore(key, SortDescending(key, xs), score) == WithScore(key, xs, score)
  {
    if xs != [] {
      RankingIsStableSort(key, xs[1..], score);
      var sorted := SortDescending(key, xs[1..]);
      InsertSorted(key, xs[0], sorted);
      InsertKeeps(key, xs[0], sorted);
      InsertStable(key, xs[0], sorted, score);
      assert xs == [xs[0]] + xs[1..] && ([xs[0]] + sorted)[1..] == sorted;
    }
  }

  function RankCandidates(candidates: seq<RankedCandidate>): seq<RankedCandidate> {
    SortDescending(ScoreCandidate, candidates)
  }

  function SelectTopN(candidates: seq<RankedCandidate>, freeSlots: int): (seq<RankedCandidate>, seq<RankedCandidate>) {
    if freeSlots <= 0 then ([], candidates)
    else
      var ranked := RankCandidates(candidates);
      if freeSlots >= |ranked| then (ranked, []) else (ranked[..freeSlots], ranked[freeSlots..])
  }

  /** Nobody is lost, the free slots are used, and everybody taken scores at least as high as everybody skipped. */
  lemma SelectTopNTakesTheStrongest(candidates: seq<RankedCandidate>, freeSlots: int)
    ensures var (take, skip) := SelectTopN(candidates, freeSlots);
            && multiset(take) + multiset(skip) == multiset(candidates)
            && |take| == (if freeSlots <= 0 then 0 else if freeSlots < |candidates| then freeSlots else |candidates|)
            && forall x, y :: x in take && y in skip ==> ScoreCandidate(x) >= ScoreCandidate(y)
  {
    hide ScoreCandidate, SortDescending;
    RankingIsStableSort(ScoreCandidate, candidates, 0.0);
    var ranked := RankCandidates(candidates);
    assert |multiset(ranked)| == |ranked| && |multiset(candidates)| == |candidates|;
    if 0 < freeSlots < |ranked| {
      assert ranked == ranked[..freeSlots] + ranked[freeSlots..];
    }
  }

  // ---------- the score floor ----------

  /** The first position that scores below the floor. */
  function Cutoff<T>(key: T -> real, ranked: seq<T>, floor: real): (r: nat)
    ensures r <= |ranked|
  {
    if ranked == [] || key(ranked[0]) < floor then 0 else 1 + Cutoff(key, ranked[1..], floor)
  }

  /** Cutting a ranked list at the first candidate below the floor drops exactly the candidates below it. */
  lemma {:induction false} CutoffDropsExactly<T>(key: T -> real, ranked: seq<T>, floor: real, i: nat)
    requires Descending(key, ranked) && i < |ranked|
    ensures i < Cutoff(key, ranked, floor) <==> key(ranked[i]) >= floor
  {
    if key(ranked[0]) >= floor && i > 0 {
      assert Descending(key, ranked[1..]);
      CutoffDropsExactly(key, ranked[1..], floor, i - 1);
    }
  }
}
