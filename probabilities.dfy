/**
 * calculate_advanced_probabilities: up/down, conditional and two-day streak
 * percentages counted over a sequence of daily returns.
 */
module Probabilities {
  import opened Wrappers
  import opened Floats

  /** The five fields of the returned dict; None is the source's None. */
  datatype AdvancedProbs = AdvancedProbs(
    probDownDay: Option<real>,
    condProbUpGivenUp: Option<real>,
    condProbDownGivenDown: Option<real>,
    prob2DaysUpStreak: Option<real>,
    prob2DaysDownStreak: Option<real>)

  const AllNone := AdvancedProbs(None, None, None, None, None)

  datatype Direction = Up | Down

  /** is_up (r > 0) and is_down (r < 0); NaN is neither, +inf is up, -inf is down. */
  predicate Moves(d: Direction, f: Float) {
    match d
    case Up => IsPositive(f)
    case Down => IsNegative(f)
  }

  /** The number of returns moving in direction d: is_up.sum() / is_down.sum(). */
  function CountDays(r: seq<Float>, d: Direction): (c: nat)
    ensures c <= |r|
  {
    if r == [] then 0
    else CountDays(r[..|r| - 1], d) + (if Moves(d, r[|r| - 1]) then 1 else 0)
  }

  /**
   * The boolean series combined over a day i >= 1 and its predecessor (the
   * shift(1) value): valid_comparison, was_up, was_down, is_up & was_up,
   * is_down & was_down, each already and-ed with valid_comparison.
   */
  datatype PairKind = Valid | WasUp | WasDown | UpAfterUp | DownAfterDown

  predicate PairHolds(k: PairKind, prev: Float, cur: Float) {
    !prev.NaN? && !cur.NaN? &&
    match k
    case Valid => true
    case WasUp => Moves(Up, prev)
    case WasDown => Moves(Down, prev)
    case UpAfterUp => Moves(Up, prev) && Moves(Up, cur)
    case DownAfterDown => Moves(Down, prev) && Moves(Down, cur)
  }

  /** The number of days i >= 1 whose pair (r[i-1], r[i]) is of kind k. */
  function CountPairs(r: seq<Float>, k: PairKind): (c: nat)
    ensures |r| > 0 ==> c < |r|
    ensures |r| <= 1 ==> c == 0
  {
    if |r| < 2 then 0
    else CountPairs(r[..|r| - 1], k) + (if PairHolds(k, r[|r| - 2], r[|r| - 1]) then 1 else 0)
  }

  /** 100 * num / den, or 0 when den is 0 (the source's `if ... > 0 else 0`). */
  function Percent(num: nat, den: nat): real {
    if den > 0 then 100.0 * num as real / den as real else 0.0
  }

  predicate InPercentRange(o: Option<real>) {
    o.Some? ==> 0.0 <= o.value <= 100.0
  }

  function AdvancedProbabilities(r: seq<Float>): (a: AdvancedProbs)
    ensures |r| < 2 <==> a == AllNone
    ensures |r| >= 2 ==> a.probDownDay == Some(Percent(CountDays(r, Down), |r|))
    ensures InPercentRange(a.probDownDay) && InPercentRange(a.condProbUpGivenUp)
    ensures InPercentRange(a.condProbDownGivenDown)
    ensures InPercentRange(a.prob2DaysUpStreak) && InPercentRange(a.prob2DaysDownStreak)
  {
    if |r| < 2 then AllNone
    else
      var valid := CountPairs(r, Valid);
      var probDown := Percent(CountDays(r, Down), |r|);
      PercentBounds(CountDays(r, Down), |r|);
      if valid == 0 then AdvancedProbs(Some(probDown), None, None, None, None)
      else
        var upUp, downDown := CountPairs(r, UpAfterUp), CountPairs(r, DownAfterDown);
        var wasUp, wasDown := CountPairs(r, WasUp), CountPairs(r, WasDown);
        PairCountsNested(r);
        PercentBounds(upUp, wasUp);
        PercentBounds(downDown, wasDown);
        PercentBounds(upUp, valid);
        PercentBounds(downDown, valid);
        AdvancedProbs(Some(probDown), Some(Percent(upUp, wasUp)), Some(Percent(downDown, wasDown)),
                      Some(Percent(upUp, valid)), Some(Percent(downDown, valid)))
  }

  lemma PercentBounds(num: nat, den: nat)
    requires num <= den
    ensures 0.0 <= Percent(num, den) <= 100.0
  {
    PercentsAdd(num, 0, den);
  }

  lemma NonPositiveFactor(z: real, n: real)
    requires n > 0.0 && z * n <= 0.0
    ensures z <= 0.0
  {}

  /** Every up-after-up pair is a was-up pair, and every was-up pair is a valid one. */
  lemma {:induction false} PairCountsNested(r: seq<Float>)
    ensures CountPairs(r, UpAfterUp) <= CountPairs(r, WasUp) <= CountPairs(r, Valid)
    ensures CountPairs(r, DownAfterDown) <= CountPairs(r, WasDown) <= CountPairs(r, Valid)
    ensures CountPairs(r, UpAfterUp) + CountPairs(r, DownAfterDown) <= CountPairs(r, Valid)
  {
    if |r| >= 2 {
      PairCountsNested(r[..|r| - 1]);
    }
  }

  /** Up days and down days are disjoint, so together there are at most |r| of them. */
  lemma {:induction false} UpAndDownDaysDisjoint(r: seq<Float>)
    ensures CountDays(r, Up) + CountDays(r, Down) <= |r|
  {
    if r != [] {
      UpAndDownDaysDisjoint(r[..|r| - 1]);
    }
  }

  predicate NoNaN(r: seq<Float>) {
    forall i :: 0 <= i < |r| ==> !r[i].NaN?
  }

  /** Without NaN every day after the first has a valid comparison: n - 1 of them. */
  lemma {:induction false} ValidPairsWithoutNaN(r: seq<Float>)
    requires |r| > 0 && NoNaN(r)
    ensures CountPairs(r, Valid) == |r| - 1
  {
    if |r| >= 2 {
      var init := r[..|r| - 1];
      assert forall i :: 0 <= i < |init| ==> init[i] == r[i];
      ValidPairsWithoutNaN(init);
    }
  }

  /** The indices the source's boolean masks select, as sets. */
  function PairIndices(r: seq<Float>, k: PairKind): set<int> {
    set i | 1 <= i < |r| && PairAt(r, k, i)
  }

  predicate PairAt(r: seq<Float>, k: PairKind, i: int)
    requires 1 <= i < |r|
  {
    PairHolds(k, r[i - 1], r[i])
  }

  function DayIndices(r: seq<Float>, d: Direction): set<int> {
    set i | 0 <= i < |r| && Moves(d, r[i])
  }

  /** The recursive pair count is the size of the selected index set. */
  lemma {:induction false} CountPairsIsCardinality(r: seq<Float>, k: PairKind)
    ensures CountPairs(r, k) == |PairIndices(r, k)|
  {
    if |r| < 2 {
      assert PairIndices(r, k) == {};
    } else {
      var init := r[..|r| - 1];
      CountPairsIsCardinality(init, k);
      PairIndicesGrow(r, k);
    }
  }

  lemma PairIndicesGrow(r: seq<Float>, k: PairKind)
    requires |r| >= 2
    ensures PairIndices(r, k) ==
      PairIndices(r[..|r| - 1], k) + (if PairAt(r, k, |r| - 1) then {|r| - 1} else {})
  {
    var init := r[..|r| - 1];
    forall i | 1 <= i < |init|
      ensures PairAt(init, k, i) == PairAt(r, k, i)
    {
      assert init[i - 1] == r[i - 1] && init[i] == r[i];
    }
  }

  lemma {:induction false} CountDaysIsCardinality(r: seq<Float>, d: Direction)
    ensures CountDays(r, d) == |DayIndices(r, d)|
  {
    if r == [] {
      assert DayIndices(r, d) == {};
    } else {
      CountDaysIsCardinality(r[..|r| - 1], d);
      DayIndicesGrow(r, d);
    }
  }

  lemma DayIndicesGrow(r: seq<Float>, d: Direction)
    requires |r| >= 1
    ensures DayIndices(r, d) ==
      DayIndices(r[..|r| - 1], d) + (if Moves(d, r[|r| - 1]) then {|r| - 1} else {})
  {
    var init := r[..|r| - 1];
    assert forall i | 0 <= i < |init| :: init[i] == r[i];
  }

  /**
   * With at least two returns and no NaN (the situation after dropna), the
   * result in terms of the index sets: the conditional probabilities divide
   * by the was-up / was-down days, the streaks by the n - 1 comparisons and
   * prob_down_day by all n returns.
   */
  lemma AdvancedProbabilitiesDefinition(r: seq<Float>)
    requires |r| >= 2 && NoNaN(r)
    ensures AdvancedProbabilities(r) == AdvancedProbs(
      Some(Percent(|DayIndices(r, Down)|, |r|)),
      Some(Percent(|PairIndices(r, UpAfterUp)|, |PairIndices(r, WasUp)|)),
      Some(Percent(|PairIndices(r, DownAfterDown)|, |PairIndices(r, WasDown)|)),
      Some(Percent(|PairIndices(r, UpAfterUp)|, |r| - 1)),
      Some(Percent(|PairIndices(r, DownAfterDown)|, |r| - 1)))
  {
    ValidPairsWithoutNaN(r);
    CountDaysIsCardinality(r, Down);
    CountPairsIsCardinality(r, UpAfterUp);
    CountPairsIsCardinality(r, DownAfterDown);
    CountPairsIsCardinality(r, WasUp);
    CountPairsIsCardinality(r, WasDown);
  }

  /** The two streak probabilities never exceed 100 together. */
  lemma StreaksAtMost100(r: seq<Float>)
    requires |r| >= 2
    ensures var a := AdvancedProbabilities(r);
      a.prob2DaysUpStreak.Some? ==> a.prob2DaysUpStreak.value + a.prob2DaysDownStreak.value <= 100.0
  {
    PairCountsNested(r);
    var valid := CountPairs(r, Valid);
    if valid > 0 {
      PercentsAdd(CountPairs(r, UpAfterUp), CountPairs(r, DownAfterDown), valid);
    }
  }

  /** Two counts that share a denominator add up to at most 100 percent. */
  lemma PercentsAdd(a: nat, b: nat, den: nat)
    requires a + b <= den
    ensures Percent(a, den) + Percent(b, den) <= 100.0
  {
    if den > 0 {
      var n := den as real;
      var p, q := Percent(a, den), Percent(b, den);
      assert p * n == 100.0 * a as real;
      assert q * n == 100.0 * b as real;
      var e := p + q - 100.0;
      assert e * n == p * n + q * n - 100.0 * n;
      assert e * n <= 0.0;
      NonPositiveFactor(e, n);
    }
  }

  /** In a flat market (every return exactly 0) no day moves and no pair of moving days exists. */
  lemma {:induction false} FlatCounts(r: seq<Float>)
    requires forall i :: 0 <= i < |r| ==> r[i] == Fin(0.0)
    ensures CountDays(r, Up) == 0 && CountDays(r, Down) == 0
    ensures CountPairs(r, WasUp) == 0 && CountPairs(r, WasDown) == 0
    ensures CountPairs(r, UpAfterUp) == 0 && CountPairs(r, DownAfterDown) == 0
  {
    if r != [] {
      var init := r[..|r| - 1];
      assert forall i :: 0 <= i < |init| ==> init[i] == r[i];
      FlatCounts(init);
    }
  }

  /**
   * A flat market has every probability 0, the conditional ones through the
   * zero-denominator fallback.
   */
  lemma FlatReturns(r: seq<Float>)
    requires |r| >= 2
    requires forall i :: 0 <= i < |r| ==> r[i] == Fin(0.0)
    ensures Percent(CountDays(r, Up), |r|) == 0.0
    ensures AdvancedProbabilities(r) == AdvancedProbs(Some(0.0), Some(0.0), Some(0.0), Some(0.0), Some(0.0))
  {
    FlatCounts(r);
    ValidPairsWithoutNaN(r);
  }
}
