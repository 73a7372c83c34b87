/**
 * calculate_statistics: clean the Close column, compute descriptive
 * statistics and daily-return probabilities, replace every non-finite number
 * by None, and list the finite returns in percent for the histogram.
 */
module Statistics {
  import opened Wrappers
  import opened Floats
  import opened Descriptive
  import opened Probabilities

  /** One row of the price frame: its trading day and its Close cell, None when to_numeric cannot read it. */
  datatype Row = Row(day: int, close: Option<real>)

  /** The frame passed in: whether it has a Close column, and its rows in index order. */
  datatype History = History(hasCloseColumn: bool, rows: seq<Row>)

  /** The two HTTP 500 errors the function raises. */
  datatype StatsError = InvalidHistoricalData | NoValidCloseData

  /** A value of the stats dict: a float, a date (as a day number), or None. */
  datatype Value = Number(x: Float) | Day(day: int) | Null

  /** The keys of the stats dict, in the order the dict lists them. */
  datatype Key =
    | StartDate | EndDate | MeanPrice | MedianPrice | ModePrice | StdDeviation | PriceVariance
    | Skewness | Kurtosis | PriceRange | Iqr | MinPrice | MaxPrice
    | Percentile25 | Percentile50 | Percentile75 | CoeffOfVariation
    | ProbNextDayUp | ProbNextDayDown | MeanDailyReturnPercent | StdDevDailyReturnPercent
    | CondProbUpGivenUp | CondProbDownGivenDown | Prob2DaysUpStreak | Prob2DaysDownStreak

  /** The string each key has in the JSON response. */
  function KeyName(k: Key): string {
    match k
    case StartDate => "start_date"
    case EndDate => "end_date"
    case MeanPrice => "mean"
    case MedianPrice => "median"
    case ModePrice => "mode"
    case StdDeviation => "std_deviation"
    case PriceVariance => "variance"
    case Skewness => "skewness"
    case Kurtosis => "kurtosis"
    case PriceRange => "range"
    case Iqr => "iqr"
    case MinPrice => "min"
    case MaxPrice => "max"
    case Percentile25 => "25_percentile"
    case Percentile50 => "50_percentile"
    case Percentile75 => "75_percentile"
    case CoeffOfVariation => "coeff_of_variation"
    case ProbNextDayUp => "probability_next_day_up"
    case ProbNextDayDown => "probability_next_day_down"
    case MeanDailyReturnPercent => "mean_daily_return_percent"
    case StdDevDailyReturnPercent => "std_dev_daily_return_percent"
    case CondProbUpGivenUp => "cond_prob_up_given_up"
    case CondProbDownGivenDown => "cond_prob_down_given_down"
    case Prob2DaysUpStreak => "prob_2_days_up_streak"
    case Prob2DaysDownStreak => "prob_2_days_down_streak"
  }

  /** The key a JSON name stands for, if any: the inverse of KeyName. */
  function KeyOfName(name: string): (o: Option<Key>) {
    match name
    case "start_date" => Some(StartDate)
    case "end_date" => Some(EndDate)
    case "mean" => Some(MeanPrice)
    case "median" => Some(MedianPrice)
    case "mode" => Some(ModePrice)
    case "std_deviation" => Some(StdDeviation)
    case "variance" => Some(PriceVariance)
    case "skewness" => Some(Skewness)
    case "kurtosis" => Some(Kurtosis)
    case "range" => Some(PriceRange)
    case "iqr" => Some(Iqr)
    case "min" => Some(MinPrice)
    case "max" => Some(MaxPrice)
    case "25_percentile" => Some(Percentile25)
    case "50_percentile" => Some(Percentile50)
    case "75_percentile" => Some(Percentile75)
    case "coeff_of_variation" => Some(CoeffOfVariation)
    case "probability_next_day_up" => Some(ProbNextDayUp)
    case "probability_next_day_down" => Some(ProbNextDayDown)
    case "mean_daily_return_percent" => Some(MeanDailyReturnPercent)
    case "std_dev_daily_return_percent" => Some(StdDevDailyReturnPercent)
    case "cond_prob_up_given_up" => Some(CondProbUpGivenUp)
    case "cond_prob_down_given_down" => Some(CondProbDownGivenDown)
    case "prob_2_days_up_streak" => Some(Prob2DaysUpStreak)
    case "prob_2_days_down_streak" => Some(Prob2DaysDownStreak)
    case _ => None
  }

  /** Every key's JSON name reads back as that key. */
  lemma KeyNameRoundTrip(k: Key)
    ensures KeyOfName(KeyName(k)) == Some(k)
  {
    match k
    case StartDate => assert KeyOfName(KeyName(StartDate)) == Some(StartDate);
    case EndDate => assert KeyOfName(KeyName(EndDate)) == Some(EndDate);
    case MeanPrice => assert KeyOfName(KeyName(MeanPrice)) == Some(MeanPrice);
    case MedianPrice => assert KeyOfName(KeyName(MedianPrice)) == Some(MedianPrice);
    case ModePrice => assert KeyOfName(KeyName(ModePrice)) == Some(ModePrice);
    case StdDeviation => assert KeyOfName(KeyName(StdDeviation)) == Some(StdDeviation);
    case PriceVariance => assert KeyOfName(KeyName(PriceVariance)) == Some(PriceVariance);
    case Skewness => assert KeyOfName(KeyName(Skewness)) == Some(Skewness);
    case Kurtosis => assert KeyOfName(KeyName(Kurtosis)) == Some(Kurtosis);
    case PriceRange => assert KeyOfName(KeyName(PriceRange)) == Some(PriceRange);
    case Iqr => assert KeyOfName(KeyName(Iqr)) == Some(Iqr);
    case MinPrice => assert KeyOfName(KeyName(MinPrice)) == Some(MinPrice);
    case MaxPrice => assert KeyOfName(KeyName(MaxPrice)) == Some(MaxPrice);
    case Percentile25 => assert KeyOfName(KeyName(Percentile25)) == Some(Percentile25);
    case Percentile50 => assert KeyOfName(KeyName(Percentile50)) == Some(Percentile50);
    case Percentile75 => assert KeyOfName(KeyName(Percentile75)) == Some(Percentile75);
    case CoeffOfVariation => assert KeyOfName(KeyName(CoeffOfVariation)) == Some(CoeffOfVariation);
    case ProbNextDayUp => assert KeyOfName(KeyName(ProbNextDayUp)) == Some(ProbNextDayUp);
    case ProbNextDayDown => assert KeyOfName(KeyName(ProbNextDayDown)) == Some(ProbNextDayDown);
    case MeanDailyReturnPercent => assert KeyOfName(KeyName(MeanDailyReturnPercent)) == Some(MeanDailyReturnPercent);
    case StdDevDailyReturnPercent => assert KeyOfName(KeyName(StdDevDailyReturnPercent)) == Some(StdDevDailyReturnPercent);
    case CondProbUpGivenUp => assert KeyOfName(KeyName(CondProbUpGivenUp)) == Some(CondProbUpGivenUp);
    case CondProbDownGivenDown => assert KeyOfName(KeyName(CondProbDownGivenDown)) == Some(CondProbDownGivenDown);
    case Prob2DaysUpStreak => assert KeyOfName(KeyName(Prob2DaysUpStreak)) == Some(Prob2DaysUpStreak);
    case Prob2DaysDownStreak => assert KeyOfName(KeyName(Prob2DaysDownStreak)) == Some(Prob2DaysDownStreak);
  }

  /** The 25 keys have 25 distinct JSON names, so the string-keyed dict has as many entries as the key set. */
  lemma KeyNameIsInjective(k1: Key, k2: Key)
    requires KeyName(k1) == KeyName(k2)
    ensures k1 == k2
  {
    KeyNameRoundTrip(k1);
    KeyNameRoundTrip(k2);
  }

  /** Skewness and sample excess kurtosis as pandas computes them (not modelled here). */
  datatype LibraryMoments = LibraryMoments(skewness: Float, kurtosis: Float)

  /** The pair calculate_statistics returns: cleaned_stats and daily_returns_list. */
  datatype Report = Report(stats: map<Key, Value>, histogram: seq<real>)

  function Num(x: real): Value { Number(Fin(x)) }

  function OrNull(o: Option<real>): Value {
    match o
    case Some(x) => Num(x)
    case None => Null
  }

  // ---------------------------------------------------------------- cleaning

  /** The rows dropna(subset=['Close']) keeps, in order. */
  function CleanRows(rows: seq<Row>): (c: seq<Row>)
    ensures |c| <= |rows|
    ensures forall i :: 0 <= i < |c| ==> c[i].close.Some?
    ensures forall x :: x in rows && x.close.Some? ==> x in c
    ensures forall x :: x in c ==> x in rows
  {
    if rows == [] then []
    else
      var init := CleanRows(rows[..|rows| - 1]);
      var last := rows[|rows| - 1];
      assert forall x :: x in rows ==> x in rows[..|rows| - 1] || x == last;
      if last.close.Some? then init + [last] else init
  }

  function Days(rows: seq<Row>): (d: seq<int>)
    ensures |d| == |rows|
    ensures forall i :: 0 <= i < |rows| ==> d[i] == rows[i].day
  {
    seq(|rows|, i requires 0 <= i < |rows| => rows[i].day)
  }

  function Closes(rows: seq<Row>): (c: seq<real>)
    requires forall i :: 0 <= i < |rows| ==> rows[i].close.Some?
    ensures |c| == |rows|
    ensures forall i :: 0 <= i < |rows| ==> c[i] == rows[i].close.value
  {
    seq(|rows|, i requires 0 <= i < |rows| => rows[i].close.value)
  }

  /** Cleaning distributes over concatenation, so the kept rows stay in order and keep their multiplicity. */
  lemma {:induction false} CleanRowsSplits(a: seq<Row>, b: seq<Row>)
    ensures CleanRows(a + b) == CleanRows(a) + CleanRows(b)
  {
    if b == [] {
      assert a + b == a;
    } else {
      var n := |b| - 1;
      assert (a + b)[..|a + b| - 1] == a + b[..n];
      assert (a + b)[|a + b| - 1] == b[n];
      CleanRowsSplits(a, b[..n]);
    }
  }

  /** A single row is kept exactly when its close is readable. */
  lemma CleanRowsOne(x: Row)
    ensures CleanRows([x]) == if x.close.Some? then [x] else []
  {
    assert [x][..0] == [];
  }

  /** Cleaning rows that are already clean changes nothing. */
  lemma {:induction false} CleanRowsIdempotent(rows: seq<Row>)
    ensures CleanRows(CleanRows(rows)) == CleanRows(rows)
  {
    if rows != [] {
      var init, last := rows[..|rows| - 1], rows[|rows| - 1];
      CleanRowsIdempotent(init);
      CleanRowsOne(last);
      if last.close.Some? {
        CleanRowsSplits(CleanRows(init), [last]);
      }
    }
  }

  /** to_numeric(errors='coerce') followed by dropna(inplace=True): the surviving days and closes. */
  method DropUnreadableCloses(rows: seq<Row>) returns (days: seq<int>, closes: seq<real>)
    ensures days == Days(CleanRows(rows))
    ensures closes == Closes(CleanRows(rows))
  {
    days, closes := [], [];
    var i := 0;
    while i < |rows|
      invariant 0 <= i <= |rows|
      invariant days == Days(CleanRows(rows[..i]))
      invariant closes == Closes(CleanRows(rows[..i]))
    {
      assert rows[..i + 1][..i] == rows[..i];
      if rows[i].close.Some? {
        days := days + [rows[i].day];
        closes := closes + [rows[i].close.value];
      }
      i := i + 1;
    }
    assert rows[..|rows|] == rows;
  }

  /** hist_data.index.min() */
  function FirstDay(d: seq<int>): (m: int)
    requires |d| > 0
    ensures m in d && forall x :: x in d ==> m <= x
  {
    if |d| == 1 then d[0]
    else
      var rest := FirstDay(d[..|d| - 1]);
      assert forall x :: x in d ==> x in d[..|d| - 1] || x == d[|d| - 1];
      if d[|d| - 1] < rest then d[|d| - 1] else rest
  }

  /** hist_data.index.max() */
  function LastDay(d: seq<int>): (m: int)
    requires |d| > 0
    ensures m in d && forall x :: x in d ==> x <= m
  {
    if |d| == 1 then d[0]
    else
      var rest := LastDay(d[..|d| - 1]);
      assert forall x :: x in d ==> x in d[..|d| - 1] || x == d[|d| - 1];
      if d[|d| - 1] > rest then d[|d| - 1] else rest
  }

  // ----------------------------------------------------------------- returns

  /** close[i+1] / close[i] - 1 as a double. */
  function Change(prev: real, cur: real): Float {
    Shift(Quotient(cur, prev), -1.0)
  }

  /** Series.pct_change(): one value per day after the first. */
  function PctChange(c: seq<real>): (r: seq<Float>)
    ensures |r| == if |c| < 2 then 0 else |c| - 1
    ensures forall i :: 0 <= i < |r| ==> r[i] == Change(c[i], c[i + 1])
  {
    if |c| < 2 then [] else seq(|c| - 1, i requires 0 <= i < |c| - 1 => Change(c[i], c[i + 1]))
  }

  /** Series.dropna(): drops the NaN values, keeping the order. */
  function DropNaN(r: seq<Float>): (d: seq<Float>)
    ensures |d| <= |r|
    ensures NoNaN(d)
  {
    if r == [] then []
    else DropNaN(r[..|r| - 1]) + (if r[|r| - 1].NaN? then [] else [r[|r| - 1]])
  }

  /**
   * The IEEE cases of one daily change: a finite quotient after a non-zero
   * close; after a zero close, +inf, -inf or NaN by the sign of the next close.
   */
  lemma PctChangeCases(c: seq<real>, i: int)
    requires 0 <= i < |c| - 1
    ensures |PctChange(c)| == |c| - 1
    ensures c[i] != 0.0 ==> PctChange(c)[i] == Fin(c[i + 1] / c[i] - 1.0)
    ensures c[i] == 0.0 ==>
      (PctChange(c)[i] == PosInf <==> c[i + 1] > 0.0) &&
      (PctChange(c)[i] == NegInf <==> c[i + 1] < 0.0) &&
      (PctChange(c)[i] == NaN <==> c[i + 1] == 0.0)
  {
  }

  /** dropna keeps exactly the values that are not NaN. */
  lemma {:induction false} DropNaNMembership(r: seq<Float>, x: Float)
    ensures x in DropNaN(r) <==> x in r && !x.NaN?
  {
    if r != [] {
      var init := r[..|r| - 1];
      assert r == init + [r[|r| - 1]];
      assert x in r <==> x in init || x == r[|r| - 1];
      DropNaNMembership(init, x);
    }
  }

  /** dropna distributes over concatenation, so the kept values stay in order and keep their multiplicity. */
  lemma {:induction false} DropNaNSplits(a: seq<Float>, b: seq<Float>)
    ensures DropNaN(a + b) == DropNaN(a) + DropNaN(b)
  {
    if b == [] {
      assert a + b == a;
    } else {
      var n := |b| - 1;
      assert (a + b)[..|a + b| - 1] == a + b[..n];
      assert (a + b)[|a + b| - 1] == b[n];
      DropNaNSplits(a, b[..n]);
    }
  }

  /** A single value is kept exactly when it is not NaN (infinities are kept). */
  lemma DropNaNOne(x: Float)
    ensures DropNaN([x]) == if x.NaN? then [] else [x]
  {
    assert [x][..0] == [];
  }

  /** hist_data['Close'].pct_change().dropna() */
  function DailyReturns(c: seq<real>): seq<Float> {
    DropNaN(PctChange(c))
  }

  lemma {:induction false} DropNaNKeepsNaNFree(r: seq<Float>)
    requires NoNaN(r)
    ensures DropNaN(r) == r
  {
    if r != [] {
      assert NoNaN(r[..|r| - 1]);
      DropNaNKeepsNaNFree(r[..|r| - 1]);
    }
  }

  /**
   * With no zero close there is exactly one return per day after the first,
   * r[i] = close[i+1] / close[i] - 1, all finite: the first day is dropped,
   * not zero-filled.
   */
  lemma ReturnsOfNonZeroCloses(c: seq<real>)
    requires |c| > 0
    requires forall i :: 0 <= i < |c| ==> c[i] != 0.0
    ensures |DailyReturns(c)| == |c| - 1
    ensures forall i :: 0 <= i < |c| - 1 ==> DailyReturns(c)[i] == Fin(c[i + 1] / c[i] - 1.0)
  {
    DropNaNKeepsNaNFree(PctChange(c));
  }

  predicate AllFinite(r: seq<Float>) {
    forall i :: 0 <= i < |r| ==> r[i].Fin?
  }

  function Values(r: seq<Float>): (v: seq<real>)
    requires AllFinite(r)
    ensures |v| == |r| && forall i :: 0 <= i < |r| ==> v[i] == r[i].v
  {
    seq(|r|, i requires 0 <= i < |r| => r[i].v)
  }

  /** The IEEE sum of the returns: NaN once +inf meets -inf. */
  function FloatSum(r: seq<Float>): Float {
    if r == [] then Fin(0.0) else Add(FloatSum(r[..|r| - 1]), r[|r| - 1])
  }

  lemma {:induction false} FloatSumOfFinite(r: seq<Float>)
    requires AllFinite(r)
    ensures FloatSum(r) == Fin(Sum(Values(r)))
  {
    if r != [] {
      var init := r[..|r| - 1];
      FloatSumOfFinite(init);
      assert Values(r)[..|r| - 1] == Values(init);
    }
  }

  /** daily_returns.mean() */
  function ReturnsMean(r: seq<Float>): Float
    requires |r| > 0
  {
    Scale(FloatSum(r), 1.0 / |r| as real)
  }

  /** daily_returns.var(): an infinite return makes it NaN (inf - inf in the deviations). */
  function ReturnsVariance(r: seq<Float>): Float {
    if |r| < 2 then NaN
    else if AllFinite(r) then SampleVariance(Values(r))
    else NaN
  }

  // ------------------------------------------------------------- the stats dict

  /** Every key of the stats dict. */
  const AllKeys: set<Key> := {
    StartDate, EndDate, MeanPrice, MedianPrice, ModePrice, StdDeviation, PriceVariance,
    Skewness, Kurtosis, PriceRange, Iqr, MinPrice, MaxPrice,
    Percentile25, Percentile50, Percentile75, CoeffOfVariation,
    ProbNextDayUp, ProbNextDayDown, MeanDailyReturnPercent, StdDevDailyReturnPercent,
    CondProbUpGivenUp, CondProbDownGivenDown, Prob2DaysUpStreak, Prob2DaysDownStreak
  }

  /** The closes in ascending order, as the order statistics see them. */
  function Sorted(closes: seq<real>): (s: seq<real>)
    requires |closes| > 0
    ensures |s| == |closes| && Ascending(s)
  {
    SortedEnds(closes);
    SortAscending(closes)
  }

  function Quartile(closes: seq<real>, q: real): real
    requires |closes| > 0 && 0.0 <= q <= 1.0
  {
    Quantile(Sorted(closes), q)
  }

  /** hist_data['Close'].std(): the square root of the sample variance. */
  function Std(closes: seq<real>, sqrt: real -> real): Float {
    SqrtOf(SampleVariance(closes), sqrt)
  }

  /** (std / mean) * 100 when the mean is non-zero, else 0. */
  function CoefficientOfVariation(closes: seq<real>, sqrt: real -> real): Value
    requires |closes| > 0
  {
    if Mean(closes) != 0.0 then Number(Scale(Scale(Std(closes, sqrt), 1.0 / Mean(closes)), 100.0))
    else Num(0.0)
  }

  /** up_days / total_days * 100, or 0 when there is no return. */
  function UpProbability(r: seq<Float>): real {
    Percent(CountDays(r, Up), |r|)
  }

  /** daily_returns.mean() * 100, or 0 when there is no return. */
  function MeanReturnPercent(r: seq<Float>): Value {
    if |r| > 0 then Number(Scale(ReturnsMean(r), 100.0)) else Num(0.0)
  }

  /** daily_returns.std() * 100, or 0 when there is no return. */
  function StdReturnPercent(r: seq<Float>, sqrt: real -> real): Value {
    if |r| > 0 then Number(Scale(SqrtOf(ReturnsVariance(r), sqrt), 100.0)) else Num(0.0)
  }

  /** The stats dict before cleaning, one field per key. */
  datatype RawStats = RawStats(
    startDate: Value,
    endDate: Value,
    mean: Value,
    median: Value,
    mode: Value,
    std: Value,
    variance: Value,
    skewness: Value,
    kurtosis: Value,
    range: Value,
    iqr: Value,
    min: Value,
    max: Value,
    p25: Value,
    p50: Value,
    p75: Value,
    coeffOfVariation: Value,
    probUp: Value,
    probDown: Value,
    meanReturnPercent: Value,
    stdReturnPercent: Value,
    condProbUpGivenUp: Value,
    condProbDownGivenDown: Value,
    prob2DaysUpStreak: Value,
    prob2DaysDownStreak: Value)

  /**
   * The stats dict built before cleaning. std is the square root of the
   * sample variance, as in describe(); skewness and kurtosis come from the
   * library.
   */
  function Describe(days: seq<int>, closes: seq<real>, moments: LibraryMoments, sqrt: real -> real): RawStats
    requires |closes| > 0 && |days| == |closes|
  {
    RawStats(
      startDate := Day(FirstDay(days)),
      endDate := Day(LastDay(days)),
      mean := Num(Mean(closes)),
      median := Num(Median(Sorted(closes))),
      mode := Num(Mode(closes)),
      std := Number(Std(closes, sqrt)),
      variance := Number(SampleVariance(closes)),
      skewness := Number(moments.skewness),
      kurtosis := Number(moments.kurtosis),
      range := Num(Sorted(closes)[|closes| - 1] - Sorted(closes)[0]),
      iqr := Num(Quartile(closes, 0.75) - Quartile(closes, 0.25)),
      min := Num(Sorted(closes)[0]),
      max := Num(Sorted(closes)[|closes| - 1]),
      p25 := Num(Quartile(closes, 0.25)),
      p50 := Num(Quartile(closes, 0.5)),
      p75 := Num(Quartile(closes, 0.75)),
      coeffOfVariation := CoefficientOfVariation(closes, sqrt),
      probUp := Num(UpProbability(DailyReturns(closes))),
      probDown := OrNull(AdvancedProbabilities(DailyReturns(closes)).probDownDay),
      meanReturnPercent := MeanReturnPercent(DailyReturns(closes)),
      stdReturnPercent := StdReturnPercent(DailyReturns(closes), sqrt),
      condProbUpGivenUp := OrNull(AdvancedProbabilities(DailyReturns(closes)).condProbUpGivenUp),
      condProbDownGivenDown := OrNull(AdvancedProbabilities(DailyReturns(closes)).condProbDownGivenDown),
      prob2DaysUpStreak := OrNull(AdvancedProbabilities(DailyReturns(closes)).prob2DaysUpStreak),
      prob2DaysDownStreak := OrNull(AdvancedProbabilities(DailyReturns(closes)).prob2DaysDownStreak))
  }

  /** The value under key k. */
  function Field(s: RawStats, k: Key): Value {
    match k
    case StartDate => s.startDate
    case EndDate => s.endDate
    case MeanPrice => s.mean
    case MedianPrice => s.median
    case ModePrice => s.mode
    case StdDeviation => s.std
    case PriceVariance => s.variance
    case Skewness => s.skewness
    case Kurtosis => s.kurtosis
    case PriceRange => s.range
    case Iqr => s.iqr
    case MinPrice => s.min
    case MaxPrice => s.max
    case Percentile25 => s.p25
    case Percentile50 => s.p50
    case Percentile75 => s.p75
    case CoeffOfVariation => s.coeffOfVariation
    case ProbNextDayUp => s.probUp
    case ProbNextDayDown => s.probDown
    case MeanDailyReturnPercent => s.meanReturnPercent
    case StdDevDailyReturnPercent => s.stdReturnPercent
    case CondProbUpGivenUp => s.condProbUpGivenUp
    case CondProbDownGivenDown => s.condProbDownGivenDown
    case Prob2DaysUpStreak => s.prob2DaysUpStreak
    case Prob2DaysDownStreak => s.prob2DaysDownStreak
  }

  /** The record as a dict over every key. */
  function StatsMap(s: RawStats): (m: map<Key, Value>)
    ensures m.Keys == AllKeys
    ensures forall k :: k in AllKeys ==> m[k] == Field(s, k)
  {
    map k | k in AllKeys :: Field(s, k)
  }

  /** The stats dict built before cleaning. */
  function RawStatistics(days: seq<int>, closes: seq<real>, moments: LibraryMoments, sqrt: real -> real)
    : (m: map<Key, Value>)
    requires |closes| > 0 && |days| == |closes|
    ensures m.Keys == AllKeys
  {
    StatsMap(Describe(days, closes, moments, sqrt))
  }

  /** A value that may leave the engine: not a NaN or infinite number. */
  predicate IsClean(v: Value) {
    v.Number? ==> v.x.Fin?
  }

  /** One step of the cleaning loop: a non-finite number becomes None, anything else passes. */
  function Sanitised(v: Value): (c: Value)
    ensures IsClean(c)
    ensures c == v || c == Null
    ensures IsClean(v) ==> c == v
  {
    if v.Number? && !v.x.Fin? then Null else v
  }

  function SanitisedMap(m: map<Key, Value>): (c: map<Key, Value>)
    ensures c.Keys == m.Keys
  {
    map k | k in m :: Sanitised(m[k])
  }

  /** The loop that builds cleaned_stats from stats. */
  method Sanitise(stats: map<Key, Value>) returns (cleaned: map<Key, Value>)
    ensures cleaned.Keys == stats.Keys
    ensures forall k :: k in stats ==> cleaned[k] == Sanitised(stats[k])
  {
    cleaned := map[];
    var remaining := stats.Keys;
    while remaining != {}
      invariant remaining <= stats.Keys
      invariant cleaned.Keys == stats.Keys - remaining
      invariant forall k :: k in cleaned ==> cleaned[k] == Sanitised(stats[k])
      decreases remaining
    {
      var k :| k in remaining;
      cleaned := cleaned[k := Sanitised(stats[k])];
      remaining := remaining - {k};
    }
  }

  /** round(r * 100, 4) for every finite return, in order. */
  function Histogram(r: seq<Float>): (h: seq<real>)
    ensures |h| <= |r|
  {
    if r == [] then []
    else
      var last := r[|r| - 1];
      Histogram(r[..|r| - 1]) + (if last.Fin? then [Round(last.v * 100.0, 4)] else [])
  }

  /** The histogram distributes over concatenation, so its entries follow the order of the returns. */
  lemma {:induction false} HistogramSplits(a: seq<Float>, b: seq<Float>)
    ensures Histogram(a + b) == Histogram(a) + Histogram(b)
  {
    if b == [] {
      assert a + b == a;
    } else {
      var n := |b| - 1;
      assert (a + b)[..|a + b| - 1] == a + b[..n];
      assert (a + b)[|a + b| - 1] == b[n];
      HistogramSplits(a, b[..n]);
    }
  }

  /** A single return contributes round(r * 100, 4) when it is finite, and nothing when it is infinite or NaN. */
  lemma HistogramOne(x: Float)
    ensures Histogram([x]) == if x.Fin? then [Round(x.v * 100.0, 4)] else []
  {
    assert [x][..0] == [];
  }

  /** The list comprehension that builds daily_returns_list. */
  method HistogramList(r: seq<Float>) returns (h: seq<real>)
    ensures h == Histogram(r)
  {
    h := [];
    var i := 0;
    while i < |r|
      invariant 0 <= i <= |r|
      invariant h == Histogram(r[..i])
    {
      assert r[..i + 1][..i] == r[..i];
      if r[i].Fin? {
        h := h + [Round(r[i].v * 100.0, 4)];
      }
      i := i + 1;
    }
    assert r[..|r|] == r;
  }

  /** The cleaned statistics of a non-empty cleaned series. */
  function Stats(days: seq<int>, closes: seq<real>, moments: LibraryMoments, sqrt: real -> real)
    : map<Key, Value>
    requires |closes| > 0 && |days| == |closes|
  {
    SanitisedMap(RawStatistics(days, closes, moments, sqrt))
  }

  lemma StatsAreCleanedValues(days: seq<int>, closes: seq<real>, moments: LibraryMoments, sqrt: real -> real)
    requires |closes| > 0 && |days| == |closes|
    ensures Stats(days, closes, moments, sqrt).Keys == AllKeys
    ensures forall k :: k in AllKeys ==> Stats(days, closes, moments, sqrt)[k] == Field(Cleaned(Describe(days, closes, moments, sqrt)), k)
  {
  }

  method CalculateStatistics(history: History, moments: LibraryMoments, sqrt: real -> real)
    returns (result: Result<Report, StatsError>)
    ensures result == Failure(InvalidHistoricalData) <==> history.rows == [] || !history.hasCloseColumn
    ensures result == Failure(NoValidCloseData) <==>
      history.rows != [] && history.hasCloseColumn && CleanRows(history.rows) == []
    ensures result.Success? ==>
      var clean := CleanRows(history.rows);
      |clean| > 0 &&
      result.value == Report(Stats(Days(clean), Closes(clean), moments, sqrt), Histogram(DailyReturns(Closes(clean))))
    ensures result.Success? ==> forall k :: k in result.value.stats ==> IsClean(result.value.stats[k])
  {
    if history.rows == [] || !history.hasCloseColumn {
      return Failure(InvalidHistoricalData);
    }
    var days, closes := DropUnreadableCloses(history.rows);
    if |closes| == 0 {
      return Failure(NoValidCloseData);
    }
    var stats := RawStatistics(days, closes, moments, sqrt);
    var cleaned := Sanitise(stats);
    var histogram := HistogramList(DailyReturns(closes));
    result := Success(Report(cleaned, histogram));
  }

  // ------------------------------------------------------------- properties

  predicate Finite(v: Value) {
    v.Number? && v.x.Fin?
  }

  /** cleaned_stats as a record: every field sanitised. */
  function Cleaned(s: RawStats): (c: RawStats)
    ensures forall k :: Field(c, k) == Sanitised(Field(s, k))
  {
    RawStats(
      Sanitised(s.startDate),
      Sanitised(s.endDate),
      Sanitised(s.mean),
      Sanitised(s.median),
      Sanitised(s.mode),
      Sanitised(s.std),
      Sanitised(s.variance),
      Sanitised(s.skewness),
      Sanitised(s.kurtosis),
      Sanitised(s.range),
      Sanitised(s.iqr),
      Sanitised(s.min),
      Sanitised(s.max),
      Sanitised(s.p25),
      Sanitised(s.p50),
      Sanitised(s.p75),
      Sanitised(s.coeffOfVariation),
      Sanitised(s.probUp),
      Sanitised(s.probDown),
      Sanitised(s.meanReturnPercent),
      Sanitised(s.stdReturnPercent),
      Sanitised(s.condProbUpGivenUp),
      Sanitised(s.condProbDownGivenDown),
      Sanitised(s.prob2DaysUpStreak),
      Sanitised(s.prob2DaysDownStreak))
  }

  /**
   * The price-level fields agree with each other: range = max - min,
   * iqr = p75 - p25, min <= p25 <= p50 <= p75 <= max, the median is the 50th
   * percentile, min and max are the smallest and largest close, and the
   * dates are the first and last day of the cleaned series.
   */
  lemma PriceFieldsAgree(days: seq<int>, closes: seq<real>, moments: LibraryMoments, sqrt: real -> real)
    requires |closes| > 0 && |days| == |closes|
    ensures var s := Cleaned(Describe(days, closes, moments, sqrt));
      Finite(s.min) && Finite(s.max) && Finite(s.range) && Finite(s.iqr) &&
      Finite(s.p25) && Finite(s.p50) && Finite(s.p75) &&
      s.range.x.v == s.max.x.v - s.min.x.v &&
      s.iqr.x.v == s.p75.x.v - s.p25.x.v &&
      s.min.x.v <= s.p25.x.v <= s.p50.x.v <= s.p75.x.v <= s.max.x.v &&
      s.median == s.p50 &&
      s.min.x.v in closes && s.max.x.v in closes &&
      (forall x :: x in closes ==> s.min.x.v <= x <= s.max.x.v)
  {
    SortedEnds(closes);
    var sorted := SortAscending(closes);
    QuartilesInOrder(sorted);
    MedianIsMiddleQuantile(sorted);
  }

  lemma DatesAreTheEnds(days: seq<int>, closes: seq<real>, moments: LibraryMoments, sqrt: real -> real)
    requires |closes| > 0 && |days| == |closes|
    ensures var s := Cleaned(Describe(days, closes, moments, sqrt));
      s.startDate.Day? && s.endDate.Day? &&
      s.startDate.day in days && s.endDate.day in days &&
      forall d :: d in days ==> s.startDate.day <= d <= s.endDate.day
  {
  }

  /**
   * One close: the sample variance and std are NaN and become None, the
   * spread is zero and every location statistic is that close.
   */
  lemma SingleClosePriceFields(days: seq<int>, closes: seq<real>, moments: LibraryMoments, sqrt: real -> real)
    requires |closes| == 1 && |days| == 1
    ensures var s := Cleaned(Describe(days, closes, moments, sqrt));
      s.variance == Null && s.std == Null &&
      s.range == Num(0.0) && s.iqr == Num(0.0) &&
      s.mean == Num(closes[0]) && s.median == Num(closes[0]) && s.mode == Num(closes[0]) &&
      s.coeffOfVariation == (if closes[0] != 0.0 then Null else Num(0.0))
  {
    assert Sum(closes) == closes[0] by {
      assert closes[..0] == [];
    }
    assert SortAscending(closes[1..]) == [];
    assert Sorted(closes) == closes;
  }

  /**
   * One close: there is no return, so the up probability and the return
   * moments fall back to 0, every pair probability is None, and the
   * histogram is empty.
   */
  lemma SingleCloseReturnFields(days: seq<int>, closes: seq<real>, moments: LibraryMoments, sqrt: real -> real)
    requires |closes| == 1 && |days| == 1
    ensures var s := Cleaned(Describe(days, closes, moments, sqrt));
      s.probUp == Num(0.0) && s.probDown == Null &&
      s.meanReturnPercent == Num(0.0) && s.stdReturnPercent == Num(0.0) &&
      s.condProbUpGivenUp == Null && s.condProbDownGivenDown == Null &&
      s.prob2DaysUpStreak == Null && s.prob2DaysDownStreak == Null &&
      Histogram(DailyReturns(closes)) == []
  {
    assert DailyReturns(closes) == [];
  }

  /**
   * With at least two returns every day-pair probability is present and in
   * [0, 100]: the valid-pair count is never zero, because dropna removed
   * every NaN, so the zero-valid branch is never taken from here.
   */
  lemma PairProbabilitiesPresent(days: seq<int>, closes: seq<real>, moments: LibraryMoments, sqrt: real -> real)
    requires |closes| > 0 && |days| == |closes|
    requires |DailyReturns(closes)| >= 2
    ensures var s := Cleaned(Describe(days, closes, moments, sqrt));
      Finite(s.probDown) &&
      Finite(s.condProbUpGivenUp) && Finite(s.condProbDownGivenDown) &&
      Finite(s.prob2DaysUpStreak) && Finite(s.prob2DaysDownStreak) &&
      0.0 <= s.condProbUpGivenUp.x.v <= 100.0 &&
      0.0 <= s.condProbDownGivenDown.x.v <= 100.0 &&
      s.prob2DaysUpStreak.x.v + s.prob2DaysDownStreak.x.v <= 100.0
  {
    var r := DailyReturns(closes);
    ValidPairsWithoutNaN(r);
    StreaksAtMost100(r);
  }

  /** The up-day and down-day probabilities add up to at most 100. */
  lemma UpAndDownAtMost100(r: seq<Float>)
    requires |r| >= 2
    ensures AdvancedProbabilities(r).probDownDay.Some?
    ensures UpProbability(r) + AdvancedProbabilities(r).probDownDay.value <= 100.0
  {
    UpAndDownDaysDisjoint(r);
    PercentsAdd(CountDays(r, Up), CountDays(r, Down), |r|);
  }

  /** a is the non-negative square root of b. */
  predicate IsRootOf(a: real, b: real) {
    a >= 0.0 && a * a == b
  }

  /**
   * With a square root that is one, the close-price std is non-negative and
   * squares back to the variance, for two closes or more.
   */

  lemma StdSquaresToVariance(days: seq<int>, closes: seq<real>, moments: LibraryMoments, sqrt: real -> real)
    requires |closes| >= 2 && |days| == |closes|
    requires forall x :: x >= 0.0 ==> sqrt(x) >= 0.0 && sqrt(x) * sqrt(x) == x
    ensures var s := Cleaned(Describe(days, closes, moments, sqrt));
      Finite(s.std) && Finite(s.variance) && IsRootOf(s.std.x.v, s.variance.x.v)
  {
    var v := SampleVariance(closes);
    var root := sqrt(v.v);
    assert IsRootOf(root, v.v);
    var d := Describe(days, closes, moments, sqrt);
    assert d.std == Num(root);
    assert d.variance == Num(v.v);
    var c := Cleaned(d);
    assert c.std == Num(root) && c.variance == Num(v.v);
  }

  /** daily_returns_list holds one rounded percentage per return when every return is finite. */
  lemma {:induction false} HistogramOfFinite(r: seq<Float>)
    requires AllFinite(r)
    ensures |Histogram(r)| == |r|
    ensures forall i :: 0 <= i < |r| ==> Histogram(r)[i] == Round(r[i].v * 100.0, 4)
  {
    if r != [] {
      var init := r[..|r| - 1];
      assert AllFinite(init);
      HistogramOfFinite(init);
    }
  }

  lemma SelfQuotient(c: real)
    requires c != 0.0
    ensures c / c == 1.0
  {
  }

  /** With a constant non-zero close every return is exactly 0. */
  lemma ConstantReturns(closes: seq<real>)
    requires |closes| >= 2
    requires forall i :: 0 <= i < |closes| ==> closes[i] == closes[0]
    requires closes[0] != 0.0
    ensures |DailyReturns(closes)| == |closes| - 1
    ensures forall i :: 0 <= i < |DailyReturns(closes)| ==> DailyReturns(closes)[i] == Fin(0.0)
  {
    ReturnsOfNonZeroCloses(closes);
    var r := DailyReturns(closes);
    var c := closes[0];
    SelfQuotient(c);
    forall i | 0 <= i < |r|
      ensures r[i] == Fin(0.0)
    {
      assert r[i] == Fin(closes[i + 1] / closes[i] - 1.0);
      assert closes[i + 1] / closes[i] == c / c;
    }
  }

  /**
   * A constant series has zero variance, std, range and iqr; its mean is the
   * close and its coefficient of variation is 0.
   */
  lemma ConstantClosesPriceFields(days: seq<int>, closes: seq<real>, moments: LibraryMoments, sqrt: real -> real)
    requires |closes| >= 2 && |days| == |closes|
    requires forall i :: 0 <= i < |closes| ==> closes[i] == closes[0]
    requires sqrt(0.0) == 0.0
    ensures var s := Cleaned(Describe(days, closes, moments, sqrt));
      s.variance == Num(0.0) && s.std == Num(0.0) && s.range == Num(0.0) && s.iqr == Num(0.0) &&
      s.mean == Num(closes[0]) && s.coeffOfVariation == Num(0.0)
  {
    VarianceOfConstant(closes);
    MeanOfConstant(closes);
    assert Std(closes, sqrt) == Fin(0.0);
    assert CoefficientOfVariation(closes, sqrt) == Num(0.0);
    SortedEnds(closes);
    var sorted := Sorted(closes);
    assert sorted[0] in closes && sorted[|closes| - 1] in closes;
    assert sorted[0] == closes[0] && sorted[|closes| - 1] == closes[0];
    assert Quartile(closes, 0.25) == closes[0] && Quartile(closes, 0.75) == closes[0];
  }

  /**
   * A constant non-zero series over three days or more: every up, down,
   * conditional and streak probability is 0, and so are the mean and std of
   * the returns.
   */
  lemma ConstantClosesReturnFields(days: seq<int>, closes: seq<real>, moments: LibraryMoments, sqrt: real -> real)
    requires |closes| >= 3 && |days| == |closes|
    requires forall i :: 0 <= i < |closes| ==> closes[i] == closes[0]
    requires closes[0] != 0.0
    requires sqrt(0.0) == 0.0
    ensures var s := Cleaned(Describe(days, closes, moments, sqrt));
      s.probUp == Num(0.0) && s.probDown == Num(0.0) &&
      s.condProbUpGivenUp == Num(0.0) && s.condProbDownGivenDown == Num(0.0) &&
      s.prob2DaysUpStreak == Num(0.0) && s.prob2DaysDownStreak == Num(0.0) &&
      s.meanReturnPercent == Num(0.0) && s.stdReturnPercent == Num(0.0)
  {
    var r := DailyReturns(closes);
    ConstantReturns(closes);
    FlatReturns(r);
    FlatReturnMean(r);
    FlatReturnStd(r, sqrt);
  }

  /** Returns that are all exactly 0 have mean 0. */
  lemma FlatReturnMean(r: seq<Float>)
    requires |r| >= 1
    requires forall i :: 0 <= i < |r| ==> r[i] == Fin(0.0)
    ensures MeanReturnPercent(r) == Num(0.0)
  {
    assert AllFinite(r);
    var v := Values(r);
    SumOfConstant(v, 0.0);
    assert Sum(v) == 0.0;
    FloatSumOfFinite(r);
    assert FloatSum(r) == Fin(0.0);
    var k := 1.0 / |r| as real;
    assert 0.0 * k == 0.0;
    assert ReturnsMean(r) == Fin(0.0);
  }

  /** Two or more returns that are all exactly 0 have std 0. */
  lemma FlatReturnStd(r: seq<Float>, sqrt: real -> real)
    requires |r| >= 2
    requires forall i :: 0 <= i < |r| ==> r[i] == Fin(0.0)
    requires sqrt(0.0) == 0.0
    ensures StdReturnPercent(r, sqrt) == Num(0.0)
  {
    assert AllFinite(r);
    VarianceOfConstant(Values(r));
    assert ReturnsVariance(r) == Fin(0.0);
  }

  /** With a constant non-zero close every histogram entry is 0. */
  lemma ConstantClosesHistogram(closes: seq<real>)
    requires |closes| >= 2
    requires forall i :: 0 <= i < |closes| ==> closes[i] == closes[0]
    requires closes[0] != 0.0
    ensures Histogram(DailyReturns(closes)) == seq(|closes| - 1, i => 0.0)
  {
    var r := DailyReturns(closes);
    ConstantReturns(closes);
    HistogramOfFinite(r);
    RoundOfZero(4);
    forall i | 0 <= i < |r|
      ensures Histogram(r)[i] == 0.0
    {
      assert r[i].v * 100.0 == 0.0;
    }
  }

  // ----------------------------------------------------------- a worked case

  /** Five closes with one rise, one fall, one flat day and one rise again. */
  const ExampleCloses: seq<real> := [100.0, 102.0, 101.0, 101.0, 105.0]

  lemma ExampleReturns()
    ensures DailyReturns(ExampleCloses) == [Fin(0.02), Fin(-1.0 / 102.0), Fin(0.0), Fin(4.0 / 101.0)]
  {
    ReturnsOfNonZeroCloses(ExampleCloses);
  }

  /**
   * Two up days out of four give 50; one down day gives 25; the only up day
   * is followed by a fall and the only down day by a flat day, so both
   * conditional probabilities and both streaks are 0.
   */
  lemma ExampleProbabilities()
    ensures UpProbability(DailyReturns(ExampleCloses)) == 50.0
    ensures AdvancedProbabilities(DailyReturns(ExampleCloses)) ==
      AdvancedProbs(Some(25.0), Some(0.0), Some(0.0), Some(0.0), Some(0.0))
  {
    ExampleReturns();
    var r := DailyReturns(ExampleCloses);
    var r3, r2, r1 := r[..3], r[..2], r[..1];
    assert r3[..2] == r2 && r2[..1] == r1 && r1[..0] == [];
    assert CountDays(r1, Up) == 1 && CountDays(r1, Down) == 0;
    assert CountDays(r2, Up) == 1 && CountDays(r2, Down) == 1;
    assert CountDays(r3, Up) == 1 && CountDays(r3, Down) == 1;
    assert CountDays(r, Up) == 2 && CountDays(r, Down) == 1;
    assert CountPairs(r, Valid) == 3;
    assert CountPairs(r, WasUp) == 1 && CountPairs(r, UpAfterUp) == 0;
    assert CountPairs(r, WasDown) == 1 && CountPairs(r, DownAfterDown) == 0;
  }

  /** The histogram list: each return in percent, rounded half-even to four places. */
  lemma ExampleHistogram()
    ensures Histogram(DailyReturns(ExampleCloses)) == [2.0, -0.9804, 0.0, 3.9604]
  {
    ExampleReturns();
    var r := DailyReturns(ExampleCloses);
    HistogramOfFinite(r);
    assert Pow10(4) == 10000.0;
    assert RoundHalfEven(2.0, 10000.0) == 20000;
    assert RoundHalfEven(-100.0 / 102.0, 10000.0) == -9804;
    assert RoundHalfEven(0.0, 10000.0) == 0;
    assert RoundHalfEven(400.0 / 101.0, 10000.0) == 39604;
  }

  /**
   * A zero close followed by a rise: the first return is +inf, which dropna
   * keeps and the histogram leaves out.
   */
  lemma ZeroCloseHistogram()
    ensures DailyReturns([0.0, 5.0, 10.0]) == [PosInf, Fin(1.0)]
    ensures Histogram(DailyReturns([0.0, 5.0, 10.0])) == [100.0]
  {
    var r := [PosInf, Fin(1.0)];
    assert PctChange([0.0, 5.0, 10.0]) == r;
    DropNaNKeepsNaNFree(r);
    assert r == [PosInf] + [Fin(1.0)];
    HistogramSplits([PosInf], [Fin(1.0)]);
    HistogramOne(PosInf);
    HistogramOne(Fin(1.0));
    assert Pow10(4) == 10000.0;
    assert RoundHalfEven(100.0, 10000.0) == 1000000;
  }
}
