/**
 * The offline "models": a 30-day momentum and a 5-year least-squares trend
 * computed from a symbol's daily closes. Both return 0.0 instead of failing.
 */
module Training {
  import opened Wrappers
  import opened Descriptive

  /** LONG_TERM_YEARS and SHORT_TERM_DAYS. */
  const LongTermYears: int := 5
  const ShortTermDays: int := 30

  /** Trading days per year used to annualise the daily slope. */
  const TradingDaysPerYear: real := 252.0

  // ------------------------------------------------------------- short term

  /** Series.iloc[k]: negative positions count from the end; out of range raises (None). */
  function PyIloc(s: seq<real>, k: int): (o: Option<real>)
    ensures o.Some? <==> -|s| <= k < |s|
    ensures 0 <= k < |s| ==> o == Some(s[k])
    ensures -|s| <= k < 0 ==> o == Some(s[|s| + k])
  {
    if 0 <= k < |s| then Some(s[k])
    else if -|s| <= k < 0 then Some(s[|s| + k])
    else None
  }

  /**
   * train_short_term_model: the percentage change from the close `days`
   * rows back to the latest close; 0.0 when there are fewer rows than
   * `days`, when the base close is 0, or when an index raises.
   */
  function TrainShortTermModel(closes: seq<real>, days: int): (m: real)
    ensures |closes| < days ==> m == 0.0
    ensures 1 <= days <= |closes| && closes[|closes| - days] == 0.0 ==> m == 0.0
    ensures closes == [] ==> m == 0.0
  {
    if |closes| < days then 0.0
    else
      match (PyIloc(closes, -days), PyIloc(closes, -1))
      case (Some(base), Some(latest)) =>
        if base == 0.0 then 0.0 else (latest - base) / base * 100.0
      case _ => 0.0
  }

  /** With a positive base close, momentum is positive iff the latest close is above it (and likewise for negative and equal). */
  lemma MomentumSign(closes: seq<real>, days: int)
    requires 1 <= days <= |closes|
    requires closes[|closes| - days] > 0.0
    ensures var m := TrainShortTermModel(closes, days);
      var base, latest := closes[|closes| - days], closes[|closes| - 1];
      (m > 0.0 <==> latest > base) && (m < 0.0 <==> latest < base) && (m == 0.0 <==> latest == base)
  {
    var base, latest := closes[|closes| - days], closes[|closes| - 1];
    var q := (latest - base) / base;
    assert q * base == latest - base;
    SignOfQuotient(latest - base, base);
  }

  lemma SignOfQuotient(a: real, b: real)
    requires b > 0.0
    ensures a / b > 0.0 <==> a > 0.0
    ensures a / b < 0.0 <==> a < 0.0
  {
    var q := a / b;
    assert q * b == a;
  }

  /** The momentum undoes exactly: the latest close is the base grown by m percent. */
  lemma MomentumRecoversLatest(closes: seq<real>, days: int)
    requires 1 <= days <= |closes|
    requires closes[|closes| - days] != 0.0
    ensures var base := closes[|closes| - days];
      base * (1.0 + TrainShortTermModel(closes, days) / 100.0) == closes[|closes| - 1]
  {
    var base, latest := closes[|closes| - days], closes[|closes| - 1];
    var q := (latest - base) / base;
    assert q * base == latest - base;
    assert TrainShortTermModel(closes, days) / 100.0 == q;
  }

  // -------------------------------------------------------------- long term

  /** One row of a symbol's daily CSV: its date as a day number and its close. */
  datatype PricePoint = PricePoint(day: int, close: real)

  predicate IncreasingDays(rows: seq<PricePoint>) {
    forall i, j :: 0 <= i < j < |rows| ==> rows[i].day < rows[j].day
  }

  /** df.index.max() */
  function LatestDay(rows: seq<PricePoint>): (d: int)
    requires |rows| > 0
    ensures exists i :: 0 <= i < |rows| && rows[i].day == d
    ensures forall i :: 0 <= i < |rows| ==> rows[i].day <= d
  {
    if |rows| == 1 then rows[0].day
    else
      var rest := LatestDay(rows[..|rows| - 1]);
      if rows[|rows| - 1].day > rest then rows[|rows| - 1].day else rest
  }

  /** df_filtered.index.min() */
  function EarliestDay(rows: seq<PricePoint>): (d: int)
    requires |rows| > 0
    ensures exists i :: 0 <= i < |rows| && rows[i].day == d
    ensures forall i :: 0 <= i < |rows| ==> d <= rows[i].day
  {
    if |rows| == 1 then rows[0].day
    else
      var rest := EarliestDay(rows[..|rows| - 1]);
      if rows[|rows| - 1].day < rest then rows[|rows| - 1].day else rest
  }

  /** df[df.index >= start]: the rows dated on or after start, in order. */
  function OnOrAfter(rows: seq<PricePoint>, start: int): (w: seq<PricePoint>)
    ensures |w| <= |rows|
    ensures forall p :: p in w <==> p in rows && p.day >= start
    ensures IncreasingDays(rows) ==> IncreasingDays(w)
  {
    if rows == [] then []
    else
      var init := OnOrAfter(rows[..|rows| - 1], start);
      var last := rows[|rows| - 1];
      assert forall p :: p in rows <==> p in rows[..|rows| - 1] || p == last;
      if last.day >= start then init + [last] else init
  }

  /** The date filter distributes over concatenation, so kept rows keep their order and multiplicity, duplicate dates included. */
  lemma {:induction false} OnOrAfterSplits(a: seq<PricePoint>, b: seq<PricePoint>, start: int)
    ensures OnOrAfter(a + b, start) == OnOrAfter(a, start) + OnOrAfter(b, start)
  {
    if b == [] {
      assert a + b == a;
    } else {
      var n := |b| - 1;
      assert (a + b)[..|a + b| - 1] == a + b[..n];
      assert (a + b)[|a + b| - 1] == b[n];
      OnOrAfterSplits(a, b[..n], start);
    }
  }

  /** A single row is kept exactly when it is dated on or after start. */
  lemma OnOrAfterOne(x: PricePoint, start: int)
    ensures OnOrAfter([x], start) == if x.day >= start then [x] else []
  {
    assert [x][..0] == [];
  }

  /**
   * The window of the last `span` days before the latest date: span stands
   * for pd.DateOffset(years=years) read as a number of days.
   */
  function Window(rows: seq<PricePoint>, span: int): seq<PricePoint> {
    if rows == [] then [] else OnOrAfter(rows, LatestDay(rows) - span)
  }

  /** The regressor: days since the first day of the window. */
  function DaysSinceStart(w: seq<PricePoint>): (x: seq<real>)
    requires |w| > 0
    ensures |x| == |w|
    ensures forall i :: 0 <= i < |w| ==> x[i] == (w[i].day - EarliestDay(w)) as real
  {
    seq(|w|, i requires 0 <= i < |w| => (w[i].day - EarliestDay(w)) as real)
  }

  function ClosesOf(w: seq<PricePoint>): (y: seq<real>)
    ensures |y| == |w|
    ensures forall i :: 0 <= i < |w| ==> y[i] == w[i].close
  {
    seq(|w|, i requires 0 <= i < |w| => w[i].close)
  }

  /** The sum of (x - mx)(y - my). */
  function SumCrossDev(x: seq<real>, y: seq<real>, mx: real, my: real): real
    requires |x| == |y|
  {
    if x == [] then 0.0
    else SumCrossDev(x[..|x| - 1], y[..|y| - 1], mx, my) + (x[|x| - 1] - mx) * (y[|y| - 1] - my)
  }

  /**
   * The ordinary least-squares slope of y on x with an intercept; when
   * every x is the same the minimum-norm solution LinearRegression returns
   * is 0.
   */
  function OlsSlope(x: seq<real>, y: seq<real>): real
    requires |x| == |y| && |x| > 0
  {
    var sxx := SumSqDev(x, Mean(x));
    if sxx == 0.0 then 0.0 else SumCrossDev(x, y, Mean(x), Mean(y)) / sxx
  }

  /** train_long_term_model: 252 times the daily slope over the window, 0.0 below two rows. */
  function TrainLongTermModel(rows: seq<PricePoint>, span: int): (slope: real)
    ensures |Window(rows, span)| < 2 ==> slope == 0.0
    ensures rows == [] ==> slope == 0.0
  {
    var w := Window(rows, span);
    if |w| < 2 then 0.0
    else OlsSlope(DaysSinceStart(w), ClosesOf(w)) * TradingDaysPerYear
  }

  // ------------------------------------------------------------- properties

  /** The window holds exactly the rows dated at most span days before the latest one. */
  lemma WindowMembership(rows: seq<PricePoint>, span: int, p: PricePoint)
    requires |rows| > 0
    ensures p in Window(rows, span) <==> p in rows && p.day >= LatestDay(rows) - span
  {
  }

  /** For span >= 0 the latest row is always in the window, so it is never empty. */
  lemma WindowHasLatestRow(rows: seq<PricePoint>, span: int)
    requires IncreasingDays(rows) && |rows| > 0 && span >= 0
    ensures rows[|rows| - 1] in Window(rows, span)
  {
    assert LatestDay(rows) == rows[|rows| - 1].day;
  }

  lemma {:induction false} CrossDevOfConstant(x: seq<real>, y: seq<real>, mx: real, c: real)
    requires |x| == |y|
    requires forall i :: 0 <= i < |y| ==> y[i] == c
    ensures SumCrossDev(x, y, mx, c) == 0.0
  {
    if x != [] {
      CrossDevOfConstant(x[..|x| - 1], y[..|y| - 1], mx, c);
    }
  }

  lemma NoCrossNoSlope(x: seq<real>, y: seq<real>)
    requires |x| == |y| && |x| > 0
    requires SumCrossDev(x, y, Mean(x), Mean(y)) == 0.0
    ensures OlsSlope(x, y) == 0.0
  {
  }

  /** Constant closes have no trend. */
  lemma ConstantClosesHaveNoTrend(rows: seq<PricePoint>, span: int, c: real)
    requires forall i :: 0 <= i < |rows| ==> rows[i].close == c
    ensures TrainLongTermModel(rows, span) == 0.0
  {
    var w := Window(rows, span);
    if |w| >= 2 {
      var x, y := DaysSinceStart(w), ClosesOf(w);
      forall i | 0 <= i < |y| ensures y[i] == c {
        assert w[i] in rows;
      }
      MeanOfConstant(y);
      CrossDevOfConstant(x, y, Mean(x), c);
      NoCrossNoSlope(x, y);
      assert TrainLongTermModel(rows, span) == OlsSlope(x, y) * TradingDaysPerYear;
    }
  }

  /** The point at t on the line a + b * t. */
  function Line(a: real, b: real, t: real): real {
    a + b * t
  }

  lemma {:induction false} SumOfLinear(x: seq<real>, y: seq<real>, a: real, b: real)
    requires |x| == |y|
    requires forall i :: 0 <= i < |y| ==> y[i] == Line(a, b, x[i])
    ensures Sum(y) == |y| as real * a + b * Sum(x)
  {
    if y != [] {
      var n := |y| - 1;
      SumOfLinear(x[..n], y[..n], a, b);
      LinearSumStep(n as real, a, b, Sum(x[..n]), Sum(y[..n]), x[n], y[n]);
    }
  }

  lemma LinearSumStep(k: real, a: real, b: real, sx: real, sy: real, xn: real, yn: real)
    requires sy == k * a + b * sx && yn == Line(a, b, xn)
    ensures sy + yn == (k + 1.0) * a + b * (sx + xn)
  {
  }

  lemma MeanOfLinear(x: seq<real>, y: seq<real>, a: real, b: real)
    requires |x| == |y| && |x| > 0
    requires forall i :: 0 <= i < |y| ==> y[i] == Line(a, b, x[i])
    ensures Mean(y) == Line(a, b, Mean(x))
  {
    SumOfLinear(x, y, a, b);
    var n := |y| as real;
    var sx, sy := Sum(x), Sum(y);
    assert sy == n * a + b * sx;
    assert (n * a + b * sx) / n == a + (b * sx) / n;
    assert (b * sx) / n == b * (sx / n);
  }

  lemma LinearTerm(xi: real, mx: real, a: real, b: real)
    ensures (xi - mx) * (Line(a, b, xi) - Line(a, b, mx)) == b * ((xi - mx) * (xi - mx))
  {
    var d := xi - mx;
    assert Line(a, b, xi) - Line(a, b, mx) == b * d;
  }

  lemma {:induction false} CrossDevOfLinear(x: seq<real>, y: seq<real>, mx: real, a: real, b: real)
    requires |x| == |y|
    requires forall i :: 0 <= i < |y| ==> y[i] == Line(a, b, x[i])
    ensures SumCrossDev(x, y, mx, Line(a, b, mx)) == b * SumSqDev(x, mx)
  {
    if x != [] {
      var n := |x| - 1;
      var my := Line(a, b, mx);
      CrossDevOfLinear(x[..n], y[..n], mx, a, b);
      LinearTerm(x[n], mx, a, b);
      LinearCrossStep(b, SumCrossDev(x[..n], y[..n], mx, my), SumSqDev(x[..n], mx), x[n] - mx, y[n] - my);
    }
  }

  lemma LinearCrossStep(b: real, cross: real, sq: real, d: real, e: real)
    requires cross == b * sq && d * e == b * (d * d)
    ensures cross + d * e == b * (sq + d * d)
  {
  }

  /** s is the square of a nonzero d, so it is positive. */
  lemma PositiveSquare(d: real, s: real)
    requires d != 0.0 && s == d * d
    ensures s > 0.0
  {
    if d > 0.0 {
      calc {
        s;
        == d * d;
        > 0.0 * d;
      }
    } else {
      var e := -d;
      calc {
        s;
        == e * e;
        > 0.0 * e;
      }
    }
  }

  lemma SquareNonNegative(d: real, s: real)
    requires s == d * d
    ensures s >= 0.0
  {
    if d != 0.0 {
      PositiveSquare(d, s);
    }
  }

  /** Some x differs from m, so the squared deviations add up to something positive. */
  lemma {:induction false} SpreadPositive(x: seq<real>, m: real, k: int)
    requires 0 <= k < |x| && x[k] != m
    ensures SumSqDev(x, m) > 0.0
  {
    var n := |x| - 1;
    var d := x[n] - m;
    var init, sq := SumSqDev(x[..n], m), d * d;
    assert SumSqDev(x, m) == init + sq;
    if k == n {
      PositiveSquare(d, sq);
      AddAbove(init, sq);
    } else {
      assert x[..n][k] == x[k];
      SpreadPositive(x[..n], m, k);
      SquareNonNegative(d, sq);
      AddAbove(sq, init);
    }
  }

  lemma AddAbove(a: real, b: real)
    requires a >= 0.0 && b > 0.0
    ensures a + b > 0.0 && b + a > 0.0
  {
  }

  /** Two different x values cannot both equal the mean. */
  lemma DistinctRegressors(x: seq<real>)
    requires |x| >= 2 && x[0] != x[1]
    ensures SumSqDev(x, Mean(x)) > 0.0
  {
    if x[0] != Mean(x) {
      SpreadPositive(x, Mean(x), 0);
    } else {
      SpreadPositive(x, Mean(x), 1);
    }
  }

  lemma SlopeOfRatio(x: seq<real>, y: seq<real>, b: real)
    requires |x| == |y| && |x| > 0
    requires SumSqDev(x, Mean(x)) > 0.0
    requires SumCrossDev(x, y, Mean(x), Mean(y)) == b * SumSqDev(x, Mean(x))
    ensures OlsSlope(x, y) == b
  {
    var sxx := SumSqDev(x, Mean(x));
    var cross := SumCrossDev(x, y, Mean(x), Mean(y));
    assert OlsSlope(x, y) == cross / sxx;
    CancelFactor(b, sxx, cross);
  }

  lemma CancelFactor(b: real, s: real, c: real)
    requires s != 0.0 && c == b * s
    ensures c / s == b
  {
  }

  /** Points on a line with at least two distinct x values have that line's slope. */
  lemma SlopeOfLine(x: seq<real>, y: seq<real>, a: real, b: real)
    requires |x| == |y| && |x| >= 2 && x[0] != x[1]
    requires forall i :: 0 <= i < |y| ==> y[i] == Line(a, b, x[i])
    ensures OlsSlope(x, y) == b
  {
    DistinctRegressors(x);
    MeanOfLinear(x, y, a, b);
    CrossDevOfLinear(x, y, Mean(x), a, b);
    SlopeOfRatio(x, y, b);
  }

  /** Every row of the window is a row of the frame, so it lies on the frame's line. */
  lemma WindowOnLine(rows: seq<PricePoint>, span: int, a: real, b: real)
    requires forall i :: 0 <= i < |rows| ==> rows[i].close == Line(a, b, rows[i].day as real)
    ensures var w := Window(rows, span);
      forall i :: 0 <= i < |w| ==> w[i].close == Line(a, b, w[i].day as real)
  {
    var w := Window(rows, span);
    forall i | 0 <= i < |w| ensures w[i].close == Line(a, b, w[i].day as real) {
      assert w[i] in rows;
      var j :| 0 <= j < |rows| && rows[j] == w[i];
    }
  }

  /** Measured from the first day, the line a + b * day is a + b * first + b * x. */
  lemma ShiftedOnLine(w: seq<PricePoint>, a: real, b: real)
    requires |w| > 0
    requires forall i :: 0 <= i < |w| ==> w[i].close == Line(a, b, w[i].day as real)
    ensures var x, y := DaysSinceStart(w), ClosesOf(w);
      forall i :: 0 <= i < |y| ==> y[i] == Line(Line(a, b, EarliestDay(w) as real), b, x[i])
  {
    var x, y := DaysSinceStart(w), ClosesOf(w);
    var first := EarliestDay(w) as real;
    forall i | 0 <= i < |y| ensures y[i] == Line(Line(a, b, first), b, x[i]) {
      assert x[i] == w[i].day as real - first;
      ShiftLine(a, b, first, w[i].day as real);
    }
  }

  lemma ShiftLine(a: real, b: real, first: real, t: real)
    ensures Line(a, b, t) == Line(Line(a, b, first), b, t - first)
  {
  }

  /**
   * Closes lying exactly on a line close = a + b * day give the annualised
   * slope 252 * b, whatever the window's starting day, as soon as the window
   * has two rows.
   */
  lemma LinearClosesRecoverTheSlope(rows: seq<PricePoint>, span: int, a: real, b: real)
    requires IncreasingDays(rows)
    requires forall i :: 0 <= i < |rows| ==> rows[i].close == Line(a, b, rows[i].day as real)
    requires |Window(rows, span)| >= 2
    ensures TrainLongTermModel(rows, span) == TradingDaysPerYear * b
  {
    var w := Window(rows, span);
    var x, y := DaysSinceStart(w), ClosesOf(w);
    WindowOnLine(rows, span, a, b);
    ShiftedOnLine(w, a, b);
    assert w[0].day < w[1].day;
    SlopeOfLine(x, y, Line(a, b, EarliestDay(w) as real), b);
  }
}
