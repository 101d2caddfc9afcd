/** The computational part of `plot_vbars_q`: the twelve (quarter, label)
    factors under the bars, and the four-point trend line drawn over them.
    Everything the function hands to the plotting library (figure, data
    source, tooltips, output file) is outside this module. */
module Plotter {
  import Stats

  /** The reduction named by the `trend` argument. */
  datatype Mode = Min | Max | Mean

  /** The only failure of the modelled code: indexing a label past the end of `f`. */
  datatype Error = IndexError

  datatype Result<T> = Ok(value: T) | Err(error: Error)

  /** A bar's composite category: (quarter name, month label). */
  type Factor = (string, string)

  /** The x-values of the trend line, and the quarter tags of the factors. */
  const QUARTER_NAMES: seq<string> := ["Q1", "Q2", "Q3", "Q4"]

  /** The default value of the `trend` parameter. */
  const DEFAULT_TREND: string := "mean"

  const LINE_WIDTH: nat := 2

  /** The line glyph: x-values, y-values, colour and width. */
  datatype TrendLine = TrendLine(xs: seq<string>, ys: seq<real>, colour: string, width: nat)

  /** What the function computes before handing it to the plotting library. */
  datatype QuarterChart = QuarterChart(factors: seq<Factor>, line: TrendLine)

  // ---------------------------------------------------------------------
  // Trend selection

  /** `'min'` and `'max'` are recognised; every other string, the default
      `'mean'` and unrecognised values alike, selects the mean. */
  function ModeOf(trend: string): (m: Mode)
    ensures m == Min <==> trend == "min"
    ensures m == Max <==> trend == "max"
    ensures m == Mean <==> trend != "min" && trend != "max"
  {
    if trend == "min" then Min
    else if trend == "max" then Max
    else Mean
  }

  /** Calling without a trend argument draws the mean. */
  lemma DefaultTrendIsMean()
    ensures ModeOf(DEFAULT_TREND) == Mean
  {
  }

  /** The line colour: one per mode, so the colour tells the mode apart. */
  function TrendColour(m: Mode): (c: string)
    ensures c == "yellow" <==> m == Min
    ensures c == "green" <==> m == Max
    ensures c == "red" <==> m == Mean
  {
    match m
    case Min => "yellow"
    case Max => "green"
    case Mean => "red"
  }

  // ---------------------------------------------------------------------
  // Factor construction

  /** The twelve bar categories: label i is tagged with quarter i / 3.
      Labels past index 11 are never read; fewer than twelve labels raise
      IndexError. */
  function Factors(f: seq<string>): (r: Result<seq<Factor>>)
    ensures r.Ok? <==> |f| >= 12
    ensures r.Ok? ==> |r.value| == 12
    ensures r.Ok? ==> forall i :: 0 <= i < 12 ==> r.value[i] == (QUARTER_NAMES[i / 3], f[i])
  {
    if |f| < 12 then Err(IndexError)
    else
      Ok([("Q1", f[0]), ("Q1", f[1]), ("Q1", f[2]),
          ("Q2", f[3]), ("Q2", f[4]), ("Q2", f[5]),
          ("Q3", f[6]), ("Q3", f[7]), ("Q3", f[8]),
          ("Q4", f[9]), ("Q4", f[10]), ("Q4", f[11])])
  }

  /** Two label lists give the same factors exactly when their first twelve
      labels agree: the factors depend on f[0..11] and on nothing else. */
  lemma FactorsReadFirstTwelve(f: seq<string>, g: seq<string>)
    requires |f| >= 12 && |g| >= 12
    ensures Factors(f) == Factors(g) <==> f[..12] == g[..12]
  {
    if Factors(f) == Factors(g) {
      forall i | 0 <= i < 12 ensures f[..12][i] == g[..12][i] {
        assert Factors(f).value[i].1 == f[i];
        assert Factors(g).value[i].1 == g[i];
      }
    }
    if f[..12] == g[..12] {
      forall i | 0 <= i < 12 ensures Factors(f).value[i] == Factors(g).value[i] {
        assert f[i] == f[..12][i] && g[i] == g[..12][i];
      }
    }
  }

  /** Quarters appear in order Q1..Q4, in blocks of three consecutive bars. */
  lemma FactorsInQuarterBlocks(f: seq<string>, q: nat, j: nat)
    requires |f| >= 12 && q < 4 && j < 3
    ensures Factors(f).value[3 * q + j].0 == QUARTER_NAMES[q]
  {
    assert (3 * q + j) / 3 == q;
  }

  // ---------------------------------------------------------------------
  // Windows and the trend reduction

  /** Python's half-open slice s[lo:hi] for 0 <= lo <= hi: bounds past the
      end are clamped, so the slice may be shorter than hi - lo or empty. */
  function Slice<T>(s: seq<T>, lo: nat, hi: nat): (r: seq<T>)
    requires lo <= hi
    ensures |r| == if hi <= |s| then hi - lo else if lo <= |s| then |s| - lo else 0
    ensures forall i :: 0 <= i < |r| ==> r[i] == s[lo + i]
  {
    if |s| <= lo then [] else if |s| <= hi then s[lo..] else s[lo..hi]
  }

  /** The slice y[3k:3k+2] that all three branches reduce for quarter k:
      months 3k and 3k+1 of the quarter, or fewer where y runs out. */
  function Window(y: seq<real>, k: nat): (w: seq<real>)
    ensures 3 * k + 2 <= |y| ==> w == [y[3 * k], y[3 * k + 1]]
    ensures 3 * k + 1 == |y| ==> w == [y[3 * k]]
    ensures |y| <= 3 * k ==> w == []
  {
    Slice(y, 3 * k, 3 * k + 2)
  }

  /** The reduction `.min()`, `.max()` or `.mean()` of a non-empty window;
      whichever is chosen, it lies between the window's least and greatest value. */
  function Reduce(w: seq<real>, m: Mode): (r: real)
    requires |w| > 0
    ensures Stats.Min(w) <= r <= Stats.Max(w)
  {
    match m
    case Min => Stats.Min(w)
    case Max => Stats.Max(w)
    case Mean => Stats.Mean(w)
  }

  /** The four trend points y1..y4. Ten values make all four windows
      non-empty (the last one, y[9:11], then holds y[9] alone). */
  function Trend(y: seq<real>, m: Mode): (r: seq<real>)
    requires |y| >= 10
    ensures |r| == 4
    ensures forall k :: 0 <= k < 4 ==>
      |Window(y, k)| > 0 && Stats.Min(Window(y, k)) <= r[k] <= Stats.Max(Window(y, k))
  {
    [Reduce(Window(y, 0), m), Reduce(Window(y, 1), m),
     Reduce(Window(y, 2), m), Reduce(Window(y, 3), m)]
  }

  /** Point k of the trend is the selected reduction of window k. */
  lemma TrendAt(y: seq<real>, m: Mode, k: nat)
    requires |y| >= 10 && k < 4
    ensures |Window(y, k)| > 0 && Trend(y, m)[k] == Reduce(Window(y, k), m)
  {
  }

  /** With trend 'min', point k is the least of y[3k] and y[3k+1]
      (of those that exist) and equals one of them. */
  lemma TrendMinIsWindowLeast(y: seq<real>, k: nat)
    requires |y| >= 10 && k < 4
    ensures exists i :: 3 * k <= i < 3 * k + 2 && i < |y| && Trend(y, Min)[k] == y[i]
    ensures forall i :: 3 * k <= i < 3 * k + 2 && i < |y| ==> Trend(y, Min)[k] <= y[i]
  {
    var w := Window(y, k);
    TrendAt(y, Min, k);
    Stats.MinIsAttained(w);
    var j :| 0 <= j < |w| && w[j] == Stats.Min(w);
    assert y[3 * k + j] == Stats.Min(w);
    forall i | 3 * k <= i < 3 * k + 2 && i < |y| ensures Stats.Min(w) <= y[i] {
      assert w[i - 3 * k] == y[i];
    }
  }

  /** With trend 'max', point k is the greatest of y[3k] and y[3k+1]
      (of those that exist) and equals one of them. */
  lemma TrendMaxIsWindowGreatest(y: seq<real>, k: nat)
    requires |y| >= 10 && k < 4
    ensures exists i :: 3 * k <= i < 3 * k + 2 && i < |y| && Trend(y, Max)[k] == y[i]
    ensures forall i :: 3 * k <= i < 3 * k + 2 && i < |y| ==> y[i] <= Trend(y, Max)[k]
  {
    var w := Window(y, k);
    TrendAt(y, Max, k);
    Stats.MaxIsAttained(w);
    var j :| 0 <= j < |w| && w[j] == Stats.Max(w);
    assert y[3 * k + j] == Stats.Max(w);
    forall i | 3 * k <= i < 3 * k + 2 && i < |y| ensures y[i] <= Stats.Max(w) {
      assert w[i - 3 * k] == y[i];
    }
  }

  /** With any other trend, point k is the average of y[3k] and y[3k+1];
      when y has exactly ten values the last point is y[9] itself. */
  lemma TrendMeanIsWindowAverage(y: seq<real>, k: nat)
    requires |y| >= 10 && k < 4
    ensures 3 * k + 2 <= |y| ==> Trend(y, Mean)[k] == (y[3 * k] + y[3 * k + 1]) / 2.0
    ensures 3 * k + 2 > |y| ==> Trend(y, Mean)[k] == y[9]
  {
    TrendAt(y, Mean, k);
    if 3 * k + 2 <= |y| {
      Stats.MeanOfTwo(y[3 * k], y[3 * k + 1]);
    } else {
      Stats.MeanOfOne(y[9]);
    }
  }

  /** For every quarter the min-mode point is at most the mean-mode point,
      which is at most the max-mode point: the branches reduce the same slices. */
  lemma TrendModesOrdered(y: seq<real>, k: nat)
    requires |y| >= 10 && k < 4
    ensures Trend(y, Min)[k] <= Trend(y, Mean)[k] <= Trend(y, Max)[k]
  {
    TrendAt(y, Min, k);
    TrendAt(y, Mean, k);
    TrendAt(y, Max, k);
  }

  /** Only y[0], y[1], y[3], y[4], y[6], y[7], y[9] and y[10] (where it
      exists) are read: the third month of each quarter (indices 2, 5, 8, 11)
      and anything past index 11 never change a trend point. Whether y[10]
      exists decides the last window's length, so both inputs have ten
      values or both have more. */
  lemma TrendIgnoresThirdMonths(y: seq<real>, z: seq<real>, m: Mode)
    requires |y| >= 10 && |z| >= 10 && (|y| == 10 <==> |z| == 10)
    requires forall i :: 0 <= i < 11 && i < |y| && i % 3 != 2 ==> y[i] == z[i]
    ensures Trend(y, m) == Trend(z, m)
  {
    forall k | 0 <= k < 4 ensures Window(y, k) == Window(z, k) {
      assert y[3 * k] == z[3 * k];
      if 3 * k + 1 < |y| {
        assert y[3 * k + 1] == z[3 * k + 1];
      }
    }
  }

  // ---------------------------------------------------------------------
  // The whole computation

  /** `plot_vbars_q(out, f, y, trend=trend, ...)` up to the point where the
      results reach the plotting library: the factors first (IndexError when
      f has fewer than twelve labels), then the trend line over Q1..Q4. */
  function PlotVbarsQ(f: seq<string>, y: seq<real>, trend: string): (r: Result<QuarterChart>)
    requires |y| >= 10
    ensures r.Ok? <==> |f| >= 12
    ensures r.Ok? ==> r.value.factors == Factors(f).value
    ensures r.Ok? ==> r.value.line.xs == QUARTER_NAMES && |r.value.line.ys| == 4
    ensures r.Ok? ==> r.value.line.ys == Trend(y, ModeOf(trend))
    ensures r.Ok? ==> r.value.line.colour == TrendColour(ModeOf(trend))
    ensures r.Ok? ==> r.value.line.width == LINE_WIDTH
  {
    match Factors(f)
    case Err(e) => Err(e)
    case Ok(factors) =>
      var m := ModeOf(trend);
      Ok(QuarterChart(factors, TrendLine(QUARTER_NAMES, Trend(y, m), TrendColour(m), LINE_WIDTH)))
  }

  /** The trend line depends on y and trend only, never on the labels f. */
  lemma TrendLineIgnoresLabels(f: seq<string>, g: seq<string>, y: seq<real>, trend: string)
    requires |f| >= 12 && |g| >= 12 && |y| >= 10
    ensures PlotVbarsQ(f, y, trend).value.line == PlotVbarsQ(g, y, trend).value.line
  {
  }

  // ---------------------------------------------------------------------
  // Three-month windows

  /** The quarter k as the bars group it: the slice y[3k:3k+3]. */
  function QuarterWindow(y: seq<real>, k: nat): (w: seq<real>)
    ensures 3 * k + 3 <= |y| ==> w == [y[3 * k], y[3 * k + 1], y[3 * k + 2]]
  {
    Slice(y, 3 * k, 3 * k + 3)
  }

  /** The per-quarter trend the docstring describes: each point reduces all
      three months of its quarter. */
  function QuarterTrend(y: seq<real>, m: Mode): (r: seq<real>)
    requires |y| >= 10
    ensures |r| == 4
    ensures forall k :: 0 <= k < 4 ==>
      |QuarterWindow(y, k)| > 0 && Stats.Min(QuarterWindow(y, k)) <= r[k] <= Stats.Max(QuarterWindow(y, k))
  {
    [Reduce(QuarterWindow(y, 0), m), Reduce(QuarterWindow(y, 1), m),
     Reduce(QuarterWindow(y, 2), m), Reduce(QuarterWindow(y, 3), m)]
  }

  /** Point k of the three-month trend is the selected reduction of quarter k. */
  lemma QuarterTrendAt(y: seq<real>, m: Mode, k: nat)
    requires |y| >= 10 && k < 4
    ensures |QuarterWindow(y, k)| > 0 && QuarterTrend(y, m)[k] == Reduce(QuarterWindow(y, k), m)
  {
  }

  /** Over twelve months the mean-mode point of quarter k is the average of
      its three months. */
  lemma QuarterTrendMeanIsQuarterAverage(y: seq<real>, k: nat)
    requires |y| >= 12 && k < 4
    ensures QuarterTrend(y, Mean)[k] == (y[3 * k] + y[3 * k + 1] + y[3 * k + 2]) / 3.0
  {
    assert QuarterTrend(y, Mean)[k] == Reduce(QuarterWindow(y, k), Mean);
    Stats.MeanOfThree(y[3 * k], y[3 * k + 1], y[3 * k + 2]);
  }

  /** Every one of the twelve months influences its quarter's mean point:
      changing month i changes point i / 3. */
  lemma QuarterTrendUsesEveryMonth(y: seq<real>, i: nat, v: real)
    requires |y| >= 12 && i < 12 && v != y[i]
    ensures QuarterTrend(y[i := v], Mean)[i / 3] != QuarterTrend(y, Mean)[i / 3]
  {
    var k := i / 3;
    QuarterTrendMeanIsQuarterAverage(y, k);
    QuarterTrendMeanIsQuarterAverage(y[i := v], k);
  }

  /** The months numbered 1..12, the worked input of the quarterly chart. */
  const MONTH_NUMBERS: seq<real> := [1.0, 2.0, 3.0, 4.0, 5.0, 6.0, 7.0, 8.0, 9.0, 10.0, 11.0, 12.0]

  /** On months 1..12 the code as written draws the mean line at
      1.5, 4.5, 7.5, 10.5. */
  lemma AsWrittenMeanOnMonthNumbers()
    ensures Trend(MONTH_NUMBERS, Mean) == [1.5, 4.5, 7.5, 10.5]
  {
    var y := MONTH_NUMBERS;
    TrendMeanIsWindowAverage(y, 0);
    TrendMeanIsWindowAverage(y, 1);
    TrendMeanIsWindowAverage(y, 2);
    TrendMeanIsWindowAverage(y, 3);
  }

  /** On months 1..12 the quarter averages are 2, 5, 8, 11. */
  lemma QuarterMeanOnMonthNumbers()
    ensures QuarterTrend(MONTH_NUMBERS, Mean) == [2.0, 5.0, 8.0, 11.0]
  {
    var y := MONTH_NUMBERS;
    QuarterTrendMeanIsQuarterAverage(y, 0);
    QuarterTrendMeanIsQuarterAverage(y, 1);
    QuarterTrendMeanIsQuarterAverage(y, 2);
    QuarterTrendMeanIsQuarterAverage(y, 3);
  }

  /** Raising the third month of months 1..12 to 100 moves the first
      quarter's average but leaves every drawn point where it was. */
  lemma AsWrittenMeanMissesThirdMonth()
    ensures Trend(MONTH_NUMBERS[2 := 100.0], Mean) == Trend(MONTH_NUMBERS, Mean)
    ensures QuarterTrend(MONTH_NUMBERS[2 := 100.0], Mean)[0] != QuarterTrend(MONTH_NUMBERS, Mean)[0]
  {
    var y := MONTH_NUMBERS;
    TrendIgnoresThirdMonths(y[2 := 100.0], y, Mean);
    QuarterTrendUsesEveryMonth(y, 2, 100.0);
  }

  /** On months 1..12 the three-month min and max lines are 1, 4, 7, 10
      and 3, 6, 9, 12. */
  lemma QuarterMinMaxOnMonthNumbers()
    ensures QuarterTrend(MONTH_NUMBERS, Min) == [1.0, 4.0, 7.0, 10.0]
    ensures QuarterTrend(MONTH_NUMBERS, Max) == [3.0, 6.0, 9.0, 12.0]
  {
    var y := MONTH_NUMBERS;
    QuarterTrendAt(y, Min, 0);
    QuarterTrendAt(y, Min, 1);
    QuarterTrendAt(y, Min, 2);
    QuarterTrendAt(y, Min, 3);
    QuarterTrendAt(y, Max, 0);
    QuarterTrendAt(y, Max, 1);
    QuarterTrendAt(y, Max, 2);
    QuarterTrendAt(y, Max, 3);
  }

  /** On months 1..12 the min and max lines as written are 1, 4, 7, 10 and
      2, 5, 8, 11. */
  lemma AsWrittenMinMaxOnMonthNumbers()
    ensures Trend(MONTH_NUMBERS, Min) == [1.0, 4.0, 7.0, 10.0]
    ensures Trend(MONTH_NUMBERS, Max) == [2.0, 5.0, 8.0, 11.0]
  {
    var y := MONTH_NUMBERS;
    TrendAt(y, Min, 0);
    TrendAt(y, Min, 1);
    TrendAt(y, Min, 2);
    TrendAt(y, Min, 3);
    TrendAt(y, Max, 0);
    TrendAt(y, Max, 1);
    TrendAt(y, Max, 2);
    TrendAt(y, Max, 3);
  }
}
