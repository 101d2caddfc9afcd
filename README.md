# Quarterly bar chart: factors and trend line

This project models the computation inside `plot_vbars_q` of the `dataviz`
plotting helpers. The function takes twelve month labels `f` and values `y`.
It tags the labels with quarters Q1..Q4 to group the bars, and draws one
trend line over the four quarters. The line is the minimum, maximum or mean
of a slice of `y` per quarter, selected by the `trend` string, in a colour
fixed per mode.

Two modules:

- `Stats` (`stats.dfy`): the reductions `.min()`, `.max()` and `.mean()` over
  a non-empty sequence of reals, with the facts the trend needs. The minimum
  and maximum are attained and bound every value. The mean lies between them.
- `Plotter` (`plotter.dfy`): the trend string's mode, the line colour, the
  twelve `(quarter, label)` factors, Python's clamped slice, the per-quarter
  windows `y[3k:3k+2]`, the four trend points, and the chart as a whole
  (`PlotVbarsQ`), returning `IndexError` when `f` has fewer than twelve labels.

The windows are exactly the ones the code slices: `y[0:2]`, `y[3:5]`,
`y[6:8]`, `y[9:11]`. They hold two months each, so the third month of each
quarter never reaches the line (see Findings). Slices are clamped as in
Python, so ten or eleven values still give four non-empty windows, and
values past index 10 are never read.

The docstring describes the trend as "per quarter" (dataviz/plotter.py:71),
and the factors group three bars under each quarter (dataviz/plotter.py:85-90).
Each trend point, however, reduces only the first two of those three months.
The model follows the code and records the gap as a finding.

What makes the code fail, and what it ignores:
- it raises IndexError when `f` has fewer than twelve labels, and, in min or
  max mode, raises on an empty window when `y` has fewer than ten values (the
  last window `y[9:11]` is then empty);
- it ignores labels past the twelfth and values past index 10;
- an unrecognised trend string does not fail: it silently draws the mean, and
  so does the model.

## Model

| member | source | states |
|---|---|---|
| `Plotter.ModeOf` | dataviz/plotter.py:100-112 | `'min'` selects Min, `'max'` selects Max, and every other string, recognised or not, selects Mean (each as an if-and-only-if) |
| `Plotter.DefaultTrendIsMean` | dataviz/plotter.py:62 | the default `trend='mean'` selects the mean |
| `Plotter.TrendColour` | dataviz/plotter.py:100-117 | the line is yellow exactly for min, green exactly for max, red exactly for mean |
| `Plotter.Factors` | dataviz/plotter.py:85-90 | fails with IndexError exactly when `f` has fewer than 12 labels; otherwise exactly 12 factors, entry i being `(Q(i/3+1), f[i])` |
| `Plotter.FactorsReadFirstTwelve` | dataviz/plotter.py:85-90 | two label lists give the same factors if and only if their first twelve labels agree, so labels beyond index 11 are ignored |
| `Plotter.FactorsInQuarterBlocks` | dataviz/plotter.py:85-90 | bars 3q..3q+2 carry quarter tag Q(q+1): quarters in order, three bars each |
| `Plotter.Slice` | dataviz/plotter.py:101 | Python's `s[lo:hi]`: its length is clamped to the end of `s`, and element i is `s[lo+i]` |
| `Plotter.Window` | dataviz/plotter.py:101-104 | `y[3k:3k+2]` is `[y[3k], y[3k+1]]`, or `[y[3k]]` when y ends after it, or empty |
| `Plotter.Reduce` | dataviz/plotter.py:100-116 | whichever reduction the mode picks lies between the window's minimum and maximum |
| `Plotter.Trend` | dataviz/plotter.py:100-117 | for at least ten values: exactly four points, every window non-empty, point k between the min and max of window k |
| `Plotter.TrendAt` | dataviz/plotter.py:100-117 | point k is the selected reduction of window k |
| `Plotter.TrendMinIsWindowLeast` | dataviz/plotter.py:100-105 | with `'min'`, point k equals one of y[3k], y[3k+1] and is at most each of them that exists |
| `Plotter.TrendMaxIsWindowGreatest` | dataviz/plotter.py:106-111 | with `'max'`, point k equals one of y[3k], y[3k+1] and is at least each of them that exists |
| `Plotter.TrendMeanIsWindowAverage` | dataviz/plotter.py:112-117 | with any other string, point k is (y[3k] + y[3k+1]) / 2, or y[9] alone for the last point when y has ten values |
| `Plotter.TrendModesOrdered` | dataviz/plotter.py:100-116 | for every quarter, min point <= mean point <= max point |
| `Plotter.TrendIgnoresThirdMonths` | dataviz/plotter.py:101-116 | two inputs of at least ten values, both of exactly ten or both longer, that agree on the existing indices among 0, 1, 3, 4, 6, 7, 9, 10 give the same trend in every mode, so indices 2, 5, 8, 11 and beyond never matter |
| `Plotter.PlotVbarsQ` | dataviz/plotter.py:85-117 | fails exactly when `f` is too short; otherwise carries the factors and a line over x-values Q1..Q4 whose four y-values are the trend of `y` in the selected mode, drawn in the mode's colour with width 2 |
| `Plotter.TrendLineIgnoresLabels` | dataviz/plotter.py:85-117 | the trend line is the same for any two label lists: it depends on `y` and `trend` only |
| `Plotter.AsWrittenMeanOnMonthNumbers` | dataviz/plotter.py:112-117 | on months 1..12 the drawn mean line is 1.5, 4.5, 7.5, 10.5 |
| `Plotter.AsWrittenMinMaxOnMonthNumbers` | dataviz/plotter.py:100-111 | on months 1..12 the drawn min line is 1, 4, 7, 10 and the max line 2, 5, 8, 11 |
| `Plotter.AsWrittenMeanMissesThirdMonth` | dataviz/plotter.py:113-116 | raising month 3 of months 1..12 to 100 leaves the drawn line unchanged but changes the first quarter's three-month average |
| `Plotter.QuarterWindow` | dataviz/plotter.py:71 | over twelve values, quarter k's three-month window is `[y[3k], y[3k+1], y[3k+2]]` |
| `Plotter.QuarterTrend` | dataviz/plotter.py:71 | four points, each between the min and max of all three months of its quarter |
| `Plotter.QuarterTrendAt` | dataviz/plotter.py:71 | point k of the three-month trend is the selected reduction of quarter k |
| `Plotter.QuarterTrendMeanIsQuarterAverage` | dataviz/plotter.py:71 | the three-month mean point of quarter k is the average of its three months |
| `Plotter.QuarterTrendUsesEveryMonth` | dataviz/plotter.py:71 | changing any one of the twelve months changes its quarter's three-month mean point |
| `Plotter.QuarterMeanOnMonthNumbers` | dataviz/plotter.py:71 | on months 1..12 the three-month mean line is 2, 5, 8, 11 |
| `Plotter.QuarterMinMaxOnMonthNumbers` | dataviz/plotter.py:71 | on months 1..12 the three-month min line is 1, 4, 7, 10 and the max line 3, 6, 9, 12 |
| `Stats.Min` | dataviz/plotter.py:101-104 | `.min()`: no value of the window is below the result |
| `Stats.MinIsAttained` | dataviz/plotter.py:101-104 | `.min()` returns one of the values |
| `Stats.Max` | dataviz/plotter.py:107-110 | `.max()`: no value of the window is above the result |
| `Stats.MaxIsAttained` | dataviz/plotter.py:107-110 | `.max()` returns one of the values |
| `Stats.SumBounds` | dataviz/plotter.py:113-116 | values within [lo, hi] sum to between n*lo and n*hi |
| `Stats.Mean` | dataviz/plotter.py:113-116 | `.mean()` (exact division) lies between the minimum and the maximum |
| `Stats.MeanOfOne` | dataviz/plotter.py:116 | the mean of a single value is that value |
| `Stats.MeanOfTwo` | dataviz/plotter.py:113-116 | the mean of two values is their midpoint |
| `Stats.MeanOfThree` | dataviz/plotter.py:71 | the mean of three values is their sum over three |

## Left out

- The plotting library: `output_file`, `figure`, `FactorRange`, `ColumnDataSource`, the `vbar` and `line` glyphs, `HoverTool`, `show` and every attribute set on the figure. They are a foreign object model plus file and browser output. The model stops at the values handed to them (factors, line x- and y-values, colour, width).
- The bar data source `dict(x=factors, y=y)`, which pairs factor i with y[i]. It is passed to the plotting library unchanged, and the library decides what mismatched lengths do.
- `plot_vbars` and `plot_hbar`: pure pass-throughs to the plotting library, and `plot_hbar` depends on pandas sorting and indexing, whose code is not part of this model.
- Floating point: `Stats.Mean` divides exactly over reals, with no rounding. Values are modelled as reals, and integer inputs are reals with no fractional part.
- PlotVbarsQ, Trend and QuarterTrend require at least ten values, so that every window is non-empty. Below that, numpy's `.min()`/`.max()` raise on an empty slice while `.mean()` returns NaN with a warning. Non-numeric values, and a plain Python list (which has no `.min()`), are not modelled either.

## Findings

| source | as written | input that shows it | evidently intended | confidence | as-written member | corrected member |
|---|---|---|---|---|---|---|
| dataviz/plotter.py:101-116 | every trend point reduces `y[3k:3k+2]`, the first two months of quarter k | months 1..12: the mean line is 1.5, 4.5, 7.5, 10.5, and raising month 3 to 100 leaves it unchanged | reduce `y[3k:3k+3]`, all three months the bars group under quarter k (docstring line 71): mean line 2, 5, 8, 11, and every month moves its quarter's point | high; not executed | `Plotter.AsWrittenMeanMissesThirdMonth` | `Plotter.QuarterTrendUsesEveryMonth` |

`QuarterTrend` has the same signature and precondition as `Trend` and
replaces it to fix the program. `PlotVbarsQ` keeps the two-month windows
because it describes the line the program actually draws.
