# Gas-sensor dashboard: a Dafny model

This project models the logic of a small gas-sensor (MQ7, ppm) monitoring
system:

- the React dashboard's pure helpers (`utils.js`):
  - value formatting;
  - the three-level classifier;
  - the simulated reading;
  - statistics with a 5-against-5 trend;
  - the validity check;
  - the CSV export text.
- The Web-Serial hook (`useSerialConnection.js`):
  - the connection state;
  - the read loop that splits each decoded chunk into lines, trims and parses them, and feeds every number into a 50-entry history.
- The dashboard's simulated data tick, which keeps a 15-entry history, and the geometry of its SVG chart (`SensorDashboard.js`).
- The Python plotting script (`teste_novo.py`):
  - averaging of up to five serial samples, with a two-standard-deviation outlier filter and a bounded number of attempts;
  - a moving average of three;
  - the parallel lists the plot is drawn from.

The files, and the part of the system each one models:

| file | models |
|---|---|
| `wrappers.dfy` | `Option` |
| `numbers.dfy` | `Math.round` as floor(x + 0.5); sums, means, minimum and maximum; decimal rendering of integers |
| `text.dfy` | `split` and `join` on one character; trimming for JavaScript's and Python's whitespace sets |
| `config.dfy` | the level bounds, colours, labels and the simulator's base value and range |
| `sensor_data.dfy` | history entries and the bounded append `[...prev, entry].slice(-cap)`, plus runs of such appends |
| `utils.dfy` | `utils.js` |
| `serial_connection.dfy` | `useSerialConnection.js` (class `SerialHook`) |
| `dashboard.dfy` | `generateData` (class `SensorDashboard`) |
| `simple_chart.dfy` | `SimpleChart`'s coordinates |
| `smoothing.dfy` | `teste_novo.py`: the functions, the sampling loop and class `PlotHistory` for `main`'s lists |

Parameters stand in for the environment:

- The clock text and each `Math.random()` draw: a `Stamp`, with the draw a `Fraction` in [0, 1).
- `Math.sin(...)`: a real in [-1, 1].
- JavaScript's `parseFloat` and Python's `float()`: functions `string -> Option<real>`, with `None` for NaN or a `ValueError`.
  - They are kept apart.
  - `parseFloat` accepts a numeric prefix.
  - `float()` does not.
- The serial port:
  - for the hook, a sequence of decoded chunks;
  - for the Python script, one `SerialEvent` per loop iteration (`Idle`, `Undecodable` or `Line`).

Numbers are mathematical reals.

Where the code departs from its own configuration, comments and on-screen text, the model follows the code:

- Levels are decided by the two upper bounds alone (`value <= 350`, `value <= 450`). `MEDIUM.MIN` (351) and `HIGH.MIN` (451) in `config.js`, and the dashboard's level text "entre 351 e 450 ppm", are never consulted, so 350.5 is Medium (`Utils.LowerBoundsNotConsulted`).
- The serial path does not call `isValidSensorValue`, whose comment gives 0..1000 ppm as the valid range. Every number `parseFloat` reads is fed, even when it lies outside 0..1000.
- The CSV export does not quote its fields. Reading it back gives the rows only when no field holds a comma or a line break (`Utils.CsvRoundTrip`, `Utils.CsvCommaInTimeBreaksRow`).
- With the previous 5-point mean at zero or below, the trend rule is not the plain ±2 % rule (`Utils.TrendRule`).

## Model

| member | source | states |
|---|---|---|
| Numbers.Sum | telagraficosv1/src/utils/utils.js:88 | `reduce((sum, val) => sum + val, 0)`, the sum of the values; characterised by Numbers.MeanBetweenMinAndMax and Numbers.MeanWithin |
| Numbers.Mean | telagraficosv1/src/utils/utils.js:88 | the sum divided by the count, for a non-empty sequence; lies between the minimum and the maximum (Numbers.MeanBetweenMinAndMax, Numbers.MeanWithin) |
| Numbers.Round | telagraficosv1/src/utils/utils.js:53 | Math.round: the result is within one half of x, with the half-way case going up |
| Numbers.RoundMonotone | telagraficosv1/src/utils/utils.js:105-108 | rounding keeps the order of its arguments |
| Numbers.SeqMin | telagraficosv1/src/utils/utils.js:86 | Math.min(...values) is one of the values and no larger than any of them |
| Numbers.SeqMax | telagraficosv1/src/utils/utils.js:87 | Math.max(...values) is one of the values and no smaller than any of them |
| Numbers.MeanBetweenMinAndMax | telagraficosv1/src/utils/utils.js:86-88 | the average lies between the minimum and the maximum |
| Numbers.MeanWithin | V1_PlotGraph/teste_novo.py:73 | the mean of values that all lie in [lo, hi] lies in [lo, hi] |
| Numbers.NatToDecimal | telagraficosv1/src/utils/utils.js:11 | the decimal text of a natural number is non-empty digits without a leading zero |
| Numbers.DecimalRoundTrip | telagraficosv1/src/utils/utils.js:11 | reading back the decimal text of n gives n |
| Numbers.IntDecimalRoundTrip | telagraficosv1/src/utils/utils.js:11 | the decimal text of an integer, with its sign, reads back as that integer |
| Text.Join | telagraficosv1/src/utils/utils.js:149-155 | `join(sep)`: the parts with one separator between neighbours; inverse of Split (Text.JoinSplit, Text.SplitJoin) |
| Text.Split | telagraficosv1/src/hooks/useSerialConnection.js:50 | `split('\n')` always yields at least one part |
| Text.SplitExcludesSeparator | telagraficosv1/src/hooks/useSerialConnection.js:50 | no part of a split holds the separator |
| Text.SplitWithoutSeparator | telagraficosv1/src/hooks/useSerialConnection.js:50 | a text without the separator splits into itself alone |
| Text.SplitConcat | telagraficosv1/src/hooks/useSerialConnection.js:50 | splitting a + sep + b gives the parts of a followed by the parts of b |
| Text.JoinSplit | telagraficosv1/src/utils/utils.js:148-155 | joining the parts of a split gives back the text |
| Text.SplitJoin | telagraficosv1/src/utils/utils.js:148-155 | splitting a join of separator-free parts gives back the parts |
| Text.JoinCons | telagraficosv1/src/utils/utils.js:148-155 | a character put in front of the first part comes first in the join |
| Text.JoinExcludes | telagraficosv1/src/utils/utils.js:148-155 | a join has no character c when neither the parts nor the separator hold one |
| Text.SkipForward | telagraficosv1/src/hooks/useSerialConnection.js:53 | the scan from the front stops at the first non-whitespace character, everything it passes being whitespace |
| Text.SkipBackward | telagraficosv1/src/hooks/useSerialConnection.js:53 | the scan from the back stops just after the last non-whitespace character, everything it passes being whitespace |
| Text.Strip | telagraficosv1/src/hooks/useSerialConnection.js:53 | trimming never lengthens the text |
| Text.StripSpec | telagraficosv1/src/hooks/useSerialConnection.js:53 | trim is empty iff the text is all whitespace; otherwise it is the contiguous middle of the text, with whitespace only around it and non-whitespace at both ends |
| Text.StripNothing | telagraficosv1/src/hooks/useSerialConnection.js:53 | a text with no whitespace at either end trims to itself |
| Text.StripPadding | telagraficosv1/src/hooks/useSerialConnection.js:53 | surrounding whitespace never changes the result of trim |
| Text.PaddedStart | telagraficosv1/src/hooks/useSerialConnection.js:53 | whitespace in front of a non-blank text moves its first non-whitespace character by the padding's length |
| Text.PaddedStop | telagraficosv1/src/hooks/useSerialConnection.js:53 | whitespace behind a non-blank text leaves the end of its last non-whitespace character where it was, shifted by the front padding |
| Text.JsTrim | telagraficosv1/src/hooks/useSerialConnection.js:53 | `trim()` with JavaScript's whitespace set; characterised by Text.StripSpec and Text.StripPadding |
| Text.PyStrip | V1_PlotGraph/teste_novo.py:38 | `strip()` with Python's whitespace set; characterised by Text.StripSpec and Text.StripPadding |
| Text.TrimsDiffer | V1_PlotGraph/teste_novo.py:38 | Python's strip() and JavaScript's trim() disagree on some characters: U+001C is stripped only by Python and U+FEFF only by JavaScript |
| SensorData.NewReading | telagraficosv1/src/hooks/useSerialConnection.js:81-85 | the entry `{ time, coletados: value, previsoes }` built from a value and its clock and random draw; its prediction is bounded by SensorData.Prediction |
| SensorData.Feed | telagraficosv1/src/hooks/useSerialConnection.js:80-89 | the history after a run of updates, each a bounded append; characterised by SensorData.FeedKeepsLast, SensorData.FeedEndsWithLast and SensorData.FeedConcat |
| SensorData.Prediction | telagraficosv1/src/hooks/useSerialConnection.js:84 | the simulated prediction lies in [value - 5, value + 5) |
| SensorData.PredictionCoversRange | telagraficosv1/src/hooks/useSerialConnection.js:84 | every point of [value - 5, value + 5) is the prediction for some draw |
| SensorData.KeepLast | telagraficosv1/src/hooks/useSerialConnection.js:88 | `slice(-cap)` keeps min(length, cap) elements |
| SensorData.Append | telagraficosv1/src/hooks/useSerialConnection.js:80-89 | the new reading is last and the buffer stays within its cap |
| SensorData.AppendKeeps | telagraficosv1/src/hooks/useSerialConnection.js:80-89 | nothing is dropped while there is room; once full, exactly the oldest entry goes and the others keep their order |
| SensorData.KeepLastAbsorbs | telagraficosv1/src/hooks/useSerialConnection.js:88 | trimming early and again later keeps the same entries as trimming once |
| SensorData.FeedEndsWithLast | telagraficosv1/src/hooks/useSerialConnection.js:80-89 | after a run of updates, the buffer is non-empty, within its cap, and ends with the reading of the last value fed |
| SensorData.FeedOne | telagraficosv1/src/hooks/useSerialConnection.js:80-89 | a run of one update is one bounded append |
| SensorData.FeedKeepsLast | telagraficosv1/src/hooks/useSerialConnection.js:80-89 | a run of updates leaves the last cap entries of the old buffer followed by the new readings, in order |
| SensorData.FeedConcat | telagraficosv1/src/hooks/useSerialConnection.js:80-89 | feeding two runs one after the other equals feeding their concatenation |
| SensorData.FeedPrefixConcat | telagraficosv1/src/hooks/useSerialConnection.js:80-89 | FeedConcat, with both runs of stamps cut from one sequence of stamps |
| Utils.Values | telagraficosv1/src/utils/utils.js:85 | `data.map(d => d.coletados)`; used by Utils.StatsOfNonEmpty |
| Utils.TrendOf | telagraficosv1/src/utils/utils.js:91-102 | the trend of the last ten values; characterised by Utils.TrendRule |
| Utils.CsvFields | telagraficosv1/src/utils/utils.js:150-154 | a row's time, value and prediction; split back by Utils.RowLineRoundTrip |
| Utils.CsvLines | telagraficosv1/src/utils/utils.js:148-155 | the header line followed by one line per row; characterised by Utils.CsvLineStructure and Utils.CsvLinesHaveNoNewline |
| Utils.CsvContent | telagraficosv1/src/utils/utils.js:146-155 | the lines joined by line breaks; read back by Utils.CsvRoundTrip |
| Utils.FormatSensorValue | telagraficosv1/src/utils/utils.js:10-12 | the text ends in " ppm", and what precedes it reads back as Math.round(value) |
| Utils.LevelDisplay | telagraficosv1/src/utils/utils.js:22-43 | each level's display object carries that level |
| Utils.GetSensorLevel | telagraficosv1/src/utils/utils.js:19-44 | Low iff value <= 350; Medium iff 350 < value <= 450; High iff value > 450; colour and label come from the configuration |
| Utils.LevelMonotone | telagraficosv1/src/utils/utils.js:19-44 | a larger value never gets a lower level |
| Utils.LowerBoundsNotConsulted | telagraficosv1/src/utils/utils.js:22-29 | values below MEDIUM.MIN or HIGH.MIN can still be Medium or High |
| Utils.GenerateSensorData | telagraficosv1/src/utils/utils.js:50-54 | the simulated reading is an integer in [390, 470] and never Low |
| Utils.RelativeChangePercent | telagraficosv1/src/utils/utils.js:99 | finite iff the previous mean is non-zero, and then equal to the relative change times 100; otherwise +Infinity, -Infinity or NaN according to the sign of the recent mean |
| Utils.ChangeAbove | telagraficosv1/src/utils/utils.js:99-101 | the thresholded change is a comparison of the two means, which flips when the previous mean is negative |
| Utils.TrendRule | telagraficosv1/src/utils/utils.js:91-102 | from 10 values up: rising iff r > 1.02 p and falling iff r < 0.98 p when p > 0; both flip when p < 0; rising iff r > 0 and falling iff r < 0 when p = 0 |
| Utils.CalculateStats | telagraficosv1/src/utils/utils.js:74-83 | absent or empty data gives zeros and 'stable' |
| Utils.StatsOfNonEmpty | telagraficosv1/src/utils/utils.js:85-110 | min and max are the rounded smallest and largest readings; min <= avg <= max; latest is the last reading rounded; the trend is 'stable' below 10 readings |
| Utils.IsValidSensorValue | telagraficosv1/src/utils/utils.js:118-121 | valid iff the parse is a number within 0..1000, both ends included |
| Utils.HeaderLine | telagraficosv1/src/utils/utils.js:147-148 | the header line holds no line break and splits on ',' into the three headers |
| Utils.RowLineExcludes | telagraficosv1/src/utils/utils.js:149-153 | a character other than ',' that no field of a row holds is not in the row's line |
| Utils.RowLineRoundTrip | telagraficosv1/src/utils/utils.js:149-153 | a row with no comma in its fields splits back on ',' into its three fields |
| Utils.CsvLinesHaveNoNewline | telagraficosv1/src/utils/utils.js:148-155 | no line of the export holds a line break when no field does |
| Utils.CsvLineStructure | telagraficosv1/src/utils/utils.js:146-155 | the export has a header line, then one line per row: time, value and prediction separated by commas |
| Utils.CsvRoundTrip | telagraficosv1/src/utils/utils.js:146-155 | splitting the export on line breaks and then on commas gives back the header and every row's fields, when no field holds a comma or line break |
| Utils.CsvCommaInTimeBreaksRow | telagraficosv1/src/utils/utils.js:150-154 | a comma in the time text reads back as four fields: the export does not quote |
| SerialConnection.LineValue | telagraficosv1/src/hooks/useSerialConnection.js:53-59 | the value one line feeds, if any; characterised by SerialConnection.LineValueSpec |
| SerialConnection.ChunkValues | telagraficosv1/src/hooks/useSerialConnection.js:49-64 | the values a chunk feeds, line by line; characterised by SerialConnection.ChunkOfLines and SerialConnection.ChunkValuesConcat |
| SerialConnection.StreamValues | telagraficosv1/src/hooks/useSerialConnection.js:44-64 | the values a whole stream feeds, chunk by chunk; characterised by SerialConnection.StreamValuesByLines and SerialConnection.FragmentsParsedSeparately |
| SerialConnection.LineValueSpec | telagraficosv1/src/hooks/useSerialConnection.js:53-59 | a line feeds a value iff its trim is non-empty and parses, and the value is that parse; a whitespace-only line feeds nothing; surrounding whitespace does not matter |
| SerialConnection.LastOr | telagraficosv1/src/hooks/useSerialConnection.js:78 | currentValue after a run of updates is the last value fed, or its old value when nothing was fed |
| SerialConnection.LastOrConcat | telagraficosv1/src/hooks/useSerialConnection.js:78 | the current value after two runs is that of the second run, starting from the value the first run left |
| SerialConnection.LinesValues | telagraficosv1/src/hooks/useSerialConnection.js:52-64 | lines feed at most one value each |
| SerialConnection.LinesValuesConcat | telagraficosv1/src/hooks/useSerialConnection.js:52-64 | lines feed independently, in order |
| SerialConnection.BlankLinesFeedNothing | telagraficosv1/src/hooks/useSerialConnection.js:53-54 | empty or whitespace-only lines feed nothing |
| SerialConnection.ChunkOfLines | telagraficosv1/src/hooks/useSerialConnection.js:49-52 | a chunk made of lines feeds the values of its lines, in order |
| SerialConnection.ChunkValuesConcat | telagraficosv1/src/hooks/useSerialConnection.js:50-52 | a line break within a chunk separates independent lines |
| SerialConnection.OneLineChunk | telagraficosv1/src/hooks/useSerialConnection.js:50-59 | a chunk without whitespace feeds exactly the parse of its text |
| SerialConnection.FragmentsParsedSeparately | telagraficosv1/src/hooks/useSerialConnection.js:44-50 | no text carries over between chunks: the stream of chunks a and b feeds the parse of a, then the parse of b, whereas the single chunk a + b feeds the parse of a + b |
| SerialConnection.ValuesBeforeSpec | telagraficosv1/src/hooks/useSerialConnection.js:52-64 | the values accumulated line by line up to index i are the values of the first i lines |
| SerialConnection.StreamLines | telagraficosv1/src/hooks/useSerialConnection.js:44-50 | each chunk gives at least one line |
| SerialConnection.StreamLinesConcat | telagraficosv1/src/hooks/useSerialConnection.js:44-50 | the lines of a stream are those of its parts, in order |
| SerialConnection.StreamValuesByLines | telagraficosv1/src/hooks/useSerialConnection.js:44-64 | the values of a stream are those of its lines, each chunk split on its own, so a line cut by a chunk boundary is parsed as two lines |
| SerialConnection.SerialHook.constructor | telagraficosv1/src/hooks/useSerialConnection.js:5-8 | not connected, empty history, current value 0, no port |
| SerialConnection.SerialHook.Connect | telagraficosv1/src/hooks/useSerialConnection.js:14-37 | only a supported browser with an opened port connects; the error paths change nothing; the history is untouched |
| SerialConnection.SerialHook.Disconnect | telagraficosv1/src/hooks/useSerialConnection.js:93-104 | a successful close clears the port and the flag; no port, or a failed close, changes nothing |
| SerialConnection.SerialHook.UpdateSensorData | telagraficosv1/src/hooks/useSerialConnection.js:74-90 | the value becomes current and is appended to the 50-entry history |
| SerialConnection.SerialHook.ProcessLine | telagraficosv1/src/hooks/useSerialConnection.js:52-64 | the per-line callback extends the run of updates by the line's value, and uses one stamp iff it feeds |
| SerialConnection.SerialHook.ProcessLineAt | telagraficosv1/src/hooks/useSerialConnection.js:52-64 | line i of the forEach extends the updates of the lines before it to those of the lines up to it |
| SerialConnection.SerialHook.ProcessLines | telagraficosv1/src/hooks/useSerialConnection.js:52-64 | forEach: the history is the old one fed with the lines' values in order; current is the last of them |
| SerialConnection.SerialHook.ProcessChunk | telagraficosv1/src/hooks/useSerialConnection.js:49-64 | one chunk: the history is fed with the chunk's values |
| SerialConnection.SerialHook.ReadChunk | telagraficosv1/src/hooks/useSerialConnection.js:45-64 | one pass of the read loop extends the run of updates by the chunk's values |
| SerialConnection.SerialHook.ReadSerialData | telagraficosv1/src/hooks/useSerialConnection.js:40-71 | requires a connected hook with an open port, the only state in which connect starts the reader; over the whole stream, the history is the old one fed with every chunk's values in arrival order, and current is the last value or unchanged; connection state is untouched |
| Dashboard.SensorDashboard.constructor | telagraficosv1/src/SensorDashboard.js:278-279 | empty history and current value 0 |
| Dashboard.SensorDashboard.GenerateData | telagraficosv1/src/SensorDashboard.js:285-306 | the new value is generateSensorData's integer in [390, 470]; it becomes current and is appended to the 15-entry history, with a time and a prediction within 5 |
| SimpleChart.DashedSource | telagraficosv1/src/SensorDashboard.js:97-101 | the dashed line has four points |
| SimpleChart.Render | telagraficosv1/src/SensorDashboard.js:68-106 | waiting message iff there are no readings; otherwise six solid points, four dashed ones, six vertical and six horizontal grid lines |
| SimpleChart.ScaleY | telagraficosv1/src/SensorDashboard.js:93 | the y coordinate of a value; characterised by SimpleChart.ScaleYSpansPlot |
| SimpleChart.SolidX | telagraficosv1/src/SensorDashboard.js:92 | the x coordinate of solid point i; characterised by SimpleChart.SolidXSpansWidth |
| SimpleChart.DashedX | telagraficosv1/src/SensorDashboard.js:102-103 | the x coordinate of dashed point i, on a scale of chartData.length + 1 steps; characterised by SimpleChart.DashedLineGeometry |
| SimpleChart.ScaleYSpansPlot | telagraficosv1/src/SensorDashboard.js:93 | the y scale puts 350 at the bottom margin and 500 at the top one, keeps values in range inside the margins, is strictly decreasing, and is linear |
| SimpleChart.SolidXSpansWidth | telagraficosv1/src/SensorDashboard.js:92 | the solid line's x runs from the left margin to the right one, strictly increasing |
| SimpleChart.RenderIgnoresReadings | telagraficosv1/src/SensorDashboard.js:68-106 | the readings decide only whether the chart is drawn, never what it shows |
| SimpleChart.SeriesInsidePlot | telagraficosv1/src/SensorDashboard.js:91-93 | every point of the series lies inside the plotting area |
| SimpleChart.GridEvenlySpaced | telagraficosv1/src/SensorDashboard.js:144 | the horizontal grid lines are 52 apart, from the bottom margin to the top one |
| SimpleChart.ChartInsidePlot | telagraficosv1/src/SensorDashboard.js:144 | solid points lie inside the plot, left to right; vertical grid lines pass through them; horizontal grid lines are 52 apart, from the bottom margin to the top one |
| SimpleChart.DashedLineGeometry | telagraficosv1/src/SensorDashboard.js:97-106 | the dashed line ends at the right margin and starts at the heights of the last two solid points, but on a 7-step x scale, so it starts left of the solid point it repeats |
| Smoothing.MovingAverage | V1_PlotGraph/teste_novo.py:68-73 | aplicar_filtro_media_movel; characterised by Smoothing.MovingAverageSpec and Smoothing.MovingAverageWithin |
| Smoothing.MovingAverageSpec | V1_PlotGraph/teste_novo.py:68-73 | 0 for no values; the last value below a full window; otherwise a value between the window's minimum and maximum |
| Smoothing.MovingAverageWithin | V1_PlotGraph/teste_novo.py:70-73 | the moving average of values in [lo, hi] lies in [lo, hi] |
| Smoothing.Smoothed | V1_PlotGraph/teste_novo.py:161-162 | the filtered list is as long as the raw one |
| Smoothing.SmoothedAt | V1_PlotGraph/teste_novo.py:158-162 | filtered entry k is the moving average of the first k + 1 readings |
| Smoothing.SampleOf | V1_PlotGraph/teste_novo.py:36-44 | an event yields a sample iff it is a decoded line whose strip is non-empty and parses, and the sample is that parse |
| Smoothing.CollectedGrows | V1_PlotGraph/teste_novo.py:35-47 | there are never more samples than attempts, and earlier samples are kept in order |
| Smoothing.Collected | V1_PlotGraph/teste_novo.py:35-47 | the samples gathered by the first k attempts; characterised by Smoothing.CollectedGrows |
| Smoothing.Attempts | V1_PlotGraph/teste_novo.py:31-35 | the number of attempts the loop makes; bounded by Smoothing.SamplingBounds |
| Smoothing.SamplesRead | V1_PlotGraph/teste_novo.py:29-47 | the samples the loop holds when it stops; bounded by Smoothing.SamplingBounds |
| Smoothing.StopFrom | V1_PlotGraph/teste_novo.py:31-35 | the loop stops within 3 n attempts, holding n samples or having used every attempt |
| Smoothing.StopFromFirst | V1_PlotGraph/teste_novo.py:35 | no attempt before the stopping one had all the samples |
| Smoothing.SamplingBounds | V1_PlotGraph/teste_novo.py:31-47 | at most 3 n attempts and n samples; the loop ends with n samples or after 3 n attempts, and not earlier |
| Smoothing.Variance | V1_PlotGraph/teste_novo.py:53 | `statistics.variance`, the square of `statistics.stdev`; non-negative by Smoothing.DeviationsNonNegative, with some sample within it by Smoothing.SmallDeviation |
| Smoothing.WithinTwoSigma | V1_PlotGraph/teste_novo.py:56 | the outlier test; equivalent to `abs(x - media) <= 2 * desvio` by Smoothing.TwoSigmaBySquares |
| Smoothing.KeptMembers | V1_PlotGraph/teste_novo.py:56 | the filter keeps exactly the samples within two standard deviations of the mean |
| Smoothing.KeptCount | V1_PlotGraph/teste_novo.py:56 | the filter keeps each sample within two standard deviations exactly as many times as it occurs, and drops every other; so the filtered mean counts repeats |
| Smoothing.Kept | V1_PlotGraph/teste_novo.py:56 | the filtered list is no longer than the samples |
| Smoothing.Summarise | V1_PlotGraph/teste_novo.py:49-66 | None iff no sample was collected |
| Smoothing.TwoSigmaBySquares | V1_PlotGraph/teste_novo.py:53-56 | for sigma >= 0 whose square is the variance, abs(x - m) <= 2 sigma iff (x - m)^2 <= 4 variance |
| Smoothing.DeviationsNonNegative | V1_PlotGraph/teste_novo.py:53 | squared deviations sum to a non-negative total |
| Smoothing.SmallDeviation | V1_PlotGraph/teste_novo.py:53-56 | some sample's squared deviation is at most the variance |
| Smoothing.FallbackUnreachable | V1_PlotGraph/teste_novo.py:56-60 | with two or more samples the filter keeps at least one, so the plain-mean fallback is never taken |
| Smoothing.SummariseOne | V1_PlotGraph/teste_novo.py:51-63 | one sample is returned as it is |
| Smoothing.SummariseWithin | V1_PlotGraph/teste_novo.py:50-63 | the averaged reading lies between the smallest and the largest sample; with two or more samples it is the mean of the samples within two standard deviations |
| Smoothing.ReadSamples | V1_PlotGraph/teste_novo.py:27-47 | the loop's samples and attempt count are those the loop specification gives |
| Smoothing.ReadAverage | V1_PlotGraph/teste_novo.py:27-66 | ler_multiplas_amostras returns the summary of the samples the loop collects |
| Smoothing.Readings | V1_PlotGraph/teste_novo.py:151-158 | the readings appended by a run of rounds, the rounds returning None skipped; what Smoothing.PlotHistory.Monitor records |
| Smoothing.Indices | V1_PlotGraph/teste_novo.py:164 | the sample numbers 0..n-1 number n readings |
| Smoothing.PlotHistory.constructor | V1_PlotGraph/teste_novo.py:134-149 | empty lists, counter 0 |
| Smoothing.PlotHistory.Record | V1_PlotGraph/teste_novo.py:155-164 | None changes nothing; a reading is appended to the raw list and the history, its moving average to the filtered list, and i to x_data; the lists stay aligned |
| Smoothing.PlotHistory.RecordRound | V1_PlotGraph/teste_novo.py:153-164 | one round extends the recorded readings by that round's reading, the lists staying aligned |
| Smoothing.PlotHistory.Monitor | V1_PlotGraph/teste_novo.py:151-164 | after a run of rounds, the raw list is extended by the rounds' readings, in order, and the lists stay aligned |
| Smoothing.PlotListsAgree | V1_PlotGraph/teste_novo.py:155-164 | x_data, the raw list and the filtered list have equal lengths; x_data[k] == k; filtered[k] is the moving average of the first k + 1 readings |

## Left out

- User interface: JSX markup, `Header`, the icons, `ReportPanel`'s text and the SVG point strings. The chart is modelled as coordinates.
- The CSV download: the `Blob`, the link element and its click. Only the text of the export is modelled.
- `debounce` and `formatTime`. They are timers and locale formatting with no logic of their own.
- The clock, `Math.random()` and `Math.sin()`. They are parameters of each update.
- The Web Serial API:
  - `requestPort`, `open`, the reader and `TextDecoder`;
  - the alerts, the console logs and the unmount cleanup.
  - A chunk arrives as decoded text; a stream error ends the stream like `done`.
  - `connect` starts `readSerialData` without awaiting it, so the read loop runs alongside the interface, and a second `connect` would start a second loop feeding the same history. `SerialHook.ReadSerialData` is one loop run to the end of its stream with no other update in between; interleaved loops are not modelled.
- Timers and status:
  - the dashboard's `setInterval` timers;
  - its simulated `isConnected` and `isSensorActive` flags, which are random booleans on a timer.
  - Each data tick is one `GenerateData` call.
- Python I/O:
  - port discovery, `serial.Serial`, `time.sleep`, the prints;
  - all matplotlib calls.
  - `main`'s `while True` loop ends on an interrupt or on any uncaught exception (the `except Exception` at teste_novo.py:190-191). It is modelled as a run over a finite sequence of rounds.
- `teste_serial.py` and `teste_simples.py` are not part of this model.
- Floating point:
  - IEEE-754 rounding, infinities and `NaN` values from `float("nan")` or `float("inf")`;
  - JavaScript's `parseFloat` returns plus or minus `Infinity` for "Infinity" or "1e400", and the hook feeds that value. The parameter `parseFloat: string -> Option<real>` cannot return it;
  - exponent formatting of very large numbers in template strings.
  - Numbers are exact reals.
- Utils.GetSensorLevel: a NaN argument is not modelled. In JavaScript it fails both comparisons and is High.
- Smoothing.MovingAverage: the window must be at least 1. For `janela` <= 0, Python's slicing semantics are not modelled; the script calls it only with 3.
- Smoothing.ReadSamples: `num_amostras` is a natural number. A negative count would make no attempt in Python and is not modelled.
- Smoothing.Summarise: the filter compares squares with four times the variance instead of taking `statistics.stdev`'s square root. `Smoothing.TwoSigmaBySquares` shows the two tests agree for any square root.
