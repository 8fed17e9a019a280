/** The dashboard's pure helpers (utils.js): value formatting, the level
    classifier, the simulated reading, the history statistics with their
    trend, the validity check and the CSV text of an export. */
module Utils {

  import opened Wrappers
  import opened Numbers
  import opened Text
  import Config
  import opened SensorData

  /** formatSensorValue: the value rounded as Math.round does, then " ppm". */
  function FormatSensorValue(value: real): (s: string)
    ensures |s| > 4 && s[|s| - 4..] == " ppm"
    ensures IsDecimalInt(s[..|s| - 4]) && DecimalIntValue(s[..|s| - 4]) == Round(value)
  {
    var digits := IntToDecimal(Round(value));
    IntDecimalRoundTrip(Round(value));
    assert (digits + " ppm")[..|digits|] == digits;
    digits + " ppm"
  }

  datatype Level = Low | Medium | High

  /** The object getSensorLevel returns. */
  datatype LevelInfo = LevelInfo(level: Level, color: string, labelText: string, description: string)

  /** The order Low < Medium < High. */
  function Rank(level: Level): nat
  {
    match level
    case Low => 0
    case Medium => 1
    case High => 2
  }

  /** The colour and label the configuration gives each level, with the
      classifier's description text. */
  function LevelDisplay(level: Level): (info: LevelInfo)
    ensures info.level == level
  {
    match level
    case Low => LevelInfo(Low, Config.LowColor, Config.LowLabel,
                          "nível pré-industrial ou muito bem ventilado")
    case Medium => LevelInfo(Medium, Config.MediumColor, Config.MediumLabel,
                             "nível típico de ambientes urbanos ou internos")
    case High => LevelInfo(High, Config.HighColor, Config.HighLabel,
                           "pode indicar ventilação insuficiente ou acúmulo de emissões")
  }

  /** getSensorLevel: every value gets exactly one level, decided by the two
      upper bounds LOW.MAX and MEDIUM.MAX alone. */
  function GetSensorLevel(value: real): (info: LevelInfo)
    ensures info == LevelDisplay(info.level)
    ensures info.level == Low <==> value <= Config.LowMax
    ensures info.level == Medium <==> Config.LowMax < value <= Config.MediumMax
    ensures info.level == High <==> Config.MediumMax < value
  {
    if value <= Config.LowMax then LevelDisplay(Low)
    else if value <= Config.MediumMax then LevelDisplay(Medium)
    else LevelDisplay(High)
  }

  /** A larger reading never gets a lower level. */
  lemma LevelMonotone(a: real, b: real)
    requires a <= b
    ensures Rank(GetSensorLevel(a).level) <= Rank(GetSensorLevel(b).level)
  {
  }

  /** The lower bounds MEDIUM.MIN and HIGH.MIN are not consulted: values
      strictly between 350 and 351, or between 450 and 451, are Medium and
      High although they are below those bounds. */
  lemma LowerBoundsNotConsulted()
    ensures 350.5 < Config.MediumMin && GetSensorLevel(350.5).level == Medium
    ensures 450.5 < Config.HighMin && GetSensorLevel(450.5).level == High
  {
  }

  /** generateSensorData, with its two environment inputs as parameters:
      `sine` stands for Math.sin(Date.now() / 10000) and `random` for
      Math.random(). The reading is an integer in [390, 470], never Low. */
  function GenerateSensorData(sine: real, random: real): (v: int)
    requires -1.0 <= sine <= 1.0 && 0.0 <= random < 1.0
    ensures 390 <= v <= 470
    ensures GetSensorLevel(v as real).level != Low
  {
    Round(Config.BaseValue + (sine * Config.VariationRange + random * 20.0))
  }

  datatype Trend = Rising | Falling | Stable

  /** The values a JavaScript division can produce here. */
  datatype JsNumber = Finite(value: real) | PositiveInfinity | NegativeInfinity | NaN

  /** `((recentAvg - previousAvg) / previousAvg) * 100` with JavaScript's
      division: a zero divisor gives an infinity of the dividend's sign, or
      NaN when the dividend is zero as well. */
  function RelativeChangePercent(recentAvg: real, previousAvg: real): (c: JsNumber)
    ensures c.Finite? <==> previousAvg != 0.0
    ensures c.Finite? ==> c.value * previousAvg == (recentAvg - previousAvg) * 100.0
    ensures c == PositiveInfinity <==> previousAvg == 0.0 && recentAvg > 0.0
    ensures c == NegativeInfinity <==> previousAvg == 0.0 && recentAvg < 0.0
  {
    if previousAvg != 0.0 then Finite((recentAvg - previousAvg) / previousAvg * 100.0)
    else if recentAvg > 0.0 then PositiveInfinity
    else if recentAvg < 0.0 then NegativeInfinity
    else NaN
  }

  /** JavaScript's `c > bound` (false for NaN). */
  function JsGreater(c: JsNumber, bound: real): bool
  {
    match c
    case Finite(v) => v > bound
    case PositiveInfinity => true
    case NegativeInfinity => false
    case NaN => false
  }

  /** JavaScript's `c < bound` (false for NaN). */
  function JsLess(c: JsNumber, bound: real): bool
  {
    match c
    case Finite(v) => v < bound
    case PositiveInfinity => false
    case NegativeInfinity => true
    case NaN => false
  }

  /** The trend of a series: the mean of its last 5 values against the mean
      of the 5 before them, with a 2 % threshold; 'stable' below 10 values. */
  function TrendOf(values: seq<real>): Trend
  {
    if |values| < 10 then Stable
    else
      var n := |values|;
      var change := RelativeChangePercent(Mean(values[n - 5..]), Mean(values[n - 10..n - 5]));
      if JsGreater(change, 2.0) then Rising
      else if JsLess(change, -2.0) then Falling
      else Stable
  }

  /** A relative change compared with a bound, restated without division:
      for a positive base it is the plain comparison, for a negative base
      the comparison flips. */
  lemma ChangeAbove(r: real, p: real, c: real, t: real)
    requires p != 0.0 && c * p == (r - p) * 100.0
    ensures p > 0.0 ==> (c > t <==> r * 100.0 > (100.0 + t) * p)
    ensures p < 0.0 ==> (c > t <==> r * 100.0 < (100.0 + t) * p)
    ensures p > 0.0 ==> (c < t <==> r * 100.0 < (100.0 + t) * p)
    ensures p < 0.0 ==> (c < t <==> r * 100.0 > (100.0 + t) * p)
  {
    assert r * 100.0 - (100.0 + t) * p == (c - t) * p;
    if p > 0.0 {
      assert c > t <==> (c - t) * p > 0.0;
      assert c < t <==> (c - t) * p < 0.0;
    } else {
      assert c > t <==> (c - t) * p < 0.0;
      assert c < t <==> (c - t) * p > 0.0;
    }
  }

  /** The trend rule, for at least 10 values, with r the mean of the last 5
      and p the mean of the 5 before: for p > 0 'rising' iff r > 1.02 p and
      'falling' iff r < 0.98 p; for p < 0 both comparisons flip; for p == 0
      the division gives ±Infinity or NaN, so 'rising' iff r > 0 and
      'falling' iff r < 0. */
  lemma TrendRule(values: seq<real>)
    requires |values| >= 10
    ensures var r := Mean(values[|values| - 5..]);
            var p := Mean(values[|values| - 10..|values| - 5]);
            p > 0.0 ==> ((TrendOf(values) == Rising <==> r > 1.02 * p)
                         && (TrendOf(values) == Falling <==> r < 0.98 * p))
    ensures var r := Mean(values[|values| - 5..]);
            var p := Mean(values[|values| - 10..|values| - 5]);
            p < 0.0 ==> ((TrendOf(values) == Rising <==> r < 1.02 * p)
                         && (TrendOf(values) == Falling <==> r > 0.98 * p))
    ensures var r := Mean(values[|values| - 5..]);
            var p := Mean(values[|values| - 10..|values| - 5]);
            p == 0.0 ==> ((TrendOf(values) == Rising <==> r > 0.0)
                          && (TrendOf(values) == Falling <==> r < 0.0))
  {
    var n := |values|;
    var r := Mean(values[n - 5..]);
    var p := Mean(values[n - 10..n - 5]);
    var change := RelativeChangePercent(r, p);
    if p != 0.0 {
      ChangeAbove(r, p, change.value, 2.0);
      ChangeAbove(r, p, change.value, -2.0);
      if p > 0.0 {
        assert r > 1.02 * p ==> !(r < 0.98 * p);
      } else {
        assert r < 1.02 * p ==> !(r > 0.98 * p);
      }
    }
  }

  /** The statistics calculateStats returns. */
  datatype Stats = Stats(min: int, max: int, avg: int, latest: int, trend: Trend)

  /** `data.map(d => d.coletados)`. */
  function Values(data: seq<Reading>): seq<real>
  {
    seq(|data|, k requires 0 <= k < |data| => data[k].coletados)
  }

  /** calculateStats; `None` stands for a null or undefined argument. Absent
      or empty data gives zeros and 'stable'. */
  function CalculateStats(data: Option<seq<Reading>>): (s: Stats)
    ensures data == None || data == Some([]) ==> s == Stats(0, 0, 0, 0, Stable)
  {
    if data.None? || data.value == [] then Stats(0, 0, 0, 0, Stable)
    else
      var values := Values(data.value);
      Stats(Round(SeqMin(values)), Round(SeqMax(values)), Round(Mean(values)),
            Round(values[|values| - 1]), TrendOf(values))
  }

  /** On non-empty data: min and max are (the rounded) smallest and largest
      readings, which occur in the data; min <= avg <= max survives the
      rounding; latest is the last reading, rounded; the trend is the rule
      above, and 'stable' below 10 readings. */
  lemma StatsOfNonEmpty(data: seq<Reading>)
    requires data != []
    ensures var s := CalculateStats(Some(data));
            && (exists k :: 0 <= k < |data| && s.min == Round(data[k].coletados)
                  && forall j :: 0 <= j < |data| ==> data[k].coletados <= data[j].coletados)
            && (exists k :: 0 <= k < |data| && s.max == Round(data[k].coletados)
                  && forall j :: 0 <= j < |data| ==> data[j].coletados <= data[k].coletados)
            && s.min <= s.avg <= s.max
            && s.latest == Round(data[|data| - 1].coletados)
            && s.trend == TrendOf(Values(data))
            && (|data| < 10 ==> s.trend == Stable)
  {
    var values := Values(data);
    assert |values| == |data|;
    assert forall k :: 0 <= k < |data| ==> values[k] == data[k].coletados;
    var s := CalculateStats(Some(data));
    assert s == Stats(Round(SeqMin(values)), Round(SeqMax(values)), Round(Mean(values)),
                      Round(values[|values| - 1]), TrendOf(values));
    MeanBetweenMinAndMax(values);
    RoundMonotone(SeqMin(values), Mean(values));
    RoundMonotone(Mean(values), SeqMax(values));
    var lo :| 0 <= lo < |values| && values[lo] == SeqMin(values);
    var hi :| 0 <= hi < |values| && values[hi] == SeqMax(values);
    assert s.min == Round(data[lo].coletados)
           && forall j :: 0 <= j < |data| ==> data[lo].coletados <= data[j].coletados;
    assert s.max == Round(data[hi].coletados)
           && forall j :: 0 <= j < |data| ==> data[j].coletados <= data[hi].coletados;
  }

  /** isValidSensorValue: the parse is a number within 0..1000, both ends
      included. `parseFloat` stands for JavaScript's parseFloat, with None
      for NaN; it accepts a numeric prefix ("12abc" gives 12). */
  function IsValidSensorValue(value: string, parseFloat: string -> Option<real>): (ok: bool)
    ensures ok <==> parseFloat(value).Some? && 0.0 <= parseFloat(value).value <= 1000.0
  {
    match parseFloat(value)
    case None => false
    case Some(num) => 0.0 <= num && num <= 1000.0
  }

  const CsvHeaders: seq<string> := ["Horário", "Valor Coletado (ppm)", "Previsão (ppm)"]

  /** `[row.time, row.coletados, row.previsoes]`, the numbers rendered by
      `show` (JavaScript's number-to-string conversion). */
  function CsvFields(row: Reading, show: real -> string): seq<string>
  {
    [row.time, show(row.coletados), show(row.previsoes)]
  }

  /** The lines of the export: the header, then one line per row. */
  function CsvLines(data: seq<Reading>, show: real -> string): seq<string>
  {
    [Join(CsvHeaders, ',')] + seq(|data|, k requires 0 <= k < |data| => Join(CsvFields(data[k], show), ','))
  }

  /** The CSV text exportToCSV builds: lines joined with '\n', fields with
      ',', and no quoting of any field. */
  function CsvContent(data: seq<Reading>, show: real -> string): string
  {
    Join(CsvLines(data, show), '\n')
  }

  lemma JoinThree(a: string, b: string, c: string, sep: char)
    ensures Join([a, b, c], sep) == a + [sep] + b + [sep] + c
  {
    assert [a, b, c][1..] == [b, c];
    assert [b, c][1..] == [c];
    assert Join([b, c], sep) == b + [sep] + c;
    assert Join([a, b, c], sep) == a + [sep] + (b + [sep] + c);
  }

  ghost predicate NoNewlineFields(data: seq<Reading>, show: real -> string)
  {
    && (forall k :: 0 <= k < |data| ==> '\n' !in data[k].time)
    && (forall x :: '\n' !in show(x))
  }

  /** The header line holds neither a line break nor a comma inside a
      field: it splits back on ',' into the three headers. */
  lemma HeaderLine()
    ensures '\n' !in Join(CsvHeaders, ',')
    ensures Split(Join(CsvHeaders, ','), ',') == CsvHeaders
  {
    assert forall j :: 0 <= j < |CsvHeaders| ==> '\n' !in CsvHeaders[j] && ',' !in CsvHeaders[j];
    JoinExcludes(CsvHeaders, ',', '\n');
    SplitJoin(CsvHeaders, ',');
  }

  /** A character other than ',' that no field of a row holds is not in
      that row's line. */
  lemma RowLineExcludes(row: Reading, show: real -> string, c: char)
    requires c != ',' && c !in row.time && c !in show(row.coletados) && c !in show(row.previsoes)
    ensures c !in Join(CsvFields(row, show), ',')
  {
    var fields := CsvFields(row, show);
    assert forall j :: 0 <= j < |fields| ==> c !in fields[j];
    JoinExcludes(fields, ',', c);
  }

  /** A row none of whose fields holds a comma splits back on ',' into its
      three fields. */
  lemma RowLineRoundTrip(row: Reading, show: real -> string)
    requires ',' !in row.time && ',' !in show(row.coletados) && ',' !in show(row.previsoes)
    ensures Split(Join(CsvFields(row, show), ','), ',') == CsvFields(row, show)
  {
    var fields := CsvFields(row, show);
    assert forall j :: 0 <= j < |fields| ==> ',' !in fields[j];
    SplitJoin(fields, ',');
  }

  /** With no line break in any field, no line of the export holds one. */
  lemma CsvLinesHaveNoNewline(data: seq<Reading>, show: real -> string)
    requires NoNewlineFields(data, show)
    ensures forall k :: 0 <= k < |CsvLines(data, show)| ==> '\n' !in CsvLines(data, show)[k]
  {
    var lines := CsvLines(data, show);
    forall k | 0 <= k < |lines| ensures '\n' !in lines[k] {
      if k == 0 {
        HeaderLine();
      } else {
        RowLineExcludes(data[k - 1], show, '\n');
      }
    }
  }

  /** When no field holds a line break, the export has one line more than
      there are rows: line 0 is the header and line k + 1 is row k's time,
      collected value and prediction separated by commas. */
  lemma CsvLineStructure(data: seq<Reading>, show: real -> string)
    requires NoNewlineFields(data, show)
    ensures var lines := Split(CsvContent(data, show), '\n');
            && |lines| == |data| + 1
            && lines[0] == Join(CsvHeaders, ',')
            && forall k :: 0 <= k < |data| ==>
                 lines[k + 1] == data[k].time + "," + show(data[k].coletados) + "," + show(data[k].previsoes)
  {
    var lines := CsvLines(data, show);
    CsvLinesHaveNoNewline(data, show);
    SplitJoin(lines, '\n');
    forall k | 0 <= k < |data|
      ensures lines[k + 1] == data[k].time + "," + show(data[k].coletados) + "," + show(data[k].previsoes)
    {
      JoinThree(data[k].time, show(data[k].coletados), show(data[k].previsoes), ',');
    }
  }

  ghost predicate PlainFields(data: seq<Reading>, show: real -> string)
  {
    && (forall k :: 0 <= k < |data| ==> '\n' !in data[k].time && ',' !in data[k].time)
    && (forall x :: '\n' !in show(x) && ',' !in show(x))
  }

  /** Round trip: when no field holds a comma or a line break, splitting the
      export on '\n' and then on ',' gives back the header and every row's
      three fields. */
  lemma CsvRoundTrip(data: seq<Reading>, show: real -> string)
    requires PlainFields(data, show)
    ensures var lines := Split(CsvContent(data, show), '\n');
            && |lines| == |data| + 1
            && Split(lines[0], ',') == CsvHeaders
            && forall k :: 0 <= k < |data| ==> Split(lines[k + 1], ',') == CsvFields(data[k], show)
  {
    var lines := CsvLines(data, show);
    CsvLinesHaveNoNewline(data, show);
    SplitJoin(lines, '\n');
    HeaderLine();
    forall k | 0 <= k < |data| ensures Split(lines[k + 1], ',') == CsvFields(data[k], show) {
      RowLineRoundTrip(data[k], show);
    }
  }

  /** Without quoting, a comma inside the time text splits that row into
      four fields instead of three: the row reads back with its time cut in
      two. */
  lemma CsvCommaInTimeBreaksRow(a: string, b: string, coletados: real, previsoes: real, show: real -> string)
    requires ',' !in a && ',' !in b && '\n' !in a && '\n' !in b
    requires forall x :: '\n' !in show(x) && ',' !in show(x)
    ensures var data := [Reading(a + "," + b, coletados, previsoes)];
            var lines := Split(CsvContent(data, show), '\n');
            |lines| == 2 && Split(lines[1], ',') == [a, b, show(coletados), show(previsoes)]
  {
    var data := [Reading(a + "," + b, coletados, previsoes)];
    assert '\n' !in data[0].time;
    CsvLineStructure(data, show);
    var parts := [a, b, show(coletados), show(previsoes)];
    JoinThree(b, show(coletados), show(previsoes), ',');
    assert parts[1..] == [b, show(coletados), show(previsoes)];
    assert Join(parts, ',') == a + "," + b + "," + show(coletados) + "," + show(previsoes);
    SplitJoin(parts, ',');
  }
}
