/** The plotting script V1_PlotGraph/teste_novo.py: each reading is the
    average of up to five samples taken from the serial port, with outliers
    beyond two standard deviations dropped; the script keeps parallel lists
    of sample numbers, raw readings and readings smoothed by a moving
    average of three. The port, the clock and the plot are outside the
    model: the port is a sequence of events, one per loop iteration. */
module Smoothing {

  import opened Wrappers
  import opened Numbers
  import opened Text
  import opened Seqs

  /** The moving-average window the script uses. */
  const Window: nat := 3

  /** The samples the script asks for per reading. */
  const SamplesPerReading: nat := 5

  // ---------------------------------------------------------------------
  // The moving average
  // ---------------------------------------------------------------------

  /** aplicar_filtro_media_movel: 0 for no values, the last value while
      there are fewer than `window`, else the mean of the last `window`. */
  function MovingAverage(values: seq<real>, window: nat): real
    requires window >= 1
  {
    if |values| < window then (if values == [] then 0.0 else values[|values| - 1])
    else Mean(values[|values| - window..])
  }

  /** The three cases of the moving average; a full window averages to a
      value between that window's smallest and largest. */
  lemma MovingAverageSpec(values: seq<real>, window: nat)
    requires window >= 1
    ensures values == [] ==> MovingAverage(values, window) == 0.0
    ensures 0 < |values| < window ==> MovingAverage(values, window) == values[|values| - 1]
    ensures |values| >= window ==>
      var w := values[|values| - window..];
      SeqMin(w) <= MovingAverage(values, window) <= SeqMax(w)
  {
    if |values| >= window {
      MeanBetweenMinAndMax(values[|values| - window..]);
    }
  }

  /** Smoothing never leaves the range of the readings: if every value lies
      in [lo, hi], so does the moving average of any non-empty history. */
  lemma MovingAverageWithin(values: seq<real>, window: nat, lo: real, hi: real)
    requires window >= 1 && values != []
    requires forall k :: 0 <= k < |values| ==> lo <= values[k] <= hi
    ensures lo <= MovingAverage(values, window) <= hi
  {
    if |values| >= window {
      var w := values[|values| - window..];
      assert forall k :: 0 <= k < |w| ==> w[k] == values[|values| - window + k];
      MeanWithin(w, lo, hi);
    }
  }

  /** The smoothed series of a history: entry k is the moving average of
      the first k + 1 raw readings. */
  function Smoothed(raw: seq<real>): (r: seq<real>)
    ensures |r| == |raw|
  {
    if raw == [] then [] else Smoothed(raw[..|raw| - 1]) + [MovingAverage(raw, Window)]
  }

  /** Entry k of the smoothed series is what the filter gave when the k-th
      reading arrived. */
  lemma {:induction false} SmoothedAt(raw: seq<real>, k: nat)
    requires k < |raw|
    ensures Smoothed(raw)[k] == MovingAverage(raw[..k + 1], Window)
  {
    var n := |raw| - 1;
    if k < n {
      SmoothedAt(raw[..n], k);
      assert raw[..n][..k + 1] == raw[..k + 1];
    } else {
      assert raw[..k + 1] == raw;
    }
  }

  // ---------------------------------------------------------------------
  // One averaged reading: samples and the two-sigma filter
  // ---------------------------------------------------------------------

  /** What one loop iteration finds on the port: nothing waiting, a line
      that is not valid UTF-8, or a decoded line. */
  datatype SerialEvent = Idle | Undecodable | Line(text: string)

  /** The event of iteration k; iterations past the given events find
      nothing waiting. */
  function EventAt(events: seq<SerialEvent>, k: nat): SerialEvent
  {
    if k < |events| then events[k] else Idle
  }

  /** The sample an event yields: a decoded line, stripped, that is not
      empty and that `float()` accepts. Undecodable lines raise a
      ValueError that the loop swallows, as do lines `float()` rejects. */
  function SampleOf(event: SerialEvent, pyFloat: string -> Option<real>): (v: Option<real>)
    ensures v.Some? <==> event.Line? && PyStrip(event.text) != [] && pyFloat(PyStrip(event.text)).Some?
    ensures v.Some? ==> v == pyFloat(PyStrip(event.text))
  {
    match event
    case Idle => None
    case Undecodable => None
    case Line(text) =>
      var data := PyStrip(text);
      if data == [] then None else pyFloat(data)
  }

  /** The samples collected in the first `k` iterations, in order. */
  function Collected(events: seq<SerialEvent>, k: nat, pyFloat: string -> Option<real>): (s: seq<real>)
    decreases k, 1
  {
    if k == 0 then [] else CollectedThrough(events, k - 1, pyFloat)
  }

  /** The samples collected up to and including iteration `j`. */
  function CollectedThrough(events: seq<SerialEvent>, j: nat, pyFloat: string -> Option<real>): (s: seq<real>)
    decreases j + 1, 0
  {
    var v := SampleOf(EventAt(events, j), pyFloat);
    Collected(events, j, pyFloat) + (if v.Some? then [v.value] else [])
  }

  /** Each iteration adds at most one sample, and an iteration adds none
      exactly when it finds nothing waiting, an undecodable line, a blank
      line or a line `float()` rejects. */
  lemma CollectedStep(events: seq<SerialEvent>, k: nat, pyFloat: string -> Option<real>)
    ensures var before, after := Collected(events, k, pyFloat), Collected(events, k + 1, pyFloat);
      && (SampleOf(EventAt(events, k), pyFloat).None? ==> after == before)
      && (SampleOf(EventAt(events, k), pyFloat).Some? ==>
            after == before + [SampleOf(EventAt(events, k), pyFloat).value])
  {
  }

  /** There are never more samples than iterations, and the count never
      goes down. */
  lemma {:induction false} CollectedGrows(events: seq<SerialEvent>, j: nat, k: nat, pyFloat: string -> Option<real>)
    requires j <= k
    ensures |Collected(events, j, pyFloat)| <= |Collected(events, k, pyFloat)| <= k
    ensures Collected(events, k, pyFloat)[..|Collected(events, j, pyFloat)|] == Collected(events, j, pyFloat)
  {
    if k > 0 {
      var n := k - 1;
      if j < k {
        CollectedGrows(events, j, n, pyFloat);
        var prefix := Collected(events, n, pyFloat);
        assert Collected(events, k, pyFloat)[..|prefix|] == prefix;
      } else {
        CollectedGrows(events, n, n, pyFloat);
      }
    }
  }

  /** The iteration at which the sampling loop, having run `k`, stops: once
      it holds `numSamples` samples or has made 3 * numSamples attempts. */
  function StopFrom(events: seq<SerialEvent>, numSamples: nat, pyFloat: string -> Option<real>, k: nat): (stop: nat)
    requires k <= 3 * numSamples
    ensures k <= stop <= 3 * numSamples
    ensures |Collected(events, stop, pyFloat)| >= numSamples || stop == 3 * numSamples
    decreases 3 * numSamples - k
  {
    if |Collected(events, k, pyFloat)| >= numSamples || k == 3 * numSamples then k
    else StopFrom(events, numSamples, pyFloat, k + 1)
  }

  /** The number of iterations the sampling loop makes. */
  function Attempts(events: seq<SerialEvent>, numSamples: nat, pyFloat: string -> Option<real>): nat
  {
    StopFrom(events, numSamples, pyFloat, 0)
  }

  /** The samples the sampling loop collects. */
  function SamplesRead(events: seq<SerialEvent>, numSamples: nat, pyFloat: string -> Option<real>): seq<real>
  {
    Collected(events, Attempts(events, numSamples, pyFloat), pyFloat)
  }

  /** No iteration before the stopping one had all the samples yet. */
  lemma {:induction false} StopFromFirst(events: seq<SerialEvent>, numSamples: nat, pyFloat: string -> Option<real>, k: nat, j: nat)
    requires k <= 3 * numSamples
    requires k <= j < StopFrom(events, numSamples, pyFloat, k)
    ensures |Collected(events, j, pyFloat)| < numSamples
    decreases 3 * numSamples - k
  {
    if k < j {
      StopFromFirst(events, numSamples, pyFloat, k + 1, j);
    }
  }

  /** The sampling loop: it makes at most 3 * numSamples attempts, keeps at
      most numSamples samples, stops as soon as it has them all, and
      otherwise uses up its attempts. */
  lemma SamplingBounds(events: seq<SerialEvent>, numSamples: nat, pyFloat: string -> Option<real>)
    ensures var attempts, samples := Attempts(events, numSamples, pyFloat), SamplesRead(events, numSamples, pyFloat);
      && attempts <= 3 * numSamples
      && |samples| <= numSamples
      && (|samples| == numSamples || attempts == 3 * numSamples)
      && (forall j :: 0 <= j < attempts ==> |Collected(events, j, pyFloat)| < numSamples)
  {
    var attempts := Attempts(events, numSamples, pyFloat);
    forall j | 0 <= j < attempts
      ensures |Collected(events, j, pyFloat)| < numSamples
    {
      StopFromFirst(events, numSamples, pyFloat, 0, j);
    }
    if attempts > 0 {
      StopFromFirst(events, numSamples, pyFloat, 0, attempts - 1);
      CollectedStep(events, attempts - 1, pyFloat);
    }
  }

  /** The squared deviations of the samples from `m`. */
  function Deviations(s: seq<real>, m: real): (d: seq<real>)
    ensures |d| == |s|
  {
    seq(|s|, k requires 0 <= k < |s| => (s[k] - m) * (s[k] - m))
  }

  /** statistics.stdev squared: the sample variance, over n - 1. */
  function Variance(s: seq<real>): real
    requires |s| > 1
  {
    Sum(Deviations(s, Mean(s))) / (|s| - 1) as real
  }

  /** `abs(x - m) <= 2 * desvio`, stated on squares so that no square root
      is needed: see TwoSigmaBySquares. */
  predicate WithinTwoSigma(x: real, m: real, variance: real)
  {
    (x - m) * (x - m) <= 4.0 * variance
  }

  /** The order-preserving filter `[x for x in s if abs(x - m) <= 2 * desvio]`. */
  function Kept(s: seq<real>, m: real, variance: real): (r: seq<real>)
    ensures |r| <= |s|
  {
    if s == [] then []
    else
      var x := s[|s| - 1];
      Kept(s[..|s| - 1], m, variance) + (if WithinTwoSigma(x, m, variance) then [x] else [])
  }

  /** The filter keeps exactly the samples within two standard deviations. */
  lemma {:induction false} KeptMembers(s: seq<real>, m: real, variance: real, x: real)
    ensures x in Kept(s, m, variance) <==> x in s && WithinTwoSigma(x, m, variance)
  {
    if s != [] {
      var n := |s| - 1;
      KeptMembers(s[..n], m, variance, x);
      assert s == s[..n] + [s[n]];
    }
  }

  /** The filter keeps every in-range sample as often as it occurs, so the
      filtered mean weighs repeated samples as the comprehension does. */
  lemma {:induction false} KeptCount(s: seq<real>, m: real, variance: real, x: real)
    ensures multiset(Kept(s, m, variance))[x] == if WithinTwoSigma(x, m, variance) then multiset(s)[x] else 0
  {
    if s != [] {
      var n := |s| - 1;
      KeptCount(s[..n], m, variance, x);
      assert s == s[..n] + [s[n]];
    }
  }

  /** The value ler_multiplas_amostras returns for the samples it
      collected: None for none, the mean of those within two standard
      deviations for two or more, and the plain mean for one (or, the
      source's fallback, when the filter keeps nothing). */
  function Summarise(s: seq<real>): (r: Option<real>)
    ensures r.None? <==> s == []
  {
    if s == [] then None
    else
      var m := Mean(s);
      if |s| > 1 then
        var kept := Kept(s, m, Variance(s));
        if kept != [] then Some(Mean(kept)) else Some(m)
      else Some(m)
  }

  /** The test on squares is the script's test: for any standard deviation
      sigma >= 0 whose square is the variance,
      |x - m| <= 2 * sigma exactly when WithinTwoSigma holds. */
  lemma TwoSigmaBySquares(x: real, m: real, variance: real, sigma: real)
    requires sigma >= 0.0 && sigma * sigma == variance
    ensures (if x >= m then x - m else m - x) <= 2.0 * sigma <==> WithinTwoSigma(x, m, variance)
  {
    var d := if x >= m then x - m else m - x;
    assert d * d == (x - m) * (x - m);
    if d <= 2.0 * sigma {
      SquareMonotone(d, 2.0 * sigma);
    } else {
      SquareStrictlyMonotone(2.0 * sigma, d);
    }
  }

  lemma SquareMonotone(a: real, b: real)
    requires 0.0 <= a <= b
    ensures a * a <= b * b
  {
    assert a * a <= a * b;
    assert a * b <= b * b;
  }

  lemma SquareStrictlyMonotone(a: real, b: real)
    requires 0.0 <= a < b
    ensures a * a < b * b
  {
    var e := b - a;
    assert b * b == a * a + 2.0 * a * e + e * e;
    assert a * e >= 0.0;
    assert e * e > 0.0;
  }

  /** Squared deviations add up to a non-negative total. */
  lemma {:induction false} DeviationsNonNegative(s: seq<real>, m: real)
    ensures Sum(Deviations(s, m)) >= 0.0
  {
    if s != [] {
      var n := |s| - 1;
      var d := Deviations(s, m);
      DeviationsNonNegative(s[..n], m);
      assert d[..n] == Deviations(s[..n], m) by {
        forall k | 0 <= k < n
          ensures d[..n][k] == Deviations(s[..n], m)[k]
        {
        }
      }
      var x := s[n] - m;
      assert d[n] == x * x;
      assert x * x >= 0.0;
    }
  }

  /** Dividing a non-negative total among fewer parts gives no less. */
  lemma DivideByFewer(total: real, n: nat)
    requires total >= 0.0 && n > 1
    ensures 0.0 <= total / n as real <= total / (n - 1) as real
  {
    var a, b := total / n as real, total / (n - 1) as real;
    assert a * n as real == total;
    assert b * (n - 1) as real == total;
    assert b >= 0.0;
    assert a * (n - 1) as real <= total;
  }

  /** Some sample lies within two standard deviations: its squared
      deviation is at most the mean squared deviation, which the n - 1
      divisor only enlarges, so at most the variance. */
  lemma SmallDeviation(s: seq<real>) returns (k: nat)
    requires |s| > 1
    ensures k < |s| && WithinTwoSigma(s[k], Mean(s), Variance(s))
    ensures k < |s| && (s[k] - Mean(s)) * (s[k] - Mean(s)) <= Variance(s)
  {
    var m := Mean(s);
    var d := Deviations(s, m);
    var total := Sum(d);
    MinAtMostMean(d);
    k :| 0 <= k < |d| && d[k] <= Mean(d);
    assert d[k] == (s[k] - m) * (s[k] - m);
    DeviationsNonNegative(s, m);
    DivideByFewer(total, |s|);
    var v := Variance(s);
    assert Mean(d) == total / |s| as real;
    assert v == total / (|s| - 1) as real;
    assert d[k] <= v && v >= 0.0;
    assert WithinTwoSigma(s[k], m, v);
  }

  /** With two or more samples the filter always keeps one, so the
      source's fallback to the plain mean is never taken. */
  lemma FallbackUnreachable(s: seq<real>)
    requires |s| > 1
    ensures Kept(s, Mean(s), Variance(s)) != []
  {
    var k := SmallDeviation(s);
    KeptMembers(s, Mean(s), Variance(s), s[k]);
  }

  /** A single sample is its own average. */
  lemma SummariseOne(x: real)
    ensures Summarise([x]) == Some(x)
  {
    assert [x][..0] == [];
    assert Sum([x]) == x;
  }

  /** The averaged reading lies between the smallest and the largest
      sample, and with two or more samples it is the mean of those within
      two standard deviations. */
  lemma SummariseWithin(s: seq<real>)
    requires s != []
    ensures SeqMin(s) <= Summarise(s).value <= SeqMax(s)
    ensures |s| > 1 ==> Kept(s, Mean(s), Variance(s)) != []
                        && Summarise(s).value == Mean(Kept(s, Mean(s), Variance(s)))
  {
    var lo, hi := SeqMin(s), SeqMax(s);
    if |s| > 1 {
      var kept := Kept(s, Mean(s), Variance(s));
      FallbackUnreachable(s);
      forall k | 0 <= k < |kept|
        ensures lo <= kept[k] <= hi
      {
        KeptMembers(s, Mean(s), Variance(s), kept[k]);
      }
      MeanWithin(kept, lo, hi);
    } else {
      MeanBetweenMinAndMax(s);
    }
  }

  /** The loop of ler_multiplas_amostras: one event per attempt; a decoded,
      non-blank line that `float()` accepts adds a sample; the loop ends
      with numSamples samples or after 3 * numSamples attempts. */
  method ReadSamples(events: seq<SerialEvent>, numSamples: nat, pyFloat: string -> Option<real>)
    returns (samples: seq<real>, attempts: nat)
    ensures attempts == Attempts(events, numSamples, pyFloat)
    ensures samples == SamplesRead(events, numSamples, pyFloat)
  {
    samples := [];
    attempts := 0;
    var maxAttempts := numSamples * 3;
    while |samples| < numSamples && attempts < maxAttempts
      invariant attempts <= maxAttempts
      invariant samples == Collected(events, attempts, pyFloat)
      invariant StopFrom(events, numSamples, pyFloat, attempts) == Attempts(events, numSamples, pyFloat)
      decreases maxAttempts - attempts
    {
      var sample := SampleOf(EventAt(events, attempts), pyFloat);
      CollectedStep(events, attempts, pyFloat);
      if sample.Some? {
        samples := samples + [sample.value];
      }
      attempts := attempts + 1;
    }
  }

  /** ler_multiplas_amostras: the summary of the samples the loop collects. */
  method ReadAverage(events: seq<SerialEvent>, numSamples: nat, pyFloat: string -> Option<real>)
    returns (average: Option<real>)
    ensures average == Summarise(SamplesRead(events, numSamples, pyFloat))
  {
    var samples, attempts := ReadSamples(events, numSamples, pyFloat);
    average := Summarise(samples);
  }

  // ---------------------------------------------------------------------
  // The plot's parallel lists
  // ---------------------------------------------------------------------

  /** The readings that arrive over a run of rounds, one round of events
      per reading attempt; rounds that collect nothing add nothing. */
  function Readings(rounds: seq<seq<SerialEvent>>, pyFloat: string -> Option<real>): seq<real>
    decreases |rounds|, 1
  {
    if rounds == [] then [] else ReadingsStep(rounds, pyFloat)
  }

  /** The readings of a non-empty run of rounds: those of all rounds but
      the last, then the last round's, if it collects any. */
  function ReadingsStep(rounds: seq<seq<SerialEvent>>, pyFloat: string -> Option<real>): seq<real>
    requires rounds != []
    decreases |rounds|, 0
  {
    var r := Summarise(SamplesRead(rounds[|rounds| - 1], SamplesPerReading, pyFloat));
    Readings(rounds[..|rounds| - 1], pyFloat) + (if r.Some? then [r.value] else [])
  }

  /** The readings of one more round. */
  lemma ReadingsNext(rounds: seq<seq<SerialEvent>>, done: nat, pyFloat: string -> Option<real>)
    requires done < |rounds|
    ensures var r := Summarise(SamplesRead(rounds[done], SamplesPerReading, pyFloat));
      Readings(rounds[..done + 1], pyFloat) == Readings(rounds[..done], pyFloat) + (if r.Some? then [r.value] else [])
  {
    TakeOfTake(rounds, done, done + 1);
    assert Readings(rounds[..done + 1], pyFloat) == ReadingsStep(rounds[..done + 1], pyFloat);
  }

  /** The sample numbers 0 .. n - 1. */
  function Indices(n: nat): (r: seq<int>)
    ensures |r| == n
  {
    seq(n, k requires 0 <= k < n => k)
  }

  /** main's lists: `x_data`, `y_data_bruto`, `y_data_filtrado`,
      `valores_historico` and the counter `i`. */
  class PlotHistory {
    var xData: seq<int>
    var yRaw: seq<real>
    var yFiltered: seq<real>
    var history: seq<real>
    var i: nat

    /** The lists grow together: x_data numbers the readings, the raw list
        and the history hold the same readings, and each filtered entry is
        the moving average of the readings up to it. */
    ghost predicate Valid()
      reads this
    {
      && |yRaw| == i
      && history == yRaw
      && xData == Indices(i)
      && yFiltered == Smoothed(yRaw)
    }

    constructor ()
      ensures Valid()
      ensures yRaw == [] && i == 0
    {
      xData := [];
      yRaw := [];
      yFiltered := [];
      history := [];
      i := 0;
    }

    /** One pass of main's loop after the reading: a missing reading
        changes nothing; a reading is appended to every list. */
    method Record(reading: Option<real>)
      requires Valid()
      modifies this
      ensures Valid()
      ensures yRaw == old(yRaw) + (if reading.Some? then [reading.value] else [])
      ensures reading.None? ==> yFiltered == old(yFiltered) && i == old(i)
      ensures reading.Some? ==> i == old(i) + 1
      ensures reading.Some? ==> yFiltered == old(yFiltered) + [MovingAverage(yRaw, Window)]
    {
      if reading.Some? {
        var value := reading.value;
        yRaw := yRaw + [value];
        history := history + [value];
        var filtered := MovingAverage(history, Window);
        yFiltered := yFiltered + [filtered];
        xData := xData + [i];
        i := i + 1;
        assert yRaw[..|yRaw| - 1] == old(yRaw);
      }
    }

    /** The lists hold `start` followed by `readings`. */
    ghost predicate Recorded(start: seq<real>, readings: seq<real>)
      reads this
    {
      Valid() && yRaw == start + readings
    }

    /** Round `done` of main's loop: one averaged reading, recorded. */
    method RecordRound(rounds: seq<seq<SerialEvent>>, done: nat, pyFloat: string -> Option<real>, ghost start: seq<real>)
      requires done < |rounds| && Recorded(start, Readings(rounds[..done], pyFloat))
      modifies this
      ensures Recorded(start, Readings(rounds[..done + 1], pyFloat))
    {
      ghost var before := Readings(rounds[..done], pyFloat);
      var reading := ReadAverage(rounds[done], SamplesPerReading, pyFloat);
      ghost var added := if reading.Some? then [reading.value] else [];
      ReadingsNext(rounds, done, pyFloat);
      AppendAssoc(start, before, added);
      Record(reading);
    }

    /** main's loop over a run of rounds: each takes one averaged reading
        and records it. */
    method Monitor(rounds: seq<seq<SerialEvent>>, pyFloat: string -> Option<real>)
      requires Valid()
      modifies this
      ensures Valid()
      ensures yRaw == old(yRaw) + Readings(rounds, pyFloat)
    {
      var done := 0;
      while done < |rounds|
        invariant done <= |rounds|
        invariant Recorded(old(yRaw), Readings(rounds[..done], pyFloat))
      {
        RecordRound(rounds, done, pyFloat, old(yRaw));
        done := done + 1;
      }
      TakeAll(rounds, done);
    }
  }

  /** After any run, the filtered list's k-th entry is the moving average
      of the first k + 1 readings, and the three plotted lists have equal
      lengths. */
  lemma PlotListsAgree(h: PlotHistory, k: nat)
    requires h.Valid() && k < h.i
    ensures |h.xData| == |h.yRaw| == |h.yFiltered| == h.i
    ensures h.xData[k] == k
    ensures h.yFiltered[k] == MovingAverage(h.yRaw[..k + 1], Window)
  {
    SmoothedAt(h.yRaw, k);
  }
}
