/** The entries of the dashboard's history buffers and the bounded-append
    update both buffers use: append one reading, keep the last `cap`. */
module SensorData {

  /** One entry of a history buffer: `{ time, coletados, previsoes }`. */
  datatype Reading = Reading(time: string, coletados: real, previsoes: real)

  /** The values Math.random() returns: [0, 1). */
  type Fraction = r: real | 0.0 <= r < 1.0

  /** What one update takes from its environment: the clock's
      toLocaleTimeString() text and one Math.random() draw. */
  datatype Stamp = Stamp(time: string, random: Fraction)

  /** The simulated prediction `value + (Math.random() * 10 - 5)`: within 5
      of the value, the upper end excluded. */
  function Prediction(value: real, random: Fraction): (p: real)
    ensures value - 5.0 <= p < value + 5.0
  {
    value + (random * 10.0 - 5.0)
  }

  /** Every point of [value - 5, value + 5) is the prediction for some draw,
      so the range above is exact. */
  lemma PredictionCoversRange(value: real, p: real)
    requires value - 5.0 <= p < value + 5.0
    ensures 0.0 <= (p - value + 5.0) / 10.0 < 1.0
    ensures Prediction(value, (p - value + 5.0) / 10.0) == p
  {
  }

  function NewReading(value: real, stamp: Stamp): Reading
  {
    Reading(stamp.time, value, Prediction(value, stamp.random))
  }

  /** `s.slice(-cap)` for a positive `cap`: the last `cap` elements, or all
      of `s` when it is shorter. */
  function KeepLast<T>(s: seq<T>, cap: nat): (r: seq<T>)
    requires cap > 0
    ensures |r| == if |s| <= cap then |s| else cap
  {
    if |s| <= cap then s else s[|s| - cap..]
  }

  /** The state update `prev => [...prev, newEntry].slice(-cap)`: the buffer
      stays within its cap and the new reading is last. */
  function Append(prev: seq<Reading>, value: real, stamp: Stamp, cap: nat): (r: seq<Reading>)
    requires cap > 0
    ensures |r| <= cap && |r| >= 1
    ensures r[|r| - 1] == NewReading(value, stamp) && r[|r| - 1].coletados == value
  {
    KeepLast(prev + [NewReading(value, stamp)], cap)
  }

  /** What an append keeps of the buffer: nothing is dropped while there is
      room, and once the buffer is full exactly the oldest entry goes, the
      others keeping their order. */
  lemma AppendKeeps(prev: seq<Reading>, value: real, stamp: Stamp, cap: nat)
    requires cap > 0
    ensures |prev| < cap ==> Append(prev, value, stamp, cap) == prev + [NewReading(value, stamp)]
    ensures |prev| >= cap ==> Append(prev, value, stamp, cap) == prev[|prev| - cap + 1..] + [NewReading(value, stamp)]
  {
    if |prev| >= cap {
      assert (prev + [NewReading(value, stamp)])[|prev| + 1 - cap..]
             == prev[|prev| - cap + 1..] + [NewReading(value, stamp)];
    }
  }

  /** The readings a run of updates creates, one per value, in order. */
  function NewReadings(values: seq<real>, stamps: seq<Stamp>): (rs: seq<Reading>)
    requires |stamps| == |values|
    ensures |rs| == |values|
  {
    if values == [] then []
    else NewReadings(values[..|values| - 1], stamps[..|stamps| - 1])
         + [NewReading(values[|values| - 1], stamps[|stamps| - 1])]
  }

  /** Trimming early changes nothing: keeping the last `cap`, appending, and
      keeping the last `cap` again is keeping the last `cap` of the whole. */
  lemma KeepLastAbsorbs<T>(s: seq<T>, t: seq<T>, cap: nat)
    requires cap > 0
    ensures KeepLast(KeepLast(s, cap) + t, cap) == KeepLast(s + t, cap)
  {
    if |s| > cap {
      var u := s + t;
      assert KeepLast(s, cap) + t == u[|s| - cap..];
      assert u[|s| - cap..][|u| - (|s| - cap) - cap..] == u[|u| - cap..];
    }
  }

  /** A run of updates, one bounded append per value, in order; the k-th
      update takes `stamps[k]`. */
  function Feed(prev: seq<Reading>, values: seq<real>, stamps: seq<Stamp>, cap: nat): (r: seq<Reading>)
    requires cap > 0 && |stamps| == |values|
    decreases |values|, 1
  {
    if values == [] then prev else FeedStep(prev, values, stamps, cap)
  }

  /** The last update of a non-empty run, after the ones before it. */
  function FeedStep(prev: seq<Reading>, values: seq<real>, stamps: seq<Stamp>, cap: nat): (r: seq<Reading>)
    requires cap > 0 && |stamps| == |values| && values != []
    decreases |values|, 0
  {
    var n := |values| - 1;
    Append(Feed(prev, values[..n], stamps[..n], cap), values[n], stamps[n], cap)
  }

  /** A single update is one bounded append. */
  lemma FeedOne(prev: seq<Reading>, value: real, stamp: Stamp, cap: nat)
    requires cap > 0
    ensures Feed(prev, [value], [stamp], cap) == Append(prev, value, stamp, cap)
  {
    assert [value][..0] == [] && [stamp][..0] == [];
    FeedLast(prev, [value], [stamp], cap);
  }

  /** The closed form of a run of updates: it leaves the last `cap` entries
      of the old buffer followed by one new reading per value, so no update
      ever loses a reading that a later trim would have kept. */
  lemma {:induction false} FeedKeepsLast(prev: seq<Reading>, values: seq<real>, stamps: seq<Stamp>, cap: nat)
    requires cap > 0 && |stamps| == |values|
    ensures values != [] ==> Feed(prev, values, stamps, cap) == KeepLast(prev + NewReadings(values, stamps), cap)
  {
    if values != [] {
      var n := |values| - 1;
      var r := NewReading(values[n], stamps[n]);
      var earlier := NewReadings(values[..n], stamps[..n]);
      FeedLast(prev, values, stamps, cap);
      assert NewReadings(values, stamps) == earlier + [r];
      if n == 0 {
        assert earlier == [];
        assert prev + [r] == prev + (earlier + [r]);
      } else {
        FeedKeepsLast(prev, values[..n], stamps[..n], cap);
        KeepLastAbsorbs(prev + earlier, [r], cap);
        assert prev + earlier + [r] == prev + (earlier + [r]);
      }
    }
  }

  /** The last update of a run. */
  lemma FeedLast(prev: seq<Reading>, values: seq<real>, stamps: seq<Stamp>, cap: nat)
    requires cap > 0 && |stamps| == |values| && values != []
    ensures Feed(prev, values, stamps, cap)
            == Append(Feed(prev, values[..|values| - 1], stamps[..|stamps| - 1], cap),
                      values[|values| - 1], stamps[|stamps| - 1], cap)
  {
  }

  /** After a non-empty run of updates the buffer is non-empty, within its
      cap, and ends with the reading of the last value. */
  lemma FeedEndsWithLast(prev: seq<Reading>, values: seq<real>, stamps: seq<Stamp>, cap: nat)
    requires cap > 0 && |stamps| == |values| && values != []
    ensures var r := Feed(prev, values, stamps, cap);
            1 <= |r| <= cap && r[|r| - 1] == NewReading(values[|values| - 1], stamps[|stamps| - 1])
  {
    FeedLast(prev, values, stamps, cap);
  }

  /** Feeding two runs of values one after the other is feeding their
      concatenation: no update depends on where a run was cut. */
  lemma {:induction false} FeedConcat(prev: seq<Reading>, v1: seq<real>, s1: seq<Stamp>, v2: seq<real>, s2: seq<Stamp>, cap: nat)
    requires cap > 0 && |s1| == |v1| && |s2| == |v2|
    ensures Feed(Feed(prev, v1, s1, cap), v2, s2, cap) == Feed(prev, v1 + v2, s1 + s2, cap)
  {
    if v2 == [] {
      assert v1 + v2 == v1 && s1 + s2 == s1;
    } else {
      var n := |v2| - 1;
      var v, st := v1 + v2, s1 + s2;
      FeedConcat(prev, v1, s1, v2[..n], s2[..n], cap);
      assert v[..|v| - 1] == v1 + v2[..n] && v[|v| - 1] == v2[n];
      assert st[..|st| - 1] == s1 + s2[..n] && st[|st| - 1] == s2[n];
      FeedLast(prev, v, st, cap);
      calc {
        Feed(prev, v, st, cap);
        Append(Feed(prev, v[..|v| - 1], st[..|st| - 1], cap), v[|v| - 1], st[|st| - 1], cap);
        Append(Feed(prev, v1 + v2[..n], s1 + s2[..n], cap), v2[n], s2[n], cap);
        Append(Feed(Feed(prev, v1, s1, cap), v2[..n], s2[..n], cap), v2[n], s2[n], cap);
        Feed(Feed(prev, v1, s1, cap), v2, s2, cap);
      }
    }
  }

  /** FeedConcat with both runs of stamps taken, one after the other, from
      a longer sequence of stamps. */
  lemma FeedPrefixConcat(prev: seq<Reading>, v1: seq<real>, v2: seq<real>, stamps: seq<Stamp>, used: nat, next: nat, cap: nat)
    requires cap > 0 && used == |v1| && next == used + |v2| <= |stamps|
    ensures Feed(Feed(prev, v1, stamps[..used], cap), v2, stamps[used..next], cap)
            == Feed(prev, v1 + v2, stamps[..next], cap)
  {
    FeedConcat(prev, v1, stamps[..used], v2, stamps[used..next], cap);
    assert stamps[..used] + stamps[used..next] == stamps[..next];
  }
}
