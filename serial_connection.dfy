/** The Web-Serial hook (useSerialConnection.js): the per-chunk line parser,
    the 50-entry history update and the port/connection state. A chunk
    arrives here as already decoded text; the browser's serial API, the
    TextDecoder and the asynchronous reader are outside the model. */
module SerialConnection {

  import opened Wrappers
  import opened Text
  import opened SensorData
  import opened Seqs

  /** The hook keeps the last 50 readings. */
  const Capacity: nat := 50

  function ToSeq(v: Option<real>): (s: seq<real>)
  {
    match v
    case None => []
    case Some(x) => [x]
  }

  /** What one line of a chunk feeds: nothing for an empty or
      whitespace-only line or for one parseFloat turns into NaN (`None`),
      otherwise the parse of the trimmed line. */
  function LineValue(line: string, parseFloat: string -> Option<real>): Option<real>
  {
    var trimmed := JsTrim(line);
    if trimmed == [] then None else parseFloat(trimmed)
  }

  /** A line feeds a value exactly when it holds a non-whitespace character
      and parseFloat reads its trimmed text as a number, and the value is
      that number; surrounding whitespace never matters. */
  lemma LineValueSpec(line: string, pad1: string, pad2: string, parseFloat: string -> Option<real>)
    requires forall k :: 0 <= k < |pad1| ==> IsJsWhitespace(pad1[k])
    requires forall k :: 0 <= k < |pad2| ==> IsJsWhitespace(pad2[k])
    ensures (forall k :: 0 <= k < |line| ==> IsJsWhitespace(line[k])) <==> LineValue(line, parseFloat) == None && JsTrim(line) == []
    ensures LineValue(line, parseFloat).Some? <==> JsTrim(line) != [] && parseFloat(JsTrim(line)).Some?
    ensures LineValue(line, parseFloat).Some? ==> LineValue(line, parseFloat) == parseFloat(JsTrim(line))
    ensures LineValue(pad1 + line + pad2, parseFloat) == LineValue(line, parseFloat)
  {
    StripSpec(line, IsJsWhitespace);
    StripPadding(line, pad1, pad2, IsJsWhitespace);
  }

  /** The last of `values`, or `default` when there are none: what
      currentValue holds after the updates of `values`. */
  function LastOr(values: seq<real>, default: real): (v: real)
    ensures values == [] ==> v == default
    ensures values != [] ==> v == values[|values| - 1]
  {
    if values == [] then default else values[|values| - 1]
  }

  /** Two runs of updates leave the last value of the second run, or the
      value the first run left when the second run is empty. */
  lemma LastOrConcat(a: seq<real>, b: seq<real>, default: real)
    ensures LastOr(a + b, default) == LastOr(b, LastOr(a, default))
  {
  }

  /** The values a sequence of lines feeds, in line order. */
  function LinesValues(lines: seq<string>, parseFloat: string -> Option<real>): (vs: seq<real>)
    ensures |vs| <= |lines|
  {
    ValuesBefore(lines, |lines|, parseFloat)
  }

  /** The values the lines before index `i` feed, one line at a time as the
      callback loop sees them. */
  function ValuesBefore(lines: seq<string>, i: nat, parseFloat: string -> Option<real>): (vs: seq<real>)
    requires i <= |lines|
    ensures |vs| <= i
    decreases i, 0
  {
    if i == 0 then [] else ValuesThrough(lines, i - 1, parseFloat)
  }

  /** The values the lines up to and including index `j` feed: those before
      it, then that line's own value, if it has one. */
  function ValuesThrough(lines: seq<string>, j: nat, parseFloat: string -> Option<real>): (vs: seq<real>)
    requires j < |lines|
    ensures |vs| <= j + 1
    decreases j, 1
  {
    ValuesBefore(lines, j, parseFloat) + ToSeq(LineValue(lines[j], parseFloat))
  }

  /** Taking one more line adds that line's value. */
  lemma ValuesNext(lines: seq<string>, i: nat, parseFloat: string -> Option<real>)
    requires i < |lines|
    ensures ValuesBefore(lines, i + 1, parseFloat)
            == ValuesBefore(lines, i, parseFloat) + ToSeq(LineValue(lines[i], parseFloat))
  {
    assert ValuesBefore(lines, i + 1, parseFloat) == ValuesThrough(lines, i, parseFloat);
  }

  /** The values of the first `i` lines depend on those lines only. */
  lemma {:induction false} ValuesBeforeSame(a: seq<string>, b: seq<string>, i: nat, parseFloat: string -> Option<real>)
    requires i <= |a| && i <= |b|
    requires forall k :: 0 <= k < i ==> a[k] == b[k]
    ensures ValuesBefore(a, i, parseFloat) == ValuesBefore(b, i, parseFloat)
  {
    if i > 0 {
      ValuesBeforeSame(a, b, i - 1, parseFloat);
      ValuesNext(a, i - 1, parseFloat);
      ValuesNext(b, i - 1, parseFloat);
    }
  }

  /** Accumulating line by line gives the values of the prefix. */
  lemma ValuesBeforeSpec(lines: seq<string>, i: nat, parseFloat: string -> Option<real>)
    requires i <= |lines|
    ensures ValuesBefore(lines, i, parseFloat) == LinesValues(lines[..i], parseFloat)
  {
    ValuesBeforeSame(lines, lines[..i], i, parseFloat);
  }

  /** A prefix of the lines feeds no more values than a longer one. */
  lemma {:induction false} ValuesBeforeMonotone(lines: seq<string>, i: nat, j: nat, parseFloat: string -> Option<real>)
    requires i <= j <= |lines|
    ensures |ValuesBefore(lines, i, parseFloat)| <= |ValuesBefore(lines, j, parseFloat)|
  {
    if i < j {
      ValuesBeforeMonotone(lines, i, j - 1, parseFloat);
      ValuesNext(lines, j - 1, parseFloat);
    }
  }

  /** Lines feed independently: the values of two runs of lines are the
      values of the first run followed by those of the second. */
  lemma {:induction false} LinesValuesConcat(a: seq<string>, b: seq<string>, parseFloat: string -> Option<real>)
    ensures LinesValues(a + b, parseFloat) == LinesValues(a, parseFloat) + LinesValues(b, parseFloat)
  {
    if b != [] {
      var n := |b| - 1;
      var ab := a + b;
      LinesValuesConcat(a, b[..n], parseFloat);
      AllButLastOfAppend(a, b);
      LinesValuesLast(ab, parseFloat);
      LinesValuesLast(b, parseFloat);
      var x, y, z := LinesValues(a, parseFloat), LinesValues(b[..n], parseFloat), ToSeq(LineValue(b[n], parseFloat));
      AppendAssoc(x, y, z);
    } else {
      AppendEmpty(a, b);
    }
  }

  /** The last line's contribution comes last. */
  lemma LinesValuesLast(lines: seq<string>, parseFloat: string -> Option<real>)
    requires lines != []
    ensures LinesValues(lines, parseFloat)
            == LinesValues(lines[..|lines| - 1], parseFloat) + ToSeq(LineValue(lines[|lines| - 1], parseFloat))
  {
    ValuesNext(lines, |lines| - 1, parseFloat);
    ValuesBeforeSpec(lines, |lines| - 1, parseFloat);
  }

  /** Lines that are empty or whitespace only feed nothing. */
  lemma {:induction false} BlankLinesFeedNothing(lines: seq<string>, parseFloat: string -> Option<real>)
    requires forall i, k :: 0 <= i < |lines| && 0 <= k < |lines[i]| ==> IsJsWhitespace(lines[i][k])
    ensures LinesValues(lines, parseFloat) == []
  {
    if lines != [] {
      BlankLinesFeedNothing(lines[..|lines| - 1], parseFloat);
      LinesValuesLast(lines, parseFloat);
      StripSpec(lines[|lines| - 1], IsJsWhitespace);
    }
  }

  /** The values one chunk feeds: `text.split('\n')`, each line trimmed,
      blank and non-numeric lines dropped. */
  function ChunkValues(text: string, parseFloat: string -> Option<real>): seq<real>
  {
    LinesValues(Split(text, '\n'), parseFloat)
  }

  /** A chunk made of lines feeds the values of its lines, in the order the
      lines appear. */
  lemma ChunkOfLines(lines: seq<string>, parseFloat: string -> Option<real>)
    requires |lines| >= 1
    requires forall k :: 0 <= k < |lines| ==> '\n' !in lines[k]
    ensures ChunkValues(Join(lines, '\n'), parseFloat) == LinesValues(lines, parseFloat)
  {
    SplitJoin(lines, '\n');
  }

  /** Within a chunk, a line break separates independent lines: the values
      of `a + "\n" + b` are the values of `a` followed by those of `b`. */
  lemma ChunkValuesConcat(a: string, b: string, parseFloat: string -> Option<real>)
    ensures ChunkValues(a + "\n" + b, parseFloat) == ChunkValues(a, parseFloat) + ChunkValues(b, parseFloat)
  {
    SplitConcat(a, b, '\n');
    assert a + "\n" + b == a + ['\n'] + b;
    LinesValuesConcat(Split(a, '\n'), Split(b, '\n'), parseFloat);
  }

  /** No carry-over between chunks: when a number's characters arrive as two
      chunks `a` and `b`, the hook feeds the parses of the two fragments,
      whereas the same characters in one chunk feed the parse of `a + b`. */
  lemma FragmentsParsedSeparately(a: string, b: string, parseFloat: string -> Option<real>)
    requires a != [] && b != []
    requires forall k :: 0 <= k < |a| ==> !IsJsWhitespace(a[k])
    requires forall k :: 0 <= k < |b| ==> !IsJsWhitespace(b[k])
    ensures ChunkValues(a, parseFloat) + ChunkValues(b, parseFloat) == ToSeq(parseFloat(a)) + ToSeq(parseFloat(b))
    ensures ChunkValues(a + b, parseFloat) == ToSeq(parseFloat(a + b))
    ensures StreamValues([a, b], parseFloat) == ToSeq(parseFloat(a)) + ToSeq(parseFloat(b))
    ensures StreamValues([a + b], parseFloat) == ToSeq(parseFloat(a + b))
  {
    StreamNext([a, b], 0, parseFloat);
    StreamNext([a, b], 1, parseFloat);
    StreamNext([a + b], 0, parseFloat);
    OneLineChunk(a, parseFloat);
    OneLineChunk(b, parseFloat);
    OneLineChunk(a + b, parseFloat);
  }

  lemma OneLineChunk(a: string, parseFloat: string -> Option<real>)
    requires a != []
    requires forall k :: 0 <= k < |a| ==> !IsJsWhitespace(a[k])
    ensures ChunkValues(a, parseFloat) == ToSeq(parseFloat(a))
  {
    assert '\n' !in a;
    SplitWithoutSeparator(a, '\n');
    StripNothing(a, IsJsWhitespace);
    assert [a][..0] == [];
  }

  /** The lines of a sequence of chunks: each chunk split on its own, the
      pieces kept in arrival order. A line cut by a chunk boundary becomes
      two lines. */
  function StreamLines(chunks: seq<string>): (lines: seq<string>)
    ensures |lines| >= |chunks|
  {
    if chunks == [] then []
    else StreamLines(chunks[..|chunks| - 1]) + Split(chunks[|chunks| - 1], '\n')
  }

  /** The values a sequence of chunks feeds: each chunk's values, in
      arrival order. */
  function StreamValues(chunks: seq<string>, parseFloat: string -> Option<real>): seq<real>
  {
    StreamValuesBefore(chunks, |chunks|, parseFloat)
  }

  /** The values the chunks before index `i` feed, one chunk at a time as
      the read loop sees them. */
  function StreamValuesBefore(chunks: seq<string>, i: nat, parseFloat: string -> Option<real>): seq<real>
    requires i <= |chunks|
    decreases i, 0
  {
    if i == 0 then [] else StreamValuesThrough(chunks, i - 1, parseFloat)
  }

  /** The values the chunks up to and including index `j` feed. */
  function StreamValuesThrough(chunks: seq<string>, j: nat, parseFloat: string -> Option<real>): seq<real>
    requires j < |chunks|
    decreases j, 1
  {
    StreamValuesBefore(chunks, j, parseFloat) + ChunkValues(chunks[j], parseFloat)
  }

  /** Taking one more chunk adds that chunk's values. */
  lemma StreamNext(chunks: seq<string>, i: nat, parseFloat: string -> Option<real>)
    requires i < |chunks|
    ensures StreamValuesBefore(chunks, i + 1, parseFloat)
            == StreamValuesBefore(chunks, i, parseFloat) + ChunkValues(chunks[i], parseFloat)
  {
    assert StreamValuesBefore(chunks, i + 1, parseFloat) == StreamValuesThrough(chunks, i, parseFloat);
  }

  /** A prefix of the chunks feeds no more values than a longer one. */
  lemma {:induction false} StreamValuesMonotone(chunks: seq<string>, i: nat, j: nat, parseFloat: string -> Option<real>)
    requires i <= j <= |chunks|
    ensures |StreamValuesBefore(chunks, i, parseFloat)| <= |StreamValuesBefore(chunks, j, parseFloat)|
  {
    if i < j {
      StreamValuesMonotone(chunks, i, j - 1, parseFloat);
      StreamNext(chunks, j - 1, parseFloat);
    }
  }

  /** The lines of a stream are those of its parts, in order. */
  lemma {:induction false} StreamLinesConcat(a: seq<string>, b: seq<string>)
    ensures StreamLines(a + b) == StreamLines(a) + StreamLines(b)
  {
    if b != [] {
      StreamLinesConcat(a, b[..|b| - 1]);
      AllButLastOfAppend(a, b);
    } else {
      AppendEmpty(a, b);
    }
  }

  /** The values of the first `i` chunks are those of their lines. */
  lemma {:induction false} StreamValuesBeforeLines(chunks: seq<string>, i: nat, parseFloat: string -> Option<real>)
    requires i <= |chunks|
    ensures StreamValuesBefore(chunks, i, parseFloat) == LinesValues(StreamLines(chunks[..i]), parseFloat)
  {
    if i > 0 {
      StreamValuesBeforeLines(chunks, i - 1, parseFloat);
      StreamNext(chunks, i - 1, parseFloat);
      TakeOfTake(chunks, i - 1, i);
      assert StreamLines(chunks[..i]) == StreamLines(chunks[..i - 1]) + Split(chunks[i - 1], '\n');
      LinesValuesConcat(StreamLines(chunks[..i - 1]), Split(chunks[i - 1], '\n'), parseFloat);
    } else {
      assert chunks[..0] == [];
    }
  }

  /** The values of a stream are the values of its lines, each chunk split
      on its own: a line cut by a chunk boundary is parsed as two lines. */
  lemma StreamValuesByLines(chunks: seq<string>, parseFloat: string -> Option<real>)
    ensures StreamValues(chunks, parseFloat) == LinesValues(StreamLines(chunks), parseFloat)
  {
    StreamValuesBeforeLines(chunks, |chunks|, parseFloat);
    TakeAll(chunks, |chunks|);
  }

  /** A serial port the user picked and the browser opened. */
  datatype Port = Port(id: nat)

  /** The hook's state: `isConnected`, `sensorData`, `currentValue`, `port`. */
  class SerialHook {
    var isConnected: bool
    var sensorData: seq<Reading>
    var currentValue: real
    var port: Option<Port>

    /** The buffer never exceeds its capacity, and the hook never reports a
        connection without a port. */
    ghost predicate Valid()
      reads this
    {
      |sensorData| <= Capacity && (isConnected ==> port.Some?)
    }

    /** The initial state: `useState(false)`, `useState([])`, `useState(0)`,
        `useState(null)`. */
    constructor ()
      ensures Valid()
      ensures !isConnected && sensorData == [] && currentValue == 0.0 && port == None
    {
      isConnected := false;
      sensorData := [];
      currentValue := 0.0;
      port := None;
    }

    /** connect: `supported` says whether the browser has the serial API,
        `selected` is the port requestPort and open produced (None when either
        failed, the error path that shows an alert). Only a successful open
        changes the state. */
    method Connect(supported: bool, selected: Option<Port>)
      requires Valid()
      modifies this
      ensures Valid()
      ensures supported && selected.Some? ==> port == selected && isConnected
      ensures !(supported && selected.Some?) ==> port == old(port) && isConnected == old(isConnected)
      ensures sensorData == old(sensorData) && currentValue == old(currentValue)
    {
      if supported {
        if selected.Some? {
          port := selected;
          isConnected := true;
        }
      }
    }

    /** disconnect: without a port nothing happens; with one, a close that
        succeeds (`closed`) clears the port and the connected flag, and a
        close that fails is only logged. */
    method Disconnect(closed: bool)
      requires Valid()
      modifies this
      ensures Valid()
      ensures old(port).Some? && closed ==> port == None && !isConnected
      ensures !(old(port).Some? && closed) ==> port == old(port) && isConnected == old(isConnected)
      ensures sensorData == old(sensorData) && currentValue == old(currentValue)
    {
      if port.Some? {
        if closed {
          port := None;
          isConnected := false;
        }
      }
    }

    /** updateSensorData: the value becomes the current value and a new
        reading is appended to the history, which keeps its last 50. */
    method UpdateSensorData(value: real, stamp: Stamp)
      requires Valid()
      modifies this
      ensures Valid()
      ensures currentValue == value
      ensures sensorData == Append(old(sensorData), value, stamp, Capacity)
      ensures isConnected == old(isConnected) && port == old(port)
    {
      currentValue := value;
      sensorData := Append(sensorData, value, stamp, Capacity);
    }

    /** The history holds the updates of `values`, with `stamps`, applied
        to `prev`, and the current value is the last of them (`current`
        when there are none). */
    ghost predicate Tracks(prev: seq<Reading>, current: real, values: seq<real>, stamps: seq<Stamp>)
      reads this
    {
      Valid() && |stamps| == |values| && sensorData == Feed(prev, values, stamps, Capacity)
      && currentValue == LastOr(values, current)
    }

    method ProcessLine(line: string, parseFloat: string -> Option<real>, stamps: seq<Stamp>, used: nat,
                       ghost prev: seq<Reading>, ghost fed: seq<real>, ghost current: real)
      returns (next: nat)
      requires used + |ToSeq(LineValue(line, parseFloat))| <= |stamps|
      requires Tracks(prev, current, fed, stamps[..used])
      modifies this
      ensures next == used + |ToSeq(LineValue(line, parseFloat))|
      ensures Tracks(prev, current, fed + ToSeq(LineValue(line, parseFloat)), stamps[..next])
      ensures isConnected == old(isConnected) && port == old(port)
    {
      var trimmedLine := JsTrim(line);
      next := used;
      if trimmedLine != [] {
        var sensorValue := parseFloat(trimmedLine);
        if sensorValue.Some? {
          var value := sensorValue.value;
          UpdateSensorData(value, stamps[used]);
          next := used + 1;
          TakeOfTake(stamps, used, next);
          TakeOfAppend(fed, [value], used);
          FeedLast(prev, fed + [value], stamps[..next], Capacity);
        }
      }
      if next == used {
        assert fed + ToSeq(LineValue(line, parseFloat)) == fed;
      }
    }

    /** Line `i` of `lines`, read as ProcessLine reads it: stated on the
        values of the lines before it, the loop step of ProcessLines. */
    method ProcessLineAt(lines: seq<string>, i: nat, parseFloat: string -> Option<real>, stamps: seq<Stamp>,
                         used: nat, ghost prev: seq<Reading>, ghost current: real)
      returns (next: nat)
      requires i < |lines| && |LinesValues(lines, parseFloat)| <= |stamps|
      requires used <= |stamps| && Tracks(prev, current, ValuesBefore(lines, i, parseFloat), stamps[..used])
      modifies this
      ensures next <= |stamps| && Tracks(prev, current, ValuesBefore(lines, i + 1, parseFloat), stamps[..next])
      ensures isConnected == old(isConnected) && port == old(port)
    {
      ValuesNext(lines, i, parseFloat);
      ValuesBeforeMonotone(lines, i + 1, |lines|, parseFloat);
      next := ProcessLine(lines[i], parseFloat, stamps, used, prev, ValuesBefore(lines, i, parseFloat), current);
    }

    method ProcessLines(lines: seq<string>, parseFloat: string -> Option<real>, stamps: seq<Stamp>)
      requires Valid()
      requires |stamps| == |LinesValues(lines, parseFloat)|
      modifies this
      ensures Valid()
      ensures sensorData == Feed(old(sensorData), LinesValues(lines, parseFloat), stamps, Capacity)
      ensures currentValue == LastOr(LinesValues(lines, parseFloat), old(currentValue))
      ensures isConnected == old(isConnected) && port == old(port)
    {
      var i := 0;
      var used := 0;
      while i < |lines|
        invariant 0 <= i <= |lines| && 0 <= used <= |stamps|
        invariant Tracks(old(sensorData), old(currentValue), ValuesBefore(lines, i, parseFloat), stamps[..used])
        invariant isConnected == old(isConnected) && port == old(port)
      {
        used := ProcessLineAt(lines, i, parseFloat, stamps, used, old(sensorData), old(currentValue));
        i := i + 1;
      }
      TakeAll(stamps, used);
    }

    /** The body of the read loop for one decoded chunk: `text.split('\n')`,
        then every line through the callback. */
    method ProcessChunk(text: string, parseFloat: string -> Option<real>, stamps: seq<Stamp>)
      requires Valid()
      requires |stamps| == |ChunkValues(text, parseFloat)|
      modifies this
      ensures Valid()
      ensures sensorData == Feed(old(sensorData), ChunkValues(text, parseFloat), stamps, Capacity)
      ensures currentValue == LastOr(ChunkValues(text, parseFloat), old(currentValue))
      ensures isConnected == old(isConnected) && port == old(port)
    {
      var lines := Split(text, '\n');
      ProcessLines(lines, parseFloat, stamps);
    }

    /** One pass of the read loop: the chunk just read goes through
        ProcessChunk, taking the stamps from `used` on. Stated for a history
        that so far holds the run of updates `fed` applied to `prev`: the
        chunk extends that run by its values. */
    method ReadChunk(chunk: string, parseFloat: string -> Option<real>, stamps: seq<Stamp>, used: nat,
                     ghost prev: seq<Reading>, ghost fed: seq<real>, ghost current: real)
      returns (next: nat)
      requires Valid()
      requires used == |fed| && used + |ChunkValues(chunk, parseFloat)| <= |stamps|
      requires sensorData == Feed(prev, fed, stamps[..used], Capacity)
      requires currentValue == LastOr(fed, current)
      modifies this
      ensures next == used + |ChunkValues(chunk, parseFloat)|
      ensures Valid()
      ensures sensorData == Feed(prev, fed + ChunkValues(chunk, parseFloat), stamps[..next], Capacity)
      ensures currentValue == LastOr(fed + ChunkValues(chunk, parseFloat), current)
      ensures isConnected == old(isConnected) && port == old(port)
    {
      var values := ChunkValues(chunk, parseFloat);
      next := used + |values|;
      FeedPrefixConcat(prev, fed, values, stamps, used, next, Capacity);
      LastOrConcat(fed, values, current);
      ProcessChunk(chunk, parseFloat, stamps[used..next]);
    }

    /** readSerialData: chunks are processed one at a time, in arrival order,
        each split on its own (no text carries over from one chunk to the
        next); the loop ends when the stream is done. `stamps` holds the
        clock text and random draw of every update, in order. connect
        starts it only once the port is open and the hook connected. */
    method ReadSerialData(chunks: seq<string>, parseFloat: string -> Option<real>, stamps: seq<Stamp>)
      requires Valid() && isConnected && port.Some?
      requires |stamps| == |StreamValues(chunks, parseFloat)|
      modifies this
      ensures Valid()
      ensures sensorData == Feed(old(sensorData), StreamValues(chunks, parseFloat), stamps, Capacity)
      ensures currentValue == LastOr(StreamValues(chunks, parseFloat), old(currentValue))
      ensures isConnected == old(isConnected) && port == old(port)
    {
      var i := 0;
      var used := 0;
      ghost var fed: seq<real> := [];
      while i < |chunks|
        invariant 0 <= i <= |chunks|
        invariant fed == StreamValuesBefore(chunks, i, parseFloat)
        invariant used == |fed| <= |stamps|
        invariant Valid()
        invariant sensorData == Feed(old(sensorData), fed, stamps[..used], Capacity)
        invariant currentValue == LastOr(fed, old(currentValue))
        invariant isConnected == old(isConnected) && port == old(port)
      {
        StreamNext(chunks, i, parseFloat);
        StreamValuesMonotone(chunks, i + 1, |chunks|, parseFloat);
        used := ReadChunk(chunks[i], parseFloat, stamps, used, old(sensorData), fed, old(currentValue));
        fed := fed + ChunkValues(chunks[i], parseFloat);
        i := i + 1;
      }
      TakeAll(stamps, used);
    }
  }
}
