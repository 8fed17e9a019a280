/** The simulated dashboard of SensorDashboard.js: every tick of its timer
    makes up a sensor reading, shows it as the current value and appends it
    to a 15-entry history. The timer itself, the clock and the random source
    are outside the model; each tick receives what it reads from them. */
module Dashboard {

  import opened Numbers
  import opened SensorData
  import Utils

  /** The history keeps the last 15 readings. */
  const HistoryLength: nat := 15

  /** The component's state that generateData updates: `sensorData` and
      `currentValue`. */
  class SensorDashboard {
    var sensorData: seq<Reading>
    var currentValue: real

    ghost predicate Valid()
      reads this
    {
      |sensorData| <= HistoryLength
    }

    /** The initial state: `useState([])` and `useState(0)`. */
    constructor ()
      ensures Valid()
      ensures sensorData == [] && currentValue == 0.0
    {
      sensorData := [];
      currentValue := 0.0;
    }

    /** generateData: `sine` is Math.sin(Date.now() / 10000), `random` the
        draw that perturbs the reading, and `stamp` the clock text with the
        draw that perturbs the prediction. The reading is generateSensorData's
        (same base value and ranges), an integer in [390, 470]; it becomes the
        current value and the last history entry, whose prediction is within
        5 of it, and the history keeps its last 15 entries in order. */
    method GenerateData(sine: real, random: Fraction, stamp: Stamp)
      requires Valid()
      requires -1.0 <= sine <= 1.0
      modifies this
      ensures Valid()
      ensures currentValue == Utils.GenerateSensorData(sine, random) as real
      ensures 390.0 <= currentValue <= 470.0 && currentValue == currentValue.Floor as real
      ensures sensorData == Append(old(sensorData), currentValue, stamp, HistoryLength)
      ensures var last := sensorData[|sensorData| - 1];
              last.time == stamp.time && last.coletados == currentValue
              && currentValue - 5.0 <= last.previsoes < currentValue + 5.0
    {
      var baseValue := 420.0;
      var variation := sine * 30.0 + random * 20.0;
      var newValue := Round(baseValue + variation) as real;
      currentValue := newValue;
      sensorData := Append(sensorData, newValue, stamp, HistoryLength);
    }
  }
}
