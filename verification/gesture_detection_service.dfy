/** The shake detector of GestureDetectionService: a record of the last
    processed accelerometer sample and its time, updated by one pure step per
    sensor event. Sensor values are real numbers and times are milliseconds
    supplied by the caller. */
module GestureDetectionService {
  import opened Nullable

  /** Samples closer together than this (or exactly this far apart) are
      discarded. */
  const MIN_GAP_MS: int := 100
  /** A speed strictly above this is a shake. */
  const SHAKE_THRESHOLD: real := 800.0
  /** The scale factor of the speed formula. */
  const SPEED_SCALE: real := 10000.0

  /** `lastX`, `lastY`, `lastZ` and `lastUpdate`. */
  datatype ShakeState = ShakeState(lastX: real, lastY: real, lastZ: real, lastUpdate: int)

  /** The three values of one accelerometer event. */
  datatype Sample = Sample(x: real, y: real, z: real)

  /** The state after an event, and whether it was reported as a shake. */
  datatype SensorStep = SensorStep(state: ShakeState, shook: bool)

  /** The fields' initial values: the first sample is compared with the
      origin at time 0. */
  const Initial: ShakeState := ShakeState(0.0, 0.0, 0.0, 0)

  function Abs(r: real): (a: real)
    ensures a >= 0.0
    ensures a == r || a == -r
  {
    if r < 0.0 then -r else r
  }

  /** The change in the sum of the three axes. */
  function DeltaSum(x: real, y: real, z: real, lastX: real, lastY: real, lastZ: real): real {
    (x + y + z) - (lastX + lastY + lastZ)
  }

  /** `calculateSpeed`: the scaled first difference of the axis sum. */
  function CalculateSpeed(x: real, y: real, z: real, lastX: real, lastY: real, lastZ: real,
                          diffTime: int): (speed: real)
    requires diffTime > 0
    ensures speed >= 0.0
    ensures speed * diffTime as real == Abs(DeltaSum(x, y, z, lastX, lastY, lastZ)) * SPEED_SCALE
  {
    Abs(x + y + z - lastX - lastY - lastZ) / diffTime as real * SPEED_SCALE
  }

  /** The threshold test in closed form, free of division. */
  predicate IsShake(delta: real, diffTime: int) {
    Abs(delta) * SPEED_SCALE > SHAKE_THRESHOLD * diffTime as real
  }

  /** A speed is above the threshold exactly when the closed-form test holds. */
  lemma SpeedAboveThreshold(x: real, y: real, z: real, lastX: real, lastY: real, lastZ: real,
                            diffTime: int)
    requires diffTime > 0
    ensures CalculateSpeed(x, y, z, lastX, lastY, lastZ, diffTime) > SHAKE_THRESHOLD
            <==> IsShake(DeltaSum(x, y, z, lastX, lastY, lastZ), diffTime)
  {
    var speed := CalculateSpeed(x, y, z, lastX, lastY, lastZ, diffTime);
    var t := diffTime as real;
    ScaleByPositive(speed, SHAKE_THRESHOLD, t);
  }

  /** Multiplying both sides by a positive number keeps a strict order. */
  lemma ScaleByPositive(a: real, b: real, t: real)
    requires t > 0.0
    ensures a > b <==> a * t > b * t
  {
    if a > b {
      assert (a - b) * t > 0.0;
    } else {
      assert (b - a) * t >= 0.0;
    }
  }

  /** The speed depends on the samples only through the change of the axis
      sum, so it is the same whichever axes the values are read from. */
  lemma SpeedDependsOnDeltaSum(x: real, y: real, z: real, lastX: real, lastY: real, lastZ: real,
                               x': real, y': real, z': real, lastX': real, lastY': real, lastZ': real,
                               diffTime: int)
    requires diffTime > 0
    requires DeltaSum(x, y, z, lastX, lastY, lastZ) == DeltaSum(x', y', z', lastX', lastY', lastZ')
    ensures CalculateSpeed(x, y, z, lastX, lastY, lastZ, diffTime)
            == CalculateSpeed(x', y', z', lastX', lastY', lastZ', diffTime)
  {
    var s := CalculateSpeed(x, y, z, lastX, lastY, lastZ, diffTime);
    var s' := CalculateSpeed(x', y', z', lastX', lastY', lastZ', diffTime);
    var t := diffTime as real;
    assert s * t == s' * t;
    if s < s' {
      ScaleByPositive(s', s, t);
    } else if s > s' {
      ScaleByPositive(s, s', t);
    }
  }

  /** Swapping the axes of both samples does not change the speed. */
  lemma SpeedAxisSymmetric(x: real, y: real, z: real, lastX: real, lastY: real, lastZ: real,
                           diffTime: int)
    requires diffTime > 0
    ensures CalculateSpeed(x, y, z, lastX, lastY, lastZ, diffTime)
            == CalculateSpeed(y, z, x, lastY, lastZ, lastX, diffTime)
            == CalculateSpeed(z, y, x, lastZ, lastY, lastX, diffTime)
  {
    SpeedDependsOnDeltaSum(x, y, z, lastX, lastY, lastZ, y, z, x, lastY, lastZ, lastX, diffTime);
    SpeedDependsOnDeltaSum(x, y, z, lastX, lastY, lastZ, z, y, x, lastZ, lastY, lastX, diffTime);
  }

  /** Whether the gate lets a sample at `curTime` through. */
  predicate Processes(s: ShakeState, event: Option<Sample>, curTime: int) {
    event.Some? && curTime - s.lastUpdate > MIN_GAP_MS
  }

  /** `onSensorChanged`. A null event is ignored; a sample no more than
      100 ms after the last processed one is discarded; otherwise the speed
      is computed against the last sample, a shake is reported when it is
      above the threshold, and the sample and its time become the new last
      ones. */
  function OnSensorChanged(s: ShakeState, event: Option<Sample>, curTime: int): (r: SensorStep)
    ensures !Processes(s, event, curTime) ==> r.state == s && !r.shook
    ensures Processes(s, event, curTime) ==>
      r.state == ShakeState(event.value.x, event.value.y, event.value.z, curTime)
    ensures r.shook <==>
      Processes(s, event, curTime)
      && IsShake(DeltaSum(event.value.x, event.value.y, event.value.z, s.lastX, s.lastY, s.lastZ),
                 curTime - s.lastUpdate)
  {
    match event
    case None => SensorStep(s, false)
    case Some(sample) =>
      if curTime - s.lastUpdate > MIN_GAP_MS then
        var diffTime := curTime - s.lastUpdate;
        var speed := CalculateSpeed(sample.x, sample.y, sample.z, s.lastX, s.lastY, s.lastZ, diffTime);
        SpeedAboveThreshold(sample.x, sample.y, sample.z, s.lastX, s.lastY, s.lastZ, diffTime);
        SensorStep(ShakeState(sample.x, sample.y, sample.z, curTime), speed > SHAKE_THRESHOLD)
      else
        SensorStep(s, false)
  }

  /** One delivered sensor event and the time it was handled at. */
  datatype Reading = Reading(event: Option<Sample>, time: int)

  /** The detector after a run of events. */
  datatype Trace = Trace(state: ShakeState, processed: nat, shakes: nat)

  function RunSensor(s: ShakeState, readings: seq<Reading>): (t: Trace)
    ensures t.shakes <= t.processed <= |readings|
    decreases |readings|
  {
    if |readings| == 0 then Trace(s, 0, 0)
    else
      var step := OnSensorChanged(s, readings[0].event, readings[0].time);
      var rest := RunSensor(step.state, readings[1..]);
      var p := if Processes(s, readings[0].event, readings[0].time) then 1 else 0;
      var k := if step.shook then 1 else 0;
      Trace(rest.state, rest.processed + p, rest.shakes + k)
  }

  /** The gate rate-limits evaluation: `lastUpdate` never decreases (a
      clock that goes backwards only gets samples discarded), and every
      processed sample advances it by more than 100 ms. */
  lemma {:induction false} RateLimited(s: ShakeState, readings: seq<Reading>)
    ensures RunSensor(s, readings).state.lastUpdate
            >= s.lastUpdate + (MIN_GAP_MS + 1) * RunSensor(s, readings).processed
    decreases |readings|
  {
    if |readings| > 0 {
      var step := OnSensorChanged(s, readings[0].event, readings[0].time);
      RateLimited(step.state, readings[1..]);
    }
  }

  /** The first processed sample is measured against the origin at time 0. */
  lemma FirstSampleAgainstOrigin(sample: Sample, curTime: int)
    requires curTime > MIN_GAP_MS
    ensures OnSensorChanged(Initial, Some(sample), curTime).shook
            <==> Abs(sample.x + sample.y + sample.z) * SPEED_SCALE > SHAKE_THRESHOLD * curTime as real
  {
  }

  /** A change of 9 over 100 ms gives speed 900, a shake; 7 gives 700, none. */
  lemma SpeedExamples()
    ensures CalculateSpeed(9.0, 0.0, 0.0, 0.0, 0.0, 0.0, 100) == 900.0
    ensures CalculateSpeed(7.0, 0.0, 0.0, 0.0, 0.0, 0.0, 100) == 700.0
  {
  }

  /** The gate is strict: a sample exactly 100 ms after the last update is
      discarded however large the change; at 101 ms a change of 9 is a shake
      and a change of 7 is not. */
  lemma GateExamples()
    ensures OnSensorChanged(Initial, Some(Sample(9.0, 0.0, 0.0)), 100) == SensorStep(Initial, false)
    ensures OnSensorChanged(Initial, Some(Sample(9.0, 0.0, 0.0)), 101).shook
    ensures !OnSensorChanged(Initial, Some(Sample(7.0, 0.0, 0.0)), 101).shook
  {
  }
}
