/** One tick of the vital-signs generator (`send_fake_data`, send_data.py:84-141):
    the elapsed time, the seven coupled signal updates in their fixed order,
    the pulse-pressure correction, the clock update and the rendered reading.

    The monotonic clock reading `now`, the Unix timestamp, the seven Gaussian
    draws and the square root of the step are inputs of the tick. */
module VitalSigns {
  import opened Signals
  import opened Rounding

  /** Smallest time step a tick uses, in seconds (send_data.py:87). */
  const MinDt: real := 0.1

  /** Required gap between systolic and diastolic pressure (send_data.py:113-114). */
  const PulsePressure: real := 25.0

  const HeartRateProcess: Process := Process(60.0, 100.0, 75.0, 0.6, 1.5)

  /** ECG reverts towards the heart rate of the current tick. */
  function EcgProcess(heartRate: real): Process
  {
    Process(55.0, 110.0, heartRate, 1.8, 3.0)
  }

  function RespiratoryProcess(mean: real): Process
  {
    Process(12.0, 20.0, mean, 0.35, 0.25)
  }

  const SystolicProcess: Process := Process(105.0, 130.0, 118.0, 0.18, 0.7)
  const DiastolicProcess: Process := Process(65.0, 85.0, 78.0, 0.18, 0.5)
  const TemperatureProcess: Process := Process(36.5, 37.2, 36.8, 0.06, 0.03)
  const Spo2Process: Process := Process(96.0, 100.0, 98.5, 0.25, 0.12)

  /** Every stored signal lies inside the clamp range of its own update. */
  ghost predicate InRange(s: State)
  {
    && 60.0 <= s.heartRate <= 100.0
    && 55.0 <= s.ecg <= 110.0
    && 12.0 <= s.respiratoryRate <= 20.0
    && 105.0 <= s.systolic <= 130.0
    && 65.0 <= s.diastolic <= 85.0
    && 36.5 <= s.temperature <= 37.2
    && 96.0 <= s.spo2 <= 100.0
  }

  /** What every tick leaves behind: all signals in range and diastolic at
      least `PulsePressure` below systolic. */
  ghost predicate Valid(s: State)
  {
    InRange(s) && s.diastolic <= s.systolic - PulsePressure
  }

  /** The generator's persistent data: the signal vector and the monotonic
      time of the last tick (send_data.py:52-63). */
  datatype Generator = Generator(state: State, lastUpdate: real)

  /** A generator created at monotonic time `t0`, holding the resting values. */
  function Start(t0: real): (g: Generator)
    ensures Valid(g.state)
    ensures g.lastUpdate == t0
  {
    Generator(Initial, t0)
  }

  /** The seven standard-normal draws of one tick, one per `_ou_step` call,
      named after the signal whose step consumes it. */
  datatype Draws = Draws(
    heartRate: real,
    ecg: real,
    respiratoryRate: real,
    systolic: real,
    diastolic: real,
    temperature: real,
    spo2: real)

  datatype BloodPressure = BloodPressure(systolic: int, diastolic: int)

  /** The record published for one tick (send_data.py:130-141). */
  datatype Reading = Reading(
    bloodPressure: BloodPressure,
    heartRate: int,
    respiratoryRate: int,
    temperature: real,
    spo2: int,
    ecg: int,
    lastUpdated: int)

  /** Elapsed time since the last tick, never below `MinDt` (send_data.py:87). */
  function Dt(lastUpdate: real, now: real): (dt: real)
    ensures dt >= MinDt
    ensures dt == now - lastUpdate || dt == MinDt
    ensures now - lastUpdate >= MinDt ==> dt == now - lastUpdate
  {
    if MinDt < now - lastUpdate then now - lastUpdate else MinDt
  }

  /** A clock that stood still or ran backwards still yields a step of `MinDt`. */
  lemma DtFloor(lastUpdate: real, now: real)
    requires now <= lastUpdate
    ensures Dt(lastUpdate, now) == MinDt
  {
  }

  /** Target of the respiratory rate, tied to the heart rate (send_data.py:100). */
  function RespiratoryMean(heartRate: real): (mu: real)
    ensures 12.0 <= mu <= 18.0
  {
    Clamp(14.0 + (heartRate - 75.0) * 0.05, 12.0, 18.0)
  }

  /** For every heart rate the generator can hold, the clamp on the
      respiratory target does nothing and the target lies in [13.25, 15.25]. */
  lemma RespiratoryMeanUnclamped(heartRate: real)
    requires 60.0 <= heartRate <= 100.0
    ensures RespiratoryMean(heartRate) == 14.0 + (heartRate - 75.0) * 0.05
    ensures 13.25 <= RespiratoryMean(heartRate) <= 15.25
  {
  }

  /** The pulse-pressure correction applied after diastolic's own step
      (send_data.py:113-116): when `diastolic` is closer than `PulsePressure`
      to `systolic`, it is replaced by `systolic - PulsePressure` clamped to
      [60, 90] and that value is stored. */
  function Couple(s: State, systolic: real, diastolic: real): (r: Step)
    ensures diastolic <= systolic - PulsePressure ==> r == Step(s, diastolic)
    ensures diastolic > systolic - PulsePressure ==> 60.0 <= r.value <= 90.0
    ensures diastolic > systolic - PulsePressure ==> Get(r.state, Diastolic) == r.value
    ensures forall other :: other != Diastolic ==> Get(r.state, other) == Get(s, other)
    ensures 105.0 <= systolic && diastolic <= 85.0 && diastolic > systolic - PulsePressure ==>
              r.value == systolic - PulsePressure && 80.0 <= r.value < 85.0
    ensures 105.0 <= systolic && 65.0 <= diastolic <= 85.0 ==>
              65.0 <= r.value <= 85.0 && r.value <= systolic - PulsePressure
  {
    if diastolic > systolic - PulsePressure then
      var d := Clamp(systolic - PulsePressure, 60.0, 90.0);
      Step(Put(s, Diastolic, d), d)
    else
      Step(s, diastolic)
  }

  /** The integer fields of the reading and the one-decimal temperature
      (send_data.py:130-141). */
  function Render(s: State, timestamp: int): (r: Reading)
    ensures IsHalfEvenRounding(s.systolic, r.bloodPressure.systolic)
    ensures IsHalfEvenRounding(s.diastolic, r.bloodPressure.diastolic)
    ensures IsHalfEvenRounding(s.heartRate, r.heartRate)
    ensures IsHalfEvenRounding(s.respiratoryRate, r.respiratoryRate)
    ensures IsHalfEvenRounding(s.spo2, r.spo2)
    ensures IsHalfEvenRounding(s.ecg, r.ecg)
    ensures -0.05 <= r.temperature - s.temperature <= 0.05
    ensures r.lastUpdated == timestamp
  {
    Reading(
      BloodPressure(RoundHalfEven(s.systolic), RoundHalfEven(s.diastolic)),
      RoundHalfEven(s.heartRate),
      RoundHalfEven(s.respiratoryRate),
      RoundTenths(s.temperature),
      RoundHalfEven(s.spo2),
      RoundHalfEven(s.ecg),
      timestamp)
  }

  /** Every field of the reading lies within the integer (or whole-tenth)
      bounds of its signal, and the rendered pulse pressure is at least 24. */
  ghost predicate ReadingInBounds(r: Reading)
  {
    && 105 <= r.bloodPressure.systolic <= 130
    && 65 <= r.bloodPressure.diastolic <= 85
    && r.bloodPressure.diastolic <= r.bloodPressure.systolic - 24
    && 60 <= r.heartRate <= 100
    && 12 <= r.respiratoryRate <= 20
    && 36.5 <= r.temperature <= 37.2
    && 96 <= r.spo2 <= 100
    && 55 <= r.ecg <= 110
  }

  /** Rendering a valid state yields a reading inside every signal's bounds.
      The margin between the rendered pressures can shrink from 25 to 24 when
      both values sit exactly on a half, because ties round to even. */
  lemma RenderInBounds(s: State, timestamp: int)
    requires Valid(s)
    ensures ReadingInBounds(Render(s, timestamp))
  {
    RoundWithinBounds(s.systolic, 105, 130);
    RoundWithinBounds(s.diastolic, 65, 85);
    RoundWithinBounds(s.heartRate, 60, 100);
    RoundWithinBounds(s.respiratoryRate, 12, 20);
    RoundTenthsWithinBounds(s.temperature, 365, 372);
    RoundWithinBounds(s.spo2, 96, 100);
    RoundWithinBounds(s.ecg, 55, 110);
  }

  /** The seven signal updates of one tick and the pulse-pressure correction
      (send_data.py:89-124): the stored vector afterwards, and the values the
      tick holds in its local variables for rendering. */
  datatype Update = Update(stored: State, local: State)

  /** Steps the seven signals in the source's order: heart rate, ECG towards
      the new heart rate, respiratory rate towards a target from the new heart
      rate, systolic, diastolic with the pulse-pressure correction against the
      new systolic, temperature, SpO2. Holds for every draw and every `sqrtDt`. */
  function UpdateSignals(s: State, dt: real, sqrtDt: real, draws: Draws): (r: Update)
    ensures Valid(r.stored)
    ensures r.local == r.stored
  {
    var hr := Advance(s, HeartRate, HeartRateProcess, dt, sqrtDt, draws.heartRate);
    var ecg := Advance(hr.state, Ecg, EcgProcess(hr.value), dt, sqrtDt, draws.ecg);
    var rrMu := RespiratoryMean(hr.value);
    var rr := Advance(ecg.state, RespiratoryRate, RespiratoryProcess(rrMu), dt, sqrtDt, draws.respiratoryRate);
    var sys := Advance(rr.state, Systolic, SystolicProcess, dt, sqrtDt, draws.systolic);
    var dia0 := Advance(sys.state, Diastolic, DiastolicProcess, dt, sqrtDt, draws.diastolic);
    var dia := Couple(dia0.state, sys.value, dia0.value);
    var temp := Advance(dia.state, Temperature, TemperatureProcess, dt, sqrtDt, draws.temperature);
    var spo2 := Advance(temp.state, Spo2, Spo2Process, dt, sqrtDt, draws.spo2);
    Update(spo2.state, State(sys.value, dia.value, hr.value, rr.value, temp.value, spo2.value, ecg.value))
  }

  /** What one tick leaves behind: the next generator and the reading to publish. */
  datatype Outcome = Outcome(gen: Generator, reading: Reading)

  /** `send_fake_data` without the publish (send_data.py:84-141): computes the
      step from the clock, updates the signals, records `now` and renders the
      reading from the tick's new values. */
  function Tick(g: Generator, now: real, draws: Draws, sqrtDt: real, timestamp: int): (r: Outcome)
    ensures Valid(r.gen.state)
    ensures r.gen.lastUpdate == now
    ensures r.reading == Render(r.gen.state, timestamp)
    ensures ReadingInBounds(r.reading)
  {
    var u := UpdateSignals(g.state, Dt(g.lastUpdate, now), sqrtDt, draws);
    RenderInBounds(u.stored, timestamp);
    Outcome(Generator(u.stored, now), Render(u.local, timestamp))
  }

  /** The order of the updates inside a tick, stated on the resulting
      vector: ECG reverts towards the heart rate produced by this tick, the
      respiratory target is computed from that same new heart rate, and the
      pulse-pressure check uses the systolic value produced by this tick. */
  lemma TickOrder(g: Generator, now: real, draws: Draws, sqrtDt: real, timestamp: int)
    ensures var s := g.state;
            var t := Tick(g, now, draws, sqrtDt, timestamp).gen.state;
            var dt := Dt(g.lastUpdate, now);
            && t.heartRate == OuStep(s.heartRate, 60.0, 100.0, 75.0, 0.6, 1.5, dt, sqrtDt, draws.heartRate)
            && t.ecg == OuStep(s.ecg, 55.0, 110.0, t.heartRate, 1.8, 3.0, dt, sqrtDt, draws.ecg)
            && t.respiratoryRate
               == OuStep(s.respiratoryRate, 12.0, 20.0, RespiratoryMean(t.heartRate), 0.35, 0.25,
                         dt, sqrtDt, draws.respiratoryRate)
            && t.systolic == OuStep(s.systolic, 105.0, 130.0, 118.0, 0.18, 0.7, dt, sqrtDt, draws.systolic)
            && t.diastolic
               == Couple(s, t.systolic,
                         OuStep(s.diastolic, 65.0, 85.0, 78.0, 0.18, 0.5, dt, sqrtDt, draws.diastolic)).value
            && t.temperature
               == OuStep(s.temperature, 36.5, 37.2, 36.8, 0.06, 0.03, dt, sqrtDt, draws.temperature)
            && t.spo2 == OuStep(s.spo2, 96.0, 100.0, 98.5, 0.25, 0.12, dt, sqrtDt, draws.spo2)
  {
  }

  /** The inputs of one tick. */
  datatype Request = Request(now: real, draws: Draws, sqrtDt: real, timestamp: int)

  /** The generator after a run of ticks and the readings they produced, in order. */
  datatype Trace = Trace(gen: Generator, readings: seq<Reading>)

  /** Repeated ticks, as the driver loop of send_data.py:153-154 performs
      them, one per request. */
  function Run(g: Generator, reqs: seq<Request>): (r: Trace)
    ensures |r.readings| == |reqs|
    ensures forall i :: 0 <= i < |r.readings| ==> ReadingInBounds(r.readings[i])
    ensures |reqs| == 0 ==> r.gen == g
    decreases |reqs|
  {
    if |reqs| == 0 then Trace(g, [])
    else
      var o := Tick(g, reqs[0].now, reqs[0].draws, reqs[0].sqrtDt, reqs[0].timestamp);
      var rest := Run(o.gen, reqs[1..]);
      var readings := [o.reading] + rest.readings;
      assert forall i :: 0 < i < |readings| ==> readings[i] == rest.readings[i - 1];
      Trace(rest.gen, readings)
  }

  /** After a non-empty run the stored vector satisfies `Valid` and the
      clock holds the last request's time, whatever the starting generator. */
  lemma {:induction false} RunValid(g: Generator, reqs: seq<Request>)
    requires |reqs| > 0
    ensures Valid(Run(g, reqs).gen.state)
    ensures Run(g, reqs).gen.lastUpdate == reqs[|reqs| - 1].now
    decreases |reqs|
  {
    var o := Tick(g, reqs[0].now, reqs[0].draws, reqs[0].sqrtDt, reqs[0].timestamp);
    if |reqs| > 1 {
      RunValid(o.gen, reqs[1..]);
    }
  }
}
