/** The generator's signal vector and the update applied to one signal per call:
    a discretised Ornstein-Uhlenbeck step clamped into the signal's range
    (send_data.py:52-82). Values are exact reals; the Gaussian draw and the
    square root of the time step are parameters. */
module Signals {

  /** The seven keys of the signal vector. */
  datatype Signal = Systolic | Diastolic | HeartRate | RespiratoryRate | Temperature | Spo2 | Ecg

  /** The signal vector: one real per key. */
  datatype State = State(
    systolic: real,
    diastolic: real,
    heartRate: real,
    respiratoryRate: real,
    temperature: real,
    spo2: real,
    ecg: real)

  /** Resting-healthy values the vector starts from (send_data.py:52-61). */
  const Initial: State := State(118.0, 78.0, 74.0, 15.0, 36.8, 98.0, 74.0)

  /** The value stored under `name`. */
  function Get(s: State, name: Signal): real
  {
    match name
    case Systolic => s.systolic
    case Diastolic => s.diastolic
    case HeartRate => s.heartRate
    case RespiratoryRate => s.respiratoryRate
    case Temperature => s.temperature
    case Spo2 => s.spo2
    case Ecg => s.ecg
  }

  /** Stores `v` under `name`; the six other keys keep their values. */
  function Put(s: State, name: Signal, v: real): (r: State)
    ensures Get(r, name) == v
    ensures forall other :: other != name ==> Get(r, other) == Get(s, other)
  {
    match name
    case Systolic => s.(systolic := v)
    case Diastolic => s.(diastolic := v)
    case HeartRate => s.(heartRate := v)
    case RespiratoryRate => s.(respiratoryRate := v)
    case Temperature => s.(temperature := v)
    case Spo2 => s.(spo2 := v)
    case Ecg => s.(ecg := v)
  }

  /** `max(lo, min(hi, v))` (send_data.py:65-66). */
  function Clamp(v: real, lo: real, hi: real): (r: real)
    ensures lo <= hi ==> lo <= r <= hi
    ensures lo <= v <= hi ==> r == v
    ensures v < lo ==> r == lo
    ensures lo <= hi < v ==> r == hi
  {
    var m := if v < hi then v else hi;
    if lo < m then m else lo
  }

  /** Clamping twice is clamping once. */
  lemma ClampIdempotent(v: real, lo: real, hi: real)
    requires lo <= hi
    ensures Clamp(Clamp(v, lo, hi), lo, hi) == Clamp(v, lo, hi)
  {
  }

  /** Clamping preserves order. */
  lemma ClampMonotone(v: real, w: real, lo: real, hi: real)
    requires v <= w
    ensures Clamp(v, lo, hi) <= Clamp(w, lo, hi)
  {
  }

  function Abs(x: real): real
  {
    if x < 0.0 then -x else x
  }

  /** The clamped value is the point of `[lo, hi]` nearest to `v`. */
  lemma ClampIsNearest(v: real, lo: real, hi: real, y: real)
    requires lo <= y <= hi
    ensures Abs(Clamp(v, lo, hi) - v) <= Abs(y - v)
  {
  }

  /** The deterministic pull towards `mu` over a step of length `dt`. */
  function Drift(x: real, mu: real, theta: real, dt: real): real
  {
    theta * (mu - x) * dt
  }

  /** The random kick: the draw scaled by `sigma` and the square root of the step. */
  function Diffusion(sigma: real, sqrtDt: real, noise: real): real
  {
    sigma * sqrtDt * noise
  }

  /** One Euler-Maruyama step of an Ornstein-Uhlenbeck process, clamped:
      `x + theta*(mu - x)*dt + sigma*sqrtDt*noise` saturated into `[lo, hi]`
      (send_data.py:76-80). `noise` stands for the standard-normal draw and
      `sqrtDt` for `dt ** 0.5`. */
  function OuStep(x: real, lo: real, hi: real, mu: real, theta: real, sigma: real,
                  dt: real, sqrtDt: real, noise: real): (r: real)
    ensures lo <= hi ==> lo <= r <= hi
  {
    Clamp(x + Drift(x, mu, theta, dt) + Diffusion(sigma, sqrtDt, noise), lo, hi)
  }

  /** Holding the draw at zero leaves only the clamped drift towards `mu`. */
  lemma OuStepZeroNoise(x: real, lo: real, hi: real, mu: real, theta: real, sigma: real,
                        dt: real, sqrtDt: real)
    ensures OuStep(x, lo, hi, mu, theta, sigma, dt, sqrtDt, 0.0)
         == Clamp(x + theta * (mu - x) * dt, lo, hi)
  {
  }

  /** The product of two non-negative reals is non-negative. */
  lemma MulNonneg(a: real, b: real)
    requires 0.0 <= a && 0.0 <= b
    ensures 0.0 <= a * b
  {
  }
  /** With `theta*dt` in `[0, 1]` the drift covers part of the way to `mu`. */
  lemma DriftBetween(x: real, mu: real, theta: real, dt: real)
    requires 0.0 <= theta * dt <= 1.0
    ensures x <= mu ==> 0.0 <= Drift(x, mu, theta, dt) <= mu - x
    ensures mu <= x ==> mu - x <= Drift(x, mu, theta, dt) <= 0.0
  {
    assert Drift(x, mu, theta, dt) == (theta * dt) * (mu - x);
    assert (mu - x) - (theta * dt) * (mu - x) == (1.0 - theta * dt) * (mu - x);
    if x <= mu {
      MulNonneg(theta * dt, mu - x);
      MulNonneg(1.0 - theta * dt, mu - x);
    } else {
      MulNonneg(theta * dt, x - mu);
      MulNonneg(1.0 - theta * dt, x - mu);
      assert (theta * dt) * (x - mu) == -((theta * dt) * (mu - x));
      assert (1.0 - theta * dt) * (x - mu) == -((1.0 - theta * dt) * (mu - x));
    }
  }
  /** With `theta*dt` in `[0, 2]` the drift may pass `mu` but never ends
      further from it than the start. */
  lemma DriftContracts(x: real, mu: real, theta: real, dt: real)
    requires 0.0 <= theta * dt <= 2.0
    ensures Abs(x + Drift(x, mu, theta, dt) - mu) <= Abs(x - mu)
  {
    assert x + Drift(x, mu, theta, dt) - mu == (1.0 - theta * dt) * (x - mu);
    if theta * dt <= 1.0 {
      assert (x - mu) - (1.0 - theta * dt) * (x - mu) == (theta * dt) * (x - mu);
      if x >= mu {
        MulNonneg(1.0 - theta * dt, x - mu);
        MulNonneg(theta * dt, x - mu);
      } else {
        MulNonneg(1.0 - theta * dt, mu - x);
        MulNonneg(theta * dt, mu - x);
        assert (1.0 - theta * dt) * (x - mu) == -((1.0 - theta * dt) * (mu - x));
        assert (theta * dt) * (x - mu) == -((theta * dt) * (mu - x));
      }
    } else {
      assert (x - mu) + (1.0 - theta * dt) * (x - mu) == (2.0 - theta * dt) * (x - mu);
      if x >= mu {
        MulNonneg(theta * dt - 1.0, x - mu);
        MulNonneg(2.0 - theta * dt, x - mu);
        assert (1.0 - theta * dt) * (x - mu) == -((theta * dt - 1.0) * (x - mu));
      } else {
        MulNonneg(theta * dt - 1.0, mu - x);
        MulNonneg(2.0 - theta * dt, mu - x);
        assert (1.0 - theta * dt) * (x - mu) == (theta * dt - 1.0) * (mu - x);
        assert (2.0 - theta * dt) * (x - mu) == -((2.0 - theta * dt) * (mu - x));
      }
    }
  }

  /** Without noise and with `theta*dt` at most 1, a step from inside the
      range lands between the old value and the mean: no overshoot. */
  lemma OuStepNoOvershoot(x: real, lo: real, hi: real, mu: real, theta: real, sigma: real,
                          dt: real, sqrtDt: real)
    requires lo <= x <= hi && lo <= mu <= hi
    requires 0.0 <= theta * dt <= 1.0
    ensures var r := OuStep(x, lo, hi, mu, theta, sigma, dt, sqrtDt, 0.0);
            (x <= mu ==> x <= r <= mu) && (mu <= x ==> mu <= r <= x)
  {
    DriftBetween(x, mu, theta, dt);
    assert Diffusion(sigma, sqrtDt, 0.0) == 0.0;
  }

  /** Without noise and with `theta*dt` at most 2, a step never ends further
      from the mean than it started, though above 1 it crosses the mean. */
  lemma OuStepContracts(x: real, lo: real, hi: real, mu: real, theta: real, sigma: real,
                        dt: real, sqrtDt: real)
    requires lo <= mu <= hi
    requires 0.0 <= theta * dt <= 2.0
    ensures Abs(OuStep(x, lo, hi, mu, theta, sigma, dt, sqrtDt, 0.0) - mu) <= Abs(x - mu)
  {
    DriftContracts(x, mu, theta, dt);
    assert Diffusion(sigma, sqrtDt, 0.0) == 0.0;
    ClampIsNearest(x + Drift(x, mu, theta, dt), lo, hi, mu);
  }

  /** The constants of one signal's process. */
  datatype Process = Process(lo: real, hi: real, mu: real, theta: real, sigma: real)

  /** The clamped new value of a signal together with the vector it was written into. */
  datatype Step = Step(state: State, value: real)

  /** `_ou_step(name, ...)`: reads the signal stored under `name`, steps it,
      writes the clamped result back under `name` and returns it
      (send_data.py:68-82). */
  function Advance(s: State, name: Signal, p: Process, dt: real, sqrtDt: real, noise: real): (r: Step)
    ensures p.lo <= p.hi ==> p.lo <= r.value <= p.hi
    ensures Get(r.state, name) == r.value
    ensures forall other :: other != name ==> Get(r.state, other) == Get(s, other)
    ensures r.value == OuStep(Get(s, name), p.lo, p.hi, p.mu, p.theta, p.sigma, dt, sqrtDt, noise)
  {
    var x := OuStep(Get(s, name), p.lo, p.hi, p.mu, p.theta, p.sigma, dt, sqrtDt, noise);
    Step(Put(s, name, x), x)
  }
}
