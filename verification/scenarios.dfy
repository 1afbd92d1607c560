/** Worked instances of the generator: the first tick from the resting values
    with every draw at zero, a tick whose rendered blood pressures sit only 24
    apart, an ECG step that ends further from its mean, and Python's rounding
    on a few values. */
module Scenarios {
  import opened Signals
  import opened Rounding
  import opened VitalSigns

  const ZeroDraws: Draws := Draws(0.0, 0.0, 0.0, 0.0, 0.0, 0.0, 0.0)

  /** The vector after the first tick one second after start with all draws
      zero: heart rate moves from 74 to 74.6, and ECG, pulled towards that
      new 74.6 with `theta*dt = 1.8`, lands on 75.08, past the heart rate it
      tracks. */
  lemma FirstTickState(t0: real, timestamp: int)
    ensures Tick(Start(t0), t0 + 1.0, ZeroDraws, 1.0, timestamp).gen.state
         == State(118.0, 78.0, 74.6, 14.643, 36.8, 98.125, 75.08)
  {
    var g := Start(t0);
    assert Dt(g.lastUpdate, t0 + 1.0) == 1.0;
    TickOrder(g, t0 + 1.0, ZeroDraws, 1.0, timestamp);
    var t := Tick(g, t0 + 1.0, ZeroDraws, 1.0, timestamp).gen.state;
    assert t.heartRate == 74.6 by {
      assert Drift(74.0, 75.0, 0.6, 1.0) == 0.6;
      assert Diffusion(1.5, 1.0, 0.0) == 0.0;
    }
    assert t.ecg == 75.08 by {
      assert Drift(74.0, 74.6, 1.8, 1.0) == 1.08;
      assert Diffusion(3.0, 1.0, 0.0) == 0.0;
    }
    assert t.respiratoryRate == 14.643 by {
      assert RespiratoryMean(74.6) == 13.98;
      assert Drift(15.0, 13.98, 0.35, 1.0) == -0.357;
      assert Diffusion(0.25, 1.0, 0.0) == 0.0;
    }
    assert t.systolic == 118.0 by {
      assert Drift(118.0, 118.0, 0.18, 1.0) == 0.0;
      assert Diffusion(0.7, 1.0, 0.0) == 0.0;
    }
    assert t.diastolic == 78.0 by {
      assert Drift(78.0, 78.0, 0.18, 1.0) == 0.0;
      assert Diffusion(0.5, 1.0, 0.0) == 0.0;
    }
    assert t.temperature == 36.8 by {
      assert Drift(36.8, 36.8, 0.06, 1.0) == 0.0;
      assert Diffusion(0.03, 1.0, 0.0) == 0.0;
    }
    assert t.spo2 == 98.125 by {
      assert Drift(98.0, 98.5, 0.25, 1.0) == 0.125;
      assert Diffusion(0.12, 1.0, 0.0) == 0.0;
    }
  }

  /** The first tick's vector renders as 118/78, 75, 15, 36.8, 98, 75. */
  lemma FirstTickRender(timestamp: int)
    ensures Render(State(118.0, 78.0, 74.6, 14.643, 36.8, 98.125, 75.08), timestamp)
         == Reading(BloodPressure(118, 78), 75, 15, 36.8, 98, 75, timestamp)
  {
    assert RoundHalfEven(118.0) == 118 && RoundHalfEven(78.0) == 78;
    assert RoundHalfEven(74.6) == 75 && RoundHalfEven(75.08) == 75;
    assert RoundHalfEven(14.643) == 15 && RoundHalfEven(98.125) == 98;
    assert RoundHalfEven(368.0) == 368;
  }

  /** The whole first tick without noise: the vector above, ECG above the
      heart rate it tracks, and the published reading. */
  lemma FirstTickWithoutNoise(t0: real, timestamp: int)
    ensures var o := Tick(Start(t0), t0 + 1.0, ZeroDraws, 1.0, timestamp);
            && o.gen.state == State(118.0, 78.0, 74.6, 14.643, 36.8, 98.125, 75.08)
            && o.gen.state.ecg > o.gen.state.heartRate
            && o.reading == Reading(BloodPressure(118, 78), 75, 15, 36.8, 98, 75, timestamp)
  {
    FirstTickState(t0, timestamp);
    FirstTickRender(timestamp);
  }

  /** Python's `round` on the values the generator renders most often. */
  lemma RoundingExamples()
    ensures RoundHalfEven(74.6) == 75
    ensures RoundHalfEven(75.08) == 75
    ensures RoundHalfEven(0.5) == 0
    ensures RoundHalfEven(1.5) == 2
    ensures RoundHalfEven(2.5) == 2
    ensures RoundHalfEven(-0.5) == 0
    ensures RoundTenths(36.84) == 36.8
  {
  }

  /** Draws for a tick four seconds after start (so `sqrt(dt)` is 2) that put
      systolic at exactly 106.5 and diastolic at 83, above 81.5, so the
      correction stores 81.5. The largest draw, about -8.21, lies within the
      roughly 8.57 that a Box-Muller draw from a double can reach. */
  const TieDraws: Draws := Draws(0.0, 0.0, 0.0, -115.0 / 14.0, 5.0, 0.0, 0.0)

  /** With these draws the stored pressures keep exactly their 25 gap, both
      on a half. */
  lemma TieTickState(t0: real, timestamp: int)
    ensures var o := Tick(Start(t0), t0 + 4.0, TieDraws, 2.0, timestamp);
            o.gen.state.systolic == 106.5 && o.gen.state.diastolic == 81.5
  {
    assert Dt(t0, t0 + 4.0) == 4.0;
    TickOrder(Start(t0), t0 + 4.0, TieDraws, 2.0, timestamp);
    var t := Tick(Start(t0), t0 + 4.0, TieDraws, 2.0, timestamp).gen.state;
    assert t.systolic == 106.5 by {
      assert Drift(118.0, 118.0, 0.18, 4.0) == 0.0;
      assert Diffusion(0.7, 2.0, -115.0 / 14.0) == -11.5;
    }
    assert OuStep(78.0, 65.0, 85.0, 78.0, 0.18, 0.5, 4.0, 2.0, 5.0) == 83.0 by {
      assert Drift(78.0, 78.0, 0.18, 4.0) == 0.0;
      assert Diffusion(0.5, 2.0, 5.0) == 5.0;
    }
  }

  /** Ties round to even: 106.5 and 81.5 render as 106 and 82. */
  lemma TieRender(s: State, timestamp: int)
    requires s.systolic == 106.5 && s.diastolic == 81.5
    ensures Render(s, timestamp).bloodPressure == BloodPressure(106, 82)
  {
    assert RoundHalfEven(106.5) == 106;
    assert RoundHalfEven(81.5) == 82;
  }

  /** The stored pressures keep their 25 gap, but both sit on a half and
      round to even: the published pair is 106/82, only 24 apart. */
  lemma RenderedPulsePressureCanBe24(t0: real, timestamp: int)
    ensures var o := Tick(Start(t0), t0 + 4.0, TieDraws, 2.0, timestamp);
            o.reading.bloodPressure.diastolic > o.reading.bloodPressure.systolic - 25
  {
    var o := Tick(Start(t0), t0 + 4.0, TieDraws, 2.0, timestamp);
    TieTickState(t0, timestamp);
    TieRender(o.gen.state, timestamp);
  }

  /** ECG's process with a step of 1.5 seconds (`theta*dt = 2.7`) and no
      noise: from 70 towards a mean of 74 the step lands on 80.8, 6.8 from
      the mean where it started 4 away. */
  lemma EcgStepCanMoveAway()
    ensures OuStep(70.0, 55.0, 110.0, 74.0, 1.8, 3.0, 1.5, 0.0, 0.0) == 80.8
    ensures Abs(OuStep(70.0, 55.0, 110.0, 74.0, 1.8, 3.0, 1.5, 0.0, 0.0) - 74.0) > Abs(70.0 - 74.0)
  {
    assert Drift(70.0, 74.0, 1.8, 1.5) == 10.8;
    assert Diffusion(3.0, 0.0, 0.0) == 0.0;
  }
}
