/** Concrete runs with the shipped example settings (upper 88.0 °F, lower 40.0 °F,
 *  CO2 1000 ppm, three consecutive samples), and the boundary rule. */
module Scenarios {
  import opened Alerting

  const Example := Settings("Lab", 88.0, 40.0, 1000.0, 3)

  /** A sample with the given temperature and a CO2 reading well under the limit. */
  function Temp(t: real): Sample { Sample(t, 400.0) }

  /** A sample with the given CO2 reading and a temperature inside the band. */
  function Air(co2: real): Sample { Sample(70.0, co2) }

  /** A reading exactly equal to a threshold is not a breach: for temperature it
   *  resets both sides, for CO2 it resets the CO2 record. */
  lemma ThresholdValueIsInRange(cfg: Settings, st: AlertState, s: Sample)
    requires cfg.lowerTemp <= cfg.upperTemp
    requires s.temperature == cfg.upperTemp || s.temperature == cfg.lowerTemp
    requires s.co2 == cfg.co2Limit
    ensures Step(cfg, st, s).state == Initial()
    ensures Step(cfg, st, s).alerts == []
  {
  }

  /** 89, 90, 91: the alert comes with the third sample and only then. */
  lemma HighEpisodeAlertsOnThirdSample()
    ensures Run(Example, Initial(), [Temp(89.0), Temp(90.0)]).alerts == []
    ensures Run(Example, Initial(), [Temp(89.0), Temp(90.0), Temp(91.0)]).alerts ==
            [Alert("Lab", TemperatureHigh, 88.0)]
  {
  }

  /** 89, 90, 50: the in-range third sample resets the counter; no alert. */
  lemma RecoveryBeforeThresholdIsSilent()
    ensures var r := Run(Example, Initial(), [Temp(89.0), Temp(90.0), Temp(50.0)]);
            r.alerts == [] && r.state == Initial()
  {
    assert [Temp(89.0), Temp(90.0), Temp(50.0)][..2] == [Temp(89.0), Temp(90.0)];
    assert [Temp(89.0), Temp(90.0)][..1] == [Temp(89.0)];
    assert [Temp(89.0)][..0] == [];
  }

  /** 89, 90, 91, 91, 91: exactly one alert, at the third sample; the counter reaches 5. */
  lemma LongEpisodeAlertsOnce()
    ensures Run(Example, Initial(), [Temp(89.0), Temp(90.0), Temp(91.0)]).alerts ==
            [Alert("Lab", TemperatureHigh, 88.0)]
    ensures var r := Run(Example, Initial(), [Temp(89.0), Temp(90.0), Temp(91.0), Temp(91.0), Temp(91.0)]);
            r.alerts == [Alert("Lab", TemperatureHigh, 88.0)] && r.state.high == MetricState(5, true)
  {
    assert [Temp(89.0), Temp(90.0), Temp(91.0), Temp(91.0), Temp(91.0)][..4] == [Temp(89.0), Temp(90.0), Temp(91.0), Temp(91.0)];
    assert [Temp(89.0), Temp(90.0), Temp(91.0), Temp(91.0)][..3] == [Temp(89.0), Temp(90.0), Temp(91.0)];
    assert [Temp(89.0), Temp(90.0), Temp(91.0)][..2] == [Temp(89.0), Temp(90.0)];
    assert [Temp(89.0), Temp(90.0)][..1] == [Temp(89.0)];
    assert [Temp(89.0)][..0] == [];
  }

  /** CO2 1001, 1002, 1003: alert with the third sample. */
  lemma Co2EpisodeAlertsOnThirdSample()
    ensures Run(Example, Initial(), [Air(1001.0), Air(1002.0)]).alerts == []
    ensures Run(Example, Initial(), [Air(1001.0), Air(1002.0), Air(1003.0)]).alerts ==
            [Alert("Lab", Co2High, 1000.0)]
  {
  }

  /** CO2 1001, 999, 1001: the second sample resets the counter; no alert, and the
   *  third sample starts a new run at 1. */
  lemma Co2RecoveryRestartsCount()
    ensures var r := Run(Example, Initial(), [Air(1001.0), Air(999.0), Air(1001.0)]);
            r.alerts == [] && r.state.co2 == MetricState(1, false)
  {
    assert [Air(1001.0), Air(999.0), Air(1001.0)][..2] == [Air(1001.0), Air(999.0)];
    assert [Air(1001.0), Air(999.0)][..1] == [Air(1001.0)];
    assert [Air(1001.0)][..0] == [];
  }

  /** 89, 30, 89, 89: a breach on the low side does not reset the high counter (only
   *  an in-range sample does), so the high alert comes with the fourth sample, after
   *  two high samples in a row. */
  lemma OppositeBreachKeepsHighCount()
    ensures Run(Example, Initial(), [Temp(89.0), Temp(30.0), Temp(89.0)]).alerts == []
    ensures var r := Run(Example, Initial(), [Temp(89.0), Temp(30.0), Temp(89.0), Temp(89.0)]);
            r.alerts == [Alert("Lab", TemperatureHigh, 88.0)] &&
            r.state.high == MetricState(3, true) && r.state.low == MetricState(1, false)
  {
    assert [Temp(89.0), Temp(30.0), Temp(89.0), Temp(89.0)][..3] == [Temp(89.0), Temp(30.0), Temp(89.0)];
    assert [Temp(89.0), Temp(30.0), Temp(89.0)][..2] == [Temp(89.0), Temp(30.0)];
    assert [Temp(89.0), Temp(30.0)][..1] == [Temp(89.0)];
    assert [Temp(89.0)][..0] == [];
  }
}
