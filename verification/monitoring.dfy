/** The monitoring loop as the source writes it: six local counters and flags,
 *  updated in place once per sample by an if / elif / else chain for temperature
 *  and an if / else for CO2.  Each method is proved against the functions of
 *  module Alerting. */
module Monitoring {
  import opened Alerting
  import Episodes

  class Monitor {
    const cfg: Settings
    var aboveCount: nat
    var alertSent: bool
    var belowCount: nat
    var belowAlertSent: bool
    var co2AboveCount: nat
    var co2AlertSent: bool

    /** The six variables, read as the state of the alerting state machine. */
    function State(): AlertState
      reads this
    {
      AlertState(MetricState(aboveCount, alertSent), MetricState(belowCount, belowAlertSent),
                 MetricState(co2AboveCount, co2AlertSent))
    }

    /** Counters start at 0 and flags at false. */
    constructor (cfg: Settings)
      ensures this.cfg == cfg
      ensures State() == Initial()
    {
      this.cfg := cfg;
      aboveCount, alertSent := 0, false;
      belowCount, belowAlertSent := 0, false;
      co2AboveCount, co2AlertSent := 0, false;
    }

    /** One pass of the loop body's alerting part; `alerts` are the chat messages
     *  posted during it, in order. */
    method Step(s: Sample) returns (alerts: seq<Alert>)
      modifies this
      ensures Outcome(State(), alerts) == Alerting.Step(cfg, old(State()), s)
    {
      alerts := [];
      if s.temperature > cfg.upperTemp {
        aboveCount := aboveCount + 1;
        if aboveCount >= cfg.thresholdCount && !alertSent {
          alerts := alerts + [Alert(cfg.location, TemperatureHigh, cfg.upperTemp)];
          alertSent := true;
        }
      } else if s.temperature < cfg.lowerTemp {
        belowCount := belowCount + 1;
        if belowCount >= cfg.thresholdCount && !belowAlertSent {
          alerts := alerts + [Alert(cfg.location, TemperatureLow, cfg.lowerTemp)];
          belowAlertSent := true;
        }
      } else {
        aboveCount := 0;
        alertSent := false;
        belowCount := 0;
        belowAlertSent := false;
      }

      if s.co2 > cfg.co2Limit {
        co2AboveCount := co2AboveCount + 1;
        if co2AboveCount >= cfg.thresholdCount && !co2AlertSent {
          alerts := alerts + [Alert(cfg.location, Co2High, cfg.co2Limit)];
          co2AlertSent := true;
        }
      } else {
        co2AboveCount := 0;
        co2AlertSent := false;
      }
    }
  }

  /** The monitoring loop over a finite list of samples: start from cleared counters,
   *  feed every sample to the state machine and collect the alerts it posts.  The
   *  result is the fold Run, and the state reached keeps the latch invariant. */
  method RunMonitoring(cfg: Settings, samples: seq<Sample>) returns (alerts: seq<Alert>, final: AlertState)
    ensures Outcome(final, alerts) == Run(cfg, Initial(), samples)
    ensures Valid(cfg, final)
  {
    var monitor := new Monitor(cfg);
    alerts := [];
    var i := 0;
    while i < |samples|
      invariant 0 <= i <= |samples|
      invariant monitor.cfg == cfg
      invariant Outcome(monitor.State(), alerts) == Run(cfg, Initial(), samples[..i])
    {
      assert samples[..i + 1][..i] == samples[..i];
      var posted := monitor.Step(samples[i]);
      alerts := alerts + posted;
      i := i + 1;
    }
    assert samples[..i] == samples;
    final := monitor.State();
    Episodes.ReachableValid(cfg, samples);
  }
}
