/** The threshold-alerting state machine of the SCD-40 monitor, as pure functions.
 *
 *  Three per-metric records (temperature above the upper threshold, temperature
 *  below the lower threshold, CO2 above its threshold) each hold a consecutive-breach
 *  counter and a "sent" latch.  One sample updates all three and may emit alert
 *  events; an event stands for the chat message the monitor posts.
 */
module Alerting {

  /** The three monitored conditions. */
  datatype Metric = TemperatureHigh | TemperatureLow | Co2High

  /** The settings the state machine reads: the location name (part of every alert),
   *  the temperature band, the CO2 limit and the number of breaching samples
   *  needed before an alert is sent (THRESHOLD_COUNT, an unvalidated integer). */
  datatype Settings = Settings(
    location: string,
    upperTemp: real,
    lowerTemp: real,
    co2Limit: real,
    thresholdCount: int)

  /** One reading; humidity plays no part in alerting and is not carried. */
  datatype Sample = Sample(temperature: real, co2: real)

  /** An alert message: where, which condition, and the threshold it names. */
  datatype Alert = Alert(location: string, metric: Metric, threshold: real)

  /** The alert state of one metric: its breach counter and its sent latch. */
  datatype MetricState = MetricState(count: nat, sent: bool)

  datatype AlertState = AlertState(high: MetricState, low: MetricState, co2: MetricState)

  /** The state after some samples, with the alerts they emitted, in order. */
  datatype Outcome = Outcome(state: AlertState, alerts: seq<Alert>)

  const Cleared := MetricState(0, false)

  /** The state the monitoring loop starts from: every counter 0, every latch clear. */
  function Initial(): (st: AlertState)
    ensures forall m :: StateOf(st, m) == Cleared
  {
    AlertState(Cleared, Cleared, Cleared)
  }

  function StateOf(st: AlertState, m: Metric): (l: MetricState)
  {
    match m
    case TemperatureHigh => st.high
    case TemperatureLow => st.low
    case Co2High => st.co2
  }

  /** The threshold an alert for `m` names in its message. */
  function ThresholdOf(cfg: Settings, m: Metric): (threshold: real)
  {
    match m
    case TemperatureHigh => cfg.upperTemp
    case TemperatureLow => cfg.lowerTemp
    case Co2High => cfg.co2Limit
  }

  /** The reading that metric `m` looks at. */
  function ReadingOf(s: Sample, m: Metric): (reading: real)
  {
    match m
    case TemperatureHigh => s.temperature
    case TemperatureLow => s.temperature
    case Co2High => s.co2
  }

  /** Whether `s` counts as a breach of `m`.  The low side is the `elif` branch,
   *  so it is only reached when the temperature is not above the upper threshold;
   *  all comparisons are strict. */
  predicate Breaching(cfg: Settings, m: Metric, s: Sample)
  {
    match m
    case TemperatureHigh => s.temperature > cfg.upperTemp
    case TemperatureLow => !(s.temperature > cfg.upperTemp) && s.temperature < cfg.lowerTemp
    case Co2High => s.co2 > cfg.co2Limit
  }

  /** Whether `s` is a recovery sample for `m`: the reading is inside the closed band
   *  (temperature) or at most the limit (CO2). */
  predicate InRange(cfg: Settings, m: Metric, s: Sample)
  {
    match m
    case Co2High => s.co2 <= cfg.co2Limit
    case _ => cfg.lowerTemp <= s.temperature <= cfg.upperTemp
  }

  /** A sample that breaches nothing. */
  predicate Normal(cfg: Settings, s: Sample)
  {
    cfg.lowerTemp <= s.temperature <= cfg.upperTemp && s.co2 <= cfg.co2Limit
  }

  /** Whether a breaching sample on metric state `l` sends the alert:
   *  the incremented counter has reached the threshold and nothing was sent yet. */
  predicate Fires(l: MetricState, n: int)
  {
    l.count + 1 >= n && !l.sent
  }

  /** The metric state after one breaching sample. */
  function Breach(l: MetricState, n: int): (next: MetricState)
  {
    if Fires(l, n) then MetricState(l.count + 1, true) else MetricState(l.count + 1, l.sent)
  }

  /** The latch invariant: the latch is set exactly when the current breach run has
   *  reached the threshold (and is a real run, of at least one sample). */
  predicate Consistent(l: MetricState, n: int)
  {
    l.sent <==> l.count >= 1 && l.count >= n
  }

  predicate Valid(cfg: Settings, st: AlertState)
  {
    forall m :: Consistent(StateOf(st, m), cfg.thresholdCount)
  }

  /** Number of alerts about metric `m`. */
  function Count(alerts: seq<Alert>, m: Metric): (n: nat)
  {
    if alerts == [] then 0
    else (if alerts[0].metric == m then 1 else 0) + Count(alerts[1..], m)
  }

  /** Counting distributes over concatenation. */
  lemma {:induction false} CountAppend(a: seq<Alert>, b: seq<Alert>, m: Metric)
    ensures Count(a + b, m) == Count(a, m) + Count(b, m)
  {
    if a == [] {
      assert a + b == b;
    } else {
      assert (a + b)[0] == a[0] && (a + b)[1..] == a[1..] + b;
      CountAppend(a[1..], b, m);
    }
  }

  function AlertFor(cfg: Settings, m: Metric): (a: Alert)
  {
    Alert(cfg.location, m, ThresholdOf(cfg, m))
  }

  /** The temperature block: above, else below, else reset both sides. */
  function TemperatureStep(cfg: Settings, st: AlertState, t: real): (o: Outcome)
  {
    if t > cfg.upperTemp then
      Outcome(st.(high := Breach(st.high, cfg.thresholdCount)),
              if Fires(st.high, cfg.thresholdCount) then [AlertFor(cfg, TemperatureHigh)] else [])
    else if t < cfg.lowerTemp then
      Outcome(st.(low := Breach(st.low, cfg.thresholdCount)),
              if Fires(st.low, cfg.thresholdCount) then [AlertFor(cfg, TemperatureLow)] else [])
    else
      Outcome(st.(high := Cleared, low := Cleared), [])
  }

  /** The CO2 block: above, else reset. */
  function Co2Step(cfg: Settings, st: AlertState, co2: real): (o: Outcome)
  {
    if co2 > cfg.co2Limit then
      Outcome(st.(co2 := Breach(st.co2, cfg.thresholdCount)),
              if Fires(st.co2, cfg.thresholdCount) then [AlertFor(cfg, Co2High)] else [])
    else
      Outcome(st.(co2 := Cleared), [])
  }

  /** The alerts a single block emits for metric `m`. */
  lemma CountSingle(cfg: Settings, k: Metric, m: Metric)
    ensures Count([AlertFor(cfg, k)], m) == if k == m then 1 else 0
  {
    assert [AlertFor(cfg, k)][1..] == [];
  }

  /** One iteration of the monitoring loop's alerting part: the temperature block,
   *  then the CO2 block; the alerts come in that order.  StepLaw says what it does. */
  function Step(cfg: Settings, st: AlertState, s: Sample): (o: Outcome)
  {
    var t := TemperatureStep(cfg, st, s.temperature);
    var c := Co2Step(cfg, t.state, s.co2);
    Outcome(c.state, t.alerts + c.alerts)
  }

  /** What one sample does to the record of metric `m` and to its alerts. */
  lemma {:induction false} MetricLaw(cfg: Settings, st: AlertState, s: Sample, m: Metric)
    ensures Breaching(cfg, m, s) ==> StateOf(Step(cfg, st, s).state, m) == Breach(StateOf(st, m), cfg.thresholdCount)
    ensures InRange(cfg, m, s) ==> StateOf(Step(cfg, st, s).state, m) == Cleared
    ensures !Breaching(cfg, m, s) && !InRange(cfg, m, s) ==> StateOf(Step(cfg, st, s).state, m) == StateOf(st, m)
    ensures Count(Step(cfg, st, s).alerts, m) == if Breaching(cfg, m, s) && Fires(StateOf(st, m), cfg.thresholdCount) then 1 else 0
  {
    var t := TemperatureStep(cfg, st, s.temperature);
    var c := Co2Step(cfg, t.state, s.co2);
    CountAppend(t.alerts, c.alerts, m);
    CountSingle(cfg, TemperatureHigh, m);
    CountSingle(cfg, TemperatureLow, m);
    CountSingle(cfg, Co2High, m);
  }

  /** Per metric, one sample: a breach raises the counter by exactly one and sets the
   *  latch when the new counter reaches the threshold; a recovery sample clears the
   *  record; a temperature breach on the other side leaves it alone.  An alert for
   *  the metric is emitted exactly when a breach finds the latch clear and the new
   *  counter at the threshold. */
  lemma StepLaw(cfg: Settings, st: AlertState, s: Sample)
    ensures forall m :: Breaching(cfg, m, s) ==>
      StateOf(Step(cfg, st, s).state, m).count == StateOf(st, m).count + 1 &&
      (StateOf(Step(cfg, st, s).state, m).sent <==>
         StateOf(st, m).sent || StateOf(st, m).count + 1 >= cfg.thresholdCount)
    ensures forall m :: InRange(cfg, m, s) ==> StateOf(Step(cfg, st, s).state, m) == Cleared
    ensures forall m :: !Breaching(cfg, m, s) && !InRange(cfg, m, s) ==>
      StateOf(Step(cfg, st, s).state, m) == StateOf(st, m)
    ensures forall m :: Count(Step(cfg, st, s).alerts, m) == (if Breaching(cfg, m, s) && Fires(StateOf(st, m), cfg.thresholdCount) then 1 else 0)
  {
    forall m
      ensures Breaching(cfg, m, s) ==> StateOf(Step(cfg, st, s).state, m) == Breach(StateOf(st, m), cfg.thresholdCount)
      ensures InRange(cfg, m, s) ==> StateOf(Step(cfg, st, s).state, m) == Cleared
      ensures !Breaching(cfg, m, s) && !InRange(cfg, m, s) ==> StateOf(Step(cfg, st, s).state, m) == StateOf(st, m)
      ensures Count(Step(cfg, st, s).alerts, m) == if Breaching(cfg, m, s) && Fires(StateOf(st, m), cfg.thresholdCount) then 1 else 0
    {
      MetricLaw(cfg, st, s, m);
    }
  }

  /** A sample emits at most two alerts, temperature before CO2, each naming the
   *  location and the threshold of its own metric. */
  lemma StepAlerts(cfg: Settings, st: AlertState, s: Sample)
    ensures forall a :: a in Step(cfg, st, s).alerts ==> a == AlertFor(cfg, a.metric)
    ensures |Step(cfg, st, s).alerts| <= 2
    ensures forall i :: 0 <= i < |Step(cfg, st, s).alerts| - 1 ==> Step(cfg, st, s).alerts[i].metric != Co2High
  {
  }

  /** Every step keeps the latch invariant. */
  lemma StepKeepsValid(cfg: Settings, st: AlertState, s: Sample)
    requires Valid(cfg, st)
    ensures Valid(cfg, Step(cfg, st, s).state)
  {
    forall m ensures Consistent(StateOf(Step(cfg, st, s).state, m), cfg.thresholdCount) {
      MetricLaw(cfg, st, s, m);
      assert Consistent(StateOf(st, m), cfg.thresholdCount);
    }
  }

  /** The loop run over a finite list of samples, as a left fold of Step. */
  function Run(cfg: Settings, st: AlertState, samples: seq<Sample>): (o: Outcome)
    decreases |samples|
  {
    if samples == [] then Outcome(st, [])
    else
      var prev := Run(cfg, st, samples[..|samples| - 1]);
      var last := Step(cfg, prev.state, samples[|samples| - 1]);
      Outcome(last.state, prev.alerts + last.alerts)
  }
}
