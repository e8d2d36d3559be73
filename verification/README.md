# SCD-40 single-sensor monitor: the threshold-alerting state machine

The monitor reads temperature, humidity and CO2 from an SCD-40 sensor at a fixed
interval. It logs each reading, pushes it to Adafruit IO, and posts a Slack alert
when a reading has been out of range for `THRESHOLD_COUNT` samples. Only the alerting
logic has state, and it is what this project models. That logic keeps three records:
temperature above `SENSOR_THRESHOLD_TEMP`, temperature below
`SENSOR_LOWER_THRESHOLD_TEMP`, and CO2 above `SENSOR_CO2_THRESHOLD`. Each record holds
a breach counter and a "sent" latch.

- `alerting.dfy` (module `Alerting`): the state machine as pure functions.
  - `Step` is one pass of the loop body's alerting part: the temperature
    `if / elif / else`, then the CO2 `if / else`.
  - `Run` folds `Step` over a finite list of samples.
  - An `Alert` records the location, the metric and the threshold value. It stands
    for the Slack message text.
  - `StepLaw`, `StepAlerts` and `StepKeepsValid` state what one sample does.
- `episodes.dfy` (module `Episodes`): properties of whole runs.
  - The latch invariant holds in every reachable state.
  - A quiet run changes nothing.
  - A breach episode that starts from a cleared record raises one alert, at its
    `DueAt`-th sample (`THRESHOLD_COUNT`, or 1 if that is below 1), if it lasts that
    long, and none otherwise.
  - Once the latch is set, the metric stays silent until a sample brings it back in
    range; a breach on the opposite temperature side does not.
  - A recovery sample means the next episode starts over, with no carry-over.
  - The metrics do not influence each other.
- `monitoring.dfy` (module `Monitoring`): the loop in its imperative form.
  - Class `Monitor` has the six counters and flags as fields, and its `Step` method
    updates them in place with the source's branch structure.
  - `RunMonitoring` starts from cleared counters and loops over the samples.
  - Both are proved equal to the functions of `Alerting`.
- `scenarios.dfy` (module `Scenarios`): concrete runs with the shipped example settings
  (88.0 / 40.0 °F, 1000 ppm, a count of 3), plus the rule that a reading equal to a
  threshold counts as in range.

Readings and thresholds are `real`: the logic only compares them. `THRESHOLD_COUNT`
is an `int`, because the settings reader parses it with `getint` and does not check
it. The lemmas therefore hold for every value of it: when it is below 1, the first
breaching sample raises the alert (`Episodes.DueAt`).

The low-temperature branch is an `elif`, so a sample counts as a low breach only when
it is not above the upper threshold (`Alerting.Breaching`). The settings template calls
`THRESHOLD_COUNT` a number of *consecutive* readings (SingleSensorSettings.py:15). As
written, though, a temperature counter counts
the breaching samples on its side since the last in-range temperature sample. A breach
on the opposite side does not reset it. The model follows the code:
`Scenarios.OppositeBreachKeepsHighCount` shows a high alert after the samples
89, 30, 89, 89, where the last two high samples are the only consecutive ones.

## Model

| member | source | states |
|---|---|---|
| `Alerting.Initial` | SingleSensor-SCD-40.py:106-111 | every counter starts at 0 and every latch clear |
| `Alerting.StepLaw` | SingleSensor-SCD-40.py:136-166 | for each metric, one sample does one of three things. A breach raises the counter by exactly 1 and sets the latch iff it was set or the new count reached THRESHOLD_COUNT. A recovery sample (closed temperature band; CO2 at most its limit) clears the record. A breach on the opposite temperature side leaves it unchanged. An alert for a metric is emitted iff the sample breaches it, the new count reached the threshold and the latch was clear |
| `Alerting.StepAlerts` | SingleSensor-SCD-40.py:139-162 | one sample posts at most two alerts, temperature before CO2, each naming the location and its own threshold |
| `Alerting.StepKeepsValid` | SingleSensor-SCD-40.py:136-166 | one sample keeps the invariant that a latch is set iff its counter is at least 1 and at least THRESHOLD_COUNT |
| `Episodes.RunAppend` | SingleSensor-SCD-40.py:122-169 | running over `a + b` is running over `a`, then over `b` from the state reached, with the alerts concatenated |
| `Episodes.RunKeepsValid` | SingleSensor-SCD-40.py:136-166 | every run keeps the latch invariant |
| `Episodes.ReachableValid` | SingleSensor-SCD-40.py:106-166 | every state reached from the initial counters satisfies that invariant |
| `Episodes.RunAlerts` | SingleSensor-SCD-40.py:139-162 | a run emits at most two alerts per sample, and each names the location and the threshold of its own metric |
| `Episodes.QuietRun` | SingleSensor-SCD-40.py:149-154 | samples that breach nothing leave the initial counters untouched and emit no alert |
| `Episodes.BreachEpisode` | SingleSensor-SCD-40.py:137-166 | starting from a cleared record, after k breaching samples the counter is k (uncapped), the latch is set iff k reached the due sample, and exactly one alert was emitted iff it did (none before) |
| `Episodes.AlertAtDueSample` | SingleSensor-SCD-40.py:139-142 | in an episode from a cleared record, the k-th sample emits the metric's alert iff k is the THRESHOLD_COUNT-th sample (the first one if the count is below 1) |
| `Episodes.LatchedIsSilent` | SingleSensor-SCD-40.py:138-139 | once the latch is set, further breaching samples keep adding one each to the counter and emit nothing for that metric |
| `Episodes.LatchedUntilRecovery` | SingleSensor-SCD-40.py:137-166 | while no sample brings a metric back in range (opposite-side temperature breaches included), a run emits at most one alert for it, none if its latch was already set, and a set latch stays set |
| `Episodes.RecoveryRestartsEpisode` | SingleSensor-SCD-40.py:149-166 | whatever history came before, the breaching samples after a recovery sample add exactly one alert for the metric once they reach the full count, and none before (no carry-over) |
| `Episodes.RunIndependent` | SingleSensor-SCD-40.py:136-166 | what a run does to a metric's record and alerts depends only on that record and on the reading the metric looks at (CO2 never touches temperature, and the reverse) |
| `Monitoring.Monitor.constructor` | SingleSensor-SCD-40.py:106-111 | the six variables start as the initial state |
| `Monitoring.Monitor.Step` | SingleSensor-SCD-40.py:136-166 | the in-place update of the six variables, and the alerts it posts, equal `Alerting.Step` of the old state |
| `Monitoring.RunMonitoring` | SingleSensor-SCD-40.py:105-169 | the loop's alerts and final state equal the fold `Run` from the initial state, and the final state satisfies the latch invariant |
| `Scenarios.ThresholdValueIsInRange` | SingleSensor-SCD-40.py:137-166 | for a band with lower ≤ upper, and with strict comparisons, a temperature equal to either threshold and a CO2 reading equal to its limit clear every record and emit nothing |
| `Scenarios.HighEpisodeAlertsOnThirdSample` | SingleSensor-SCD-40.py:137-142 | with the example settings, 89, 90, 91 °F emit nothing after two samples, then the "above 88.0" alert |
| `Scenarios.RecoveryBeforeThresholdIsSilent` | SingleSensor-SCD-40.py:149-154 | 89, 90, 50 °F emit nothing and end with cleared counters |
| `Scenarios.LongEpisodeAlertsOnce` | SingleSensor-SCD-40.py:137-142 | 89, 90, 91, 91, 91 °F emit one alert, at the third sample, and the counter reaches 5 |
| `Scenarios.Co2EpisodeAlertsOnThirdSample` | SingleSensor-SCD-40.py:157-162 | CO2 1001, 1002, 1003 ppm emit the "above 1000.0" alert at the third sample only |
| `Scenarios.Co2RecoveryRestartsCount` | SingleSensor-SCD-40.py:157-166 | CO2 1001, 999, 1001 ppm emit nothing and end with the CO2 counter at 1 |
| `Scenarios.OppositeBreachKeepsHighCount` | SingleSensor-SCD-40.py:137-154 | 89, 30, 89, 89 °F: the low sample does not reset the high counter, so the high alert comes with the fourth sample |

## Left out

- Settings endpoint (`settings`, SingleSensor-SCD-40.py:77-95), including the reboot command: HTTP handling and OS side effects.
- Reading and writing the configuration file (`read_settings_from_conf`, `write_settings_to_conf`): configparser and file I/O. The settings are a parameter of the model instead of module globals. The shipped template names the CO2 option `sensor_threshold_co2`, but the reader looks up `SENSOR_CO2_THRESHOLD` (stored lower-cased as `sensor_co2_threshold`). With that template the reader therefore raises before monitoring starts. This is not modelled.
- `log_error` and `log_to_file`: timestamped file appends.
- Sensor reads, Adafruit IO pushes and the Slack `chat_postMessage` calls. Each Slack call is an emitted `Alert` value, and the message text is not formatted. The undefined `board` name at SingleSensor-SCD-40.py:118 is a runtime failure outside the model.
- The monitoring thread, the Flask server and the sleep between cycles. The endless loop is modelled over a finite list of samples.
- Humidity: it is logged and pushed but never compared with a threshold.
- Exceptions: `run_monitoring` catches nothing. If a sensor read, `log_to_file`, an Adafruit IO push or a Slack post raises, monitoring ends. When the Slack post fails, the latch assignment after it never runs. A `Run` therefore describes only the samples processed before such a failure, and an `Alert` stands for the attempted post.
- Python floats: readings are exact reals. A NaN reading compares false with every threshold. The source would treat it as in range, which resets the records, and the model has no such value. `getfloat` also accepts "nan" and "inf" as thresholds. With a NaN threshold that side never breaches. Reals cannot express non-finite thresholds either.
- SingleSensorSettings.py is an INI template, not code. It supplies only the example values used in `Scenarios`.
