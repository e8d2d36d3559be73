/** Properties of whole runs of the alerting state machine: breach episodes,
 *  recovery, the latch invariant and the independence of the metrics. */
module Episodes {
  import opened Alerting

  /** The sample at which an episode's alert is due: the THRESHOLD_COUNT-th breaching
   *  sample, or the first one when the configured count is below one. */
  function DueAt(n: int): (k: nat)
  {
    if n < 1 then 1 else n
  }

  predicate AllBreaching(cfg: Settings, m: Metric, samples: seq<Sample>)
  {
    forall i :: 0 <= i < |samples| ==> Breaching(cfg, m, samples[i])
  }

  /** Running over `s + [x]` is one more Step after running over `s`. */
  lemma RunSnoc(cfg: Settings, st: AlertState, s: seq<Sample>, x: Sample)
    ensures var p := Run(cfg, st, s);
            var q := Step(cfg, p.state, x);
            Run(cfg, st, s + [x]) == Outcome(q.state, p.alerts + q.alerts)
  {
    assert (s + [x])[..|s|] == s;
  }

  /** Running over `a + b` is running over `a`, then over `b` from where `a` ended. */
  lemma {:induction false} RunAppend(cfg: Settings, st: AlertState, a: seq<Sample>, b: seq<Sample>)
    ensures var ra := Run(cfg, st, a);
            var rb := Run(cfg, ra.state, b);
            Run(cfg, st, a + b) == Outcome(rb.state, ra.alerts + rb.alerts)
    decreases |b|
  {
    var ra := Run(cfg, st, a);
    if b == [] {
      assert a + b == a;
      assert ra.alerts + [] == ra.alerts;
    } else {
      var b', x := b[..|b| - 1], b[|b| - 1];
      var rb' := Run(cfg, ra.state, b');
      var q := Step(cfg, rb'.state, x);
      calc {
        Run(cfg, st, a + b);
        { assert a + b == (a + b') + [x]; }
        Run(cfg, st, (a + b') + [x]);
        { RunSnoc(cfg, st, a + b', x); RunAppend(cfg, st, a, b'); }
        Outcome(q.state, ra.alerts + rb'.alerts + q.alerts);
        { assert ra.alerts + rb'.alerts + q.alerts == ra.alerts + (rb'.alerts + q.alerts); }
        Outcome(q.state, ra.alerts + (rb'.alerts + q.alerts));
        { RunSnoc(cfg, ra.state, b', x); assert b' + [x] == b; }
        Outcome(Run(cfg, ra.state, b).state, ra.alerts + Run(cfg, ra.state, b).alerts);
      }
    }
  }

  /** Every step keeps the latch invariant, so a whole run does. */
  lemma {:induction false} RunKeepsValid(cfg: Settings, st: AlertState, samples: seq<Sample>)
    requires Valid(cfg, st)
    ensures Valid(cfg, Run(cfg, st, samples).state)
  {
    if samples != [] {
      var init := samples[..|samples| - 1];
      RunKeepsValid(cfg, st, init);
      StepKeepsValid(cfg, Run(cfg, st, init).state, samples[|samples| - 1]);
    }
  }

  /** Every state the monitoring loop reaches satisfies the latch invariant. */
  lemma ReachableValid(cfg: Settings, samples: seq<Sample>)
    ensures Valid(cfg, Run(cfg, Initial(), samples).state)
  {
    RunKeepsValid(cfg, Initial(), samples);
  }

  /** A run emits at most two alerts per sample (one temperature side and CO2), and
   *  every alert names the location and the threshold of its own metric. */
  lemma {:induction false} RunAlerts(cfg: Settings, st: AlertState, samples: seq<Sample>)
    ensures |Run(cfg, st, samples).alerts| <= 2 * |samples|
    ensures forall a :: a in Run(cfg, st, samples).alerts ==> a == AlertFor(cfg, a.metric)
  {
    if samples != [] {
      var init := samples[..|samples| - 1];
      RunAlerts(cfg, st, init);
      StepAlerts(cfg, Run(cfg, st, init).state, samples[|samples| - 1]);
    }
  }

  /** A sequence of samples that breach nothing leaves the initial state untouched
   *  and emits no alert. */
  lemma {:induction false} QuietRun(cfg: Settings, samples: seq<Sample>)
    requires forall i :: 0 <= i < |samples| ==> Normal(cfg, samples[i])
    ensures Run(cfg, Initial(), samples) == Outcome(Initial(), [])
  {
    if samples != [] {
      var init := samples[..|samples| - 1];
      QuietRun(cfg, init);
      var last := samples[|samples| - 1];
      var r := Step(cfg, Initial(), last);
      assert forall m :: InRange(cfg, m, last);
      assert r.state == Initial() by {
        assert forall m :: StateOf(r.state, m) == StateOf(Initial(), m);
      }
      assert r.alerts == [];
    }
  }

  /** A breach episode that starts from a cleared record: after k breaching samples the
   *  counter is k, the latch is set once k has reached the due sample, and exactly one
   *  alert has been emitted for the metric by then (none before). */
  lemma {:induction false} BreachEpisode(cfg: Settings, st: AlertState, samples: seq<Sample>, m: Metric)
    requires StateOf(st, m) == Cleared
    requires AllBreaching(cfg, m, samples)
    ensures var r := Run(cfg, st, samples);
            StateOf(r.state, m) == MetricState(|samples|, |samples| >= DueAt(cfg.thresholdCount)) &&
            Count(r.alerts, m) == if |samples| >= DueAt(cfg.thresholdCount) then 1 else 0
  {
    if samples != [] {
      var init := samples[..|samples| - 1];
      BreachEpisode(cfg, st, init, m);
      var prev := Run(cfg, st, init);
      var last := Step(cfg, prev.state, samples[|samples| - 1]);
      StepLaw(cfg, prev.state, samples[|samples| - 1]);
      CountAppend(prev.alerts, last.alerts, m);
    }
  }

  /** Within an episode from a cleared record, the k-th breaching sample emits an alert
   *  for the metric exactly when k is the due sample: one alert per episode, at the
   *  THRESHOLD_COUNT-th sample. */
  lemma AlertAtDueSample(cfg: Settings, st: AlertState, samples: seq<Sample>, m: Metric, k: nat)
    requires StateOf(st, m) == Cleared
    requires AllBreaching(cfg, m, samples)
    requires 1 <= k <= |samples|
    ensures Count(Step(cfg, Run(cfg, st, samples[..k - 1]).state, samples[k - 1]).alerts, m) ==
            if k == DueAt(cfg.thresholdCount) then 1 else 0
  {
    BreachEpisode(cfg, st, samples[..k - 1], m);
    StepLaw(cfg, Run(cfg, st, samples[..k - 1]).state, samples[k - 1]);
  }

  /** Once the latch is set, further breaching samples keep raising the counter
   *  (it is never capped) and emit nothing for that metric. */
  lemma {:induction false} LatchedIsSilent(cfg: Settings, st: AlertState, samples: seq<Sample>, m: Metric)
    requires StateOf(st, m).sent
    requires AllBreaching(cfg, m, samples)
    ensures var r := Run(cfg, st, samples);
            StateOf(r.state, m) == MetricState(StateOf(st, m).count + |samples|, true) &&
            Count(r.alerts, m) == 0
  {
    if samples != [] {
      var init := samples[..|samples| - 1];
      LatchedIsSilent(cfg, st, init, m);
      var prev := Run(cfg, st, init);
      var last := Step(cfg, prev.state, samples[|samples| - 1]);
      StepLaw(cfg, prev.state, samples[|samples| - 1]);
      CountAppend(prev.alerts, last.alerts, m);
    }
  }

  /** At most one alert per episode: as long as no sample brings metric `m` back in
   *  range (a breach on the opposite temperature side does not), the run emits at
   *  most one alert for `m`, none if the latch was already set, and a set latch stays
   *  set. */
  lemma {:induction false} LatchedUntilRecovery(cfg: Settings, st: AlertState, samples: seq<Sample>, m: Metric)
    requires forall i :: 0 <= i < |samples| ==> !InRange(cfg, m, samples[i])
    ensures Count(Run(cfg, st, samples).alerts, m) <= if StateOf(st, m).sent then 0 else 1
    ensures StateOf(st, m).sent ==> StateOf(Run(cfg, st, samples).state, m).sent
    ensures Count(Run(cfg, st, samples).alerts, m) == 1 ==> StateOf(Run(cfg, st, samples).state, m).sent
  {
    if samples != [] {
      var init := samples[..|samples| - 1];
      LatchedUntilRecovery(cfg, st, init, m);
      var prev := Run(cfg, st, init);
      var last := Step(cfg, prev.state, samples[|samples| - 1]);
      StepLaw(cfg, prev.state, samples[|samples| - 1]);
      CountAppend(prev.alerts, last.alerts, m);
    }
  }

  /** No carry-over: whatever history came before, once a recovery sample has been
   *  seen the breaching samples that follow add exactly one alert for the metric if
   *  there are enough of them, and none otherwise. */
  lemma RecoveryRestartsEpisode(cfg: Settings, st: AlertState, history: seq<Sample>, recovery: Sample,
                                samples: seq<Sample>, m: Metric)
    requires InRange(cfg, m, recovery)
    requires AllBreaching(cfg, m, samples)
    ensures Count(Run(cfg, st, history + [recovery] + samples).alerts, m) ==
            Count(Run(cfg, st, history + [recovery]).alerts, m) +
            (if |samples| >= DueAt(cfg.thresholdCount) then 1 else 0)
  {
    var before := Run(cfg, st, history + [recovery]);
    RunSnoc(cfg, st, history, recovery);
    MetricLaw(cfg, Run(cfg, st, history).state, recovery, m);
    BreachEpisode(cfg, before.state, samples, m);
    RunAppend(cfg, st, history + [recovery], samples);
    CountAppend(before.alerts, Run(cfg, before.state, samples).alerts, m);
  }

  /** The metrics do not influence each other: what a run does to metric `m` depends
   *  only on m's own record and on the reading m looks at, except that the two
   *  temperature sides share the temperature reading. */
  lemma {:induction false} RunIndependent(cfg: Settings, st1: AlertState, st2: AlertState,
                                          s1: seq<Sample>, s2: seq<Sample>, m: Metric)
    requires StateOf(st1, m) == StateOf(st2, m)
    requires |s1| == |s2|
    requires forall i :: 0 <= i < |s1| ==> ReadingOf(s1[i], m) == ReadingOf(s2[i], m)
    ensures StateOf(Run(cfg, st1, s1).state, m) == StateOf(Run(cfg, st2, s2).state, m)
    ensures Count(Run(cfg, st1, s1).alerts, m) == Count(Run(cfg, st2, s2).alerts, m)
  {
    if s1 != [] {
      var i1, i2 := s1[..|s1| - 1], s2[..|s2| - 1];
      RunIndependent(cfg, st1, st2, i1, i2, m);
      var p1, p2 := Run(cfg, st1, i1), Run(cfg, st2, i2);
      var l1, l2 := Step(cfg, p1.state, s1[|s1| - 1]), Step(cfg, p2.state, s2[|s2| - 1]);
      StepLaw(cfg, p1.state, s1[|s1| - 1]);
      StepLaw(cfg, p2.state, s2[|s2| - 1]);
      CountAppend(p1.alerts, l1.alerts, m);
      CountAppend(p2.alerts, l2.alerts, m);
    }
  }
}
