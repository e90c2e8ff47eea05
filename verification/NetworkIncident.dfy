/** Telling a local network outage from provider failures: distinct origins failing within a
    window take the gateway offline, and one probe at a time tests whether it is back.
    Times are nanoseconds. */
module NetworkIncident {
  import opened Wrappers

  const RECOVERY_DELAY := 2_000_000_000

  /** Distinct origins needed, how long a report counts, how long an incident lasts untended. */
  datatype Config = Config(threshold: nat, window: nat, suppression: nat)

  datatype Phase = Normal | Suspected | Offline | Recovering

  datatype State = State(signals: map<string, int>, phase: Phase, suspectedAt: Option<int>, activeUntil: Option<int>,
                         nextProbeAt: Option<int>, probeInFlight: bool, epoch: nat, origins: set<string>)

  const QUIET := State(map[], Normal, None, None, None, false, 0, {})

  predicate Down(phase: Phase) {
    phase == Offline || phase == Recovering
  }

  function Current(signals: map<string, int>, now: int, window: nat): map<string, int> {
    map origin | origin in signals && now - signals[origin] <= window :: signals[origin]
  }

  /** Old reports, stale suspicions and untended incidents are forgotten. */
  function Normalized(c: Config, s: State, now: int): State {
    var s1 := s.(signals := Current(s.signals, now, c.window));
    var s2 := if s1.phase == Suspected && (s1.suspectedAt.Some? ==> now - s1.suspectedAt.value > c.window)
              then s1.(phase := Normal, suspectedAt := None, signals := map[]) else s1;
    if Down(s2.phase) && s2.activeUntil.Some? && now >= s2.activeUntil.value && !s2.probeInFlight
    then s2.(phase := Normal, activeUntil := None, nextProbeAt := None, signals := map[]) else s2
  }

  /** A strong local error at an origin. */
  function Failed(c: Config, s: State, origin: string, now: int): State {
    Noted(c, Normalized(c, s, now), origin, now)
  }

  function Noted(c: Config, n: State, origin: string, now: int): State {
    var r := n.(signals := n.signals[origin := now]);
    if Down(r.phase) then r
    else
      var p := if r.phase == Normal then r.(phase := Suspected, suspectedAt := Some(now), epoch := r.epoch + 1) else r;
      if |p.signals| >= c.threshold
      then p.(phase := Offline, activeUntil := Some(now + c.suppression), nextProbeAt := Some(now + RECOVERY_DELAY),
              probeInFlight := false, origins := p.signals.Keys)
      else p
  }

  datatype Answer = Refused | Ordinary | Probe

  function Admit(c: Config, s: State, now: int): Answer {
    var n := Normalized(c, s, now);
    match n.phase
    case Offline => if n.probeInFlight || (n.nextProbeAt.Some? && now < n.nextProbeAt.value) then Refused else Probe
    case Recovering => Refused
    case _ => Ordinary
  }

  function Begun(c: Config, s: State, now: int): State {
    var n := Normalized(c, s, now);
    if Admit(c, s, now).Probe? then n.(phase := Recovering, probeInFlight := true) else n
  }

  /** A request that was admitted as a probe ends; a successful one has been observed as such. */
  function Finished(s: State, success: bool, now: int): State {
    if !success && s.phase == Recovering
    then s.(phase := Offline, probeInFlight := false, nextProbeAt := Some(now + RECOVERY_DELAY)) else s
  }

  function Succeeded(s: State): State {
    if s.phase == Normal then s
    else s.(phase := Normal, suspectedAt := None, activeUntil := None, nextProbeAt := None, probeInFlight := false,
        signals := map[])
  }

  // ---------- runs ----------

  /** `Finish` names the step that admitted the probe. */
  datatype Step = Fail(origin: string, now: int) | Begin(now: int) | Finish(grant: nat, success: bool, now: int)
                | Success | Look(now: int)

  function Apply(c: Config, s: State, step: Step): State {
    match step
    case Fail(origin, now) => Failed(c, s, origin, now)
    case Begin(now) => Begun(c, s, now)
    case Finish(_, success, now) => Finished(s, success, now)
    case Success => Succeeded(s)
    case Look(now) => Normalized(c, s, now)
  }

  function After(c: Config, run: seq<Step>): State {
    if run == [] then QUIET else Apply(c, After(c, run[..|run| - 1]), run[|run| - 1])
  }

  lemma AfterLast(c: Config, run: seq<Step>, step: Step)
    ensures After(c, run + [step]) == Apply(c, After(c, run), step)
  {
    assert (run + [step])[..|run|] == run;
  }

  // ---------- one probe per recovery ----------

  predicate Inv(s: State) {
    && (s.probeInFlight <==> s.phase == Recovering)
    && (Down(s.phase) ==> s.nextProbeAt.Some? && s.activeUntil.Some?)
    && (s.phase == Suspected ==> s.suspectedAt.Some?)
  }

  /** A probe is in flight exactly in the recovering phase, after any steps whatever. */
  lemma {:induction false} InFlightIffRecovering(c: Config, run: seq<Step>)
    ensures Inv(After(c, run))
    decreases |run|
  {
    if run != [] {
      InFlightIffRecovering(c, run[..|run| - 1]);
      StepKeeps(c, After(c, run[..|run| - 1]), run[|run| - 1]);
    }
  }

  lemma StepKeeps(c: Config, s: State, step: Step)
    requires Inv(s)
    ensures Inv(Apply(c, s, step))
  {
  }

  /** While the gateway is down only a probe is admitted, and that puts it in recovery;
      in recovery nothing is. */
  lemma OnlyTheProbe(c: Config, run: seq<Step>, now: int)
    ensures var n := Normalized(c, After(c, run), now);
      var a := Admit(c, After(c, run), now);
      && (Down(n.phase) ==> a != Ordinary)
      && (After(c, run).phase == Recovering ==> a == Refused)
      && (a == Probe ==> n.phase == Offline && Begun(c, After(c, run), now).phase == Recovering)
  {
    InFlightIffRecovering(c, run);
  }

  /** After an incident begins or a probe fails there is no probe for the recovery delay; an
      incident that nobody tends ends by itself, and one with a probe out does not. */
  lemma ProbesWait(c: Config, run: seq<Step>, step: Step, now: int)
    requires After(c, run + [step]).phase == Offline && After(c, run).phase != Offline
    ensures step.Fail? || step.Finish?
    ensures Admit(c, After(c, run + [step]), now) == Probe ==> now >= step.now + RECOVERY_DELAY
    ensures var s := After(c, run + [step]);
      s.activeUntil.Some? && Normalized(c, s, now).phase == if now >= s.activeUntil.value then Normal else Offline
    ensures Normalized(c, After(c, run), now).phase == Recovering <==> After(c, run).phase == Recovering
  {
    AfterLast(c, run, step);
    InFlightIffRecovering(c, run);
    InFlightIffRecovering(c, run + [step]);
  }

  // ---------- who the probe is ----------

  predicate Grant(c: Config, run: seq<Step>, k: nat) {
    k < |run| && run[k].Begin? && Admit(c, After(c, run[..k]), run[k].now).Probe?
  }

  /** The probe that has been admitted and has neither ended nor been overtaken by a success. */
  function Owner(c: Config, run: seq<Step>): Option<nat> {
    if run == [] then None else
      var n := |run| - 1;
      var o := Owner(c, run[..n]);
      match run[n]
      case Begin(_) => if Grant(c, run, n) then Some(n) else o
      case Finish(grant, _, _) => if o == Some(grant) then None else o
      case Success => None
      case _ => o
  }

  /** Only probes end as probes, and one that ends well has observed its success before. */
  predicate Proper(c: Config, run: seq<Step>) {
    forall k | 0 <= k < |run| && run[k].Finish? ::
      Grant(c, run[..k], run[k].grant) && (run[k].success ==> Owner(c, run[..k]) != Some(run[k].grant))
  }

  /** A probe that was overtaken fails while another one is out. */
  predicate Stale(c: Config, run: seq<Step>, step: Step) {
    step.Finish? && !step.success && After(c, run).phase == Recovering && Owner(c, run) != Some(step.grant)
  }

  predicate NeverStale(c: Config, run: seq<Step>) {
    run == [] || (NeverStale(c, run[..|run| - 1]) && !Stale(c, run[..|run| - 1], run[|run| - 1]))
  }

  lemma OwnerSnoc(c: Config, run: seq<Step>, step: Step)
    ensures Owner(c, run + [step]) ==
      match step
      case Begin(now) => if Admit(c, After(c, run), now).Probe? then Some(|run|) else Owner(c, run)
      case Finish(grant, _, _) => if Owner(c, run) == Some(grant) then None else Owner(c, run)
      case Success => None
      case _ => Owner(c, run)
  {
    assert (run + [step])[..|run|] == run;
  }

  lemma {:induction false} OwnerIffRecovering(c: Config, run: seq<Step>)
    requires Proper(c, run) && NeverStale(c, run)
    ensures Owner(c, run).Some? <==> After(c, run).phase == Recovering
    decreases |run|
  {
    if run != [] {
      var n := |run| - 1;
      var init, step := run[..n], run[n];
      assert run == init + [step];
      forall k | 0 <= k < n && init[k].Finish?
        ensures Grant(c, init[..k], init[k].grant) && (init[k].success ==> Owner(c, init[..k]) != Some(init[k].grant))
      {
        assert init[..k] == run[..k] && run[k].Finish?;
      }
      OwnerIffRecovering(c, init);
      InFlightIffRecovering(c, init);
      OwnerSnoc(c, init, step);
      AfterLast(c, init, step);
      assert step.Finish? && step.success ==> Owner(c, init) != Some(step.grant);
      OwnerStep(c, After(c, init), step);
    }
  }

  lemma OwnerStep(c: Config, s: State, step: Step)
    requires Inv(s)
    ensures var s' := Apply(c, s, step);
      match step
      case Begin(now) => s'.phase == Recovering <==> s.phase == Recovering || Admit(c, s, now).Probe?
      case Finish(_, success, _) => s'.phase == Recovering <==> s.phase == Recovering && success
      case Success => s'.phase != Recovering
      case _ => s'.phase == Recovering <==> s.phase == Recovering
  {
  }

  /** As long as no overtaken probe fails while another is out, there is one probe at a time:
      while it is out nobody is admitted. */
  lemma OneProbeAtATime(c: Config, run: seq<Step>, now: int)
    requires Proper(c, run) && NeverStale(c, run) && Owner(c, run).Some?
    ensures Admit(c, After(c, run), now) == Refused
  {
    OwnerIffRecovering(c, run);
    OnlyTheProbe(c, run, now);
  }

  // ---------- exactly when a probe excludes everybody ----------

  ghost predicate RefusesAll(c: Config, run: seq<Step>) {
    forall now :: Admit(c, After(c, run), now) == Refused
  }

  /** At every point of the run at which a probe is out, nobody is admitted. */
  ghost predicate Exclusive(c: Config, run: seq<Step>) {
    forall n :: 0 <= n <= |run| && Owner(c, run[..n]).Some? ==> RefusesAll(c, run[..n])
  }

  lemma ProperPrefix(c: Config, run: seq<Step>, n: nat)
    requires Proper(c, run) && n <= |run|
    ensures Proper(c, run[..n])
  {
    forall k | 0 <= k < n && run[..n][k].Finish?
      ensures Grant(c, run[..n][..k], run[..n][k].grant)
      ensures run[..n][k].success ==> Owner(c, run[..n][..k]) != Some(run[..n][k].grant)
    {
      assert run[..n][..k] == run[..k] && run[k].Finish?;
    }
  }

  lemma {:induction false} NeverStalePrefix(c: Config, run: seq<Step>, n: nat)
    requires NeverStale(c, run) && n <= |run|
    ensures NeverStale(c, run[..n])
    decreases |run|
  {
    if n == |run| {
      assert run[..n] == run;
    } else {
      NeverStalePrefix(c, run[..|run| - 1], n);
      assert run[..|run| - 1][..n] == run[..n];
    }
  }

  /** A stale failure leaves a probe out beside which others are admitted. */
  lemma StaleAdmits(c: Config, run: seq<Step>, step: Step)
    requires Proper(c, run) && NeverStale(c, run) && Stale(c, run, step)
    ensures Owner(c, run + [step]).Some? && !RefusesAll(c, run + [step])
  {
    OwnerIffRecovering(c, run);
    OwnerSnoc(c, run, step);
    AfterLast(c, run, step);
    assert Admit(c, After(c, run + [step]), step.now + RECOVERY_DELAY) != Refused;
  }

  lemma {:induction false} StaleBreaks(c: Config, run: seq<Step>)
    requires Proper(c, run) && !NeverStale(c, run)
    ensures !Exclusive(c, run)
    decreases |run|
  {
    var n := |run| - 1;
    ProperPrefix(c, run, n);
    if NeverStale(c, run[..n]) {
      StaleAdmits(c, run[..n], run[n]);
      assert run[..n] + [run[n]] == run == run[..|run|];
    } else {
      StaleBreaks(c, run[..n]);
      if Exclusive(c, run) { ExclusivePrefix(c, run, n); }
    }
  }

  lemma ExclusivePrefix(c: Config, run: seq<Step>, n: nat)
    requires n <= |run| && Exclusive(c, run)
    ensures Exclusive(c, run[..n])
  {
    forall m | 0 <= m <= n && Owner(c, run[..n][..m]).Some? ensures RefusesAll(c, run[..n][..m]) {
      assert run[..n][..m] == run[..m];
    }
  }

  /** Over a whole run the probe that is out always excludes everybody, exactly when no overtaken
      probe ever fails while another one is out. */
  lemma ExclusiveIffNeverStale(c: Config, run: seq<Step>)
    requires Proper(c, run)
    ensures Exclusive(c, run) <==> NeverStale(c, run)
  {
    if NeverStale(c, run) {
      forall n | 0 <= n <= |run| && Owner(c, run[..n]).Some? ensures RefusesAll(c, run[..n]) {
        ProperPrefix(c, run, n);
        NeverStalePrefix(c, run, n);
        forall now ensures Admit(c, After(c, run[..n]), now) == Refused {
          OneProbeAtATime(c, run[..n], now);
        }
      }
    } else {
      StaleBreaks(c, run);
    }
  }

  // ---------- telling an overtaken probe ----------

  /** The epoch on record when a probe was admitted. */
  function EpochAt(c: Config, run: seq<Step>, g: nat): nat
    requires g < |run|
  {
    After(c, run[..g + 1]).epoch
  }

  predicate Ended(run: seq<Step>, g: nat) {
    exists k :: 0 <= k < |run| && run[k].Finish? && run[k].grant == g
  }

  /** A probe still out is of the current epoch; an overtaken one is of an earlier epoch as soon
      as anything is suspected again. */
  predicate Dated(s: State, owner: Option<nat>, g: nat, epoch: nat) {
    if owner == Some(g) then s.phase == Recovering && s.epoch == epoch
    else s.epoch >= epoch && (s.phase != Normal ==> s.epoch > epoch)
  }

  /** Every incident raises the epoch, and an incident in recovery keeps it. */
  lemma EpochStep(c: Config, s: State, step: Step)
    requires Inv(s)
    ensures var s' := Apply(c, s, step);
      && s.epoch <= s'.epoch
      && (s.phase == Normal && s'.phase != Normal ==> s.epoch < s'.epoch)
      && (s.phase == Recovering ==> s'.epoch == s.epoch)
  {
  }

  lemma DatedStep(c: Config, run: seq<Step>, step: Step, g: nat, epoch: nat)
    requires Dated(After(c, run), Owner(c, run), g, epoch) && g < |run|
    requires Owner(c, run).Some? <==> After(c, run).phase == Recovering
    requires !Stale(c, run, step) && !(step.Finish? && step.grant == g)
    requires step.Finish? && step.success ==> Owner(c, run) != Some(step.grant)
    ensures Dated(After(c, run + [step]), Owner(c, run + [step]), g, epoch)
  {
    InFlightIffRecovering(c, run);
    EpochStep(c, After(c, run), step);
    OwnerSnoc(c, run, step);
    AfterLast(c, run, step);
    OwnerStep(c, After(c, run), step);
  }

  lemma {:induction false} EpochDates(c: Config, run: seq<Step>, g: nat)
    requires Proper(c, run) && NeverStale(c, run) && Grant(c, run, g) && !Ended(run, g)
    ensures Dated(After(c, run), Owner(c, run), g, EpochAt(c, run, g))
    decreases |run|
  {
    var n := |run| - 1;
    var init, step := run[..n], run[n];
    assert run == init + [step];
    ProperPrefix(c, run, n);
    OwnerIffRecovering(c, init);
    if g == n {
      assert run[..g + 1] == run;
      OwnerSnoc(c, init, step);
      AfterLast(c, init, step);
    } else {
      assert run[..g + 1] == init[..g + 1] && init[..g] == run[..g];
      assert forall k :: 0 <= k < n ==> init[k] == run[k];
      EpochDates(c, init, g);
      assert step.Finish? && step.success ==> Owner(c, init) != Some(step.grant);
      DatedStep(c, init, step, g, EpochAt(c, run, g));
    }
  }

  /** The test a failing probe could make: while the gateway recovers, its failure is that of
      an overtaken probe exactly when the epoch has changed since it was admitted. */
  lemma EpochTellsStale(c: Config, run: seq<Step>, g: nat, now: int)
    requires Proper(c, run) && NeverStale(c, run) && After(c, run).phase == Recovering
    requires Grant(c, run, g) && !Ended(run, g)
    ensures Stale(c, run, Finish(g, false, now)) <==> EpochAt(c, run, g) != After(c, run).epoch
  {
    EpochDates(c, run, g);
  }

  // ---------- an overtaken probe ----------

  /** Two origins failing at once, then a probe when its time has come. */
  lemma Incident(c: Config, s: State, a: string, b: string, t: int)
    requires c.threshold == 2 && c.suppression > RECOVERY_DELAY && s.phase == Normal && s.signals == map[]
    requires !s.probeInFlight && a != b
    ensures var down := Failed(c, Failed(c, s, a, t), b, t);
      && Admit(c, down, t + RECOVERY_DELAY) == Probe
      && Begun(c, down, t + RECOVERY_DELAY).phase == Recovering
  {
    var one := Failed(c, s, a, t);
    assert Current(map[], t, c.window) == map[];
    assert one.signals == map[a := t] && |one.signals| == 1;
    assert Current(one.signals, t, c.window) == one.signals;
    var two := Failed(c, one, b, t);
    assert two.signals == map[a := t, b := t];
    assert two.signals.Keys == {a, b};
    assert |two.signals| == 2;
  }

  function Opens(a: string, b: string, t: int): seq<Step> {
    [Fail(a, t), Fail(b, t), Begin(t + RECOVERY_DELAY)]
  }

  /** Two incidents with their probes, and a foreign success in between. */
  function Overtaken(a: string, b: string, t: int): seq<Step> {
    Opens(a, b, 0) + [Success] + Opens(a, b, t)
  }

  lemma OvertakenRun(c: Config, a: string, b: string, t: int)
    requires c.threshold == 2 && c.suppression > 2 * RECOVERY_DELAY && a != b
    ensures var run := Overtaken(a, b, t);
      && After(c, run).phase == Recovering && Owner(c, run) == Some(6) && Grant(c, run, 2)
      && After(c, run).activeUntil == Some(t + c.suppression)
  {
    var first := Opens(a, b, 0);
    Opening(c, [], a, b, 0);
    assert [] + first == first;
    var calm := first + [Success];
    AfterLast(c, first, Success);
    Opening(c, calm, a, b, t);
    GrantStays(c, first, Overtaken(a, b, t), 2);
  }

  /** The run in which it happens: a foreign success ends the first probe's incident, a second
      incident's probe is out, and the first probe's failure lets a third in beside it. */
  lemma TwoProbesOut(c: Config, a: string, b: string, t: int)
    requires c.threshold == 2 && c.suppression > 2 * RECOVERY_DELAY && a != b && t > RECOVERY_DELAY
    ensures var run := Overtaken(a, b, t) + [Finish(2, false, t + RECOVERY_DELAY)];
      Proper(c, run) && Owner(c, run) == Some(6) && Admit(c, After(c, run), t + 2 * RECOVERY_DELAY) == Probe
  {
    var before := Overtaken(a, b, t);
    var last := Finish(2, false, t + RECOVERY_DELAY);
    OvertakenRun(c, a, b, t);
    OwnerSnoc(c, before, last);
    AfterLast(c, before, last);
    StillDown(c, After(c, before), t + RECOVERY_DELAY);
    OnlyFinish(a, b, t);
    assert (before + [last])[..|before|] == before;
  }

  lemma OnlyFinish(a: string, b: string, t: int)
    ensures |Overtaken(a, b, t)| == 7 && forall k :: 0 <= k < 7 ==> !Overtaken(a, b, t)[k].Finish?
  {
  }

  lemma GrantStays(c: Config, run: seq<Step>, more: seq<Step>, k: nat)
    requires |run| <= |more| && more[..|run|] == run && Grant(c, run, k)
    ensures Grant(c, more, k)
  {
    assert more[..k] == run[..k];
  }

  lemma StillDown(c: Config, s: State, now: int)
    requires s.phase == Recovering && s.activeUntil.Some? && now + RECOVERY_DELAY < s.activeUntil.value
    ensures Admit(c, Finished(s, false, now), now + RECOVERY_DELAY) == Probe
  {
  }

  lemma Opening(c: Config, run: seq<Step>, a: string, b: string, t: int)
    requires c.threshold == 2 && c.suppression > RECOVERY_DELAY && a != b
    requires After(c, run).phase == Normal && After(c, run).signals == map[] && !After(c, run).probeInFlight
    ensures var run' := run + Opens(a, b, t);
      After(c, run').phase == Recovering && Owner(c, run') == Some(|run| + 2) && Grant(c, run', |run| + 2)
      && After(c, run').activeUntil == Some(t + c.suppression)
  {
    var run1, run2 := run + [Fail(a, t)], run + [Fail(a, t)] + [Fail(b, t)];
    AfterLast(c, run, Fail(a, t));
    AfterLast(c, run1, Fail(b, t));
    var run3 := run2 + [Begin(t + RECOVERY_DELAY)];
    AfterLast(c, run2, Begin(t + RECOVERY_DELAY));
    Incident(c, After(c, run), a, b, t);
    OwnerSnoc(c, run2, Begin(t + RECOVERY_DELAY));
    assert run3[..|run2|] == run2;
    assert run3 == run + Opens(a, b, t);
  }

  // ---------- what takes the gateway down ----------

  /** Every report kept was made. */
  ghost predicate Reported(run: seq<Step>, signals: map<string, int>) {
    forall o :: o in signals ==> Fail(o, signals[o]) in run
  }

  lemma {:induction false} SignalsReported(c: Config, run: seq<Step>)
    ensures Reported(run, After(c, run).signals)
    decreases |run|
  {
    if run != [] {
      var init, step := run[..|run| - 1], run[|run| - 1];
      SignalsReported(c, init);
      assert run == init + [step];
      SignalsStep(c, After(c, init), step);
    }
  }

  lemma SignalsStep(c: Config, s: State, step: Step)
    ensures var s' := Apply(c, s, step);
      forall o :: o in s'.signals ==>
          (o in s.signals && s'.signals[o] == s.signals[o]) || step == Fail(o, s'.signals[o])
  {
  }

  /** The gateway goes down only when enough distinct origins have each reported a strong error
      within the window, and otherwise only when the probe of an incident fails. */
  lemma DownOnlyWhenCorroborated(c: Config, run: seq<Step>, step: Step)
    requires After(c, run + [step]).phase == Offline && After(c, run).phase != Offline
    ensures
      if step.Fail? then
        var origins := After(c, run + [step]).origins;
        |origins| >= c.threshold && forall o :: o in origins ==> WithinWindow(c, run + [step], o, step.now)
      else step.Finish? && !step.success && After(c, run).phase == Recovering
  {
    AfterLast(c, run, step);
    InFlightIffRecovering(c, run);
    if step.Fail? {
      SignalsReported(c, run);
      var s := After(c, run);
      CountedAreCurrent(c, s, step.origin, step.now);
      forall o | o in After(c, run + [step]).origins ensures WithinWindow(c, run + [step], o, step.now) {
        if o == step.origin {
          assert (run + [step])[|run|] == Fail(o, step.now);
        } else {
          assert Fail(o, s.signals[o]) in run;
        }
      }
    }
  }

  ghost predicate WithinWindow(c: Config, run: seq<Step>, origin: string, now: int) {
    exists at :: now - at <= c.window && Fail(origin, at) in run
  }

  lemma CountedAreCurrent(c: Config, s: State, origin: string, now: int)
    requires Inv(s) && s.phase != Offline && Failed(c, s, origin, now).phase == Offline
    ensures var r := Failed(c, s, origin, now);
      && |r.origins| >= c.threshold
      && forall o :: o in r.origins ==> o == origin || (o in s.signals && now - s.signals[o] <= c.window)
  {
  }

  /** From an undisturbed suspicion, one more origin takes the gateway down exactly when the
      origins still within the window reach the threshold and the suspicion itself is not older
      than the window; an old suspicion takes its origins with it. */
  lemma DownExactlyWhen(c: Config, s: State, origin: string, now: int)
    requires Inv(s) && s.phase == Suspected && c.threshold > 1
    ensures Failed(c, s, origin, now).phase == Offline <==>
      now - s.suspectedAt.value <= c.window && |Current(s.signals, now, c.window)[origin := now]| >= c.threshold
  {
    assert now - s.suspectedAt.value > c.window ==> |map[origin := now]| == 1;
  }

  // ---------- what every event comes to ----------

  /** Without a suspicion or an incident there is nothing on file. */
  lemma {:induction false} NormalIsClean(c: Config, run: seq<Step>)
    ensures After(c, run).phase == Normal ==> After(c, run).signals == map[]
    decreases |run|
  {
    if run != [] {
      NormalIsClean(c, run[..|run| - 1]);
      InFlightIffRecovering(c, run[..|run| - 1]);
    }
  }

  /** A suspicion that is young enough to be pursued, and an incident that has not run out. */
  predicate Suspecting(c: Config, s: State, now: int) {
    s.phase == Suspected && s.suspectedAt.Some? && now - s.suspectedAt.value <= c.window
  }

  predicate InIncident(s: State, now: int) {
    s.phase == Recovering || (s.phase == Offline && s.activeUntil.Some? && now < s.activeUntil.value)
  }

  /** Requests pass while nothing is wrong, while an outage is only suspected, and once an
      incident has run out; in an incident one of them becomes the probe when its time has
      come, and all others are refused. */
  lemma AdmitsExactlyWhen(c: Config, run: seq<Step>, now: int)
    ensures var s := After(c, run);
      && (Admit(c, s, now) == Ordinary <==> !InIncident(s, now))
      && (Admit(c, s, now) == Probe <==>
          InIncident(s, now) && s.phase == Offline && s.nextProbeAt.Some? && s.nextProbeAt.value <= now)
      && (Begun(c, s, now).phase == Recovering <==> s.phase == Recovering || Admit(c, s, now) == Probe)
  {
    InFlightIffRecovering(c, run);
  }

  /** From the failure that starts an incident, or ends its probe, the times follow. */
  lemma IncidentTimes(c: Config, run: seq<Step>, step: Step)
    requires After(c, run + [step]).phase == Offline && After(c, run).phase != Offline
    ensures step.Fail? || step.Finish?
    ensures var s := After(c, run + [step]);
      && s.nextProbeAt == Some(step.now + 2_000_000_000)
      && s.activeUntil == if step.Fail? then Some(step.now + c.suppression) else After(c, run).activeUntil
  {
    AfterLast(c, run, step);
    InFlightIffRecovering(c, run);
    GoesOffline(c, After(c, run), step);
  }

  lemma GoesOffline(c: Config, s: State, step: Step)
    requires Inv(s) && Apply(c, s, step).phase == Offline && s.phase != Offline
    ensures var s' := Apply(c, s, step);
      match step
      case Fail(_, now) =>
        s'.nextProbeAt == Some(now + 2_000_000_000) && s'.activeUntil == Some(now + c.suppression)
      case Finish(_, _, now) => s'.nextProbeAt == Some(now + 2_000_000_000) && s'.activeUntil == s.activeUntil
      case _ => false
  {
  }

  /** The origins a failure is counted with: those of the suspicion that are young enough. */
  function With(c: Config, s: State, origin: string, now: int): set<string> {
    if Suspecting(c, s, now) then (set o | o in s.signals && now - s.signals[o] <= c.window) + {origin} else {origin}
  }

  /** A failure outside an incident starts one if enough origins are affected; otherwise it
      starts a suspicion or joins the one there is. In an incident it changes no phase. */
  lemma FailureMeans(c: Config, run: seq<Step>, origin: string, now: int)
    ensures var s, s' := After(c, run), After(c, run + [Fail(origin, now)]);
      if InIncident(s, now) then s'.phase == s.phase
      else
        var origins := With(c, s, origin, now);
        && s'.phase == (if |origins| >= c.threshold then Offline else Suspected)
        && s'.signals.Keys == origins && (s'.phase == Offline ==> s'.origins == origins)
        && s'.suspectedAt == (if Suspecting(c, s, now) then s.suspectedAt else Some(now))
        && s'.epoch == (if Suspecting(c, s, now) then s.epoch else s.epoch + 1)
  {
    var s := After(c, run);
    AfterLast(c, run, Fail(origin, now));
    InFlightIffRecovering(c, run);
    NormalIsClean(c, run);
    if !InIncident(s, now) { FailureOnState(c, s, origin, now); }
  }

  lemma FailureOnState(c: Config, s: State, origin: string, now: int)
    requires Inv(s) && (s.phase == Normal ==> s.signals == map[]) && !InIncident(s, now)
    ensures var s' := Failed(c, s, origin, now);
      var origins := With(c, s, origin, now);
      && s'.signals.Keys == origins
      && s'.phase == (if |origins| >= c.threshold then Offline else Suspected)
      && (s'.phase == Offline ==> s'.origins == origins)
      && s'.suspectedAt == (if Suspecting(c, s, now) then s.suspectedAt else Some(now))
      && s'.epoch == (if Suspecting(c, s, now) then s.epoch else s.epoch + 1)
  {
    var s' := Failed(c, s, origin, now);
    assert s'.signals.Keys == With(c, s, origin, now);
    assert |s'.signals| == |s'.signals.Keys|;
  }

  /** One success ends every suspicion and every incident, with all there was on file; a probe
      that fails sends the gateway back offline, and one that was overtaken changes nothing. */
  lemma EndsMean(c: Config, run: seq<Step>, step: Step)
    ensures step.Success? ==> var s := After(c, run + [step]);
      s.phase == Normal && s.signals == map[] && !InIncident(s, 0) && !s.probeInFlight
    ensures step.Finish? ==> var s := After(c, run + [step]);
      if step.success || After(c, run).phase != Recovering then s == After(c, run)
      else s.phase == Offline && !s.probeInFlight && s.signals == After(c, run).signals
  {
    AfterLast(c, run, step);
    InFlightIffRecovering(c, run);
    NormalIsClean(c, run);
  }

  // ---------- the record ----------

  class SharedIncident {
    var signals: map<string, int>
    var phase: Phase
    var suspectedAt: Option<int>
    var activeUntil: Option<int>
    var nextProbeAt: Option<int>
    var probeInFlight: bool
    var epoch: nat
    var origins: set<string>

    ghost function View(): State
      reads this
    {
      State(signals, phase, suspectedAt, activeUntil, nextProbeAt, probeInFlight, epoch, origins)
    }

    constructor ()
      ensures View() == QUIET
    {
      signals, phase, suspectedAt, activeUntil, nextProbeAt := map[], Normal, None, None, None;
      probeInFlight, epoch, origins := false, 0, {};
    }

    /** Deletes the reports that are too old, in whatever order they come. */
    method DropOld(window: nat, now: int)
      modifies this`signals
      ensures signals == Current(old(signals), now, window)
    {
      var left := signals.Items;
      while left != {}
        invariant left <= old(signals).Items
        invariant forall o :: o in signals ==> o in old(signals) && signals[o] == old(signals)[o]
        invariant forall o :: o in old(signals) ==>
          (o in signals <==> (o, old(signals)[o]) in left || now - old(signals)[o] <= window)
        decreases left
      {
        var entry :| entry in left;
        var (origin, observedAt) := entry;
        left := left - {entry};
        if now - observedAt > window {
          signals := signals - {origin};
        }
      }
    }

    method Normalize(c: Config, now: int)
      modifies this
      ensures View() == Normalized(c, old(View()), now)
    {
      DropOld(c.window, now);
      if phase == Suspected && (suspectedAt.None? || now - suspectedAt.value > c.window) {
        phase, suspectedAt, signals := Normal, None, map[];
      }
      if (phase == Offline || phase == Recovering) && activeUntil.Some? && now >= activeUntil.value && !probeInFlight {
        phase, activeUntil, nextProbeAt, signals := Normal, None, None, map[];
      }
    }

    /** Whether to spare the provider, and whether to stop falling back. */
    method ObserveFailure(c: Config, origin: string, now: int) returns (spare: bool, stop: bool)
      modifies this
      ensures View() == Failed(c, old(View()), origin, now)
      ensures stop == Down(phase) && spare == (phase != Normal)
    {
      Normalize(c, now);
      spare, stop := Note(c, origin, now);
    }

    method Note(c: Config, origin: string, now: int) returns (spare: bool, stop: bool)
      modifies this
      ensures View() == Noted(c, old(View()), origin, now)
      ensures stop == Down(phase) && spare == (phase != Normal)
    {
      signals := signals[origin := now];
      if phase == Offline || phase == Recovering {
        return true, true;
      }
      Suspect(now);
      stop := |signals| >= c.threshold;
      if stop {
        Confirm(c, now);
      }
      spare := true;
    }

    method Suspect(now: int)
      modifies this`phase, this`suspectedAt, this`epoch
      ensures View() == if old(phase) == Normal
        then old(View()).(phase := Suspected, suspectedAt := Some(now), epoch := old(epoch) + 1) else old(View())
    {
      if phase == Normal {
        phase, suspectedAt, epoch := Suspected, Some(now), epoch + 1;
      }
    }

    method Confirm(c: Config, now: int)
      modifies this
      ensures View() == old(View()).(phase := Offline, activeUntil := Some(now + c.suppression),
        nextProbeAt := Some(now + RECOVERY_DELAY), probeInFlight := false, origins := old(signals).Keys)
    {
      origins := signals.Keys;
      phase, activeUntil, nextProbeAt, probeInFlight := Offline, Some(now + c.suppression),
          Some(now + RECOVERY_DELAY), false;
    }

    method BeginRequest(c: Config, now: int) returns (probe: bool, refused: bool)
      modifies this
      ensures View() == Begun(c, old(View()), now)
      ensures Admit(c, old(View()), now) == if refused then Refused else if probe then Probe else Ordinary
    {
      Normalize(c, now);
      match phase
      case Offline =>
        if probeInFlight || (nextProbeAt.Some? && now < nextProbeAt.value) {
          return false, true;
        }
        phase, probeInFlight := Recovering, true;
        return true, false;
      case Recovering => return false, true;
      case _ => return false, false;
    }

    method FinishProbe(probe: bool, success: bool, now: int)
      modifies this
      ensures View() == if probe then Finished(old(View()), success, now) else old(View())
    {
      if probe && !success && phase == Recovering {
        phase, probeInFlight, nextProbeAt := Offline, false, Some(now + RECOVERY_DELAY);
      }
    }

    method ObserveSuccess()
      modifies this
      ensures View() == Succeeded(old(View()))
    {
      if phase != Normal {
        phase, suspectedAt, activeUntil, nextProbeAt := Normal, None, None, None;
        probeInFlight, signals := false, map[];
      }
    }
  }
}
