/** The circuit breaker of one provider leg: repeated failures open it, a cooldown keeps
    requests away, a single half-open probe at a time tests it again. Times are nanoseconds. */
module Circuit {
  import opened Wrappers

  const SECOND := 1_000_000_000
  const FAILURE_THRESHOLD := 2
  const FAILURE_WINDOW := 600 * SECOND
  const BASE_COOLDOWN := 30 * SECOND
  const MAX_COOLDOWN := 300 * SECOND
  const RECOVERY_DELAY := 2 * SECOND

  /** A leg without a record behaves as one that never failed; None is an unset time. */
  datatype State = State(failures: nat, opens: nat, lastFail: Option<int>, openUntil: Option<int>, halfOpen: bool,
      lastProbe: Option<int>)

  const CLOSED := State(0, 0, None, None, false, None)

  predicate Cooling(s: State, now: int) {
    s.openUntil.Some? && now < s.openUntil.value
  }

  /** Whether an attempt is admitted; an admitted attempt on an opened circuit is a probe. */
  predicate Admits(s: State, now: int, lastRemaining: bool) {
    && !s.halfOpen
    && (Cooling(s, now) ==> lastRemaining && (s.lastProbe.Some? ==> now - s.lastProbe.value >= RECOVERY_DELAY))
  }

  predicate GrantsProbe(s: State, now: int, lastRemaining: bool) {
    Admits(s, now, lastRemaining) && s.openUntil.Some?
  }

  function Acquired(s: State, now: int, lastRemaining: bool): State {
    if GrantsProbe(s, now, lastRemaining) then s.(halfOpen := true, lastProbe := Some(now)) else s
  }

  function Released(s: State, acquiredAt: int): State {
    if s.lastProbe == Some(acquiredAt) then s.(halfOpen := false) else s
  }

  function Cooldown(opens: nat): int {
    if opens >= 4 then MAX_COOLDOWN
    else
      var shifted := BASE_COOLDOWN * (if opens == 0 then 1 else if opens == 1 then 2 else if opens == 2 then 4 else 8);
      if shifted > MAX_COOLDOWN then MAX_COOLDOWN else shifted
  }

  predicate Stale(s: State, now: int) {
    s.lastFail.Some? ==> now - s.lastFail.value > FAILURE_WINDOW
  }

  function Tripped(s: State, now: int): State {
    var failures := (if Stale(s, now) then 0 else s.failures) + 1;
    var opens := if Stale(s, now) then 0 else s.opens;
    if failures < FAILURE_THRESHOLD
        then s.(failures := failures, opens := opens, lastFail := Some(now), halfOpen := false)
    else State(failures, opens + 1, Some(now), Some(now + Cooldown(opens)), false, s.lastProbe)
  }

  /** A success of an attempt that began before the last failure, or before the current probe,
      is no evidence; an unset start always counts. */
  predicate Counts(s: State, started: Option<int>) {
    started.Some? ==>
      !(s.lastFail.Some? && s.lastFail.value > started.value) &&
      !(s.halfOpen && s.lastProbe.Some? && s.lastProbe.value > started.value)
  }

  function Reset(s: State, started: Option<int>): State {
    if Counts(s, started) then State(0, 0, None, None, false, s.lastProbe) else s
  }

  // ---------- runs ----------

  /** A release names the step that granted its probe. */
  datatype Step = Acquire(now: int, lastRemaining: bool) | Release(grant: nat) | Trip(now: int)
      | Succeed(started: Option<int>)

  function After(run: seq<Step>): State {
    if run == [] then CLOSED else
      var s := After(run[..|run| - 1]);
      match run[|run| - 1]
      case Acquire(now, last) => Acquired(s, now, last)
      case Release(grant) =>
        if grant < |run| - 1 && run[grant].Acquire? then Released(s, run[grant].now) else s
      case Trip(now) => Tripped(s, now)
      case Succeed(started) => Reset(s, started)
  }

  /** Step k granted a probe. */
  predicate Grant(run: seq<Step>, k: nat) {
    k < |run| && run[k].Acquire? && GrantsProbe(After(run[..k]), run[k].now, run[k].lastRemaining)
  }

  predicate Timed(step: Step) {
    step.Acquire? || step.Trip?
  }

  /** Clock readings strictly increase, and only granted probes are released. */
  predicate Proper(run: seq<Step>) {
    && (forall i, j | 0 <= i < j < |run| :: Timed(run[i]) && Timed(run[j]) ==> run[i].now < run[j].now)
    && (forall k | 0 <= k < |run| && run[k].Release? :: Grant(run[..k], run[k].grant))
  }

  /** The step that holds the lease: granted, and neither released nor ended by a failure or
      a success that counts. */
  function Holder(run: seq<Step>): Option<nat> {
    if run == [] then None else
      var n := |run| - 1;
      var h := Holder(run[..n]);
      match run[n]
      case Acquire(_, _) => if Grant(run, n) then Some(n) else h
      case Release(grant) => if h == Some(grant) then None else h
      case Trip(_) => None
      case Succeed(started) => if Counts(After(run[..n]), started) then None else h
  }

  /** The latest probe granted. */
  function LastGrant(run: seq<Step>): Option<nat> {
    if run == [] then None else
      var n := |run| - 1;
      if Grant(run, n) then Some(n) else LastGrant(run[..n])
  }

  predicate Inv(run: seq<Step>) {
    var s := After(run);
    var h, g := Holder(run), LastGrant(run);
    && (s.halfOpen <==> h.Some?)
    && (h.Some? ==> h == g)
    && (g.Some? ==> g.value < |run| && run[g.value].Acquire? && s.lastProbe == Some(run[g.value].now))
    && (g.None? ==> s.lastProbe == None)
    && (s.halfOpen ==> s.openUntil.Some?)
  }

  lemma GrantPrefix(run: seq<Step>, n: nat, k: nat)
    requires k < n <= |run|
    ensures Grant(run[..n], k) <==> Grant(run, k)
  {
    assert run[..n][..k] == run[..k];
  }

  lemma ProperPrefix(run: seq<Step>, n: nat)
    requires Proper(run) && n <= |run|
    ensures Proper(run[..n])
  {
    forall k | 0 <= k < n && run[..n][k].Release? ensures Grant(run[..n][..k], run[..n][k].grant) {
      assert run[..n][..k] == run[..k];
      assert run[k].Release?;
    }
  }

  /** The clock makes the time of a probe name it. */
  lemma ReleaseFindsItsOwn(run: seq<Step>)
    requires run != [] && Proper(run) && run[|run| - 1].Release? && Inv(run[..|run| - 1])
    ensures Inv(run)
  {
    var n := |run| - 1;
    var init, k := run[..n], run[n].grant;
    assert Grant(init, k);
    assert init[k] == run[k];
    var g := LastGrant(init);
    if g.Some? && g.value != k {
      assert init[g.value] == run[g.value];
      assert run[k].now != run[g.value].now;
    }
  }

  lemma {:induction false} RunKeeps(run: seq<Step>)
    requires Proper(run)
    ensures Inv(run)
    decreases |run|
  {
    if run != [] {
      var n := |run| - 1;
      ProperPrefix(run, n);
      RunKeeps(run[..n]);
      if run[n].Release? {
        ReleaseFindsItsOwn(run);
      } else {
        var g := LastGrant(run[..n]);
        if g.Some? { assert run[..n][g.value] == run[g.value]; }
      }
    }
  }

  // ---------- leases ----------

  /** Step k may end a lease that step i holds. */
  predicate Ends(run: seq<Step>, k: nat, i: nat)
    requires k < |run|
  {
    match run[k]
    case Acquire(_, _) => false
    case Release(grant) => grant == i
    case Trip(_) => true
    case Succeed(started) => Counts(After(run[..k]), started)
  }

  lemma {:induction false} HeldUntil(run: seq<Step>, i: nat)
    requires Proper(run) && Grant(run, i)
    requires forall k :: i < k < |run| ==> !Ends(run, k, i)
    ensures Holder(run) == Some(i)
    decreases |run|
  {
    var n := |run| - 1;
    if i < n {
      ProperPrefix(run, n);
      GrantPrefix(run, n, i);
      forall k | i < k < n ensures !Ends(run[..n], k, i) {
        assert run[..n][..k] == run[..k];
        assert !Ends(run, k, i);
      }
      HeldUntil(run[..n], i);
      RunKeeps(run[..n]);
      assert !Ends(run, n, i);
    }
  }

  /** From a probe's grant until its release, a failure or a success that counts, no other
      attempt on the leg is admitted. */
  lemma LeaseIsExclusive(run: seq<Step>, i: nat, now: int, lastRemaining: bool)
    requires Proper(run) && Grant(run, i)
    requires forall k :: i < k < |run| ==> !Ends(run, k, i)
    ensures !Admits(After(run), now, lastRemaining)
  {
    HeldUntil(run, i);
    RunKeeps(run);
  }

  /** Releasing a probe that no longer holds the lease changes nothing. */
  lemma StaleReleaseIsHarmless(run: seq<Step>, i: nat)
    requires Proper(run) && Proper(run + [Release(i)]) && Holder(run) != Some(i)
    ensures After(run + [Release(i)]) == After(run)
  {
    var all := run + [Release(i)];
    assert all[..|run|] == run && all[|run|] == Release(i);
    RunKeeps(run);
    assert Grant(run, i);
    var g := LastGrant(run);
    assert run[i] == all[i];
    if g.Some? && g.value != i {
      assert all[g.value] == run[g.value];
      assert all[i].now != all[g.value].now;
    }
  }

  lemma {:induction false} LastGrantIsLatest(run: seq<Step>, i: nat)
    requires Grant(run, i)
    ensures LastGrant(run).Some? && i <= LastGrant(run).value < |run| && Grant(run, LastGrant(run).value)
    decreases |run|
  {
    var n := |run| - 1;
    if !Grant(run, n) {
      GrantPrefix(run, n, i);
      LastGrantIsLatest(run[..n], i);
      GrantPrefix(run, n, LastGrant(run[..n]).value);
    }
  }

  /** A probe granted while the circuit still cools down comes at least the recovery delay
      after every earlier one. */
  lemma CoolingGrantsAreApart(run: seq<Step>, i: nat, j: nat)
    requires Proper(run) && i < j && Grant(run, i) && Grant(run, j) && Cooling(After(run[..j]), run[j].now)
    ensures run[j].now - run[i].now >= RECOVERY_DELAY
  {
    var before := run[..j];
    ProperPrefix(run, j);
    GrantPrefix(run, j, i);
    LastGrantIsLatest(before, i);
    RunKeeps(before);
    var g := LastGrant(before).value;
    assert before[g] == run[g] && before[i] == run[i];
    assert run[i].now <= run[g].now;
  }

  // ---------- opening and closing ----------

  /** The last failure no success has wiped out. */
  function LastTrip(run: seq<Step>): Option<nat> {
    if run == [] then None else
      var n := |run| - 1;
      match run[n]
      case Trip(_) => Some(n)
      case Succeed(started) => if Counts(After(run[..n]), started) then None else LastTrip(run[..n])
      case _ => LastTrip(run[..n])
  }

  predicate FailuresKnown(run: seq<Step>) {
    var s, t := After(run), LastTrip(run);
    && (t.Some? ==> t.value < |run| && run[t.value].Trip? && s.lastFail == Some(run[t.value].now) && s.failures > 0)
    && (t.None? ==> s.lastFail == None && s.failures == 0 && s.openUntil == None)
    && (t.Some? ==> forall k :: t.value < k < |run| ==> !run[k].Trip? && !Wipes(run, k))
  }

  predicate Wipes(run: seq<Step>, k: nat)
    requires k < |run|
  {
    run[k].Succeed? && Counts(After(run[..k]), run[k].started)
  }

  lemma {:induction false} FailuresAreKnown(run: seq<Step>)
    ensures FailuresKnown(run)
    decreases |run|
  {
    if run != [] {
      var n := |run| - 1;
      FailuresAreKnown(run[..n]);
      var t := LastTrip(run[..n]);
      if t.Some? && LastTrip(run) == t {
        assert run[..n][t.value] == run[t.value];
        forall k | t.value < k < |run| ensures !run[k].Trip? && !Wipes(run, k) {
          if k < n {
            assert run[..n][k] == run[k] && run[..n][..k] == run[..k];
            assert !Wipes(run[..n], k);
          }
        }
      }
    }
  }

  lemma TripOpens(s: State, now: int)
    requires Tripped(s, now).openUntil != s.openUntil
    ensures var s' := Tripped(s, now);
      && s'.opens > 0 && s'.openUntil == Some(now + Cooldown(s'.opens - 1))
      && s.failures > 0 && !Stale(s, now)
  {
  }

  lemma OpenChange(run: seq<Step>)
    requires run != [] && After(run).openUntil != After(run[..|run| - 1]).openUntil
    ensures var n := |run| - 1;
      var s := After(run[..n]);
      if After(run).openUntil.Some? then run[n].Trip? && After(run) == Tripped(s, run[n].now)
      else run[n].Succeed? && Counts(s, run[n].started)
  {
  }

  /** A circuit opens, or opens for longer, only at a failure within the window of another that
      no success has wiped out. */
  lemma OpensOnlyOnRepeatedFailure(run: seq<Step>)
    requires run != [] && After(run).openUntil.Some? && After(run).openUntil != After(run[..|run| - 1]).openUntil
    ensures var n := |run| - 1;
      var i := LastTrip(run[..n]);
      && run[n].Trip?
      && After(run).opens > 0 && After(run).openUntil == Some(run[n].now + Cooldown(After(run).opens - 1))
      && i.Some? && i.value < n && run[i.value].Trip? && run[n].now - run[i.value].now <= FAILURE_WINDOW
  {
    var n := |run| - 1;
    OpenChange(run);
    TripOpens(After(run[..n]), run[n].now);
    FailureFound(run, n);
  }

  lemma FailureFound(run: seq<Step>, n: nat)
    requires n <= |run| && After(run[..n]).failures > 0
    ensures var i := LastTrip(run[..n]);
      i.Some? && i.value < n && run[i.value].Trip? && After(run[..n]).lastFail == Some(run[i.value].now)
  {
    FailuresAreKnown(run[..n]);
    var i := LastTrip(run[..n]).value;
    assert run[..n][i] == run[i];
  }

  /** An open circuit closes only on a success; one whose attempt began no earlier than every
      failure so far, unless its start was not recorded. */
  lemma ClosesOnlyOnFreshSuccess(run: seq<Step>)
    requires run != [] && Proper(run) && After(run[..|run| - 1]).openUntil.Some? && After(run).openUntil.None?
    ensures var n := |run| - 1;
      run[n].Succeed? && (run[n].started.Some? ==> forall k :: 0 <= k < n && run[k].Trip? ==>
          run[k].now <= run[n].started.value)
  {
    var n := |run| - 1;
    OpenChange(run);
    LastTripIsLatest(run);
  }

  lemma LastTripIsLatest(run: seq<Step>)
    requires run != [] && Proper(run) && After(run[..|run| - 1]).openUntil.Some?
    ensures var n := |run| - 1;
      var s := After(run[..n]);
      s.lastFail.Some? && forall k :: 0 <= k < n && run[k].Trip? ==> run[k].now <= s.lastFail.value
  {
    var n := |run| - 1;
    var init := run[..n];
    FailuresAreKnown(init);
    var t := LastTrip(init).value;
    assert init[t] == run[t];
    forall k | 0 <= k < n && run[k].Trip? ensures run[k].now <= run[t].now {
      assert init[k] == run[k];
    }
  }

  function Pow2(n: nat): (r: nat)
    ensures r >= 1
  {
    if n == 0 then 1 else 2 * Pow2(n - 1)
  }

  lemma {:induction false} Pow2Grows(n: nat)
    requires n >= 4
    ensures Pow2(n) >= 16
  {
    if n > 4 { Pow2Grows(n - 1); } else { assert Pow2(4) == 2 * 2 * 2 * 2 * Pow2(0); }
  }

  /** The cooldown doubles from thirty seconds and stops at five minutes. */
  lemma CooldownDoubles(opens: nat)
    ensures Cooldown(opens) == if BASE_COOLDOWN * Pow2(opens) < MAX_COOLDOWN then BASE_COOLDOWN * Pow2(opens)
        else MAX_COOLDOWN
  {
    if opens >= 4 {
      Pow2Grows(opens);
    } else {
      assert Pow2(0) == 1 && Pow2(1) == 2 && Pow2(2) == 4 && Pow2(3) == 8;
    }
  }

  // ---------- when it opens, and whom it admits ----------

  /** Consecutive failures: each within the window of the one before it, none wiped out. */
  function Chain(run: seq<Step>): nat {
    if run == [] then 0 else
      var n := |run| - 1;
      var init := run[..n];
      match run[n]
      case Trip(now) =>
        var t := LastTrip(init);
        if t.Some? && t.value < n && Timed(run[t.value]) && now - run[t.value].now <= 600_000_000_000
        then Chain(init) + 1 else 1
      case Succeed(started) => if Counts(After(init), started) then 0 else Chain(init)
      case _ => Chain(init)
  }

  predicate ChainKnown(run: seq<Step>) {
    After(run).failures == Chain(run) && After(run).opens == (if Chain(run) < 2 then 0 else Chain(run) - 1) &&
    (Chain(run) > 0 <==> LastTrip(run).Some?)
  }

  lemma {:induction false} ChainIsKnown(run: seq<Step>)
    ensures ChainKnown(run)
    decreases |run|
  {
    if run != [] {
      var n := |run| - 1;
      ChainIsKnown(run[..n]);
      FailuresAreKnown(run[..n]);
      var t := LastTrip(run[..n]);
      if t.Some? { assert run[..n][t.value] == run[t.value]; }
    }
  }

  /** A failure opens the circuit exactly when it is at least the second of a chain, for thirty
      seconds at the second and twice as long at each further one, up to five minutes; a
      first failure changes nothing about it. */
  lemma OpensExactlyWhen(run: seq<Step>, now: int)
    ensures var all := run + [Trip(now)];
      After(all).openUntil ==
        if Chain(all) < 2 then After(run).openUntil
        else Some(now + (if 30 * Pow2(Chain(all) - 2) < 300 then 30 * Pow2(Chain(all) - 2) else 300) * 1_000_000_000)
  {
    var all := run + [Trip(now)];
    assert all[..|run|] == run;
    ChainIsKnown(run);
    ChainIsKnown(all);
    FailuresAreKnown(run);
    if Chain(all) >= 2 { CooldownDoubles(Chain(all) - 2); }
    var t := LastTrip(run);
    if t.Some? { assert all[t.value] == run[t.value]; }
  }

  /** The circuit is open since the last failure that opened it and that no success wiped out. */
  lemma OpenStays(run: seq<Step>, step: Step)
    requires !step.Trip?
    ensures After(run + [step]).openUntil ==
      if step.Succeed? && Counts(After(run), step.started) then None else After(run).openUntil
  {
    assert (run + [step])[..|run|] == run;
  }

  /** A closed circuit admits everybody. An opened one admits one probe at a time: anybody
      after the cooldown, and during it only the last leg left, two seconds after the last probe. */
  lemma AdmitsExactlyWhen(run: seq<Step>, now: int, lastRemaining: bool)
    requires Proper(run)
    ensures var until, g := After(run).openUntil, LastGrant(run);
      && (g.Some? ==> g.value < |run| && run[g.value].Acquire?)
      && (Admits(After(run), now, lastRemaining) <==>
          Holder(run).None? &&
          (until.None? || until.value <= now ||
           (lastRemaining && (g.None? || run[g.value].now + 2_000_000_000 <= now))))
      && (GrantsProbe(After(run), now, lastRemaining) <==> Admits(After(run), now, lastRemaining) && until.Some?)
      && (until.None? ==> Holder(run).None?)
  {
    RunKeeps(run);
  }

  /** A success is evidence exactly when its attempt began no earlier than the last failure
      still on record and no earlier than the probe that is out, or when its start is unknown. */
  lemma CountsExactlyWhen(run: seq<Step>, started: Option<int>)
    requires Proper(run)
    ensures var t, h := LastTrip(run), Holder(run);
      && (t.Some? ==> t.value < |run| && run[t.value].Trip?) && (h.Some? ==> h.value < |run| && run[h.value].Acquire?)
      && (Counts(After(run), started) <==>
          started.None? || ((t.None? || run[t.value].now <= started.value) &&
                            (h.None? || run[h.value].now <= started.value)))
  {
    RunKeeps(run);
    FailuresAreKnown(run);
  }

  // ---------- the record ----------

  class CircuitState {
    var failures: nat
    var opens: nat
    var lastFail: Option<int>
    var openUntil: Option<int>
    var halfOpen: bool
    var lastProbe: Option<int>

    ghost function View(): State
      reads this
    {
      State(failures, opens, lastFail, openUntil, halfOpen, lastProbe)
    }

    constructor ()
      ensures View() == CLOSED
    {
      failures, opens, lastFail, openUntil, halfOpen, lastProbe := 0, 0, None, None, false, None;
    }

    /** Whether the attempt may go ahead, and the time that names its probe if it is one. */
    method AcquireAttempt(now: int, lastRemaining: bool) returns (admitted: bool, probe: Option<int>)
      modifies this
      ensures View() == Acquired(old(View()), now, lastRemaining)
      ensures admitted == Admits(old(View()), now, lastRemaining)
      ensures probe == if GrantsProbe(old(View()), now, lastRemaining) then Some(now) else None
    {
      if halfOpen {
        return false, None;
      }
      if openUntil.Some? && now < openUntil.value {
        if !lastRemaining || (lastProbe.Some? && now - lastProbe.value < RECOVERY_DELAY) {
          return false, None;
        }
      }
      if openUntil.None? {
        return true, None;
      }
      halfOpen, lastProbe := true, Some(now);
      return true, Some(now);
    }

    method ReleaseProbe(probe: Option<int>)
      modifies this`halfOpen
      ensures View() == if probe.Some? then Released(old(View()), probe.value) else old(View())
    {
      if probe.Some? && lastProbe == probe {
        halfOpen := false;
      }
    }

    method TripAt(now: int)
      modifies this
      ensures View() == Tripped(old(View()), now)
    {
      if lastFail.None? || now - lastFail.value > FAILURE_WINDOW {
        failures, opens := 0, 0;
      }
      failures, lastFail, halfOpen := failures + 1, Some(now), false;
      if failures < FAILURE_THRESHOLD {
        return;
      }
      var cooldown := Cooldown(opens);
      opens := opens + 1;
      openUntil := Some(now + cooldown);
    }

    method ResetAfter(started: Option<int>)
      modifies this
      ensures View() == Reset(old(View()), started)
    {
      if started.Some? && ((lastFail.Some? && lastFail.value > started.value) ||
                           (halfOpen && lastProbe.Some? && lastProbe.value > started.value)) {
        return;
      }
      failures, opens, openUntil, lastFail, halfOpen := 0, 0, None, None, false;
    }
  }
}
