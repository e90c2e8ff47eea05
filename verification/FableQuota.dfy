/** Revalidating a model's quota block: once an hour, with fresh headers that allow the account,
    one real request at a time may go through. Times are nanoseconds. */
module FableQuota {
  import opened Wrappers

  const SECOND := 1_000_000_000
  const PROBE_INTERVAL := 3600 * SECOND
  const FRESH := 300 * SECOND

  /** Why a record is blocked: not at all, by the model's own quota header, or by another failure,
      which a later success lifts unless it is about a quota or the credentials. */
  datatype Reason = NoReason | QuotaRejected | Lasting | Passing

  /** The record of a model on an account. Unset times are None. */
  datatype Model = Model(reason: Reason, blockedUntil: Option<int>, lastFailure: Option<int>, probeAt: Option<int>,
      inFlight: bool)

  const CLEAR := Model(NoReason, None, None, None, false)

  /** What is known of the account; `windowsAllow` stands for both rate-limit windows reporting
      that requests are allowed. */
  datatype Account = Account(blockedUntil: Option<int>, quarantinedUntil: Option<int>, lastUpdated: int,
      windowsAllow: bool)

  predicate Later(t: Option<int>, now: int) {
    t.Some? && t.value > now
  }

  predicate Blocked(m: Model, now: int) {
    Later(m.blockedUntil, now)
  }

  predicate Ready(a: Account, m: Model, now: int) {
    && m.reason == QuotaRejected && !m.inFlight
    && !Later(a.blockedUntil, now) && !Later(a.quarantinedUntil, now)
    && Blocked(m, now)
    && m.lastFailure.Some? && now - m.lastFailure.value >= PROBE_INTERVAL
    && (m.probeAt.Some? ==> now - m.probeAt.value >= PROBE_INTERVAL)
    && a.lastUpdated <= now && now - a.lastUpdated <= FRESH
    && a.windowsAllow
  }

  datatype Answer = Ordinary | Refused | Lease

  /** Token counting is never worth a probe. */
  function Admit(a: Account, m: Model, now: int, countTokens: bool): Answer {
    if !Blocked(m, now) then Ordinary else if countTokens || !Ready(a, m, now) then Refused else Lease
  }

  function Acquired(a: Account, m: Model, now: int, countTokens: bool): Model {
    if Admit(a, m, now, countTokens).Lease? then m.(probeAt := Some(now), inFlight := true) else m
  }

  function Released(m: Model): Model {
    m.(inFlight := false)
  }

  function Rejected(m: Model, now: int, until: int): Model {
    m.(blockedUntil := Some(until), reason := QuotaRejected, lastFailure := Some(now))
  }

  /** Another failure recorded on the same model: the longer block wins, and names the reason. */
  function Failed(m: Model, now: int, until: int, lasting: bool): Model {
    var m' := m.(lastFailure := Some(now));
    if m.blockedUntil.None? || until > m.blockedUntil.value
    then m'.(blockedUntil := Some(until), reason := if lasting then Lasting else Passing) else m'
  }

  /** Headers that allow the model again. */
  function Allowed(m: Model, started: int): Model {
    if m.reason == QuotaRejected && !Later(m.lastFailure, started)
    then m.(blockedUntil := None, reason := NoReason) else m
  }

  /** A success of anything but a quota or a credential failure lifts the block. */
  function Cleared(m: Model, started: int): Model {
    if Later(m.lastFailure, started) || m.reason == QuotaRejected || m.reason == Lasting then m
    else m.(blockedUntil := None, reason := NoReason)
  }

  /** A complete inference that began at `started`. */
  function Recovered(m: Model, started: int): Model {
    Cleared(Allowed(m, started), started)
  }

  /** Looking at the record forgets a block whose time has come. */
  function Looked(m: Model, now: int): Model {
    if m.blockedUntil.Some? && now >= m.blockedUntil.value then m.(blockedUntil := None, reason := NoReason) else m
  }

  // ---------- runs ----------

  /** A release names the step that granted its lease. */
  datatype Step = Acquire(account: Account, now: int, countTokens: bool) | Release(grant: nat)
                | Reject(now: int, until: int) | Block(now: int, until: int, lasting: bool)
                | Allow(started: int) | Recover(started: int) | Look(now: int)

  function After(run: seq<Step>): Model {
    if run == [] then CLEAR else
      var m := After(run[..|run| - 1]);
      match run[|run| - 1]
      case Acquire(a, now, countTokens) => Acquired(a, m, now, countTokens)
      case Release(_) => Released(m)
      case Reject(now, until) => Rejected(m, now, until)
      case Block(now, until, lasting) => Failed(m, now, until, lasting)
      case Allow(started) => Allowed(m, started)
      case Recover(started) => Recovered(m, started)
      case Look(now) => Looked(m, now)
  }

  predicate Grant(run: seq<Step>, k: nat) {
    k < |run| && run[k].Acquire? && Admit(run[k].account, After(run[..k]), run[k].now, run[k].countTokens).Lease?
  }

  /** The leases granted and not yet released. */
  function Outstanding(run: seq<Step>): set<nat> {
    if run == [] then {} else
      var n := |run| - 1;
      var out := Outstanding(run[..n]);
      if Grant(run, n) then out + {n}
      else if run[n].Release? then out - {run[n].grant}
      else out
  }

  /** Each lease is released at most once, by whoever holds it. */
  predicate Proper(run: seq<Step>) {
    run == [] || (Proper(run[..|run| - 1]) && (run[|run| - 1].Release? ==>
        run[|run| - 1].grant in Outstanding(run[..|run| - 1])))
  }

  /** There is never more than one probe out, and the flag says whether there is one. */
  lemma {:induction false} OneLeaseAtATime(run: seq<Step>)
    requires Proper(run)
    ensures if After(run).inFlight then exists k :: Outstanding(run) == {k} else Outstanding(run) == {}
    decreases |run|
  {
    if run != [] {
      var n := |run| - 1;
      OneLeaseAtATime(run[..n]);
      if Grant(run, n) {
        assert Outstanding(run) == {n};
      } else if run[n].Release? {
        var k :| Outstanding(run[..n]) == {k};
        assert k == run[n].grant;
        assert Outstanding(run) == {};
      }
    }
  }

  // ---------- once an hour ----------

  predicate Failure(step: Step) {
    step.Reject? || step.Block?
  }

  predicate Timed(step: Step) {
    step.Acquire? || step.Look? || Failure(step)
  }

  predicate Ordered(run: seq<Step>) {
    forall i, j | 0 <= i < j < |run| :: Timed(run[i]) && Timed(run[j]) ==> run[i].now <= run[j].now
  }

  function LastGrant(run: seq<Step>): Option<nat> {
    if run == [] then None else
      var n := |run| - 1;
      if Grant(run, n) then Some(n) else LastGrant(run[..n])
  }

  lemma {:induction false} ProbeTimeIsLastGrant(run: seq<Step>)
    ensures match LastGrant(run)
      case None => After(run).probeAt == None
      case Some(g) => g < |run| && run[g].Acquire? && After(run).probeAt == Some(run[g].now)
    decreases |run|
  {
    if run != [] {
      ProbeTimeIsLastGrant(run[..|run| - 1]);
    }
  }

  lemma GrantPrefix(run: seq<Step>, n: nat, k: nat)
    requires k < n <= |run|
    ensures Grant(run[..n], k) <==> Grant(run, k)
  {
    assert run[..n][..k] == run[..k];
  }

  lemma {:induction false} LastGrantIsLatest(run: seq<Step>, i: nat)
    requires Grant(run, i)
    ensures LastGrant(run).Some? && i <= LastGrant(run).value
    decreases |run|
  {
    var n := |run| - 1;
    if !Grant(run, n) {
      GrantPrefix(run, n, i);
      LastGrantIsLatest(run[..n], i);
    }
  }

  /** Any two probes of a model are at least an hour apart, whatever rejections, recoveries and
      releases come between. */
  lemma ProbesAreAnHourApart(run: seq<Step>, i: nat, j: nat)
    requires Ordered(run) && i < j && Grant(run, i) && Grant(run, j)
    ensures run[j].now - run[i].now >= PROBE_INTERVAL
  {
    var before := run[..j];
    GrantPrefix(run, j, i);
    LastGrantIsLatest(before, i);
    ProbeTimeIsLastGrant(before);
    var g := LastGrant(before).value;
    assert before[g] == run[g] && before[i] == run[i];
  }

  // ---------- what ends a block ----------

  predicate FailuresKnown(run: seq<Step>) {
    forall k :: 0 <= k < |run| && Failure(run[k]) ==>
      After(run).lastFailure.Some? && run[k].now <= After(run).lastFailure.value
  }

  lemma {:induction false} FailuresAreKnown(run: seq<Step>)
    requires Ordered(run)
    ensures FailuresKnown(run)
    decreases |run|
  {
    if run != [] {
      var n := |run| - 1;
      assert Ordered(run[..n]);
      FailuresAreKnown(run[..n]);
      forall k | 0 <= k < |run| && Failure(run[k])
        ensures After(run).lastFailure.Some? && run[k].now <= After(run).lastFailure.value
      {
        if k < n { assert run[..n][k] == run[k]; }
      }
    }
  }

  predicate NoneNewer(run: seq<Step>, n: nat, started: int)
    requires n <= |run|
  {
    forall k :: 0 <= k < n && Failure(run[k]) ==> run[k].now <= started
  }

  /** What can take a block away before its time: only headers or a complete inference of a
      request that began no earlier than every failure so far, or the quota header itself naming
      an earlier end. */
  lemma OnlyNewerEvidenceLifts(run: seq<Step>, t: int)
    requires run != [] && Ordered(run)
    requires Blocked(After(run[..|run| - 1]), t) && !Blocked(After(run), t)
    ensures var n := |run| - 1;
      match run[n]
      case Allow(started) => NoneNewer(run, n, started)
      case Recover(started) => NoneNewer(run, n, started)
      case Reject(_, until) => until <= t
      case Look(now) => now > t
      case _ => false
  {
    var n := |run| - 1;
    assert Ordered(run[..n]);
    FailuresAreKnown(run[..n]);
    if run[n].Allow? || run[n].Recover? {
      forall k | 0 <= k < n && Failure(run[k]) ensures run[k].now <= run[n].started {
        assert run[..n][k] == run[k];
      }
    }
  }

  /** The quota header's own block is replaced by another failure's only if that one lasts
      longer, and otherwise ends as above or in its time. */
  lemma OnlyNewerEvidenceClears(run: seq<Step>)
    requires run != [] && Ordered(run)
    requires After(run[..|run| - 1]).reason == QuotaRejected && After(run).reason != QuotaRejected
    ensures var n := |run| - 1;
      var m := After(run[..n]);
      match run[n]
      case Allow(started) => NoneNewer(run, n, started)
      case Recover(started) => NoneNewer(run, n, started)
      case Block(_, until, _) => !Blocked(m, until) && After(run).blockedUntil == Some(until)
      case Look(now) => !Blocked(m, now)
      case _ => false
  {
    var n := |run| - 1;
    assert Ordered(run[..n]);
    FailuresAreKnown(run[..n]);
    if run[n].Allow? || run[n].Recover? {
      forall k | 0 <= k < n && Failure(run[k]) ensures run[k].now <= run[n].started {
        assert run[..n][k] == run[k];
      }
    }
  }

  /** A probe goes out only while the model is blocked by a rejection, every failure so far is
      at least an hour old, no other probe is out, and the account itself is fine: neither blocked
      nor quarantined, with headers of the last five minutes that allow requests. */
  lemma ProbeNeedsEvidence(run: seq<Step>, k: nat)
    requires Proper(run) && Ordered(run) && Grant(run, k)
    ensures var a, now := run[k].account, run[k].now;
      && !run[k].countTokens && After(run[..k]).reason == QuotaRejected && Blocked(After(run[..k]), now)
      && Outstanding(run[..k]) == {}
      && (forall j :: 0 <= j < k && Failure(run[j]) ==> now - run[j].now >= PROBE_INTERVAL)
      && !Later(a.blockedUntil, now) && !Later(a.quarantinedUntil, now)
      && a.windowsAllow && 0 <= now - a.lastUpdated <= FRESH
  {
    var before := run[..k];
    assert Ordered(before);
    ProperPrefix(run, k);
    OneLeaseAtATime(before);
    FailuresAreKnown(before);
    forall j | 0 <= j < k && Failure(run[j]) ensures run[k].now - run[j].now >= PROBE_INTERVAL {
      assert before[j] == run[j];
    }
  }

  /** And it goes out whenever all of that holds: the failure and the probe on record are the
      last ones of the run. */
  lemma LeaseExactlyWhen(run: seq<Step>, a: Account, now: int, countTokens: bool)
    requires Proper(run) && Ordered(run)
    ensures var m := After(run);
      && (Admit(a, m, now, countTokens) == Ordinary <==> m.blockedUntil.None? || m.blockedUntil.value <= now)
      && (Admit(a, m, now, countTokens) == Lease <==>
          && m.blockedUntil.Some? && now < m.blockedUntil.value && m.reason == QuotaRejected && !countTokens
          && Outstanding(run) == {}
          && (forall j :: 0 <= j < |run| && Failure(run[j]) ==> now - run[j].now >= 3600_000_000_000)
          && (forall j: nat :: Grant(run, j) ==> now - run[j].now >= 3600_000_000_000)
          && (a.blockedUntil.None? || a.blockedUntil.value <= now)
          && (a.quarantinedUntil.None? || a.quarantinedUntil.value <= now)
          && a.windowsAllow && a.lastUpdated <= now <= a.lastUpdated + 300_000_000_000)
  {
    OneLeaseAtATime(run);
    FailuresAreKnown(run);
    LastFailureIsReal(run);
    ProbeTimeIsLastGrant(run);
    GrantsAreBefore(run);
  }

  /** The failure on record is one of the run's, and a blocked record has one. */
  lemma {:induction false} LastFailureIsReal(run: seq<Step>)
    ensures var m := After(run);
      && (m.lastFailure.Some? ==>
          exists k :: 0 <= k < |run| && Failure(run[k]) && run[k].now == m.lastFailure.value)
      && (m.blockedUntil.Some? || m.reason != NoReason ==> m.lastFailure.Some?)
    decreases |run|
  {
    if run != [] {
      var n := |run| - 1;
      LastFailureIsReal(run[..n]);
      if After(run).lastFailure == After(run[..n]).lastFailure && After(run).lastFailure.Some? {
        var k :| 0 <= k < n && Failure(run[..n][k]) && run[..n][k].now == After(run).lastFailure.value;
        assert run[k] == run[..n][k];
      } else if Failure(run[n]) {
        assert After(run).lastFailure == Some(run[n].now);
      }
    }
  }

  predicate GrantedBy(run: seq<Step>, now: int) {
    LastGrant(run).Some? && LastGrant(run).value < |run| && run[LastGrant(run).value].Acquire? &&
    now <= run[LastGrant(run).value].now
  }

  /** Every grant is at or before the last one. */
  lemma GrantsAreBefore(run: seq<Step>)
    requires Ordered(run)
    ensures forall j: nat :: Grant(run, j) ==> GrantedBy(run, run[j].now)
    ensures LastGrant(run).Some? ==> Grant(run, LastGrant(run).value)
  {
    ProbeTimeIsLastGrant(run);
    LastGrantIsGrant(run);
    forall j: nat | Grant(run, j) ensures GrantedBy(run, run[j].now) {
      LastGrantIsLatest(run, j);
    }
  }

  lemma {:induction false} LastGrantIsGrant(run: seq<Step>)
    ensures LastGrant(run).Some? ==> Grant(run, LastGrant(run).value)
    decreases |run|
  {
    if run != [] && !Grant(run, |run| - 1) && LastGrant(run).Some? {
      LastGrantIsGrant(run[..|run| - 1]);
      GrantPrefix(run, |run| - 1, LastGrant(run).value);
    }
  }

  /** What every event does to the block. The quota header sets it, another failure replaces a
      shorter one, headers that allow lift the header's own, a success lifts all that are not
      about credentials or another quota, each only if begun no earlier than every failure. */
  lemma BlockMeans(run: seq<Step>, step: Step)
    requires Ordered(run)
    ensures var m, m' := After(run), After(run + [step]);
      match step
      case Reject(now, until) => m'.blockedUntil == Some(until) && m'.reason == QuotaRejected
      case Block(now, until, lasting) =>
        if m.blockedUntil.None? || m.blockedUntil.value < until
        then m'.blockedUntil == Some(until) && m'.reason == (if lasting then Lasting else Passing)
        else m'.blockedUntil == m.blockedUntil && m'.reason == m.reason
      case Allow(started) => Lifted(m, m', m.reason == QuotaRejected && NoneNewer(run, |run|, started))
      case Recover(started) => Lifted(m, m', m.reason != Lasting && NoneNewer(run, |run|, started))
      case Look(now) => Lifted(m, m', m.blockedUntil.Some? && m.blockedUntil.value <= now)
      case _ => m'.blockedUntil == m.blockedUntil && m'.reason == m.reason
  {
    assert (run + [step])[..|run|] == run;
    FailuresAreKnown(run);
    LastFailureIsReal(run);
  }

  predicate Lifted(m: Model, m': Model, lifts: bool) {
    if lifts then m'.blockedUntil.None? && m'.reason == NoReason
    else m'.blockedUntil == m.blockedUntil && m'.reason == m.reason
  }

  lemma {:induction false} ProperPrefix(run: seq<Step>, n: nat)
    requires Proper(run) && n <= |run|
    ensures Proper(run[..n])
    decreases |run|
  {
    if n == |run| {
      assert run[..n] == run;
    } else {
      ProperPrefix(run[..|run| - 1], n);
      assert run[..|run| - 1][..n] == run[..n];
    }
  }

  // ---------- the record ----------

  class ModelRecord {
    var reason: Reason
    var blockedUntil: Option<int>
    var lastFailure: Option<int>
    var probeAt: Option<int>
    var inFlight: bool

    ghost function View(): Model
      reads this
    {
      Model(reason, blockedUntil, lastFailure, probeAt, inFlight)
    }

    constructor ()
      ensures View() == CLEAR
    {
      reason, blockedUntil, lastFailure, probeAt, inFlight := NoReason, None, None, None, false;
    }

    method Acquire(a: Account, now: int, countTokens: bool) returns (admitted: bool, lease: bool)
      modifies this
      ensures View() == Acquired(a, old(View()), now, countTokens)
      ensures Admit(a, old(View()), now, countTokens) == if lease then Lease else if admitted then Ordinary else Refused
      ensures lease ==> admitted
    {
      if !(blockedUntil.Some? && blockedUntil.value > now) {
        return true, false;
      }
      if countTokens || !Ready(a, Model(reason, blockedUntil, lastFailure, probeAt, inFlight), now) {
        return false, false;
      }
      probeAt, inFlight := Some(now), true;
      return true, true;
    }

    method Release()
      modifies this`inFlight
      ensures View() == Released(old(View()))
    {
      inFlight := false;
    }

    /** The quota header. */
    method ObserveRejected(now: int, until: int)
      modifies this`blockedUntil, this`reason, this`lastFailure
      ensures View() == Rejected(old(View()), now, until)
    {
      blockedUntil, reason, lastFailure := Some(until), QuotaRejected, Some(now);
    }

    method ObserveAllowed(started: int)
      modifies this`blockedUntil, this`reason
      ensures View() == Allowed(old(View()), started)
    {
      if !(lastFailure.Some? && lastFailure.value > started) && reason == QuotaRejected {
        blockedUntil, reason := None, NoReason;
      }
    }

    /** Any other failure recorded under the model's key. */
    method MarkBlocked(now: int, until: int, lasting: bool)
      modifies this`blockedUntil, this`reason, this`lastFailure
      ensures View() == Failed(old(View()), now, until, lasting)
    {
      if blockedUntil.None? || until > blockedUntil.value {
        blockedUntil := Some(until);
        reason := if lasting then Lasting else Passing;
      }
      lastFailure := Some(now);
    }

    /** A complete inference: first the quota block, then whatever else a success lifts. */
    method ClearAfter(started: int)
      modifies this`blockedUntil, this`reason
      ensures View() == Recovered(old(View()), started)
    {
      ObserveAllowed(started);
      if (lastFailure.Some? && lastFailure.value > started) || reason == QuotaRejected || reason == Lasting {
        return;
      }
      blockedUntil, reason := None, NoReason;
    }

    method CheckBlocked(now: int) returns (blocked: bool)
      modifies this`blockedUntil, this`reason
      ensures View() == Looked(old(View()), now) && blocked == Blocked(old(View()), now)
    {
      if blockedUntil.Some? && now >= blockedUntil.value {
        blockedUntil, reason := None, NoReason;
      }
      blocked := blockedUntil.Some?;
    }
  }
}
