/** The gate in front of metered providers: every non-metered leg evaluated earlier in the
    request must have a recorded, permitted reason before the first paid dispatch. */
module PaidFallback {
  import opened Wrappers

  const LOAD_SPILL := "load_spill"

  datatype Policy = Policy(allowPaid: bool, permitted: set<string>, softConcurrency: nat)

  /** A leg is known by its account-scoped provider and upstream; the provider decides billing. */
  datatype Leg = Leg(key: string, metered: bool)

  /** What one turn of the attempt loop comes to, given that it gets past the gate. */
  datatype Outcome =
    | Bypassed                                          // skipped before it is evaluated
    | TurnedAway(reasons: seq<string>)                  // evaluated, then skipped for these reasons
    | Dispatched(before: seq<string>, after: seq<string>, final: bool)

  /** `skipped` legs never reach the gate. */
  datatype Turn = Turn(leg: Leg, skipped: bool, outcome: Outcome)

  // ---------- the evidence ----------

  predicate Allowed(evidence: map<string, string>, p: Policy) {
    p.allowPaid && evidence != map[] && forall key | key in evidence ::
        evidence[key] != "" && evidence[key] in p.permitted
  }

  predicate LoadAllowed(evidence: map<string, string>, p: Policy) {
    p.allowPaid && p.softConcurrency > 0 && evidence != map[] &&
    forall key | key in evidence :: evidence[key] == LOAD_SPILL || evidence[key] in p.permitted
  }

  predicate GateOpen(evidence: map<string, string>, p: Policy) {
    Allowed(evidence, p) || LoadAllowed(evidence, p)
  }

  /** Load spill excuses a leg only where the route has a soft concurrency limit. */
  predicate Excused(reason: string, p: Policy) {
    reason in p.permitted || (reason == LOAD_SPILL && p.softConcurrency > 0)
  }

  /** For every policy a configuration can hold, the two tests together ask for a reason for
      every leg; an unexplained leg, recorded as the empty reason, closes the gate. */
  lemma GateMeans(evidence: map<string, string>, p: Policy)
    requires "" !in p.permitted
    ensures GateOpen(evidence, p) <==>
      p.allowPaid && evidence != map[] && forall key | key in evidence :: Excused(evidence[key], p)
    ensures (exists key | key in evidence :: evidence[key] == "") ==> !GateOpen(evidence, p)
  {
    assert LOAD_SPILL != "";
  }

  /** The loop over a map in no particular order. */
  method CheckAllowed(evidence: map<string, string>, p: Policy) returns (ok: bool)
    ensures ok == Allowed(evidence, p)
  {
    if !p.allowPaid || evidence == map[] {
      return false;
    }
    var left := evidence.Items;
    while left != {}
      invariant left <= evidence.Items
      invariant forall key :: key in evidence && (key, evidence[key]) !in left ==>
          evidence[key] != "" && evidence[key] in p.permitted
      decreases left
    {
      var entry :| entry in left;
      var (key, reason) := entry;
      left := left - {entry};
      if reason == "" || reason !in p.permitted {
        assert evidence[key] == reason;
        return false;
      }
    }
    return true;
  }

  method CheckLoadAllowed(evidence: map<string, string>, p: Policy) returns (ok: bool)
    ensures ok == LoadAllowed(evidence, p)
  {
    if !p.allowPaid || p.softConcurrency <= 0 || evidence == map[] {
      return false;
    }
    var left := evidence.Items;
    while left != {}
      invariant left <= evidence.Items
      invariant forall key :: key in evidence && (key, evidence[key]) !in left ==>
          evidence[key] == LOAD_SPILL || evidence[key] in p.permitted
      decreases left
    {
      var entry :| entry in left;
      var (key, reason) := entry;
      left := left - {entry};
      if reason != LOAD_SPILL && reason !in p.permitted {
        assert evidence[key] == reason;
        return false;
      }
    }
    return true;
  }

  // ---------- the attempt loop ----------

  /** What happens, in order: a leg is evaluated, a reason is recorded for it, a request is sent. */
  datatype Event = Evaluated(leg: Leg) | Recorded(key: string, reason: string) | Sent(leg: Leg)

  datatype Walk = Walk(evidence: map<string, string>, paidStarted: bool, done: bool, log: seq<Event>)

  function Start(selectedMetered: bool): Walk {
    Walk(map[], selectedMetered, false, [])
  }

  function Record(w: Walk, key: string, reason: string): Walk {
    w.(evidence := w.evidence[key := reason], log := w.log + [Recorded(key, reason)])
  }

  function RecordAll(w: Walk, key: string, reasons: seq<string>): Walk {
    if reasons == [] then w else Record(RecordAll(w, key, reasons[..|reasons| - 1]), key, reasons[|reasons| - 1])
  }

  /** A non-metered leg is unexplained from the moment it is evaluated. */
  function Evaluate(w: Walk, leg: Leg): Walk {
    var w' := w.(log := w.log + [Evaluated(leg)]);
    if leg.metered then w' else Record(w', leg.key, "")
  }

  function Send(w: Walk, leg: Leg): Walk {
    w.(paidStarted := w.paidStarted || leg.metered, log := w.log + [Sent(leg)])
  }

  predicate Suppressed(w: Walk, leg: Leg, p: Policy) {
    !w.paidStarted && leg.metered && !GateOpen(w.evidence, p)
  }

  function Take(w: Walk, t: Turn, p: Policy): Walk {
    if w.done || t.skipped || Suppressed(w, t.leg, p) then w
    else match t.outcome
      case Bypassed => w
      case TurnedAway(reasons) => RecordAll(Evaluate(w, t.leg), t.leg.key, reasons)
      case Dispatched(before, after, final) =>
        RecordAll(Send(RecordAll(Evaluate(w, t.leg), t.leg.key, before), t.leg), t.leg.key, after).(done := final)
  }

  function TakeAll(turns: seq<Turn>, p: Policy, selectedMetered: bool): Walk {
    if turns == [] then Start(selectedMetered)
    else Take(TakeAll(turns[..|turns| - 1], p, selectedMetered), turns[|turns| - 1], p)
  }

  // ---------- what the log says ----------

  /** The latest reason recorded for a key. */
  function Latest(log: seq<Event>, key: string): Option<string> {
    if log == [] then None else
      var e := log[|log| - 1];
      if e.Recorded? && e.key == key then Some(e.reason) else Latest(log[..|log| - 1], key)
  }

  lemma LatestSnoc(log: seq<Event>, e: Event, key: string)
    ensures Latest(log + [e], key) == if e.Recorded? && e.key == key then Some(e.reason) else Latest(log, key)
  {
    assert (log + [e])[..|log|] == log;
  }

  /** A leg may be paid for here: everything evaluated so far without being metered is excused. */
  predicate Explained(log: seq<Event>, p: Policy) {
    && p.allowPaid
    && (exists e :: e in log && e.Evaluated? && !e.leg.metered)
    && forall e | e in log :: e.Evaluated? && !e.leg.metered ==>
         Latest(log, e.leg.key).Some? && Excused(Latest(log, e.leg.key).value, p)
  }

  /** The first paid request, if any, was sent with everything explained. */
  predicate FirstPaidExplained(log: seq<Event>, p: Policy) {
    forall q | 0 <= q < |log| :: log[q].Sent? && log[q].leg.metered && NonePaid(log[..q]) ==> Explained(log[..q], p)
  }

  predicate NonePaid(log: seq<Event>) {
    forall e | e in log :: e.Sent? ==> !e.leg.metered
  }

  /** The evidence map is the log's latest reasons, and each evaluated leg is in it. */
  ghost predicate Faithful(w: Walk) {
    && (forall key :: (key in w.evidence <==> Latest(w.log, key).Some?) &&
                      (key in w.evidence ==> Latest(w.log, key) == Some(w.evidence[key])))
    && (forall e | e in w.log :: e.Evaluated? && !e.leg.metered ==> e.leg.key in w.evidence)
    && (!w.paidStarted <==> NonePaid(w.log))
  }

  lemma RecordKeeps(w: Walk, key: string, reason: string)
    requires Faithful(w)
    ensures Faithful(Record(w, key, reason))
  {
    forall k { LatestSnoc(w.log, Recorded(key, reason), k); }
  }

  lemma {:induction false} RecordAllKeeps(w: Walk, key: string, reasons: seq<string>)
    requires Faithful(w)
    ensures Faithful(RecordAll(w, key, reasons))
    ensures var w' := RecordAll(w, key, reasons);
      && w'.paidStarted == w.paidStarted
      && (forall k :: k != key ==>
          (k in w'.evidence <==> k in w.evidence) && (k in w.evidence ==> w'.evidence[k] == w.evidence[k]))
    decreases |reasons|
  {
    if reasons != [] {
      RecordAllKeeps(w, key, reasons[..|reasons| - 1]);
      RecordKeeps(RecordAll(w, key, reasons[..|reasons| - 1]), key, reasons[|reasons| - 1]);
    }
  }

  lemma EvaluateKeeps(w: Walk, leg: Leg)
    requires Faithful(w)
    ensures Faithful(Evaluate(w, leg)) && Evaluate(w, leg).paidStarted == w.paidStarted
  {
    var log := w.log + [Evaluated(leg)];
    forall k { LatestSnoc(w.log, Evaluated(leg), k); }
    forall k { LatestSnoc(log, Recorded(leg.key, ""), k); }
  }

  /** What every turn keeps, when `metered` says how each key is billed. */
  ghost predicate Inv(w: Walk, p: Policy, metered: string -> bool) {
    && Faithful(w)
    && FirstPaidExplained(w.log, p)
    && (!w.paidStarted && w.evidence != map[] ==> exists e :: e in w.log && e.Evaluated? && !e.leg.metered)
    && (forall e | e in w.log :: e.Evaluated? ==> e.leg.metered == metered(e.leg.key))
  }

  /** Appending anything but a first paid request cannot spoil the log. */
  lemma Unspoilt(log: seq<Event>, e: Event, p: Policy)
    requires FirstPaidExplained(log, p)
    requires e.Sent? && e.leg.metered && NonePaid(log) ==> Explained(log, p)
    ensures FirstPaidExplained(log + [e], p)
  {
    var all := log + [e];
    forall q | 0 <= q < |all| && all[q].Sent? && all[q].leg.metered && NonePaid(all[..q])
      ensures Explained(all[..q], p) {
      if q < |log| {
        assert all[..q] == log[..q] && all[q] == log[q];
      } else {
        assert all[..q] == log;
      }
    }
  }

  lemma {:induction false} RecordAllInv(w: Walk, key: string, reasons: seq<string>, p: Policy, metered: string -> bool)
    requires Inv(w, p, metered)
    requires reasons == [] || (exists e :: e in w.log && e.Evaluated? && !e.leg.metered) || w.paidStarted
    ensures Inv(RecordAll(w, key, reasons), p, metered)
    ensures forall e :: e in w.log ==> e in RecordAll(w, key, reasons).log
    ensures forall e :: e in RecordAll(w, key, reasons).log && !e.Recorded? ==> e in w.log
    decreases |reasons|
  {
    if reasons != [] {
      var w' := RecordAll(w, key, reasons[..|reasons| - 1]);
      RecordAllInv(w, key, reasons[..|reasons| - 1], p, metered);
      RecordAllKeeps(w, key, reasons);
      Unspoilt(w'.log, Recorded(key, reasons[|reasons| - 1]), p);
    }
  }

  lemma EvaluateInv(w: Walk, leg: Leg, p: Policy, metered: string -> bool)
    requires Inv(w, p, metered) && leg.metered == metered(leg.key)
    ensures Inv(Evaluate(w, leg), p, metered)
    ensures Evaluated(leg) in Evaluate(w, leg).log
    ensures forall e :: e in Evaluate(w, leg).log && e.Evaluated? ==> e in w.log || e == Evaluated(leg)
    ensures forall e :: e in w.log ==> e in Evaluate(w, leg).log
  {
    EvaluateKeeps(w, leg);
    Unspoilt(w.log, Evaluated(leg), p);
    if !leg.metered { Unspoilt(w.log + [Evaluated(leg)], Recorded(leg.key, ""), p); }
    assert Evaluated(leg) in w.log + [Evaluated(leg)];
  }

  lemma SendInv(w: Walk, leg: Leg, p: Policy, metered: string -> bool)
    requires Inv(w, p, metered) && (leg.metered && !w.paidStarted ==> Explained(w.log, p))
    ensures Inv(Send(w, leg), p, metered)
  {
    Unspoilt(w.log, Sent(leg), p);
    forall k { LatestSnoc(w.log, Sent(leg), k); }
  }

  lemma GateExplains(w: Walk, leg: Leg, before: seq<string>, p: Policy, metered: string -> bool)
    requires Inv(w, p, metered) && "" !in p.permitted && leg.metered && metered(leg.key) && !w.paidStarted
    requires GateOpen(w.evidence, p)
    ensures var w' := RecordAll(Evaluate(w, leg), leg.key, before);
      Inv(w', p, metered) && !w'.paidStarted && Explained(w'.log, p)
  {
    GateMeans(w.evidence, p);
    EvaluateInv(w, leg, p, metered);
    var e := Evaluate(w, leg);
    var w' := RecordAll(e, leg.key, before);
    RecordAllInv(e, leg.key, before, p, metered);
    RecordAllKeeps(e, leg.key, before);
    assert e.evidence == w.evidence;
    forall x | x in w'.log && x.Evaluated? && !x.leg.metered
      ensures Latest(w'.log, x.leg.key).Some? && Excused(Latest(w'.log, x.leg.key).value, p)
    {
      assert x in w.log;
      assert x.leg.key != leg.key;
      assert w'.evidence[x.leg.key] == w.evidence[x.leg.key];
    }
  }

  lemma TakeInv(w: Walk, t: Turn, p: Policy, metered: string -> bool)
    requires Inv(w, p, metered) && "" !in p.permitted && t.leg.metered == metered(t.leg.key)
    ensures Inv(Take(w, t, p), p, metered)
  {
    if !w.done && !t.skipped && !Suppressed(w, t.leg, p) && !t.outcome.Bypassed? {
      EvaluateInv(w, t.leg, p, metered);
      var e := Evaluate(w, t.leg);
      if t.leg.metered && !w.paidStarted { GateMeans(w.evidence, p); }
      match t.outcome
      case TurnedAway(reasons) => RecordAllInv(e, t.leg.key, reasons, p, metered);
      case Dispatched(before, after, _) =>
        if t.leg.metered && !w.paidStarted { GateExplains(w, t.leg, before, p, metered); }
        RecordAllInv(e, t.leg.key, before, p, metered);
        var w1 := RecordAll(e, t.leg.key, before);
        RecordAllKeeps(e, t.leg.key, before);
        SendInv(w1, t.leg, p, metered);
        SendKept(w1, t.leg);
        RecordAllInv(Send(w1, t.leg), t.leg.key, after, p, metered);
    }
  }

  lemma SendKept(w: Walk, leg: Leg)
    ensures forall e :: e in w.log ==> e in Send(w, leg).log
  {
  }

  /** A route that is not metered itself pays for its first metered request only if it has opted
      in, at least one non-metered leg was evaluated, and every one evaluated by then has a
      latest recorded reason that the route permits. */
  lemma {:induction false} PaidOnlyWhenExplained(turns: seq<Turn>, p: Policy, metered: string -> bool)
    requires "" !in p.permitted && forall i :: 0 <= i < |turns| ==> turns[i].leg.metered == metered(turns[i].leg.key)
    ensures FirstPaidExplained(TakeAll(turns, p, false).log, p)
    ensures Inv(TakeAll(turns, p, false), p, metered)
    decreases |turns|
  {
    if turns != [] {
      var n := |turns| - 1;
      PaidOnlyWhenExplained(turns[..n], p, metered);
      TakeInv(TakeAll(turns[..n], p, false), turns[n], p, metered);
    }
  }

  /** As long as some leg's latest reason is missing, no metered leg is sent. */
  lemma UnexplainedBlocks(w: Walk, t: Turn, p: Policy, metered: string -> bool, key: string)
    requires Inv(w, p, metered) && "" !in p.permitted && !w.paidStarted && Latest(w.log, key) == Some("")
    requires t.leg.metered
    ensures Take(w, t, p) == w
  {
    assert key in w.evidence && w.evidence[key] == "";
    GateMeans(w.evidence, p);
  }

  // ---------- exactly which requests are sent ----------

  function Reasons(key: string, reasons: seq<string>): seq<Event> {
    seq(|reasons|, i requires 0 <= i < |reasons| => Recorded(key, reasons[i]))
  }

  function Opening(leg: Leg): seq<Event> {
    if leg.metered then [Evaluated(leg)] else [Evaluated(leg), Recorded(leg.key, "")]
  }

  /** All a turn adds to the log once it is past the gate. */
  function TurnLog(t: Turn): seq<Event> {
    match t.outcome
    case Bypassed => []
    case TurnedAway(reasons) => Opening(t.leg) + Reasons(t.leg.key, reasons)
    case Dispatched(before, after, _) =>
      Opening(t.leg) + Reasons(t.leg.key, before) + ([Sent(t.leg)] + Reasons(t.leg.key, after))
  }

  /** The gate, told by the log: the route has opted in, some reason is on record, and the
      latest one for each key that has any is excused. */
  ghost predicate OpenByLog(log: seq<Event>, p: Policy) {
    && p.allowPaid && (exists e :: e in log && e.Recorded?)
    && forall e | e in log && e.Recorded? :: Latest(log, e.key).Some? && Excused(Latest(log, e.key).value, p)
  }

  lemma {:induction false} LatestIsRecorded(log: seq<Event>, key: string)
    ensures Latest(log, key).Some? <==> exists e :: e in log && e.Recorded? && e.key == key
    decreases |log|
  {
    if log != [] {
      LatestIsRecorded(log[..|log| - 1], key);
      assert log == log[..|log| - 1] + [log[|log| - 1]];
    }
  }

  lemma GateByLog(w: Walk, p: Policy)
    requires Faithful(w) && "" !in p.permitted
    ensures GateOpen(w.evidence, p) <==> OpenByLog(w.log, p)
  {
    GateMeans(w.evidence, p);
    forall key ensures key in w.evidence <==> exists e :: e in w.log && e.Recorded? && e.key == key {
      LatestIsRecorded(w.log, key);
    }
    if w.evidence != map[] {
      var key :| key in w.evidence;
      assert exists e :: e in w.log && e.Recorded? && e.key == key;
    }
    if OpenByLog(w.log, p) {
      forall key | key in w.evidence ensures Excused(w.evidence[key], p) {
        var e :| e in w.log && e.Recorded? && e.key == key;
        assert Latest(w.log, key) == Some(w.evidence[key]);
      }
    }
    if GateOpen(w.evidence, p) {
      forall e | e in w.log && e.Recorded?
        ensures Latest(w.log, e.key).Some? && Excused(Latest(w.log, e.key).value, p)
      {
        assert e.key in w.evidence;
      }
    }
  }

  lemma {:induction false} RecordAllLogs(w: Walk, key: string, reasons: seq<string>)
    ensures RecordAll(w, key, reasons).log == w.log + Reasons(key, reasons)
    ensures RecordAll(w, key, reasons).done == w.done && RecordAll(w, key, reasons).paidStarted == w.paidStarted
    decreases |reasons|
  {
    if reasons != [] {
      RecordAllLogs(w, key, reasons[..|reasons| - 1]);
      assert Reasons(key, reasons)
          == Reasons(key, reasons[..|reasons| - 1]) + [Recorded(key, reasons[|reasons| - 1])];
    }
  }

  /** A turn gets past the gate if it comes before the response and is not skipped, and its leg
      is free of charge, or paying has begun, or the log opens the gate. */
  ghost predicate Passes(w: Walk, t: Turn, p: Policy) {
    !w.done && !t.skipped && (!t.leg.metered || w.paidStarted || OpenByLog(w.log, p))
  }

  lemma EvaluateLogs(w: Walk, leg: Leg)
    ensures Evaluate(w, leg).log == w.log + Opening(leg)
    ensures Evaluate(w, leg).paidStarted == w.paidStarted && Evaluate(w, leg).done == w.done
  {
  }

  lemma Regroup(a: seq<Event>, b: seq<Event>, c: seq<Event>)
    ensures (a + b) + c == a + (b + c)
  {
  }

  lemma TurnedAwayLogs(w: Walk, leg: Leg, reasons: seq<string>)
    ensures var w' := RecordAll(Evaluate(w, leg), leg.key, reasons);
      && w'.log == w.log + (Opening(leg) + Reasons(leg.key, reasons))
      && w'.paidStarted == w.paidStarted && w'.done == w.done
  {
    EvaluateLogs(w, leg);
    RecordAllLogs(Evaluate(w, leg), leg.key, reasons);
    Regroup(w.log, Opening(leg), Reasons(leg.key, reasons));
  }

  lemma DispatchedLogs(w: Walk, leg: Leg, before: seq<string>, after: seq<string>)
    ensures var w' := RecordAll(Send(RecordAll(Evaluate(w, leg), leg.key, before), leg), leg.key, after);
      && w'.log == w.log + (Opening(leg) + Reasons(leg.key, before) + ([Sent(leg)] + Reasons(leg.key, after)))
      && w'.paidStarted == (w.paidStarted || leg.metered)
  {
    var first := RecordAll(Evaluate(w, leg), leg.key, before);
    var opening := Opening(leg) + Reasons(leg.key, before);
    TurnedAwayLogs(w, leg, before);
    RecordAllLogs(Send(first, leg), leg.key, after);
    Regroup(w.log + opening, [Sent(leg)], Reasons(leg.key, after));
    Regroup(w.log, opening, [Sent(leg)] + Reasons(leg.key, after));
  }

  /** Every turn that passes leaves its whole log, every other one nothing; paying has begun
      once a metered leg was sent; a final dispatch ends the walk. */
  lemma TakeMeans(w: Walk, t: Turn, p: Policy)
    requires Faithful(w) && "" !in p.permitted
    ensures var w' := Take(w, t, p);
      if Passes(w, t, p) then
        && w'.log == w.log + TurnLog(t)
        && w'.paidStarted == (w.paidStarted || (t.outcome.Dispatched? && t.leg.metered))
        && w'.done == (t.outcome.Dispatched? && t.outcome.final)
      else w' == w
  {
    GateByLog(w, p);
    if Passes(w, t, p) {
      match t.outcome
      case Bypassed =>
      case TurnedAway(reasons) => TurnedAwayLogs(w, t.leg, reasons);
      case Dispatched(before, after, _) => DispatchedLogs(w, t.leg, before, after);
    }
  }

  /** The log of a whole request, turn by turn. */
  ghost function Story(turns: seq<Turn>, p: Policy): seq<Event> {
    if turns == [] then [] else
      var init, t := turns[..|turns| - 1], turns[|turns| - 1];
      var log := Story(init, p);
      if Ended(init, p) || t.skipped || (t.leg.metered && NonePaid(log) && !OpenByLog(log, p)) then log
      else log + TurnLog(t)
  }

  /** A response was returned: some turn that passed was a final dispatch. */
  ghost predicate Ended(turns: seq<Turn>, p: Policy) {
    if turns == [] then false else
      var init, t := turns[..|turns| - 1], turns[|turns| - 1];
      Ended(init, p) ||
      (t.outcome.Dispatched? && t.outcome.final && !t.skipped &&
       (!t.leg.metered || !NonePaid(Story(init, p)) || OpenByLog(Story(init, p), p)))
  }

  /** The loop sends exactly what the story says: a leg that is free of charge always, a metered
      one when another was sent before or the gate is open, nothing after the response. */
  lemma {:induction false} SentExactlyWhen(turns: seq<Turn>, p: Policy, metered: string -> bool)
    requires "" !in p.permitted && forall i :: 0 <= i < |turns| ==> turns[i].leg.metered == metered(turns[i].leg.key)
    ensures TakeAll(turns, p, false).log == Story(turns, p)
    ensures TakeAll(turns, p, false).done == Ended(turns, p)
    decreases |turns|
  {
    if turns != [] {
      var init, t := turns[..|turns| - 1], turns[|turns| - 1];
      SentExactlyWhen(init, p, metered);
      PaidOnlyWhenExplained(init, p, metered);
      TakeMeans(TakeAll(init, p, false), t, p);
    }
  }

  // ---------- the loop as it runs ----------

  class AttemptLoop {
    var evidence: map<string, string>
    var paidStarted: bool
    ghost var log: seq<Event>

    ghost function View(done: bool): Walk
      reads this
    {
      Walk(evidence, paidStarted, done, log)
    }

    constructor (selectedMetered: bool)
      ensures View(false) == Start(selectedMetered)
    {
      evidence, paidStarted, log := map[], selectedMetered, [];
    }

    method RecordReasons(key: string, reasons: seq<string>)
      modifies this
      ensures View(false) == RecordAll(old(View(false)), key, reasons)
    {
      var i := 0;
      while i < |reasons|
        invariant 0 <= i <= |reasons|
        invariant View(false) == RecordAll(old(View(false)), key, reasons[..i])
      {
        assert reasons[..i + 1][..i] == reasons[..i];
        evidence := evidence[key := reasons[i]];
        log := log + [Recorded(key, reasons[i])];
        i := i + 1;
      }
      assert reasons[..i] == reasons;
    }

    /** One pass of the loop body; true when a response was returned. */
    method Attempt(t: Turn, p: Policy) returns (done: bool)
      modifies this
      ensures View(done) == Take(old(View(false)), t, p)
    {
      done := false;
      if t.skipped {
        return;
      }
      if !paidStarted && t.leg.metered {
        var quota := CheckAllowed(evidence, p);
        var load := CheckLoadAllowed(evidence, p);
        if !quota && !load {
          return;
        }
      }
      if t.outcome.Bypassed? {
        return;
      }
      log := log + [Evaluated(t.leg)];
      if !t.leg.metered {
        evidence := evidence[t.leg.key := ""];
        log := log + [Recorded(t.leg.key, "")];
      }
      match t.outcome
      case TurnedAway(reasons) => RecordReasons(t.leg.key, reasons);
      case Dispatched(before, after, final) =>
        RecordReasons(t.leg.key, before);
        if t.leg.metered {
          paidStarted := true;
        }
        log := log + [Sent(t.leg)];
        RecordReasons(t.leg.key, after);
        done := final;
    }

    /** The whole loop over the attempts, until one returns a response. */
    method Attempts(turns: seq<Turn>, p: Policy) returns (done: bool)
      requires View(false) == Start(paidStarted)
      modifies this
      ensures View(done) == TakeAll(turns, p, old(paidStarted))
    {
      ghost var selectedMetered := paidStarted;
      done := false;
      var i := 0;
      while i < |turns| && !done
        invariant 0 <= i <= |turns|
        invariant View(done) == TakeAll(turns[..i], p, selectedMetered)
      {
        assert turns[..i + 1][..i] == turns[..i];
        done := Attempt(turns[i], p);
        i := i + 1;
      }
      if done {
        DoneStays(turns, i, p, selectedMetered);
      } else {
        assert turns[..i] == turns;
      }
    }
  }

  lemma {:induction false} DoneStays(turns: seq<Turn>, i: nat, p: Policy, selectedMetered: bool)
    requires i <= |turns| && TakeAll(turns[..i], p, selectedMetered).done
    ensures TakeAll(turns, p, selectedMetered) == TakeAll(turns[..i], p, selectedMetered)
    decreases |turns|
  {
    if i == |turns| {
      assert turns[..i] == turns;
    } else {
      var init := turns[..|turns| - 1];
      assert init[..i] == turns[..i];
      DoneStays(init, i, p, selectedMetered);
    }
  }
}
