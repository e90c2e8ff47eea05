/** When server errors of a route confirm an outage: three counted reports within a minute,
    with no success between them. Times are nanoseconds; the clock may step back. */
module OutageEvidence {
  import opened Wrappers

  const MINUTE := 60 * 1_000_000_000
  const CONFIRMATIONS := 3

  datatype Entry = Entry(started: int, lastRequest: string, count: nat)

  /** A status of 0 and an empty request ask without reporting anything. */
  datatype Report = Report(key: string, request: string, status: int, now: int)

  predicate Success(r: Report) {
    200 <= r.status < 400
  }

  /** The entry a report starts from: a missing one, one over a minute old, or one from the
      future is replaced. */
  function Renewed(outages: map<string, Entry>, key: string, now: int): Entry {
    if key in outages && 0 <= now - outages[key].started <= MINUTE then outages[key] else Entry(now, "", 0)
  }

  predicate CountsFor(e: Entry, r: Report) {
    r.status >= 500 && r.request != "" && r.request != e.lastRequest
  }

  function Counted(e: Entry, r: Report): Entry {
    if CountsFor(e, r) then e.(count := e.count + 1, lastRequest := r.request) else e
  }

  function Updated(outages: map<string, Entry>, r: Report): map<string, Entry> {
    if Success(r) then outages - {r.key} else outages[r.key := Counted(Renewed(outages, r.key, r.now), r)]
  }

  predicate Confirms(outages: map<string, Entry>, r: Report) {
    !Success(r) && Counted(Renewed(outages, r.key, r.now), r).count >= CONFIRMATIONS
  }

  class Outages {
    var outages: map<string, Entry>

    constructor ()
      ensures outages == map[]
    {
      outages := map[];
    }

    method Update(r: Report) returns (confirmed: bool)
      modifies this
      ensures outages == Updated(old(outages), r) && confirmed == Confirms(old(outages), r)
    {
      var state := if r.key in outages then outages[r.key] else Entry(r.now - MINUTE - 1, "", 0);
      if r.now - state.started > MINUTE || r.now < state.started {
        state := Entry(r.now, "", 0);
      }
      if 200 <= r.status < 400 {
        outages := outages - {r.key};
        return false;
      }
      if r.status >= 500 && r.request != "" && r.request != state.lastRequest {
        state := state.(count := state.count + 1, lastRequest := r.request);
      }
      outages := outages[r.key := state];
      return state.count >= CONFIRMATIONS;
    }
  }

  // ---------- over a run ----------

  function After(run: seq<Report>): map<string, Entry> {
    if run == [] then map[] else Updated(After(run[..|run| - 1]), run[|run| - 1])
  }

  /** The reports behind a key's count, in order. */
  function Behind(run: seq<Report>, key: string): seq<nat> {
    if run == [] then [] else
      var n := |run| - 1;
      var before := After(run[..n]);
      var r := run[n];
      if r.key != key then Behind(run[..n], key)
      else if Success(r) then []
      else
        var kept := if key in before && 0 <= r.now - before[key].started <= MINUTE then Behind(run[..n], key) else [];
        if CountsFor(Renewed(before, key, r.now), r) then kept + [n] else kept
  }

  /** A report that counted towards the entry. */
  predicate Behaves(run: seq<Report>, key: string, e: Entry, i: nat) {
    && i < |run| && run[i].key == key && run[i].status >= 500 && run[i].request != ""
    && 0 <= run[i].now - e.started <= MINUTE
    && forall m :: i < m < |run| && run[m].key == key ==> !Success(run[m])
  }

  /** An entry rests on these reports. */
  predicate Backed(run: seq<Report>, key: string, e: Entry, b: seq<nat>) {
    && e.count == |b|
    && (forall k :: 0 <= k < |b| ==> Behaves(run, key, e, b[k]))
    && (forall k :: 0 < k < |b| ==> Apart(run, b[k - 1], b[k]))
    && e.lastRequest == (if b == [] then "" else run[b[|b| - 1]].request)
  }

  predicate Apart(run: seq<Report>, i: nat, j: nat) {
    i < j < |run| && run[i].request != run[j].request
  }

  predicate Inv(run: seq<Report>, key: string) {
    if key in After(run) then Backed(run, key, After(run)[key], Behind(run, key)) else Behind(run, key) == []
  }

  lemma BehavesStill(run: seq<Report>, key: string, e: Entry, i: nat)
    requires run != [] && Behaves(run[..|run| - 1], key, e, i)
    requires run[|run| - 1].key == key ==> !Success(run[|run| - 1])
    ensures Behaves(run, key, e, i)
  {
    forall m | i < m < |run| && run[m].key == key ensures !Success(run[m]) {
      if m < |run| - 1 { assert run[..|run| - 1][m] == run[m]; }
    }
  }

  lemma BackedStill(run: seq<Report>, key: string, e: Entry, b: seq<nat>)
    requires run != [] && Backed(run[..|run| - 1], key, e, b)
    requires run[|run| - 1].key == key ==> !Success(run[|run| - 1])
    ensures Backed(run, key, e, b)
  {
    forall k | 0 <= k < |b| ensures Behaves(run, key, e, b[k]) {
      BehavesStill(run, key, e, b[k]);
    }
    forall k | 0 < k < |b| ensures Apart(run, b[k - 1], b[k]) {
      assert Apart(run[..|run| - 1], b[k - 1], b[k]);
    }
  }

  lemma BackedMore(run: seq<Report>, key: string, e: Entry, b: seq<nat>)
    requires run != [] && Backed(run, key, e, b) && forall k :: 0 <= k < |b| ==> b[k] < |run| - 1
    requires run[|run| - 1].key == key && !Success(run[|run| - 1]) && 0 <= run[|run| - 1].now - e.started <= MINUTE
    ensures var r := run[|run| - 1];
      Backed(run, key, Counted(e, r), if CountsFor(e, r) then b + [|run| - 1] else b)
  {
    var r := run[|run| - 1];
    if CountsFor(e, r) {
      var b' := b + [|run| - 1];
      forall k | 0 <= k < |b'| ensures Behaves(run, key, Counted(e, r), b'[k]) {
        if k < |b| { assert Behaves(run, key, e, b[k]); }
      }
    } else {
      assert Counted(e, r) == e;
    }
  }

  lemma SameKeyKeeps(run: seq<Report>, key: string)
    requires run != [] && Inv(run[..|run| - 1], key) && run[|run| - 1].key == key && !Success(run[|run| - 1])
    ensures Inv(run, key)
  {
    var n := |run| - 1;
    var r, before := run[n], After(run[..n]);
    var e := Renewed(before, key, r.now);
    var kept := if key in before && 0 <= r.now - before[key].started <= MINUTE then Behind(run[..n], key) else [];
    if key in before && 0 <= r.now - before[key].started <= MINUTE {
      Below(run[..n], key, e, kept);
      BackedStill(run, key, e, kept);
    }
    BackedMore(run, key, e, kept);
    KeepsBy(run, key, Counted(e, r), if CountsFor(e, r) then kept + [n] else kept);
  }

  lemma Below(run: seq<Report>, key: string, e: Entry, b: seq<nat>)
    requires Backed(run, key, e, b)
    ensures forall k :: 0 <= k < |b| ==> b[k] < |run|
  {
    forall k | 0 <= k < |b| ensures b[k] < |run| {
      assert Behaves(run, key, e, b[k]);
    }
  }

  lemma KeepsBy(run: seq<Report>, key: string, e: Entry, b: seq<nat>)
    requires Backed(run, key, e, b) && key in After(run) && After(run)[key] == e && Behind(run, key) == b
    ensures Inv(run, key)
  {
  }

  lemma {:induction false} RunKeeps(run: seq<Report>, key: string)
    ensures Inv(run, key)
    decreases |run|
  {
    if run != [] {
      var n := |run| - 1;
      RunKeeps(run[..n], key);
      if run[n].key != key {
        if key in After(run[..n]) { BackedStill(run, key, After(run)[key], Behind(run, key)); }
      } else if !Success(run[n]) {
        SameKeyKeeps(run, key);
      }
    }
  }

  /** A confirmed outage rests on three reports of server errors for the route, in order, the
      later two each from another request than the one before, all in one minute that is not
      over yet, and no success of the route since. */
  lemma ConfirmedByThree(run: seq<Report>, r: Report)
    requires Confirms(After(run), r)
    ensures exists start :: 0 <= r.now - start <= MINUTE && ThreeWithin(run + [r], r.key, start)
  {
    var all := run + [r];
    assert all[..|run|] == run;
    RunKeeps(all, r.key);
    var b := Behind(all, r.key);
    var e := After(all)[r.key];
    assert Behaves(all, r.key, e, b[0]) && Behaves(all, r.key, e, b[1]) && Behaves(all, r.key, e, b[2]);
    assert Apart(all, b[1 - 1], b[1]) && Apart(all, b[2 - 1], b[2]);
    assert ServerError(all, b[0], r.key, e.started) && ServerError(all, b[1], r.key, e.started)
        && ServerError(all, b[2], r.key, e.started);
    assert ThreeWithin(all, r.key, e.started);
  }

  predicate ServerError(all: seq<Report>, i: nat, key: string, start: int) {
    && i < |all| && all[i].key == key && all[i].status >= 500 && all[i].request != ""
    && 0 <= all[i].now - start <= MINUTE
    && forall m :: i < m < |all| && all[m].key == key ==> !Success(all[m])
  }

  ghost predicate ThreeWithin(all: seq<Report>, key: string, start: int) {
    exists i, j, k :: 0 <= i < j < k < |all|
      && ServerError(all, i, key, start) && ServerError(all, j, key, start) && ServerError(all, k, key, start)
      && all[i].request != all[j].request && all[j].request != all[k].request
  }

  // ---------- exactly when an outage is confirmed ----------

  /** The report that began the minute under way: the first for the route since its last success
      (a status from 200 to 399), or since the minute before was over. */
  function Anchor(run: seq<Report>, key: string): Option<nat> {
    if run == [] then None else
      var n := |run| - 1;
      var a := Anchor(run[..n], key);
      if run[n].key != key then a
      else if 200 <= run[n].status <= 399 then None
      else if a.Some? && a.value < n && 0 <= run[n].now - run[a.value].now <= 60_000_000_000 then a
      else Some(n)
  }

  /** The requests that reported server errors of the route from a report on, in order. */
  function Errors(run: seq<Report>, key: string, from: nat): seq<string> {
    if |run| <= from then [] else
      var r := run[|run| - 1];
      Errors(run[..|run| - 1], key, from) + if r.key == key && Error(r) then [r.request] else []
  }

  /** How often a request follows another one, the first included. */
  function Changes(requests: seq<string>): nat {
    if requests == [] then 0 else
      var init := requests[..|requests| - 1];
      Changes(init) + if init == [] || init[|init| - 1] != requests[|requests| - 1] then 1 else 0
  }

  /** An entry has counted the changes of these requests. */
  predicate Tallies(e: Entry, requests: seq<string>) {
    && e.count == Changes(requests)
    && e.lastRequest == (if requests == [] then "" else requests[|requests| - 1])
    && forall i :: 0 <= i < |requests| ==> requests[i] != ""
  }

  predicate Counts(run: seq<Report>, key: string) {
    match Anchor(run, key)
    case None => key !in After(run)
    case Some(a) =>
      a < |run| && key in After(run) && After(run)[key].started == run[a].now
          && Tallies(After(run)[key], Errors(run, key, a))
  }

  predicate Error(r: Report) {
    r.status >= 500 && r.request != ""
  }

  lemma TallyMore(e: Entry, requests: seq<string>, r: Report)
    requires Tallies(e, requests)
    ensures Tallies(Counted(e, r), if Error(r) then requests + [r.request] else requests)
  {
    assert (requests + [r.request])[..|requests|] == requests;
  }

  lemma {:induction false} RunCounts(run: seq<Report>, key: string)
    ensures Counts(run, key)
    decreases |run|
  {
    if run != [] {
      RunCounts(run[..|run| - 1], key);
      ReportCounts(run, key);
    }
  }

  lemma ReportCounts(run: seq<Report>, key: string)
    requires run != [] && Counts(run[..|run| - 1], key)
    ensures Counts(run, key)
  {
    var n := |run| - 1;
    var r, a := run[n], Anchor(run[..n], key);
    if r.key != key {
      if a.Some? { OtherReport(run, key, a.value); }
    } else if !Success(r) {
      var e := Renewed(After(run[..n]), key, r.now);
      assert After(run)[key] == Counted(e, r);
      if Anchor(run, key) == a {
        SameMinute(run, key, a.value, e);
      } else {
        NewMinute(run, key, e);
      }
    }
  }

  lemma OtherReport(run: seq<Report>, key: string, a: nat)
    requires run != [] && a < |run| - 1 && run[|run| - 1].key != key
    ensures Errors(run, key, a) == Errors(run[..|run| - 1], key, a)
  {
    var before := Errors(run[..|run| - 1], key, a);
    assert before + [] == before;
  }

  lemma SameMinute(run: seq<Report>, key: string, a: nat, e: Entry)
    requires run != [] && a < |run| - 1 && run[|run| - 1].key == key && Tallies(e, Errors(run[..|run| - 1], key, a))
    ensures Tallies(Counted(e, run[|run| - 1]), Errors(run, key, a))
  {
    var before := Errors(run[..|run| - 1], key, a);
    TallyMore(e, before, run[|run| - 1]);
    assert before + [] == before;
  }

  lemma NewMinute(run: seq<Report>, key: string, e: Entry)
    requires run != [] && run[|run| - 1].key == key && e.count == 0 && e.lastRequest == ""
    ensures Tallies(Counted(e, run[|run| - 1]), Errors(run, key, |run| - 1))
  {
    assert Errors(run[..|run| - 1], key, |run| - 1) == [];
    TallyMore(e, [], run[|run| - 1]);
  }

  /** A report confirms an outage exactly when it is not a success and, since the report that
      began the minute under way, the requests reporting server errors of the route have changed
      at least three times, the first one included. */
  lemma ConfirmsExactlyWhen(run: seq<Report>, r: Report)
    ensures var all := run + [r];
      Confirms(After(run), r) <==>
        !(200 <= r.status <= 399) && Anchor(all, r.key).Some?
            && Changes(Errors(all, r.key, Anchor(all, r.key).value)) >= 3
  {
    var all := run + [r];
    assert all[..|run|] == run;
    RunCounts(all, r.key);
  }

  /** Only neighbouring reports are compared: two requests that alternate change three times. */
  lemma TwoRequestsConfirm(key: string, a: string, b: string)
    requires a != b && a != "" && b != ""
    ensures Confirms(After([Report(key, a, 503, 0), Report(key, b, 503, 1)]), Report(key, a, 503, 2))
  {
    var r0, r1 := Report(key, a, 503, 0), Report(key, b, 503, 1);
    assert After([]) == map[];
    assert [r0][..0] == [];
    assert After([r0])[key] == Entry(0, a, 1);
    assert [r0, r1][..1] == [r0];
    assert After([r0, r1])[key] == Entry(0, b, 2);
  }
}
