/** The linear check of a request's tool-call history: every call is answered once, later,
    and nothing else is answered. */
module ToolHistory {
  import opened Wrappers

  const MAX_ID := 256

  /** A call; `sound` stands for the checks on its type, function name and JSON arguments. */
  datatype ToolCall = ToolCall(id: string, sound: bool)

  datatype Role = System | Developer | User | Assistant | Tool | Unknown

  /** An absent tool_call_id is empty; `text` stands for content that is text. */
  datatype Message = Message(role: Role, text: bool, calls: seq<ToolCall>, answers: string)

  // ---------- calls and results in order ----------

  datatype Event = Call(id: string) | Result(id: string)

  function CallsOf(calls: seq<ToolCall>): seq<Event> {
    seq(|calls|, i requires 0 <= i < |calls| => Call(calls[i].id))
  }

  function EventsOf(m: Message): seq<Event> {
    CallsOf(m.calls) + if m.role == Tool then [Result(m.answers)] else []
  }

  function Events(ms: seq<Message>): seq<Event> {
    if ms == [] then [] else Events(ms[..|ms| - 1]) + EventsOf(ms[|ms| - 1])
  }

  /** The parts of a message's form that do not depend on the rest of the history. */
  predicate WellFormed(m: Message) {
    && m.role != Unknown && m.text
    && (m.calls != [] ==> m.role == Assistant)
    && (m.answers != "" ==> m.role == Tool)
    && forall i :: 0 <= i < |m.calls| ==> m.calls[i].sound && |m.calls[i].id| <= MAX_ID
  }

  // ---------- what a history must be ----------

  predicate CallsDiffer(es: seq<Event>) {
    forall i, j :: 0 <= i < j < |es| && es[i].Call? && es[j].Call? ==> es[i].id != es[j].id
  }

  predicate ResultsDiffer(es: seq<Event>) {
    forall i, j :: 0 <= i < j < |es| && es[i].Result? && es[j].Result? ==> es[i].id != es[j].id
  }

  predicate CallsNamed(es: seq<Event>) {
    forall i :: 0 <= i < |es| && es[i].Call? ==> es[i].id != ""
  }

  predicate CalledBefore(es: seq<Event>, r: nat)
    requires r < |es|
  {
    exists c :: 0 <= c < r && es[c] == Call(es[r].id)
  }

  predicate AnsweredAfter(es: seq<Event>, c: nat)
    requires c < |es|
  {
    exists r :: c < r < |es| && es[r] == Result(es[c].id)
  }

  /** So far nothing is wrong: ids are unique and not empty, and each result answers an earlier
      call that no other result answers. */
  predicate Sound(es: seq<Event>) {
    && CallsDiffer(es) && CallsNamed(es) && ResultsDiffer(es)
    && forall r :: 0 <= r < |es| && es[r].Result? ==> CalledBefore(es, r)
  }

  /** Calls and results are in bijection, each call before its result. */
  predicate Bijective(es: seq<Event>) {
    Sound(es) && forall c :: 0 <= c < |es| && es[c].Call? ==> AnsweredAfter(es, c)
  }

  /** A history that a request may have. */
  predicate Acceptable(ms: seq<Message>) {
    (forall i :: 0 <= i < |ms| ==> WellFormed(ms[i])) && Bijective(Events(ms))
  }

  // ---------- the linear pass ----------

  datatype Pass = Pass(pending: set<string>, seen: set<string>)

  function Next(p: Pass, e: Event): Option<Pass> {
    match e
    case Call(id) => if id == "" || id in p.seen then None else Some(Pass(p.pending + {id}, p.seen + {id}))
    case Result(id) => if id !in p.pending then None else Some(p.(pending := p.pending - {id}))
  }

  function Run(es: seq<Event>): Option<Pass> {
    if es == [] then Some(Pass({}, {})) else
      match Run(es[..|es| - 1])
      case None => None
      case Some(p) => Next(p, es[|es| - 1])
  }

  ghost predicate Tracks(p: Pass, es: seq<Event>) {
    && (forall id :: id in p.seen <==> Call(id) in es)
    && (forall id :: id in p.pending <==> Call(id) in es && Result(id) !in es)
  }

  lemma SoundPrefix(es: seq<Event>)
    requires es != [] && Sound(es)
    ensures Sound(es[..|es| - 1])
  {
    var init := es[..|es| - 1];
    forall r | 0 <= r < |init| && init[r].Result? ensures CalledBefore(init, r) {
      assert CalledBefore(es, r);
      var c :| 0 <= c < r && es[c] == Call(es[r].id);
      assert init[c] == Call(init[r].id);
    }
  }

  lemma StillCalledBefore(init: seq<Event>, e: Event)
    requires forall r :: 0 <= r < |init| && init[r].Result? ==> CalledBefore(init, r)
    ensures forall r :: 0 <= r < |init| && init[r].Result? ==> CalledBefore(init + [e], r)
  {
    forall r | 0 <= r < |init| && init[r].Result? ensures CalledBefore(init + [e], r) {
      var c :| 0 <= c < r && init[c] == Call(init[r].id);
      assert (init + [e])[c] == Call((init + [e])[r].id);
    }
  }

  lemma ResultsWereCalled(es: seq<Event>, id: string)
    requires Sound(es)
    ensures Result(id) in es ==> Call(id) in es
  {
    if Result(id) in es {
      var r :| 0 <= r < |es| && es[r] == Result(id);
      assert CalledBefore(es, r);
      var c :| 0 <= c < r && es[c] == Call(es[r].id);
      assert es[c] in es;
    }
  }

  lemma CallStep(init: seq<Event>, id: string, p: Pass)
    requires Sound(init) && Tracks(p, init)
    ensures Sound(init + [Call(id)]) <==> Next(p, Call(id)).Some?
    ensures Next(p, Call(id)).Some? ==> Tracks(Next(p, Call(id)).value, init + [Call(id)])
  {
    var es := init + [Call(id)];
    assert es[|init|] == Call(id);
    ResultsWereCalled(init, id);
    if id in p.seen {
      var c :| 0 <= c < |init| && init[c] == Call(id);
      assert es[c].id == es[|init|].id;
    } else if id != "" {
      StillCalledBefore(init, Call(id));
    }
  }

  lemma ResultStep(init: seq<Event>, id: string, p: Pass)
    requires Sound(init) && Tracks(p, init)
    ensures Sound(init + [Result(id)]) <==> Next(p, Result(id)).Some?
    ensures Next(p, Result(id)).Some? ==> Tracks(Next(p, Result(id)).value, init + [Result(id)])
  {
    var es := init + [Result(id)];
    var n := |init|;
    assert es[n] == Result(id);
    if Call(id) !in init {
      assert !CalledBefore(es, n);
    } else if Result(id) in init {
      var r :| 0 <= r < n && init[r] == Result(id);
      assert es[r].id == es[n].id;
    } else {
      StillCalledBefore(init, Result(id));
      var c :| 0 <= c < n && init[c] == Call(id);
      assert es[c] == Call(es[n].id);
      assert CalledBefore(es, n);
    }
  }

  /** One more event is fine exactly when the pass takes it. */
  lemma SoundStep(init: seq<Event>, e: Event, p: Pass)
    requires Sound(init) && Tracks(p, init)
    ensures Sound(init + [e]) <==> Next(p, e).Some?
    ensures Next(p, e).Some? ==> Tracks(Next(p, e).value, init + [e])
  {
    if e.Call? { CallStep(init, e.id, p); } else { ResultStep(init, e.id, p); }
  }

  lemma {:induction false} RunIsSound(es: seq<Event>)
    ensures Run(es).Some? <==> Sound(es)
    ensures Run(es).Some? ==> Tracks(Run(es).value, es)
    decreases |es|
  {
    if es != [] {
      var init, e := es[..|es| - 1], es[|es| - 1];
      assert es == init + [e];
      RunIsSound(init);
      if Run(init).Some? {
        SoundStep(init, e, Run(init).value);
      } else if Sound(es) {
        SoundPrefix(es);
      }
    }
  }

  /** The pass ends with nothing pending exactly for histories in which calls and results are
      in bijection. */
  lemma AcceptedIffBijective(es: seq<Event>)
    ensures (Run(es).Some? && Run(es).value.pending == {}) <==> Bijective(es)
  {
    RunIsSound(es);
    if Sound(es) {
      var p := Run(es).value;
      if p.pending == {} {
        forall c | 0 <= c < |es| && es[c].Call? ensures AnsweredAfter(es, c) {
          assert es[c] in es && es[c].id !in p.pending;
          var r :| 0 <= r < |es| && es[r] == Result(es[c].id);
          assert CalledBefore(es, r);
        }
      }
      if p.pending != {} {
        var id :| id in p.pending;
        var c :| 0 <= c < |es| && es[c] == Call(id);
        assert !AnsweredAfter(es, c);
      }
    }
  }

  lemma {:induction false} RunPrefix(a: seq<Event>, b: seq<Event>)
    requires Run(a).None?
    ensures Run(a + b).None?
    decreases |b|
  {
    if b == [] {
      assert a + b == a;
    } else {
      assert (a + b)[..|a + b| - 1] == a + b[..|b| - 1];
      RunPrefix(a, b[..|b| - 1]);
    }
  }

  lemma RunSnoc(es: seq<Event>, e: Event)
    ensures Run(es + [e]) == match Run(es) case None => None case Some(p) => Next(p, e)
  {
    assert (es + [e])[..|es|] == es;
  }

  // ---------- the check as it runs ----------

  class History {
    var pending: set<string>
    var seen: set<string>

    ghost function View(): Pass
      reads this
    {
      Pass(pending, seen)
    }

    constructor ()
      ensures Run([]) == Some(View())
    {
      pending, seen := {}, {};
    }

    /** The calls of one message; `before` are the events already passed. */
    method AddCalls(calls: seq<ToolCall>, ghost before: seq<Event>) returns (ok: bool)
      requires Run(before) == Some(View())
      modifies this
      ensures ok ==> Run(before + CallsOf(calls)) == Some(View())
      ensures ok <==> Run(before + CallsOf(calls)).Some? && forall i :: 0 <= i < |calls| ==>
          calls[i].sound && |calls[i].id| <= MAX_ID
    {
      assert before + CallsOf(calls[..0]) == before;
      var i := 0;
      while i < |calls|
        invariant 0 <= i <= |calls|
        invariant Run(before + CallsOf(calls[..i])) == Some(View())
        invariant forall k :: 0 <= k < i ==> calls[k].sound && |calls[k].id| <= MAX_ID
      {
        NextCall(before, calls, i);
        if !calls[i].sound || calls[i].id == "" || |calls[i].id| > MAX_ID || calls[i].id in seen {
          return false;
        }
        pending, seen := pending + {calls[i].id}, seen + {calls[i].id};
        i := i + 1;
      }
      assert calls[..i] == calls;
      return true;
    }

    /** One message after another; false at the first that is refused. */
    method Add(m: Message, ghost before: seq<Event>) returns (ok: bool)
      requires Run(before) == Some(View())
      modifies this
      ensures ok ==> Run(before + EventsOf(m)) == Some(View())
      ensures ok <==> WellFormed(m) && Run(before + EventsOf(m)).Some?
    {
      if m.role == Unknown || !m.text || (|m.calls| > 0 && m.role != Assistant) {
        return false;
      }
      ghost var called := before + CallsOf(m.calls);
      var sound := AddCalls(m.calls, before);
      if !sound {
        CutRun(before, m);
        return false;
      }
      if m.role == Tool {
        RunSnoc(called, Result(m.answers));
        assert before + EventsOf(m) == called + [Result(m.answers)];
        if m.answers !in pending {
          return false;
        }
        pending := pending - {m.answers};
      } else {
        assert before + EventsOf(m) == called;
        if m.answers != "" {
          return false;
        }
      }
      return true;
    }
  }

  lemma NextCall(before: seq<Event>, calls: seq<ToolCall>, i: nat)
    requires i < |calls|
    ensures var p := Run(before + CallsOf(calls[..i]));
      Run(before + CallsOf(calls[..i + 1])) == (match p case None => None case Some(q) => Next(q, Call(calls[i].id)))
    ensures Run(before + CallsOf(calls[..i + 1])).None? ==> Run(before + CallsOf(calls)).None?
  {
    var done, more := before + CallsOf(calls[..i]), before + CallsOf(calls[..i + 1]);
    assert more == done + [Call(calls[i].id)];
    RunSnoc(done, Call(calls[i].id));
    if Run(more).None? {
      RunPrefix(more, CallsOf(calls[i + 1..]));
      assert more + CallsOf(calls[i + 1..]) == before + CallsOf(calls);
    }
  }

  lemma CutRun(before: seq<Event>, m: Message)
    ensures Run(before + CallsOf(m.calls)).None? ==> Run(before + EventsOf(m)).None?
  {
    var last := if m.role == Tool then [Result(m.answers)] else [];
    assert before + EventsOf(m) == before + CallsOf(m.calls) + last;
    if Run(before + CallsOf(m.calls)).None? { RunPrefix(before + CallsOf(m.calls), last); }
  }

  lemma {:induction false} EventsSplit(ms: seq<Message>, i: nat)
    requires i <= |ms|
    ensures exists rest :: Events(ms) == Events(ms[..i]) + rest
    decreases |ms|
  {
    if i == |ms| {
      assert ms[..i] == ms && Events(ms) == Events(ms[..i]) + [];
    } else {
      var init := ms[..|ms| - 1];
      assert init[..i] == ms[..i];
      EventsSplit(init, i);
      var rest :| Events(init) == Events(init[..i]) + rest;
      assert Events(ms) == Events(ms[..i]) + (rest + EventsOf(ms[|ms| - 1]));
    }
  }

  /** A history passes exactly when every message is well formed and its calls and results are
      in bijection: ids unique and not empty, each call before the one result that answers it. */
  method Validate(ms: seq<Message>) returns (ok: bool)
    ensures ok == Acceptable(ms)
  {
    var h := new History();
    var i := 0;
    while i < |ms|
      invariant 0 <= i <= |ms|
      invariant forall k :: 0 <= k < i ==> WellFormed(ms[k])
      invariant Run(Events(ms[..i])) == Some(h.View())
    {
      assert ms[..i + 1][..i] == ms[..i];
      ok := h.Add(ms[i], Events(ms[..i]));
      if !ok {
        RefusedAt(ms, i);
        return false;
      }
      i := i + 1;
    }
    assert ms[..i] == ms;
    AcceptedIffBijective(Events(ms));
    return h.pending == {};
  }

  lemma RefusedAt(ms: seq<Message>, i: nat)
    requires i < |ms|
    ensures Run(Events(ms[..i]) + EventsOf(ms[i])).None? ==> !Bijective(Events(ms))
  {
    assert ms[..i + 1][..i] == ms[..i];
    EventsSplit(ms, i + 1);
    var rest :| Events(ms) == Events(ms[..i + 1]) + rest;
    if Run(Events(ms[..i + 1])).None? {
      RunPrefix(Events(ms[..i + 1]), rest);
      AcceptedIffBijective(Events(ms));
    }
  }
}
