/** Reassembling a private upstream's tool-call fragments: what is accumulated, what is sent
    on, and how fragments without an id find their call. Strings are byte strings. */
module DevinStream {
  import opened Wrappers

  const MAX_FRAME := 0x20_0000
  const MAX_ID := 256
  const MAX_CALLS := 256

  /** A decoded tool fragment; `refused` stands for one that does not parse or uses a field
      or a kind of call that is not supported. */
  datatype Fragment = Fragment(id: string, name: string, arguments: string, refused: bool)

  /** A decoded frame; `completion` is the output token count, known only when both counts are
      present and plausible. */
  datatype Frame = Frame(content: string, reasoning: string, finish: Option<nat>, completion: Option<nat>,
      fragments: seq<Fragment>)

  datatype Call = Call(id: string, name: string, arguments: string)

  datatype State = State(content: string, reasoning: string, calls: seq<Call>, byID: map<string, nat>,
                         activeID: string, finishCode: Option<nat>, completion: Option<nat>)

  const EMPTY := State("", "", [], map[], "", None, None)

  /** What is sent on for one fragment: a call's id and name go with its first piece only. */
  datatype CallDelta = CallDelta(index: nat, first: Option<(string, string)>, arguments: string)

  datatype Delta = Delta(content: string, reasoning: string, calls: seq<CallDelta>)

  /** What the surroundings decide: the tools offered, and JSON validity. */
  datatype Setting = Setting(allowed: set<string>, valid: string -> bool)

  // ---------- one fragment ----------

  predicate Ambiguous(s: State, cfg: Setting) {
    exists i :: 0 <= i < |s.calls| && s.calls[i].id != s.activeID && !cfg.valid(s.calls[i].arguments)
  }

  /** The call a fragment belongs to: the one it names, or else the one named last, if no other
      call is still incomplete. */
  function Target(s: State, f: Fragment, cfg: Setting): Option<string> {
    if f.refused then None
    else if f.id != "" then Some(f.id)
    else if s.activeID == "" || Ambiguous(s, cfg) then None
    else Some(s.activeID)
  }

  predicate MayOpen(s: State, id: string, name: string, cfg: Setting) {
    name in cfg.allowed && |id| <= MAX_ID && |s.calls| < MAX_CALLS
  }

  function Opened(s: State, id: string, name: string): State {
    if id in s.byID then s else s.(byID := s.byID[id := |s.calls|], calls := s.calls + [Call(id, name, "")])
  }

  predicate Consistent(s: State) {
    forall id :: id in s.byID ==> s.byID[id] < |s.calls|
  }

  function Append(s: State, index: nat, arguments: string): State
    requires index < |s.calls|
  {
    s.(calls := s.calls[index := s.calls[index].(arguments := s.calls[index].arguments + arguments)])
  }

  /** The state after a fragment, and what to send on; None is a refusal of the whole stream. */
  function Take(s: State, f: Fragment, cfg: Setting): (State, Option<CallDelta>)
    requires Consistent(s)
  {
    match Target(s, f, cfg)
    case None => (s, None)
    case Some(id) =>
      if id !in s.byID && !MayOpen(s, id, f.name, cfg) then (s, None)
      else if id in s.byID && f.name != "" && f.name != s.calls[s.byID[id]].name then (s, None)
      else
        var o := Opened(s, id, f.name).(activeID := id);
        var index := o.byID[id];
        if |o.calls[index].arguments| + |f.arguments| > MAX_FRAME then (o, None)
        else (Append(o, index, f.arguments),
              Some(CallDelta(index, if id in s.byID then None else Some((id, f.name)), f.arguments)))
  }

  // ---------- a frame, a stream ----------

  /** The fragments of a frame in order, stopping at a refusal. */
  function TakeAll(s: State, fs: seq<Fragment>, cfg: Setting): (r: (State, Option<seq<CallDelta>>))
    requires Inv(s)
    ensures Inv(r.0)
  {
    if fs == [] then (s, Some([])) else
      var (s1, ds) := TakeAll(s, fs[..|fs| - 1], cfg);
      if ds.None? then (s1, None)
      else
        TakeKeeps(s1, fs[|fs| - 1], cfg);
        var (s2, d) := Take(s1, fs[|fs| - 1], cfg);
        (s2, if d.Some? then Some(ds.value + [d.value]) else None)
  }

  function Noted(s: State, p: Frame): State {
    s.(content := s.content + p.content, reasoning := s.reasoning + p.reasoning,
       finishCode := if p.finish.Some? then p.finish else s.finishCode,
       completion := if p.completion.Some? then p.completion else s.completion)
  }

  function Consume(s: State, p: Frame, cfg: Setting): (r: (State, Option<Delta>))
    requires Inv(s)
    ensures Inv(r.0)
  {
    NotedKeeps(s, p);
    var (s', ds) := TakeAll(Noted(s, p), p.fragments, cfg);
    (s', if ds.Some? then Some(Delta(p.content, p.reasoning, ds.value)) else None)
  }

  /** The state and the deltas sent after frames that were all accepted. */
  function ConsumeAll(frames: seq<Frame>, cfg: Setting): (r: Option<(State, seq<Delta>)>)
    ensures r.Some? ==> Inv(r.value.0)
  {
    if frames == [] then Some((EMPTY, [])) else
      match ConsumeAll(frames[..|frames| - 1], cfg)
      case None => None
      case Some((s, ds)) =>
        var (s', d) := Consume(s, frames[|frames| - 1], cfg);
        if d.Some? then Some((s', ds + [d.value])) else None
  }

  // ---------- the invariant ----------

  /** The map is the inverse of the call list, and the limits hold. */
  predicate Inv(s: State) {
    && Consistent(s)
    && (forall id :: id in s.byID ==> s.calls[s.byID[id]].id == id)
    && (forall i :: 0 <= i < |s.calls| ==> Indexed(s, i))
    && (s.activeID != "" ==> s.activeID in s.byID)
    && (s.calls != [] ==> s.activeID != "")
    && |s.calls| <= MAX_CALLS
  }

  predicate Indexed(s: State, i: nat)
    requires i < |s.calls|
  {
    var c := s.calls[i];
    c.id in s.byID && s.byID[c.id] == i && c.id != "" && |c.id| <= MAX_ID && |c.arguments| <= MAX_FRAME
  }

  lemma NotedKeeps(s: State, p: Frame)
    requires Inv(s)
    ensures Inv(Noted(s, p))
  {
    var n := Noted(s, p);
    forall i | 0 <= i < |n.calls| ensures Indexed(n, i) {
      assert Indexed(s, i);
    }
  }

  lemma OpenedKeeps(s: State, id: string, name: string, cfg: Setting)
    requires Inv(s) && id != "" && (id !in s.byID ==> MayOpen(s, id, name, cfg))
    ensures Inv(Opened(s, id, name).(activeID := id))
  {
    var o := Opened(s, id, name).(activeID := id);
    forall i | 0 <= i < |o.calls| ensures Indexed(o, i) {
      if i < |s.calls| { assert Indexed(s, i); }
    }
  }

  lemma AppendKeeps(s: State, index: nat, arguments: string)
    requires Inv(s) && index < |s.calls| && |s.calls[index].arguments| + |arguments| <= MAX_FRAME
    ensures Inv(Append(s, index, arguments))
  {
    var a := Append(s, index, arguments);
    forall i | 0 <= i < |a.calls| ensures Indexed(a, i) {
      assert Indexed(s, i);
    }
  }

  lemma TakeKeeps(s: State, f: Fragment, cfg: Setting)
    requires Inv(s)
    ensures Inv(Take(s, f, cfg).0)
  {
    var target := Target(s, f, cfg);
    if target.Some? {
      var id := target.value;
      if !(id !in s.byID && !MayOpen(s, id, f.name, cfg))
          && !(id in s.byID && f.name != "" && f.name != s.calls[s.byID[id]].name) {
        OpenedKeeps(s, id, f.name, cfg);
        var o := Opened(s, id, f.name).(activeID := id);
        if |o.calls[o.byID[id]].arguments| + |f.arguments| <= MAX_FRAME {
          AppendKeeps(o, o.byID[id], f.arguments);
        }
      }
    }
  }

  /** Nothing is attached by guessing: a fragment without an id goes to the call named last, and
      only when every other call's arguments are already complete. */
  lemma AnonymousIsUnambiguous(s: State, f: Fragment, cfg: Setting)
    requires Inv(s) && f.id == "" && Take(s, f, cfg).1.Some?
    ensures var d := Take(s, f, cfg).1.value;
      && d.index < |s.calls| && s.calls[d.index].id == s.activeID
      && forall i :: 0 <= i < |s.calls| && i != d.index ==> cfg.valid(s.calls[i].arguments)
  {
    forall i | 0 <= i < |s.calls| && i != s.byID[s.activeID] ensures cfg.valid(s.calls[i].arguments) {
      assert Indexed(s, i);
    }
  }

  // ---------- what a client rebuilds ----------

  datatype Client = Client(content: string, reasoning: string, calls: seq<Call>)

  /** A client that knows only the deltas; None if one makes no sense to it. */
  function AbsorbCall(calls: seq<Call>, d: CallDelta): Option<seq<Call>> {
    match d.first
    case Some((id, name)) => if d.index == |calls| then Some(calls + [Call(id, name, d.arguments)]) else None
    case None =>
      if d.index < |calls|
      then Some(calls[d.index := calls[d.index].(arguments := calls[d.index].arguments + d.arguments)]) else None
  }

  function AbsorbCalls(calls: seq<Call>, ds: seq<CallDelta>): Option<seq<Call>> {
    if ds == [] then Some(calls) else
      match AbsorbCalls(calls, ds[..|ds| - 1])
      case None => None
      case Some(c) => AbsorbCall(c, ds[|ds| - 1])
  }

  function Absorb(c: Client, d: Delta): Option<Client> {
    match AbsorbCalls(c.calls, d.calls)
    case None => None
    case Some(calls) => Some(Client(c.content + d.content, c.reasoning + d.reasoning, calls))
  }

  function Replay(ds: seq<Delta>): Option<Client> {
    if ds == [] then Some(Client("", "", [])) else
      match Replay(ds[..|ds| - 1])
      case None => None
      case Some(c) => Absorb(c, ds[|ds| - 1])
  }

  function Visible(s: State): Client {
    Client(s.content, s.reasoning, s.calls)
  }

  lemma TakeReplays(s: State, f: Fragment, cfg: Setting)
    requires Inv(s) && Take(s, f, cfg).1.Some?
    ensures var (s', d) := Take(s, f, cfg);
      AbsorbCall(s.calls, d.value) == Some(s'.calls) && s'.content == s.content && s'.reasoning == s.reasoning
  {
    var id := Target(s, f, cfg).value;
    if id !in s.byID {
      assert "" + f.arguments == f.arguments;
      assert Take(s, f, cfg).0.calls == s.calls + [Call(id, f.name, f.arguments)];
    }
  }

  lemma {:induction false} TakeAllReplays(s: State, fs: seq<Fragment>, cfg: Setting)
    requires Inv(s) && TakeAll(s, fs, cfg).1.Some?
    ensures var (s', ds) := TakeAll(s, fs, cfg);
      AbsorbCalls(s.calls, ds.value) == Some(s'.calls) && s'.content == s.content && s'.reasoning == s.reasoning
    decreases |fs|
  {
    if fs != [] {
      var (s1, ds) := TakeAll(s, fs[..|fs| - 1], cfg);
      TakeAllReplays(s, fs[..|fs| - 1], cfg);
      TakeReplays(s1, fs[|fs| - 1], cfg);
      var d := Take(s1, fs[|fs| - 1], cfg).1.value;
      assert (ds.value + [d])[..|ds.value|] == ds.value;
    }
  }

  lemma ConsumeReplays(s: State, p: Frame, cfg: Setting)
    requires Inv(s) && Consume(s, p, cfg).1.Some?
    ensures var (s', d) := Consume(s, p, cfg);
      Absorb(Visible(s), d.value) == Some(Visible(s'))
  {
    NotedKeeps(s, p);
    TakeAllReplays(Noted(s, p), p.fragments, cfg);
  }

  lemma ReplaySnoc(ds: seq<Delta>, d: Delta)
    ensures Replay(ds + [d]) == match Replay(ds) case None => None case Some(c) => Absorb(c, d)
  {
    assert (ds + [d])[..|ds|] == ds;
  }

  /** Replaying the deltas sent so far rebuilds exactly what was accumulated: all content, all
      reasoning, and every call with its id, name and arguments, in order. */
  lemma {:induction false} ReplayRebuilds(frames: seq<Frame>, cfg: Setting)
    requires ConsumeAll(frames, cfg).Some?
    ensures var (s, ds) := ConsumeAll(frames, cfg).value;
      Replay(ds) == Some(Visible(s))
    decreases |frames|
  {
    if frames != [] {
      var p := frames[|frames| - 1];
      var (s, ds) := ConsumeAll(frames[..|frames| - 1], cfg).value;
      ReplayRebuilds(frames[..|frames| - 1], cfg);
      ConsumeReplays(s, p, cfg);
      ReplaySnoc(ds, Consume(s, p, cfg).1.value);
    }
  }

  // ---------- reassembly ----------

  /** All fragments of a stream in order. */
  function Pieces(frames: seq<Frame>): seq<Fragment> {
    if frames == [] then [] else Pieces(frames[..|frames| - 1]) + frames[|frames| - 1].fragments
  }

  /** The call the last piece belongs to: the one it or the nearest piece before it names. */
  function LastId(pieces: seq<Fragment>): string {
    if pieces == [] then "" else
      var f := pieces[|pieces| - 1];
      if f.id != "" then f.id else LastId(pieces[..|pieces| - 1])
  }

  /** The ids in the order in which they are first named. */
  function Ids(pieces: seq<Fragment>): seq<string> {
    if pieces == [] then [] else
      var before := Ids(pieces[..|pieces| - 1]);
      if LastId(pieces) in before then before else before + [LastId(pieces)]
  }

  /** All the argument pieces of a call, in order. */
  function ArgumentsOf(pieces: seq<Fragment>, id: string): string {
    if pieces == [] then "" else
      ArgumentsOf(pieces[..|pieces| - 1], id) + if LastId(pieces) == id then pieces[|pieces| - 1].arguments else ""
  }

  /** The name given by a call's first piece. */
  function NameOf(pieces: seq<Fragment>, id: string): string {
    if pieces == [] then "" else
      var init := pieces[..|pieces| - 1];
      if id in Ids(init) || LastId(pieces) != id then NameOf(init, id) else pieces[|pieces| - 1].name
  }

  predicate Assembled(s: State, pieces: seq<Fragment>) {
    && s.activeID == LastId(pieces)
    && |s.calls| == |Ids(pieces)|
    && forall i :: 0 <= i < |s.calls| ==> AssembledCall(s.calls[i], Ids(pieces)[i], pieces)
  }

  predicate AssembledCall(c: Call, id: string, pieces: seq<Fragment>) {
    c == Call(id, NameOf(pieces, id), ArgumentsOf(pieces, id))
  }

  lemma PiecesSnoc(pieces: seq<Fragment>, f: Fragment, id: string)
    ensures var all := pieces + [f];
      && LastId(all) == (if f.id != "" then f.id else LastId(pieces))
      && Ids(all) == (if LastId(all) in Ids(pieces) then Ids(pieces) else Ids(pieces) + [LastId(all)])
      && ArgumentsOf(all, id) == ArgumentsOf(pieces, id) + (if LastId(all) == id then f.arguments else "")
      && NameOf(all, id) == (if id in Ids(pieces) || LastId(all) != id then NameOf(pieces, id) else f.name)
  {
    assert (pieces + [f])[..|pieces|] == pieces;
  }

  lemma {:induction false} UnseenIsEmpty(pieces: seq<Fragment>, id: string)
    requires id !in Ids(pieces)
    ensures ArgumentsOf(pieces, id) == ""
    decreases |pieces|
  {
    if pieces != [] {
      UnseenIsEmpty(pieces[..|pieces| - 1], id);
    }
  }

  lemma IdsMatch(s: State, pieces: seq<Fragment>, id: string)
    requires Inv(s) && Assembled(s, pieces)
    ensures id in Ids(pieces) <==> id in s.byID
    ensures id in s.byID ==> Ids(pieces)[s.byID[id]] == id
  {
    if id in Ids(pieces) {
      var i :| 0 <= i < |Ids(pieces)| && Ids(pieces)[i] == id;
      assert AssembledCall(s.calls[i], Ids(pieces)[i], pieces) && Indexed(s, i);
    }
    if id in s.byID {
      assert AssembledCall(s.calls[s.byID[id]], Ids(pieces)[s.byID[id]], pieces);
    }
  }

  lemma TakeAssembles(s: State, pieces: seq<Fragment>, f: Fragment, cfg: Setting)
    requires Inv(s) && Assembled(s, pieces) && Take(s, f, cfg).1.Some?
    ensures Assembled(Take(s, f, cfg).0, pieces + [f])
  {
    var s' := Take(s, f, cfg).0;
    var all := pieces + [f];
    var id := Target(s, f, cfg).value;
    PiecesSnoc(pieces, f, id);
    IdsMatch(s, pieces, id);
    TakeReplays(s, f, cfg);
    if id !in s.byID { UnseenIsEmpty(pieces, id); }
    forall i | 0 <= i < |s'.calls| ensures AssembledCall(s'.calls[i], Ids(all)[i], all) {
      if i < |s.calls| {
        assert AssembledCall(s.calls[i], Ids(pieces)[i], pieces) && Indexed(s, i);
        PiecesSnoc(pieces, f, s.calls[i].id);
        assert ArgumentsOf(pieces, s.calls[i].id) + "" == ArgumentsOf(pieces, s.calls[i].id);
      }
    }
  }

  lemma NextAssembles(s: State, s': State, pieces: seq<Fragment>, pieces': seq<Fragment>, f: Fragment, cfg: Setting)
    requires Inv(s) && Assembled(s, pieces) && Take(s, f, cfg).1.Some?
    requires s' == Take(s, f, cfg).0 && pieces' == pieces + [f]
    ensures Assembled(s', pieces')
  {
    TakeAssembles(s, pieces, f, cfg);
  }

  lemma TakeAllLast(s: State, fs: seq<Fragment>, cfg: Setting)
    requires Inv(s) && fs != [] && TakeAll(s, fs, cfg).1.Some?
    ensures var (s1, ds) := TakeAll(s, fs[..|fs| - 1], cfg);
      ds.Some? && Take(s1, fs[|fs| - 1], cfg).1.Some? && TakeAll(s, fs, cfg).0 == Take(s1, fs[|fs| - 1], cfg).0
  {
  }

  lemma {:induction false} TakeAllAssembles(s: State, pieces: seq<Fragment>, fs: seq<Fragment>, cfg: Setting)
    requires Inv(s) && Assembled(s, pieces) && TakeAll(s, fs, cfg).1.Some?
    ensures Assembled(TakeAll(s, fs, cfg).0, pieces + fs)
    decreases |fs|
  {
    if fs == [] {
      assert pieces + fs == pieces;
    } else {
      var init := fs[..|fs| - 1];
      TakeAllLast(s, fs, cfg);
      TakeAllAssembles(s, pieces, init, cfg);
      SplitLast(pieces, fs);
      LastAssembles(s, pieces + init, fs, pieces + fs, cfg);
    }
  }

  lemma SplitLast(pieces: seq<Fragment>, fs: seq<Fragment>)
    requires fs != []
    ensures pieces + fs == pieces + fs[..|fs| - 1] + [fs[|fs| - 1]]
  {
  }

  lemma LastAssembles(s: State, before: seq<Fragment>, fs: seq<Fragment>, all: seq<Fragment>, cfg: Setting)
    requires Inv(s) && fs != [] && TakeAll(s, fs, cfg).1.Some?
    requires Assembled(TakeAll(s, fs[..|fs| - 1], cfg).0, before) && all == before + [fs[|fs| - 1]]
    ensures Assembled(TakeAll(s, fs, cfg).0, all)
  {
    TakeAllLast(s, fs, cfg);
    NextAssembles(TakeAll(s, fs[..|fs| - 1], cfg).0, TakeAll(s, fs, cfg).0, before, all, fs[|fs| - 1], cfg);
  }

  /** Each accumulated call is what its fragments spell out: calls in the order in which their
      ids appear, each with its first name and all its argument pieces joined in order. */
  lemma {:induction false} CallsAreReassembled(frames: seq<Frame>, cfg: Setting)
    requires ConsumeAll(frames, cfg).Some?
    ensures Assembled(ConsumeAll(frames, cfg).value.0, Pieces(frames))
    decreases |frames|
  {
    if frames != [] {
      var init, p := frames[..|frames| - 1], frames[|frames| - 1];
      var s := ConsumeAll(init, cfg).value.0;
      CallsAreReassembled(init, cfg);
      NotedKeeps(s, p);
      forall i | 0 <= i < |s.calls| ensures AssembledCall(Noted(s, p).calls[i], Ids(Pieces(init))[i], Pieces(init)) {
        assert AssembledCall(s.calls[i], Ids(Pieces(init))[i], Pieces(init));
      }
      TakeAllAssembles(Noted(s, p), Pieces(init), p.fragments, cfg);
    }
  }

  // ---------- exactly which streams are accepted ----------

  /** A piece is acceptable after the ones before it. */
  ghost predicate Fits(before: seq<Fragment>, f: Fragment, cfg: Setting) {
    var id := if f.id != "" then f.id else LastId(before);
    && !f.refused && id != ""
    && (f.id == "" ==> forall other | other in Ids(before) && other != id :: cfg.valid(ArgumentsOf(before, other)))
    && (if id in Ids(before) then f.name == "" || f.name == NameOf(before, id)
        else f.name in cfg.allowed && |id| <= 256 && |Ids(before)| < 256)
    && |ArgumentsOf(before, id)| + |f.arguments| <= 2_097_152
  }

  ghost predicate AllFit(before: seq<Fragment>, fs: seq<Fragment>, cfg: Setting) {
    forall n :: 0 <= n < |fs| ==> Fits(before + fs[..n], fs[n], cfg)
  }

  lemma AmbiguityByPieces(s: State, pieces: seq<Fragment>, cfg: Setting)
    requires Inv(s) && Assembled(s, pieces)
    ensures Ambiguous(s, cfg) <==>
      exists other :: other in Ids(pieces) && other != s.activeID && !cfg.valid(ArgumentsOf(pieces, other))
  {
    forall i | 0 <= i < |s.calls| ensures s.calls[i].id == Ids(pieces)[i]
      && s.calls[i].arguments == ArgumentsOf(pieces, Ids(pieces)[i])
    {
      assert AssembledCall(s.calls[i], Ids(pieces)[i], pieces);
    }
    if other :| other in Ids(pieces) && other != s.activeID && !cfg.valid(ArgumentsOf(pieces, other)) {
      var i :| 0 <= i < |Ids(pieces)| && Ids(pieces)[i] == other;
      assert !cfg.valid(s.calls[i].arguments);
    }
  }

  lemma CallByPieces(s: State, pieces: seq<Fragment>, id: string)
    requires Inv(s) && Assembled(s, pieces)
    ensures id in s.byID <==> id in Ids(pieces)
    ensures id in s.byID ==>
      s.calls[s.byID[id]].name == NameOf(pieces, id) && s.calls[s.byID[id]].arguments == ArgumentsOf(pieces, id)
    ensures id !in s.byID ==> ArgumentsOf(pieces, id) == ""
  {
    IdsMatch(s, pieces, id);
    if id in s.byID {
      assert AssembledCall(s.calls[s.byID[id]], Ids(pieces)[s.byID[id]], pieces);
    } else {
      UnseenIsEmpty(pieces, id);
    }
  }

  lemma TakesIffFits(s: State, pieces: seq<Fragment>, f: Fragment, cfg: Setting)
    requires Inv(s) && Assembled(s, pieces)
    ensures Take(s, f, cfg).1.Some? <==> Fits(pieces, f, cfg)
  {
    AmbiguityByPieces(s, pieces, cfg);
    CallByPieces(s, pieces, if f.id != "" then f.id else s.activeID);
  }

  lemma AllFitSnoc(before: seq<Fragment>, fs: seq<Fragment>, cfg: Setting)
    requires fs != []
    ensures var init := fs[..|fs| - 1];
      AllFit(before, fs, cfg) <==> AllFit(before, init, cfg) && Fits(before + init, fs[|fs| - 1], cfg)
  {
    var init := fs[..|fs| - 1];
    forall n | 0 <= n < |init| ensures fs[..n] == init[..n] && fs[n] == init[n] { }
    if AllFit(before, fs, cfg) {
      assert Fits(before + fs[..|fs| - 1], fs[|fs| - 1], cfg);
      forall n | 0 <= n < |init| ensures Fits(before + init[..n], init[n], cfg) {
        assert Fits(before + fs[..n], fs[n], cfg);
      }
    }
  }

  lemma {:induction false} TakesAllIffFit(s: State, pieces: seq<Fragment>, fs: seq<Fragment>, cfg: Setting)
    requires Inv(s) && Assembled(s, pieces)
    ensures TakeAll(s, fs, cfg).1.Some? <==> AllFit(pieces, fs, cfg)
    decreases |fs|
  {
    if fs != [] {
      var init := fs[..|fs| - 1];
      TakesAllIffFit(s, pieces, init, cfg);
      AllFitSnoc(pieces, fs, cfg);
      if TakeAll(s, init, cfg).1.Some? {
        TakeAllAssembles(s, pieces, init, cfg);
        TakesIffFits(TakeAll(s, init, cfg).0, pieces + init, fs[|fs| - 1], cfg);
      }
    }
  }

  lemma AllFitAppend(a: seq<Fragment>, b: seq<Fragment>, cfg: Setting)
    ensures AllFit([], a + b, cfg) <==> AllFit([], a, cfg) && AllFit(a, b, cfg)
  {
    forall n | 0 <= n < |a| ensures (a + b)[..n] == a[..n] && (a + b)[n] == a[n] { }
    forall n | 0 <= n < |b| ensures (a + b)[..|a| + n] == a + b[..n] && (a + b)[|a| + n] == b[n] { }
    forall xs: seq<Fragment> ensures [] + xs == xs { }
    if AllFit([], a + b, cfg) {
      forall n | 0 <= n < |a| ensures Fits([] + a[..n], a[n], cfg) {
        assert Fits([] + (a + b)[..n], (a + b)[n], cfg);
      }
      forall n | 0 <= n < |b| ensures Fits(a + b[..n], b[n], cfg) {
        assert Fits([] + (a + b)[..|a| + n], (a + b)[|a| + n], cfg);
      }
    }
    if AllFit([], a, cfg) && AllFit(a, b, cfg) {
      forall n | 0 <= n < |a + b| ensures Fits([] + (a + b)[..n], (a + b)[n], cfg) {
        if n < |a| {
          assert Fits([] + a[..n], a[n], cfg);
        } else {
          assert Fits(a + b[..n - |a|], b[n - |a|], cfg);
        }
      }
    }
  }

  /** A stream is accepted exactly when each of its pieces names a call or follows one named,
      leaves no call behind unfinished unless it says so by an id, repeats no call's name
      wrongly, opens only calls of offered tools, and keeps within the limits. */
  lemma {:induction false} AcceptedExactlyWhen(frames: seq<Frame>, cfg: Setting)
    ensures ConsumeAll(frames, cfg).Some? <==> AllFit([], Pieces(frames), cfg)
    decreases |frames|
  {
    if frames != [] {
      var init, p := frames[..|frames| - 1], frames[|frames| - 1];
      AcceptedExactlyWhen(init, cfg);
      AllFitAppend(Pieces(init), p.fragments, cfg);
      if ConsumeAll(init, cfg).Some? {
        var s := ConsumeAll(init, cfg).value.0;
        CallsAreReassembled(init, cfg);
        NotedKeeps(s, p);
        NotedAssembled(s, p, Pieces(init));
        TakesAllIffFit(Noted(s, p), Pieces(init), p.fragments, cfg);
      }
    }
  }

  lemma NotedAssembled(s: State, p: Frame, pieces: seq<Fragment>)
    requires Assembled(s, pieces)
    ensures Assembled(Noted(s, p), pieces)
  {
    forall i | 0 <= i < |s.calls| ensures AssembledCall(Noted(s, p).calls[i], Ids(pieces)[i], pieces) {
      assert AssembledCall(s.calls[i], Ids(pieces)[i], pieces);
    }
  }

  // ---------- the end of a stream ----------

  const NORMAL_FINISH := 2

  function Finish(s: State, limit: nat, isObject: string -> bool): Option<string> {
    if s.calls != [] then
      if forall i :: 0 <= i < |s.calls| ==> isObject(s.calls[i].arguments) then Some("tool_calls") else None
    else if s.finishCode.None? then None
    else if s.completion == Some(limit) then Some("length")
    else if s.finishCode != Some(NORMAL_FINISH) then None
    else Some("stop")
  }

  /** What the frames say besides calls: all text and thinking, the last finish code given
      and the last output count known. */
  function TextOf(frames: seq<Frame>): string {
    if frames == [] then "" else TextOf(frames[..|frames| - 1]) + frames[|frames| - 1].content
  }

  function ThinkingOf(frames: seq<Frame>): string {
    if frames == [] then "" else ThinkingOf(frames[..|frames| - 1]) + frames[|frames| - 1].reasoning
  }

  function LastFinish(frames: seq<Frame>): Option<nat> {
    if frames == [] then None
    else if frames[|frames| - 1].finish.Some? then frames[|frames| - 1].finish
    else LastFinish(frames[..|frames| - 1])
  }

  function LastCompletion(frames: seq<Frame>): Option<nat> {
    if frames == [] then None
    else if frames[|frames| - 1].completion.Some? then frames[|frames| - 1].completion
    else LastCompletion(frames[..|frames| - 1])
  }

  lemma {:induction false} TakeAllKeepsText(s: State, fs: seq<Fragment>, cfg: Setting)
    requires Inv(s) && TakeAll(s, fs, cfg).1.Some?
    ensures var s' := TakeAll(s, fs, cfg).0;
      s' == s.(calls := s'.calls, byID := s'.byID, activeID := s'.activeID)
    decreases |fs|
  {
    if fs != [] {
      TakeAllKeepsText(s, fs[..|fs| - 1], cfg);
      TakeAllLast(s, fs, cfg);
    }
  }

  lemma {:induction false} TextIsKept(frames: seq<Frame>, cfg: Setting)
    requires ConsumeAll(frames, cfg).Some?
    ensures var s := ConsumeAll(frames, cfg).value.0;
      && s.content == TextOf(frames) && s.reasoning == ThinkingOf(frames)
      && s.finishCode == LastFinish(frames) && s.completion == LastCompletion(frames)
    decreases |frames|
  {
    if frames != [] {
      var init, p := frames[..|frames| - 1], frames[|frames| - 1];
      var s := ConsumeAll(init, cfg).value.0;
      TextIsKept(init, cfg);
      NotedKeeps(s, p);
      TakeAllKeepsText(Noted(s, p), p.fragments, cfg);
    }
  }

  predicate AllObjects(pieces: seq<Fragment>, isObject: string -> bool) {
    forall id | id in Ids(pieces) :: isObject(ArgumentsOf(pieces, id))
  }

  /** How a stream ends, told by its frames. With calls it is "tool_calls", provided every call's
      arguments are an object. Without, a finish code is needed: it is "length" if the output
      count known last is the limit, "stop" if it is not and the code is 2; all else fails. */
  lemma EndsExactly(frames: seq<Frame>, cfg: Setting, limit: nat, isObject: string -> bool)
    requires ConsumeAll(frames, cfg).Some?
    ensures var reason := Finish(ConsumeAll(frames, cfg).value.0, limit, isObject);
      var called := Ids(Pieces(frames)) != [];
      var full := LastCompletion(frames) == Some(limit);
      && (reason == Some("tool_calls") <==> called && AllObjects(Pieces(frames), isObject))
      && (reason == Some("length") <==> !called && LastFinish(frames).Some? && full)
      && (reason == Some("stop") <==> !called && LastFinish(frames) == Some(2) && !full)
      && (reason.Some? ==> reason.value in {"tool_calls", "length", "stop"})
  {
    var s := ConsumeAll(frames, cfg).value.0;
    var ids := Ids(Pieces(frames));
    TextIsKept(frames, cfg);
    CallsAreReassembled(frames, cfg);
    forall i | 0 <= i < |s.calls| ensures s.calls[i].arguments == ArgumentsOf(Pieces(frames), ids[i]) {
      assert AssembledCall(s.calls[i], ids[i], Pieces(frames));
    }
  }

  // ---------- the state as it is updated ----------

  class StreamState {
    var content: string
    var reasoning: string
    var calls: seq<Call>
    var byID: map<string, nat>
    var activeID: string
    var finishCode: Option<nat>
    var completion: Option<nat>

    ghost function View(): State
      reads this
    {
      State(content, reasoning, calls, byID, activeID, finishCode, completion)
    }

    constructor ()
      ensures View() == EMPTY
    {
      content, reasoning, calls, byID, activeID, finishCode, completion := "", "", [], map[], "", None, None;
    }

    method FindTarget(f: Fragment, cfg: Setting) returns (target: Option<string>)
      ensures target == Target(View(), f, cfg)
    {
      if f.refused {
        return None;
      }
      if f.id != "" {
        return Some(f.id);
      }
      if activeID == "" {
        return None;
      }
      var i := 0;
      while i < |calls|
        invariant 0 <= i <= |calls|
        invariant forall k :: 0 <= k < i ==> calls[k].id == activeID || cfg.valid(calls[k].arguments)
      {
        if calls[i].id != activeID && !cfg.valid(calls[i].arguments) {
          return None;
        }
        i := i + 1;
      }
      return Some(activeID);
    }

    method TakeFragment(f: Fragment, cfg: Setting) returns (d: Option<CallDelta>)
      requires Inv(View())
      modifies this
      ensures (View(), d) == Take(old(View()), f, cfg)
    {
      d := None;
      var target := FindTarget(f, cfg);
      if target.None? {
        return;
      }
      var id := target.value;
      var known := id in byID;
      var index: nat;
      if !known {
        if f.name !in cfg.allowed || |id| > MAX_ID || |calls| >= MAX_CALLS {
          return;
        }
        index := |calls|;
        byID := byID[id := index];
        calls := calls + [Call(id, f.name, "")];
      } else {
        index := byID[id];
        if f.name != "" && f.name != calls[index].name {
          return;
        }
      }
      activeID := id;
      if |calls[index].arguments| + |f.arguments| > MAX_FRAME {
        return;
      }
      calls := calls[index := calls[index].(arguments := calls[index].arguments + f.arguments)];
      d := Some(CallDelta(index, if known then None else Some((id, f.name)), f.arguments));
    }

    /** A whole frame: what to send on, or None when the stream is refused. */
    method ConsumeFrame(p: Frame, cfg: Setting) returns (d: Option<Delta>)
      requires Inv(View())
      modifies this
      ensures (View(), d) == Consume(old(View()), p, cfg)
    {
      NotedKeeps(View(), p);
      content, reasoning := content + p.content, reasoning + p.reasoning;
      if p.finish.Some? {
        finishCode := p.finish;
      }
      if p.completion.Some? {
        completion := p.completion;
      }
      var deltas := ConsumeFragments(p.fragments, cfg);
      d := if deltas.Some? then Some(Delta(p.content, p.reasoning, deltas.value)) else None;
    }

    method ConsumeFragments(fs: seq<Fragment>, cfg: Setting) returns (deltas: Option<seq<CallDelta>>)
      requires Inv(View())
      modifies this
      ensures (View(), deltas) == TakeAll(old(View()), fs, cfg)
    {
      ghost var s := View();
      deltas := Some([]);
      var i := 0;
      while i < |fs| && deltas.Some?
        invariant 0 <= i <= |fs|
        invariant Inv(View()) && (View(), deltas) == TakeAll(s, fs[..i], cfg)
      {
        TakeAllNext(s, fs, i, cfg);
        var c := TakeFragment(fs[i], cfg);
        deltas := if c.Some? then Some(deltas.value + [c.value]) else None;
        i := i + 1;
      }
      if deltas.None? {
        Refused(s, fs, i, cfg);
      } else {
        assert fs[..i] == fs;
      }
    }

    method FinishReason(limit: nat, isObject: string -> bool) returns (reason: Option<string>)
      ensures reason == Finish(View(), limit, isObject)
    {
      if |calls| > 0 {
        var i := 0;
        while i < |calls|
          invariant 0 <= i <= |calls|
          invariant forall k :: 0 <= k < i ==> isObject(calls[k].arguments)
        {
          if !isObject(calls[i].arguments) {
            return None;
          }
          i := i + 1;
        }
        return Some("tool_calls");
      }
      if finishCode.None? {
        return None;
      }
      if completion == Some(limit) {
        return Some("length");
      }
      if finishCode != Some(NORMAL_FINISH) {
        return None;
      }
      return Some("stop");
    }
  }

  lemma TakeAllNext(s: State, fs: seq<Fragment>, i: nat, cfg: Setting)
    requires Inv(s) && i < |fs| && TakeAll(s, fs[..i], cfg).1.Some?
    ensures var (s1, ds) := TakeAll(s, fs[..i], cfg);
      var (s2, d) := Take(s1, fs[i], cfg);
      Inv(s2) && TakeAll(s, fs[..i + 1], cfg) == (s2, if d.Some? then Some(ds.value + [d.value]) else None)
  {
    assert fs[..i + 1][..i] == fs[..i];
    TakeKeeps(TakeAll(s, fs[..i], cfg).0, fs[i], cfg);
  }

  /** A refused fragment ends the frame. */
  lemma {:induction false} Refused(s: State, fs: seq<Fragment>, n: nat, cfg: Setting)
    requires Inv(s) && n <= |fs| && TakeAll(s, fs[..n], cfg).1.None?
    ensures TakeAll(s, fs, cfg) == TakeAll(s, fs[..n], cfg)
    decreases |fs|
  {
    if n == |fs| {
      assert fs[..n] == fs;
    } else {
      var init := fs[..|fs| - 1];
      assert init[..n] == fs[..n];
      Refused(s, init, n, cfg);
    }
  }
}
