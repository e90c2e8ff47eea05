/** The stream translator: OpenAI chat-completion chunks in, Anthropic events out. */
module OpenAIStream {
  import opened Wrappers
  import opened StreamEvents

  const MAX_TOOL_CALLS := 128
  const MAX_ARGUMENT_BYTES := 8 * 1024 * 1024

  /** A tool-call fragment; absent strings are empty and an absent index is 0. */
  datatype Fragment = Fragment(index: int, id: string, name: string, arguments: string)

  /** A choice's finish_reason, by the values the translation tells apart. */
  datatype Reason = Absent | Stop | Length | ToolCalls | FunctionCall | ContentFilter | Other(name: string)

  datatype Choice = Choice(content: string, tools: seq<Fragment>, finish: Reason)

  datatype Chunk = Chunk(choices: seq<Choice>)

  datatype Tool = Tool(id: string, name: string, blockIndex: int, started: bool, pending: seq<string>,
      fragments: seq<string>)

  const NEW_TOOL := Tool("", "", 0, false, [], [])

  /** `out` is what has been written; `aborted` means the stream was cut without an event. */
  datatype State = State(started: bool, terminated: bool, aborted: bool, textOpen: bool, textIndex: int, nextBlock: nat,
                         tools: map<int, Tool>, toolOrder: seq<int>, stopReason: string, argumentBytes: nat,
                         out: seq<Event>)

  const NEW_STATE := State(false, false, false, false, -1, 0, map[], [], "", 0, [])

  /** The atomic things a chunk asks for, in order. */
  datatype Op = Begin | Say(text: string) | Call(fragment: Fragment) | Because(finish: Reason)

  function Calls(tools: seq<Fragment>): seq<Op> {
    seq(|tools|, i requires 0 <= i < |tools| => Call(tools[i]))
  }

  function ChoiceOps(c: Choice): seq<Op> {
    [Say(c.content)] + Calls(c.tools) + [Because(c.finish)]
  }

  function ChoicesOps(cs: seq<Choice>): seq<Op> {
    if cs == [] then [] else ChoicesOps(cs[..|cs| - 1]) + ChoiceOps(cs[|cs| - 1])
  }

  function ChunkOps(c: Chunk): seq<Op> {
    [Begin] + ChoicesOps(c.choices)
  }

  function MapFinishReason(reason: Reason): (r: string)
    ensures r != ""
  {
    match reason
    case Length => "max_tokens"
    case ToolCalls => "tool_use"
    case FunctionCall => "tool_use"
    case ContentFilter => "refusal"
    case _ => "end_turn"
  }

  function Write(s: State, es: seq<Event>): State {
    s.(out := s.out + es)
  }

  function SayOp(s: State, text: string): State {
    if text == "" then s
    else if s.textOpen then Write(s, [BlockDelta(Some(s.textIndex), TextDelta(text))])
    else Write(s.(textOpen := true, textIndex := s.nextBlock, nextBlock := s.nextBlock + 1),
               [BlockStart(Some(s.nextBlock), TEXT_HEAD), BlockDelta(Some(s.nextBlock), TextDelta(text))])
  }

  function JsonDeltas(index: int, parts: seq<string>): seq<Event> {
    seq(|parts|, i requires 0 <= i < |parts| => BlockDelta(Some(index), JsonDelta(parts[i])))
  }

  function Grown(parts: seq<string>, more: string): seq<string> {
    if more == "" then parts else parts + [more]
  }

  /** The tool after a fragment's id and name are noted. */
  function Named(t: Tool, f: Fragment): Tool {
    t.(id := if f.id != "" then f.id else t.id, name := if f.name != "" then f.name else t.name)
  }

  /** The tool after a fragment's arguments are noted too. */
  function Noted(t: Tool, f: Fragment): Tool {
    Named(t, f).(pending := if t.started then t.pending else Grown(t.pending, f.arguments),
                 fragments := Grown(t.fragments, f.arguments))
  }

  /** A tool block opens once its id and name are known; a text block still open closes first. */
  function OpenTool(s: State, k: int): State
    requires k in s.tools
  {
    var t := s.tools[k];
    var stop := if s.textOpen then [BlockStop(Some(s.textIndex))] else [];
    var t' := t.(blockIndex := s.nextBlock, started := true, pending := []);
    Write(s.(textOpen := false, nextBlock := s.nextBlock + 1, toolOrder := s.toolOrder + [k],
             tools := s.tools[k := t']),
          stop + [BlockStart(Some(s.nextBlock), Head("tool_use", t.id, t.name))] + JsonDeltas(s.nextBlock, t.pending))
  }

  function Present(s: State, f: Fragment): Tool {
    if f.index in s.tools then s.tools[f.index] else NEW_TOOL
  }

  function CallOp(s: State, f: Fragment): State {
    if f.index !in s.tools && |s.tools| >= MAX_TOOL_CALLS then s.(aborted := true)
    else
      var before := Present(s, f);
      var t := Noted(before, f);
      var s' := s.(tools := s.tools[f.index := t], argumentBytes := s.argumentBytes + |f.arguments|);
      if s'.argumentBytes > MAX_ARGUMENT_BYTES then s'.(tools := s.tools[f.index := Named(before, f)], aborted := true)
      else if t.started then
        if f.arguments == "" then s' else Write(s', [BlockDelta(Some(t.blockIndex), JsonDelta(f.arguments))])
      else if t.id == "" || t.name == "" then s'
      else OpenTool(s', f.index)
  }

  function Step(s: State, op: Op): State {
    if s.aborted then s
    else match op
      case Begin => if s.started then s else Write(s.(started := true), [MessageStart])
      case Say(text) => SayOp(s, text)
      case Call(f) => CallOp(s, f)
      case Because(finish) => if finish.Absent? then s else s.(stopReason := MapFinishReason(finish))
  }

  function Run(s: State, ops: seq<Op>): State {
    if ops == [] then s else Step(Run(s, ops[..|ops| - 1]), ops[|ops| - 1])
  }

  lemma {:induction false} RunAppend(s: State, a: seq<Op>, b: seq<Op>)
    ensures Run(s, a + b) == Run(Run(s, a), b)
    decreases |b|
  {
    if b == [] {
      assert a + b == a;
    } else {
      assert (a + b)[..|a + b| - 1] == a + b[..|b| - 1];
      RunAppend(s, a, b[..|b| - 1]);
    }
  }

  // ---------- finishing ----------

  function Join(parts: seq<string>): string {
    if parts == [] then "" else Join(parts[..|parts| - 1]) + parts[|parts| - 1]
  }

  /** `isObject` decides whether nonempty trimmed arguments are a JSON object; blank arguments
      are accepted too. */
  predicate BadTool(t: Tool, isObject: string -> bool) {
    !isObject(Join(t.fragments)) || (!t.started && (t.id != "" || t.name != "" || t.fragments != []))
  }

  predicate Ordered(s: State) {
    forall i :: 0 <= i < |s.toolOrder| ==> s.toolOrder[i] in s.tools
  }

  function ToolBlocks(s: State): seq<int>
    requires Ordered(s)
  {
    seq(|s.toolOrder|, i requires 0 <= i < |s.toolOrder| => s.tools[s.toolOrder[i]].blockIndex)
  }

  function Stops(indices: seq<int>): seq<Event> {
    seq(|indices|, i requires 0 <= i < |indices| => BlockStop(Some(indices[i])))
  }

  function TextBlocks(s: State): seq<int> {
    if s.textOpen then [s.textIndex] else []
  }

  function OpenBlocks(s: State): seq<int>
    requires Ordered(s)
  {
    TextBlocks(s) + ToolBlocks(s)
  }

  function Fail(s: State): State {
    Write(s.(terminated := true), [Error])
  }

  function Finish(s: State, stopReason: string, isObject: string -> bool): State
    requires Ordered(s)
  {
    if s.terminated then s
    else if exists k :: k in s.tools && BadTool(s.tools[k], isObject) then Fail(s)
    else Write(s.(terminated := true, textOpen := false),
        Stops(OpenBlocks(s)) + [MessageDelta(stopReason), MessageStop])
  }

  // ---------- the invariant ----------

  ghost predicate Distinct(xs: seq<int>) {
    forall i, j :: 0 <= i < j < |xs| ==> xs[i] != xs[j]
  }

  ghost function Elements(xs: seq<int>): set<int> {
    set x | x in xs
  }

  /** The bookkeeping: started tools are the ones in order, and open blocks are distinct and numbered. */
  ghost predicate Books(s: State) {
    && Ordered(s)
    && Distinct(s.toolOrder)
    && (forall k :: k in s.tools ==> (s.tools[k].started <==> k in s.toolOrder))
    && Distinct(OpenBlocks(s))
    && (forall i :: i in Elements(OpenBlocks(s)) ==> 0 <= i < s.nextBlock)
  }

  /** What has been written is a stream still in its body, with exactly the open blocks open. */
  ghost predicate Parsed(s: State)
    requires Ordered(s)
  {
    Parse(s.out) == Some(Shape(if s.started then Body else Before, s.nextBlock, Elements(OpenBlocks(s))))
  }

  /** The text and arguments asked for so far, in order. */
  function Said(ops: seq<Op>): string {
    if ops == [] then "" else
      var op := ops[|ops| - 1];
      Said(ops[..|ops| - 1]) + if op.Say? then op.text else ""
  }

  function Args(ops: seq<Op>, k: int): string {
    if ops == [] then "" else
      var op := ops[|ops| - 1];
      Args(ops[..|ops| - 1], k) + if op.Call? && op.fragment.index == k then op.fragment.arguments else ""
  }

  ghost predicate ToolFaithful(s: State, ops: seq<Op>, k: int) {
    var t := if k in s.tools then s.tools[k] else NEW_TOOL;
    && Join(t.fragments) == Args(ops, k)
    && (if t.started then JsonOf(s.out, t.blockIndex) == Args(ops, k) else t.pending == t.fragments)
  }

  /** Nothing asked for is lost: it is written, or buffered in a tool that has not started. */
  ghost predicate Faithful(s: State, ops: seq<Op>)
    requires Ordered(s)
  {
    && TextOf(s.out) == Said(ops)
    && (forall k :: ToolFaithful(s, ops, k))
    && (forall j :: j !in ToolBlocks(s) ==> JsonOf(s.out, j) == "")
  }

  ghost predicate Inv(s: State, ops: seq<Op>) {
    Books(s) && Parsed(s) && Faithful(s, ops)
  }

  // ---------- appending events ----------

  lemma JoinGrown(parts: seq<string>, more: string)
    ensures Join(Grown(parts, more)) == Join(parts) + more
  {
    assert (parts + [more])[..|parts|] == parts;
  }

  lemma Regroup(a: string, b: string, c: string)
    ensures (a + b) + c == a + (b + c)
  {
  }

  lemma AskedSnoc(ops: seq<Op>, op: Op, k: int)
    ensures Said(ops + [op]) == Said(ops) + if op.Say? then op.text else ""
    ensures Args(ops + [op], k) == Args(ops, k) + if op.Call? && op.fragment.index == k then op.fragment.arguments
        else ""
  {
    assert (ops + [op])[..|ops|] == ops;
  }

  lemma DeltasSnoc(es: seq<Event>, index: int, parts: seq<string>)
    requires parts != []
    ensures es + JsonDeltas(index, parts) ==
      es + JsonDeltas(index, parts[..|parts| - 1]) + [BlockDelta(Some(index), JsonDelta(parts[|parts| - 1]))]
  {
  }

  lemma {:induction false} DeltasText(es: seq<Event>, index: int, parts: seq<string>)
    ensures TextOf(es + JsonDeltas(index, parts)) == TextOf(es)
    decreases |parts|
  {
    if parts == [] {
      assert es + JsonDeltas(index, parts) == es;
    } else {
      var n := |parts| - 1;
      DeltasText(es, index, parts[..n]);
      DeltasSnoc(es, index, parts);
      ContentSnoc(es + JsonDeltas(index, parts[..n]), BlockDelta(Some(index), JsonDelta(parts[n])), index);
    }
  }

  lemma {:induction false} DeltasJson(es: seq<Event>, index: int, parts: seq<string>, j: int)
    ensures JsonOf(es + JsonDeltas(index, parts), j) == JsonOf(es, j) + if j == index then Join(parts) else ""
    decreases |parts|
  {
    if parts == [] {
      assert es + JsonDeltas(index, parts) == es;
    } else {
      var n := |parts| - 1;
      DeltasJson(es, index, parts[..n], j);
      DeltasSnoc(es, index, parts);
      ContentSnoc(es + JsonDeltas(index, parts[..n]), BlockDelta(Some(index), JsonDelta(parts[n])), j);
      if j == index {
        Regroup(JsonOf(es, j), Join(parts[..n]), parts[n]);
      }
    }
  }

  lemma {:induction false} DeltasParse(es: seq<Event>, index: int, parts: seq<string>)
    requires Parse(es).Some? && Parse(es).value.phase == Body && index in Parse(es).value.open
    ensures Parse(es + JsonDeltas(index, parts)) == Parse(es)
    decreases |parts|
  {
    var all := es + JsonDeltas(index, parts);
    if parts == [] {
      assert all == es;
    } else {
      var n := |parts| - 1;
      DeltasParse(es, index, parts[..n]);
      var e := BlockDelta(Some(index), JsonDelta(parts[n]));
      assert all == es + JsonDeltas(index, parts[..n]) + [e];
      ParseSnoc(es + JsonDeltas(index, parts[..n]), e);
    }
  }

  lemma StopsSnoc(es: seq<Event>, indices: seq<int>)
    requires indices != []
    ensures es + Stops(indices) == es + Stops(indices[..|indices| - 1]) + [BlockStop(Some(indices[|indices| - 1]))]
  {
  }

  lemma {:induction false} StopsParse(es: seq<Event>, indices: seq<int>)
    requires Parse(es).Some? && Parse(es).value.phase == Body && Distinct(indices)
    requires Elements(indices) <= Parse(es).value.open
    ensures Parse(es + Stops(indices)) == Some(Parse(es).value.(open := Parse(es).value.open - Elements(indices)))
    decreases |indices|
  {
    var all := es + Stops(indices);
    var open := Parse(es).value.open;
    if indices == [] {
      assert all == es;
      assert open - Elements(indices) == open;
    } else {
      var n := |indices| - 1;
      var last := indices[n];
      assert forall i :: 0 <= i < n ==> indices[..n][i] != last;
      StopsParse(es, indices[..n]);
      StopsSnoc(es, indices);
      ParseSnoc(es + Stops(indices[..n]), BlockStop(Some(last)));
      assert Elements(indices) == Elements(indices[..n]) + {last};
      assert open - Elements(indices[..n]) - {last} == open - Elements(indices);
    }
  }

  lemma {:induction false} StopsContent(es: seq<Event>, indices: seq<int>, j: int)
    ensures TextOf(es + Stops(indices)) == TextOf(es)
    ensures JsonOf(es + Stops(indices), j) == JsonOf(es, j)
    decreases |indices|
  {
    var all := es + Stops(indices);
    if indices == [] {
      assert all == es;
    } else {
      var n := |indices| - 1;
      StopsContent(es, indices[..n], j);
      StopsSnoc(es, indices);
      ContentSnoc(es + Stops(indices[..n]), BlockStop(Some(indices[n])), j);
    }
  }

  // ---------- every step keeps the invariant ----------

  lemma NewInv()
    ensures Inv(NEW_STATE, [])
  {
    assert Elements(OpenBlocks(NEW_STATE)) == {};
    assert forall k :: ToolFaithful(NEW_STATE, [], k);
  }

  lemma BeginKeeps(s: State, ops: seq<Op>)
    requires Inv(s, ops) && !s.aborted
    ensures Inv(Step(s, Begin), ops + [Begin]) && Step(s, Begin).started
  {
    var s' := Step(s, Begin);
    AskedSnoc(ops, Begin, 0);
    if !s.started {
      ParseSnoc(s.out, MessageStart);
      ContentSnoc(s.out, MessageStart, 0);
    }
    assert OpenBlocks(s') == OpenBlocks(s);
    forall k ensures ToolFaithful(s', ops + [Begin], k) {
      assert ToolFaithful(s, ops, k);
      AskedSnoc(ops, Begin, k);
      if k in s.tools { ContentSnoc(s.out, MessageStart, s.tools[k].blockIndex); }
    }
    forall j | j !in ToolBlocks(s') ensures JsonOf(s'.out, j) == "" {
      ContentSnoc(s.out, MessageStart, j);
    }
  }

  lemma BecauseKeeps(s: State, ops: seq<Op>, reason: string)
    requires Inv(s, ops)
    ensures Inv(s.(stopReason := reason), ops)
  {
    var s' := s.(stopReason := reason);
    assert OpenBlocks(s') == OpenBlocks(s);
    forall k ensures ToolFaithful(s', ops, k) {
      assert ToolFaithful(s, ops, k);
    }
  }

  lemma SilentKeeps(s: State, ops: seq<Op>, op: Op)
    requires Inv(s, ops) && !op.Say? && !op.Call?
    ensures Inv(s, ops + [op])
  {
    forall k ensures ToolFaithful(s, ops + [op], k) && Said(ops + [op]) == Said(ops) {
      assert ToolFaithful(s, ops, k);
      AskedSnoc(ops, op, k);
    }
  }

  lemma OpenTextKeeps(s: State, ops: seq<Op>, e: Event)
    requires Inv(s, ops) && s.started && !s.textOpen
    requires e.BlockStart? && e.index == Some(s.nextBlock)
    ensures Inv(Write(s.(textOpen := true, textIndex := s.nextBlock, nextBlock := s.nextBlock + 1), [e]), ops)
  {
    var s' := Write(s.(textOpen := true, textIndex := s.nextBlock, nextBlock := s.nextBlock + 1), [e]);
    assert OpenBlocks(s') == [s.nextBlock] + OpenBlocks(s);
    assert Elements(OpenBlocks(s')) == Elements(OpenBlocks(s)) + {s.nextBlock};
    ParseSnoc(s.out, e);
    Unheard(s, s', ops, e);
  }

  /** An event that carries no content leaves everything as faithful as it was. */
  lemma Unheard(s: State, s': State, ops: seq<Op>, e: Event)
    requires Ordered(s) && Ordered(s') && Faithful(s, ops) && s'.out == s.out + [e] && !e.BlockDelta?
    requires s'.tools == s.tools && s'.toolOrder == s.toolOrder
    ensures Faithful(s', ops)
  {
    ContentSnoc(s.out, e, 0);
    forall k ensures ToolFaithful(s', ops, k) {
      assert ToolFaithful(s, ops, k);
      if k in s.tools { ContentSnoc(s.out, e, s.tools[k].blockIndex); }
    }
    assert ToolBlocks(s') == ToolBlocks(s);
    forall j | j !in ToolBlocks(s') ensures JsonOf(s'.out, j) == "" {
      ContentSnoc(s.out, e, j);
    }
  }

  lemma TextDeltaKeeps(s: State, ops: seq<Op>, text: string)
    requires Inv(s, ops) && s.started && s.textOpen
    ensures Inv(Write(s, [BlockDelta(Some(s.textIndex), TextDelta(text))]), ops + [Say(text)])
  {
    var e := BlockDelta(Some(s.textIndex), TextDelta(text));
    var s' := Write(s, [e]);
    assert OpenBlocks(s') == OpenBlocks(s) && OpenBlocks(s)[0] == s.textIndex;
    ParseSnoc(s.out, e);
    AskedSnoc(ops, Say(text), 0);
    ContentSnoc(s.out, e, 0);
    forall k ensures ToolFaithful(s', ops + [Say(text)], k) {
      assert ToolFaithful(s, ops, k);
      AskedSnoc(ops, Say(text), k);
      if k in s.tools { ContentSnoc(s.out, e, s.tools[k].blockIndex); }
    }
    assert ToolBlocks(s') == ToolBlocks(s);
    forall j | j !in ToolBlocks(s') ensures JsonOf(s'.out, j) == "" {
      ContentSnoc(s.out, e, j);
    }
  }

  lemma SayKeeps(s: State, ops: seq<Op>, text: string)
    requires Inv(s, ops) && s.started
    ensures Inv(SayOp(s, text), ops + [Say(text)])
  {
    if text == "" {
      forall k ensures ToolFaithful(s, ops + [Say(text)], k) && Said(ops + [Say(text)]) == Said(ops) {
        assert ToolFaithful(s, ops, k);
        AskedSnoc(ops, Say(text), k);
      }
    } else if s.textOpen {
      TextDeltaKeeps(s, ops, text);
    } else {
      FirstTextKeeps(s, ops, text);
    }
  }

  lemma FirstTextKeeps(s: State, ops: seq<Op>, text: string)
    requires Inv(s, ops) && s.started && !s.textOpen && text != ""
    ensures Inv(SayOp(s, text), ops + [Say(text)])
  {
    var e := BlockStart(Some(s.nextBlock), TEXT_HEAD);
    OpenTextKeeps(s, ops, e);
    var s1 := Write(s.(textOpen := true, textIndex := s.nextBlock, nextBlock := s.nextBlock + 1), [e]);
    TextDeltaKeeps(s1, ops, text);
    assert s.out + [e] + [BlockDelta(Some(s.nextBlock), TextDelta(text))] == SayOp(s, text).out;
    assert Write(s1, [BlockDelta(Some(s.nextBlock), TextDelta(text))]) == SayOp(s, text);
  }

  lemma DistinctCons(x: int, xs: seq<int>)
    ensures Distinct([x] + xs) <==> Distinct(xs) && x !in xs
    ensures Elements([x] + xs) == {x} + Elements(xs)
  {
    var all := [x] + xs;
    if Distinct(all) {
      forall i, j | 0 <= i < j < |xs| ensures xs[i] != xs[j] {
        assert all[i + 1] != all[j + 1];
      }
      forall i | 0 <= i < |xs| ensures xs[i] != x {
        assert all[0] != all[i + 1];
      }
    }
  }

  lemma DistinctSnoc(xs: seq<int>, x: int)
    requires Distinct(xs) && x !in Elements(xs)
    ensures Distinct(xs + [x])
    ensures Elements(xs + [x]) == Elements(xs) + {x}
  {
  }

  lemma CloseTextBooks(s: State)
    requires Books(s) && s.textOpen
    ensures Books(s.(textOpen := false)) && s.textIndex in Elements(OpenBlocks(s))
    ensures Elements(OpenBlocks(s.(textOpen := false))) == Elements(OpenBlocks(s)) - {s.textIndex}
  {
    var s' := s.(textOpen := false);
    assert ToolBlocks(s') == ToolBlocks(s);
    assert OpenBlocks(s') == ToolBlocks(s);
    DistinctCons(s.textIndex, ToolBlocks(s));
  }

  lemma SameBlocks(s: State, s': State)
    requires Ordered(s) && s'.tools == s.tools && s'.toolOrder == s.toolOrder && s'.textOpen == s.textOpen
    requires s'.textIndex == s.textIndex
    ensures Ordered(s') && ToolBlocks(s') == ToolBlocks(s) && OpenBlocks(s') == OpenBlocks(s)
  {
    assert ToolBlocks(s') == ToolBlocks(s);
  }

  lemma CloseTextKeeps(s: State, ops: seq<Op>)
    requires Inv(s, ops) && s.started && s.textOpen
    ensures Inv(Write(s.(textOpen := false), [BlockStop(Some(s.textIndex))]), ops)
  {
    var e := BlockStop(Some(s.textIndex));
    var s' := Write(s.(textOpen := false), [e]);
    CloseTextBooks(s);
    SameBlocks(s.(textOpen := false), s');
    ParseSnoc(s.out, e);
    Unheard(s, s', ops, e);
  }

  // ---------- tool calls ----------

  /** The tool block that opens once no text block is open. */
  function StartTool(s: State, k: int): State
    requires k in s.tools
  {
    var t := s.tools[k];
    Write(s.(nextBlock := s.nextBlock + 1, toolOrder := s.toolOrder + [k],
             tools := s.tools[k := t.(blockIndex := s.nextBlock, started := true, pending := [])]),
          [BlockStart(Some(s.nextBlock), Head("tool_use", t.id, t.name))] + JsonDeltas(s.nextBlock, t.pending))
  }

  lemma OpenToolIs(s: State, k: int)
    requires k in s.tools
    ensures OpenTool(s, k) ==
      StartTool(if s.textOpen then Write(s.(textOpen := false), [BlockStop(Some(s.textIndex))]) else s, k)
  {
    var start := [BlockStart(Some(s.nextBlock), Head("tool_use", s.tools[k].id, s.tools[k].name))];
    var rest := JsonDeltas(s.nextBlock, s.tools[k].pending);
    assert s.out + (start + rest) == s.out + ([] + start + rest);
    var stop := [BlockStop(Some(s.textIndex))];
    assert s.out + stop + (start + rest) == s.out + (stop + start + rest);
  }

  lemma StartBooks(s: State, k: int)
    requires Books(s) && !s.textOpen && k in s.tools && !s.tools[k].started
    ensures Books(StartTool(s, k))
    ensures ToolBlocks(StartTool(s, k)) == ToolBlocks(s) + [s.nextBlock]
    ensures Elements(OpenBlocks(StartTool(s, k))) == Elements(OpenBlocks(s)) + {s.nextBlock}
  {
    var s' := StartTool(s, k);
    assert Ordered(s');
    assert ToolBlocks(s') == ToolBlocks(s) + [s.nextBlock];
    assert OpenBlocks(s') == OpenBlocks(s) + [s.nextBlock];
    DistinctSnoc(OpenBlocks(s), s.nextBlock);
    DistinctSnoc(s.toolOrder, k);
    assert forall q :: q in s'.toolOrder <==> q in s.toolOrder || q == k;
  }

  lemma StartParse(es: seq<Event>, n: nat, head: Head, parts: seq<string>)
    requires Parse(es).Some? && Parse(es).value.phase == Body && Parse(es).value.next == n
    ensures Parse(es + [BlockStart(Some(n), head)] + JsonDeltas(n, parts))
        == Some(Shape(Body, n + 1, Parse(es).value.open + {n}))
  {
    ParseSnoc(es, BlockStart(Some(n), head));
    DeltasParse(es + [BlockStart(Some(n), head)], n, parts);
  }

  lemma StartToolParsed(s: State, k: int)
    requires Ordered(s) && Parsed(s) && s.started && k in s.tools
    requires Ordered(StartTool(s, k))
    requires Elements(OpenBlocks(StartTool(s, k))) == Elements(OpenBlocks(s)) + {s.nextBlock}
    ensures Parsed(StartTool(s, k))
  {
    StartOut(s, k);
    StartParse(s.out, s.nextBlock, Head("tool_use", s.tools[k].id, s.tools[k].name), s.tools[k].pending);
  }

  lemma StartToolKeeps(s: State, ops: seq<Op>, k: int)
    requires Inv(s, ops) && s.started && !s.textOpen && k in s.tools && !s.tools[k].started
    ensures Inv(StartTool(s, k), ops)
  {
    StartBooks(s, k);
    StartToolParsed(s, k);
    StartOut(s, k);
    NextIsNew(s);
    StartFaithful(s, StartTool(s, k), ops, k,
        BlockStart(Some(s.nextBlock), Head("tool_use", s.tools[k].id, s.tools[k].name)));
  }

  lemma StartOut(s: State, k: int)
    requires k in s.tools
    ensures StartTool(s, k).out
        == s.out + [BlockStart(Some(s.nextBlock), Head("tool_use", s.tools[k].id, s.tools[k].name))]
                                   + JsonDeltas(s.nextBlock, s.tools[k].pending)
  {
  }

  lemma NextIsNew(s: State)
    requires Books(s) && !s.textOpen
    ensures s.nextBlock !in ToolBlocks(s)
    ensures forall q :: q in s.tools && s.tools[q].started ==> s.tools[q].blockIndex != s.nextBlock
  {
    assert OpenBlocks(s) == ToolBlocks(s);
    assert s.nextBlock !in Elements(OpenBlocks(s));
    forall q | q in s.tools && s.tools[q].started ensures s.tools[q].blockIndex != s.nextBlock {
      StartedIsOpen(s, q);
      assert s.tools[q].blockIndex in Elements(OpenBlocks(s));
    }
  }

  lemma StartContent(es: seq<Event>, e: Event, n: int, parts: seq<string>, j: int)
    requires !e.BlockDelta?
    ensures TextOf(es + [e] + JsonDeltas(n, parts)) == TextOf(es)
    ensures JsonOf(es + [e] + JsonDeltas(n, parts), j) == JsonOf(es, j) + if j == n then Join(parts) else ""
  {
    ContentSnoc(es, e, j);
    DeltasText(es + [e], n, parts);
    DeltasJson(es + [e], n, parts, j);
  }

  lemma StartFaithful(s: State, s': State, ops: seq<Op>, k: int, e: Event)
    requires Ordered(s) && Faithful(s, ops) && k in s.tools && !s.tools[k].started && !e.BlockDelta?
    requires s.nextBlock !in ToolBlocks(s)
    requires forall q :: q in s.tools && s.tools[q].started ==> s.tools[q].blockIndex != s.nextBlock
    requires Ordered(s') && ToolBlocks(s') == ToolBlocks(s) + [s.nextBlock]
    requires s'.tools == s.tools[k := s.tools[k].(blockIndex := s.nextBlock, started := true, pending := [])]
    requires s'.out == s.out + [e] + JsonDeltas(s.nextBlock, s.tools[k].pending)
    ensures Faithful(s', ops)
  {
    var n, parts := s.nextBlock, s.tools[k].pending;
    StartContent(s.out, e, n, parts, n);
    assert ToolFaithful(s, ops, k);
    forall q ensures ToolFaithful(s', ops, q) {
      assert ToolFaithful(s, ops, q);
      if q in s.tools && s.tools[q].started { StartContent(s.out, e, n, parts, s.tools[q].blockIndex); }
    }
    forall j | j !in ToolBlocks(s') ensures JsonOf(s'.out, j) == "" {
      StartContent(s.out, e, n, parts, j);
      assert (ToolBlocks(s) + [n])[|ToolBlocks(s)|] == n;
    }
  }

  lemma StartedIsOpen(s: State, k: int)
    requires Books(s) && k in s.tools && s.tools[k].started
    ensures s.tools[k].blockIndex in ToolBlocks(s) && s.tools[k].blockIndex in OpenBlocks(s)
  {
    var i :| 0 <= i < |s.toolOrder| && s.toolOrder[i] == k;
    assert ToolBlocks(s)[i] == s.tools[k].blockIndex;
    assert OpenBlocks(s)[|TextBlocks(s)| + i] == s.tools[k].blockIndex;
  }

  lemma OpenToolKeeps(s: State, ops: seq<Op>, k: int)
    requires Inv(s, ops) && s.started && k in s.tools && !s.tools[k].started
    ensures Inv(OpenTool(s, k), ops)
  {
    OpenToolIs(s, k);
    if s.textOpen {
      CloseTextKeeps(s, ops);
      StartToolKeeps(Write(s.(textOpen := false), [BlockStop(Some(s.textIndex))]), ops, k);
    } else {
      StartToolKeeps(s, ops, k);
    }
  }

  /** Rewriting a tool without starting it leaves the bookkeeping alone. */
  lemma RewriteBooks(s: State, s': State, k: int, t: Tool)
    requires Books(s) && s'.tools == s.tools[k := t] && s'.toolOrder == s.toolOrder
    requires s'.textOpen == s.textOpen && s'.textIndex == s.textIndex && s'.nextBlock == s.nextBlock
    requires if k in s.tools then t.started == s.tools[k].started && t.blockIndex == s.tools[k].blockIndex
        else !t.started
    ensures Books(s') && ToolBlocks(s') == ToolBlocks(s) && OpenBlocks(s') == OpenBlocks(s)
  {
    assert ToolBlocks(s') == ToolBlocks(s);
    assert OpenBlocks(s') == OpenBlocks(s);
  }

  function NotedIn(s: State, f: Fragment): State {
    s.(tools := s.tools[f.index := Noted(Present(s, f), f)],
       argumentBytes := s.argumentBytes + |f.arguments|)
  }

  /** A tool that has not started only buffers the fragment. */
  lemma BufferKeeps(s: State, ops: seq<Op>, f: Fragment)
    requires Inv(s, ops)
    requires f.index in s.tools ==> !s.tools[f.index].started
    ensures Inv(NotedIn(s, f), ops + [Call(f)])
  {
    var before := Present(s, f);
    var s' := NotedIn(s, f);
    RewriteBooks(s, s', f.index, Noted(before, f));
    JoinGrown(before.fragments, f.arguments);
    forall k ensures ToolFaithful(s', ops + [Call(f)], k) && Said(ops + [Call(f)]) == Said(ops) {
      assert ToolFaithful(s, ops, k);
      AskedSnoc(ops, Call(f), k);
    }
  }

  /** A started tool passes the fragment straight on. */
  function Forward(s: State, f: Fragment): State
    requires f.index in s.tools
  {
    var s' := NotedIn(s, f);
    if f.arguments == "" then s' else Write(s', [BlockDelta(Some(s.tools[f.index].blockIndex), JsonDelta(f.arguments))])
  }

  lemma ForwardKeeps(s: State, ops: seq<Op>, f: Fragment)
    requires Inv(s, ops) && s.started && f.index in s.tools && s.tools[f.index].started
    ensures Inv(Forward(s, f), ops + [Call(f)])
  {
    var b := s.tools[f.index].blockIndex;
    RewriteBooks(s, Forward(s, f), f.index, Noted(s.tools[f.index], f));
    StartedIsOpen(s, f.index);
    DeltaParse(s.out, b, f.arguments);
    forall k | k in s.tools && s.tools[k].started && k != f.index ensures s.tools[k].blockIndex != b {
      OwnBlock(s, k, f.index);
    }
    ForwardFaithful(s, Forward(s, f), ops, f);
  }

  lemma DeltaParse(es: seq<Event>, b: int, json: string)
    requires Parse(es).Some? && Parse(es).value.phase == Body && b in Parse(es).value.open
    ensures Parse(es + [BlockDelta(Some(b), JsonDelta(json))]) == Parse(es)
  {
    ParseSnoc(es, BlockDelta(Some(b), JsonDelta(json)));
  }

  lemma ForwardFaithful(s: State, s': State, ops: seq<Op>, f: Fragment)
    requires Ordered(s) && Ordered(s') && Faithful(s, ops) && f.index in s.tools && s.tools[f.index].started
    requires s.tools[f.index].blockIndex in ToolBlocks(s)
    requires forall k :: k in s.tools && s.tools[k].started && k != f.index ==>
        s.tools[k].blockIndex != s.tools[f.index].blockIndex
    requires s'.tools == s.tools[f.index := Noted(s.tools[f.index], f)]
    requires ToolBlocks(s') == ToolBlocks(s)
    requires s'.out == if f.arguments == "" then s.out
        else s.out + [BlockDelta(Some(s.tools[f.index].blockIndex), JsonDelta(f.arguments))]
    ensures Faithful(s', ops + [Call(f)])
  {
    var b := s.tools[f.index].blockIndex;
    forall j
      ensures JsonOf(s'.out, j) == JsonOf(s.out, j) + if j == b then f.arguments else ""
      ensures TextOf(s'.out) == TextOf(s.out)
    {
      ContentSnoc(s.out, BlockDelta(Some(b), JsonDelta(f.arguments)), j);
    }
    JoinGrown(s.tools[f.index].fragments, f.arguments);
    forall k ensures ToolFaithful(s', ops + [Call(f)], k) && Said(ops + [Call(f)]) == Said(ops) {
      assert ToolFaithful(s, ops, k);
      AskedSnoc(ops, Call(f), k);
    }
  }

  /** Two started tools never share a block. */
  lemma OwnBlock(s: State, k: int, q: int)
    requires Books(s) && k in s.tools && q in s.tools && s.tools[k].started && s.tools[q].started && k != q
    ensures s.tools[k].blockIndex != s.tools[q].blockIndex
  {
    var i :| 0 <= i < |s.toolOrder| && s.toolOrder[i] == k;
    var j :| 0 <= j < |s.toolOrder| && s.toolOrder[j] == q;
    var n := |TextBlocks(s)|;
    assert OpenBlocks(s)[n + i] == s.tools[k].blockIndex && OpenBlocks(s)[n + j] == s.tools[q].blockIndex;
  }

  /** The ways a fragment can go, in terms of the three moves above. */
  lemma CallCases(s: State, f: Fragment)
    requires !s.aborted
    ensures var s' := CallOp(s, f);
      var n := NotedIn(s, f);
      && s'.started == s.started
      && (s'.aborted ==>
            SameBooks(s, s') || s' == n.(tools := s.tools[f.index := Named(Present(s, f), f)], aborted := true))
      && (!s'.aborted ==>
            if f.index in s.tools && s.tools[f.index].started then s' == Forward(s, f)
            else s' == n || s' == OpenTool(n, f.index))
  {
  }

  predicate SameBooks(s: State, s': State) {
    s'.tools == s.tools && s'.toolOrder == s.toolOrder && s'.textOpen == s.textOpen && s'.textIndex == s.textIndex &&
    s'.nextBlock == s.nextBlock && s'.started == s.started && s'.out == s.out
  }

  lemma CallKeeps(s: State, ops: seq<Op>, f: Fragment)
    requires Inv(s, ops) && s.started && !s.aborted && !CallOp(s, f).aborted
    ensures Inv(CallOp(s, f), ops + [Call(f)]) && CallOp(s, f).started
  {
    CallCases(s, f);
    if f.index in s.tools && s.tools[f.index].started {
      ForwardKeeps(s, ops, f);
    } else {
      BufferKeeps(s, ops, f);
      if CallOp(s, f) != NotedIn(s, f) {
        OpenToolKeeps(NotedIn(s, f), ops + [Call(f)], f.index);
      }
    }
  }

  lemma StepKeeps(s: State, ops: seq<Op>, op: Op)
    requires Inv(s, ops) && !s.aborted && (s.started || op == Begin) && !Step(s, op).aborted
    ensures Inv(Step(s, op), ops + [op]) && Step(s, op).started
  {
    match op
    case Begin => BeginKeeps(s, ops);
    case Say(text) => SayKeeps(s, ops, text);
    case Call(f) => CallKeeps(s, ops, f);
    case Because(finish) =>
      if !finish.Absent? {
        BecauseKeeps(s, ops, MapFinishReason(finish));
      }
      SilentKeeps(Step(s, op), ops, op);
  }

  ghost predicate Sound(s: State, ops: seq<Op>) {
    Books(s) && Parsed(s) && (ops != [] || s.aborted ==> s.started) && (!s.aborted ==> Faithful(s, ops))
  }

  lemma NextKeeps(s: State, ops: seq<Op>, op: Op)
    requires Sound(s, ops) && (s.started || op == Begin)
    ensures Sound(Step(s, op), ops + [op])
  {
    if s.aborted {
    } else if Step(s, op).aborted {
      CutKeeps(s, op.fragment);
    } else {
      StepKeeps(s, ops, op);
    }
  }

  /** A whole conversation keeps the invariant until it is cut;
      what was written before the cut stays well formed. */
  lemma {:induction false} RunKeeps(ops: seq<Op>)
    requires ops != [] ==> ops[0] == Begin
    ensures Sound(Run(NEW_STATE, ops), ops)
  {
    if ops == [] {
      NewInv();
    } else {
      var n := |ops| - 1;
      RunKeeps(ops[..n]);
      NextKeeps(Run(NEW_STATE, ops[..n]), ops[..n], ops[n]);
      assert ops[..n] + [ops[n]] == ops;
    }
  }

  lemma CutKeeps(s: State, f: Fragment)
    requires Books(s) && Parsed(s) && CallOp(s, f).aborted && !s.aborted
    ensures Books(CallOp(s, f)) && Parsed(CallOp(s, f))
  {
    var s' := CallOp(s, f);
    CallCases(s, f);
    if SameBooks(s, s') {
      SameBlocks(s, s');
    } else {
      RewriteBooks(s, s', f.index, Named(Present(s, f), f));
    }
  }

  // ---------- block heads ----------

  const TEXT_HEAD := Head("text", "", "")

  /** The last nonempty id and name given for a tool index. */
  function IdOf(ops: seq<Op>, k: int): string {
    if ops == [] then "" else
      var op := ops[|ops| - 1];
      if op.Call? && op.fragment.index == k && op.fragment.id != "" then op.fragment.id else IdOf(ops[..|ops| - 1], k)
  }

  function NameOf(ops: seq<Op>, k: int): string {
    if ops == [] then "" else
      var op := ops[|ops| - 1];
      if op.Call? && op.fragment.index == k && op.fragment.name != "" then op.fragment.name
          else NameOf(ops[..|ops| - 1], k)
  }

  /** A tool is announced at the first fragment by which both its id and its name are known. */
  function Announced(ops: seq<Op>, k: int): Option<Head> {
    if ops == [] then None else
      var op := ops[|ops| - 1];
      var before := Announced(ops[..|ops| - 1], k);
      if before.Some? then before
      else if op.Call? && op.fragment.index == k && IdOf(ops, k) != "" && NameOf(ops, k) != ""
      then Some(Head("tool_use", IdOf(ops, k), NameOf(ops, k)))
      else None
  }

  ghost predicate ToolHeaded(s: State, ops: seq<Op>, k: int) {
    var t := if k in s.tools then s.tools[k] else NEW_TOOL;
    && t.id == IdOf(ops, k) && t.name == NameOf(ops, k)
    && t.started == Announced(ops, k).Some?
    && (t.started ==> t.blockIndex < s.nextBlock && HeadOf(s.out, t.blockIndex) == Announced(ops, k))
  }

  /** Every block started so far is the announced tool's, or a text block. */
  ghost predicate Headed(s: State, ops: seq<Op>)
    requires Ordered(s)
  {
    && (forall k :: ToolHeaded(s, ops, k))
    && (forall j :: 0 <= j < s.nextBlock && j !in ToolBlocks(s) ==> HeadOf(s.out, j) == Some(TEXT_HEAD))
  }

  lemma NamesSnoc(ops: seq<Op>, op: Op, k: int)
    ensures var mine := op.Call? && op.fragment.index == k;
      && IdOf(ops + [op], k) == (if mine && op.fragment.id != "" then op.fragment.id else IdOf(ops, k))
      && NameOf(ops + [op], k) == (if mine && op.fragment.name != "" then op.fragment.name else NameOf(ops, k))
      && (!mine ==> Announced(ops + [op], k) == Announced(ops, k))
  {
    assert (ops + [op])[..|ops|] == ops;
  }

  lemma AnnouncedSnoc(ops: seq<Op>, f: Fragment)
    ensures Announced(ops + [Call(f)], f.index) ==
      if Announced(ops, f.index).Some? then Announced(ops, f.index)
      else if IdOf(ops + [Call(f)], f.index) != "" && NameOf(ops + [Call(f)], f.index) != ""
      then Some(Head("tool_use", IdOf(ops + [Call(f)], f.index), NameOf(ops + [Call(f)], f.index)))
      else None
  {
    assert (ops + [Call(f)])[..|ops|] == ops;
  }

  /** Events that start no block, or only the next one, leave earlier heads alone. */
  lemma HeadsStay(s: State, s': State, ops: seq<Op>, op: Op, more: seq<Event>)
    requires Ordered(s) && Ordered(s') && Headed(s, ops) && !op.Call? && s'.out == s.out + more
    requires s'.tools == s.tools && ToolBlocks(s') == ToolBlocks(s)
    requires s'.nextBlock == s.nextBlock ||
             (s'.nextBlock == s.nextBlock + 1 && HeadOf(s'.out, s.nextBlock) == Some(TEXT_HEAD))
    requires forall i, j :: 0 <= i < |more| && j < s.nextBlock ==> !Starts(more[i], j)
    ensures Headed(s', ops + [op])
  {
    forall k ensures ToolHeaded(s', ops + [op], k) {
      assert ToolHeaded(s, ops, k);
      NamesSnoc(ops, op, k);
      if k in s.tools && s.tools[k].started { HeadAppend(s.out, more, s.tools[k].blockIndex); }
    }
    forall j | 0 <= j < s'.nextBlock && j !in ToolBlocks(s') ensures HeadOf(s'.out, j) == Some(TEXT_HEAD) {
      if j < s.nextBlock { HeadAppend(s.out, more, j); }
    }
  }

  lemma SayHeads(s: State, ops: seq<Op>, text: string)
    requires Ordered(s) && Headed(s, ops)
    ensures Ordered(SayOp(s, text)) && Headed(SayOp(s, text), ops + [Say(text)])
  {
    var s' := SayOp(s, text);
    assert ToolBlocks(s') == ToolBlocks(s);
    if text == "" {
      assert s.out == s.out + [];
      HeadsStay(s, s', ops, Say(text), []);
    } else if s.textOpen {
      HeadsStay(s, s', ops, Say(text), [BlockDelta(Some(s.textIndex), TextDelta(text))]);
    } else {
      var d := BlockDelta(Some(s.nextBlock), TextDelta(text));
      HeadStart(s.out, [d], s.nextBlock, TEXT_HEAD);
      assert s'.out == s.out + [BlockStart(Some(s.nextBlock), TEXT_HEAD)] + [d];
      HeadsStay(s, s', ops, Say(text), [BlockStart(Some(s.nextBlock), TEXT_HEAD), d]);
    }
  }

  /** Noting a fragment without opening a block. */
  lemma NotedHeads(s: State, s': State, ops: seq<Op>, f: Fragment, more: seq<Event>)
    requires Ordered(s) && Ordered(s') && Headed(s, ops) && ToolBlocks(s') == ToolBlocks(s)
    requires s'.tools == NotedIn(s, f).tools && s'.nextBlock == s.nextBlock && s'.out == s.out + more
    requires Present(s, f).started || Noted(Present(s, f), f).id == "" || Noted(Present(s, f), f).name == ""
    requires forall i, j :: 0 <= i < |more| ==> !Starts(more[i], j)
    ensures Headed(s', ops + [Call(f)])
  {
    forall k ensures ToolHeaded(s', ops + [Call(f)], k) {
      assert ToolHeaded(s, ops, k);
      NamesSnoc(ops, Call(f), k);
      if k in s.tools && s.tools[k].started { HeadAppend(s.out, more, s.tools[k].blockIndex); }
      if k == f.index { AnnouncedSnoc(ops, f); }
    }
    forall j | 0 <= j < s'.nextBlock && j !in ToolBlocks(s') ensures HeadOf(s'.out, j) == Some(TEXT_HEAD) {
      HeadAppend(s.out, more, j);
    }
  }

  lemma OtherHead(es: seq<Event>, stop: seq<Event>, start: Event, deltas: seq<Event>, j: int)
    requires forall i :: 0 <= i < |stop| ==> !Starts(stop[i], j)
    requires !Starts(start, j)
    requires forall i :: 0 <= i < |deltas| ==> !Starts(deltas[i], j)
    ensures HeadOf(es + stop + [start] + deltas, j) == HeadOf(es, j)
  {
    HeadAppend(es, stop, j);
    HeadAppend(es + stop, [start], j);
    HeadAppend(es + stop + [start], deltas, j);
  }

  /** Opening a block for a tool whose id and name have just become known. */
  lemma OpenedHeads(s: State, s': State, ops: seq<Op>, f: Fragment, stop: seq<Event>, deltas: seq<Event>)
    requires Ordered(s) && Headed(s, ops) && !Present(s, f).started && Ordered(s')
    requires Named(Present(s, f), f).id != "" && Named(Present(s, f), f).name != ""
    requires s'.nextBlock == s.nextBlock + 1 && ToolBlocks(s') == ToolBlocks(s) + [s.nextBlock]
    requires s'.tools == s.tools[f.index := Noted(Present(s, f), f).(blockIndex := s.nextBlock, started := true,
        pending := [])]
    requires
      var t := Named(Present(s, f), f);
      s'.out == s.out + stop + [BlockStart(Some(s.nextBlock), Head("tool_use", t.id, t.name))] + deltas
    requires forall i, j :: 0 <= i < |stop| ==> !Starts(stop[i], j)
    requires forall i, j :: 0 <= i < |deltas| ==> !Starts(deltas[i], j)
    ensures Headed(s', ops + [Call(f)])
  {
    var n := s.nextBlock;
    var start := BlockStart(Some(n), Head("tool_use", Named(Present(s, f), f).id, Named(Present(s, f), f).name));
    HeadStart(s.out + stop, deltas, n, start.head);
    forall k ensures ToolHeaded(s', ops + [Call(f)], k) {
      assert ToolHeaded(s, ops, k);
      NamesSnoc(ops, Call(f), k);
      if k == f.index {
        AnnouncedSnoc(ops, f);
        assert Announced(ops + [Call(f)], k) == Some(start.head);
      } else if k in s.tools && s.tools[k].started {
        OtherHead(s.out, stop, start, deltas, s.tools[k].blockIndex);
      }
    }
    forall j | 0 <= j < s'.nextBlock && j !in ToolBlocks(s') ensures HeadOf(s'.out, j) == Some(TEXT_HEAD) {
      assert (ToolBlocks(s) + [n])[|ToolBlocks(s)|] == n;
      assert j !in ToolBlocks(s);
      OtherHead(s.out, stop, start, deltas, j);
    }
  }

  lemma OpenHeads(s: State, ops: seq<Op>, f: Fragment)
    requires Books(s) && Headed(s, ops) && !Present(s, f).started
    requires Named(Present(s, f), f).id != "" && Named(Present(s, f), f).name != ""
    ensures Ordered(OpenTool(NotedIn(s, f), f.index)) && Headed(OpenTool(NotedIn(s, f), f.index), ops + [Call(f)])
  {
    var n := NotedIn(s, f);
    var t := Noted(Present(s, f), f);
    var s' := OpenTool(n, f.index);
    RewriteBooks(s, n, f.index, t);
    var stop := if s.textOpen then [BlockStop(Some(s.textIndex))] else [];
    var start := [BlockStart(Some(s.nextBlock), Head("tool_use", t.id, t.name))];
    var deltas := JsonDeltas(s.nextBlock, t.pending);
    assert s.out + (stop + start + deltas) == s.out + stop + start + deltas;
    assert ToolBlocks(s') == ToolBlocks(n) + [s.nextBlock];
    OpenedHeads(s, s', ops, f, stop, deltas);
  }

  lemma CallHeads(s: State, ops: seq<Op>, f: Fragment)
    requires Books(s) && Headed(s, ops) && !s.aborted && !CallOp(s, f).aborted
    ensures Ordered(CallOp(s, f)) && Headed(CallOp(s, f), ops + [Call(f)])
  {
    var t := Noted(Present(s, f), f);
    RewriteBooks(s, NotedIn(s, f), f.index, t);
    if t.started {
      RewriteBooks(s, Forward(s, f), f.index, t);
      var more := if f.arguments == "" then [] else [BlockDelta(Some(t.blockIndex), JsonDelta(f.arguments))];
      assert Forward(s, f).out == s.out + more;
      NotedHeads(s, Forward(s, f), ops, f, more);
    } else if t.id == "" || t.name == "" {
      assert s.out == s.out + [];
      NotedHeads(s, NotedIn(s, f), ops, f, []);
    } else {
      OpenHeads(s, ops, f);
    }
  }

  lemma StepHeads(s: State, ops: seq<Op>, op: Op)
    requires Books(s) && Headed(s, ops) && !s.aborted && !Step(s, op).aborted
    ensures Ordered(Step(s, op)) && Headed(Step(s, op), ops + [op])
  {
    match op
    case Begin =>
      var more := if s.started then [] else [MessageStart];
      assert Step(s, op).out == s.out + more;
      assert ToolBlocks(Step(s, op)) == ToolBlocks(s);
      HeadsStay(s, Step(s, op), ops, op, more);
    case Say(text) => SayHeads(s, ops, text);
    case Call(f) => CallHeads(s, ops, f);
    case Because(finish) =>
      assert Step(s, op).out == s.out + [];
      assert ToolBlocks(Step(s, op)) == ToolBlocks(s);
      HeadsStay(s, Step(s, op), ops, op, []);
  }

  lemma {:induction false} StillHeaded(ops: seq<Op>, op: Op)
    requires ops != [] ==> ops[0] == Begin
    requires Books(Run(NEW_STATE, ops)) && !Step(Run(NEW_STATE, ops), op).aborted
    ensures Ordered(Step(Run(NEW_STATE, ops), op)) && Headed(Step(Run(NEW_STATE, ops), op), ops + [op])
    decreases |ops|, 1
  {
    RunHeads(ops);
    StepHeads(Run(NEW_STATE, ops), ops, op);
  }

  lemma {:induction false} RunHeads(ops: seq<Op>)
    requires ops != [] ==> ops[0] == Begin
    requires !Run(NEW_STATE, ops).aborted
    ensures Ordered(Run(NEW_STATE, ops)) && Headed(Run(NEW_STATE, ops), ops)
    decreases |ops|, 0
  {
    if ops == [] {
      assert forall k :: ToolHeaded(NEW_STATE, [], k);
    } else {
      var n := |ops| - 1;
      var s := Run(NEW_STATE, ops[..n]);
      assert ops[..n] + [ops[n]] == ops;
      RunKeeps(ops[..n]);
      StillHeaded(ops[..n], ops[n]);
    }
  }

  // ---------- limits ----------

  /** The size of all argument pieces asked for. */
  function TotalArguments(ops: seq<Op>): nat {
    if ops == [] then 0 else
      var op := ops[|ops| - 1];
      TotalArguments(ops[..|ops| - 1]) + if op.Call? then |op.fragment.arguments| else 0
  }

  predicate WithinLimits(s: State, ops: seq<Op>) {
    |s.tools| <= MAX_TOOL_CALLS && s.argumentBytes == TotalArguments(ops) <= MAX_ARGUMENT_BYTES
  }

  lemma CallLimits(s: State, f: Fragment)
    requires |s.tools| <= MAX_TOOL_CALLS && s.argumentBytes <= MAX_ARGUMENT_BYTES && !s.aborted
    ensures var s' := CallOp(s, f);
      && (s'.aborted <==>
            (f.index !in s.tools && |s.tools| == MAX_TOOL_CALLS) ||
            s.argumentBytes + |f.arguments| > MAX_ARGUMENT_BYTES)
      && (!s'.aborted ==> s'.tools.Keys == s.tools.Keys + {f.index})
      && (!s'.aborted ==> s'.argumentBytes == s.argumentBytes + |f.arguments| <= MAX_ARGUMENT_BYTES)
  {
    CallCases(s, f);
  }

  /** A stream that has not been cut has seen at most the permitted tool calls and argument bytes;
      a fragment cuts it exactly when it would exceed one of the two. */
  lemma {:induction false} RunLimits(ops: seq<Op>)
    requires !Run(NEW_STATE, ops).aborted
    ensures WithinLimits(Run(NEW_STATE, ops), ops)
    decreases |ops|
  {
    if ops != [] {
      RunLimits(ops[..|ops| - 1]);
      StepLimits(Run(NEW_STATE, ops[..|ops| - 1]), ops[|ops| - 1]);
    }
  }

  lemma StepLimits(s: State, op: Op)
    requires |s.tools| <= MAX_TOOL_CALLS && s.argumentBytes <= MAX_ARGUMENT_BYTES && !s.aborted && !Step(s, op).aborted
    ensures var s' := Step(s, op);
      && |s'.tools| <= MAX_TOOL_CALLS && s'.argumentBytes <= MAX_ARGUMENT_BYTES
      && s'.argumentBytes == s.argumentBytes + if op.Call? then |op.fragment.arguments| else 0
  {
    if op.Call? {
      CallLimits(s, op.fragment);
      SizeWith(s.tools, CallOp(s, op.fragment).tools, op.fragment.index);
    }
  }

  lemma SizeWith(before: map<int, Tool>, after: map<int, Tool>, k: int)
    requires after.Keys == before.Keys + {k}
    ensures |after| == if k in before then |before| else |before| + 1
  {
    assert |after| == |after.Keys| && |before| == |before.Keys|;
    if k in before { assert after.Keys == before.Keys; }
  }
}
