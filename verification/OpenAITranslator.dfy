/** A whole translation: frames in, one Anthropic stream out, whatever the upstream does. */
module OpenAITranslator {
  import opened Wrappers
  import opened StreamEvents
  import opened OpenAIStream

  datatype Frame = Empty | DoneMark | Malformed | Failure | Data(chunk: Chunk)

  /** How the source ended: a frame left unterminated, and whether reading failed. */
  datatype End = End(trailing: Option<Frame>, broken: bool)

  datatype Conv = Conv(state: State, done: bool)

  const NEW_CONV := Conv(NEW_STATE, false)

  predicate Stopped(c: Conv) {
    c.done || c.state.terminated || c.state.aborted
  }

  function Receive(c: Conv, f: Frame): Conv {
    if Stopped(c) then c
    else match f
      case Empty => c
      case DoneMark => c.(done := true)
      case Malformed => c.(state := Fail(c.state))
      case Failure => c.(state := Fail(c.state))
      case Data(chunk) => c.(state := Run(c.state, ChunkOps(chunk)))
  }

  function ReceiveAll(frames: seq<Frame>): Conv {
    if frames == [] then NEW_CONV else Receive(ReceiveAll(frames[..|frames| - 1]), frames[|frames| - 1])
  }

  /** A stream that never gave a reason but was marked done gets a plausible one. */
  function StopReason(s: State): (r: string)
    ensures r != ""
  {
    if s.stopReason != "" then s.stopReason else if |s.toolOrder| > 0 then "tool_use" else "end_turn"
  }

  function Close(c: Conv, broken: bool, isObject: string -> bool): State
    requires Ordered(c.state)
  {
    var s := c.state;
    if s.aborted || s.terminated then s
    else if broken || !s.started then Fail(s)
    else if !c.done && s.stopReason == "" then Fail(s)
    else Finish(s, StopReason(s), isObject)
  }

  /** The last frame is taken even when unterminated, unless the loop already stopped. */
  function Ended(c: Conv, end: End): Conv {
    if end.trailing.Some? then Receive(c, end.trailing.value) else c
  }

  function Broken(c: Conv, end: End): bool {
    end.broken && !Stopped(c)
  }

  function Translate(frames: seq<Frame>, end: End, isObject: string -> bool): State {
    var c := ReceiveAll(frames);
    FramesOrdered(frames, end);
    Close(Ended(c, end), Broken(c, end), isObject)
  }

  // ---------- what was asked for ----------

  /** Every operation of the chunks received before the stream was done. */
  function Heard(frames: seq<Frame>): seq<Op> {
    if frames == [] then [] else
      var init, f := frames[..|frames| - 1], frames[|frames| - 1];
      Heard(init) + if f.Data? && DoneMark !in init then ChunkOps(f.chunk) else []
  }

  function All(frames: seq<Frame>, end: End): seq<Frame> {
    frames + if end.trailing.Some? then [end.trailing.value] else []
  }

  ghost predicate Cut(s: State) {
    Books(s) && s.terminated && Parse(s.out).Some? && Parse(s.out).value.phase == Failed
  }

  /** The state behind a conversation: a run of the operations heard, unless a frame failed. */
  ghost predicate Follows(c: Conv, frames: seq<Frame>) {
    var ops := Heard(frames);
    && (ops != [] ==> ops[0] == Begin)
    && (if c.state.terminated then Cut(c.state) && !c.done && !c.state.aborted
        else c.state == Run(NEW_STATE, ops) && (!c.state.aborted ==> (c.done <==> DoneMark in frames)))
  }

  lemma FailCuts(s: State)
    requires Books(s) && Parsed(s) && !s.terminated
    ensures Cut(Fail(s))
  {
    ParseSnoc(s.out, Error);
    SameBlocks(s, Fail(s));
  }

  lemma {:induction false} AbortedRun(s: State, ops: seq<Op>)
    requires s.aborted
    ensures Run(s, ops) == s
    decreases |ops|
  {
    if ops != [] { AbortedRun(s, ops[..|ops| - 1]); }
  }

  lemma {:induction false} RunNeverTerminates(ops: seq<Op>)
    ensures !Run(NEW_STATE, ops).terminated
    decreases |ops|
  {
    if ops != [] { RunNeverTerminates(ops[..|ops| - 1]); }
  }

  lemma HeardSnoc(frames: seq<Frame>, f: Frame)
    ensures Heard(frames + [f]) == if f.Data? && DoneMark !in frames then Heard(frames) + ChunkOps(f.chunk)
        else Heard(frames)
    ensures DoneMark in frames + [f] <==> DoneMark in frames || f == DoneMark
  {
    assert (frames + [f])[..|frames|] == frames;
  }

  lemma RunMore(ops: seq<Op>, more: seq<Op>)
    ensures var s := Run(NEW_STATE, ops);
      && Run(NEW_STATE, ops + more) == Run(s, more)
      && !Run(s, more).terminated
      && (s.aborted ==> Run(s, more) == s)
  {
    RunAppend(NEW_STATE, ops, more);
    RunNeverTerminates(ops + more);
    if Run(NEW_STATE, ops).aborted { AbortedRun(Run(NEW_STATE, ops), more); }
  }

  lemma LedStill(ops: seq<Op>, chunk: Chunk)
    requires ops != [] ==> ops[0] == Begin
    ensures (ops + ChunkOps(chunk))[0] == Begin
  {
    assert ChunkOps(chunk)[0] == Begin;
  }

  lemma DataFollows(c: Conv, frames: seq<Frame>, chunk: Chunk)
    requires Follows(c, frames) && !c.state.terminated && !c.done
    ensures Follows(Receive(c, Data(chunk)), frames + [Data(chunk)])
  {
    var ops, more := Heard(frames), ChunkOps(chunk);
    HeardSnoc(frames, Data(chunk));
    LedStill(ops, chunk);
    RunMore(ops, more);
    var c' := Receive(c, Data(chunk));
    assert c'.state == Run(NEW_STATE, ops + more) && !c'.done;
  }

  lemma FailFollows(c: Conv, frames: seq<Frame>, f: Frame)
    requires Follows(c, frames) && !Stopped(c) && (f.Malformed? || f.Failure?)
    ensures Follows(Receive(c, f), frames + [f])
  {
    HeardSnoc(frames, f);
    RunKeeps(Heard(frames));
    FailCuts(c.state);
  }

  lemma ReceiveFollows(c: Conv, frames: seq<Frame>, f: Frame)
    requires Follows(c, frames)
    ensures Follows(Receive(c, f), frames + [f])
  {
    HeardSnoc(frames, f);
    if !c.state.terminated && f.Data? && !c.done {
      DataFollows(c, frames, f.chunk);
    } else if !Stopped(c) && (f.Malformed? || f.Failure?) {
      FailFollows(c, frames, f);
    } else if c.done && f.Data? && c.state.aborted {
      RunMore(Heard(frames), ChunkOps(f.chunk));
    }
  }

  lemma {:induction false} AllFollow(frames: seq<Frame>)
    ensures Follows(ReceiveAll(frames), frames)
    decreases |frames|
  {
    if frames != [] {
      AllFollow(frames[..|frames| - 1]);
      ReceiveFollows(ReceiveAll(frames[..|frames| - 1]), frames[..|frames| - 1], frames[|frames| - 1]);
      assert frames[..|frames| - 1] + [frames[|frames| - 1]] == frames;
    }
  }

  lemma EndFollows(frames: seq<Frame>, end: End)
    ensures Follows(Ended(ReceiveAll(frames), end), All(frames, end))
  {
    AllFollow(frames);
    if end.trailing.Some? {
      ReceiveFollows(ReceiveAll(frames), frames, end.trailing.value);
    } else {
      assert frames + [] == frames;
    }
  }

  lemma FramesOrdered(frames: seq<Frame>, end: End)
    ensures Ordered(Ended(ReceiveAll(frames), end).state)
  {
    EndFollows(frames, end);
    RunKeeps(Heard(All(frames, end)));
  }

  // ---------- main results ----------

  /** The stream always follows the grammar. It is whole, or it ends in an error event, or it
      was cut by an over-limit tool call and is still in its body. */
  lemma FollowsGrammar(frames: seq<Frame>, end: End, isObject: string -> bool)
    ensures var s := Translate(frames, end, isObject);
      && Parse(s.out).Some?
      && var g := Parse(s.out).value;
         if s.aborted then g.phase == Body
         else g.phase in {Finished, Failed} && (g.phase == Finished ==> g.open == {} && g.next == s.nextBlock)
  {
    EndFollows(frames, end);
    var c := Ended(ReceiveAll(frames), end);
    RunKeeps(Heard(All(frames, end)));
    if !c.state.terminated && !c.state.aborted {
      FailCuts(c.state);
      if c.state.started { FinishParse(c.state, StopReason(c.state), isObject); }
    }
  }

  predicate AllGood(s: State, isObject: string -> bool) {
    forall k :: k in s.tools ==> !BadTool(s.tools[k], isObject)
  }

  lemma FinishParse(s: State, reason: string, isObject: string -> bool)
    requires Books(s) && Parsed(s) && s.started && !s.terminated && reason != ""
    ensures var s' := Finish(s, reason, isObject);
      Parse(s'.out) == if AllGood(s, isObject) then Some(Shape(Finished, s.nextBlock, {}))
                       else Some(Shape(Failed, s.nextBlock, Elements(OpenBlocks(s))))
  {
    if AllGood(s, isObject) {
      ClosingParse(s.out, s.nextBlock, OpenBlocks(s), reason);
    } else {
      ParseSnoc(s.out, Error);
    }
  }

  lemma ClosingParse(es: seq<Event>, next: nat, indices: seq<int>, reason: string)
    requires Parse(es) == Some(Shape(Body, next, Elements(indices))) && Distinct(indices) && reason != ""
    ensures Parse(es + (Stops(indices) + [MessageDelta(reason), MessageStop])) == Some(Shape(Finished, next, {}))
  {
    StopsParse(es, indices);
    var closed := es + Stops(indices);
    assert Elements(indices) - Elements(indices) == {};
    ParseSnoc(closed, MessageDelta(reason));
    ParseSnoc(closed + [MessageDelta(reason)], MessageStop);
    assert es + (Stops(indices) + [MessageDelta(reason), MessageStop])
        == closed + [MessageDelta(reason)] + [MessageStop];
  }

  /** The ending adds no content. */
  lemma ClosingContent(es: seq<Event>, indices: seq<int>, reason: string, j: int)
    ensures var es' := es + (Stops(indices) + [MessageDelta(reason), MessageStop]);
      TextOf(es') == TextOf(es) && JsonOf(es', j) == JsonOf(es, j) && HeadOf(es', j) == HeadOf(es, j)
  {
    var closed := es + Stops(indices);
    StopsContent(es, indices, j);
    ContentSnoc(closed, MessageDelta(reason), j);
    ContentSnoc(closed + [MessageDelta(reason)], MessageStop, j);
    assert es + (Stops(indices) + [MessageDelta(reason), MessageStop])
        == closed + [MessageDelta(reason)] + [MessageStop];
    HeadAppend(es, Stops(indices) + [MessageDelta(reason), MessageStop], j);
  }

  /** The last finish reason that was given at all. */
  function LastFinish(ops: seq<Op>): Reason {
    if ops == [] then Absent else
      var op := ops[|ops| - 1];
      if op.Because? && !op.finish.Absent? then op.finish else LastFinish(ops[..|ops| - 1])
  }

  lemma {:induction false} RunReason(ops: seq<Op>)
    requires !Run(NEW_STATE, ops).aborted
    ensures Run(NEW_STATE, ops).stopReason == if LastFinish(ops).Absent? then "" else MapFinishReason(LastFinish(ops))
    decreases |ops|
  {
    if ops != [] {
      RunReason(ops[..|ops| - 1]);
      StepReason(Run(NEW_STATE, ops[..|ops| - 1]), ops[|ops| - 1]);
    }
  }

  lemma StepReason(s: State, op: Op)
    requires !s.aborted
    ensures Step(s, op).stopReason == if op.Because? && !op.finish.Absent? then MapFinishReason(op.finish)
        else s.stopReason
  {
  }

  predicate Succeeds(s: State) {
    Parse(s.out).Some? && Parse(s.out).value.phase == Finished
  }

  /** What a client of a finished stream has for each tool index, against what was asked for. */
  ghost predicate ToolDelivered(out: seq<Event>, block: map<int, int>, ops: seq<Op>, k: int) {
    if k in block then
      HeadOf(out, block[k]) == Announced(ops, k) && Announced(ops, k).Some? && JsonOf(out, block[k]) == Args(ops, k)
    else
      Announced(ops, k).None? && IdOf(ops, k) == "" && NameOf(ops, k) == "" && Args(ops, k) == ""
  }

  /** A finished stream has every text delta in order and, in a block of its own for each tool
      index ever mentioned, that tool's announced id and name and all its argument fragments,
      the ones that came before the announcement included; other blocks are text. */
  ghost predicate Delivered(out: seq<Event>, block: map<int, int>, ops: seq<Op>) {
    && TextOf(out) == Said(ops)
    && (forall k :: ToolDelivered(out, block, ops, k))
    && (forall k, q | k in block && q in block && block[k] == block[q] :: k == q)
    && (forall j :: j !in block.Values ==> JsonOf(out, j) == "")
    && (Parse(out).Some? ==> forall j | 0 <= j < Parse(out).value.next && j !in block.Values ::
        HeadOf(out, j) == Some(TEXT_HEAD))
  }

  function BlockMap(s: State): map<int, int> {
    map k | k in s.tools && s.tools[k].started :: s.tools[k].blockIndex
  }

  lemma MentionedIsDelivered(s: State, ops: seq<Op>, out: seq<Event>, isObject: string -> bool, k: int)
    requires Books(s) && Faithful(s, ops) && Headed(s, ops) && AllGood(s, isObject)
    requires forall j :: JsonOf(out, j) == JsonOf(s.out, j) && HeadOf(out, j) == HeadOf(s.out, j)
    ensures ToolDelivered(out, BlockMap(s), ops, k)
  {
    assert ToolFaithful(s, ops, k) && ToolHeaded(s, ops, k);
    if k in s.tools { assert !BadTool(s.tools[k], isObject); }
  }

  lemma BlocksAreDistinct(s: State)
    requires Books(s)
    ensures forall k, q | k in BlockMap(s) && q in BlockMap(s) && BlockMap(s)[k] == BlockMap(s)[q] :: k == q
    ensures forall j :: j in BlockMap(s).Values <==> j in ToolBlocks(s)
  {
    forall k, q | k in BlockMap(s) && q in BlockMap(s) && k != q ensures BlockMap(s)[k] != BlockMap(s)[q] {
      OwnBlock(s, k, q);
    }
    forall j | j in BlockMap(s).Values ensures j in ToolBlocks(s) {
      var k :| k in BlockMap(s) && BlockMap(s)[k] == j;
      StartedIsOpen(s, k);
    }
    forall j | j in ToolBlocks(s) ensures j in BlockMap(s).Values {
      var i :| 0 <= i < |s.toolOrder| && ToolBlocks(s)[i] == j;
      assert s.toolOrder[i] in BlockMap(s) && BlockMap(s)[s.toolOrder[i]] == j;
    }
  }

  lemma FinishDelivers(s: State, ops: seq<Op>, reason: string, isObject: string -> bool)
    requires Inv(s, ops) && Headed(s, ops) && s.started && !s.terminated && reason != ""
    requires AllGood(s, isObject)
    ensures Delivered(Finish(s, reason, isObject).out, BlockMap(s), ops)
  {
    var out := Finish(s, reason, isObject).out;
    forall j
      ensures TextOf(out) == TextOf(s.out) && JsonOf(out, j) == JsonOf(s.out, j) && HeadOf(out, j) == HeadOf(s.out, j)
    {
      ClosingContent(s.out, OpenBlocks(s), reason, j);
    }
    FinishParse(s, reason, isObject);
    BlocksAreDistinct(s);
    forall k ensures ToolDelivered(out, BlockMap(s), ops, k) {
      MentionedIsDelivered(s, ops, out, isObject, k);
    }
  }

  lemma SuccessMeans(c: Conv, frames: seq<Frame>, broken: bool, isObject: string -> bool)
    requires Follows(c, frames) && Ordered(c.state) && Succeeds(Close(c, broken, isObject))
    ensures var s := c.state;
      && !s.aborted && !s.terminated && s.started && s == Run(NEW_STATE, Heard(frames)) && AllGood(s, isObject)
      && Close(c, broken, isObject) == Finish(s, StopReason(s), isObject)
  {
    var s := c.state;
    RunKeeps(Heard(frames));
    if !s.terminated {
      FailCuts(s);
      assert !s.aborted && s.started by { assert Parsed(s); }
      assert Close(c, broken, isObject) != Fail(s);
    }
  }

  lemma EndingOf(s: State, reason: string, isObject: string -> bool)
    requires Ordered(s) && !s.terminated && AllGood(s, isObject)
    ensures var s' := Finish(s, reason, isObject);
      && |s'.out| >= 2 && s'.out[|s'.out| - 1] == MessageStop && s'.out[|s'.out| - 2] == MessageDelta(reason)
      && BlockMap(s') == BlockMap(s)
  {
  }

  lemma AnyBlock(s: State)
    requires Books(s)
    ensures |s.toolOrder| > 0 <==> BlockMap(s) != map[]
  {
    if |s.toolOrder| > 0 {
      var k := s.toolOrder[0];
      assert k in s.toolOrder && k in s.tools && s.tools[k].started;
      assert BlockMap(s)[k] == s.tools[k].blockIndex;
    } else {
      forall k | k in BlockMap(s) ensures false {
        StartedIsOpen(s, k);
      }
      assert BlockMap(s).Keys == {};
    }
  }

  /** What a client is told about the end, by the last reason given and, where none was, by
      whether the message calls a tool. */
  predicate Tells(reason: string, last: Reason, callsTool: bool) {
    && (reason == "max_tokens" <==> last.Length?)
    && (reason == "refusal" <==> last.ContentFilter?)
    && (reason == "tool_use" <==> last.ToolCalls? || last.FunctionCall? || (last.Absent? && callsTool))
    && (reason == "end_turn" <==> last.Stop? || last.Other? || (last.Absent? && !callsTool))
  }

  ghost predicate Whole(s: State, ops: seq<Op>) {
    && Delivered(s.out, BlockMap(s), ops)
    && |s.out| >= 2 && s.out[|s.out| - 1] == MessageStop && s.out[|s.out| - 2].MessageDelta?
    && Tells(s.out[|s.out| - 2].stopReason, LastFinish(ops), BlockMap(s) != map[])
  }

  lemma FinishedIsWhole(s: State, ops: seq<Op>, isObject: string -> bool)
    requires Inv(s, ops) && Headed(s, ops) && s.started && !s.terminated && AllGood(s, isObject)
    requires s.stopReason == if LastFinish(ops).Absent? then "" else MapFinishReason(LastFinish(ops))
    ensures Whole(Finish(s, StopReason(s), isObject), ops)
  {
    var reason := StopReason(s);
    var s' := Finish(s, reason, isObject);
    AnyBlock(s);
    EndingOf(s, reason, isObject);
    FinishDelivers(s, ops, reason, isObject);
    assert BlockMap(s') == BlockMap(s);
    assert Tells(reason, LastFinish(ops), BlockMap(s) != map[]);
  }

  lemma RunIsWhole(ops: seq<Op>, isObject: string -> bool)
    requires ops != [] ==> ops[0] == Begin
    requires var s := Run(NEW_STATE, ops);
        s.started && !s.aborted && !s.terminated && Ordered(s) && AllGood(s, isObject)
    ensures Whole(Finish(Run(NEW_STATE, ops), StopReason(Run(NEW_STATE, ops)), isObject), ops)
  {
    RunKeeps(ops);
    RunHeads(ops);
    RunReason(ops);
    FinishedIsWhole(Run(NEW_STATE, ops), ops, isObject);
  }

  /** What a client has after a successful translation: all that was asked for, and the reason. */
  lemma SuccessDelivers(frames: seq<Frame>, end: End, isObject: string -> bool)
    requires Succeeds(Translate(frames, end, isObject))
    ensures Whole(Translate(frames, end, isObject), Heard(All(frames, end)))
  {
    EndFollows(frames, end);
    FramesOrdered(frames, end);
    var c := Ended(ReceiveAll(frames), end);
    SuccessMeans(c, All(frames, end), Broken(c, end), isObject);
    RunIsWhole(Heard(All(frames, end)), isObject);
  }

  // ---------- what was asked for, by the chunks ----------

  /** The choices of the chunks received before the stream was done. */
  function Taken(frames: seq<Frame>): seq<Choice> {
    if frames == [] then [] else
      var init, f := frames[..|frames| - 1], frames[|frames| - 1];
      if f.Data? && DoneMark !in init then Taken(init) + f.chunk.choices else Taken(init)
  }

  function TextAsked(cs: seq<Choice>): string {
    if cs == [] then "" else TextAsked(cs[..|cs| - 1]) + cs[|cs| - 1].content
  }

  function FragmentsAsked(cs: seq<Choice>): seq<Fragment> {
    if cs == [] then [] else FragmentsAsked(cs[..|cs| - 1]) + cs[|cs| - 1].tools
  }

  function FinishAsked(cs: seq<Choice>): Reason {
    if cs == [] then Absent
    else if !cs[|cs| - 1].finish.Absent? then cs[|cs| - 1].finish
    else FinishAsked(cs[..|cs| - 1])
  }

  function CallsIn(ops: seq<Op>): seq<Fragment> {
    if ops == [] then [] else
      var init, op := CallsIn(ops[..|ops| - 1]), ops[|ops| - 1];
      if op.Call? then init + [op.fragment] else init
  }

  /** Operations that ask for a text, tool fragments and an ending. */
  predicate AskFor(ops: seq<Op>, text: string, fragments: seq<Fragment>, finish: Reason) {
    Said(ops) == text && CallsIn(ops) == fragments && LastFinish(ops) == finish
  }

  lemma AskSnoc(ops: seq<Op>, op: Op)
    ensures AskFor(ops + [op],
                Said(ops) + if op.Say? then op.text else "",
                if op.Call? then CallsIn(ops) + [op.fragment] else CallsIn(ops),
                if op.Because? && !op.finish.Absent? then op.finish else LastFinish(ops))
  {
    assert (ops + [op])[..|ops|] == ops;
  }

  /** The operations of two lists ask for what both ask for. */
  predicate AskTogether(a: seq<Op>, b: seq<Op>, all: seq<Op>) {
    AskFor(all, Said(a) + Said(b), CallsIn(a) + CallsIn(b),
           if LastFinish(b).Absent? then LastFinish(a) else LastFinish(b))
  }

  lemma AskMore(a: seq<Op>, b: seq<Op>, all: seq<Op>, op: Op)
    requires AskTogether(a, b, all)
    ensures AskTogether(a, b + [op], all + [op])
  {
    AskSnoc(b, op);
    AskSnoc(all, op);
  }

  lemma {:induction false} AskAppend(a: seq<Op>, b: seq<Op>)
    ensures AskTogether(a, b, a + b)
    decreases |b|
  {
    if b == [] {
      assert a + b == a;
    } else {
      var init, op := b[..|b| - 1], b[|b| - 1];
      AskAppend(a, init);
      AskMore(a, init, a + init, op);
      assert a + b == a + init + [op] && b == init + [op];
    }
  }

  lemma {:induction false} CallsAsk(fs: seq<Fragment>)
    ensures AskFor(Calls(fs), "", fs, Absent)
    decreases |fs|
  {
    if fs != [] {
      var init, f := fs[..|fs| - 1], fs[|fs| - 1];
      CallsAsk(init);
      AskSnoc(Calls(init), Call(f));
      assert Calls(fs) == Calls(init) + [Call(f)];
    }
  }

  lemma ChoiceAsks(c: Choice)
    ensures AskFor(ChoiceOps(c), c.content, c.tools, c.finish)
  {
    CallsAsk(c.tools);
    AskSnoc([], Say(c.content));
    AskAppend([Say(c.content)], Calls(c.tools));
    AskSnoc([Say(c.content)] + Calls(c.tools), Because(c.finish));
    assert [] + [Say(c.content)] == [Say(c.content)];
  }

  lemma {:induction false} ChoicesAsk(cs: seq<Choice>)
    ensures AskFor(ChoicesOps(cs), TextAsked(cs), FragmentsAsked(cs), FinishAsked(cs))
    decreases |cs|
  {
    if cs != [] {
      var init := cs[..|cs| - 1];
      ChoicesAsk(init);
      ChoiceAsks(cs[|cs| - 1]);
      AskAppend(ChoicesOps(init), ChoiceOps(cs[|cs| - 1]));
    }
  }

  lemma AskedSnoc(cs: seq<Choice>, c: Choice)
    ensures TextAsked(cs + [c]) == TextAsked(cs) + c.content
    ensures FragmentsAsked(cs + [c]) == FragmentsAsked(cs) + c.tools
    ensures FinishAsked(cs + [c]) == if c.finish.Absent? then FinishAsked(cs) else c.finish
  {
    assert (cs + [c])[..|cs|] == cs;
  }

  predicate AskedTogether(a: seq<Choice>, b: seq<Choice>, all: seq<Choice>) {
    && TextAsked(all) == TextAsked(a) + TextAsked(b)
    && FragmentsAsked(all) == FragmentsAsked(a) + FragmentsAsked(b)
    && FinishAsked(all) == if FinishAsked(b).Absent? then FinishAsked(a) else FinishAsked(b)
  }

  lemma AskedMore(a: seq<Choice>, b: seq<Choice>, all: seq<Choice>, c: Choice)
    requires AskedTogether(a, b, all)
    ensures AskedTogether(a, b + [c], all + [c])
  {
    AskedSnoc(b, c);
    AskedSnoc(all, c);
  }

  lemma {:induction false} AskedAppend(a: seq<Choice>, b: seq<Choice>)
    ensures AskedTogether(a, b, a + b)
    decreases |b|
  {
    if b == [] {
      assert a + b == a;
    } else {
      var init, c := b[..|b| - 1], b[|b| - 1];
      AskedAppend(a, init);
      AskedMore(a, init, a + init, c);
      assert b == init + [c] && a + b == a + init + [c];
    }
  }

  lemma ChunkAsks(c: Chunk)
    ensures AskFor(ChunkOps(c), TextAsked(c.choices), FragmentsAsked(c.choices), FinishAsked(c.choices))
  {
    ChoicesAsk(c.choices);
    AskSnoc([], Begin);
    assert [] + [Begin] == [Begin];
    AskAppend([Begin], ChoicesOps(c.choices));
  }

  ghost predicate HeardFrom(frames: seq<Frame>) {
    var cs := Taken(frames);
    AskFor(Heard(frames), TextAsked(cs), FragmentsAsked(cs), FinishAsked(cs))
  }

  lemma ChunkHeard(frames: seq<Frame>, c: Chunk)
    requires HeardFrom(frames) && DoneMark !in frames
    ensures HeardFrom(frames + [Data(c)])
  {
    ChunkAsks(c);
    AskAppend(Heard(frames), ChunkOps(c));
    AskedAppend(Taken(frames), c.choices);
    HeardSnoc(frames, Data(c));
    assert (frames + [Data(c)])[..|frames|] == frames;
  }

  lemma NothingHeard(frames: seq<Frame>, f: Frame)
    requires HeardFrom(frames) && !(f.Data? && DoneMark !in frames)
    ensures HeardFrom(frames + [f])
  {
    HeardSnoc(frames, f);
    assert (frames + [f])[..|frames|] == frames;
  }

  /** What is heard is what the chunks say: the text of all their choices, their tool fragments
      and the last reason given, in the order they came. */
  lemma {:induction false} HeardIsTaken(frames: seq<Frame>)
    ensures HeardFrom(frames)
    decreases |frames|
  {
    if frames != [] {
      var init, f := frames[..|frames| - 1], frames[|frames| - 1];
      HeardIsTaken(init);
      assert frames == init + [f];
      if f.Data? && DoneMark !in init {
        ChunkHeard(init, f.chunk);
      } else {
        NothingHeard(init, f);
      }
    }
  }

  /** What is known about a tool depends on the fragments alone. */
  lemma {:induction false} ToolsByFragments(ops: seq<Op>, k: int)
    ensures SameTool(ops, Calls(CallsIn(ops)), k)
    decreases |ops|
  {
    if ops != [] {
      var init, op := ops[..|ops| - 1], ops[|ops| - 1];
      ToolsByFragments(init, k);
      assert ops == init + [op];
      if op.Call? {
        AskSnoc(init, op);
        SameToolMore(init, Calls(CallsIn(init)), op.fragment, k);
        assert Calls(CallsIn(ops)) == Calls(CallsIn(init)) + [op];
      }
    }
  }

  predicate SameTool(ops: seq<Op>, others: seq<Op>, k: int) {
    && Args(ops, k) == Args(others, k) && IdOf(ops, k) == IdOf(others, k) && NameOf(ops, k) == NameOf(others, k)
    && Announced(ops, k) == Announced(others, k)
  }

  lemma SameToolMore(ops: seq<Op>, others: seq<Op>, f: Fragment, k: int)
    requires SameTool(ops, others, k)
    ensures SameTool(ops + [Call(f)], others + [Call(f)], k)
  {
    assert (ops + [Call(f)])[..|ops|] == ops;
    assert (others + [Call(f)])[..|others|] == others;
  }

  // ---------- exactly when a translation succeeds ----------

  /** No malformed or error frame comes before the stream is marked done. */
  predicate Clean(frames: seq<Frame>) {
    forall i :: 0 <= i < |frames| && (frames[i].Malformed? || frames[i].Failure?) ==> DoneMark in frames[..i]
  }

  /** A tool index was never really used, or was announced; and its arguments are an object. */
  ghost predicate Complete(ops: seq<Op>, k: int, isObject: string -> bool) {
    && (Announced(ops, k).Some? || (IdOf(ops, k) == "" && NameOf(ops, k) == "" && Args(ops, k) == ""))
    && isObject(Args(ops, k))
  }

  lemma CleanSnoc(frames: seq<Frame>, f: Frame)
    ensures Clean(frames + [f]) <==> Clean(frames) && (f.Malformed? || f.Failure? ==> DoneMark in frames)
  {
    var all := frames + [f];
    assert all[..|frames|] == frames;
    forall i | 0 <= i < |frames| ensures all[i] == frames[i] && all[..i] == frames[..i] {}
    if Clean(all) {
      forall i | 0 <= i < |frames| && (frames[i].Malformed? || frames[i].Failure?) ensures DoneMark in frames[..i] {
        assert all[i] == frames[i];
      }
      assert all[|frames|] == f;
    }
  }

  lemma ReceiveClean(c: Conv, frames: seq<Frame>, f: Frame)
    requires Follows(c, frames) && (!c.state.aborted ==> (c.state.terminated <==> !Clean(frames)))
    ensures var c' := Receive(c, f); !c'.state.aborted ==> (c'.state.terminated <==> !Clean(frames + [f]))
  {
    CleanSnoc(frames, f);
    if f.Data? && !Stopped(c) {
      RunMore(Heard(frames), ChunkOps(f.chunk));
    }
  }

  lemma {:induction false} TerminatedIffUnclean(frames: seq<Frame>)
    ensures var c := ReceiveAll(frames); !c.state.aborted ==> (c.state.terminated <==> !Clean(frames))
    decreases |frames|
  {
    if frames != [] {
      var init, f := frames[..|frames| - 1], frames[|frames| - 1];
      TerminatedIffUnclean(init);
      AllFollow(init);
      ReceiveClean(ReceiveAll(init), init, f);
      assert init + [f] == frames;
    }
  }

  /** Buffered and forwarded pieces are never empty. */
  predicate NoEmptyPieces(s: State) {
    forall k | k in s.tools :: forall i | 0 <= i < |s.tools[k].fragments| :: s.tools[k].fragments[i] != ""
  }

  lemma NotedPieces(s: State, f: Fragment)
    requires NoEmptyPieces(s)
    ensures NoEmptyPieces(NotedIn(s, f))
    ensures forall i | 0 <= i < |Present(s, f).fragments| :: Present(s, f).fragments[i] != ""
  {
  }

  lemma OpenPieces(s: State, k: int)
    requires NoEmptyPieces(s) && k in s.tools
    ensures NoEmptyPieces(OpenTool(s, k))
  {
  }

  lemma CallPieces(s: State, f: Fragment)
    requires NoEmptyPieces(s) && !s.aborted && !CallOp(s, f).aborted
    ensures NoEmptyPieces(CallOp(s, f))
  {
    CallCases(s, f);
    NotedPieces(s, f);
    OpenPieces(NotedIn(s, f), f.index);
  }

  lemma {:induction false} RunPieces(ops: seq<Op>)
    requires !Run(NEW_STATE, ops).aborted
    ensures NoEmptyPieces(Run(NEW_STATE, ops))
    decreases |ops|
  {
    if ops != [] {
      var s, op := Run(NEW_STATE, ops[..|ops| - 1]), ops[|ops| - 1];
      RunPieces(ops[..|ops| - 1]);
      if op.Call? && !s.aborted { CallPieces(s, op.fragment); }
    }
  }

  lemma JoinedEmpty(parts: seq<string>)
    requires forall i | 0 <= i < |parts| :: parts[i] != ""
    ensures Join(parts) == "" <==> parts == []
  {
    if parts != [] {
      assert |Join(parts)| >= |parts[|parts| - 1]| > 0;
    }
  }

  lemma GoodIffComplete(s: State, ops: seq<Op>, isObject: string -> bool, k: int)
    requires Books(s) && Faithful(s, ops) && Headed(s, ops) && NoEmptyPieces(s) && isObject("")
    ensures Complete(ops, k, isObject) <==> (k in s.tools ==> !BadTool(s.tools[k], isObject))
  {
    assert ToolFaithful(s, ops, k) && ToolHeaded(s, ops, k);
    if k in s.tools { JoinedEmpty(s.tools[k].fragments); }
  }

  /** What decides the outcome once the frames are in. */
  lemma ClosesWell(c: Conv, frames: seq<Frame>, broken: bool, isObject: string -> bool)
    requires Follows(c, frames) && Ordered(c.state) && isObject("")
    ensures var ops := Heard(frames);
      Succeeds(Close(c, broken, isObject)) <==>
        && !c.state.aborted && !c.state.terminated && ops != [] && !broken
        && (DoneMark in frames || !LastFinish(ops).Absent?) && forall k :: Complete(ops, k, isObject)
  {
    var ops := Heard(frames);
    var s := c.state;
    RunKeeps(ops);
    if !s.terminated { FailCuts(s); }
    if !s.aborted && !s.terminated && s.started {
      RunHeads(ops);
      RunReason(ops);
      RunPieces(ops);
      FinishParse(s, StopReason(s), isObject);
      forall k ensures Complete(ops, k, isObject) <==> (k in s.tools ==> !BadTool(s.tools[k], isObject)) {
        GoodIffComplete(s, ops, isObject, k);
      }
    }
  }

  lemma EndedIs(frames: seq<Frame>, end: End)
    ensures ReceiveAll(All(frames, end)) == Ended(ReceiveAll(frames), end)
  {
    if end.trailing.Some? {
      assert All(frames, end)[..|frames|] == frames;
    } else {
      assert All(frames, end) == frames;
    }
  }

  lemma StoppedWhenDone(frames: seq<Frame>, end: End)
    requires var c := Ended(ReceiveAll(frames), end); !c.state.aborted && !c.state.terminated
    ensures Stopped(ReceiveAll(frames)) <==> DoneMark in frames
  {
    AllFollow(frames);
  }

  /** A translation succeeds exactly when no limit was exceeded, nothing malformed came before
      the end, something was said, the source did not break off, it signalled completion by a
      finish reason or the done marker, and every tool call is announced with object arguments. */
  lemma SucceedsExactlyWhen(frames: seq<Frame>, end: End, isObject: string -> bool)
    requires isObject("")
    ensures var all := All(frames, end);
      var ops := Heard(all);
      Succeeds(Translate(frames, end, isObject)) <==>
        && !Run(NEW_STATE, ops).aborted && Clean(all) && ops != [] && (end.broken ==> DoneMark in frames)
        && (DoneMark in all || !LastFinish(ops).Absent?) && forall k :: Complete(ops, k, isObject)
  {
    var all := All(frames, end);
    var c := Ended(ReceiveAll(frames), end);
    EndFollows(frames, end);
    FramesOrdered(frames, end);
    EndedIs(frames, end);
    TerminatedIffUnclean(all);
    if !c.state.aborted && !c.state.terminated { StoppedWhenDone(frames, end); }
    RunNeverTerminates(Heard(all));
    ClosesWell(c, all, Broken(ReceiveAll(frames), end), isObject);
  }
}
