/** The translator as it runs: fields updated in place, events written as it goes. */
module OpenAIConverter {
  import opened Wrappers
  import opened StreamEvents
  import opened OpenAIStream
  import opened OpenAITranslator

  lemma RunSnoc(s: State, ops: seq<Op>, op: Op)
    ensures Run(s, ops + [op]) == Step(Run(s, ops), op)
  {
    assert (ops + [op])[..|ops|] == ops;
  }

  /** Once cut, the rest of the operations change nothing. */
  lemma CutShort(s: State, done: seq<Op>, rest: seq<Op>)
    requires Run(s, done).aborted
    ensures Run(s, done + rest) == Run(s, done)
  {
    RunAppend(s, done, rest);
    AbortedRun(Run(s, done), rest);
  }

  /** The operations of a choice up to its `i`-th tool fragment. */
  function Asked(c: Choice, i: nat): seq<Op>
    requires i <= |c.tools|
  {
    [Say(c.content)] + Calls(c.tools[..i])
  }

  lemma AskedFirst(s: State, c: Choice)
    requires !s.aborted
    ensures Run(s, Asked(c, 0)) == SayOp(s, c.content)
  {
    var none: seq<Op> := [];
    assert Calls(c.tools[..0]) == [];
    assert Asked(c, 0) == none + [Say(c.content)];
    RunSnoc(s, none, Say(c.content));
  }

  lemma AskedExtends(c: Choice, i: nat)
    requires i < |c.tools|
    ensures Asked(c, i) + [Call(c.tools[i])] == Asked(c, i + 1)
  {
  }

  lemma AskedNext(s: State, c: Choice, i: nat)
    requires i < |c.tools| && !Run(s, Asked(c, i)).aborted
    ensures Run(s, Asked(c, i + 1)) == CallOp(Run(s, Asked(c, i)), c.tools[i])
  {
    AskedExtends(c, i);
    RunSnoc(s, Asked(c, i), Call(c.tools[i]));
  }

  lemma AskedAll(s: State, c: Choice)
    requires !Run(s, Asked(c, |c.tools|)).aborted
    ensures
      var s' := Run(s, Asked(c, |c.tools|));
      Run(s, ChoiceOps(c)) == if c.finish.Absent? then s' else s'.(stopReason := MapFinishReason(c.finish))
  {
    assert c.tools[..|c.tools|] == c.tools;
    assert ChoiceOps(c) == Asked(c, |c.tools|) + [Because(c.finish)];
    RunSnoc(s, Asked(c, |c.tools|), Because(c.finish));
  }

  lemma AskedCut(s: State, c: Choice, i: nat)
    requires i <= |c.tools| && Run(s, Asked(c, i)).aborted
    ensures Run(s, ChoiceOps(c)) == Run(s, Asked(c, i))
  {
    var rest := Calls(c.tools[i..]) + [Because(c.finish)];
    CutShort(s, Asked(c, i), rest);
    assert Asked(c, i) + rest == ChoiceOps(c);
  }

  /** The operations of a chunk up to its `i`-th choice. */
  function Opened(chunk: Chunk, i: nat): seq<Op>
    requires i <= |chunk.choices|
  {
    [Begin] + ChoicesOps(chunk.choices[..i])
  }

  lemma OpenedFirst(s: State, chunk: Chunk)
    requires !s.aborted
    ensures Run(s, Opened(chunk, 0)) == if s.started then s else Write(s.(started := true), [MessageStart])
  {
    RunSnoc(s, [], Begin);
    assert [] + [Begin] == Opened(chunk, 0);
  }

  lemma OpenedExtends(chunk: Chunk, i: nat)
    requires i < |chunk.choices|
    ensures Opened(chunk, i) + ChoiceOps(chunk.choices[i]) == Opened(chunk, i + 1)
  {
    assert chunk.choices[..i + 1][..i] == chunk.choices[..i];
    assert [Begin] + (ChoicesOps(chunk.choices[..i]) + ChoiceOps(chunk.choices[i]))
        == [Begin] + ChoicesOps(chunk.choices[..i]) + ChoiceOps(chunk.choices[i]);
  }

  lemma OpenedNext(s: State, chunk: Chunk, i: nat)
    requires i < |chunk.choices|
    ensures Run(s, Opened(chunk, i + 1)) == Run(Run(s, Opened(chunk, i)), ChoiceOps(chunk.choices[i]))
  {
    OpenedExtends(chunk, i);
    RunAppend(s, Opened(chunk, i), ChoiceOps(chunk.choices[i]));
  }

  lemma {:induction false} OpenedCut(s: State, chunk: Chunk, i: nat)
    requires i <= |chunk.choices| && Run(s, Opened(chunk, i)).aborted
    ensures Run(s, ChunkOps(chunk)) == Run(s, Opened(chunk, i))
    decreases |chunk.choices| - i
  {
    if i == |chunk.choices| {
      assert chunk.choices[..i] == chunk.choices;
    } else {
      OpenedNext(s, chunk, i);
      AbortedRun(Run(s, Opened(chunk, i)), ChoiceOps(chunk.choices[i]));
      OpenedCut(s, chunk, i + 1);
    }
  }

  lemma EndingIs(written: seq<Event>, text: seq<int>, blocks: seq<int>, reason: string)
    ensures written + Stops(text) + Stops(blocks) + [MessageDelta(reason)] + [MessageStop]
         == written + (Stops(text + blocks) + [MessageDelta(reason), MessageStop])
  {
    assert Stops(text + blocks) == Stops(text) + Stops(blocks);
  }

  /** A fragment's tool with id, name and size noted; then with its arguments. */
  function WithNames(s: State, f: Fragment): State {
    s.(tools := s.tools[f.index := Named(Present(s, f), f)], argumentBytes := s.argumentBytes + |f.arguments|)
  }

  function WithArguments(s: State, f: Fragment): State
    requires f.index in s.tools
  {
    var t := s.tools[f.index];
    if f.arguments == "" then s
    else if t.started then
      Write(s.(tools := s.tools[f.index := t.(fragments := t.fragments + [f.arguments])]),
            [BlockDelta(Some(t.blockIndex), JsonDelta(f.arguments))])
    else s.(tools := s.tools[f.index := t.(pending := t.pending + [f.arguments],
                                           fragments := t.fragments + [f.arguments])])
  }

  lemma ArgumentsNoted(s: State, f: Fragment)
    ensures var s2 := WithArguments(WithNames(s, f), f);
      s2 == if Present(s, f).started && f.arguments != "" then Forward(s, f) else NotedIn(s, f)
  {
    assert (s.tools[f.index := Named(Present(s, f), f)])[f.index := Noted(Present(s, f), f)]
        == s.tools[f.index := Noted(Present(s, f), f)];
  }

  /** The steps of one fragment that is within the limits. */
  lemma CallInSteps(s: State, f: Fragment)
    requires f.index in s.tools || |s.tools| < MAX_TOOL_CALLS
    requires s.argumentBytes + |f.arguments| <= MAX_ARGUMENT_BYTES
    ensures var s2 := WithArguments(WithNames(s, f), f);
      var t := s2.tools[f.index];
      CallOp(s, f) == if !t.started && t.id != "" && t.name != "" then OpenTool(s2, f.index) else s2
  {
    ArgumentsNoted(s, f);
  }

  class Converter {
    var started: bool
    var terminated: bool
    var textOpen: bool
    var textIndex: int
    var nextBlock: nat
    var tools: map<int, Tool>
    var toolOrder: seq<int>
    var stopReason: string
    var argumentBytes: nat
    var out: seq<Event>

    /** The fields as one value; `failed` tells whether processing returned an error. */
    ghost function View(failed: bool): State
      reads this
    {
      State(started, terminated, failed, textOpen, textIndex, nextBlock, tools, toolOrder, stopReason, argumentBytes,
          out)
    }

    constructor ()
      ensures View(false) == NEW_STATE
    {
      started, terminated, textOpen, textIndex, nextBlock := false, false, false, -1, 0;
      tools, toolOrder, stopReason, argumentBytes, out := map[], [], "", 0, [];
    }

    method Emit(e: Event)
      modifies this`out
      ensures out == old(out) + [e]
    {
      out := out + [e];
    }

    /** Looks the tool up or adds it, and notes the id, the name and the size. */
    method NoteFragment(f: Fragment) returns (failed: bool)
      modifies this`tools, this`argumentBytes
      ensures
        var s := old(View(false));
        var full := f.index !in s.tools && |s.tools| >= MAX_TOOL_CALLS;
        && (failed <==> full || s.argumentBytes + |f.arguments| > MAX_ARGUMENT_BYTES)
        && View(false) == if full then s else WithNames(s, f)
    {
      var tool := NEW_TOOL;
      if f.index in tools {
        tool := tools[f.index];
      } else if |tools| >= MAX_TOOL_CALLS {
        return true;
      }
      if f.id != "" {
        tool := tool.(id := f.id);
      }
      if f.name != "" {
        tool := tool.(name := f.name);
      }
      tools := tools[f.index := tool];
      argumentBytes := argumentBytes + |f.arguments|;
      return argumentBytes > MAX_ARGUMENT_BYTES;
    }

    /** Notes the arguments of a fragment whose tool is there: kept for a block that has not
        started, written to one that has. */
    method NoteArguments(f: Fragment)
      requires f.index in tools
      modifies this`tools, this`out
      ensures View(false) == WithArguments(old(View(false)), f)
    {
      var tool := tools[f.index];
      if f.arguments == "" {
        return;
      }
      if tool.started {
        tools := tools[f.index := tool.(fragments := tool.fragments + [f.arguments])];
        Emit(BlockDelta(Some(tool.blockIndex), JsonDelta(f.arguments)));
      } else {
        tools := tools[f.index := tool.(pending := tool.pending + [f.arguments],
            fragments := tool.fragments + [f.arguments])];
      }
    }

    /** One fragment: an error return leaves the stream cut, with no event for it. */
    method ProcessToolCall(f: Fragment) returns (failed: bool)
      modifies this
      ensures View(failed) == CallOp(old(View(false)), f)
    {
      ghost var s := View(false);
      failed := NoteFragment(f);
      if failed {
        return;
      }
      CallInSteps(s, f);
      NoteArguments(f);
      var tool := tools[f.index];
      if !tool.started && tool.id != "" && tool.name != "" {
        StartBlock(f.index);
      }
    }

    method WritePending(index: int, parts: seq<string>)
      modifies this`out
      ensures out == old(out) + JsonDeltas(index, parts)
    {
      var i := 0;
      while i < |parts|
        invariant 0 <= i <= |parts|
        invariant out == old(out) + JsonDeltas(index, parts[..i])
      {
        DeltasSnoc(old(out), index, parts[..i + 1]);
        assert parts[..i + 1][..i] == parts[..i];
        Emit(BlockDelta(Some(index), JsonDelta(parts[i])));
        i := i + 1;
      }
      assert parts[..i] == parts;
    }

    /** Closes an open text block, then starts the tool's block and writes what it had buffered. */
    method StartBlock(k: int)
      requires k in tools
      modifies this
      ensures View(false) == OpenTool(old(View(false)), k)
    {
      OpenToolIs(View(false), k);
      if textOpen {
        Emit(BlockStop(Some(textIndex)));
        textOpen := false;
      }
      ghost var s := View(false);
      var tool := tools[k];
      StartOut(s, k);
      tools := tools[k := tool.(blockIndex := nextBlock, started := true, pending := [])];
      toolOrder := toolOrder + [k];
      Emit(BlockStart(Some(nextBlock), Head("tool_use", tool.id, tool.name)));
      WritePending(nextBlock, tool.pending);
      nextBlock := nextBlock + 1;
    }

    method SayText(text: string)
      modifies this
      ensures View(false) == SayOp(old(View(false)), text)
    {
      if text != "" {
        if !textOpen {
          textOpen, textIndex, nextBlock := true, nextBlock, nextBlock + 1;
          Emit(BlockStart(Some(textIndex), TEXT_HEAD));
        }
        Emit(BlockDelta(Some(textIndex), TextDelta(text)));
      }
    }

    /** The tool fragments of a choice whose text has been said, up to the first error. */
    method ProcessToolCalls(c: Choice, ghost s: State) returns (failed: bool)
      requires View(false) == Run(s, Asked(c, 0))
      modifies this
      ensures View(failed) == Run(s, if failed then ChoiceOps(c) else Asked(c, |c.tools|))
    {
      var i := 0;
      failed := false;
      while i < |c.tools| && !failed
        invariant 0 <= i <= |c.tools|
        invariant View(failed) == Run(s, Asked(c, i))
      {
        AskedNext(s, c, i);
        failed := ProcessToolCall(c.tools[i]);
        i := i + 1;
      }
      if failed {
        AskedCut(s, c, i);
      }
    }

    method NoteFinish(reason: Reason)
      modifies this`stopReason
      ensures stopReason == if reason.Absent? then old(stopReason) else MapFinishReason(reason)
    {
      if !reason.Absent? {
        stopReason := MapFinishReason(reason);
      }
    }

    method ProcessChoice(c: Choice) returns (failed: bool)
      modifies this
      ensures View(failed) == Run(old(View(false)), ChoiceOps(c))
    {
      ghost var s := View(false);
      AskedFirst(s, c);
      SayText(c.content);
      failed := ProcessToolCalls(c, s);
      if !failed {
        AskedAll(s, c);
        NoteFinish(c.finish);
      }
    }

    method ProcessChunk(chunk: Chunk) returns (failed: bool)
      modifies this
      ensures View(failed) == Run(old(View(false)), ChunkOps(chunk))
    {
      ghost var s := View(false);
      OpenedFirst(s, chunk);
      if !started {
        started := true;
        Emit(MessageStart);
      }
      var i := 0;
      failed := false;
      while i < |chunk.choices| && !failed
        invariant 0 <= i <= |chunk.choices|
        invariant View(failed) == Run(s, Opened(chunk, i))
      {
        OpenedNext(s, chunk, i);
        failed := ProcessChoice(chunk.choices[i]);
        i := i + 1;
      }
      if failed {
        OpenedCut(s, chunk, i);
      }
      assert i == |chunk.choices| ==> chunk.choices[..i] == chunk.choices;
    }

    method FailWith()
      modifies this
      ensures View(false) == Fail(old(View(false)))
    {
      terminated := true;
      Emit(Error);
    }

    /** The map is visited in no particular order. */
    method AnyBadTool(isObject: string -> bool) returns (bad: bool)
      ensures bad <==> exists k :: k in tools && BadTool(tools[k], isObject)
    {
      var left := tools.Items;
      while left != {}
        invariant left <= tools.Items
        invariant forall k :: k in tools && (k, tools[k]) !in left ==> !BadTool(tools[k], isObject)
        decreases left
      {
        var entry :| entry in left;
        var (k, tool) := entry;
        assert k in tools && tools[k] == tool;
        if BadTool(tool, isObject) {
          assert k in tools && BadTool(tools[k], isObject);
          return true;
        }
        left := left - {entry};
      }
      return false;
    }

    method WriteStops()
      requires Ordered(View(false))
      modifies this`out
      ensures out == old(out) + Stops(ToolBlocks(old(View(false))))
    {
      ghost var indices := ToolBlocks(View(false));
      var i := 0;
      while i < |toolOrder|
        invariant 0 <= i <= |toolOrder|
        invariant out == old(out) + Stops(indices[..i])
      {
        StopsSnoc(old(out), indices[..i + 1]);
        assert indices[..i + 1][..i] == indices[..i];
        Emit(BlockStop(Some(tools[toolOrder[i]].blockIndex)));
        i := i + 1;
      }
      assert indices[..i] == indices;
    }

    method WriteEnding(reason: string)
      requires Ordered(View(false))
      modifies this`textOpen, this`out
      ensures !textOpen && out == old(out) + (Stops(OpenBlocks(old(View(false)))) + [MessageDelta(reason), MessageStop])
    {
      ghost var text := TextBlocks(View(false));
      ghost var blocks := ToolBlocks(View(false));
      ghost var written := out;
      if textOpen {
        Emit(BlockStop(Some(textIndex)));
        textOpen := false;
      }
      assert out == written + Stops(text);
      SameBlocks(old(View(false)).(textOpen := false), View(false));
      WriteStops();
      Emit(MessageDelta(reason));
      Emit(MessageStop);
      EndingIs(written, text, blocks, reason);
    }

    /** Malformed or incomplete tool calls end the stream with an error event;
        otherwise every open block is stopped once, then the message. */
    method FinishMessage(reason: string, isObject: string -> bool)
      requires Ordered(View(false))
      modifies this
      ensures View(false) == Finish(old(View(false)), reason, isObject)
    {
      if terminated {
        return;
      }
      var bad := AnyBadTool(isObject);
      if bad {
        FailWith();
      } else {
        WriteEnding(reason);
        terminated := true;
      }
    }

    /** One frame; true when the loop is to stop. `done` is the marker flag. */
    method ReceiveFrame(frame: Frame, done: bool) returns (failed: bool, done': bool)
      requires !done && !terminated
      modifies this
      ensures Conv(View(failed), done') == Receive(Conv(old(View(false)), done), frame)
    {
      failed, done' := false, done;
      match frame
      case Empty =>
      case DoneMark => done' := true;
      case Malformed => FailWith();
      case Failure => FailWith();
      case Data(chunk) => failed := ProcessChunk(chunk);
    }

    /** The reading loop over the frames, then whatever the source left when it ended. */
    method ReadAll(frames: seq<Frame>, end: End) returns (failed: bool, done: bool, broken: bool)
      requires View(false) == NEW_STATE
      modifies this
      ensures
        var c := ReceiveAll(frames);
        Conv(View(failed), done) == Ended(c, end) && broken == Broken(c, end)
    {
      failed, done, broken := false, false, false;
      var i := 0;
      while i < |frames| && !failed && !done && !terminated
        invariant 0 <= i <= |frames|
        invariant Conv(View(failed), done) == ReceiveAll(frames[..i])
      {
        assert frames[..i + 1][..i] == frames[..i];
        failed, done := ReceiveFrame(frames[i], done);
        i := i + 1;
      }
      if failed || done || terminated {
        StoppedStays(frames, i);
        return;
      }
      assert frames[..i] == frames;
      broken := end.broken;
      if end.trailing.Some? {
        failed, done := ReceiveFrame(end.trailing.value, done);
      }
    }

    /** The whole translation. */
    method TranslateAll(frames: seq<Frame>, end: End, isObject: string -> bool) returns (failed: bool)
      requires View(false) == NEW_STATE
      modifies this
      ensures View(failed) == Translate(frames, end, isObject)
    {
      FramesOrdered(frames, end);
      var done, broken;
      failed, done, broken := ReadAll(frames, end);
      if failed || terminated {
        return;
      }
      if broken || !started || (!done && stopReason == "") {
        FailWith();
        return;
      }
      var reason := stopReason;
      if reason == "" && |toolOrder| > 0 {
        reason := "tool_use";
      }
      if reason == "" {
        reason := "end_turn";
      }
      FinishMessage(reason, isObject);
    }
  }

  lemma {:induction false} StoppedStays(frames: seq<Frame>, i: nat)
    requires i <= |frames| && Stopped(ReceiveAll(frames[..i]))
    ensures ReceiveAll(frames) == ReceiveAll(frames[..i])
    decreases |frames|
  {
    if i == |frames| {
      assert frames[..i] == frames;
    } else {
      var init := frames[..|frames| - 1];
      assert init[..i] == frames[..i];
      StoppedStays(init, i);
    }
  }
}
