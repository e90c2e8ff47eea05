/** The two stages in a row: translated events pass through the response filter, which also
    rewrites tool ids. */
module StreamPipeline {
  import opened Wrappers
  import opened StreamEvents
  import opened SseFilter
  import OpenAIStream
  import OpenAITranslator
  import ToolIds

  // ---------- tool ids on the way through ----------

  function NormalHead(h: Head, digest: string -> string): Head {
    if h.kind == "tool_use" || h.kind == "server_tool_use"
    then h.(id := ToolIds.Sanitize(h.id, h.kind == "server_tool_use", digest)) else h
  }

  function Normal(e: Event, digest: string -> string): Event {
    if e.BlockStart? && e.index.Some? then e.(head := NormalHead(e.head, digest)) else e
  }

  function NormalAll(es: seq<Event>, digest: string -> string): seq<Event> {
    seq(|es|, i requires 0 <= i < |es| => Normal(es[i], digest))
  }

  lemma NormalSnoc(es: seq<Event>, digest: string -> string)
    requires es != []
    ensures NormalAll(es, digest) == NormalAll(es[..|es| - 1], digest) + [Normal(es[|es| - 1], digest)]
    ensures es == es[..|es| - 1] + [es[|es| - 1]]
  {
  }

  /** Rewriting ids changes neither the shape of a stream nor its content, only the ids. */
  lemma {:induction false} NormalKeeps(es: seq<Event>, digest: string -> string, j: int)
    ensures var es' := NormalAll(es, digest);
      && Parse(es') == Parse(es)
      && TextOf(es') == TextOf(es) && JsonOf(es', j) == JsonOf(es, j)
      && HeadOf(es', j) == (if HeadOf(es, j).Some? then Some(NormalHead(HeadOf(es, j).value, digest)) else None)
    decreases |es|
  {
    if es != [] {
      var init, e := es[..|es| - 1], es[|es| - 1];
      NormalKeeps(init, digest, j);
      NormalSnoc(es, digest);
      NormalStep(NormalAll(init, digest), init, e, digest, j);
    }
  }

  /** After the filter every tool id is one the provider accepts, an id it accepted before is
      the same, and nothing else about any event has changed. */
  lemma IdsAreAccepted(e: Event, digest: string -> string)
    requires ToolIds.DigestOk(digest)
    ensures var e' := Normal(e, digest);
      if e.BlockStart? && e.index.Some? && (e.head.kind == "tool_use" || e.head.kind == "server_tool_use") then
        var server := e.head.kind == "server_tool_use";
        && e' == e.(head := e.head.(id := e'.head.id)) && ToolIds.Acceptable(e'.head.id, server)
        && (ToolIds.Acceptable(e.head.id, server) ==> e' == e)
      else e' == e
  {
    if e.BlockStart? { ToolIds.SanitizedIsAcceptable(e.head.id, e.head.kind == "server_tool_use", digest); }
  }

  lemma NormalStep(before': seq<Event>, before: seq<Event>, e: Event, digest: string -> string, j: int)
    requires Parse(before') == Parse(before) && TextOf(before') == TextOf(before)
    requires JsonOf(before', j) == JsonOf(before, j)
    requires HeadOf(before', j) == (if HeadOf(before, j).Some?
        then Some(NormalHead(HeadOf(before, j).value, digest)) else None)
    ensures var es, es' := before + [e], before' + [Normal(e, digest)];
      && Parse(es') == Parse(es)
      && TextOf(es') == TextOf(es) && JsonOf(es', j) == JsonOf(es, j)
      && HeadOf(es', j) == (if HeadOf(es, j).Some? then Some(NormalHead(HeadOf(es, j).value, digest)) else None)
  {
    var e' := Normal(e, digest);
    ParseSnoc(before, e);
    ParseSnoc(before', e');
    ContentSnoc(before, e, j);
    ContentSnoc(before', e', j);
    assert (before + [e])[..|before|] == before;
    assert (before' + [e'])[..|before'|] == before';
  }

  // ---------- well-formed streams use fresh indices ----------

  lemma {:induction false} StartsAreBelow(es: seq<Event>)
    requires Parse(es).Some?
    ensures forall k :: 0 <= k < |es| && es[k].BlockStart? ==>
        es[k].index.Some? && 0 <= es[k].index.value < Parse(es).value.next
    decreases |es|
  {
    if es != [] {
      StartsAreBelow(es[..|es| - 1]);
    }
  }

  lemma {:induction false} GrammarIsFresh(es: seq<Event>)
    requires Parse(es).Some?
    ensures FreshIndices(es)
    decreases |es|
  {
    if es != [] {
      var init := es[..|es| - 1];
      GrammarIsFresh(init);
      StartsAreBelow(init);
      forall j, k | 0 <= j < k < |es| && es[j].BlockStart? && es[k].BlockStart? && es[j].index.Some?
        ensures es[j].index != es[k].index
      {
        assert init[j] == es[j];
        if k < |init| { assert init[k] == es[k]; }
      }
    }
  }

  // ---------- what the translator writes ----------

  /** Only text and tool_use blocks are ever started. */
  ghost predicate PlainBlocks(es: seq<Event>) {
    forall k :: 0 <= k < |es| && es[k].BlockStart? ==> es[k].head.kind == "text" || es[k].head.kind == "tool_use"
  }

  lemma OpenPlain(s: OpenAIStream.State, k: int)
    requires PlainBlocks(s.out) && k in s.tools
    ensures PlainBlocks(OpenAIStream.OpenTool(s, k).out)
  {
  }

  lemma CallPlain(s: OpenAIStream.State, f: OpenAIStream.Fragment)
    requires PlainBlocks(s.out) && !s.aborted
    ensures PlainBlocks(OpenAIStream.CallOp(s, f).out)
  {
    OpenAIStream.CallCases(s, f);
    OpenPlain(OpenAIStream.NotedIn(s, f), f.index);
  }

  lemma StepPlain(s: OpenAIStream.State, op: OpenAIStream.Op)
    requires PlainBlocks(s.out)
    ensures PlainBlocks(OpenAIStream.Step(s, op).out)
  {
    if op.Call? && !s.aborted {
      CallPlain(s, op.fragment);
    }
  }

  lemma {:induction false} RunPlain(s: OpenAIStream.State, ops: seq<OpenAIStream.Op>)
    requires PlainBlocks(s.out)
    ensures PlainBlocks(OpenAIStream.Run(s, ops).out)
    decreases |ops|
  {
    if ops != [] {
      RunPlain(s, ops[..|ops| - 1]);
      StepPlain(OpenAIStream.Run(s, ops[..|ops| - 1]), ops[|ops| - 1]);
    }
  }

  lemma {:induction false} FramesPlain(frames: seq<OpenAITranslator.Frame>)
    ensures PlainBlocks(OpenAITranslator.ReceiveAll(frames).state.out)
    decreases |frames|
  {
    if frames != [] {
      FramesPlain(frames[..|frames| - 1]);
      FramePlain(OpenAITranslator.ReceiveAll(frames[..|frames| - 1]), frames[|frames| - 1]);
    }
  }

  lemma FramePlain(c: OpenAITranslator.Conv, f: OpenAITranslator.Frame)
    requires PlainBlocks(c.state.out)
    ensures PlainBlocks(OpenAITranslator.Receive(c, f).state.out)
  {
    if f.Data? {
      RunPlain(c.state, OpenAIStream.ChunkOps(f.chunk));
    }
  }

  lemma ClosePlain(c: OpenAITranslator.Conv, broken: bool, isObject: string -> bool)
    requires OpenAIStream.Ordered(c.state) && PlainBlocks(c.state.out)
    ensures PlainBlocks(OpenAITranslator.Close(c, broken, isObject).out)
  {
  }

  lemma TranslatePlain(frames: seq<OpenAITranslator.Frame>, end: OpenAITranslator.End, isObject: string -> bool)
    ensures PlainBlocks(OpenAITranslator.Translate(frames, end, isObject).out)
  {
    var c := OpenAITranslator.ReceiveAll(frames);
    FramesPlain(frames);
    if end.trailing.Some? { FramePlain(c, end.trailing.value); }
    OpenAITranslator.FramesOrdered(frames, end);
    ClosePlain(OpenAITranslator.Ended(c, end), OpenAITranslator.Broken(c, end), isObject);
  }

  // ---------- end to end ----------

  /** What the client of a translated, filtered stream receives. */
  function Filtered(es: seq<Event>, dropTypes: set<string>, digest: string -> string): seq<Event> {
    End(ReceiveAll(Frames(NormalAll(es, digest)), dropTypes)).out
  }

  function Client(frames: seq<OpenAITranslator.Frame>, end: OpenAITranslator.End, isObject: string -> bool,
                  dropTypes: set<string>, digest: string -> string): seq<Event> {
    Filtered(OpenAITranslator.Translate(frames, end, isObject).out, dropTypes, digest)
  }

  /** The filter never rejects a well-formed stream: it passes on exactly the kept, renumbered
      events, and adds an error only when the stream stops in the middle of a message. */
  lemma FilteredIs(es: seq<Event>, dropTypes: set<string>, digest: string -> string)
    requires Parse(es).Some?
    ensures var kept := FilterAll(NormalAll(es, digest), dropTypes).1;
      && Parse(kept).Some? && Parse(kept).value.phase == Parse(es).value.phase
      && Filtered(es, dropTypes, digest) == if Parse(es).value.phase == Body || Parse(es).value.phase == Closing
          then kept + [Error] else kept
  {
    var es' := NormalAll(es, digest);
    NormalKeeps(es, digest, 0);
    GrammarAccepted(es', dropTypes);
    FilterKeepsGrammar(es', dropTypes);
  }

  lemma ErrorEnds(kept: seq<Event>, p: Phase)
    requires Parse(kept).Some? && Parse(kept).value.phase == p
    ensures p == Body || p == Closing ==> Parse(kept + [Error]).Some? && Parse(kept + [Error]).value.phase == Failed
  {
    ParseSnoc(kept, Error);
  }

  lemma FilteredEnds(es: seq<Event>, dropTypes: set<string>, digest: string -> string)
    requires Parse(es).Some?
    ensures var p := Parse(es).value.phase;
      var out := Filtered(es, dropTypes, digest);
      Parse(out).Some? && Parse(out).value.phase == if p == Body || p == Closing then Failed else p
  {
    FilteredIs(es, dropTypes, digest);
    ErrorEnds(FilterAll(NormalAll(es, digest), dropTypes).1, Parse(es).value.phase);
  }

  /** Whatever the upstream sends and however it ends, the client's stream follows the grammar
      and ends in message_stop or an error; it ends in message_stop exactly when the translation
      succeeded. */
  lemma EveryStreamEnds(frames: seq<OpenAITranslator.Frame>, end: OpenAITranslator.End, isObject: string -> bool,
                        dropTypes: set<string>, digest: string -> string)
    ensures var out := Client(frames, end, isObject, dropTypes, digest);
      && Parse(out).Some? && Parse(out).value.phase in {Finished, Failed}
      && (Parse(out).value.phase == Finished <==>
          OpenAITranslator.Succeeds(OpenAITranslator.Translate(frames, end, isObject)))
  {
    var s := OpenAITranslator.Translate(frames, end, isObject);
    OpenAITranslator.FollowsGrammar(frames, end, isObject);
    FilteredEnds(s.out, dropTypes, digest);
  }

  /** The client rebuilds the translated message with the blocks of dropped types deleted,
      the rest unchanged and in order. */
  lemma ClientRebuilds(frames: seq<OpenAITranslator.Frame>, end: OpenAITranslator.End, isObject: string -> bool,
                       dropTypes: set<string>, digest: string -> string)
    ensures var s := OpenAITranslator.Translate(frames, end, isObject);
      Replay(Client(frames, end, isObject, dropTypes, digest)).blocks ==
      Kept(Replay(NormalAll(s.out, digest)).blocks, dropTypes)
  {
    var s := OpenAITranslator.Translate(frames, end, isObject);
    var es' := NormalAll(s.out, digest);
    OpenAITranslator.FollowsGrammar(frames, end, isObject);
    FilteredIs(s.out, dropTypes, digest);
    NormalKeeps(s.out, digest, 0);
    GrammarIsFresh(es');
    FreshIndicesNeverRevive(es', dropTypes);
    DropPreservesMeaning(es', dropTypes);
    ReplaySnoc(FilterAll(es', dropTypes).1, Error);
  }

  function NormalFound(h: Option<Head>, digest: string -> string): Option<Head> {
    if h.Some? then Some(NormalHead(h.value, digest)) else None
  }

  /** With text and tool_use kept, the client of a finished stream gets all its events. */
  lemma ClientGetsAll(frames: seq<OpenAITranslator.Frame>, end: OpenAITranslator.End, isObject: string -> bool,
                      dropTypes: set<string>, digest: string -> string)
    requires "text" !in dropTypes && "tool_use" !in dropTypes
    requires OpenAITranslator.Succeeds(OpenAITranslator.Translate(frames, end, isObject))
    ensures Client(frames, end, isObject, dropTypes, digest)
         == NormalAll(OpenAITranslator.Translate(frames, end, isObject).out, digest)
  {
    var s := OpenAITranslator.Translate(frames, end, isObject);
    NormalKeeps(s.out, digest, 0);
    FilteredIs(s.out, dropTypes, digest);
    TranslatePlain(frames, end, isObject);
    NothingIsDropped(s.out, dropTypes, digest);
    FilterIdentity(NormalAll(s.out, digest), dropTypes);
  }

  /** With text and tool_use kept, a finished client stream holds everything the upstream
      asked for: all text in order, and per announced tool its block, arguments included. */
  lemma ClientHasEverything(frames: seq<OpenAITranslator.Frame>, end: OpenAITranslator.End, isObject: string -> bool,
                            dropTypes: set<string>, digest: string -> string, k: int)
    requires "text" !in dropTypes && "tool_use" !in dropTypes
    requires OpenAITranslator.Succeeds(OpenAITranslator.Translate(frames, end, isObject))
    ensures
      var ops := OpenAITranslator.Heard(OpenAITranslator.All(frames, end));
      var out := Client(frames, end, isObject, dropTypes, digest);
      var block := OpenAITranslator.BlockMap(OpenAITranslator.Translate(frames, end, isObject));
      && TextOf(out) == OpenAIStream.Said(ops)
      && (k in block <==> OpenAIStream.Announced(ops, k).Some?)
      && (k in block ==> JsonOf(out, block[k]) == OpenAIStream.Args(ops, k))
      && (k in block ==> HeadOf(out, block[k]) == NormalFound(OpenAIStream.Announced(ops, k), digest))
      && (k !in block ==> OpenAIStream.Args(ops, k) == "")
  {
    var ops := OpenAITranslator.Heard(OpenAITranslator.All(frames, end));
    var s := OpenAITranslator.Translate(frames, end, isObject);
    var block := OpenAITranslator.BlockMap(s);
    OpenAITranslator.SuccessDelivers(frames, end, isObject);
    assert OpenAITranslator.ToolDelivered(s.out, block, ops, k);
    var j := if k in block then block[k] else 0;
    NormalKeeps(s.out, digest, j);
    ClientGetsAll(frames, end, isObject, dropTypes, digest);
  }

  lemma NothingIsDropped(es: seq<Event>, dropTypes: set<string>, digest: string -> string)
    requires PlainBlocks(es) && "text" !in dropTypes && "tool_use" !in dropTypes
    ensures NothingDropped(NormalAll(es, digest), dropTypes)
  {
    forall e | e in NormalAll(es, digest) ensures e.BlockStart? ==> e.head.kind !in dropTypes {
      var i :| 0 <= i < |es| && Normal(es[i], digest) == e;
    }
  }

  /** A stream that ends with a reason for these choices. */
  ghost predicate EndsFor(out: seq<Event>, choices: seq<OpenAIStream.Choice>) {
    && |out| >= 2 && out[|out| - 1] == MessageStop && out[|out| - 2].MessageDelta?
    && OpenAITranslator.Tells(out[|out| - 2].stopReason, OpenAITranslator.FinishAsked(choices),
                              CallsTool(OpenAITranslator.FragmentsAsked(choices)))
  }

  /** Some tool becomes known by id and name. */
  ghost predicate CallsTool(fragments: seq<OpenAIStream.Fragment>) {
    exists k :: OpenAIStream.Announced(OpenAIStream.Calls(fragments), k).Some?
  }

  /** A finished client stream ends with the reason that the chunks gave last, or a plausible one
      if none did, and its text is the text of the chunks. */
  lemma ClientIsToldWhy(frames: seq<OpenAITranslator.Frame>, end: OpenAITranslator.End, isObject: string -> bool,
                        dropTypes: set<string>, digest: string -> string)
    requires "text" !in dropTypes && "tool_use" !in dropTypes
    requires OpenAITranslator.Succeeds(OpenAITranslator.Translate(frames, end, isObject))
    ensures
      var choices := OpenAITranslator.Taken(OpenAITranslator.All(frames, end));
      var out := Client(frames, end, isObject, dropTypes, digest);
      TextOf(out) == OpenAITranslator.TextAsked(choices) && EndsFor(out, choices)
  {
    var all := OpenAITranslator.All(frames, end);
    var s := OpenAITranslator.Translate(frames, end, isObject);
    ClientGetsAll(frames, end, isObject, dropTypes, digest);
    OpenAITranslator.SuccessDelivers(frames, end, isObject);
    OpenAITranslator.HeardIsTaken(all);
    NormalKeeps(s.out, digest, 0);
    WholeEnds(s, OpenAITranslator.Heard(all), OpenAITranslator.Taken(all));
    EndsNormally(s.out, OpenAITranslator.Taken(all), digest);
  }

  lemma WholeEnds(s: OpenAIStream.State, ops: seq<OpenAIStream.Op>, choices: seq<OpenAIStream.Choice>)
    requires OpenAITranslator.Whole(s, ops)
    requires OpenAITranslator.LastFinish(ops) == OpenAITranslator.FinishAsked(choices)
    requires OpenAITranslator.CallsIn(ops) == OpenAITranslator.FragmentsAsked(choices)
    ensures EndsFor(s.out, choices)
  {
    CalledIffBlock(s, ops);
  }

  lemma EndsNormally(out: seq<Event>, choices: seq<OpenAIStream.Choice>, digest: string -> string)
    requires EndsFor(out, choices)
    ensures EndsFor(NormalAll(out, digest), choices)
  {
    NormalAt(out, |out| - 2, digest);
    NormalAt(out, |out| - 1, digest);
  }

  lemma NormalAt(es: seq<Event>, i: nat, digest: string -> string)
    requires i < |es| && !es[i].BlockStart?
    ensures |NormalAll(es, digest)| == |es| && NormalAll(es, digest)[i] == es[i]
  {
  }

  lemma CalledIffBlock(s: OpenAIStream.State, ops: seq<OpenAIStream.Op>)
    requires OpenAITranslator.Whole(s, ops)
    ensures OpenAITranslator.BlockMap(s) != map[] <==> CallsTool(OpenAITranslator.CallsIn(ops))
  {
    var block, calls := OpenAITranslator.BlockMap(s), OpenAIStream.Calls(OpenAITranslator.CallsIn(ops));
    forall k ensures k in block <==> OpenAIStream.Announced(calls, k).Some? {
      OpenAITranslator.ToolsByFragments(ops, k);
      assert OpenAITranslator.ToolDelivered(s.out, block, ops, k);
    }
    SomeKey(block);
  }

  lemma SomeKey(block: map<int, int>)
    ensures block != map[] <==> exists k :: k in block
  {
    if forall k :: k !in block {
      assert block == map[];
    }
  }
}
