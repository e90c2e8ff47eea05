/** Anthropic stream events: the grammar a well-formed stream follows and the message a
    client rebuilds from one. JSON payloads are abstracted to the fields that matter. */
module StreamEvents {
  import opened Wrappers

  datatype Head = Head(kind: string, id: string, name: string)

  datatype Delta = TextDelta(text: string) | JsonDelta(json: string) | OtherDelta(data: string)

  /** A block event whose payload has no usable index carries None. */
  datatype Event =
    | MessageStart
    | BlockStart(index: Option<int>, head: Head)
    | BlockDelta(index: Option<int>, delta: Delta)
    | BlockStop(index: Option<int>)
    | MessageDelta(stopReason: string)
    | MessageStop
    | Ping
    | Error

  // ---------- grammar ----------

  datatype Phase = Before | Body | Closing | Finished | Failed

  datatype Shape = Shape(phase: Phase, next: nat, open: set<int>)

  const INITIAL := Shape(Before, 0, {})

  /** One step of the grammar: blocks start as 0, 1, 2, ..., deltas and stops name an open
      block, and a stop reason followed by message_stop comes once every block is closed. */
  function Advance(g: Shape, e: Event): Option<Shape> {
    match e
    case Ping => Some(g)
    case Error => if g.phase in {Finished, Failed} then None else Some(g.(phase := Failed))
    case MessageStart => if g.phase == Before then Some(g.(phase := Body)) else None
    case BlockStart(Some(i), _) =>
      if g.phase == Body && i == g.next then Some(g.(next := g.next + 1, open := g.open + {i})) else None
    case BlockDelta(Some(i), _) => if g.phase == Body && i in g.open then Some(g) else None
    case BlockStop(Some(i)) => if g.phase == Body && i in g.open then Some(g.(open := g.open - {i})) else None
    case MessageDelta(reason) =>
      if g.phase == Body && g.open == {} && reason != "" then Some(g.(phase := Closing)) else None
    case MessageStop => if g.phase == Closing then Some(g.(phase := Finished)) else None
    case _ => None
  }

  /** The shape of a whole stream, if it follows the grammar. */
  function Parse(es: seq<Event>): Option<Shape> {
    if es == [] then Some(INITIAL)
    else match Parse(es[..|es| - 1])
      case None => None
      case Some(g) => Advance(g, es[|es| - 1])
  }

  lemma ParseSnoc(es: seq<Event>, e: Event)
    ensures Parse(es + [e]) == match Parse(es) case None => None case Some(g) => Advance(g, e)
  {
    assert (es + [e])[..|es|] == es;
  }

  lemma {:induction false} ParsePrefix(es: seq<Event>, n: nat)
    requires n <= |es| && Parse(es).Some?
    ensures Parse(es[..n]).Some?
    decreases |es|
  {
    if n == |es| {
      assert es[..n] == es;
    } else {
      ParsePrefix(es[..|es| - 1], n);
      assert es[..|es| - 1][..n] == es[..n];
    }
  }

  // ---------- the message a client rebuilds ----------

  datatype Block = Block(head: Head, deltas: seq<Delta>, stopped: bool)

  /** Blocks in start order, and where deltas for an index currently go. */
  datatype Message = Message(blocks: seq<Block>, at: map<int, nat>)

  predicate WellPlaced(m: Message) {
    forall i | i in m.at :: m.at[i] < |m.blocks|
  }

  function Absorb(m: Message, e: Event): Message
    requires WellPlaced(m)
  {
    match e
    case BlockStart(Some(i), head) => Message(m.blocks + [Block(head, [], false)], m.at[i := |m.blocks|])
    case BlockDelta(Some(i), d) =>
      if i in m.at then var b := m.blocks[m.at[i]];
          m.(blocks := m.blocks[m.at[i] := b.(deltas := b.deltas + [d])]) else m
    case BlockStop(Some(i)) =>
      if i in m.at then m.(blocks := m.blocks[m.at[i] := m.blocks[m.at[i]].(stopped := true)]) else m
    case _ => m
  }

  function Replay(es: seq<Event>): (m: Message)
    ensures WellPlaced(m)
  {
    if es == [] then Message([], map[]) else Absorb(Replay(es[..|es| - 1]), es[|es| - 1])
  }

  lemma ReplaySnoc(es: seq<Event>, e: Event)
    ensures Replay(es + [e]) == Absorb(Replay(es), e)
  {
    assert (es + [e])[..|es|] == es;
  }

  /** The text of a stream in the order it was sent. */
  function TextOf(es: seq<Event>): string {
    if es == [] then "" else
      var e := es[|es| - 1];
      TextOf(es[..|es| - 1]) + if e.BlockDelta? && e.delta.TextDelta? then e.delta.text else ""
  }

  /** The JSON sent for one block. */
  function JsonOf(es: seq<Event>, index: int): string {
    if es == [] then "" else
      var e := es[|es| - 1];
      JsonOf(es[..|es| - 1], index) +
      if e.BlockDelta? && e.index == Some(index) && e.delta.JsonDelta? then e.delta.json else ""
  }

  lemma ContentSnoc(es: seq<Event>, e: Event, index: int)
    ensures TextOf(es + [e]) == TextOf(es) + if e.BlockDelta? && e.delta.TextDelta? then e.delta.text else ""
    ensures JsonOf(es + [e], index) == JsonOf(es, index) +
      if e.BlockDelta? && e.index == Some(index) && e.delta.JsonDelta? then e.delta.json else ""
  {
    assert (es + [e])[..|es|] == es;
  }

  /** The head a block was last started with. */
  function HeadOf(es: seq<Event>, index: int): Option<Head> {
    if es == [] then None else
      var e := es[|es| - 1];
      if e.BlockStart? && e.index == Some(index) then Some(e.head) else HeadOf(es[..|es| - 1], index)
  }

  predicate Starts(e: Event, index: int) {
    e.BlockStart? && e.index == Some(index)
  }

  lemma {:induction false} HeadAppend(es: seq<Event>, more: seq<Event>, index: int)
    requires forall i :: 0 <= i < |more| ==> !Starts(more[i], index)
    ensures HeadOf(es + more, index) == HeadOf(es, index)
    decreases |more|
  {
    if more == [] {
      assert es + more == es;
    } else {
      assert (es + more)[..|es + more| - 1] == es + more[..|more| - 1];
      assert !Starts(more[|more| - 1], index);
      HeadAppend(es, more[..|more| - 1], index);
    }
  }

  lemma HeadStart(es: seq<Event>, more: seq<Event>, index: int, head: Head)
    requires forall i :: 0 <= i < |more| ==> !Starts(more[i], index)
    ensures HeadOf(es + [BlockStart(Some(index), head)] + more, index) == Some(head)
  {
    var e := BlockStart(Some(index), head);
    assert (es + [e])[..|es|] == es;
    HeadAppend(es + [e], more, index);
  }
}
