/** The response filter: validates an upstream event stream, drops content blocks of
    unwanted types, renumbers the rest, and never lets a truncated stream look finished. */
module SseFilter {
  import opened Wrappers
  import opened StreamEvents

  datatype Filter = Filter(drop: set<int>, remap: map<int, int>, next: nat)

  const NEW_FILTER := Filter({}, map[], 0)

  /** The event to forward, if any, and the new renumbering. */
  function FilterEvent(f: Filter, e: Event, dropTypes: set<string>): (Filter, Option<Event>) {
    match e
    case BlockStart(Some(i), head) =>
      if head.kind in dropTypes then (f.(drop := f.drop + {i}), None)
      else (f.(remap := f.remap[i := f.next], next := f.next + 1), Some(e.(index := Some(f.next))))
    case BlockDelta(Some(i), _) => Redirect(f, e, i)
    case BlockStop(Some(i)) => Redirect(f, e, i)
    case _ => (f, Some(e))
  }

  /** A delta for an index that was never started still gets a number of its own. */
  function Redirect(f: Filter, e: Event, i: int): (Filter, Option<Event>)
    requires e.BlockDelta? || e.BlockStop?
  {
    if i in f.drop then (f, None)
    else if i in f.remap then (f, Some(e.(index := Some(f.remap[i]))))
    else (f.(remap := f.remap[i := f.next], next := f.next + 1), Some(e.(index := Some(f.next))))
  }

  function FilterAll(es: seq<Event>, dropTypes: set<string>): (Filter, seq<Event>) {
    if es == [] then (NEW_FILTER, []) else
      var (f, out) := FilterAll(es[..|es| - 1], dropTypes);
      var (f', e) := FilterEvent(f, es[|es| - 1], dropTypes);
      (f', if e.Some? then out + [e.value] else out)
  }

  lemma FilterSnoc(es: seq<Event>, e: Event, dropTypes: set<string>)
    ensures var (f, out) := FilterAll(es, dropTypes);
      var (f', e') := FilterEvent(f, e, dropTypes);
      FilterAll(es + [e], dropTypes) == (f', if e'.Some? then out + [e'.value] else out)
  {
    assert (es + [e])[..|es|] == es;
  }

  // ---------- any source ----------

  predicate Injective(f: Filter) {
    && (forall i | i in f.remap :: 0 <= f.remap[i] < f.next)
    && (forall i, j | i in f.remap && j in f.remap && f.remap[i] == f.remap[j] :: i == j)
  }

  /** Two source indices never share a client index, whatever the source sends. */
  lemma {:induction false} RemapInjective(es: seq<Event>, dropTypes: set<string>)
    ensures Injective(FilterAll(es, dropTypes).0)
    decreases |es|
  {
    if es != [] {
      RemapInjective(es[..|es| - 1], dropTypes);
    }
  }

  // ---------- dropping preserves meaning ----------

  function Kept(blocks: seq<Block>, dropTypes: set<string>): seq<Block> {
    if blocks == [] then [] else
      var b := blocks[|blocks| - 1];
      Kept(blocks[..|blocks| - 1], dropTypes) + if b.head.kind in dropTypes then [] else [b]
  }

  lemma {:induction false} KeptUpdate(blocks: seq<Block>, p: nat, b: Block, dropTypes: set<string>)
    requires p < |blocks| && b.head == blocks[p].head
    ensures var rank := |Kept(blocks[..p], dropTypes)|;
      if b.head.kind in dropTypes then Kept(blocks[p := b], dropTypes) == Kept(blocks, dropTypes)
      else rank < |Kept(blocks, dropTypes)| && Kept(blocks, dropTypes)[rank] == blocks[p] &&
           Kept(blocks[p := b], dropTypes) == Kept(blocks, dropTypes)[rank := b]
    decreases |blocks|
  {
    var init := blocks[..|blocks| - 1];
    if p < |init| {
      KeptUpdate(init, p, b, dropTypes);
      assert blocks[p := b][..|blocks| - 1] == init[p := b];
      assert init[..p] == blocks[..p];
    } else {
      assert blocks[p := b][..p] == init;
    }
  }

  /** No kept block starts at an index that a dropped block used before. A source that uses
      fresh indices satisfies it. */
  predicate NoRevival(es: seq<Event>, dropTypes: set<string>) {
    es == [] ||
    (NoRevival(es[..|es| - 1], dropTypes) && !Revives(es[..|es| - 1], es[|es| - 1], dropTypes))
  }

  predicate Revives(es: seq<Event>, e: Event, dropTypes: set<string>) {
    e.BlockStart? && e.index.Some? && e.head.kind !in dropTypes && e.index.value in FilterAll(es, dropTypes).0.drop
  }

  predicate Preserved(es: seq<Event>, dropTypes: set<string>) {
    Replay(FilterAll(es, dropTypes).1).blocks == Kept(Replay(es).blocks, dropTypes)
  }

  /** Where the client keeps the block that the source currently has under index i. */
  ghost predicate Tracks(source: Message, client: Message, f: Filter, dropTypes: set<string>, i: int)
    requires WellPlaced(source)
  {
    if i in source.at then
      var p := source.at[i];
      if source.blocks[p].head.kind in dropTypes then i in f.drop
      else && i !in f.drop && i in f.remap && f.remap[i] in client.at
           && client.at[f.remap[i]] == |Kept(source.blocks[..p], dropTypes)|
    else i !in f.drop && (i in f.remap ==> f.remap[i] !in client.at)
  }

  ghost predicate Mirrors(source: Message, client: Message, f: Filter, dropTypes: set<string>)
    requires WellPlaced(source)
  {
    && client.blocks == Kept(source.blocks, dropTypes)
    && Injective(f)
    && (forall j | j in client.at :: 0 <= j < f.next)
    && (forall i :: Tracks(source, client, f, dropTypes, i))
  }

  lemma StartTracks(source: Message, client: Message, f: Filter, dropTypes: set<string>, i: int, head: Head, j: int)
    requires WellPlaced(source) && WellPlaced(client) && Mirrors(source, client, f, dropTypes)
    requires head.kind in dropTypes || i !in f.drop
    ensures var e := BlockStart(Some(i), head);
      var (f', e') := FilterEvent(f, e, dropTypes);
      Tracks(Absorb(source, e), if e'.Some? then Absorb(client, e'.value) else client, f', dropTypes, j)
  {
    var blocks := source.blocks + [Block(head, [], false)];
    assert blocks[..|source.blocks|] == source.blocks;
    assert Tracks(source, client, f, dropTypes, j);
    if j != i && j in source.at {
      assert blocks[..source.at[j]] == source.blocks[..source.at[j]];
    }
  }

  lemma StartMirrors(source: Message, client: Message, f: Filter, dropTypes: set<string>, i: int, head: Head)
    requires WellPlaced(source) && WellPlaced(client) && Mirrors(source, client, f, dropTypes)
    requires head.kind in dropTypes || i !in f.drop
    ensures var e := BlockStart(Some(i), head);
      var (f', e') := FilterEvent(f, e, dropTypes);
      Mirrors(Absorb(source, e), if e'.Some? then Absorb(client, e'.value) else client, f', dropTypes)
  {
    var e := BlockStart(Some(i), head);
    var (f', e') := FilterEvent(f, e, dropTypes);
    var source' := Absorb(source, e);
    assert source'.blocks[..|source.blocks|] == source.blocks;
    var client' := if e'.Some? then Absorb(client, e'.value) else client;
    forall j ensures Tracks(source', client', f', dropTypes, j) {
      StartTracks(source, client, f, dropTypes, i, head, j);
    }
  }

  lemma UpdateMirrors(source: Message, client: Message, f: Filter, dropTypes: set<string>, i: int, b: Block)
    requires WellPlaced(source) && WellPlaced(client) && Mirrors(source, client, f, dropTypes)
    requires i in source.at && b.head == source.blocks[source.at[i]].head
    ensures var p := source.at[i];
      var source' := source.(blocks := source.blocks[p := b]);
      if b.head.kind in dropTypes then i in f.drop && Mirrors(source', client, f, dropTypes)
      else && i !in f.drop && i in f.remap && f.remap[i] in client.at
           && client.blocks[client.at[f.remap[i]]] == source.blocks[p]
           && Mirrors(source', client.(blocks := client.blocks[client.at[f.remap[i]] := b]), f, dropTypes)
  {
    assert Tracks(source, client, f, dropTypes, i);
    var p := source.at[i];
    KeptUpdate(source.blocks, p, b, dropTypes);
    var source' := source.(blocks := source.blocks[p := b]);
    var client' := if b.head.kind in dropTypes then client
        else client.(blocks := client.blocks[client.at[f.remap[i]] := b]);
    forall j ensures Tracks(source', client', f, dropTypes, j) {
      assert Tracks(source, client, f, dropTypes, j);
      if j in source.at {
        RankUnchanged(source.blocks, p, b, source.at[j], dropTypes);
      }
    }
  }

  lemma RankUnchanged(blocks: seq<Block>, p: nat, b: Block, q: nat, dropTypes: set<string>)
    requires p < |blocks| && q <= |blocks| && b.head == blocks[p].head
    ensures |Kept(blocks[p := b][..q], dropTypes)| == |Kept(blocks[..q], dropTypes)|
  {
    if p < q {
      KeptUpdate(blocks[..q], p, b, dropTypes);
      assert blocks[p := b][..q] == blocks[..q][p := b];
    } else {
      assert blocks[p := b][..q] == blocks[..q];
    }
  }

  lemma RedirectMirrors(source: Message, client: Message, f: Filter, dropTypes: set<string>, e: Event, i: int)
    requires WellPlaced(source) && WellPlaced(client) && Mirrors(source, client, f, dropTypes)
    requires (e.BlockDelta? || e.BlockStop?) && e.index == Some(i)
    ensures var (f', e') := FilterEvent(f, e, dropTypes);
      Mirrors(Absorb(source, e), if e'.Some? then Absorb(client, e'.value) else client, f', dropTypes)
  {
    assert Tracks(source, client, f, dropTypes, i);
    if i in source.at {
      var b := source.blocks[source.at[i]];
      UpdateMirrors(source, client, f, dropTypes, i, if e.BlockDelta? then b.(deltas := b.deltas + [e.delta])
          else b.(stopped := true));
    } else {
      var (f', e') := FilterEvent(f, e, dropTypes);
      forall j ensures Tracks(source, client, f', dropTypes, j) {
        assert Tracks(source, client, f, dropTypes, j);
      }
    }
  }

  lemma {:induction false} FilterMirrors(es: seq<Event>, dropTypes: set<string>)
    requires NoRevival(es, dropTypes)
    ensures Mirrors(Replay(es), Replay(FilterAll(es, dropTypes).1), FilterAll(es, dropTypes).0, dropTypes)
    decreases |es|
  {
    if es != [] {
      var init, e := es[..|es| - 1], es[|es| - 1];
      FilterMirrors(init, dropTypes);
      var (f, out) := FilterAll(init, dropTypes);
      var (f', e') := FilterEvent(f, e, dropTypes);
      if e'.Some? {
        ReplaySnoc(out, e'.value);
      }
      match e
      case BlockStart(Some(i), head) => StartMirrors(Replay(init), Replay(out), f, dropTypes, i, head);
      case BlockDelta(Some(i), _) => RedirectMirrors(Replay(init), Replay(out), f, dropTypes, e, i);
      case BlockStop(Some(i)) => RedirectMirrors(Replay(init), Replay(out), f, dropTypes, e, i);
      case _ =>
    }
  }

  /** A client rebuilds the source message with the dropped blocks deleted and the rest in
      order, unchanged, as long as no dropped index comes back to life. */
  lemma DropPreservesMeaning(es: seq<Event>, dropTypes: set<string>)
    requires NoRevival(es, dropTypes)
    ensures Preserved(es, dropTypes)
  {
    FilterMirrors(es, dropTypes);
  }

  /** Conversely, the first revival loses content: its deltas are discarded with the old block's. */
  lemma PreservedIffNoRevival(es: seq<Event>, e: Event, dropTypes: set<string>)
    requires NoRevival(es, dropTypes) && e.BlockStart? && e.index.Some?
    ensures (forall d :: Preserved(es + [e, BlockDelta(e.index, d)], dropTypes)) <==> NoRevival(es + [e], dropTypes)
  {
    assert (es + [e])[..|es|] == es;
    if NoRevival(es + [e], dropTypes) {
      forall d ensures Preserved(es + [e, BlockDelta(e.index, d)], dropTypes) {
        var more := es + [e, BlockDelta(e.index, d)];
        assert more[..|more| - 1] == es + [e];
        DropPreservesMeaning(more, dropTypes);
      }
    } else {
      RevivalLoses(es, e, TextDelta("lost"), dropTypes);
    }
  }

  lemma RevivalLoses(es: seq<Event>, e: Event, d: Delta, dropTypes: set<string>)
    requires NoRevival(es, dropTypes) && Revives(es, e, dropTypes)
    ensures !Preserved(es + [e, BlockDelta(e.index, d)], dropTypes)
  {
    var delta := BlockDelta(e.index, d);
    var more := es + [e, delta];
    assert more == (es + [e]) + [delta];
    DropPreservesMeaning(es, dropTypes);
    FilterSnoc(es, e, dropTypes);
    FilterSnoc(es + [e], delta, dropTypes);
    ReplaySnoc(es, e);
    ReplaySnoc(es + [e], delta);
    var (f, out) := FilterAll(es, dropTypes);
    ReplaySnoc(out, BlockStart(Some(f.next), e.head));
    var blocks := Replay(more).blocks;
    var n := |Replay(es).blocks|;
    assert Replay(es + [e]).blocks[n] == Block(e.head, [], false) && Replay(es + [e]).at[e.index.value] == n;
    assert blocks[n].deltas == [] + [d] == [d];
    assert blocks[..|blocks| - 1] == Replay(es).blocks;
    var client := Replay(FilterAll(more, dropTypes).1).blocks;
    assert client == Replay(out).blocks + [Block(e.head, [], false)];
    assert Kept(blocks, dropTypes) == Replay(out).blocks + [blocks[n]];
    assert client[|client| - 1].deltas == [];
  }

  lemma NoRevivalSnoc(es: seq<Event>, e: Event, dropTypes: set<string>)
    ensures NoRevival(es + [e], dropTypes) <==> NoRevival(es, dropTypes) && !Revives(es, e, dropTypes)
  {
    assert (es + [e])[..|es|] == es;
  }

  /** The shortest such source: a dropped thinking block, then text under the same index. The
      client gets an empty text block. */
  lemma ReusedIndexLosesText(text: string)
    ensures var thinking := [BlockStart(Some(0), Head("thinking", "", ""))] + [BlockStop(Some(0))];
      var again := BlockStart(Some(0), Head("text", "", ""));
      var source := thinking + [again, BlockDelta(Some(0), TextDelta(text))];
      !Preserved(source, {"thinking"}) && FilterAll(source, {"thinking"}).1 == [again]
  {
    var drop := {"thinking"};
    var start, stop := BlockStart(Some(0), Head("thinking", "", "")), BlockStop(Some(0));
    var again, delta := BlockStart(Some(0), Head("text", "", "")), BlockDelta(Some(0), TextDelta(text));
    var thinking := [start] + [stop];
    assert [] + [start] == [start];
    var none: set<int> := {};
    assert none + {0} == {0};
    FilterSnoc([], start, drop);
    NoRevivalSnoc([], start, drop);
    assert FilterAll([start], drop) == (Filter({0}, map[], 0), []);
    FilterSnoc([start], stop, drop);
    NoRevivalSnoc([start], stop, drop);
    assert FilterAll(thinking, drop) == (Filter({0}, map[], 0), []);
    assert Revives(thinking, again, drop);
    FilterSnoc(thinking, again, drop);
    FilterSnoc(thinking + [again], delta, drop);
    assert thinking + [again] + [delta] == thinking + [again, delta];
    RevivalLoses(thinking, again, TextDelta(text), drop);
  }

  predicate StartedIn(es: seq<Event>, i: int) {
    exists k :: 0 <= k < |es| && es[k].BlockStart? && es[k].index == Some(i)
  }

  /** Every block start uses an index no earlier block used. */
  predicate FreshIndices(es: seq<Event>) {
    forall j, k | 0 <= j < k < |es| :: es[j].BlockStart? && es[k].BlockStart? && es[j].index.Some? ==>
        es[j].index != es[k].index
  }

  lemma {:induction false} DroppedWasStarted(es: seq<Event>, dropTypes: set<string>)
    ensures forall i | i in FilterAll(es, dropTypes).0.drop :: StartedIn(es, i)
    decreases |es|
  {
    if es != [] {
      var init := es[..|es| - 1];
      DroppedWasStarted(init, dropTypes);
      forall i | i in FilterAll(es, dropTypes).0.drop ensures StartedIn(es, i) {
        if i in FilterAll(init, dropTypes).0.drop {
          var k :| 0 <= k < |init| && init[k].BlockStart? && init[k].index == Some(i);
          assert es[k] == init[k];
        } else {
          assert es[|es| - 1].BlockStart? && es[|es| - 1].index == Some(i);
        }
      }
    }
  }

  lemma {:induction false} FreshIndicesNeverRevive(es: seq<Event>, dropTypes: set<string>)
    requires FreshIndices(es)
    ensures NoRevival(es, dropTypes)
    decreases |es|
  {
    if es != [] {
      var init := es[..|es| - 1];
      FreshIndicesNeverRevive(init, dropTypes);
      DroppedWasStarted(init, dropTypes);
      forall i | i in FilterAll(init, dropTypes).0.drop
        ensures es[|es| - 1].BlockStart? ==> es[|es| - 1].index != Some(i)
      {
        var k :| 0 <= k < |init| && init[k].BlockStart? && init[k].index == Some(i);
        assert es[k] == init[k];
      }
    }
  }

  // ---------- well-formed sources ----------

  /** How the client's open blocks mirror the source's. */
  ghost predicate SameShape(g: Shape, g': Shape, f: Filter) {
    && g'.phase == g.phase && g'.next == f.next
    && (forall i | i in g.open || i in f.drop || i in f.remap :: 0 <= i < g.next)
    && (forall i | i in g.open :: i in f.drop || (i in f.remap && f.remap[i] in g'.open))
    && (forall j | j in g'.open :: exists i :: i in g.open && i !in f.drop && i in f.remap && f.remap[i] == j)
  }

  lemma StartKeepsShape(g: Shape, g': Shape, f: Filter, i: int, head: Head, dropTypes: set<string>)
    requires SameShape(g, g', f) && Injective(f) && g.phase == Body && i == g.next
    ensures var e := BlockStart(Some(i), head);
      var (f', e') := FilterEvent(f, e, dropTypes);
      if e'.None? then SameShape(Advance(g, e).value, g', f')
      else Advance(g', e'.value).Some? && SameShape(Advance(g, e).value, Advance(g', e'.value).value, f')
  {
    var e := BlockStart(Some(i), head);
    var (f', e') := FilterEvent(f, e, dropTypes);
    var after := Advance(g, e).value;
    var after' := if e'.None? then g' else Advance(g', e'.value).value;
    forall j | j in after'.open
      ensures exists k :: k in after.open && k !in f'.drop && k in f'.remap && f'.remap[k] == j {
      if j in g'.open {
        var k :| k in g.open && k !in f.drop && k in f.remap && f.remap[k] == j;
        assert k in after.open && k != i;
      } else {
        assert i in after.open && f'.remap[i] == j;
      }
    }
  }

  lemma StopKeepsShape(g: Shape, g': Shape, f: Filter, i: int, dropTypes: set<string>)
    requires SameShape(g, g', f) && Injective(f) && g.phase == Body && i in g.open
    ensures var e := BlockStop(Some(i));
      var (f', e') := FilterEvent(f, e, dropTypes);
      f' == f && if e'.None? then SameShape(Advance(g, e).value, g', f)
      else Advance(g', e'.value).Some? && SameShape(Advance(g, e).value, Advance(g', e'.value).value, f)
  {
    var e := BlockStop(Some(i));
    var (f', e') := FilterEvent(f, e, dropTypes);
    var after := Advance(g, e).value;
    var after' := if e'.None? then g' else Advance(g', e'.value).value;
    forall j | j in after'.open ensures exists k :: k in after.open && k !in f.drop && k in f.remap && f.remap[k] == j {
      var k :| k in g.open && k !in f.drop && k in f.remap && f.remap[k] == j;
      assert k in after.open;
    }
    forall k | k in after.open ensures k in f.drop || (k in f.remap && f.remap[k] in after'.open) {
      assert k in g.open && k != i;
      assert k !in f.drop && i in f.remap ==> f.remap[k] != f.remap[i];
    }
  }

  lemma ClientOpen(g: Shape, g': Shape, f: Filter, j: int)
    requires SameShape(g, g', f)
    ensures j in g'.open ==> g.open != {}
  {
    if j in g'.open {
      var i :| i in g.open && i !in f.drop && i in f.remap && f.remap[i] == j;
    }
  }

  lemma NoneOpen(g: Shape, g': Shape, f: Filter)
    requires SameShape(g, g', f) && g.open == {}
    ensures g'.open == {}
  {
    forall j ensures j in g'.open ==> g.open != {} {
      ClientOpen(g, g', f, j);
    }
  }

  lemma StepKeepsShape(g: Shape, g': Shape, f: Filter, e: Event, dropTypes: set<string>)
    requires SameShape(g, g', f) && Injective(f) && Advance(g, e).Some?
    ensures var (f', e') := FilterEvent(f, e, dropTypes);
      if e'.None? then SameShape(Advance(g, e).value, g', f')
      else Advance(g', e'.value).Some? && SameShape(Advance(g, e).value, Advance(g', e'.value).value, f')
  {
    match e
    case BlockStart(Some(i), head) => StartKeepsShape(g, g', f, i, head, dropTypes);
    case BlockStop(Some(i)) => StopKeepsShape(g, g', f, i, dropTypes);
    case MessageDelta(_) => NoneOpen(g, g', f);
    case _ =>
  }

  /** The grammar survives the filter: the client again sees blocks 0, 1, 2, ... */
  lemma {:induction false} FilterKeepsGrammar(es: seq<Event>, dropTypes: set<string>)
    requires Parse(es).Some?
    ensures var (f, out) := FilterAll(es, dropTypes);
      Parse(out).Some? && SameShape(Parse(es).value, Parse(out).value, f)
    decreases |es|
  {
    if es != [] {
      var init, e := es[..|es| - 1], es[|es| - 1];
      FilterKeepsGrammar(init, dropTypes);
      RemapInjective(init, dropTypes);
      var (f, out) := FilterAll(init, dropTypes);
      StepKeepsShape(Parse(init).value, Parse(out).value, f, e, dropTypes);
      var (f', e') := FilterEvent(f, e, dropTypes);
      if e'.Some? {
        ParseSnoc(out, e'.value);
      }
    }
  }

  predicate NothingDropped(es: seq<Event>, dropTypes: set<string>) {
    forall e | e in es :: e.BlockStart? ==> e.head.kind !in dropTypes
  }

  /** The state of a filter that has dropped and renumbered nothing. */
  predicate Transparent(g: Shape, f: Filter) {
    && f.drop == {} && f.next == g.next
    && (forall i | i in f.remap :: f.remap[i] == i)
    && (forall i | i in g.open :: i in f.remap)
  }

  lemma StepTransparent(g: Shape, f: Filter, e: Event, dropTypes: set<string>)
    requires Transparent(g, f) && Advance(g, e).Some? && (e.BlockStart? ==> e.head.kind !in dropTypes)
    ensures FilterEvent(f, e, dropTypes).1 == Some(e)
    ensures Transparent(Advance(g, e).value, FilterEvent(f, e, dropTypes).0)
  {
  }

  /** On a well-formed stream with nothing to drop the filter changes nothing. */
  lemma {:induction false} FilterIdentity(es: seq<Event>, dropTypes: set<string>)
    requires Parse(es).Some? && NothingDropped(es, dropTypes)
    ensures FilterAll(es, dropTypes).1 == es
    ensures Transparent(Parse(es).value, FilterAll(es, dropTypes).0)
    decreases |es|
  {
    if es != [] {
      var init, e := es[..|es| - 1], es[|es| - 1];
      assert e in es && forall x | x in init :: x in es;
      FilterIdentity(init, dropTypes);
      StepTransparent(Parse(init).value, FilterAll(init, dropTypes).0, e, dropTypes);
      assert es == init + [e];
    }
  }

  // ---------- the wire ----------

  /** One SSE frame: a decoded event, a comment-only keep-alive, the OpenAI end marker, or
      data a client could not interpret. */
  datatype Frame = Upstream(event: Event) | Comment | DoneMarker | Malformed

  datatype Wire = Wire(started: bool, terminal: bool, stopReason: bool, stopped: bool, filter: Filter,
      out: seq<Event>, rejected: bool)

  const NEW_WIRE := Wire(false, false, false, false, NEW_FILTER, [], false)

  predicate Valid(e: Event, started: bool, terminal: bool) {
    && (terminal ==> e.Ping?)
    && (e.MessageStart? ==> !started)
    && (!(e.MessageStart? || e.Ping? || e.Error?) ==> started)
  }

  function Reject(w: Wire): Wire {
    w.(out := w.out + [Error], rejected := true)
  }

  /** Flags follow the source event; a stop without a reason is replaced by an error. */
  function Forward(w: Wire, e: Event, dropTypes: set<string>): Wire {
    var (f, e') := FilterEvent(w.filter, e, dropTypes);
    var reason := w.stopReason || (e.MessageDelta? && e.stopReason != "");
    var out := if e.MessageStop? && w.started && !reason then Some(Error) else e';
    Wire(w.started || e.MessageStart?, w.terminal || e.MessageStop? || e.Error?, reason, w.stopped || e.MessageStop?,
         f, if out.Some? then w.out + [out.value] else w.out, false)
  }

  function Receive(w: Wire, frame: Frame, dropTypes: set<string>): Wire {
    if w.rejected then w
    else match frame
      case Comment => w
      case DoneMarker => if w.stopped && w.stopReason then w else Reject(w)
      case Malformed => Reject(w)
      case Upstream(e) => if Valid(e, w.started, w.terminal) then Forward(w, e, dropTypes) else Reject(w)
  }

  function ReceiveAll(frames: seq<Frame>, dropTypes: set<string>): Wire {
    if frames == [] then NEW_WIRE
        else Receive(ReceiveAll(frames[..|frames| - 1], dropTypes), frames[|frames| - 1], dropTypes)
  }

  /** The source ended, cleanly or not. */
  function End(w: Wire): Wire {
    if !w.rejected && w.started && !w.terminal then w.(out := w.out + [Error]) else w
  }

  predicate Explained(out: seq<Event>, p: nat)
    requires p <= |out|
  {
    MessageStart in out[..p] && exists k :: 0 <= k < p && out[k].MessageDelta? && out[k].stopReason != ""
  }

  predicate Honest(out: seq<Event>) {
    && (forall p | 0 <= p < |out| && out[p].MessageStop? :: Explained(out, p))
    && (forall p, q | 0 <= p < q < |out| :: !(out[p].MessageStop? && out[q].MessageStop?))
  }

  /** What the flags say about the bytes already written. */
  predicate Faithful(w: Wire) {
    && Honest(w.out)
    && (w.started <==> MessageStart in w.out)
    && (w.stopReason ==> exists k :: 0 <= k < |w.out| && w.out[k].MessageDelta? && w.out[k].stopReason != "")
    && (MessageStop in w.out ==> w.stopped && w.terminal)
    && (w.rejected || w.terminal ==> MessageStop in w.out || Error in w.out)
    && (w.stopped ==> w.terminal)
  }

  lemma Append(w: Wire, w': Wire, e: Event)
    requires Faithful(w) && w'.out == w.out + [e]
    requires e.MessageStop? ==> w.started && w.stopReason && MessageStop !in w.out
    ensures Honest(w'.out)
    ensures forall x :: x in w'.out <==> x in w.out || x == e
    ensures w.stopReason ==> exists k :: 0 <= k < |w'.out| && w'.out[k].MessageDelta? && w'.out[k].stopReason != ""
  {
    forall p | 0 <= p < |w'.out| && w'.out[p].MessageStop? ensures Explained(w'.out, p) {
      assert w'.out[..p] == w.out[..p];
      if p < |w.out| {
        assert Explained(w.out, p);
      } else {
        assert w'.out[..p] == w.out;
      }
    }
    if w.stopReason {
      var k :| 0 <= k < |w.out| && w.out[k].MessageDelta? && w.out[k].stopReason != "";
      assert w'.out[k] == w.out[k];
    }
  }

  lemma RejectFaithful(w: Wire)
    requires Faithful(w)
    ensures Faithful(Reject(w))
  {
    Append(w, Reject(w), Error);
  }

  lemma ForwardFaithful(w: Wire, e: Event, dropTypes: set<string>)
    requires Faithful(w) && !w.rejected && Valid(e, w.started, w.terminal)
    ensures Faithful(Forward(w, e, dropTypes))
  {
    var w' := Forward(w, e, dropTypes);
    if w'.out != w.out {
      var last := w'.out[|w.out|];
      assert w'.out == w.out + [last];
      Append(w, w', last);
      assert e.MessageDelta? ==> w'.out[|w.out|] == e;
    }
  }

  lemma ReceiveFaithful(w: Wire, frame: Frame, dropTypes: set<string>)
    requires Faithful(w)
    ensures Faithful(Receive(w, frame, dropTypes))
  {
    RejectFaithful(w);
    if frame.Upstream? && !w.rejected && Valid(frame.event, w.started, w.terminal) {
      ForwardFaithful(w, frame.event, dropTypes);
    }
  }

  lemma {:induction false} WireFaithful(frames: seq<Frame>, dropTypes: set<string>)
    ensures Faithful(ReceiveAll(frames, dropTypes))
    decreases |frames|
  {
    if frames != [] {
      WireFaithful(frames[..|frames| - 1], dropTypes);
      ReceiveFaithful(ReceiveAll(frames[..|frames| - 1], dropTypes), frames[|frames| - 1], dropTypes);
    }
  }

  /** Whatever the upstream sends and however it ends: a client sees message_stop only after
      message_start and a stop reason, at most once, and a message that started always ends. */
  lemma NeverSilentlyTruncated(frames: seq<Frame>, dropTypes: set<string>)
    ensures var out := End(ReceiveAll(frames, dropTypes)).out;
      Honest(out) && (MessageStart in out ==> MessageStop in out || Error in out)
  {
    WireFaithful(frames, dropTypes);
    var w := ReceiveAll(frames, dropTypes);
    if End(w).out != w.out {
      Append(w, End(w), Error);
    }
  }

  function Frames(es: seq<Event>): seq<Frame> {
    seq(|es|, i requires 0 <= i < |es| => Upstream(es[i]))
  }

  /** The wire state while a well-formed stream passes through it. */
  predicate InStep(w: Wire, g: Shape, es: seq<Event>) {
    && !w.rejected
    && (w.started <==> MessageStart in es)
    && (g.phase == Before ==> MessageStart !in es)
    && (g.phase in {Body, Closing, Finished} ==> MessageStart in es)
    && (w.terminal <==> g.phase in {Finished, Failed})
    && (g.phase in {Closing, Finished} ==> w.stopReason)
  }

  lemma StaysInStep(w: Wire, g: Shape, es: seq<Event>, e: Event, dropTypes: set<string>)
    requires InStep(w, g, es) && Advance(g, e).Some?
    ensures Valid(e, w.started, w.terminal)
    ensures InStep(Forward(w, e, dropTypes), Advance(g, e).value, es + [e])
    ensures Forward(w, e, dropTypes).filter == FilterEvent(w.filter, e, dropTypes).0
    ensures var e' := FilterEvent(w.filter, e, dropTypes).1;
      Forward(w, e, dropTypes).out == if e'.Some? then w.out + [e'.value] else w.out
  {
    assert MessageStart in es + [e] <==> MessageStart in es || e == MessageStart;
  }

  /** A stream that follows the grammar is never rejected, and its stop is never replaced:
      what reaches the client is exactly the filtered stream. */
  lemma {:induction false} GrammarAccepted(es: seq<Event>, dropTypes: set<string>)
    requires Parse(es).Some?
    ensures var w := ReceiveAll(Frames(es), dropTypes);
      && InStep(w, Parse(es).value, es)
      && w.out == FilterAll(es, dropTypes).1 && w.filter == FilterAll(es, dropTypes).0
    decreases |es|
  {
    if es != [] {
      var init, e := es[..|es| - 1], es[|es| - 1];
      GrammarAccepted(init, dropTypes);
      assert Frames(es)[..|es| - 1] == Frames(init);
      StaysInStep(ReceiveAll(Frames(init), dropTypes), Parse(init).value, init, e, dropTypes);
      assert es == init + [e];
    }
  }
}
