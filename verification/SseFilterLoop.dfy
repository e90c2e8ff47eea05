/** The response filter as it runs: dropped and renumbered indices, and the flags of the
    stream, updated in place while events are written. */
module SseFilterLoop {
  import opened Wrappers
  import opened StreamEvents
  import opened SseFilter
  import opened SseFrames
  import opened StreamPipeline

  class FilterState {
    var drop: set<int>
    var remap: map<int, int>
    var next: nat

    ghost function View(): Filter
      reads this
    {
      Filter(drop, remap, next)
    }

    constructor ()
      ensures View() == NEW_FILTER
    {
      drop, remap, next := {}, map[], 0;
    }

    /** Rewrites the payload's tool id and index; true when the event is not to be sent. */
    method ShouldDrop(payload: Event, dropTypes: set<string>, digest: string -> string)
      returns (dropped: bool, e: Event)
      modifies this
      ensures (View(), if dropped then None else Some(e))
          == FilterEvent(old(View()), Normal(payload, digest), dropTypes)
    {
      e := Normal(payload, digest);
      dropped := false;
      match e
      case BlockStart(Some(index), head) =>
        if head.kind in dropTypes {
          drop := drop + {index};
          return true, e;
        }
        var mapped := next;
        next := next + 1;
        remap := remap[index := mapped];
        e := BlockStart(Some(mapped), head);
      case BlockDelta(Some(index), delta) =>
        if index in drop {
          return true, e;
        }
        var mapped := Redirected(index);
        e := BlockDelta(Some(mapped), delta);
      case BlockStop(Some(index)) =>
        if index in drop {
          return true, e;
        }
        var mapped := Redirected(index);
        e := BlockStop(Some(mapped));
      case _ =>
    }

    /** The client's number for an index, allocated now if the index is new. */
    method Redirected(index: int) returns (mapped: int)
      modifies this`remap, this`next
      ensures
        if index in old(remap) then mapped == old(remap)[index] && remap == old(remap) && next == old(next)
        else mapped == old(next) && remap == old(remap)[index := mapped] && next == old(next) + 1
    {
      if index in remap {
        return remap[index];
      }
      mapped := next;
      next := next + 1;
      remap := remap[index := mapped];
    }
  }

  function NormalFrame(frame: Frame, digest: string -> string): Frame {
    if frame.Upstream? then Upstream(Normal(frame.event, digest)) else frame
  }

  function NormalFrames(frames: seq<Frame>, digest: string -> string): seq<Frame> {
    seq(|frames|, i requires 0 <= i < |frames| => NormalFrame(frames[i], digest))
  }

  class FilterLoop {
    const state: FilterState
    var started: bool
    var terminal: bool
    var stopReason: bool
    var stopped: bool
    var out: seq<Event>

    ghost function View(rejected: bool): Wire
      reads this, state
    {
      Wire(started, terminal, stopReason, stopped, state.View(), out, rejected)
    }

    constructor ()
      ensures View(false) == NEW_WIRE && fresh(state)
    {
      state := new FilterState();
      started, terminal, stopReason, stopped, out := false, false, false, false, [];
    }

    method WriteError()
      modifies this`out
      ensures out == old(out) + [Error]
    {
      out := out + [Error];
    }

    /** One frame; true when it was malformed and the loop must stop. */
    method Flush(frame: Frame, dropTypes: set<string>, digest: string -> string) returns (rejected: bool)
      modifies this, state
      ensures View(rejected) == Receive(old(View(false)), NormalFrame(frame, digest), dropTypes)
    {
      if frame.Comment? || (frame.DoneMarker? && stopped && stopReason) {
        return false;
      }
      if !frame.Upstream? || !Valid(frame.event, started, terminal) {
        WriteError();
        return true;
      }
      var dropped, e := state.ShouldDrop(frame.event, dropTypes, digest);
      match frame.event {
        case MessageStart => started := true;
        case MessageDelta(reason) => if reason != "" { stopReason := true; }
        case MessageStop =>
          terminal, stopped := true, true;
          if started && !stopReason {
            dropped, e := false, Error;
          }
        case Error => terminal := true;
        case _ =>
      }
      if !dropped {
        out := out + [e];
      }
      return false;
    }

    /** The whole loop: the frames until one is rejected, then the ending. */
    method FilterSSE(frames: seq<Frame>, dropTypes: set<string>, digest: string -> string) returns (rejected: bool)
      requires View(false) == NEW_WIRE
      modifies this, state
      ensures View(rejected) == End(ReceiveAll(NormalFrames(frames, digest), dropTypes))
    {
      ghost var all := NormalFrames(frames, digest);
      rejected := false;
      var i := 0;
      while i < |frames| && !rejected
        invariant 0 <= i <= |frames|
        invariant View(rejected) == ReceiveAll(all[..i], dropTypes)
      {
        assert all[..i + 1][..i] == all[..i];
        rejected := Flush(frames[i], dropTypes, digest);
        i := i + 1;
      }
      if rejected {
        RejectedKeeps(all, i, dropTypes);
        return;
      }
      assert all[..i] == all;
      if started && !terminal {
        WriteError();
      }
    }
  }
}
