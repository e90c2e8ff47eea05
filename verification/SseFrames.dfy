/** What a client gets, told by the frames received alone: which frame is refused, which
    frames leave no trace, and the whole client stream. */
module SseFrames {
  import opened Wrappers
  import opened StreamEvents
  import opened SseFilter

  // ---------- which frame is refused ----------

  predicate Carries(frame: Frame, e: Event) {
    frame == Upstream(e)
  }

  predicate GivesReason(e: Event) {
    e.MessageDelta? && e.stopReason != ""
  }

  predicate StartedBefore(frames: seq<Frame>, n: nat) {
    exists i :: 0 <= i < n && i < |frames| && Carries(frames[i], MessageStart)
  }

  predicate StoppedBefore(frames: seq<Frame>, n: nat) {
    exists i :: 0 <= i < n && i < |frames| && Carries(frames[i], MessageStop)
  }

  predicate FailedBefore(frames: seq<Frame>, n: nat) {
    exists i :: 0 <= i < n && i < |frames| && Carries(frames[i], Error)
  }

  predicate ReasonBefore(frames: seq<Frame>, n: nat) {
    exists i :: 0 <= i < n && i < |frames| && frames[i].Upstream? && GivesReason(frames[i].event)
  }

  /** Nothing but a ping follows an ending, a message starts once, and before it starts there
      are only pings and errors. */
  predicate OutOfOrder(frames: seq<Frame>, n: nat, e: Event) {
    if StoppedBefore(frames, n) || FailedBefore(frames, n) then e != Ping
    else if StartedBefore(frames, n) then e == MessageStart
    else e != MessageStart && e != Ping && e != Error
  }

  /** A malformed frame, an end marker before a finished message, an event out of order. */
  predicate Refused(frames: seq<Frame>, n: nat)
    requires n < |frames|
  {
    match frames[n]
    case Malformed => true
    case Comment => false
    case DoneMarker => !StoppedBefore(frames, n) || !ReasonBefore(frames, n)
    case Upstream(e) => OutOfOrder(frames, n, e)
  }

  predicate AnyRefused(frames: seq<Frame>) {
    exists n :: 0 <= n < |frames| && Refused(frames, n)
  }

  // ---------- the client stream ----------

  function EventsOf(frames: seq<Frame>): seq<Event> {
    if frames == [] then [] else
      var init, frame := EventsOf(frames[..|frames| - 1]), frames[|frames| - 1];
      if frame.Upstream? then init + [frame.event] else init
  }

  /** A stop that no reason explains becomes an error. */
  function Explaining(es: seq<Event>): seq<Event> {
    seq(|es|, i requires 0 <= i < |es| =>
      if es[i] == MessageStop && (forall j | 0 <= j < i :: !GivesReason(es[j])) then Error else es[i])
  }

  /** What a client sees of an accepted source: its events, dropped and renumbered, and an error
      if it ends inside a message. */
  ghost function Shown(es: seq<Event>, dropTypes: set<string>): seq<Event> {
    FilterAll(Explaining(es), dropTypes).1 +
    if MessageStart in es && MessageStop !in es && Error !in es then [Error] else []
  }

  /** The flags of the loop, told by the frames. */
  predicate Flagged(w: Wire, frames: seq<Frame>) {
    && (w.started <==> StartedBefore(frames, |frames|))
    && (w.stopped <==> StoppedBefore(frames, |frames|))
    && (w.terminal <==> StoppedBefore(frames, |frames|) || FailedBefore(frames, |frames|))
    && (w.stopReason <==> ReasonBefore(frames, |frames|))
  }

  lemma BeforeSnoc(frames: seq<Frame>, frame: Frame, n: nat)
    requires n <= |frames|
    ensures StartedBefore(frames + [frame], n) == StartedBefore(frames, n)
    ensures StoppedBefore(frames + [frame], n) == StoppedBefore(frames, n)
    ensures FailedBefore(frames + [frame], n) == FailedBefore(frames, n)
    ensures ReasonBefore(frames + [frame], n) == ReasonBefore(frames, n)
  {
    assert forall i | 0 <= i < |frames| :: (frames + [frame])[i] == frames[i];
  }

  lemma AfterSnoc(frames: seq<Frame>, frame: Frame)
    ensures var n := |frames| + 1;
      && StartedBefore(frames + [frame], n) == (StartedBefore(frames, |frames|) || Carries(frame, MessageStart))
      && StoppedBefore(frames + [frame], n) == (StoppedBefore(frames, |frames|) || Carries(frame, MessageStop))
      && FailedBefore(frames + [frame], n) == (FailedBefore(frames, |frames|) || Carries(frame, Error))
      && ReasonBefore(frames + [frame], n) ==
          (ReasonBefore(frames, |frames|) || (frame.Upstream? && GivesReason(frame.event)))
  {
    var more := frames + [frame];
    BeforeSnoc(frames, frame, |frames|);
    assert more[|frames|] == frame;
  }

  lemma RefusedSnoc(frames: seq<Frame>, frame: Frame, n: nat)
    requires n < |frames|
    ensures Refused(frames + [frame], n) == Refused(frames, n)
  {
    BeforeSnoc(frames, frame, n);
    assert (frames + [frame])[n] == frames[n];
  }

  lemma AnyRefusedSnoc(frames: seq<Frame>, frame: Frame)
    ensures AnyRefused(frames + [frame]) <==> AnyRefused(frames) || Refused(frames + [frame], |frames|)
  {
    forall n | 0 <= n < |frames| ensures Refused(frames + [frame], n) == Refused(frames, n) {
      RefusedSnoc(frames, frame, n);
    }
  }

  /** The loop refuses its next frame exactly when the frames before say so. */
  lemma NextRefused(w: Wire, frames: seq<Frame>, frame: Frame, dropTypes: set<string>)
    requires !w.rejected && Flagged(w, frames)
    ensures var w' := Receive(w, frame, dropTypes);
      && (w'.rejected <==> Refused(frames + [frame], |frames|))
      && (w'.rejected ==> w'.out == w.out + [Error])
      && (!w'.rejected ==> Flagged(w', frames + [frame]))
  {
    BeforeSnoc(frames, frame, |frames|);
    AfterSnoc(frames, frame);
    assert (frames + [frame])[|frames|] == frame;
  }

  lemma {:induction false} FlagsFollow(frames: seq<Frame>, dropTypes: set<string>)
    ensures var w := ReceiveAll(frames, dropTypes);
      (w.rejected <==> AnyRefused(frames)) && (!w.rejected ==> Flagged(w, frames))
    decreases |frames|
  {
    if frames != [] {
      var init, frame := frames[..|frames| - 1], frames[|frames| - 1];
      FlagsFollow(init, dropTypes);
      assert frames == init + [frame];
      AnyRefusedSnoc(init, frame);
      if !AnyRefused(init) {
        NextRefused(ReceiveAll(init, dropTypes), init, frame, dropTypes);
      }
    }
  }

  lemma ExplainingSnoc(es: seq<Event>, e: Event)
    ensures Explaining(es + [e]) == Explaining(es) +
      [if e == MessageStop && (forall j | 0 <= j < |es| :: !GivesReason(es[j])) then Error else e]
  {
    assert forall j | 0 <= j < |es| :: (es + [e])[j] == es[j];
  }

  lemma {:induction false} EventsTell(frames: seq<Frame>)
    ensures var es := EventsOf(frames);
      && (MessageStart in es <==> StartedBefore(frames, |frames|))
      && (MessageStop in es <==> StoppedBefore(frames, |frames|))
      && (Error in es <==> FailedBefore(frames, |frames|))
      && ((forall j | 0 <= j < |es| :: !GivesReason(es[j])) <==> !ReasonBefore(frames, |frames|))
    decreases |frames|
  {
    if frames != [] {
      var init, frame := frames[..|frames| - 1], frames[|frames| - 1];
      EventsTell(init);
      AfterSnoc(init, frame);
      assert frames == init + [frame];
      if frame.Upstream? {
        ReasonSnoc(EventsOf(init), frame.event);
      }
    }
  }

  lemma ReasonSnoc(es: seq<Event>, e: Event)
    ensures (forall j | 0 <= j < |es + [e]| :: !GivesReason((es + [e])[j])) <==>
            (forall j | 0 <= j < |es| :: !GivesReason(es[j])) && !GivesReason(e)
  {
    assert (es + [e])[|es|] == e;
    assert forall j | 0 <= j < |es| :: (es + [e])[j] == es[j];
  }

  /** The state of the loop while nothing was refused. */
  predicate Passing(w: Wire, frames: seq<Frame>, dropTypes: set<string>) {
    !w.rejected && (w.filter, w.out) == FilterAll(Explaining(EventsOf(frames)), dropTypes)
  }

  lemma NextPasses(w: Wire, frames: seq<Frame>, frame: Frame, dropTypes: set<string>)
    requires Passing(w, frames, dropTypes) && Flagged(w, frames)
    requires !Refused(frames + [frame], |frames|)
    ensures Passing(Receive(w, frame, dropTypes), frames + [frame], dropTypes)
  {
    NextRefused(w, frames, frame, dropTypes);
    assert (frames + [frame])[..|frames|] == frames;
    if frame.Upstream? {
      var es, e := EventsOf(frames), frame.event;
      EventsTell(frames);
      ExplainingSnoc(es, e);
      FilterSnoc(Explaining(es), if e == MessageStop && !w.stopReason then Error else e, dropTypes);
      assert e == MessageStop ==> w.started;
    }
  }

  lemma {:induction false} AllPass(frames: seq<Frame>, dropTypes: set<string>)
    requires !AnyRefused(frames)
    ensures Passing(ReceiveAll(frames, dropTypes), frames, dropTypes)
    decreases |frames|
  {
    if frames != [] {
      var init, frame := frames[..|frames| - 1], frames[|frames| - 1];
      assert frames == init + [frame];
      AnyRefusedSnoc(init, frame);
      AllPass(init, dropTypes);
      FlagsFollow(init, dropTypes);
      NextPasses(ReceiveAll(init, dropTypes), init, frame, dropTypes);
    } else {
      assert Explaining([]) == [];
    }
  }

  // ---------- main results ----------

  /** A run is rejected exactly when some frame is malformed, an end marker before a finished
      message, or an event out of order. */
  lemma RejectedExactlyWhen(frames: seq<Frame>, dropTypes: set<string>)
    ensures End(ReceiveAll(frames, dropTypes)).rejected <==> AnyRefused(frames)
  {
    FlagsFollow(frames, dropTypes);
  }

  /** The whole client stream of an accepted run, by its events alone: comments and the end
      marker after a finished message leave no trace. */
  lemma ClientSees(frames: seq<Frame>, dropTypes: set<string>)
    requires !AnyRefused(frames)
    ensures End(ReceiveAll(frames, dropTypes)).out == Shown(EventsOf(frames), dropTypes)
  {
    AllPass(frames, dropTypes);
    FlagsFollow(frames, dropTypes);
    EventsTell(frames);
    var out := ReceiveAll(frames, dropTypes).out;
    assert out + [] == out;
  }

  /** A rejected run shows what came before the first refused frame, and one error. */
  lemma ClientSeesUntilRefused(frames: seq<Frame>, n: nat, dropTypes: set<string>)
    requires n < |frames| && Refused(frames, n) && forall k | 0 <= k < n :: !Refused(frames, k)
    ensures End(ReceiveAll(frames, dropTypes)).out
         == FilterAll(Explaining(EventsOf(frames[..n])), dropTypes).1 + [Error]
  {
    var before, upTo := frames[..n], frames[..n + 1];
    assert upTo == before + [frames[n]];
    forall k | 0 <= k < n ensures Refused(before, k) == Refused(frames, k) {
      RefusedPrefix(frames, n, k);
    }
    RefusedPrefix(frames, n + 1, n);
    AllPass(before, dropTypes);
    FlagsFollow(before, dropTypes);
    NextRefused(ReceiveAll(before, dropTypes), before, frames[n], dropTypes);
    assert upTo[..n] == before;
    RejectedKeeps(frames, n + 1, dropTypes);
  }

  lemma RefusedPrefix(frames: seq<Frame>, n: nat, k: nat)
    requires k < n <= |frames|
    ensures Refused(frames[..n], k) == Refused(frames, k)
  {
    assert forall i | 0 <= i < n :: frames[..n][i] == frames[i];
  }

  lemma {:induction false} RejectedKeeps(frames: seq<Frame>, n: nat, dropTypes: set<string>)
    requires n <= |frames| && ReceiveAll(frames[..n], dropTypes).rejected
    ensures ReceiveAll(frames, dropTypes) == ReceiveAll(frames[..n], dropTypes)
    decreases |frames|
  {
    if n == |frames| {
      assert frames[..n] == frames;
    } else {
      assert frames[..|frames| - 1][..n] == frames[..n];
      RejectedKeeps(frames[..|frames| - 1], n, dropTypes);
    }
  }

  function WithoutComments(frames: seq<Frame>): seq<Frame> {
    if frames == [] then [] else
      var init := WithoutComments(frames[..|frames| - 1]);
      if frames[|frames| - 1].Comment? then init else init + [frames[|frames| - 1]]
  }

  /** Keep-alive comments change nothing anywhere in any run, accepted or rejected. */
  lemma {:induction false} CommentsPass(frames: seq<Frame>, dropTypes: set<string>)
    ensures ReceiveAll(WithoutComments(frames), dropTypes) == ReceiveAll(frames, dropTypes)
    decreases |frames|
  {
    if frames != [] {
      var init, frame := frames[..|frames| - 1], frames[|frames| - 1];
      CommentsPass(init, dropTypes);
      if !frame.Comment? {
        assert (WithoutComments(init) + [frame])[..|WithoutComments(init)|] == WithoutComments(init);
      }
    }
  }

  /** The end marker of a finished message, and comments around it, leave the run as it is. */
  lemma {:induction false} TrailerPasses(frames: seq<Frame>, trailer: seq<Frame>, dropTypes: set<string>)
    requires StoppedBefore(frames, |frames|) && ReasonBefore(frames, |frames|)
    requires forall f | f in trailer :: f.DoneMarker? || f.Comment?
    ensures ReceiveAll(frames + trailer, dropTypes) == ReceiveAll(frames, dropTypes)
    decreases |trailer|
  {
    if trailer == [] {
      assert frames + trailer == frames;
    } else {
      var init, f := trailer[..|trailer| - 1], trailer[|trailer| - 1];
      TrailerPasses(frames, init, dropTypes);
      assert (frames + trailer)[..|frames + trailer| - 1] == frames + init;
      assert f in trailer;
      FlagsFollow(frames, dropTypes);
    }
  }

  /** No frame is malformed, and an end marker comes only after a finished message. */
  predicate Orderly(frames: seq<Frame>) {
    forall n | 0 <= n < |frames| :: !frames[n].Malformed? && (frames[n].DoneMarker? ==> FinishedBy(frames[..n]))
  }

  predicate FinishedBy(frames: seq<Frame>) {
    Parse(EventsOf(frames)).Some? && Parse(EventsOf(frames)).value.phase == Finished
  }

  /** A grammatical source whose frames are interrupted by comments, and followed by its end
      marker, reaches the client as if its events came alone. */
  lemma {:induction false} GrammarWithNoise(frames: seq<Frame>, dropTypes: set<string>)
    requires Parse(EventsOf(frames)).Some? && Orderly(frames)
    ensures !AnyRefused(frames)
    ensures ReceiveAll(frames, dropTypes) == ReceiveAll(Frames(EventsOf(frames)), dropTypes)
    ensures ReceiveAll(frames, dropTypes).out == FilterAll(EventsOf(frames), dropTypes).1
    decreases |frames|
  {
    GrammarAccepted(EventsOf(frames), dropTypes);
    FlagsFollow(frames, dropTypes);
    if frames == [] {
      assert Frames([]) == [];
    } else {
      var init, frame := frames[..|frames| - 1], frames[|frames| - 1];
      assert forall n | 0 <= n < |init| :: init[n] == frames[n] && init[..n] == frames[..n];
      FewerParse(frames);
      GrammarWithNoise(init, dropTypes);
      if frame.Upstream? {
        assert Frames(EventsOf(frames))[..|EventsOf(init)|] == Frames(EventsOf(init));
      } else if frame.DoneMarker? {
        GrammarAccepted(EventsOf(init), dropTypes);
        FlagsFollow(init, dropTypes);
        EventsTell(init);
        FinishedStopped(EventsOf(init));
      }
    }
  }

  lemma FewerParse(frames: seq<Frame>)
    requires frames != [] && Parse(EventsOf(frames)).Some?
    ensures Parse(EventsOf(frames[..|frames| - 1])).Some?
  {
    var init, frame := frames[..|frames| - 1], frames[|frames| - 1];
    if frame.Upstream? { ParseSnoc(EventsOf(init), frame.event); }
  }

  lemma {:induction false} FinishedStopped(es: seq<Event>)
    requires Parse(es).Some? && Parse(es).value.phase == Finished
    ensures MessageStop in es
    decreases |es|
  {
    var init, e := es[..|es| - 1], es[|es| - 1];
    if Parse(init).value.phase == Finished {
      FinishedStopped(init);
    }
  }
}
