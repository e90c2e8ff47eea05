/** The bounded queue in front of the metrics file: records arrive while a batch is written,
    a failed write is rolled back and retried, and shutdown drains what it can. Steps are
    atomic at lock boundaries; a rollback that fails is not part of the model. */
module MetricsQueue {
  import opened Wrappers

  const MAX_BATCH := 256
  const MAX_QUEUE := 10000

  /** A sample; one that cannot be encoded is dropped when its batch is written. */
  datatype Sample = Sample(id: string, encodable: bool)

  /** What the holder of the file is doing. */
  datatype Writer = Idle | Writing(batch: seq<Sample>, closing: bool) | Landed(batch: seq<Sample>, closing: bool)
      | Failed(closing: bool)

  /** `given` has every sample recorded while open; `kept` says which of them, by position, are
      in the file or pending, in that order. Both are for the statements only. */
  datatype State = State(pending: seq<Sample>, dropped: nat, closed: bool, armed: bool, writer: Writer,
                         file: seq<Sample>, given: seq<Sample>, kept: seq<nat>)

  const EMPTY := State([], 0, false, false, Idle, [], [], [])

  function Capacity(maxSamples: nat): nat {
    if maxSamples < MAX_QUEUE then maxSamples else MAX_QUEUE
  }

  function Encodable(batch: seq<Sample>): seq<Sample> {
    if batch == [] then [] else
      var s := batch[|batch| - 1];
      Encodable(batch[..|batch| - 1]) + if s.encodable then [s] else []
  }

  /** The positions of a batch's encodable samples. */
  function KeptOf(batch: seq<Sample>, at: seq<nat>): seq<nat>
    requires |at| == |batch|
  {
    if batch == [] then [] else
      KeptOf(batch[..|batch| - 1], at[..|at| - 1]) + if batch[|batch| - 1].encodable then [at[|at| - 1]] else []
  }

  // ---------- steps ----------

  predicate Flushing(w: Writer) {
    !w.Idle? && !w.closing
  }

  function Record(s: State, sample: Sample, maxSamples: nat): State {
    if s.closed then s
    else
      var s' := s.(given := s.given + [sample]);
      if |s.pending| >= Capacity(maxSamples) then s'.(dropped := s.dropped + 1)
      else s'.(pending := s.pending + [sample], kept := s.kept + [|s.given|], armed := s.armed || !Flushing(s.writer))
  }

  function Batch(pending: seq<Sample>): (batch: seq<Sample>)
    ensures batch <= pending && |batch| <= MAX_BATCH && (|batch| < MAX_BATCH ==> batch == pending)
  {
    if |pending| <= MAX_BATCH then pending else pending[..MAX_BATCH]
  }

  /** The timer fires, or shutdown drains: the holder of the file copies the front of the queue. */
  function Begin(s: State, closing: bool): State {
    var s' := if closing then s else s.(armed := false);
    if s.pending == [] then s' else s'.(writer := Writing(Batch(s.pending), closing))
  }

  /** The batch is in the file and synced. */
  function Land(s: State): State
    requires s.writer.Writing?
  {
    s.(file := s.file + Encodable(s.writer.batch), writer := Landed(s.writer.batch, s.writer.closing))
  }

  /** The write failed and the file is as it was. */
  function RollBack(s: State): State
    requires s.writer.Writing?
  {
    s.(writer := Failed(s.writer.closing))
  }

  /** How many of the file's samples are also still in the queue. */
  function Both(s: State): nat {
    if s.writer.Landed? then |Encodable(s.writer.batch)| else 0
  }

  /** The queue gives up the batch that is in the file. */
  function Commit(s: State): State
    requires Inv(s) && s.writer.Landed?
  {
    EncodableFits(s.writer.batch);
    var batch, n := s.writer.batch, |s.file| - Both(s);
    s.(pending := s.pending[|batch|..],
       dropped := s.dropped + (|batch| - |Encodable(batch)|),
       kept := s.kept[..n] + KeptOf(batch, s.kept[n..n + |batch|]) + s.kept[n + |batch|..],
       writer := Idle,
       armed := s.armed || (!s.writer.closing && !s.closed && |s.pending| > |batch|))
  }

  /** After a failed flush the whole queue is tried again later; a failed drain gives it up. */
  function Settle(s: State): State
    requires Inv(s) && s.writer.Failed?
  {
    if s.writer.closing then s.(pending := [], dropped := s.dropped + |s.pending|, kept := s.kept[..|s.file|],
        writer := Idle)
    else s.(writer := Idle, armed := s.armed || (!s.closed && s.pending != []))
  }

  function Close(s: State): State {
    s.(closed := true, armed := false)
  }

  // ---------- the invariant ----------

  lemma {:induction false} EncodableFits(batch: seq<Sample>)
    ensures |Encodable(batch)| <= |batch|
    decreases |batch|
  {
    if batch != [] { EncodableFits(batch[..|batch| - 1]); }
  }

  /** The samples accounted for as stored: those in the file, then those only in the queue. */
  function Stored(s: State): seq<Sample>
    requires Both(s) <= |s.file|
  {
    s.file[..|s.file| - Both(s)] + s.pending
  }

  predicate Increasing(at: seq<nat>, bound: nat) {
    && (forall i :: 0 <= i < |at| ==> at[i] < bound)
    && (forall i, j :: 0 <= i < j < |at| ==> at[i] < at[j])
  }

  predicate Matches(stored: seq<Sample>, given: seq<Sample>, at: seq<nat>) {
    |at| == |stored| && forall i :: 0 <= i < |at| ==> at[i] < |given| && stored[i] == given[at[i]]
  }

  /** A selection of what was given, by increasing positions. */
  predicate Picks(stored: seq<Sample>, given: seq<Sample>, at: seq<nat>) {
    Increasing(at, |given|) && Matches(stored, given, at)
  }

  predicate Inv(s: State) {
    && Both(s) <= |s.file|
    && Picks(Stored(s), s.given, s.kept)
    && |s.given| == |s.kept| + s.dropped
    && (s.writer.Writing? || s.writer.Landed? ==> s.writer.batch <= s.pending)
    && (s.writer.Landed? ==> s.file[|s.file| - Both(s)..] == Encodable(s.writer.batch))
    && (!s.closed && s.pending != [] ==> s.armed || Flushing(s.writer))
    && (Closing(s.writer) ==> s.closed)
  }

  predicate Closing(w: Writer) {
    !w.Idle? && w.closing
  }

  lemma PicksMore(stored: seq<Sample>, given: seq<Sample>, at: seq<nat>, sample: Sample)
    requires Picks(stored, given, at)
    ensures Picks(stored, given + [sample], at)
    ensures Picks(stored + [sample], given + [sample], at + [|given|])
  {
  }

  lemma RecordKeeps(s: State, sample: Sample, maxSamples: nat)
    requires Inv(s)
    ensures Inv(Record(s, sample, maxSamples))
  {
    if !s.closed {
      PicksMore(Stored(s), s.given, s.kept, sample);
      var s' := Record(s, sample, maxSamples);
      if |s.pending| < Capacity(maxSamples) {
        assert Stored(s') == Stored(s) + [sample];
      } else {
        assert Stored(s') == Stored(s);
      }
    }
  }

  lemma BeginKeeps(s: State, closing: bool)
    requires Inv(s) && s.writer.Idle? && (closing ==> s.closed)
    ensures Inv(Begin(s, closing))
  {
    assert Stored(Begin(s, closing)) == Stored(s);
  }

  lemma LandKeeps(s: State)
    requires Inv(s) && s.writer.Writing?
    ensures Inv(Land(s))
  {
    var s' := Land(s);
    assert s'.file[..|s.file|] == s.file && s.file[..|s.file|] == s.file;
    assert Stored(s') == Stored(s);
  }

  lemma RollBackKeeps(s: State)
    requires Inv(s) && s.writer.Writing?
    ensures Inv(RollBack(s))
  {
    assert Stored(RollBack(s)) == Stored(s);
  }

  lemma IncreasingSnoc(at: seq<nat>, last: nat, bound: nat)
    requires Increasing(at, last) && last < bound
    ensures Increasing(at + [last], bound)
  {
  }

  lemma IncreasingFront(at: seq<nat>, bound: nat)
    requires Increasing(at, bound) && at != []
    ensures Increasing(at[..|at| - 1], at[|at| - 1]) && at[|at| - 1] < bound
  {
  }

  /** The positions kept of a batch are among its positions, and increase. */
  lemma {:induction false} KeptIncreases(batch: seq<Sample>, at: seq<nat>, bound: nat)
    requires |at| == |batch| && Increasing(at, bound)
    ensures Increasing(KeptOf(batch, at), bound)
    ensures forall k :: k in KeptOf(batch, at) ==> k in at
    decreases |batch|
  {
    if batch != [] {
      var n := |batch| - 1;
      IncreasingFront(at, bound);
      KeptIncreases(batch[..n], at[..n], at[n]);
      assert forall k :: k in at[..n] ==> k in at;
      IncreasingSnoc(KeptOf(batch[..n], at[..n]), at[n], bound);
    }
  }

  /** They pick the encodable samples. */
  lemma {:induction false} KeptMatches(batch: seq<Sample>, given: seq<Sample>, at: seq<nat>)
    requires Matches(batch, given, at)
    ensures Matches(Encodable(batch), given, KeptOf(batch, at))
    decreases |batch|
  {
    if batch != [] {
      KeptMatches(batch[..|batch| - 1], given, at[..|batch| - 1]);
    }
  }

  /** Replacing the middle by a selection of it keeps positions increasing. */
  lemma Thinned(x: seq<nat>, y: seq<nat>, z: seq<nat>, y': seq<nat>, bound: nat)
    requires Increasing(x + y + z, bound) && Increasing(y', bound) && forall k :: k in y' ==> k in y
    ensures Increasing(x + y' + z, bound)
  {
    var all, thin := x + y + z, x + y' + z;
    forall i, j | 0 <= i < |x| && 0 <= j < |y'| ensures x[i] < y'[j] {
      assert y'[j] in y;
      var m :| 0 <= m < |y| && y[m] == y'[j];
      assert all[i] == x[i] && all[|x| + m] == y[m];
    }
    forall i, j | 0 <= i < |y'| && 0 <= j < |z| ensures y'[i] < z[j] {
      assert y'[i] in y;
      var m :| 0 <= m < |y| && y[m] == y'[i];
      assert all[|x| + m] == y[m] && all[|x| + |y| + j] == z[j];
    }
    forall i, j | 0 <= i < |x| && 0 <= j < |z| ensures x[i] < z[j] {
      assert all[i] == x[i] && all[|x| + |y| + j] == z[j];
    }
    EndsIncrease(x, y, z, bound);
  }

  lemma EndsIncrease(x: seq<nat>, y: seq<nat>, z: seq<nat>, bound: nat)
    requires Increasing(x + y + z, bound)
    ensures Increasing(x, bound) && Increasing(z, bound)
  {
    var all := x + y + z;
    assert forall i :: 0 <= i < |x| ==> all[i] == x[i];
    assert forall i :: 0 <= i < |z| ==> all[|x| + |y| + i] == z[i];
  }

  lemma MatchesJoin(a: seq<Sample>, b: seq<Sample>, given: seq<Sample>, x: seq<nat>, y: seq<nat>)
    requires |x| == |a| && |y| == |b|
    ensures Matches(a + b, given, x + y) <==> Matches(a, given, x) && Matches(b, given, y)
  {
    var all, at := a + b, x + y;
    if Matches(all, given, at) {
      forall i | 0 <= i < |a| ensures x[i] < |given| && a[i] == given[x[i]] {
        assert all[i] == a[i] && at[i] == x[i];
      }
      forall i | 0 <= i < |b| ensures y[i] < |given| && b[i] == given[y[i]] {
        assert all[|a| + i] == b[i] && at[|a| + i] == y[i];
      }
    }
  }

  /** Committing a batch picks its encodable samples and nothing else changes place. */
  lemma ThinnedPicks(a: seq<Sample>, b: seq<Sample>, c: seq<Sample>, given: seq<Sample>, x: seq<nat>, y: seq<nat>,
                     z: seq<nat>)
    requires |x| == |a| && |y| == |b| && |z| == |c|
    requires Picks(a + b + c, given, x + y + z)
    ensures Picks(a + Encodable(b) + c, given, x + KeptOf(b, y) + z)
  {
    MatchesJoin(a + b, c, given, x + y, z);
    MatchesJoin(a, b, given, x, y);
    KeptMatches(b, given, y);
    MatchesJoin(a, Encodable(b), given, x, KeptOf(b, y));
    MatchesJoin(a + Encodable(b), c, given, x + KeptOf(b, y), z);
    MiddleIncreases(x, y, z, |given|);
    KeptIncreases(b, y, |given|);
    Thinned(x, y, z, KeptOf(b, y), |given|);
  }

  lemma MiddleIncreases(x: seq<nat>, y: seq<nat>, z: seq<nat>, bound: nat)
    requires Increasing(x + y + z, bound)
    ensures Increasing(y, bound)
  {
    var all := x + y + z;
    assert forall i :: 0 <= i < |y| ==> all[|x| + i] == y[i];
  }

  lemma SplitAt<T>(xs: seq<T>, n: nat)
    requires n <= |xs|
    ensures xs == xs[..n] + xs[n..] && xs[..|xs|] == xs
  {
  }

  lemma SplitTwice<T>(xs: seq<T>, n: nat, m: nat)
    requires n <= m <= |xs|
    ensures xs == xs[..n] + xs[n..m] + xs[m..]
  {
  }

  lemma Regroup<T>(a: seq<T>, b: seq<T>, c: seq<T>)
    ensures a + (b + c) == a + b + c
  {
  }

  /** What was stored before a commit and is after it. */
  lemma CommitStores(s: State)
    requires Inv(s) && s.writer.Landed?
    ensures var batch, n := s.writer.batch, |s.file| - Both(s);
      && |batch| <= |s.pending| && n + |batch| <= |s.kept|
      && Stored(s) == s.file[..n] + batch + s.pending[|batch|..]
      && Stored(Commit(s)) == s.file[..n] + Encodable(batch) + s.pending[|batch|..]
  {
    var batch, n := s.writer.batch, |s.file| - Both(s);
    SplitAt(s.file, n);
    SplitAt(s.pending, |batch|);
    Regroup(s.file[..n], batch, s.pending[|batch|..]);
  }

  lemma CommitKeeps(s: State)
    requires Inv(s) && s.writer.Landed?
    ensures Inv(Commit(s))
  {
    var batch, n := s.writer.batch, |s.file| - Both(s);
    EncodableFits(batch);
    CommitStores(s);
    SplitTwice(s.kept, n, n + |batch|);
    var x, y, z := s.kept[..n], s.kept[n..n + |batch|], s.kept[n + |batch|..];
    ThinnedPicks(s.file[..n], batch, s.pending[|batch|..], s.given, x, y, z);
    KeptPicksSize(batch, y);
  }

  lemma {:induction false} KeptPicksSize(batch: seq<Sample>, at: seq<nat>)
    requires |at| == |batch|
    ensures |KeptOf(batch, at)| == |Encodable(batch)|
    decreases |batch|
  {
    if batch != [] { KeptPicksSize(batch[..|batch| - 1], at[..|at| - 1]); }
  }

  lemma SettleKeeps(s: State)
    requires Inv(s) && s.writer.Failed?
    ensures Inv(Settle(s))
  {
    var s' := Settle(s);
    if s.writer.closing {
      assert s.file[..|s.file|] == s.file;
      assert Stored(s') == s.file;
      forall i | 0 <= i < |s.file| ensures s.file[i] == s.given[s.kept[i]] {
        assert Stored(s)[i] == s.file[i];
      }
    } else {
      assert Stored(s') == Stored(s);
    }
  }

  lemma CloseKeeps(s: State)
    requires Inv(s)
    ensures Inv(Close(s))
  {
    assert Stored(Close(s)) == Stored(s);
  }

  // ---------- runs ----------

  datatype Step = Put(sample: Sample) | Fire | Drain | Written | RolledBack | Taken | Settled | Shut

  predicate Legal(s: State, step: Step) {
    match step
    case Put(_) => true
    case Fire => s.writer.Idle? && s.armed
    case Drain => s.writer.Idle? && s.closed
    case Written => s.writer.Writing?
    case RolledBack => s.writer.Writing?
    case Taken => s.writer.Landed?
    case Settled => s.writer.Failed?
    case Shut => true
  }

  function Apply(s: State, step: Step, maxSamples: nat): State
    requires Inv(s) && Legal(s, step)
  {
    match step
    case Put(sample) => Record(s, sample, maxSamples)
    case Fire => Begin(s, false)
    case Drain => Begin(s, true)
    case Written => Land(s)
    case RolledBack => RollBack(s)
    case Taken => Commit(s)
    case Settled => Settle(s)
    case Shut => Close(s)
  }

  lemma StepKeeps(s: State, step: Step, maxSamples: nat)
    requires Inv(s) && Legal(s, step) && |s.pending| <= Capacity(maxSamples)
    ensures Inv(Apply(s, step, maxSamples)) && |Apply(s, step, maxSamples).pending| <= Capacity(maxSamples)
  {
    match step
    case Put(sample) => RecordKeeps(s, sample, maxSamples);
    case Fire => BeginKeeps(s, false);
    case Drain => BeginKeeps(s, true);
    case Written => LandKeeps(s);
    case RolledBack => RollBackKeeps(s);
    case Taken => CommitKeeps(s);
    case Settled => SettleKeeps(s);
    case Shut => CloseKeeps(s);
  }

  /** The state after a run; None where a step was not possible. */
  function Final(run: seq<Step>, maxSamples: nat): (r: Option<State>)
    ensures r.Some? ==> Inv(r.value) && |r.value.pending| <= Capacity(maxSamples)
  {
    if run == [] then Some(EMPTY) else
      match Final(run[..|run| - 1], maxSamples)
      case None => None
      case Some(s) =>
        var step := run[|run| - 1];
        if !Legal(s, step) then None else StepKeeps(s, step, maxSamples); Some(Apply(s, step, maxSamples))
  }

  /** Every sample given to the open store is in the file, or pending, or counted as dropped:
      what is stored is a selection of what was given, each once and in order, and the numbers
      add up. The queue never exceeds its capacity, and an open queue that is not empty has a
      timer or a flush under way. */
  lemma NothingLostOrDoubled(run: seq<Step>, maxSamples: nat)
    requires Final(run, maxSamples).Some?
    ensures var s := Final(run, maxSamples).value;
      && (exists at :: Picks(Stored(s), s.given, at) && |s.given| == |at| + s.dropped)
      && |s.pending| <= Capacity(maxSamples)
      && (!s.closed && s.pending != [] ==> s.armed || Flushing(s.writer))
      && (!s.writer.Landed? ==> Stored(s) == s.file + s.pending)
  {
    var s := Final(run, maxSamples).value;
    assert Picks(Stored(s), s.given, s.kept);
    if !s.writer.Landed? { assert s.file[..|s.file|] == s.file; }
  }

  /** After a shutdown has drained the queue, what is not in the file is counted as dropped. */
  lemma DrainedAccountsForAll(run: seq<Step>, maxSamples: nat)
    requires Final(run, maxSamples).Some?
    requires var s := Final(run, maxSamples).value; s.writer.Idle? && s.pending == []
    ensures var s := Final(run, maxSamples).value; |s.given| == |s.file| + s.dropped
  {
  }

  // ---------- when a sample is lost ----------

  /** A sample given to an open store is queued while there is room, behind all others, and
      otherwise counted as dropped; a closed store ignores it. */
  lemma RecordMeans(s: State, sample: Sample, maxSamples: nat)
    requires Inv(s)
    ensures var s' := Record(s, sample, maxSamples);
      var room := |s.pending| < maxSamples && |s.pending| < 10_000;
      && (s.closed ==> s' == s)
      && (!s.closed && room ==> s'.pending == s.pending + [sample] && s'.dropped == s.dropped)
      && (!s.closed && !room ==> s'.pending == s.pending && s'.dropped == s.dropped + 1)
      && (!s.closed ==> s'.given == s.given + [sample])
  {
  }

  /** The samples a run gives to the store before it is closed. */
  function Offered(run: seq<Step>): seq<Sample> {
    if run == [] then [] else
      var init, step := run[..|run| - 1], run[|run| - 1];
      if step.Put? && Shut !in init then Offered(init) + [step.sample] else Offered(init)
  }

  lemma OfferedSnoc(run: seq<Step>, step: Step)
    ensures Offered(run + [step]) ==
      if step.Put? && Shut !in run then Offered(run) + [step.sample] else Offered(run)
    ensures Shut in run + [step] <==> Shut in run || step == Shut
  {
    assert (run + [step])[..|run|] == run;
  }

  lemma FinalLast(run: seq<Step>, maxSamples: nat)
    requires run != [] && Final(run, maxSamples).Some?
    ensures var before, step := Final(run[..|run| - 1], maxSamples), run[|run| - 1];
      before.Some? && Legal(before.value, step)
      && Final(run, maxSamples).value == Apply(before.value, step, maxSamples)
  {
  }

  lemma {:induction false} GivenIsOffered(run: seq<Step>, maxSamples: nat)
    requires Final(run, maxSamples).Some?
    ensures Final(run, maxSamples).value.given == Offered(run)
    ensures Final(run, maxSamples).value.closed <==> Shut in run
    decreases |run|
  {
    if run != [] {
      var init, step := run[..|run| - 1], run[|run| - 1];
      FinalLast(run, maxSamples);
      GivenIsOffered(init, maxSamples);
      StepGives(Final(init, maxSamples).value, step, maxSamples);
      OfferedSnoc(init, step);
      assert run == init + [step];
    }
  }

  lemma StepGives(s: State, step: Step, maxSamples: nat)
    requires Inv(s) && Legal(s, step)
    ensures var s' := Apply(s, step, maxSamples);
      && s'.given == (if step.Put? && !s.closed then s.given + [step.sample] else s.given)
      && (s'.closed <==> s.closed || step == Shut)
  {
  }

  /** The step loses a sample: one finds the queue full, one of a written batch cannot be
      encoded, or the drain at shutdown gives up. */
  predicate Loses(s: State, step: Step, maxSamples: nat) {
    || (step.Put? && !s.closed && (|s.pending| >= maxSamples || |s.pending| >= 10_000))
    || (step.Taken? && s.writer.Landed? && exists i :: 0 <= i < |s.writer.batch| && !s.writer.batch[i].encodable)
    || (step.Settled? && s.writer.Failed? && s.writer.closing && s.pending != [])
  }

  predicate AnyLoss(run: seq<Step>, maxSamples: nat)
    requires Final(run, maxSamples).Some?
  {
    run != [] &&
    (AnyLoss(run[..|run| - 1], maxSamples)
        || Loses(Final(run[..|run| - 1], maxSamples).value, run[|run| - 1], maxSamples))
  }

  lemma {:induction false} EncodableWhole(batch: seq<Sample>)
    ensures |Encodable(batch)| < |batch| <==> exists i :: 0 <= i < |batch| && !batch[i].encodable
    decreases |batch|
  {
    if batch != [] {
      var n := |batch| - 1;
      EncodableWhole(batch[..n]);
      EncodableFits(batch[..n]);
      if i :| 0 <= i < n && !batch[i].encodable { assert !batch[..n][i].encodable; }
    }
  }

  lemma StepLoses(s: State, step: Step, maxSamples: nat)
    requires Inv(s) && Legal(s, step)
    ensures Apply(s, step, maxSamples).dropped >= s.dropped
    ensures Apply(s, step, maxSamples).dropped > s.dropped <==> Loses(s, step, maxSamples)
  {
    if step.Taken? {
      EncodableFits(s.writer.batch);
      EncodableWhole(s.writer.batch);
    }
  }

  lemma {:induction false} DroppedIffLoss(run: seq<Step>, maxSamples: nat)
    requires Final(run, maxSamples).Some?
    ensures Final(run, maxSamples).value.dropped > 0 <==> AnyLoss(run, maxSamples)
    decreases |run|
  {
    if run != [] {
      DroppedIffLoss(run[..|run| - 1], maxSamples);
      StepLoses(Final(run[..|run| - 1], maxSamples).value, run[|run| - 1], maxSamples);
    }
  }

  lemma {:induction false} AllPicked(stored: seq<Sample>, given: seq<Sample>, at: seq<nat>)
    requires Picks(stored, given, at) && |at| == |given|
    ensures stored == given
  {
    forall i | 0 <= i < |at| ensures at[i] == i {
      AtLeast(at, i);
      AtMost(at, |given|, i);
    }
  }

  lemma {:induction false} AtLeast(at: seq<nat>, i: nat)
    requires i < |at| && forall i, j :: 0 <= i < j < |at| ==> at[i] < at[j]
    ensures i <= at[i]
  {
    if i > 0 { AtLeast(at, i - 1); }
  }

  lemma {:induction false} AtMost(at: seq<nat>, bound: nat, i: nat)
    requires i < |at| && Increasing(at, bound)
    ensures at[i] + (|at| - i) <= bound
    decreases |at| - i
  {
    if i + 1 < |at| { AtMost(at, bound, i + 1); }
  }

  /** As long as no sample finds the queue full, every written batch can be encoded and no
      drain fails, the store has every sample it was given before it was closed, in order. */
  lemma NothingLostExactlyWhen(run: seq<Step>, maxSamples: nat)
    requires Final(run, maxSamples).Some?
    ensures Stored(Final(run, maxSamples).value) == Offered(run) <==> !AnyLoss(run, maxSamples)
  {
    var s := Final(run, maxSamples).value;
    GivenIsOffered(run, maxSamples);
    DroppedIffLoss(run, maxSamples);
    if !AnyLoss(run, maxSamples) { AllPicked(Stored(s), s.given, s.kept); }
  }

  // ---------- the store ----------

  class MetricsStore {
    const maxSamples: nat
    var pending: seq<Sample>
    var dropped: nat
    var closed: bool
    var armed: bool
    ghost var writer: Writer
    var file: seq<Sample>
    ghost var given: seq<Sample>
    ghost var kept: seq<nat>

    ghost function View(): State
      reads this
    {
      State(pending, dropped, closed, armed, writer, file, given, kept)
    }

    constructor (maxSamples: nat)
      ensures View() == EMPTY && this.maxSamples == maxSamples
    {
      this.maxSamples := maxSamples;
      pending, dropped, closed, armed, writer, file, given, kept := [], 0, false, false, Idle, [], [], [];
    }

    /** `flushing` is the flag of a flush under way. */
    method RecordSample(sample: Sample, flushing: bool)
      requires flushing == Flushing(writer)
      modifies this
      ensures View() == Record(old(View()), sample, maxSamples)
    {
      if closed {
        return;
      }
      given := given + [sample];
      var capacity := if maxSamples < MAX_QUEUE then maxSamples else MAX_QUEUE;
      if |pending| >= capacity {
        dropped := dropped + 1;
        return;
      }
      pending := pending + [sample];
      kept := kept + [|given| - 1];
      if !armed && !flushing {
        armed := true;
      }
    }

    /** Encodes a batch, skipping what cannot be encoded. */
    method Encode(batch: seq<Sample>) returns (lines: seq<Sample>)
      ensures lines == Encodable(batch)
    {
      lines := [];
      var i := 0;
      while i < |batch|
        invariant 0 <= i <= |batch| && lines == Encodable(batch[..i])
      {
        assert batch[..i + 1][..i] == batch[..i];
        if batch[i].encodable {
          lines := lines + [batch[i]];
        }
        i := i + 1;
      }
      assert batch[..i] == batch;
    }

    /** One batch when nobody else records: true when it was written or there was none. */
    method FlushBatch(succeeds: bool, closing: bool) returns (ok: bool)
      requires Inv(View()) && writer.Idle? && !armed && (closing ==> closed)
      modifies this
      ensures Inv(View()) && given == old(given) && closed == old(closed) && (closing ==> !armed)
      ensures old(pending) == [] ==> ok && View() == old(View())
      ensures old(pending) != [] ==> ok == succeeds
      ensures old(pending) != [] && ok ==>
        writer.Idle? && file == old(file) + Encodable(Batch(old(pending)))
            && pending == old(pending)[|Batch(old(pending))|..]
      ensures old(pending) != [] && !ok ==> View() == RollBack(Begin(old(View()), closing))
    {
      var batch := if |pending| <= MAX_BATCH then pending else pending[..MAX_BATCH];
      if |batch| == 0 {
        return true;
      }
      BeginKeeps(View(), closing);
      writer := Writing(batch, closing);
      if !succeeds {
        RollBackKeeps(View());
        writer := Failed(closing);
        return false;
      }
      WriteBatch(batch);
      TakeBatch(batch);
      return true;
    }

    method WriteBatch(batch: seq<Sample>)
      requires Inv(View()) && writer.Writing? && writer.batch == batch
      modifies this`file, this`writer
      ensures View() == Land(old(View())) && Inv(View())
    {
      LandKeeps(View());
      var lines := Encode(batch);
      file, writer := file + lines, Landed(batch, writer.closing);
    }

    /** Takes the written batch off the front of the queue. */
    method TakeBatch(batch: seq<Sample>)
      requires Inv(View()) && writer.Landed? && writer.batch == batch && !armed
      modifies this
      ensures View() == Commit(old(View())) && Inv(View())
    {
      ghost var s := View();
      CommitKeeps(s);
      EncodableFits(batch);
      var lines := Encode(batch);
      armed := !closed && |pending| > |batch|;
      pending := pending[|batch|..];
      dropped := dropped + (|batch| - |lines|);
      kept, writer := Commit(s).kept, Idle;
    }

    /** Shutdown writes batches until the queue is empty, and gives up what is left at the first
        failure; then every sample ever given is in the file or counted as dropped. */
    method Drain(succeeds: nat -> bool)
      requires Inv(View()) && writer.Idle? && closed && !armed
      modifies this
      ensures Inv(View()) && given == old(given) && closed
      ensures writer.Idle? && pending == [] && |given| == |file| + dropped
    {
      var batches := 0;
      var ok := true;
      while |pending| > 0 && ok
        invariant Inv(View()) && given == old(given) && closed && !armed
        invariant if ok then writer.Idle? else writer == Failed(true)
        decreases |pending|, ok
      {
        ok := FlushBatch(succeeds(batches), true);
        batches := batches + 1;
      }
      if !ok {
        ghost var s := View();
        SettleKeeps(s);
        dropped := dropped + |pending|;
        pending := [];
        kept, writer := Settle(s).kept, Idle;
      }
    }
  }
}
