/** The coalescing writer of account pins: requests change a live map and bump a generation,
    one writer copies the map and replaces the file. Steps are atomic at lock boundaries. */
module PinWriter {
  const MAX_PINS := 10000
  const ATTEMPTS := 3

  datatype Pin = Pin(profileHash: string, lastUsed: int)

  /** What a pin file is for: which account each conversation is bound to. */
  function Bindings(pins: map<string, Pin>): map<string, string> {
    map key | key in pins :: pins[key].profileHash
  }

  datatype Control =
    | Idle
    | Woken(stopping: bool)
    | Writing(stopping: bool, generation: nat, pins: map<string, Pin>, attempt: nat)
    | Attempted(stopping: bool, generation: nat, failed: bool)
    | Done

  /** `onDisk` is the generation the file holds, or -1 while it is as found at start;
      `history` has the bindings of every generation. Both are for the statements only. */
  datatype State = State(live: map<string, Pin>, generation: nat, attempted: nat, err: bool, wake: bool, stop: bool,
                         closed: bool, writer: Control, disk: map<string, Pin>, onDisk: int,
                         history: seq<map<string, string>>)

  /** A failed replacement may leave either file behind. */
  datatype Outcome = Saved | Unchanged | Doubtful

  datatype Step =
    | Remember(key: string, profileHash: string, now: int, victim: string)
    | TakeWake | TakeStop | Look | Try(outcome: Outcome) | Publish
    | CloseFlag | CloseStop

  predicate Initial(s: State) {
    s == State(s.live, 0, 0, false, false, false, false, Idle, s.disk, -1, [Bindings(s.live)])
  }

  // ---------- steps ----------

  function Put(s: State, key: string, profileHash: string, now: int): map<string, Pin> {
    s.live[key := Pin(profileHash, now)]
  }

  predicate Unchanging(live: map<string, Pin>, key: string, profileHash: string) {
    key in live && live[key].profileHash == profileHash
  }

  /** The pin to evict: the least recently used one other than the newcomer. */
  predicate Oldest(pins: map<string, Pin>, victim: string, key: string) {
    victim in pins && victim != key && forall k :: k in pins && k != key ==> pins[victim].lastUsed <= pins[k].lastUsed
  }

  predicate Legal(s: State, step: Step) {
    match step
    case Remember(key, hash, now, victim) =>
      !s.closed && !Unchanging(s.live, key, hash) && |Put(s, key, hash, now)| > MAX_PINS ==>
          Oldest(Put(s, key, hash, now), victim, key)
    case TakeWake => s.writer.Idle? && s.wake
    case TakeStop => s.writer.Idle? && s.stop && s.generation > 0
    case Look => s.writer.Woken?
    case Try(_) => s.writer.Writing?
    case Publish => s.writer.Attempted?
    case CloseFlag => true
    case CloseStop => s.closed && s.generation > 0
  }

  function Remembered(s: State, key: string, profileHash: string, now: int, victim: string): State {
    if s.closed then s
    else
      var put := Put(s, key, profileHash, now);
      if Unchanging(s.live, key, profileHash) then s.(live := put)
      else
        var live := if |put| > MAX_PINS then put - {victim} else put;
        s.(live := live, generation := s.generation + 1, wake := true, history := s.history + [Bindings(live)])
  }

  /** Under the lock: nothing to do, or a snapshot of the live map to write. */
  function Looked(s: State): State
    requires s.writer.Woken?
  {
    if s.generation == s.attempted && (!s.writer.stopping || !s.err)
        then s.(writer := if s.writer.stopping then Done else Idle)
    else s.(writer := Writing(s.writer.stopping, s.generation, s.live, 0))
  }

  /** One attempt at replacing the file; the last failure is given up on. */
  function Tried(s: State, outcome: Outcome): State
    requires s.writer.Writing?
  {
    var w := s.writer;
    var next := if outcome.Saved? then Attempted(w.stopping, w.generation, false)
                else if w.attempt + 1 >= ATTEMPTS then Attempted(w.stopping, w.generation, true)
                else Writing(w.stopping, w.generation, w.pins, w.attempt + 1);
    if outcome.Unchanged? then s.(writer := next) else s.(writer := next, disk := w.pins, onDisk := w.generation)
  }

  function Published(s: State): State
    requires s.writer.Attempted?
  {
    s.(attempted := s.writer.generation, err := s.writer.failed, writer := if s.writer.stopping then Done else Idle)
  }

  function Apply(s: State, step: Step): State {
    match step
    case Remember(key, hash, now, victim) => Remembered(s, key, hash, now, victim)
    case TakeWake => s.(wake := false, writer := Woken(false))
    case TakeStop => s.(writer := Woken(true))
    case Look => if s.writer.Woken? then Looked(s) else s
    case Try(outcome) => if s.writer.Writing? then Tried(s, outcome) else s
    case Publish => if s.writer.Attempted? then Published(s) else s
    case CloseFlag => s.(closed := true)
    case CloseStop => s.(stop := true)
  }

  function Final(s: State, run: seq<Step>): State {
    if run == [] then s else Apply(Final(s, run[..|run| - 1]), run[|run| - 1])
  }

  predicate LegalRun(s: State, run: seq<Step>) {
    run == [] || (LegalRun(s, run[..|run| - 1]) && Legal(Final(s, run[..|run| - 1]), run[|run| - 1]))
  }

  // ---------- the invariant ----------

  /** The generation the writer has read, or will not read again before the next token. */
  function LastRead(s: State): nat {
    if s.writer.Writing? || s.writer.Attempted? then s.writer.generation else s.attempted
  }

  predicate NoWakeupLost(s: State) {
    s.generation > LastRead(s) ==> s.wake || s.writer.Woken?
  }

  predicate Recorded(s: State) {
    && |s.history| == s.generation + 1
    && s.history[s.generation] == Bindings(s.live)
    && -1 <= s.onDisk <= s.generation
    && (s.onDisk >= 0 ==> Bindings(s.disk) == s.history[s.onDisk])
    && (s.writer.Writing? ==>
        s.writer.generation <= s.generation && Bindings(s.writer.pins) == s.history[s.writer.generation])
  }

  predicate Ordered(s: State) {
    && s.attempted <= LastRead(s) <= s.generation
    && s.onDisk <= LastRead(s)
    && (!s.err && s.attempted > 0 ==> s.onDisk >= s.attempted)
    && (s.writer.Attempted? && !s.writer.failed ==> s.onDisk == s.writer.generation)
    && (s.writer.Attempted? || s.writer.Writing? ==> s.writer.generation > 0)
    && (s.generation == 0 ==> s.writer.Idle? && !s.wake && !s.err && s.onDisk == -1)
    && (s.writer.Writing? ==> s.writer.attempt < ATTEMPTS)
  }

  predicate Shutdown(s: State) {
    && (s.stop ==> s.closed)
    && (s.writer.Woken? || s.writer.Writing? || s.writer.Attempted? ==> s.writer.stopping ==> s.stop)
    && ((s.writer.Writing? || s.writer.Attempted?) && s.writer.stopping ==> s.writer.generation == s.generation)
    && (s.writer.Done? ==> s.stop && s.attempted == s.generation)
  }

  predicate Inv(s: State) {
    Recorded(s) && Ordered(s) && Shutdown(s) && NoWakeupLost(s)
  }

  lemma RememberKeeps(s: State, key: string, profileHash: string, now: int, victim: string)
    requires Inv(s)
    ensures Inv(Remembered(s, key, profileHash, now, victim))
  {
    if !s.closed && Unchanging(s.live, key, profileHash) {
      assert Bindings(Put(s, key, profileHash, now)) == Bindings(s.live);
    }
  }

  lemma TriedRecorded(s: State, outcome: Outcome)
    requires Recorded(s) && Ordered(s) && s.writer.Writing?
    ensures Recorded(Tried(s, outcome))
  {
    var s' := Tried(s, outcome);
    assert s'.history == s.history && s'.live == s.live;
    assert outcome.Unchanged? ==> s'.disk == s.disk;
    assert !outcome.Unchanged? ==> s'.disk == s.writer.pins;
  }

  lemma TryKeeps(s: State, outcome: Outcome)
    requires Inv(s) && s.writer.Writing?
    ensures Inv(Tried(s, outcome))
  {
    TriedRecorded(s, outcome);
  }

  lemma LookedRecorded(s: State)
    requires Recorded(s) && s.writer.Woken?
    ensures Recorded(Looked(s))
  {
  }

  lemma LookedOrdered(s: State)
    requires Ordered(s) && Shutdown(s) && s.writer.Woken?
    ensures Ordered(Looked(s)) && Shutdown(Looked(s)) && NoWakeupLost(Looked(s))
  {
  }

  lemma LookKeeps(s: State)
    requires Inv(s) && s.writer.Woken?
    ensures Inv(Looked(s))
  {
    LookedRecorded(s);
    LookedOrdered(s);
  }

  lemma PublishKeeps(s: State)
    requires Inv(s) && s.writer.Attempted?
    ensures Inv(Published(s))
  {
  }

  lemma SignalKeeps(s: State, step: Step)
    requires Inv(s) && Legal(s, step) && (step.TakeWake? || step.TakeStop? || step.CloseFlag? || step.CloseStop?)
    ensures Inv(Apply(s, step))
  {
  }

  lemma StepKeeps(s: State, step: Step)
    requires Inv(s) && Legal(s, step)
    ensures Inv(Apply(s, step))
  {
    match step
    case Remember(key, hash, now, victim) => RememberKeeps(s, key, hash, now, victim);
    case Look => LookKeeps(s);
    case Try(outcome) => TryKeeps(s, outcome);
    case Publish => PublishKeeps(s);
    case _ => SignalKeeps(s, step);
  }

  lemma {:induction false} RunKeeps(s: State, run: seq<Step>)
    requires Initial(s) && LegalRun(s, run)
    ensures Inv(Final(s, run))
    decreases |run|
  {
    if run != [] {
      RunKeeps(s, run[..|run| - 1]);
      StepKeeps(Final(s, run[..|run| - 1]), run[|run| - 1]);
    }
  }

  // ---------- what flush and close mean ----------

  /** A flush that began at generation `target` may return once that much was attempted. */
  predicate FlushReturns(s: State, target: nat) {
    s.attempted >= target
  }

  /** A flush that returns nil has its target's bindings, or later ones, in the file. */
  lemma FlushMeans(s: State, before: seq<Step>, after: seq<Step>)
    requires Initial(s) && LegalRun(s, before + after)
    requires FlushReturns(Final(s, before + after), Final(s, before).generation) && !Final(s, before + after).err
    ensures var target := Final(s, before).generation;
      var now := Final(s, before + after);
      target > 0 ==> target <= now.onDisk < |now.history| && Bindings(now.disk) == now.history[now.onDisk]
  {
    RunKeeps(s, before + after);
  }

  predicate Older(was: State, now: State) {
    && was.onDisk <= now.onDisk && was.attempted <= now.attempted
    && |was.history| <= |now.history| && now.history[..|was.history|] == was.history
  }

  lemma OlderStill(was: State, before: State, now: State)
    requires Older(was, before) && Extends(before, now)
    ensures Older(was, now)
  {
  }

  /** What a generation recorded is never rewritten, and the file never goes back. */
  lemma {:induction false} HistoryGrows(s: State, before: seq<Step>, after: seq<Step>)
    requires Initial(s) && LegalRun(s, before + after)
    ensures LegalRun(s, before)
    ensures Older(Final(s, before), Final(s, before + after))
    decreases |after|
  {
    if after == [] {
      assert before + after == before;
    } else {
      var n := |after| - 1;
      assert (before + after)[..|before + after| - 1] == before + after[..n];
      HistoryGrows(s, before, after[..n]);
      RunKeeps(s, before + after[..n]);
      StepGrows(Final(s, before + after[..n]), after[n]);
      OlderStill(Final(s, before), Final(s, before + after[..n]), Final(s, before + after));
    }
  }

  ghost predicate Extends(s: State, s': State) {
    && s.onDisk <= s'.onDisk && s.attempted <= s'.attempted
    && (s'.history == s.history || exists last :: s'.history == s.history + [last])
  }

  lemma StepGrows(s: State, step: Step)
    requires Ordered(s)
    ensures Extends(s, Apply(s, step))
  {
  }

  /** When close returns, with the writer done, a nil error means that the file and the live
      map agree on every key and profile hash. Without a writer nothing had changed. */
  lemma CloseMeans(s: State, run: seq<Step>)
    requires Initial(s) && LegalRun(s, run)
    ensures var now := Final(s, run);
      && (now.writer.Done? && !now.err ==> Bindings(now.disk) == Bindings(now.live))
      && (now.generation == 0 ==> Bindings(now.live) == Bindings(s.live) && now.onDisk == -1)
  {
    RunKeeps(s, run);
    assert [] + run == run;
    HistoryGrows(s, [], run);
    var now := Final(s, run);
    if now.writer.Done? && !now.err { DoneMeans(now); }
    if now.generation == 0 { NothingHappened(s, now); }
  }

  lemma DoneMeans(s: State)
    requires Inv(s) && s.writer.Done? && !s.err
    ensures Bindings(s.disk) == Bindings(s.live)
  {
    assert s.onDisk == s.generation;
  }

  lemma NothingHappened(s: State, now: State)
    requires Initial(s) && Inv(now) && now.generation == 0
    requires |s.history| <= |now.history| && now.history[..|s.history|] == s.history
    ensures Bindings(now.live) == Bindings(s.live) && now.onDisk == -1
  {
    assert now.history[0] == s.history[0];
  }

  /** After shutdown took the flag, requests change nothing any more. */
  lemma ClosedIsFinal(s: State, step: Step)
    requires s.closed
    ensures Apply(s, step).live == s.live && Apply(s, step).generation == s.generation && Apply(s, step).closed
  {
  }

  /** The map stays within its bound, and a request can cost no binding but its victim's. */
  lemma EvictsOnlyTheOldest(s: State, key: string, profileHash: string, now: int, victim: string)
    requires !s.closed && |s.live| <= MAX_PINS && Legal(s, Remember(key, profileHash, now, victim))
    ensures var live := Remembered(s, key, profileHash, now, victim).live;
      && |live| <= MAX_PINS && key in live && live[key] == Pin(profileHash, now)
      && (forall k :: k in s.live && k != key && k !in live ==> k == victim && |s.live| == MAX_PINS)
      && (forall k :: k in live && k != key ==> k in s.live && live[k] == s.live[k])
  {
    SizeAfterPut(s.live, key, Pin(profileHash, now));
    if victim in Put(s, key, profileHash, now) { SizeAfterDelete(Put(s, key, profileHash, now), victim); }
  }

  lemma SizeAfterPut(pins: map<string, Pin>, key: string, pin: Pin)
    ensures |pins[key := pin]| == if key in pins then |pins| else |pins| + 1
  {
    assert pins[key := pin].Keys == pins.Keys + {key};
  }

  lemma SizeAfterDelete(pins: map<string, Pin>, victim: string)
    requires victim in pins
    ensures |pins - {victim}| == |pins| - 1
  {
    assert (pins - {victim}).Keys == pins.Keys - {victim};
  }

  // ---------- what each step comes to ----------

  /** A conversation seen again on the same account only moves its time of use; any other pin is
      a new generation, and wakes the writer. */
  lemma RememberMeans(s: State, key: string, profileHash: string, now: int, victim: string)
    ensures var s' := Remembered(s, key, profileHash, now, victim);
      var known := key in s.live && s.live[key].profileHash == profileHash;
      && (s.closed ==> s' == s)
      && (!s.closed && known ==> s' == s.(live := s.live[key := Pin(profileHash, now)]))
      && (!s.closed && !known ==>
          s'.generation == s.generation + 1 && s'.wake && s'.attempted == s.attempted && s'.writer == s.writer)
      && (!s.closed && !known && |s.live[key := Pin(profileHash, now)]| <= 10_000 ==>
          s'.live == s.live[key := Pin(profileHash, now)])
  {
  }

  /** A woken writer writes exactly when there is a generation it has not attempted, or when it
      is stopping and its last attempt failed; it then writes the live map of that moment. */
  lemma LookMeans(s: State)
    requires Inv(s) && s.writer.Woken?
    ensures var s' := Looked(s);
      && s' == s.(writer := s'.writer)
      && (s'.writer.Writing? <==> s.attempted < s.generation || (s.writer.stopping && s.err))
      && (s'.writer.Writing? ==> s'.writer == Writing(s.writer.stopping, s.generation, s.live, 0))
      && (!s'.writer.Writing? ==> s'.writer == if s.writer.stopping then Done else Idle)
  {
  }

  /** A saved attempt ends the writing well; a failed one is repeated until it is the third.
      Whatever may have reached the file is the snapshot, whole. */
  lemma TryMeans(s: State, outcome: Outcome)
    requires Inv(s) && s.writer.Writing?
    ensures var s' := Tried(s, outcome);
      && (s'.writer.Attempted? <==> outcome.Saved? || s.writer.attempt == 2)
      && (s'.writer.Attempted? ==> s'.writer.failed == !outcome.Saved? && s'.writer.generation == s.writer.generation)
      && (!s'.writer.Attempted? ==> s'.writer == s.writer.(attempt := s.writer.attempt + 1))
      && s'.disk == (if outcome.Unchanged? then s.disk else s.writer.pins)
  {
  }

  /** Only a look and a publication can end the writer's work. */
  lemma OthersKeepGoing(s: State, step: Step)
    requires Legal(s, step) && !s.writer.Done? && !step.Look? && !step.Publish?
    ensures !Apply(s, step).writer.Done?
  {
  }

  /** The writer is done exactly when it is stopping and finds nothing to write and no failure
      to make good, or has published its last attempt; only then can a failure remain. */
  lemma DoneExactlyWhen(s: State, step: Step)
    requires Inv(s) && Legal(s, step) && !s.writer.Done?
    ensures Apply(s, step).writer.Done? <==>
      (step.Look? && s.writer == Woken(true) && s.generation == s.attempted && !s.err) ||
      (step.Publish? && s.writer.Attempted? && s.writer.stopping)
    ensures Apply(s, step).writer.Done? && Apply(s, step).err ==> step.Publish? && s.writer.failed
  {
    if step.Look? {
      LookMeans(s);
    } else if !step.Publish? {
      OthersKeepGoing(s, step);
    }
  }

  // ---------- flush and close come to an end ----------

  predicate WriterStep(step: Step) {
    step.TakeWake? || step.TakeStop? || step.Look? || step.Try? || step.Publish?
  }

  /** How many writer steps are left until `target` has been attempted. */
  function Rank(s: State, target: nat): nat {
    if s.attempted >= target then 0
    else match s.writer
      case Idle => 6
      case Woken(_) => 5
      case Writing(_, g, _, attempt) => (if g >= target then 0 else 6) + (if attempt < ATTEMPTS then 4 - attempt else 1)
      case Attempted(_, g, _) => (if g >= target then 0 else 6) + 1
      case Done => 0
  }

  function NextStep(s: State): Step {
    match s.writer
    case Idle => if s.stop then TakeStop else TakeWake
    case Woken(_) => Look
    case Writing(_, _, _, _) => Try(Saved)
    case Attempted(_, _, _) => Publish
    case Done => CloseFlag
  }

  /** The writer is never stuck while something is left to attempt or to stop. */
  lemma WriterCanMove(s: State)
    requires Ordered(s) && Shutdown(s) && NoWakeupLost(s) && !s.writer.Done?
    requires s.attempted < s.generation || (s.stop && s.generation > 0)
    ensures WriterStep(NextStep(s)) && Legal(s, NextStep(s))
  {
  }

  lemma WriterStepCounts(s: State, step: Step, target: nat)
    requires Ordered(s) && Shutdown(s) && NoWakeupLost(s) && s.attempted < target <= s.generation
    requires Legal(s, step) && WriterStep(step)
    ensures Rank(Apply(s, step), target) < Rank(s, target)
  {
  }

  lemma OtherStepWaits(s: State, step: Step, target: nat)
    requires Ordered(s) && !WriterStep(step)
    ensures Rank(Apply(s, step), target) == Rank(s, target) <= 10
  {
    var s' := Apply(s, step);
    assert s'.writer == s.writer && s'.attempted == s.attempted;
  }

  /** While a flush waits, the writer can move, each move brings it closer, and nothing that
      requests or shutdown do pushes it back: at most ten writer steps, whatever else happens. */
  lemma FlushProgress(s: State, step: Step, target: nat)
    requires Inv(s) && s.attempted < target <= s.generation
    ensures WriterStep(NextStep(s)) && Legal(s, NextStep(s))
    ensures Legal(s, step) ==> Rank(Apply(s, step), target) <= Rank(s, target) <= 10
    ensures Legal(s, step) && WriterStep(step) ==> Rank(Apply(s, step), target) < Rank(s, target)
  {
    WriterCanMove(s);
    if WriterStep(step) {
      if Legal(s, step) { WriterStepCounts(s, step, target); }
    } else {
      OtherStepWaits(s, step, target);
    }
  }

  /** How many writer steps are left until a stopped writer is done. */
  function StopRank(s: State): nat {
    var token := if s.wake then 6 else 0;
    match s.writer
    case Done => 0
    case Idle => token + 6
    case Woken(stopping) => token + 5 + if stopping then 0 else 6
    case Writing(stopping, _, _, attempt) =>
      token + (if attempt < ATTEMPTS then 4 - attempt else 1) + if stopping then 0 else 6
    case Attempted(stopping, _, _) => token + 1 + if stopping then 0 else 6
  }

  lemma StopRankFalls(s: State, step: Step)
    requires Ordered(s) && Shutdown(s) && s.stop && Legal(s, step)
    ensures StopRank(Apply(s, step)) <= StopRank(s) <= 17
    ensures WriterStep(step) ==> StopRank(Apply(s, step)) < StopRank(s)
  {
    if step.Remember? {
      assert Apply(s, step) == s;
    }
  }

  /** Once stopped, the writer can move until it is done, within seventeen steps. */
  lemma CloseProgress(s: State, step: Step)
    requires Inv(s) && s.stop && s.generation > 0
    ensures !s.writer.Done? ==> WriterStep(NextStep(s)) && Legal(s, NextStep(s))
    ensures Legal(s, step) ==> StopRank(Apply(s, step)) <= StopRank(s) <= 17
    ensures Legal(s, step) && WriterStep(step) ==> StopRank(Apply(s, step)) < StopRank(s)
  {
    if !s.writer.Done? { WriterCanMove(s); }
    if Legal(s, step) { StopRankFalls(s, step); }
  }

  function WriterSteps(run: seq<Step>): nat {
    if run == [] then 0 else WriterSteps(run[..|run| - 1]) + if WriterStep(run[|run| - 1]) then 1 else 0
  }

  lemma {:induction false} InvFrom(s: State, run: seq<Step>)
    requires Inv(s) && LegalRun(s, run)
    ensures Inv(Final(s, run)) && s.generation <= Final(s, run).generation && (s.stop ==> Final(s, run).stop)
    decreases |run|
  {
    if run != [] {
      InvFrom(s, run[..|run| - 1]);
      StepKeeps(Final(s, run[..|run| - 1]), run[|run| - 1]);
      GenerationGrows(Final(s, run[..|run| - 1]), run[|run| - 1]);
    }
  }

  lemma GenerationGrows(s: State, step: Step)
    ensures s.generation <= Apply(s, step).generation && (s.stop ==> Apply(s, step).stop)
  {
  }

  lemma {:induction false} FlushCounts(s: State, run: seq<Step>, target: nat)
    requires Inv(s) && LegalRun(s, run) && s.attempted < target <= s.generation
    ensures Final(s, run).attempted >= target || WriterSteps(run) + Rank(Final(s, run), target) <= Rank(s, target)
    decreases |run|
  {
    if run != [] {
      var n := |run| - 1;
      var before := Final(s, run[..n]);
      FlushCounts(s, run[..n], target);
      InvFrom(s, run[..n]);
      if before.attempted >= target {
        StepGrows(before, run[n]);
      } else {
        FlushProgress(before, run[n], target);
      }
    }
  }

  /** Ten steps of the writer are enough for a flush, whatever requests and shutdown do in between. */
  lemma FlushWithinTenSteps(s: State, run: seq<Step>, target: nat)
    requires Inv(s) && LegalRun(s, run) && target <= s.generation && WriterSteps(run) >= 10
    ensures FlushReturns(Final(s, run), target)
  {
    if s.attempted < target {
      FlushCounts(s, run, target);
      OtherStepWaits(s, CloseFlag, target);
      if Final(s, run).attempted < target { RankPositive(s, run, target); }
    } else {
      AttemptedGrows(s, run);
    }
  }

  /** A writer that has not reached the target has steps left to make. */
  lemma RankPositive(s: State, run: seq<Step>, target: nat)
    requires Inv(s) && LegalRun(s, run) && Final(s, run).attempted < target <= s.generation
    ensures Rank(Final(s, run), target) > 0
  {
    InvFrom(s, run);
  }

  lemma {:induction false} AttemptedGrows(s: State, run: seq<Step>)
    requires Inv(s) && LegalRun(s, run)
    ensures s.attempted <= Final(s, run).attempted
    decreases |run|
  {
    if run != [] {
      AttemptedGrows(s, run[..|run| - 1]);
      InvFrom(s, run[..|run| - 1]);
      StepGrows(Final(s, run[..|run| - 1]), run[|run| - 1]);
    }
  }

  lemma {:induction false} CloseCounts(s: State, run: seq<Step>)
    requires Inv(s) && LegalRun(s, run) && s.stop && s.generation > 0
    ensures WriterSteps(run) + StopRank(Final(s, run)) <= StopRank(s)
    decreases |run|
  {
    if run != [] {
      var n := |run| - 1;
      CloseCounts(s, run[..n]);
      InvFrom(s, run[..n]);
      CloseProgress(Final(s, run[..n]), run[n]);
    }
  }

  /** A stopped writer makes at most seventeen more steps in any run, and is done after them. */
  lemma CloseWithinSeventeenSteps(s: State, run: seq<Step>)
    requires Inv(s) && LegalRun(s, run) && s.stop && s.generation > 0
    ensures WriterSteps(run) <= 17
    ensures WriterSteps(run) == 17 ==> Final(s, run).writer.Done?
  {
    CloseCounts(s, run);
    StopRankFalls(s, CloseFlag);
  }

  // ---------- the critical sections ----------

  class AccountPins {
    var pins: map<string, Pin>
    var generation: nat
    var attempted: nat
    var err: bool
    var wake: bool
    var closed: bool

    /** The fields take part in the protocol when they are those of its state. */
    ghost predicate Matches(s: State)
      reads this
    {
      pins == s.live && generation == s.generation && attempted == s.attempted && err == s.err && wake == s.wake
          && closed == s.closed
    }

    /** Binds a conversation to an account. Repeated use of the same account is not written. */
    method Remember(key: string, profileHash: string, now: int, ghost s: State) returns (victim: string)
      requires Matches(s)
      modifies this
      ensures Legal(s, Step.Remember(key, profileHash, now, victim))
      ensures Matches(Apply(s, Step.Remember(key, profileHash, now, victim)))
    {
      victim := "";
      if closed {
        return;
      }
      var same := key in pins && pins[key].profileHash == profileHash;
      pins := pins[key := Pin(profileHash, now)];
      if same {
        return;
      }
      if |pins| > MAX_PINS {
        victim := OldestPin(key);
        pins := pins - {victim};
      }
      Queue();
    }

    /** The least recently used pin that is not the newcomer, whatever order the map is visited in. */
    method OldestPin(key: string) returns (victim: string)
      requires |pins| > MAX_PINS && key in pins
      ensures Oldest(pins, victim, key)
    {
      var left := pins.Items;
      var found := false;
      victim := "";
      while left != {}
        invariant left <= pins.Items
        invariant found ==> victim in pins && victim != key
        invariant forall k :: k in pins && k != key && (k, pins[k]) !in left ==>
            found && pins[victim].lastUsed <= pins[k].lastUsed
        decreases left
      {
        var entry :| entry in left;
        var (candidate, pin) := entry;
        left := left - {entry};
        if candidate != key && (!found || pin.lastUsed < pins[victim].lastUsed) {
          found, victim := true, candidate;
        }
      }
      if !found {
        OnlyOne(pins, key);
      }
    }

    method Queue()
      modifies this`generation, this`wake
      ensures generation == old(generation) + 1 && wake
    {
      generation, wake := generation + 1, true;
    }

    /** The writer under the lock: the snapshot to write, if there is anything to write. */
    method TakeSnapshot(stopping: bool, ghost s: State) returns (write: bool, snapshot: map<string, Pin>, current: nat)
      requires Matches(s) && s.writer == Woken(stopping)
      ensures Matches(Looked(s))
      ensures Looked(s).writer == if write then Writing(stopping, current, snapshot, 0) else if stopping then Done
          else Idle
    {
      current, snapshot := generation, pins;
      write := generation != attempted || (stopping && err);
    }

    /** The writer under the lock again: what the attempts came to. */
    method Publish(current: nat, failed: bool, ghost s: State)
      requires Matches(s) && s.writer.Attempted? && s.writer.generation == current && s.writer.failed == failed
      modifies this`attempted, this`err
      ensures Matches(Published(s))
    {
      attempted, err := current, failed;
    }
  }

  lemma OnlyOne(pins: map<string, Pin>, key: string)
    requires key in pins && forall k :: k in pins ==> k == key
    ensures |pins| == 1
  {
    assert pins.Keys == {key};
  }

  /** The attempts in order, until one ends the writing. */
  function TriedAll(s: State, outcomes: seq<Outcome>): State {
    if outcomes == [] then s else
      var before := TriedAll(s, outcomes[..|outcomes| - 1]);
      if before.writer.Writing? then Tried(before, outcomes[|outcomes| - 1]) else before
  }

  /** Where the writer is after `n` attempts of which the last has failed or not. */
  function Trying(w: Control, n: nat, failed: bool): Control
    requires w.Writing?
  {
    if failed && n < ATTEMPTS then Writing(w.stopping, w.generation, w.pins, n)
        else Attempted(w.stopping, w.generation, failed)
  }

  lemma TriedNext(s: State, outcomes: seq<Outcome>, n: nat)
    requires s.writer.Writing? && n < |outcomes| && n < ATTEMPTS
    requires TriedAll(s, outcomes[..n]).writer == Trying(s.writer, n, true)
    ensures TriedAll(s, outcomes[..n + 1]).writer == Trying(s.writer, n + 1, !outcomes[n].Saved?)
  {
    var more := outcomes[..n + 1];
    assert more[..n] == outcomes[..n] && more[n] == outcomes[n];
    TriedOnce(TriedAll(s, outcomes[..n]), outcomes[n], s.writer, n);
  }

  lemma TriedOnce(s: State, outcome: Outcome, w: Control, n: nat)
    requires w.Writing? && n < ATTEMPTS && s.writer == Trying(w, n, true)
    ensures Tried(s, outcome).writer == Trying(w, n + 1, !outcome.Saved?)
  {
  }

  /** Up to three attempts, stopping at the first that is saved. */
  method WriteSnapshot(outcomes: seq<Outcome>, ghost s: State) returns (failed: bool, tries: nat)
    requires s.writer.Writing? && s.writer.attempt == 0 && |outcomes| == ATTEMPTS
    ensures 0 < tries <= ATTEMPTS && failed == !outcomes[tries - 1].Saved?
    ensures forall i :: 0 <= i < tries - 1 ==> !outcomes[i].Saved?
    ensures failed ==> tries == ATTEMPTS
    ensures TriedAll(s, outcomes[..tries]).writer == Trying(s.writer, ATTEMPTS, failed)
  {
    tries, failed := 0, true;
    while tries < ATTEMPTS && failed
      invariant 0 <= tries <= ATTEMPTS && failed == (tries == 0 || !outcomes[tries - 1].Saved?)
      invariant forall i :: 0 <= i < tries - 1 ==> !outcomes[i].Saved?
      invariant TriedAll(s, outcomes[..tries]).writer == Trying(s.writer, tries, failed)
    {
      TriedNext(s, outcomes, tries);
      failed := !outcomes[tries].Saved?;
      tries := tries + 1;
    }
  }
}
