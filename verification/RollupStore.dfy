/** The rollup store of one gateway process, and its flush against day files that may fail. */
module RollupStore {
  import opened Wrappers
  import opened RollupCounts
  import opened RollupFile
  import opened RollupLog
  import opened RollupReader

  function Snapshots(pending: map<Key, Pending>, keys: set<Key>): map<Key, Counts> {
    map k | k in keys && k in pending :: pending[k].snapshot
  }

  lemma SnapshotsMore(start: map<Key, Counts>, pending: map<Key, Pending>, done: set<Key>, key: Key)
    requires key in pending
    ensures pending - (done + {key}) == pending - done - {key}
    ensures start + Snapshots(pending, done + {key}) == (start + Snapshots(pending, done))[key := pending[key].snapshot]
  {
  }

  /** The bucket is what its pending line, or else its acknowledged history, adds up to. */
  ghost predicate Current(buckets: map<Key, Counts>, flushed: map<Key, Counts>, pending: map<Key, Pending>, k: Key)
    requires k in buckets
  {
    SameCounts(buckets[k], if k in pending then pending[k].snapshot else CountsAt(flushed, k))
  }

  /** Lines waiting before the flush are kept, and every bucket already looked at is current. */
  ghost predicate Queued(buckets: map<Key, Counts>, flushed: map<Key, Counts>, retries: map<Key, Pending>,
                         pending: map<Key, Pending>, rest: set<Key>) {
    && (forall k | k in retries :: k in pending && pending[k] == retries[k])
    && (forall k | k in rest && k in pending :: k in retries)
    && (forall k | k in buckets && k !in rest && k !in retries :: Current(buckets, flushed, pending, k))
  }

  lemma QueueOne(buckets: map<Key, Counts>, flushed: map<Key, Counts>, retries: map<Key, Pending>,
                 before: map<Key, Pending>, after: map<Key, Pending>, rest: set<Key>, key: Key)
    requires Queued(buckets, flushed, retries, before, rest) && key in rest && key in buckets
    requires after == before || (key in after && after == before[key := after[key]] && key !in before)
    requires key !in before ==> Current(buckets, flushed, after, key)
    ensures Queued(buckets, flushed, retries, after, rest - {key})
  {
    forall k | k in buckets && k !in rest - {key} && k !in retries ensures Current(buckets, flushed, after, k) {
      assert k != key ==> Current(buckets, flushed, before, k);
    }
  }

  class RollupStore {
    const codec: Codec
    const instance: string
    var buckets: map<Key, Counts>
    var flushed: map<Key, Counts>
    var pending: map<Key, Pending>
    var sequence: nat
    var disk: map<int, string>
    var closed: bool
    ghost var issued: seq<Line>

    ghost function State(): Store
      reads this
    {
      Store(instance, buckets, flushed, pending, issued, disk, {})
    }

    ghost predicate Valid()
      reads this
    {
      sequence == |issued| && Inv(codec, State())
    }

    constructor (codec: Codec, instance: string, disk: map<int, string>)
      requires forall text, line | Shows(codec, disk, text, line) && line.id.Some? :: line.id.value.instance != instance
      ensures Valid() && !closed && State() == Fresh(instance, disk) && this.codec == codec
    {
      this.codec, this.instance, this.disk := codec, instance, disk;
      buckets, flushed, pending, sequence, closed, issued := map[], map[], map[], 0, false, [];
      new;
      FreshInv(codec, instance, disk);
    }

    /** A closed store ignores samples. */
    method Observe(sample: Key, increment: Counts)
      requires Valid()
      modifies this
      ensures Valid() && closed == old(closed)
      ensures State() == if closed then old(State()) else RollupLog.Observe(old(State()), sample, increment)
    {
      if closed {
        return;
      }
      ObserveKeepsInv(codec, State(), sample, increment);
      var key := BucketKey(buckets, sample);
      var bucket := if key in buckets then buckets[key] else EMPTY;
      buckets := buckets[key := Add(bucket, increment)];
    }

    /** The delta of one bucket becomes its pending line; a line already waiting is kept. */
    method EnqueueDelta(key: Key)
      requires Valid() && key in buckets
      modifies this`pending, this`sequence, this`issued
      ensures Valid()
      ensures State() == Enqueue(old(State()), key)
      ensures pending == old(pending) || (key in pending && pending == old(pending)[key := pending[key]]
          && key !in old(pending))
      ensures key !in old(pending) ==> Current(buckets, flushed, pending, key)
    {
      if key in pending {
        return;
      }
      var delta := Sub(buckets[key], CountsAt(flushed, key));
      ZeroSub(buckets[key], CountsAt(flushed, key));
      forall x ensures View(Clone(buckets[key]), x) == View(buckets[key], x) {
        ViewClone(buckets[key], x);
      }
      if Zero(delta) {
        return;
      }
      EnqueueKeepsInv(codec, State(), key);
      sequence := sequence + 1;
      var line := Line(Some(LineId(instance, sequence)), key, delta);
      pending := pending[key := Pending(line, Clone(buckets[key]))];
      issued := issued + [line];
    }

    /** As EnqueueDelta, for callers that only care which buckets are up to date. */
    method Queue(key: Key)
      requires Valid() && key in buckets
      modifies this`pending, this`sequence, this`issued
      ensures Valid()
      ensures pending == old(pending) || (key in pending && pending == old(pending)[key := pending[key]]
          && key !in old(pending))
      ensures key !in old(pending) ==> Current(buckets, flushed, pending, key)
    {
      EnqueueDelta(key);
    }

    method BeginFlush()
      requires Valid()
      modifies this`pending, this`sequence, this`issued
      ensures Valid()
      ensures Queued(buckets, flushed, old(pending), pending, {})
    {
      var rest := buckets.Keys;
      while rest != {}
        invariant Valid() && rest <= buckets.Keys
        invariant Queued(buckets, flushed, old(pending), pending, rest)
      {
        var key :| key in rest;
        ghost var before := pending;
        Queue(key);
        QueueOne(buckets, flushed, old(pending), before, pending, rest, key);
        rest := rest - {key};
      }
    }

    /** Appends one line to its day file. */
    method AppendLine(line: Line, fault: Fault) returns (ok: bool)
      requires Sound(codec)
      modifies this`disk
      ensures Appended(codec, old(disk), line, disk, ok)
    {
      var day := codec.day(line.key);
      assert NEWLINE !in codec.encode(line);
      var file := new DayFile(FileAt(disk, day));
      ok := file.Append(codec.encode(line), fault);
      disk := disk[day := file.content];
    }

    /** Appends one pending line and acknowledges it only when the append fully succeeded. */
    method Persist(key: Key, fault: Fault) returns (ok: bool)
      requires Sound(codec) && Valid() && key in pending
      modifies this`disk, this`flushed, this`pending
      ensures Valid()
      ensures Appended(codec, old(disk), old(pending[key].line), disk, ok)
      ensures State() == (var wrote := old(State()).(disk := disk); if ok then Commit(wrote, key) else wrote)
      ensures flushed == if ok then old(flushed)[key := old(pending[key].snapshot)] else old(flushed)
      ensures pending == if ok then old(pending) - {key} else old(pending)
    {
      ghost var before := State();
      ok := AppendLine(pending[key].line, fault);
      PersistKeepsInv(codec, before, key, disk, ok);
      if ok {
        flushed := flushed[key := pending[key].snapshot];
        pending := pending - {key};
        ghost var none: set<Key> := {};
        assert none - {key} == none;
      }
    }

    /** As Persist, for callers that do not look at the files. */
    method Attempt(key: Key, fault: Fault) returns (ok: bool)
      requires Sound(codec) && Valid() && key in pending
      modifies this`disk, this`flushed, this`pending
      ensures Valid()
      ensures flushed == if ok then old(flushed)[key := old(pending[key].snapshot)] else old(flushed)
      ensures pending == if ok then old(pending) - {key} else old(pending)
    {
      ok := Persist(key, fault);
    }

    /** Tries every pending line once; what succeeds is acknowledged at its own snapshot. */
    method Drain(faults: map<Key, Fault>) returns (ok: bool)
      requires Sound(codec) && Valid()
      modifies this`disk, this`flushed, this`pending
      ensures Valid()
      ensures ok <==> pending == map[]
      ensures pending.Keys <= old(pending).Keys
      ensures flushed == old(flushed) + Snapshots(old(pending), old(pending).Keys - pending.Keys)
    {
      var batch := pending.Keys;
      ghost var queued, start := pending, flushed;
      ghost var done := {};
      ghost var stuck := Key("", 0, "");
      ok := true;
      while batch != {}
        invariant Valid()
        invariant batch <= pending.Keys && done <= queued.Keys
        invariant pending == queued - done
        invariant flushed == start + Snapshots(queued, done)
        invariant ok ==> batch == pending.Keys
        invariant !ok ==> stuck in pending && stuck !in batch
      {
        var key :| key in batch;
        var persisted := Attempt(key, if key in faults then faults[key] else NoFault);
        batch := batch - {key};
        if persisted {
          SnapshotsMore(start, queued, done, key);
          done := done + {key};
        } else {
          ok, stuck := false, key;
        }
      }
      assert queued.Keys - pending.Keys == done;
    }

    /** One flush. Success acknowledges every pending line; a bucket is then complete unless
        its line was a retry older than its last observation, which waits for another flush. */
    method Flush(faults: map<Key, Fault>) returns (ok: bool)
      requires Sound(codec) && Valid()
      modifies this`disk, this`flushed, this`pending, this`sequence, this`issued
      ensures Valid()
      ensures ok <==> pending == map[]
      ensures ok ==> forall k | k in buckets ::
                (SameCounts(buckets[k], CountsAt(flushed, k)) <==>
                 (k in old(pending) ==> SameCounts(buckets[k], old(pending[k]).snapshot)))
      ensures ok && old(pending) == map[] ==> FullyFlushed(State())
    {
      BeginFlush();
      ok := Drain(faults);
    }

    /** Shutdown stops observations and flushes once more. Everything is then on disk exactly when
        every line was acknowledged and none of them was a retry older than its last observation. */
    method Close(faults: map<Key, Fault>)
      requires Sound(codec) && Valid()
      modifies this
      ensures Valid() && closed && buckets == old(buckets)
      ensures old(closed) ==> State() == old(State())
      ensures !old(closed) ==>
        (FullyFlushed(State()) <==>
          (pending == map[] && forall k | k in buckets && k in old(pending) ::
              SameCounts(buckets[k], old(pending[k]).snapshot)))
    {
      if closed {
        return;
      }
      closed := true;
      var ok := Flush(faults);
    }
  }

  // ---------- what shutdown can leave unwritten ----------

  lemma Prepend(c: Codec, s: Store, step: Step, rest: seq<Step>)
    requires Legal(c, s, step) && LegalRun(c, Apply(s, step), rest)
    ensures LegalRun(c, s, [step] + rest) && Final(s, [step] + rest) == Final(Apply(s, step), rest)
  {
    assert ([step] + rest)[1..] == rest;
  }

  /** A first observation of a key gives its bucket the increment's numbers. */
  lemma FirstObservation(s: Store, key: Key, increment: Counts, x: Coord)
    requires s.buckets == map[]
    ensures Observe(s, key, increment) == s.(buckets := map[key := Add(EMPTY, increment)])
    ensures View(Add(EMPTY, increment), x) == View(increment, x)
  {
    ViewSubAdd(EMPTY, increment, x);
    assert View(EMPTY, x) == 0;
  }

  lemma FirstLine(s: Store, key: Key, x: Coord)
    requires s.buckets.Keys == {key} && s.pending == map[] && s.flushed == map[] && View(s.buckets[key], x) != 0
    ensures Changed(s, key)
    ensures Enqueue(s, key).pending.Keys == {key}
    ensures View(Enqueue(s, key).pending[key].snapshot, x) == View(s.buckets[key], x)
  {
    ZeroSub(s.buckets[key], EMPTY);
    assert View(EMPTY, x) == 0;
    ViewClone(s.buckets[key], x);
  }

  lemma SecondObservation(s: Store, key: Key, increment: Counts, x: Coord)
    requires s.buckets.Keys == {key}
    ensures Observe(s, key, increment) == s.(buckets := s.buckets[key := Add(s.buckets[key], increment)])
    ensures View(Add(s.buckets[key], increment), x) == View(s.buckets[key], x) + View(increment, x)
  {
    ViewSubAdd(s.buckets[key], increment, x);
  }

  /** The key's line is identified, and more has been observed since. */
  ghost predicate Behind(s: Store, key: Key, increment: Counts, x: Coord) {
    && s.pending.Keys == {key} && s.buckets.Keys == {key} && s.flushed == map[] && s.written == {}
    && View(s.buckets[key], x) == View(s.pending[key].snapshot, x) + View(increment, x)
  }

  /** What the closing flush does to such a store: the line it repeats is acknowledged, and
      what was observed after it is in no line. */
  lemma ClosingLeavesBehind(s: Store, key: Key, increment: Counts, x: Coord, disk: map<int, string>)
    requires Behind(s, key, increment, x) && View(increment, x) != 0
    ensures Enqueue(s, key) == s
    ensures LeftBehind(Commit(s.(disk := disk), key), key)
  {
    var closed := Commit(s.(disk := disk), key);
    assert View(closed.buckets[key], x) != View(CountsAt(closed.flushed, key), x);
  }

  ghost predicate LeftBehind(s: Store, key: Key) {
    s.pending == map[] && key in s.buckets && !SameCounts(s.buckets[key], CountsAt(s.flushed, key))
  }

  /** The line of a first observation, before anything is on disk. */
  ghost function OneIdentified(instance: string, key: Key, increment: Counts): Store {
    Enqueue(Observe(Fresh(instance, map[]), key, increment), key)
  }

  lemma LineIdentified(instance: string, key: Key, increment: Counts, x: Coord)
    requires View(increment, x) != 0
    ensures var s := OneIdentified(instance, key, increment);
      && s.buckets.Keys == {key} && s.pending.Keys == {key} && s.flushed == map[] && s.written == {} && s.disk == map[]
      && View(s.pending[key].snapshot, x) == View(s.buckets[key], x)
      && s.pending[key].line.key == key
  {
    FirstObservation(Fresh(instance, map[]), key, increment, x);
    FirstLine(Observe(Fresh(instance, map[]), key, increment), key, x);
  }

  /** An append that fails before writing anything, and one that succeeds on the empty file. */
  function NothingWritten(c: Codec, key: Key): map<int, string> {
    map[c.day(key) := ""]
  }

  function OneLine(c: Codec, line: Line): map<int, string> {
    map[c.day(line.key) := c.encode(line) + [NEWLINE]]
  }

  lemma AppendsPossible(c: Codec, line: Line)
    requires Sound(c)
    ensures Appended(c, map[], line, NothingWritten(c, line.key), false)
    ensures Appended(c, NothingWritten(c, line.key), line, OneLine(c, line), true)
  {
    WholeAppend("", c.encode(line));
    assert "" + c.encode(line) + [NEWLINE] == c.encode(line) + [NEWLINE];
  }

  lemma {:induction false} Two(c: Codec, s: Store, a: Step, b: Step)
    requires Legal(c, s, a) && Legal(c, Apply(s, a), b)
    ensures LegalRun(c, s, [a, b]) && Final(s, [a, b]) == Apply(Apply(s, a), b)
  {
    Prepend(c, Apply(s, a), b, []);
    Prepend(c, s, a, [b] + []);
    assert [a] + ([b] + []) == [a, b];
  }

  lemma {:induction false} Then(c: Codec, s: Store, a: seq<Step>, b: seq<Step>)
    requires LegalRun(c, s, a) && LegalRun(c, Final(s, a), b)
    ensures LegalRun(c, s, a + b) && Final(s, a + b) == Final(Final(s, a), b)
    decreases |a|
  {
    if a == [] {
      assert a + b == b;
    } else {
      Then(c, Apply(s, a[0]), a[1..], b);
      Prepend(c, s, a[0], a[1..] + b);
      Regroup(a, b);
    }
  }

  lemma Regroup(a: seq<Step>, b: seq<Step>)
    requires a != []
    ensures [a[0]] + (a[1..] + b) == a + b
  {
  }

  /** Before the line is written once: observed, identified. */
  lemma IdentifiedRun(c: Codec, instance: string, key: Key, increment: Counts)
    ensures var run := [Observed(key, increment), Enqueued(key)];
      LegalRun(c, Fresh(instance, map[]), run)
      && Final(Fresh(instance, map[]), run) == OneIdentified(instance, key, increment)
  {
    Two(c, Fresh(instance, map[]), Observed(key, increment), Enqueued(key));
  }

  /** A failed append, then another observation. */
  ghost function Retry(c: Codec, instance: string, key: Key, increment: Counts): Store {
    Observe(OneIdentified(instance, key, increment).(disk := NothingWritten(c, key)), key, increment)
  }

  lemma FailedRun(c: Codec, s: Store, key: Key, increment: Counts)
    requires Sound(c) && s.disk == map[] && key in s.pending && s.pending[key].line.key == key
    ensures var run := [Wrote(key, NothingWritten(c, key), false), Observed(key, increment)];
      LegalRun(c, s, run) && Final(s, run) == Observe(s.(disk := NothingWritten(c, key)), key, increment)
  {
    AppendsPossible(c, s.pending[key].line);
    Two(c, s, Wrote(key, NothingWritten(c, key), false), Observed(key, increment));
  }

  function RetryRun(c: Codec, key: Key, increment: Counts): seq<Step> {
    [Observed(key, increment), Enqueued(key)] + [Wrote(key, NothingWritten(c, key), false), Observed(key, increment)]
  }

  /** From a fresh process on an empty directory: an observation, its line, a failed append and
      another observation. */
  lemma RetryIsReached(c: Codec, instance: string, key: Key, increment: Counts, x: Coord)
    requires Sound(c) && View(increment, x) != 0
    ensures LegalRun(c, Fresh(instance, map[]), RetryRun(c, key, increment))
    ensures Final(Fresh(instance, map[]), RetryRun(c, key, increment)) == Retry(c, instance, key, increment)
  {
    var s := OneIdentified(instance, key, increment);
    LineIdentified(instance, key, increment, x);
    IdentifiedRun(c, instance, key, increment);
    FailedRun(c, s, key, increment);
    Then(c, Fresh(instance, map[]), [Observed(key, increment), Enqueued(key)],
         [Wrote(key, NothingWritten(c, key), false), Observed(key, increment)]);
  }

  lemma RetryIsBehind(c: Codec, instance: string, key: Key, increment: Counts, x: Coord)
    requires View(increment, x) != 0
    ensures var s := Retry(c, instance, key, increment);
      Behind(s, key, increment, x) && s.pending[key].line.key == key && s.disk == NothingWritten(c, key)
  {
    LineIdentified(instance, key, increment, x);
    ObservedAgain(OneIdentified(instance, key, increment).(disk := NothingWritten(c, key)), key, increment, x);
  }

  lemma ObservedAgain(s: Store, key: Key, increment: Counts, x: Coord)
    requires s.buckets.Keys == {key} && s.pending.Keys == {key} && s.flushed == map[] && s.written == {}
    requires View(s.pending[key].snapshot, x) == View(s.buckets[key], x)
    ensures Behind(Observe(s, key, increment), key, increment, x)
    ensures Observe(s, key, increment).pending == s.pending && Observe(s, key, increment).disk == s.disk
  {
    SecondObservation(s, key, increment, x);
  }

  /** A flush of one key in which the append succeeds. */
  function FlushRun(c: Codec, key: Key, line: Line): seq<Step> {
    [Enqueued(key)] + [Wrote(key, OneLine(c, line), true), Committed(key)]
  }

  lemma FlushReaches(c: Codec, s: Store, key: Key)
    requires Sound(c) && key in s.pending && s.written == {} && s.disk == NothingWritten(c, key)
    requires s.pending[key].line.key == key && Enqueue(s, key) == s
    ensures var line := s.pending[key].line;
      LegalRun(c, s, FlushRun(c, key, line))
          && Final(s, FlushRun(c, key, line)) == Commit(s.(disk := OneLine(c, line)), key)
  {
    var line := s.pending[key].line;
    var wrote := Wrote(key, OneLine(c, line), true);
    AppendsPossible(c, line);
    assert Apply(s, wrote).written - {key} == s.written - {key};
    Two(c, s, wrote, Committed(key));
    Prepend(c, s, Enqueued(key), [wrote, Committed(key)]);
  }

  /** The closing flush of such a process succeeds in every append, nothing is pending any more,
      and the second observation is not on disk. */
  lemma ShutdownCanLoseObservations(c: Codec, instance: string, key: Key, increment: Counts, x: Coord)
    requires Sound(c) && View(increment, x) != 0
    ensures var s := Retry(c, instance, key, increment);
      && LegalRun(c, Fresh(instance, map[]), RetryRun(c, key, increment))
      && Final(Fresh(instance, map[]), RetryRun(c, key, increment)) == s
      && key in s.pending
      && LegalRun(c, s, FlushRun(c, key, s.pending[key].line))
      && LeftBehind(Final(s, FlushRun(c, key, s.pending[key].line)), key)
  {
    var s := Retry(c, instance, key, increment);
    RetryIsReached(c, instance, key, increment, x);
    RetryIsBehind(c, instance, key, increment, x);
    ClosingLeavesBehind(s, key, increment, x, OneLine(c, s.pending[key].line));
    FlushReaches(c, s, key);
  }
}
