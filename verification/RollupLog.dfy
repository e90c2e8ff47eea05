/** Exactly-once persistence of cumulative buckets as identified deltas: what every
    interleaving of observations, appends, failures and retries keeps, and what the
    deduplicating reader reconstructs. */
module RollupLog {
  import opened Wrappers
  import opened Sums
  import opened RollupCounts
  import opened RollupFile

  const MAX_BUCKETS := 10000

  /** Attribution is the part of the key that an overflow collapses. */
  datatype Key = Key(attribution: string, hour: int, route: string)

  datatype LineId = LineId(instance: string, sequence: nat)

  /** Lines written before identifiers existed carry none. */
  datatype Line = Line(id: Option<LineId>, key: Key, delta: Counts)

  datatype Pending = Pending(line: Line, snapshot: Counts)

  /** JSON encoding of lines; no proper prefix of an object is an object. */
  datatype Codec = Codec(encode: Line -> string, parse: string -> Option<Line>, day: Key -> int)

  ghost predicate Sound(c: Codec) {
    forall l :: NEWLINE !in c.encode(l) && forall n | 0 <= n <= |c.encode(l)| ::
      c.parse(c.encode(l)[..n]) == if n == |c.encode(l)| then Some(l) else None
  }

  /** One gateway process. `issued` lists every line it ever identified, in order; `written` has
      the keys whose append succeeded and has not been acknowledged yet. */
  datatype Store = Store(instance: string, buckets: map<Key, Counts>, flushed: map<Key, Counts>,
                         pending: map<Key, Pending>, issued: seq<Line>, disk: map<int, string>, written: set<Key>)

  function CountsAt(m: map<Key, Counts>, k: Key): Counts {
    if k in m then m[k] else EMPTY
  }

  function FileAt(disk: map<int, string>, day: int): string {
    if day in disk then disk[day] else ""
  }

  // ---------- steps ----------

  /** The bucket a sample lands in: past the bound, new attributions share one bucket per route. */
  function BucketKey(buckets: map<Key, Counts>, key: Key): Key {
    if key !in buckets && |buckets| >= MAX_BUCKETS then key.(attribution := "attribution-overflow") else key
  }

  function Observe(s: Store, key: Key, increment: Counts): Store {
    var k := BucketKey(s.buckets, key);
    s.(buckets := s.buckets[k := Add(CountsAt(s.buckets, k), increment)])
  }

  predicate Changed(s: Store, k: Key) {
    k in s.buckets && k !in s.pending && !Zero(Sub(s.buckets[k], CountsAt(s.flushed, k)))
  }

  function NextLine(s: Store, k: Key): Line
    requires k in s.buckets
  {
    Line(Some(LineId(s.instance, |s.issued| + 1)), k, Sub(s.buckets[k], CountsAt(s.flushed, k)))
  }

  /** A key with an unacknowledged line keeps that line; newer observations wait. */
  function Enqueue(s: Store, k: Key): Store {
    if !Changed(s, k) then s else
      s.(pending := s.pending[k := Pending(NextLine(s, k), Clone(s.buckets[k]))], issued := s.issued + [NextLine(s, k)])
  }

  /** Advances only after the whole append succeeded. */
  function Commit(s: Store, k: Key): Store
    requires k in s.pending
  {
    s.(flushed := s.flushed[k := s.pending[k].snapshot], pending := s.pending - {k}, written := s.written - {k})
  }

  /** An append of `line` to its day file by this process or another one. */
  ghost predicate Appended(c: Codec, before: map<int, string>, line: Line, after: map<int, string>, ok: bool) {
    var day := c.day(line.key);
    && after == before[day := FileAt(after, day)]
    && AppendResult(FileAt(before, day), c.encode(line), FileAt(after, day), ok)
  }

  /** Between an append and its acknowledgement other observations may arrive, so the two
      are separate steps; `Foreign` is an append by another process to the shared files. */
  datatype Step =
    | Observed(key: Key, increment: Counts)
    | Enqueued(key: Key)
    | Wrote(key: Key, disk: map<int, string>, ok: bool)
    | Committed(key: Key)
    | Foreign(line: Line, disk: map<int, string>, ok: bool)

  ghost predicate Legal(c: Codec, s: Store, step: Step) {
    match step
    case Observed(_, _) => true
    case Enqueued(_) => true
    case Wrote(k, disk, ok) => k in s.pending && Appended(c, s.disk, s.pending[k].line, disk, ok)
    case Committed(k) => k in s.written
    case Foreign(line, disk, ok) =>
      (line.id.Some? ==> line.id.value.instance != s.instance) && Appended(c, s.disk, line, disk, ok)
  }

  ghost function Apply(s: Store, step: Step): Store {
    match step
    case Observed(key, increment) => Observe(s, key, increment)
    case Enqueued(k) => Enqueue(s, k)
    case Wrote(k, disk, ok) => s.(disk := disk, written := if ok then s.written + {k} else s.written)
    case Committed(k) => if k in s.pending then Commit(s, k) else s
    case Foreign(_, disk, _) => s.(disk := disk)
  }

  ghost predicate LegalRun(c: Codec, s: Store, run: seq<Step>)
    decreases |run|
  {
    run != [] ==> Legal(c, s, run[0]) && LegalRun(c, Apply(s, run[0]), run[1..])
  }

  ghost function Final(s: Store, run: seq<Step>): Store
    decreases |run|
  {
    if run == [] then s else Final(Apply(s, run[0]), run[1..])
  }

  // ---------- the invariant ----------

  predicate IsPending(s: Store, i: nat)
    requires i < |s.issued|
  {
    var k := s.issued[i].key;
    k in s.pending && s.pending[k].line == s.issued[i]
  }

  /** Acknowledged lines of one key, by position in `issued`. */
  ghost function Acknowledged(s: Store, k: Key): set<nat> {
    set i: nat | i < |s.issued| && s.issued[i].key == k && !IsPending(s, i)
  }

  ghost function Deltas(issued: seq<Line>, chosen: set<nat>, x: Coord): map<nat, int> {
    map i: nat | i in chosen && i < |issued| :: View(issued[i].delta, x)
  }

  /** The sum of one number over a choice of issued lines. */
  ghost function Weigh(issued: seq<Line>, chosen: set<nat>, x: Coord): int {
    Sum(Deltas(issued, chosen, x))
  }

  lemma WeighNone(issued: seq<Line>, x: Coord)
    ensures Weigh(issued, {}, x) == 0
  {
    assert Deltas(issued, {}, x) == map[];
  }

  lemma WeighMore(issued: seq<Line>, chosen: set<nat>, n: nat, x: Coord)
    requires n < |issued| && n !in chosen
    ensures Weigh(issued, chosen + {n}, x) == Weigh(issued, chosen, x) + View(issued[n].delta, x)
  {
    var before, v := Deltas(issued, chosen, x), View(issued[n].delta, x);
    SumUpdate(before, n, v);
    assert Deltas(issued, chosen + {n}, x) == before[n := v];
  }

  lemma WeighLonger(issued: seq<Line>, l: Line, chosen: set<nat>, x: Coord)
    requires forall i | i in chosen :: i < |issued|
    ensures Weigh(issued + [l], chosen, x) == Weigh(issued, chosen, x)
  {
    assert Deltas(issued + [l], chosen, x) == Deltas(issued, chosen, x);
  }

  /** A line some reader would parse out of the files. */
  ghost predicate Shows(c: Codec, disk: map<int, string>, text: string, line: Line) {
    c.parse(text) == Some(line) && exists day :: day in disk && text in Scanned(disk[day])
  }

  predicate Ours(s: Store, line: Line) {
    line.id.Some? && line.id.value.instance == s.instance
  }

  predicate Issued(s: Store, line: Line) {
    line.id.Some? && 0 < line.id.value.sequence <= |s.issued| && s.issued[line.id.value.sequence - 1] == line
  }

  ghost predicate Identified(s: Store) {
    && (forall i | 0 <= i < |s.issued| :: s.issued[i].id == Some(LineId(s.instance, i + 1)))
    && (forall k | k in s.pending ::
        s.pending[k].line.key == k && Ours(s, s.pending[k].line) && Issued(s, s.pending[k].line))
  }

  ghost predicate Balanced(s: Store) {
    && (forall k, x :: Weigh(s.issued, Acknowledged(s, k), x) == View(CountsAt(s.flushed, k), x))
    && (forall k, x | k in s.pending ::
          View(s.pending[k].snapshot, x) == View(CountsAt(s.flushed, k), x) + View(s.pending[k].line.delta, x))
  }

  /** Acknowledged lines are complete on disk, and nothing of ours is there that was never issued. */
  ghost predicate Durable(c: Codec, s: Store) {
    && (forall i | 0 <= i < |s.issued| && !IsPending(s, i) ::
        c.encode(s.issued[i]) in Lines(FileAt(s.disk, c.day(s.issued[i].key))))
    && (forall text, line | Shows(c, s.disk, text, line) && Ours(s, line) :: Issued(s, line))
  }

  /** A line whose append succeeded is on disk, whatever was appended since. */
  ghost predicate Landed(c: Codec, s: Store) {
    forall k | k in s.written :: k in s.pending && c.encode(s.pending[k].line) in Lines(FileAt(s.disk, c.day(k)))
  }

  ghost predicate Inv(c: Codec, s: Store) {
    Identified(s) && Balanced(s) && Durable(c, s) && Landed(c, s)
  }

  lemma ObserveKeepsInv(c: Codec, s: Store, key: Key, increment: Counts)
    requires Inv(c, s)
    ensures Inv(c, Observe(s, key, increment))
  {
    var s' := Observe(s, key, increment);
    forall k, x ensures Weigh(s'.issued, Acknowledged(s', k), x) == View(CountsAt(s'.flushed, k), x) {
      assert Acknowledged(s', k) == Acknowledged(s, k);
      assert Weigh(s.issued, Acknowledged(s, k), x) == View(CountsAt(s.flushed, k), x);
    }
    DiskUnchanged(c, s, s');
  }

  /** Steps that leave disk and pending lines alone keep the files durable. */
  lemma DiskUnchanged(c: Codec, s: Store, s': Store)
    requires Durable(c, s)
    requires s'.instance == s.instance && s'.disk == s.disk && s'.issued == s.issued && s'.pending == s.pending
    ensures Durable(c, s')
  {
    forall i | 0 <= i < |s'.issued| && !IsPending(s', i)
      ensures c.encode(s'.issued[i]) in Lines(FileAt(s'.disk, c.day(s'.issued[i].key)))
    {
      assert !IsPending(s, i);
    }
  }

  lemma NewLineIsPending(s: Store, k: Key)
    requires Identified(s) && Changed(s, k)
    ensures Identified(Enqueue(s, k))
    ensures IsPending(Enqueue(s, k), |s.issued|)
    ensures forall i: nat | i < |s.issued| :: IsPending(Enqueue(s, k), i) <==> IsPending(s, i)
  {
    forall i: nat | i < |s.issued| ensures IsPending(Enqueue(s, k), i) <==> IsPending(s, i) {
      assert s.issued[i].id != NextLine(s, k).id;
    }
  }

  lemma EnqueueBalances(s: Store, k: Key)
    requires Identified(s) && Balanced(s) && Changed(s, k)
    ensures Balanced(Enqueue(s, k))
  {
    var s' := Enqueue(s, k);
    NewLineIsPending(s, k);
    forall j, x ensures Weigh(s'.issued, Acknowledged(s', j), x) == View(CountsAt(s'.flushed, j), x) {
      assert Acknowledged(s', j) == Acknowledged(s, j);
      WeighLonger(s.issued, NextLine(s, k), Acknowledged(s, j), x);
      assert Weigh(s.issued, Acknowledged(s, j), x) == View(CountsAt(s.flushed, j), x);
    }
    forall x ensures View(s'.pending[k].snapshot, x)
        == View(CountsAt(s.flushed, k), x) + View(s'.pending[k].line.delta, x) {
      ViewClone(s.buckets[k], x);
      ViewSubAdd(s.buckets[k], CountsAt(s.flushed, k), x);
    }
  }

  lemma EnqueueDurable(c: Codec, s: Store, k: Key)
    requires Identified(s) && Durable(c, s) && Changed(s, k)
    ensures Durable(c, Enqueue(s, k))
  {
    var s' := Enqueue(s, k);
    NewLineIsPending(s, k);
    forall text, l | Shows(c, s'.disk, text, l) && Ours(s', l) ensures Issued(s', l) {
      assert Shows(c, s.disk, text, l) && Ours(s, l);
      assert Issued(s, l);
    }
  }

  lemma EnqueueKeepsInv(c: Codec, s: Store, k: Key)
    requires Inv(c, s)
    ensures Inv(c, Enqueue(s, k))
  {
    if Changed(s, k) {
      NewLineIsPending(s, k);
      EnqueueBalances(s, k);
      EnqueueDurable(c, s, k);
    }
  }

  lemma CommitKeepsInv(c: Codec, s: Store, k: Key)
    requires Inv(c, s) && Legal(c, s, Committed(k))
    ensures k in s.pending && Inv(c, Commit(s, k))
  {
    var s' := Commit(s, k);
    var line := s.pending[k].line;
    var n := line.id.value.sequence - 1;
    forall i: nat | i < |s.issued| ensures IsPending(s', i) <==> IsPending(s, i) && i != n {
      if s.issued[i].key == k && IsPending(s, i) {
        assert s.issued[i].id == Some(LineId(s.instance, i + 1));
      }
    }
    CommitBalances(s, k, n);
    forall i | 0 <= i < |s'.issued| && !IsPending(s', i)
      ensures c.encode(s'.issued[i]) in Lines(FileAt(s'.disk, c.day(s'.issued[i].key)))
    {
      assert i != n ==> !IsPending(s, i);
    }
    assert s.pending[k].line == s.issued[n];
  }

  lemma CommitBalances(s: Store, k: Key, n: nat)
    requires Identified(s) && Balanced(s) && k in s.pending && n < |s.issued| && s.issued[n] == s.pending[k].line
    requires forall i: nat | i < |s.issued| :: IsPending(Commit(s, k), i) <==> IsPending(s, i) && i != n
    ensures Balanced(Commit(s, k))
  {
    var s' := Commit(s, k);
    forall j, x ensures Weigh(s'.issued, Acknowledged(s', j), x) == View(CountsAt(s'.flushed, j), x) {
      var before := Acknowledged(s, j);
      assert Weigh(s.issued, before, x) == View(CountsAt(s.flushed, j), x);
      if j == k {
        assert IsPending(s, n) && Acknowledged(s', j) == before + {n};
        WeighMore(s.issued, before, n, x);
        assert View(s.pending[k].snapshot, x) == View(CountsAt(s.flushed, k), x) + View(s.pending[k].line.delta, x);
      } else {
        assert Acknowledged(s', j) == before;
      }
    }
    forall j, x | j in s'.pending
      ensures View(s'.pending[j].snapshot, x) == View(CountsAt(s'.flushed, j), x) + View(s'.pending[j].line.delta, x)
    {
      assert j in s.pending && CountsAt(s'.flushed, j) == CountsAt(s.flushed, j);
    }
  }

  // ---------- appends ----------

  /** An append keeps every terminated line, and shows nothing but its own line anew. */
  lemma AppendShows(c: Codec, before: map<int, string>, line: Line, after: map<int, string>, ok: bool, day: int,
                    text: string)
    requires Sound(c) && Appended(c, before, line, after, ok)
    ensures text in Lines(FileAt(before, day)) ==> text in Lines(FileAt(after, day))
    ensures ok ==> c.encode(line) in Lines(FileAt(after, c.day(line.key)))
    ensures text in Scanned(FileAt(after, day)) && c.parse(text).Some? ==>
              text in Scanned(FileAt(before, day)) || text == c.encode(line)
  {
    if day == c.day(line.key) {
      var b, a, whole := FileAt(before, day), FileAt(after, day), c.encode(line);
      if text in Scanned(a) && text !in Lines(a) {
        assert text == Tail(a);
        if text <= whole {
          assert text == whole[..|text|];
        }
      }
    }
  }

  lemma AppendKeepsInv(c: Codec, s: Store, line: Line, disk: map<int, string>, ok: bool)
    requires Sound(c) && Inv(c, s) && Appended(c, s.disk, line, disk, ok)
    requires Ours(s, line) ==> Issued(s, line)
    ensures Inv(c, s.(disk := disk))
  {
    var s' := s.(disk := disk);
    forall k, x ensures Weigh(s'.issued, Acknowledged(s', k), x) == View(CountsAt(s'.flushed, k), x) {
      assert Acknowledged(s', k) == Acknowledged(s, k);
      assert Weigh(s.issued, Acknowledged(s, k), x) == View(CountsAt(s.flushed, k), x);
    }
    forall i | 0 <= i < |s'.issued| && !IsPending(s', i)
      ensures c.encode(s'.issued[i]) in Lines(FileAt(s'.disk, c.day(s'.issued[i].key)))
    {
      assert !IsPending(s, i);
      AppendShows(c, s.disk, line, disk, ok, c.day(s.issued[i].key), c.encode(s.issued[i]));
    }
    forall k | k in s'.written ensures c.encode(s'.pending[k].line) in Lines(FileAt(disk, c.day(k))) {
      AppendShows(c, s.disk, line, disk, ok, c.day(k), c.encode(s.pending[k].line));
    }
    forall text, l | Shows(c, s'.disk, text, l) && Ours(s', l) ensures Issued(s', l) {
      var day :| day in disk && text in Scanned(disk[day]);
      AppendShows(c, s.disk, line, disk, ok, day, text);
      if text == c.encode(line) {
        assert c.encode(line)[..|c.encode(line)|] == c.encode(line);
        assert c.parse(text) == Some(line);
      } else {
        assert text in Scanned(FileAt(s.disk, day)) && day in s.disk by {
          assert Scanned("") == [];
        }
        assert Shows(c, s.disk, text, l) && Ours(s, l);
        assert Issued(s, l);
      }
    }
  }

  /** A successful append adds its line to those that have landed. */
  lemma WriteKeepsInv(c: Codec, s: Store, k: Key, disk: map<int, string>, ok: bool)
    requires Sound(c) && Inv(c, s) && k in s.pending && Appended(c, s.disk, s.pending[k].line, disk, ok)
    ensures Inv(c, s.(disk := disk, written := if ok then s.written + {k} else s.written))
  {
    var s' := s.(disk := disk, written := if ok then s.written + {k} else s.written);
    AppendKeepsInv(c, s, s.pending[k].line, disk, ok);
    SameButWritten(c, s.(disk := disk), s');
    if ok {
      AppendShows(c, s.disk, s.pending[k].line, disk, ok, c.day(k), c.encode(s.pending[k].line));
    }
  }

  /** Which keys are marked as written matters to nothing else. */
  lemma SameButWritten(c: Codec, s: Store, s': Store)
    requires Inv(c, s) && s' == s.(written := s'.written)
    ensures Identified(s') && Balanced(s') && Durable(c, s')
  {
    forall k, x ensures Weigh(s'.issued, Acknowledged(s', k), x) == View(CountsAt(s'.flushed, k), x) {
      assert Acknowledged(s', k) == Acknowledged(s, k);
      assert Weigh(s.issued, Acknowledged(s, k), x) == View(CountsAt(s.flushed, k), x);
    }
    DiskUnchanged(c, s, s');
    forall text, line | Shows(c, s'.disk, text, line) && Ours(s', line) ensures Issued(s', line) {
      assert Shows(c, s.disk, text, line) && Ours(s, line) && Issued(s, line);
    }
  }

  /** An append with nothing before its acknowledgement, as one flush sees it. */
  lemma PersistKeepsInv(c: Codec, s: Store, k: Key, disk: map<int, string>, ok: bool)
    requires Sound(c) && Inv(c, s) && s.written == {}
    requires k in s.pending && Appended(c, s.disk, s.pending[k].line, disk, ok)
    ensures Inv(c, if ok then Commit(s.(disk := disk), k) else s.(disk := disk))
  {
    WriteKeepsInv(c, s, k, disk, ok);
    if ok {
      var wrote := s.(disk := disk, written := s.written + {k});
      CommitKeepsInv(c, wrote, k);
      assert wrote.written - {k} == s.written - {k};
      assert Commit(wrote, k) == Commit(s.(disk := disk), k);
    }
  }

  lemma StepKeepsInv(c: Codec, s: Store, step: Step)
    requires Sound(c) && Inv(c, s) && Legal(c, s, step)
    ensures Inv(c, Apply(s, step))
  {
    match step
    case Observed(key, increment) => ObserveKeepsInv(c, s, key, increment);
    case Enqueued(k) => EnqueueKeepsInv(c, s, k);
    case Wrote(k, disk, ok) => WriteKeepsInv(c, s, k, disk, ok);
    case Committed(k) => CommitKeepsInv(c, s, k);
    case Foreign(line, disk, ok) => AppendKeepsInv(c, s, line, disk, ok);
  }

  lemma {:induction false} RunKeepsInv(c: Codec, s: Store, run: seq<Step>)
    requires Sound(c) && Inv(c, s) && LegalRun(c, s, run)
    ensures Inv(c, Final(s, run))
    decreases |run|
  {
    if run != [] {
      StepKeepsInv(c, s, run[0]);
      RunKeepsInv(c, Apply(s, run[0]), run[1..]);
    }
  }
}
