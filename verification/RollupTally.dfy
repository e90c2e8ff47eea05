/** From observations to the reader: which bucket each key has over a whole run, what the
    bucket holds, and that a reading returns exactly what was observed. */
module RollupTally {
  import opened Wrappers
  import opened RollupCounts
  import opened RollupFile
  import opened RollupLog
  import opened RollupReader

  // ---------- whose bucket a key has ----------

  predicate Observes(step: Step, k: Key) {
    step.Observed? && step.key == k
  }

  /** The keys that samples named in a run. */
  ghost function Named(run: seq<Step>): set<Key> {
    set i | 0 <= i < |run| && run[i].Observed? :: run[i].key
  }

  /** A key has a bucket of its own when fewer than 10000 keys were named before it. */
  ghost predicate Own(run: seq<Step>, k: Key) {
    exists i :: 0 <= i < |run| && Observes(run[i], k) && |Named(run[..i])| < 10000
  }

  /** Every other key shares the overflow bucket of its own hour and route. */
  ghost function Home(run: seq<Step>, k: Key): Key {
    if Own(run, k) then k else Key("attribution-overflow", k.hour, k.route)
  }

  ghost function Owners(run: seq<Step>): set<Key> {
    set k | k in Named(run) && Own(run, k)
  }

  lemma NamedSnoc(run: seq<Step>, step: Step)
    ensures Named(run + [step]) == if step.Observed? then Named(run) + {step.key} else Named(run)
  {
    var more := run + [step];
    assert forall i | 0 <= i < |run| :: more[i] == run[i];
    assert more[|run|] == step;
    forall k | k in Named(run) ensures k in Named(more) {
      var i :| 0 <= i < |run| && run[i].Observed? && run[i].key == k;
      assert more[i].Observed? && more[i].key == k;
    }
    if step.Observed? { assert more[|run|].key in Named(more); }
  }

  lemma NamedGrows(run: seq<Step>, i: nat)
    requires i <= |run|
    ensures Named(run[..i]) <= Named(run) && |Named(run[..i])| <= |Named(run)|
  {
    forall k | k in Named(run[..i]) ensures k in Named(run) {
      var j :| 0 <= j < i && run[..i][j].Observed? && run[..i][j].key == k;
      assert run[j].Observed?;
    }
    Fewer(Named(run[..i]), Named(run));
  }

  lemma {:induction false} Fewer(a: set<Key>, b: set<Key>)
    requires a <= b
    ensures |a| <= |b|
    decreases a
  {
    if a != {} {
      var k :| k in a;
      Fewer(a - {k}, b - {k});
    }
  }

  lemma OwnSnoc(run: seq<Step>, step: Step, k: Key)
    ensures Own(run + [step], k) <==> Own(run, k) || (Observes(step, k) && |Named(run)| < 10000)
  {
    var more := run + [step];
    assert more[..|run|] == run && more[|run|] == step;
    forall i | 0 <= i < |run| ensures more[i] == run[i] && more[..i] == run[..i] { }
    if Own(run, k) {
      var i :| 0 <= i < |run| && Observes(run[i], k) && |Named(run[..i])| < 10000;
      assert Observes(more[i], k) && more[..i] == run[..i];
    }
    if Observes(step, k) && |Named(run)| < 10000 {
      assert Observes(more[|run|], k);
    }
  }

  lemma OwnIsNamed(run: seq<Step>, k: Key)
    ensures Own(run, k) ==> k in Named(run)
  {
    if Own(run, k) {
      var i :| 0 <= i < |run| && Observes(run[i], k);
      assert run[i].Observed? && run[i].key == k;
    }
  }

  /** A key keeps its home for the whole run. */
  lemma HomeIsSettled(run: seq<Step>, step: Step, k: Key)
    requires k in Named(run)
    ensures Home(run + [step], k) == Home(run, k)
  {
    OwnSnoc(run, step, k);
    if |Named(run)| < 10000 {
      var i :| 0 <= i < |run| && run[i].Observed? && run[i].key == k;
      NamedGrows(run, i);
      assert Observes(run[i], k);
    }
  }

  /** With at most 10000 keys every key is at home; from then on exactly the first 10000 are. */
  lemma {:induction false} OwnersAreTheFirst(run: seq<Step>)
    ensures |Named(run)| <= 10000 ==> Owners(run) == Named(run)
    ensures |Named(run)| >= 10000 ==> |Owners(run)| == 10000
    decreases |run|
  {
    if run == [] {
      assert Named(run) == {};
    } else {
      var init, step := run[..|run| - 1], run[|run| - 1];
      assert run == init + [step];
      OwnersAreTheFirst(init);
      OwnersSnoc(init, step);
      NamedSnoc(init, step);
      if step.Observed? && step.key !in Named(init) {
        assert |Named(run)| == |Named(init)| + 1;
      } else {
        assert Named(run) == Named(init);
      }
      if Named(run) == Named(init) && |Named(init)| < 10000 && step.Observed? {
        assert Owners(run) == Owners(init);
      }
    }
  }

  lemma OwnersSnoc(run: seq<Step>, step: Step)
    ensures Owners(run + [step]) ==
      if step.Observed? && |Named(run)| < 10000 then Owners(run) + {step.key} else Owners(run)
  {
    forall k ensures k in Owners(run + [step]) <==>
      k in Owners(run) || (Observes(step, k) && |Named(run)| < 10000)
    {
      OwnSnoc(run, step, k);
      OwnIsNamed(run, k);
      OwnIsNamed(run + [step], k);
    }
  }

  // ---------- what the buckets hold ----------

  /** The buckets are the owners', all of which exist, and shared ones. */
  ghost predicate Housed(buckets: map<Key, Counts>, run: seq<Step>) {
    && (forall k | k in buckets && !Own(run, k) :: k.attribution == "attribution-overflow")
    && (forall k | Own(run, k) :: k in buckets)
    && (|Named(run)| < 10000 ==> buckets.Keys == Named(run))
    && (|Named(run)| >= 10000 ==> |buckets| >= 10000)
  }

  /** A sample lands at its key's home. */
  lemma LandsAtHome(buckets: map<Key, Counts>, run: seq<Step>, key: Key, increment: Counts)
    requires Housed(buckets, run)
    ensures BucketKey(buckets, key) == Home(run + [Observed(key, increment)], key)
  {
    OwnSnoc(run, Observed(key, increment), key);
    assert |buckets| == |buckets.Keys|;
  }

  lemma StaysHoused(buckets: map<Key, Counts>, after: map<Key, Counts>, run: seq<Step>, step: Step)
    requires Housed(buckets, run) && step.Observed?
    requires after.Keys == buckets.Keys + {Home(run + [step], step.key)}
    ensures Housed(after, run + [step])
  {
    var key, home := step.key, Home(run + [step], step.key);
    NamedSnoc(run, step);
    OneMoreBucket(buckets, after, home);
    OwnSnoc(run, step, key);
    OthersOwn(run, step);
    if |Named(run)| < 10000 {
      assert home == key && |buckets| == |buckets.Keys| && |after| == |after.Keys|;
    }
  }

  lemma OthersOwn(run: seq<Step>, step: Step)
    requires step.Observed?
    ensures forall k | k != step.key :: Own(run + [step], k) <==> Own(run, k)
  {
    forall k | k != step.key ensures Own(run + [step], k) <==> Own(run, k) {
      OwnSnoc(run, step, k);
    }
  }

  lemma StillHoused(buckets: map<Key, Counts>, run: seq<Step>, step: Step)
    requires Housed(buckets, run) && !step.Observed?
    ensures Housed(buckets, run + [step])
  {
    NamedSnoc(run, step);
    forall k ensures Own(run + [step], k) <==> Own(run, k) {
      OwnSnoc(run, step, k);
    }
  }

  lemma OneMoreBucket(before: map<Key, Counts>, after: map<Key, Counts>, k: Key)
    requires after.Keys == before.Keys + {k}
    ensures |before| <= |after| <= |before| + 1 && (k !in before ==> |after| == |before| + 1)
  {
    assert |after| == |after.Keys| && |before| == |before.Keys|;
    if k in before { assert before.Keys + {k} == before.Keys; }
  }

  lemma {:induction false} FinalSnoc(s: Store, run: seq<Step>, step: Step)
    ensures Final(s, run + [step]) == Apply(Final(s, run), step)
    decreases |run|
  {
    if run == [] {
      assert [step][1..] == [];
      assert run + [step] == [step];
    } else {
      assert (run + [step])[0] == run[0] && (run + [step])[1..] == run[1..] + [step];
      FinalSnoc(Apply(s, run[0]), run[1..], step);
    }
  }

  lemma {:induction false} RunHoused(instance: string, disk: map<int, string>, run: seq<Step>)
    ensures Housed(Final(Fresh(instance, disk), run).buckets, run)
    decreases |run|
  {
    if run == [] {
      assert Named(run) == {};
    } else {
      var init, step := run[..|run| - 1], run[|run| - 1];
      assert run == init + [step];
      RunHoused(instance, disk, init);
      FinalSnoc(Fresh(instance, disk), init, step);
      StepHoused(Final(Fresh(instance, disk), init), init, step);
    }
  }

  lemma StepHoused(s: Store, run: seq<Step>, step: Step)
    requires Housed(s.buckets, run)
    ensures Housed(Apply(s, step).buckets, run + [step])
  {
    if step.Observed? {
      LandsAtHome(s.buckets, run, step.key, step.increment);
      StaysHoused(s.buckets, Apply(s, step).buckets, run, step);
    } else {
      StillHoused(s.buckets, run, step);
    }
  }

  /** What the first n steps of a run observed for keys at home in one bucket. */
  ghost function Received(run: seq<Step>, n: nat, k: Key, x: Coord): int
    requires n <= |run|
  {
    if n == 0 then 0 else
      var step := run[n - 1];
      Received(run, n - 1, k, x) + if step.Observed? && Home(run, step.key) == k then View(step.increment, x) else 0
  }

  /** What a run observed under one key. */
  ghost function Heard(run: seq<Step>, k: Key, x: Coord): int {
    if run == [] then 0 else
      var init, step := run[..|run| - 1], run[|run| - 1];
      Heard(init, k, x) + if Observes(step, k) then View(step.increment, x) else 0
  }

  lemma {:induction false} ReceivedSnoc(run: seq<Step>, step: Step, n: nat, k: Key, x: Coord)
    requires n <= |run|
    ensures Received(run + [step], n, k, x) == Received(run, n, k, x)
    decreases n
  {
    if n > 0 {
      ReceivedSnoc(run, step, n - 1, k, x);
      assert (run + [step])[n - 1] == run[n - 1];
      if run[n - 1].Observed? {
        assert run[n - 1].key in Named(run);
        HomeIsSettled(run, step, run[n - 1].key);
      }
    }
  }

  /** Over every run of a fresh process a bucket holds exactly what was observed for the keys
      at home there: a new key past the bound adds to the shared bucket of its own hour and
      route, a known key keeps its own, and no increment is lost or counted twice. */
  lemma {:induction false} BucketsTally(instance: string, disk: map<int, string>, run: seq<Step>, k: Key, x: Coord)
    ensures View(CountsAt(Final(Fresh(instance, disk), run).buckets, k), x) == Received(run, |run|, k, x)
    decreases |run|
  {
    if run == [] {
      assert View(EMPTY, x) == 0;
    } else {
      var init, step := run[..|run| - 1], run[|run| - 1];
      assert run == init + [step];
      var s := Final(Fresh(instance, disk), init);
      BucketsTally(instance, disk, init, k, x);
      FinalSnoc(Fresh(instance, disk), init, step);
      ReceivedSnoc(init, step, |init|, k, x);
      RunHoused(instance, disk, init);
      StepTally(s, init, step, k, x);
    }
  }

  lemma StepTally(s: Store, run: seq<Step>, step: Step, k: Key, x: Coord)
    requires Housed(s.buckets, run)
    ensures View(CountsAt(Apply(s, step).buckets, k), x) == View(CountsAt(s.buckets, k), x) +
      if step.Observed? && Home(run + [step], step.key) == k then View(step.increment, x) else 0
  {
    if step.Observed? {
      LandsAtHome(s.buckets, run, step.key, step.increment);
      ViewSubAdd(CountsAt(s.buckets, BucketKey(s.buckets, step.key)), step.increment, x);
    }
  }

  lemma {:induction false} AtHomeHears(run: seq<Step>, n: nat, k: Key, x: Coord)
    requires n <= |run| && |Named(run)| <= 10000
    ensures Received(run, n, k, x) == Heard(run[..n], k, x)
    decreases n
  {
    if n > 0 {
      AtHomeHears(run, n - 1, k, x);
      assert run[..n][..n - 1] == run[..n - 1];
      if run[n - 1].Observed? {
        OwnersAreTheFirst(run);
        assert run[n - 1].key in Owners(run);
      }
    }
  }

  /** While at most 10000 keys were named, each has a bucket with its own observations. */
  lemma EachKeyItsOwn(instance: string, disk: map<int, string>, run: seq<Step>, k: Key, x: Coord)
    requires |Named(run)| <= 10000
    ensures View(CountsAt(Final(Fresh(instance, disk), run).buckets, k), x) == Heard(run, k, x)
    ensures k in Final(Fresh(instance, disk), run).buckets <==> k in Named(run)
  {
    BucketsTally(instance, disk, run, k, x);
    AtHomeHears(run, |run|, k, x);
    assert run[..|run|] == run;
    BucketsAreHomes(instance, disk, run, k);
    OwnersAreTheFirst(run);
    assert k in Named(run) ==> k in Owners(run) && Home(run, k) == k;
    if j :| j in Named(run) && Home(run, j) == k { assert j in Owners(run); }
  }

  /** The buckets are the homes of the keys that were named, and no others. */
  lemma {:induction false} BucketsAreHomes(instance: string, disk: map<int, string>, run: seq<Step>, k: Key)
    ensures k in Final(Fresh(instance, disk), run).buckets <==> exists j :: j in Named(run) && Home(run, j) == k
    decreases |run|
  {
    if run == [] {
      assert Named(run) == {};
    } else {
      var init, step := run[..|run| - 1], run[|run| - 1];
      assert run == init + [step];
      BucketsAreHomes(instance, disk, init, k);
      FinalSnoc(Fresh(instance, disk), init, step);
      HomesSnoc(init, step, k);
      if step.Observed? {
        RunHoused(instance, disk, init);
        LandsAtHome(Final(Fresh(instance, disk), init).buckets, init, step.key, step.increment);
      }
    }
  }

  lemma HomesSnoc(run: seq<Step>, step: Step, k: Key)
    ensures (exists j :: j in Named(run + [step]) && Home(run + [step], j) == k) <==>
            (exists j :: j in Named(run) && Home(run, j) == k) ||
            (step.Observed? && Home(run + [step], step.key) == k)
  {
    NamedSnoc(run, step);
    forall j | j in Named(run) ensures Home(run + [step], j) == Home(run, j) {
      HomeIsSettled(run, step, j);
    }
  }

  // ---------- to the reader ----------

  /** End to end: over any run from a fresh process, on files other processes share, once
      everything is flushed the reader recovers exactly what was observed; while there were at
      most 10000 keys, key by key. */
  lemma ObservedIsRead(c: Codec, instance: string, disk: map<int, string>, run: seq<Step>, texts: seq<string>,
                       since: int, k: Key, x: Coord)
    requires Sound(c)
    requires forall text, line | Shows(c, disk, text, line) && line.id.Some? :: line.id.value.instance != instance
    requires LegalRun(c, Fresh(instance, disk), run)
    requires var s := Final(Fresh(instance, disk), run);
      FullyFlushed(s) && Covers(s.disk, texts) && k in s.buckets
    requires Collect(c, texts, since).Some? && since <= k.hour
    ensures var read := LineSum(Final(Fresh(instance, disk), run), Collect(c, texts, since).value.lines, k, x);
      read == Received(run, |run|, k, x) && (|Named(run)| <= 10000 ==> read == Heard(run, k, x))
  {
    FreshInv(c, instance, disk);
    RunKeepsInv(c, Fresh(instance, disk), run);
    FlushedReadingEqualsBuckets(c, Final(Fresh(instance, disk), run), texts, since, k, x);
    BucketsTally(instance, disk, run, k, x);
    if |Named(run)| <= 10000 {
      EachKeyItsOwn(instance, disk, run, k, x);
    }
  }
}
