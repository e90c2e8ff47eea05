/** The counters of one rollup bucket: the difference that becomes a log line, the sum a
    reader forms, and what both mean number by number. */
module RollupCounts {

  datatype Counter =
    | Records | Completions | Successes | Failures | Fallbacks | Cancels | CountTokens
    | InputTokens | OutputTokens | CacheReadTokens | CacheWriteTokens | FailedTokens | LargeContexts | CostMicroUSD

  datatype Table = PolicySkips | FailureReasons | UsageKnown | UsageTotals

  datatype Histogram = HeaderLatency | FirstContent | TokensPerSecond

  /** The fields of a bucket by name; a number that is not there is zero. */
  datatype Counts = Counts(counters: map<Counter, int>, tables: map<Table, map<string, int>>,
      histograms: map<Histogram, seq<int>>)

  const EMPTY := Counts(map[], map[], map[])

  /** One number inside a bucket. */
  datatype Coord = Scalar(counter: Counter) | Entry(table: Table, name: string) | Bin(histogram: Histogram, index: nat)

  function MapAt<K>(m: map<K, int>, k: K): int {
    if k in m then m[k] else 0
  }

  function SliceAt(s: seq<int>, i: nat): int {
    if i < |s| then s[i] else 0
  }

  function TableOf(c: Counts, t: Table): map<string, int> {
    if t in c.tables then c.tables[t] else map[]
  }

  function HistogramOf(c: Counts, h: Histogram): seq<int> {
    if h in c.histograms then c.histograms[h] else []
  }

  function View(c: Counts, x: Coord): int {
    match x
    case Scalar(f) => MapAt(c.counters, f)
    case Entry(t, name) => MapAt(TableOf(c, t), name)
    case Bin(h, i) => SliceAt(HistogramOf(c, h), i)
  }

  // ---------- slices and maps ----------

  function Longer(a: seq<int>, b: seq<int>): nat {
    if |a| < |b| then |b| else |a|
  }

  predicate SameSlice(a: seq<int>, b: seq<int>) {
    forall i | 0 <= i < Longer(a, b) :: SliceAt(a, i) == SliceAt(b, i)
  }

  /** Differences that are zero throughout disappear. */
  function SliceSub(a: seq<int>, b: seq<int>): seq<int> {
    if SameSlice(a, b) then [] else seq(Longer(a, b), (i: nat) => SliceAt(a, i) - SliceAt(b, i))
  }

  function SliceAdd(dst: seq<int>, src: seq<int>): seq<int> {
    if src == [] then dst else seq(Longer(dst, src), (i: nat) => SliceAt(dst, i) + SliceAt(src, i))
  }

  function MapSub<K>(a: map<K, int>, b: map<K, int>): map<K, int> {
    map k | k in a.Keys + b.Keys && MapAt(a, k) != MapAt(b, k) :: MapAt(a, k) - MapAt(b, k)
  }

  /** Zero amounts of the source create no entry. */
  function MapAdd<K>(dst: map<K, int>, src: map<K, int>): map<K, int> {
    map k | k in dst.Keys + src.Keys && (k in dst || src[k] != 0) :: MapAt(dst, k) + MapAt(src, k)
  }

  method Int64SliceSub(a: seq<int>, b: seq<int>) returns (out: seq<int>)
    ensures out == SliceSub(a, b)
  {
    if |a| == 0 && |b| == 0 {
      return [];
    }
    var n := if |b| > |a| then |b| else |a|;
    out := seq(n, _ => 0);
    var nonzero := false;
    for i := 0 to n
      invariant |out| == n
      invariant forall j | 0 <= j < i :: out[j] == SliceAt(a, j) - SliceAt(b, j)
      invariant forall j | i <= j < n :: out[j] == 0
      invariant nonzero <==> exists j :: 0 <= j < i && SliceAt(a, j) != SliceAt(b, j)
    {
      if i < |a| {
        out := out[i := out[i] + a[i]];
      }
      if i < |b| {
        out := out[i := out[i] - b[i]];
      }
      if out[i] != 0 {
        assert SliceAt(a, i) != SliceAt(b, i);
        nonzero := true;
      }
    }
    if !nonzero {
      return [];
    }
    assert !SameSlice(a, b);
  }

  method Int64SliceAdd(dst: seq<int>, src: seq<int>) returns (out: seq<int>)
    ensures out == SliceAdd(dst, src)
  {
    out := dst;
    if |src| == 0 {
      return;
    }
    if |out| < |src| {
      out := out + seq(|src| - |out|, _ => 0);
    }
    ghost var grown := out;
    for i := 0 to |src|
      invariant |out| == |grown| == Longer(dst, src)
      invariant forall j | 0 <= j < |out| :: out[j] == SliceAt(dst, j) + if j < i then src[j] else 0
    {
      out := out[i := out[i] + src[i]];
    }
  }

  method StringInt64MapSub(a: map<string, int>, b: map<string, int>) returns (out: map<string, int>)
    ensures out == MapSub(a, b)
  {
    out := a;
    var rest := b.Keys;
    while rest != {}
      invariant rest <= b.Keys
      invariant out.Keys == a.Keys + (b.Keys - rest)
      invariant forall k | k in out :: out[k] == MapAt(a, k) - if k in rest then 0 else MapAt(b, k)
    {
      var k :| k in rest;
      out := out[k := MapAt(out, k) - b[k]];
      rest := rest - {k};
    }
    ghost var full := out;
    rest := out.Keys;
    while rest != {}
      invariant rest <= full.Keys
      invariant out == map k | k in full && (k in rest || full[k] != 0) :: full[k]
    {
      var k :| k in rest;
      if out[k] == 0 {
        out := out - {k};
      }
      rest := rest - {k};
    }
  }

  method StringInt64MapAdd(dst: map<string, int>, src: map<string, int>) returns (out: map<string, int>)
    ensures out == MapAdd(dst, src)
  {
    out := dst;
    var rest := src.Keys;
    while rest != {}
      invariant rest <= src.Keys
      invariant out.Keys == dst.Keys + set k | k in src.Keys - rest && src[k] != 0
      invariant forall k | k in out :: out[k] == MapAt(dst, k) + if k in src.Keys - rest then src[k] else 0
    {
      var k :| k in rest;
      if src[k] != 0 {
        out := out[k := MapAt(out, k) + src[k]];
      }
      rest := rest - {k};
    }
  }

  lemma SliceViews(a: seq<int>, b: seq<int>, i: nat)
    ensures SliceAt(SliceSub(a, b), i) == SliceAt(a, i) - SliceAt(b, i)
    ensures SliceAt(SliceAdd(a, b), i) == SliceAt(a, i) + SliceAt(b, i)
  {
  }

  // ---------- buckets ----------

  function Sub(a: Counts, b: Counts): Counts {
    Counts(
      MapSub(a.counters, b.counters),
      map t | t in a.tables.Keys + b.tables.Keys && MapSub(TableOf(a, t), TableOf(b, t)) != map[] ::
          MapSub(TableOf(a, t), TableOf(b, t)),
      map h | h in a.histograms.Keys + b.histograms.Keys && SliceSub(HistogramOf(a, h), HistogramOf(b, h)) != [] ::
          SliceSub(HistogramOf(a, h), HistogramOf(b, h)))
  }

  function Add(a: Counts, b: Counts): Counts {
    Counts(
      MapAdd(a.counters, b.counters),
      map t | t in a.tables.Keys + b.tables.Keys :: MapAdd(TableOf(a, t), TableOf(b, t)),
      map h | h in a.histograms.Keys + b.histograms.Keys :: SliceAdd(HistogramOf(a, h), HistogramOf(b, h)))
  }

  /** A difference in which every number cancelled. */
  predicate Zero(c: Counts) {
    c == EMPTY
  }

  /** The copy that survives later observations; two tables shed their zero entries. */
  function Clone(c: Counts): Counts {
    c.(tables := map t | t in c.tables :: if t in {UsageKnown, UsageTotals} then MapAdd(map[], c.tables[t])
        else c.tables[t])
  }

  ghost predicate SameCounts(a: Counts, b: Counts) {
    forall x :: View(a, x) == View(b, x)
  }

  lemma MapViews<K>(a: map<K, int>, b: map<K, int>, k: K)
    ensures MapAt(MapSub(a, b), k) == MapAt(a, k) - MapAt(b, k)
    ensures MapAt(MapAdd(a, b), k) == MapAt(a, k) + MapAt(b, k)
  {
  }

  lemma TableParts(a: Counts, b: Counts, t: Table)
    ensures TableOf(Sub(a, b), t) == MapSub(TableOf(a, t), TableOf(b, t))
    ensures TableOf(Add(a, b), t) == MapAdd(TableOf(a, t), TableOf(b, t))
  {
  }

  lemma HistogramParts(a: Counts, b: Counts, h: Histogram)
    ensures HistogramOf(Sub(a, b), h) == SliceSub(HistogramOf(a, h), HistogramOf(b, h))
    ensures HistogramOf(Add(a, b), h) == SliceAdd(HistogramOf(a, h), HistogramOf(b, h))
  {
  }

  /** Differences and sums are taken number by number, although zero entries and empty slices vanish. */
  lemma ViewSubAdd(a: Counts, b: Counts, x: Coord)
    ensures View(Sub(a, b), x) == View(a, x) - View(b, x)
    ensures View(Add(a, b), x) == View(a, x) + View(b, x)
  {
    match x
    case Scalar(f) => MapViews(a.counters, b.counters, f);
    case Entry(t, name) => TableParts(a, b, t); MapViews(TableOf(a, t), TableOf(b, t), name);
    case Bin(h, i) => HistogramParts(a, b, h); SliceViews(HistogramOf(a, h), HistogramOf(b, h), i);
  }

  lemma ViewClone(c: Counts, x: Coord)
    ensures View(Clone(c), x) == View(c, x)
  {
  }

  lemma SliceSubEmpty(a: seq<int>, b: seq<int>)
    requires forall i: nat :: SliceAt(a, i) == SliceAt(b, i)
    ensures SliceSub(a, b) == []
  {
  }

  lemma MapSubEmpty<K(!new)>(a: map<K, int>, b: map<K, int>)
    requires forall k :: MapAt(a, k) == MapAt(b, k)
    ensures MapSub(a, b) == map[]
  {
  }

  /** A bucket produces a log line exactly when some number in it changed. */
  lemma ZeroSub(a: Counts, b: Counts)
    ensures Zero(Sub(a, b)) <==> SameCounts(a, b)
  {
    if Zero(Sub(a, b)) {
      forall x ensures View(a, x) == View(b, x) {
        ViewSubAdd(a, b, x);
        assert View(EMPTY, x) == 0;
      }
    }
    if SameCounts(a, b) {
      forall f ensures MapAt(a.counters, f) == MapAt(b.counters, f) {
        assert View(a, Scalar(f)) == View(b, Scalar(f));
      }
      MapSubEmpty(a.counters, b.counters);
      forall t ensures MapSub(TableOf(a, t), TableOf(b, t)) == map[] {
        forall k ensures MapAt(TableOf(a, t), k) == MapAt(TableOf(b, t), k) {
          assert View(a, Entry(t, k)) == View(b, Entry(t, k));
        }
        MapSubEmpty(TableOf(a, t), TableOf(b, t));
      }
      forall h ensures SliceSub(HistogramOf(a, h), HistogramOf(b, h)) == [] {
        forall i: nat ensures SliceAt(HistogramOf(a, h), i) == SliceAt(HistogramOf(b, h), i) {
          assert View(a, Bin(h, i)) == View(b, Bin(h, i));
        }
        SliceSubEmpty(HistogramOf(a, h), HistogramOf(b, h));
      }
      assert Sub(a, b) == EMPTY;
    }
  }
}
