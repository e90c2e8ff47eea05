/** The deduplicating reader, and what it reconstructs from the files of a running store. */
module RollupReader {
  import opened Wrappers
  import opened Sums
  import opened RollupCounts
  import opened RollupFile
  import opened RollupLog

  datatype Reading = Reading(lines: seq<Line>, seen: set<LineId>)

  /** One more scanned text: repeated identifiers and hours before `since` add nothing. */
  function Take(r: Reading, l: Line, since: int): Reading {
    if l.id.Some? && l.id.value in r.seen then r
    else
      var seen := if l.id.Some? then r.seen + {l.id.value} else r.seen;
      Reading(if l.key.hour < since then r.lines else r.lines + [l], seen)
  }

  /** Longer texts than this are refused by the scanner. */
  const SCAN_LIMIT := 4 * 1024 * 1024

  function ReadLine(c: Codec, t: string): Option<Line> {
    if |t| < SCAN_LIMIT then c.parse(t) else None
  }

  /** A malformed text ends the reading: the history would be incomplete. */
  function Collect(c: Codec, texts: seq<string>, since: int): Option<Reading> {
    if texts == [] then Some(Reading([], {})) else
      match (Collect(c, texts[..|texts| - 1], since), ReadLine(c, texts[|texts| - 1]))
      case (Some(r), Some(l)) => Some(Take(r, l, since))
      case _ => None
  }

  function AllScanned(files: seq<string>): seq<string> {
    if files == [] then [] else AllScanned(files[..|files| - 1]) + Scanned(files[|files| - 1])
  }

  method ReadRollupLines(c: Codec, files: seq<string>, since: int) returns (out: Option<seq<Line>>)
    ensures out == match Collect(c, AllScanned(files), since) case Some(r) => Some(r.lines) case None => None
  {
    var lines: seq<Line> := [];
    var seen: set<LineId> := {};
    for f := 0 to |files|
      invariant Collect(c, AllScanned(files[..f]), since) == Some(Reading(lines, seen))
    {
      var texts := Scanned(files[f]);
      ghost var before := AllScanned(files[..f]);
      assert before + texts[..0] == before;
      for i := 0 to |texts|
        invariant Collect(c, before + texts[..i], since) == Some(Reading(lines, seen))
      {
        CollectNext(c, before, texts, i, since);
        var parsed := ReadLine(c, texts[i]);
        if parsed.None? {
          MalformedFile(c, files, f, i, since);
          return None;
        }
        var line := parsed.value;
        if line.id.Some? && line.id.value in seen {
          continue;
        }
        if line.id.Some? {
          seen := seen + {line.id.value};
        }
        if line.key.hour < since {
          continue;
        }
        lines := lines + [line];
      }
      NextFile(files, f);
      assert texts[..|texts|] == texts;
    }
    assert files[..|files|] == files;
    out := Some(lines);
  }

  lemma CollectNext(c: Codec, before: seq<string>, texts: seq<string>, i: nat, since: int)
    requires i < |texts| && Collect(c, before + texts[..i], since).Some?
    ensures Collect(c, before + texts[..i + 1], since) ==
      match ReadLine(c, texts[i])
      case None => None
      case Some(l) => Some(Take(Collect(c, before + texts[..i], since).value, l, since))
  {
    var next := before + texts[..i + 1];
    assert next[..|next| - 1] == before + texts[..i] && next[|next| - 1] == texts[i];
  }

  lemma NextFile(files: seq<string>, f: nat)
    requires f < |files|
    ensures AllScanned(files[..f + 1]) == AllScanned(files[..f]) + Scanned(files[f])
  {
    assert files[..f + 1][..f] == files[..f];
  }

  lemma MalformedFile(c: Codec, files: seq<string>, f: nat, i: nat, since: int)
    requires f < |files| && i < |Scanned(files[f])|
    requires Collect(c, AllScanned(files[..f]) + Scanned(files[f])[..i + 1], since) == None
    ensures Collect(c, AllScanned(files), since) == None
  {
    NextFile(files, f);
    ScannedPrefix(files, f + 1);
    MalformedSticks(c, AllScanned(files[..f]) + Scanned(files[f])[..i + 1], AllScanned(files), since);
  }

  lemma {:induction false} ScannedPrefix(files: seq<string>, n: nat)
    requires n <= |files|
    ensures AllScanned(files[..n]) <= AllScanned(files)
    decreases |files|
  {
    if n == |files| {
      assert files[..n] == files;
    } else {
      var init := files[..|files| - 1];
      ScannedPrefix(init, n);
      assert init[..n] == files[..n];
    }
  }

  lemma {:induction false} MalformedSticks(c: Codec, a: seq<string>, b: seq<string>, since: int)
    requires a <= b && Collect(c, a, since) == None
    ensures Collect(c, b, since) == None
    decreases |b|
  {
    if a != b {
      MalformedSticks(c, a, b[..|b| - 1], since);
    } else {
      assert a == b;
    }
  }

  // ---------- what a reading contains ----------

  ghost predicate Parsed(c: Codec, texts: seq<string>, l: Line) {
    exists t :: t in texts && ReadLine(c, t) == Some(l)
  }

  predicate Distinct(lines: seq<Line>) {
    forall i, j | 0 <= i < j < |lines| :: lines[i].id.Some? ==> lines[i].id != lines[j].id
  }

  /** A reading holds exactly one line per identifier it met inside the requested hours. */
  ghost predicate Faithful(c: Codec, texts: seq<string>, since: int, r: Reading) {
    && Distinct(r.lines)
    && (forall l | l in r.lines :: Parsed(c, texts, l) && (l.id.Some? ==> l.id.value in r.seen))
    && (forall l | Parsed(c, texts, l) && l.id.Some? :: l.id.value in r.seen)
    && (forall id | id in r.seen :: exists l ::
        Parsed(c, texts, l) && l.id == Some(id) && (l.key.hour < since || l in r.lines))
  }

  lemma {:induction false} CollectFaithful(c: Codec, texts: seq<string>, since: int)
    ensures var r := Collect(c, texts, since); r.Some? ==> Faithful(c, texts, since, r.value)
    decreases |texts|
  {
    if texts != [] && Collect(c, texts, since).Some? {
      var init, t := texts[..|texts| - 1], texts[|texts| - 1];
      CollectFaithful(c, init, since);
      var r, l := Collect(c, init, since).value, ReadLine(c, t).value;
      TakeFaithful(c, init, t, since, r, l);
      assert init + [t] == texts;
    }
  }

  lemma TakeFaithful(c: Codec, texts: seq<string>, t: string, since: int, r: Reading, l: Line)
    requires Faithful(c, texts, since, r) && ReadLine(c, t) == Some(l)
    ensures Faithful(c, texts + [t], since, Take(r, l, since))
  {
    var more := texts + [t];
    assert t in more && Parsed(c, more, l);
    forall m ensures Parsed(c, more, m) <==> Parsed(c, texts, m) || m == l {
      if Parsed(c, texts, m) {
        var u :| u in texts && ReadLine(c, u) == Some(m);
        assert u in more;
      }
    }
    var r' := Take(r, l, since);
    forall id | id in r'.seen
      ensures exists m :: Parsed(c, more, m) && m.id == Some(id) && (m.key.hour < since || m in r'.lines)
    {
      if id in r.seen {
        var m :| Parsed(c, texts, m) && m.id == Some(id) && (m.key.hour < since || m in r.lines);
        assert Parsed(c, more, m) && (m in r.lines ==> m in r'.lines);
      } else {
        assert l.id == Some(id) && Parsed(c, more, l);
      }
    }
  }

  // ---------- exactly which lines are read ----------

  /** The line of each text, in order. */
  function ParsedLines(c: Codec, texts: seq<string>): seq<Line> {
    if texts == [] then [] else
      var init, l := ParsedLines(c, texts[..|texts| - 1]), ReadLine(c, texts[|texts| - 1]);
      if l.Some? then init + [l.value] else init
  }

  /** A line counts if it is of the hours asked for and the first with its identifier; lines
      without one all count. */
  predicate First(lines: seq<Line>, i: nat)
    requires i < |lines|
  {
    lines[i].id.None? || forall j :: 0 <= j < i ==> lines[j].id != lines[i].id
  }

  function Selected(lines: seq<Line>, since: int): seq<Line> {
    if lines == [] then [] else
      var n := |lines| - 1;
      var init := Selected(lines[..n], since);
      if First(lines, n) && since <= lines[n].key.hour then init + [lines[n]] else init
  }

  ghost predicate SeenIn(seen: set<LineId>, lines: seq<Line>) {
    forall id: LineId :: id in seen <==> exists j :: 0 <= j < |lines| && lines[j].id == Some(id)
  }

  lemma SeenMore(seen: set<LineId>, lines: seq<Line>, l: Line)
    requires SeenIn(seen, lines)
    ensures SeenIn(if l.id.Some? then seen + {l.id.value} else seen, lines + [l])
    ensures First(lines + [l], |lines|) <==> !(l.id.Some? && l.id.value in seen)
  {
    var more := lines + [l];
    assert more[|lines|] == l && forall j :: 0 <= j < |lines| ==> more[j] == lines[j];
    forall id: LineId ensures (exists j :: 0 <= j < |more| && more[j].id == Some(id)) <==>
      (exists j :: 0 <= j < |lines| && lines[j].id == Some(id)) || l.id == Some(id)
    {
      if j :| 0 <= j < |lines| && lines[j].id == Some(id) { assert more[j].id == Some(id); }
      if l.id == Some(id) { assert more[|lines|].id == Some(id); }
    }
  }

  lemma TakeSelects(r: Reading, lines: seq<Line>, l: Line, since: int)
    requires SeenIn(r.seen, lines) && r.lines == Selected(lines, since)
    ensures SeenIn(Take(r, l, since).seen, lines + [l])
    ensures Take(r, l, since).lines == Selected(lines + [l], since)
  {
    SeenMore(r.seen, lines, l);
    assert (lines + [l])[..|lines|] == lines;
    if l.id.Some? && l.id.value in r.seen { assert r.seen + {l.id.value} == r.seen; }
  }

  /** A reading is exactly the selection of the lines on disk, in their order: nothing else is
      left out, not even a line from before identifiers existed that looks like another. */
  lemma {:induction false} ReadsTheSelection(c: Codec, texts: seq<string>, since: int)
    requires Collect(c, texts, since).Some?
    ensures var r := Collect(c, texts, since).value;
      r.lines == Selected(ParsedLines(c, texts), since) && SeenIn(r.seen, ParsedLines(c, texts))
    decreases |texts|
  {
    if texts != [] {
      var init := texts[..|texts| - 1];
      ReadsTheSelection(c, init, since);
      TakeSelects(Collect(c, init, since).value, ParsedLines(c, init), ReadLine(c, texts[|texts| - 1]).value, since);
    }
  }

  // ---------- reconstruction ----------

  /** The sum a reader forms for one number of one key, over one process's lines. */
  function LineSum(s: Store, lines: seq<Line>, k: Key, x: Coord): int {
    if lines == [] then 0 else
      var l := lines[|lines| - 1];
      LineSum(s, lines[..|lines| - 1], k, x) + if Ours(s, l) && l.key == k then View(l.delta, x) else 0
  }

  /** Positions of the issued lines of one key that a list shows. */
  ghost function Gathered(s: Store, lines: seq<Line>, k: Key): set<nat> {
    set i: nat | i < |s.issued| && s.issued[i].key == k && s.issued[i] in lines
  }

  lemma IssuedOnce(s: Store, l: Line, i: nat, j: nat)
    requires Identified(s) && i < |s.issued| && j < |s.issued| && s.issued[i] == s.issued[j] == l
    ensures i == j
  {
    assert s.issued[i].id == Some(LineId(s.instance, i + 1)) && s.issued[j].id == Some(LineId(s.instance, j + 1));
  }

  lemma GatherKeys(s: Store, init: seq<Line>, l: Line)
    requires Identified(s) && l !in init && Ours(s, l) && Issued(s, l)
    ensures forall i: nat | i < |s.issued| ::
              (s.issued[i] in init + [l] <==> s.issued[i] in init || i == l.id.value.sequence - 1)
    ensures s.issued[l.id.value.sequence - 1] !in init
  {
    forall i: nat | i < |s.issued| && s.issued[i] == l ensures i == l.id.value.sequence - 1 {
      IssuedOnce(s, l, i, l.id.value.sequence - 1);
    }
  }

  lemma GatherOurs(s: Store, init: seq<Line>, l: Line, k: Key, x: Coord)
    requires Identified(s) && l !in init && Ours(s, l) && Issued(s, l)
    ensures Weigh(s.issued, Gathered(s, init + [l], k), x)
         == Weigh(s.issued, Gathered(s, init, k), x) + if l.key == k then View(l.delta, x) else 0
  {
    var before, after, n := Gathered(s, init, k), Gathered(s, init + [l], k), l.id.value.sequence - 1;
    GatherKeys(s, init, l);
    if l.key == k {
      assert after == before + {n};
      WeighMore(s.issued, before, n, x);
    } else {
      assert after == before;
    }
  }

  lemma {:induction false} LineSumGathers(s: Store, lines: seq<Line>, k: Key, x: Coord)
    requires Identified(s) && Unrepeated(s, lines)
    requires forall l | l in lines && Ours(s, l) :: Issued(s, l)
    ensures LineSum(s, lines, k, x) == Weigh(s.issued, Gathered(s, lines, k), x)
    decreases |lines|
  {
    if lines == [] {
      assert Gathered(s, lines, k) == {};
      WeighNone(s.issued, x);
    } else {
      var init, l := lines[..|lines| - 1], lines[|lines| - 1];
      LineSumGathers(s, init, k, x);
      assert init + [l] == lines && l in lines;
      if Ours(s, l) {
        GatherOurs(s, init, l, k, x);
      } else {
        forall i: nat | i < |s.issued| ensures s.issued[i] != l {
          assert s.issued[i].id == Some(LineId(s.instance, i + 1));
        }
        assert Gathered(s, lines, k) == Gathered(s, init, k);
      }
    }
  }

  /** No line of this process appears twice. */
  predicate Unrepeated(s: Store, lines: seq<Line>) {
    forall i, j | 0 <= i < j < |lines| && Ours(s, lines[i]) :: lines[i] != lines[j]
  }

  /** `texts` is what scanning every day file delivers, in any order of files. */
  ghost predicate Covers(disk: map<int, string>, texts: seq<string>) {
    forall t :: t in texts <==> exists day :: day in disk && t in Scanned(disk[day])
  }

  lemma IssuedLineRead(c: Codec, s: Store, texts: seq<string>, since: int, r: Reading, i: nat)
    requires Inv(c, s) && Covers(s.disk, texts) && Faithful(c, texts, since, r)
    requires i < |s.issued| && Parsed(c, texts, s.issued[i]) && since <= s.issued[i].key.hour
    ensures s.issued[i] in r.lines
  {
    var line := s.issued[i];
    assert line.id == Some(LineId(s.instance, i + 1));
    var l :| Parsed(c, texts, l) && l.id == line.id && (l.key.hour < since || l in r.lines);
    var t :| t in texts && ReadLine(c, t) == Some(l);
    assert Shows(c, s.disk, t, l) && Ours(s, l);
    assert Issued(s, l) && l == line;
  }

  lemma AcknowledgedLineRead(c: Codec, s: Store, texts: seq<string>, since: int, i: nat)
    requires Sound(c) && Inv(c, s) && Covers(s.disk, texts) && Collect(c, texts, since).Some?
    requires i < |s.issued| && !IsPending(s, i)
    ensures Parsed(c, texts, s.issued[i])
  {
    var day, t := c.day(s.issued[i].key), c.encode(s.issued[i]);
    assert t in Lines(FileAt(s.disk, day));
    assert day in s.disk && t in Scanned(s.disk[day]) by { assert Lines("") == []; }
    CollectSucceeds(c, texts, since);
    assert t[..|t|] == t && ReadLine(c, t).Some?;
  }

  /** A list that shows every acknowledged line once, and only issued lines, sums to the
      acknowledged total, plus the pending delta if its line is there too. */
  lemma ShownSum(s: Store, lines: seq<Line>, k: Key, x: Coord)
    requires Identified(s) && Balanced(s)
    requires forall i: nat | i < |s.issued| && s.issued[i].key == k && !IsPending(s, i) :: s.issued[i] in lines
    ensures Weigh(s.issued, Gathered(s, lines, k), x) == View(CountsAt(s.flushed, k), x) +
              if k in s.pending && s.pending[k].line in lines then View(s.pending[k].line.delta, x) else 0
  {
    assert Weigh(s.issued, Acknowledged(s, k), x) == View(CountsAt(s.flushed, k), x);
    if k in s.pending {
      PendingShown(s, lines, k, x);
    } else {
      assert Gathered(s, lines, k) == Acknowledged(s, k);
    }
  }

  lemma PendingShown(s: Store, lines: seq<Line>, k: Key, x: Coord)
    requires Identified(s) && k in s.pending
    requires forall i: nat | i < |s.issued| && s.issued[i].key == k && !IsPending(s, i) :: s.issued[i] in lines
    ensures Weigh(s.issued, Gathered(s, lines, k), x) == Weigh(s.issued, Acknowledged(s, k), x) +
              if s.pending[k].line in lines then View(s.pending[k].line.delta, x) else 0
  {
    var acked, read, n := Acknowledged(s, k), Gathered(s, lines, k), s.pending[k].line.id.value.sequence - 1;
    PendingIsUnique(s, k, n);
    if s.pending[k].line in lines {
      assert read == acked + {n};
      WeighMore(s.issued, acked, n, x);
    } else {
      assert read == acked;
    }
  }

  lemma ReadLinesIssued(c: Codec, s: Store, texts: seq<string>, since: int, r: Reading)
    requires Inv(c, s) && Covers(s.disk, texts) && Faithful(c, texts, since, r)
    ensures forall l | l in r.lines && Ours(s, l) :: Issued(s, l)
    ensures Unrepeated(s, r.lines)
  {
    forall l | l in r.lines && Ours(s, l) ensures Issued(s, l) {
      var t :| t in texts && ReadLine(c, t) == Some(l);
      assert Shows(c, s.disk, t, l);
    }
  }

  /** Whenever a reading succeeds, the distinct lines of this process add up to what it has
      acknowledged, plus at most the one line still being retried: nothing lost, nothing twice. */
  lemma ReadingReconstructs(c: Codec, s: Store, texts: seq<string>, since: int, k: Key, x: Coord)
    requires Sound(c) && Inv(c, s) && Covers(s.disk, texts)
    requires Collect(c, texts, since).Some? && since <= k.hour
    ensures var lines := Collect(c, texts, since).value.lines;
      LineSum(s, lines, k, x) == View(CountsAt(s.flushed, k), x) +
        if k in s.pending && s.pending[k].line in lines then View(s.pending[k].line.delta, x) else 0
  {
    CollectFaithful(c, texts, since);
    var r := Collect(c, texts, since).value;
    ReadLinesIssued(c, s, texts, since, r);
    LineSumGathers(s, r.lines, k, x);
    forall i: nat | i < |s.issued| && s.issued[i].key == k && !IsPending(s, i) ensures s.issued[i] in r.lines {
      AcknowledgedLineRead(c, s, texts, since, i);
      IssuedLineRead(c, s, texts, since, r, i);
    }
    ShownSum(s, r.lines, k, x);
  }

  lemma PendingIsUnique(s: Store, k: Key, n: nat)
    requires Identified(s) && k in s.pending && n < |s.issued| && s.issued[n] == s.pending[k].line
    ensures IsPending(s, n)
    ensures forall i: nat | i < |s.issued| && s.issued[i].key == k :: IsPending(s, i) <==> i == n
  {
    forall i: nat | i < |s.issued| && s.issued[i].key == k ensures IsPending(s, i) <==> i == n {
      assert s.issued[i].id == Some(LineId(s.instance, i + 1));
      assert s.issued[n].id == Some(LineId(s.instance, n + 1));
    }
  }

  /** Everything acknowledged: the files reconstruct each bucket, number by number. */
  ghost predicate FullyFlushed(s: Store) {
    s.pending == map[] && forall k | k in s.buckets :: SameCounts(s.buckets[k], CountsAt(s.flushed, k))
  }

  lemma FlushedReadingEqualsBuckets(c: Codec, s: Store, texts: seq<string>, since: int, k: Key, x: Coord)
    requires Sound(c) && Inv(c, s) && Covers(s.disk, texts) && FullyFlushed(s)
    requires Collect(c, texts, since).Some? && since <= k.hour && k in s.buckets
    ensures LineSum(s, Collect(c, texts, since).value.lines, k, x) == View(s.buckets[k], x)
  {
    ReadingReconstructs(c, s, texts, since, k, x);
    assert SameCounts(s.buckets[k], CountsAt(s.flushed, k));
  }

  // ---------- when a reading succeeds ----------

  /** Every terminated line on disk can be parsed. */
  ghost predicate LinesParse(c: Codec, disk: map<int, string>) {
    forall day, t | day in disk && t in Lines(disk[day]) :: c.parse(t).Some?
  }

  /** A file ends in a newline, or in a tail that happens to be a whole record, and none of its
      records is too long for the scanner. */
  predicate Readable(c: Codec, b: string) {
    (Tail(b) == "" || c.parse(Tail(b)).Some?) && forall t | t in Scanned(b) :: |t| < SCAN_LIMIT
  }

  lemma AppendKeepsParsing(c: Codec, before: map<int, string>, line: Line, after: map<int, string>, ok: bool)
    requires Sound(c) && Appended(c, before, line, after, ok) && LinesParse(c, before)
    ensures LinesParse(c, after)
  {
    var whole := c.encode(line);
    assert whole[..|whole|] == whole && c.parse(whole) == Some(line);
    forall day, t | day in after && t in Lines(after[day]) ensures c.parse(t).Some? {
      if day == c.day(line.key) {
        assert t in Lines(FileAt(before, day)) || t == whole;
      }
    }
  }

  lemma {:induction false} RunKeepsParsing(c: Codec, s: Store, run: seq<Step>)
    requires Sound(c) && LegalRun(c, s, run) && LinesParse(c, s.disk)
    ensures LinesParse(c, Final(s, run).disk)
    decreases |run|
  {
    if run != [] {
      StepKeepsParsing(c, s, run[0]);
      RunKeepsParsing(c, Apply(s, run[0]), run[1..]);
    }
  }

  lemma StepKeepsParsing(c: Codec, s: Store, step: Step)
    requires Sound(c) && Legal(c, s, step) && LinesParse(c, s.disk)
    ensures LinesParse(c, Apply(s, step).disk)
  {
    if step.Wrote? {
      AppendKeepsParsing(c, s.disk, s.pending[step.key].line, step.disk, step.ok);
    } else if step.Foreign? {
      AppendKeepsParsing(c, s.disk, step.line, step.disk, step.ok);
    }
  }

  lemma {:induction false} CollectSucceeds(c: Codec, texts: seq<string>, since: int)
    ensures Collect(c, texts, since).Some? <==> forall t | t in texts :: ReadLine(c, t).Some?
    decreases |texts|
  {
    if texts != [] {
      var init, last := texts[..|texts| - 1], texts[|texts| - 1];
      CollectSucceeds(c, init, since);
      assert texts == init + [last];
    }
  }

  lemma ScansIffReadable(c: Codec, b: string)
    requires forall t | t in Lines(b) :: c.parse(t).Some?
    ensures Readable(c, b) <==> forall t | t in Scanned(b) :: ReadLine(c, t).Some?
  {
    if Tail(b) != "" { assert Tail(b) in Scanned(b); }
    forall t | t in Scanned(b) ensures t in Lines(b) || (t == Tail(b) && t != "") { }
  }

  predicate AllReadable(c: Codec, disk: map<int, string>) {
    forall day | day in disk :: Readable(c, disk[day])
  }

  lemma CoveredReads(c: Codec, disk: map<int, string>, texts: seq<string>)
    requires LinesParse(c, disk) && Covers(disk, texts)
    ensures (forall t | t in texts :: ReadLine(c, t).Some?) <==> AllReadable(c, disk)
  {
    forall day | day in disk
      ensures Readable(c, disk[day]) <==> forall t | t in Scanned(disk[day]) :: ReadLine(c, t).Some?
    {
      ScansIffReadable(c, disk[day]);
    }
    if AllReadable(c, disk) {
      forall t | t in texts ensures ReadLine(c, t).Some? {
        var day :| day in disk && t in Scanned(disk[day]);
        assert Readable(c, disk[day]);
      }
    }
  }

  /** Over any run on files whose lines parse, with every append outcome and other processes: a
      reading succeeds exactly when no file ends in a torn record or holds an overlong one. */
  lemma ReadingSucceedsExactlyWhen(c: Codec, s: Store, run: seq<Step>, texts: seq<string>, since: int)
    requires Sound(c) && LegalRun(c, s, run) && LinesParse(c, s.disk) && Covers(Final(s, run).disk, texts)
    ensures Collect(c, texts, since).Some? <==> AllReadable(c, Final(s, run).disk)
  {
    RunKeepsParsing(c, s, run);
    CollectSucceeds(c, texts, since);
    CoveredReads(c, Final(s, run).disk, texts);
  }

  // ---------- a fresh process ----------

  function Fresh(instance: string, disk: map<int, string>): Store {
    Store(instance, map[], map[], map[], [], disk, {})
  }

  lemma FreshInv(c: Codec, instance: string, disk: map<int, string>)
    requires forall text, line | Shows(c, disk, text, line) && line.id.Some? :: line.id.value.instance != instance
    ensures Inv(c, Fresh(instance, disk))
  {
    var s := Fresh(instance, disk);
    forall k, x ensures Weigh(s.issued, Acknowledged(s, k), x) == View(CountsAt(s.flushed, k), x) {
      assert Acknowledged(s, k) == {};
      WeighNone(s.issued, x);
    }
  }
}
