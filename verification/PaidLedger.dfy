/** The rolling paid-budget ledger: one entry per reservation, edited under a file lock.
    Times are nanoseconds with 0 for the zero time, amounts are micro-USD. */
module PaidLedger {
  import opened Sums
  import opened Wrappers

  const HOUR := 3_600_000_000_000
  const WINDOW := 24 * HOUR
  const LIFETIME := HOUR
  const MAX_ENTRIES := 32768
  const MAX_MICRO := 1_000_000_000_000

  type Id = nat

  datatype Entry = Entry(provider: string, at: int, micro: int, pending: bool)

  type Ledger = map<Id, Entry>

  datatype Outcome = Done | InvalidLedger | Exhausted | MissingReservation | CostAboveBound

  // ---------- the encoded file ----------

  const MAX_FILE := 8 * 1024 * 1024

  /** An encoded time at its longest: nine fractional digits and a numeric zone. */
  const STAMP_BYTES := 35

  /** Keys, punctuation and the 32-digit identifier of one entry, with its separator. */
  const FIXED_BYTES := 82

  const EMPTY_FILE := 26

  function Digits(n: int): nat {
    if n < 10 then 1 else 1 + Digits(n / 10)
  }

  function EntryBytes(e: Entry): nat {
    FIXED_BYTES + |e.provider| + STAMP_BYTES + Digits(e.micro) + if e.pending then 4 else 5
  }

  ghost function Sizes(l: Ledger): map<Id, int> {
    map id | id in l :: EntryBytes(l[id])
  }

  /** The separator of the last entry is not written. */
  ghost function FileBytes(l: Ledger): int {
    Sum(Sizes(l)) + if l == map[] then EMPTY_FILE else EMPTY_FILE - 1
  }

  // ---------- entries and edits ----------

  predicate ValidEntry(e: Entry) {
    0 <= e.micro <= MAX_MICRO && e.at != 0 && e.provider != ""
  }

  ghost predicate ValidLedger(l: Ledger) {
    |l| <= MAX_ENTRIES && forall id | id in l :: ValidEntry(l[id])
  }

  /** What the gateway accepts when it reads the file back. */
  ghost predicate Loadable(l: Ledger) {
    ValidLedger(l) && FileBytes(l) <= MAX_FILE
  }

  /** Pending reservations never age out. */
  predicate Kept(e: Entry, now: int) {
    e.pending || e.at > now - WINDOW
  }

  ghost function Prune(l: Ledger, now: int): Ledger {
    map id | id in l && Kept(l[id], now) :: l[id]
  }

  ghost function Amounts(l: Ledger, provider: string): map<Id, int> {
    map id | id in l && l[id].provider == provider :: l[id].micro
  }

  ghost function Spend(l: Ledger, provider: string): int {
    Sum(Amounts(l, provider))
  }

  ghost predicate Admits(l: Ledger, provider: string, limit: int, bound: int) {
    0 < bound && Spend(l, provider) + bound <= limit && |l| < MAX_ENTRIES
  }

  function Recovered(e: Entry, now: int): Entry {
    if e.pending then e.(pending := false, at := now + LIFETIME) else e
  }

  /** The three edit closures, applied to the pruned ledger. A refusal writes nothing back. */
  ghost function ReserveEdit(l: Ledger, id: Id, provider: string, limit: int, bound: int, now: int): (Outcome, Ledger) {
    var kept := Prune(l, now);
    if !Loadable(l) then (InvalidLedger, l)
    else if !Admits(kept, provider, limit, bound) then (Exhausted, l)
    else (Done, kept[id := Entry(provider, now, bound, true)])
  }

  ghost function SettleEdit(l: Ledger, id: Id, cost: int, now: int): (Outcome, Ledger) {
    var kept := Prune(l, now);
    if !Loadable(l) then (InvalidLedger, l)
    else if id !in kept then (MissingReservation, l)
    else if !(0 <= cost <= kept[id].micro) then (CostAboveBound, l)
    else if cost == 0 then (Done, kept - {id})
    else (Done, kept[id := kept[id].(pending := false, micro := cost, at := now)])
  }

  ghost function RecoverEdit(l: Ledger, now: int): (Outcome, Ledger) {
    if !Loadable(l) then (InvalidLedger, l)
    else (Done, RecoverAll(Prune(l, now), now))
  }

  ghost function RecoverAll(l: Ledger, now: int): Ledger {
    map id | id in l :: Recovered(l[id], now)
  }

  // ---------- the file and its marker ----------

  /** The lock file is marked before the ledger is first written; from then on a missing
      ledger has disappeared. */
  datatype Disk = Disk(marker: bool, file: Option<Ledger>)

  /** What an edit starts from; None when it must refuse. */
  ghost function Content(d: Disk): Option<Ledger> {
    match d.file
    case Some(l) => if Loadable(l) then Some(l) else None
    case None => if d.marker then None else Some(map[])
  }

  /** A completed edit: the marker is set before the closure runs, the file replaced after it. */
  ghost function Replaced(d: Disk, edit: (Outcome, Ledger)): (Outcome, Disk) {
    match edit.0
    case InvalidLedger => (InvalidLedger, d)
    case Done => (Done, Disk(true, Some(edit.1)))
    case refusal => (refusal, d.(marker := true))
  }

  ghost function ReserveOn(d: Disk, id: Id, provider: string, limit: int, bound: int, now: int): (Outcome, Disk) {
    match Content(d)
    case None => (InvalidLedger, d)
    case Some(l) => Replaced(d, ReserveEdit(l, id, provider, limit, bound, now))
  }

  ghost function SettleOn(d: Disk, id: Id, cost: int, now: int): (Outcome, Disk) {
    match Content(d)
    case None => (InvalidLedger, d)
    case Some(l) => Replaced(d, SettleEdit(l, id, cost, now))
  }

  ghost function RecoverOn(d: Disk, now: int): (Outcome, Disk) {
    match Content(d)
    case None => (InvalidLedger, d)
    case Some(l) => Replaced(d, RecoverEdit(l, now))
  }

  /** The ledger file. Each method is one critical section of the ledger lock. */
  class LedgerFile {
    var marker: bool
    var file: Option<Ledger>

    ghost function View(): Disk
      reads this
    {
      Disk(marker, file)
    }

    constructor ()
      ensures View() == Disk(false, None)
    {
      marker, file := false, None;
    }

    /** Loads, validates and prunes, then marks the lock file; the ledger is not written yet. */
    method Load(now: int) returns (ok: bool, l: Ledger)
      modifies this`marker
      ensures ok <==> Content(old(View())).Some?
      ensures ok ==> l == Prune(Content(old(View())).value, now)
      ensures marker == (ok || old(marker))
    {
      if file.None? && marker {
        return false, map[];
      }
      var entries := if file.Some? then file.value else map[];
      var size := Size(entries);
      if file.None? {
        EmptyIsLoadable();
      } else if size > MAX_FILE {
        return false, entries;
      }
      ok, l := Validate(entries, now);
      if ok {
        marker := true;
      }
    }

    /** The bytes of the encoded ledger. */
    static method Size(l: Ledger) returns (bytes: int)
      ensures bytes == FileBytes(l)
    {
      bytes := if l == map[] then EMPTY_FILE else EMPTY_FILE - 1;
      ghost var base := bytes;
      var rest := l.Keys;
      ghost var counted: map<Id, int> := map[];
      while rest != {}
        invariant rest <= l.Keys
        invariant counted == map id | id in l.Keys - rest :: EntryBytes(l[id])
        invariant bytes == base + Sum(counted)
      {
        var id :| id in rest;
        SumUpdate(counted, id, EntryBytes(l[id]));
        counted := counted[id := EntryBytes(l[id])];
        bytes := bytes + EntryBytes(l[id]);
        rest := rest - {id};
      }
      assert counted == Sizes(l);
    }

    static method Validate(entries: Ledger, now: int) returns (ok: bool, l: Ledger)
      ensures ok <==> ValidLedger(entries)
      ensures ok ==> l == Prune(entries, now)
    {
      l := entries;
      if |entries| > MAX_ENTRIES {
        return false, l;
      }
      var rest := entries.Keys;
      while rest != {}
        invariant rest <= entries.Keys
        invariant forall id | id in entries.Keys - rest :: ValidEntry(entries[id])
        invariant l == map id | id in entries && (id in rest || Kept(entries[id], now)) :: entries[id]
      {
        var id :| id in rest;
        if !ValidEntry(entries[id]) {
          return false, l;
        }
        if !Kept(entries[id], now) {
          l := l - {id};
        }
        rest := rest - {id};
      }
      ok := true;
    }

    /** Adds up one provider's entries, pending or not, in whatever order they come. */
    static method Total(l: Ledger, provider: string) returns (total: int)
      ensures total == Spend(l, provider)
    {
      total := 0;
      var rest := l.Keys;
      ghost var counted: map<Id, int> := map[];
      while rest != {}
        invariant rest <= l.Keys
        invariant counted == map id | id in l.Keys - rest && l[id].provider == provider :: l[id].micro
        invariant total == Sum(counted)
      {
        var id :| id in rest;
        if l[id].provider == provider {
          SumUpdate(counted, id, l[id].micro);
          counted := counted[id := l[id].micro];
          total := total + l[id].micro;
        }
        rest := rest - {id};
      }
      assert counted == Amounts(l, provider);
    }

    method Reserve(id: Id, provider: string, limit: int, bound: int, now: int) returns (outcome: Outcome)
      modifies this
      ensures (outcome, View()) == ReserveOn(old(View()), id, provider, limit, bound, now)
    {
      var ok, l := Load(now);
      if !ok {
        return InvalidLedger;
      }
      var total := Total(l, provider);
      if bound <= 0 || total + bound > limit || |l| >= MAX_ENTRIES {
        return Exhausted;
      }
      file := Some(l[id := Entry(provider, now, bound, true)]);
      outcome := Done;
    }

    method Settle(id: Id, cost: int, now: int) returns (outcome: Outcome)
      modifies this
      ensures (outcome, View()) == SettleOn(old(View()), id, cost, now)
    {
      var ok, l := Load(now);
      if !ok {
        return InvalidLedger;
      }
      if id !in l {
        return MissingReservation;
      }
      if cost < 0 || cost > l[id].micro {
        return CostAboveBound;
      }
      if cost == 0 {
        file := Some(l - {id});
      } else {
        file := Some(l[id := l[id].(pending := false, micro := cost, at := now)]);
      }
      outcome := Done;
    }

    /** After a restart every open reservation is charged in full, one lifetime ahead. */
    method Recover(now: int) returns (outcome: Outcome)
      modifies this
      ensures (outcome, View()) == RecoverOn(old(View()), now)
    {
      var ok, l := Load(now);
      if !ok {
        return InvalidLedger;
      }
      ghost var kept := l;
      var rest := l.Keys;
      while rest != {}
        invariant rest <= kept.Keys == l.Keys
        invariant forall id | id in l :: l[id] == if id in rest then kept[id] else Recovered(kept[id], now)
      {
        var id :| id in rest;
        if l[id].pending {
          l := l[id := l[id].(pending := false, at := now + LIFETIME)];
        }
        rest := rest - {id};
      }
      assert l == RecoverEdit(Content(old(View())).value, now).1;
      file := Some(l);
      outcome := Done;
    }
  }

  lemma PruneKeepsValid(l: Ledger, now: int)
    requires ValidLedger(l)
    ensures ValidLedger(Prune(l, now)) && |Prune(l, now)| <= |l|
  {
    SubsetSize(Prune(l, now).Keys, l.Keys);
  }

  lemma {:induction false} SubsetSize<T>(a: set<T>, b: set<T>)
    requires a <= b
    ensures |a| <= |b|
  {
    if a != {} {
      var x :| x in a;
      SubsetSize(a - {x}, b - {x});
    }
  }

  lemma EmptyIsLoadable()
    ensures Loadable(map[])
  {
    assert Sizes(map[]) == map[];
  }

  lemma ReserveKeepsValid(l: Ledger, id: Id, provider: string, limit: int, bound: int, now: int)
    requires ValidLedger(l) && provider != "" && bound <= MAX_MICRO && now != 0
    ensures Loadable(l) ==> ReserveEdit(l, id, provider, limit, bound, now).0 in {Done, Exhausted}
    ensures ValidLedger(ReserveEdit(l, id, provider, limit, bound, now).1)
  {
    PruneKeepsValid(l, now);
  }

  lemma SettleKeepsValid(l: Ledger, id: Id, cost: int, now: int)
    requires ValidLedger(l) && now != 0
    ensures Loadable(l) ==> SettleEdit(l, id, cost, now).0 in {Done, MissingReservation, CostAboveBound}
    ensures ValidLedger(SettleEdit(l, id, cost, now).1)
  {
    PruneKeepsValid(l, now);
    var kept := Prune(l, now);
    if id in kept && 0 <= cost <= kept[id].micro {
      if cost == 0 {
        SubsetSize((kept - {id}).Keys, kept.Keys);
      } else {
        SubsetSize(kept[id := kept[id].(pending := false, micro := cost, at := now)].Keys, kept.Keys);
      }
    }
  }

  lemma RecoverKeepsValid(l: Ledger, now: int)
    requires ValidLedger(l) && now + LIFETIME != 0
    ensures Loadable(l) ==> RecoverEdit(l, now).0 == Done
    ensures ValidLedger(RecoverEdit(l, now).1)
  {
    PruneKeepsValid(l, now);
    if Loadable(l) { SubsetSize(RecoverEdit(l, now).1.Keys, Prune(l, now).Keys); }
  }

  /** What a file must be for the gateway to read it back. */
  lemma LoadsExactly(d: Disk)
    ensures Content(d).Some? <==>
      match d.file
      case None => !d.marker
      case Some(l) =>
        && FileBytes(l) <= 8_388_608 && |l| <= 32_768
        && forall id | id in l :: l[id].provider != "" && l[id].at != 0 && 0 <= l[id].micro <= 1_000_000_000_000
    ensures Content(d).Some? ==> Content(d).value == if d.file.Some? then d.file.value else map[]
  {
  }

  // ---------- what an edit leaves ----------

  /** The entry is there and counts: it is pending, or its stamp is less than a day old. */
  predicate Counts(l: Ledger, id: Id, now: int) {
    id in l && (l[id].pending || now - l[id].at < 24 * HOUR)
  }

  /** Apart from one entry, exactly those that count are left, and they are as they were. */
  ghost predicate OthersKept(l: Ledger, l': Ledger, id: Id, now: int) {
    && (forall k: Id | k != id :: k in l' <==> Counts(l, k, now))
    && (forall k: Id | k != id && k in l' :: l'[k] == l[k])
  }

  /** A reservation is one new pending entry at its bound, made exactly when the entries that
      count leave room for it, in money and in number. */
  lemma ReservationMeans(l: Ledger, id: Id, provider: string, limit: int, bound: int, now: int)
    ensures var (o, l') := ReserveEdit(l, id, provider, limit, bound, now);
      && (o != Done ==> l' == l)
      && (o == Done <==> Loadable(l) && bound > 0 && Room(l, provider, limit, bound, now))
      && (o == Done ==> id in l' && l'[id] == Entry(provider, now, bound, true) && OthersKept(l, l', id, now))
  {
    var counted := map k | k in l && Counts(l, k, now) && l[k].provider == provider :: l[k].micro;
    assert Amounts(Prune(l, now), provider) == counted;
    assert Prune(l, now).Keys == set k | k in l && Counts(l, k, now);
  }

  ghost predicate Room(l: Ledger, provider: string, limit: int, bound: int, now: int) {
    && Sum(map k | k in l && Counts(l, k, now) && l[k].provider == provider :: l[k].micro) + bound <= limit
    && |set k | k in l && Counts(l, k, now)| < 32768
  }

  /** A settlement removes the entry when nothing was spent; otherwise the entry is no longer
      pending, holds the cost and bears the time given. */
  lemma SettlementMeans(l: Ledger, id: Id, cost: int, now: int)
    ensures var (o, l') := SettleEdit(l, id, cost, now);
      && (o != Done ==> l' == l)
      && (o == Done <==> Loadable(l) && Counts(l, id, now) && 0 <= cost <= l[id].micro)
      && (o == MissingReservation <==> Loadable(l) && !Counts(l, id, now))
      && (o == Done ==> (id in l' <==> cost > 0) && OthersKept(l, l', id, now))
      && (o == Done && cost > 0 ==> l'[id] == Entry(l[id].provider, now, cost, false))
  {
  }

  /** Settling again: after a settlement at zero there is nothing left to settle, and after a
      charge it can only be lowered, for a day. */
  lemma SettledTwice(l: Ledger, id: Id, cost: int, now: int, again: int, later: int)
    requires SettleEdit(l, id, cost, now).0 == Done
    ensures var l' := SettleEdit(l, id, cost, now).1;
      if cost == 0 then Loadable(l') && SettleEdit(l', id, again, later).0 == MissingReservation
      else SettleEdit(l', id, again, later).0 == Done <==>
        Loadable(l') && 0 <= again <= cost && later - now < 24 * HOUR
  {
    PruneKeepsValid(l, now);
    SettleKeepsLoadable(l, id, now);
  }

  lemma SettleKeepsLoadable(l: Ledger, id: Id, now: int)
    requires Loadable(l)
    ensures Loadable(Prune(l, now) - {id})
  {
    FewerBytes(Prune(l, now) - {id}, l);
    SubsetSize((Prune(l, now) - {id}).Keys, l.Keys);
  }

  /** After a restart nothing is pending: what was is charged in full, an hour ahead. */
  lemma RecoveryMeans(l: Ledger, now: int)
    ensures var (o, l') := RecoverEdit(l, now);
      && (o == Done <==> Loadable(l))
      && (o != Done ==> l' == l)
      && (o == Done ==>
          (forall k: Id :: k in l' <==> Counts(l, k, now)) &&
          (forall k: Id | k in l' :: l'[k] ==
            if l[k].pending then Entry(l[k].provider, now + 3_600_000_000_000, l[k].micro, false) else l[k]))
  {
  }

  // ---------- how an edit changes the file's size ----------

  lemma PutBytes(l: Ledger, id: Id, e: Entry)
    ensures FileBytes(l[id := e]) == EMPTY_FILE - 1 + Sum(Sizes(l - {id})) + EntryBytes(e)
  {
    SumUpdate(Sizes(l), id, EntryBytes(e));
    assert Sizes(l[id := e]) == Sizes(l)[id := EntryBytes(e)];
    assert Sizes(l - {id}) == Sizes(l) - {id};
  }

  /** There is room in the file for an entry beside the others. */
  ghost predicate PutFits(l: Ledger, id: Id, e: Entry) {
    EMPTY_FILE - 1 + Sum(Sizes(l - {id})) + EntryBytes(e) <= MAX_FILE
  }

  lemma FewerBytes(small: Ledger, large: Ledger)
    requires forall id | id in small :: id in large && small[id] == large[id]
    ensures FileBytes(small) <= FileBytes(large)
  {
    SumDominated(Sizes(small), Sizes(large));
    if small == map[] && large != map[] {
      var id :| id in large;
      SumSplit(Sizes(large), id);
      SumNonnegative(Sizes(large) - {id});
      assert Sizes(small) == map[];
    }
  }

  ghost function Pendings(l: Ledger): set<Id> {
    set id | id in l && l[id].pending
  }

  /** Recovery rewrites true as false in every pending entry. */
  lemma {:induction false} RecoverBytes(l: Ledger, now: int)
    ensures Sum(Sizes(RecoverAll(l, now))) == Sum(Sizes(l)) + |Pendings(l)|
    decreases |l|
  {
    if l == map[] {
      assert Sizes(RecoverAll(l, now)) == Sizes(l) && Pendings(l) == {};
    } else {
      var id :| id in l;
      RecoverBytes(l - {id}, now);
      RecoverOne(l, id, now);
    }
  }

  lemma RecoverOne(l: Ledger, id: Id, now: int)
    requires id in l
    requires Sum(Sizes(RecoverAll(l - {id}, now))) == Sum(Sizes(l - {id})) + |Pendings(l - {id})|
    ensures Sum(Sizes(RecoverAll(l, now))) == Sum(Sizes(l)) + |Pendings(l)|
  {
    SplitBytes(l, id);
    SplitBytes(RecoverAll(l, now), id);
    assert RecoverAll(l, now) - {id} == RecoverAll(l - {id}, now);
    PendingsLess(l, id);
  }

  lemma SplitBytes(l: Ledger, id: Id)
    requires id in l
    ensures Sum(Sizes(l)) == EntryBytes(l[id]) + Sum(Sizes(l - {id}))
  {
    SumSplit(Sizes(l), id);
    assert Sizes(l) - {id} == Sizes(l - {id});
  }

  lemma PendingsLess(l: Ledger, id: Id)
    requires id in l
    ensures |Pendings(l)| == |Pendings(l - {id})| + if l[id].pending then 1 else 0
  {
    assert Pendings(l) == Pendings(l - {id}) + if l[id].pending then {id} else {};
  }

  /** When an edit leaves a ledger that the next one can load. All the entries stay valid, so it
      is a matter of size alone: what the reservation adds, one byte more for a settlement at
      the same number of digits, one byte more for each reservation that recovery charges. */
  lemma EditsStayLoadable(l: Ledger, id: Id, provider: string, limit: int, bound: int, cost: int, now: int)
    requires Loadable(l)
    requires provider != "" && bound <= MAX_MICRO && now != 0 && now + LIFETIME != 0
    ensures var (o, l') := ReserveEdit(l, id, provider, limit, bound, now);
      o in {Done, Exhausted} &&
      (Loadable(l') <==> (o == Exhausted || PutFits(Prune(l, now), id, Entry(provider, now, bound, true))))
    ensures var (o, l') := SettleEdit(l, id, cost, now);
      o in {Done, MissingReservation, CostAboveBound} &&
      (Loadable(l') <==>
        (o != Done || cost == 0 || PutFits(Prune(l, now), id, Entry(l[id].provider, now, cost, false))))
    ensures var (o, l') := RecoverEdit(l, now);
      o == Done && (Loadable(l') <==> FileBytes(Prune(l, now)) + |Pendings(Prune(l, now))| <= MAX_FILE)
  {
    var kept := Prune(l, now);
    ReserveKeepsValid(l, id, provider, limit, bound, now);
    SettleKeepsValid(l, id, cost, now);
    RecoverKeepsValid(l, now);
    PutBytes(kept, id, Entry(provider, now, bound, true));
    if id in kept {
      PutBytes(kept, id, kept[id].(pending := false, micro := cost, at := now));
    }
    FewerBytes(kept - {id}, l);
    RecoverBytes(kept, now);
    assert RecoverAll(kept, now) == map[] <==> kept == map[];
  }

  // ---------- which provider names are safe ----------

  /** With names up to this long, even the largest ledger can be read back. */
  const SAFE_NAME := 120

  lemma {:induction false} FewDigits(n: int, k: nat, bound: int)
    requires k > 0 && bound == Power10(k) && n < bound
    ensures Digits(n) <= k
  {
    if k > 1 && n >= 10 {
      FewDigits(n / 10, k - 1, Power10(k - 1));
    }
  }

  function Power10(k: nat): (r: int)
    ensures r >= 1
  {
    if k == 0 then 1 else 10 * Power10(k - 1)
  }

  lemma AmountDigits(n: int)
    requires n <= MAX_MICRO
    ensures Digits(n) <= 13
  {
    assert Power10(4) == 10_000;
    assert Power10(8) == 100_000_000;
    assert Power10(12) == 1_000_000_000_000;
    FewDigits(n, 13, Power10(13));
  }

  lemma {:induction false} BoundedSizes(m: map<Id, int>, each: nat)
    requires forall k | k in m :: 0 <= m[k] <= each
    ensures Sum(m) <= |m.Keys| * each
    decreases |m|
  {
    if m != map[] {
      var k :| k in m && Sum(m) == m[k] + Sum(m - {k});
      BoundedSizes(m - {k}, each);
      assert (m - {k}).Keys == m.Keys - {k};
      EachBytes(|m.Keys|, each);
    }
  }

  lemma ShortNamesAlwaysLoad(l: Ledger)
    requires ValidLedger(l) && forall id | id in l :: |l[id].provider| <= SAFE_NAME
    ensures Loadable(l)
  {
    forall id | id in l ensures EntryBytes(l[id]) <= 255 {
      AmountDigits(l[id].micro);
    }
    BoundedSizes(Sizes(l), 255);
    assert Sizes(l).Keys == l.Keys;
    assert |l| == |l.Keys|;
  }

  function Name(n: nat): string {
    seq(n, i => 'p')
  }

  /** A ledger of n equal entries. */
  function Uniform(n: nat, e: Entry): (l: Ledger)
    ensures forall id: Id :: id in l <==> id < n
    ensures forall id | id in l :: l[id] == e
  {
    if n == 0 then map[] else Uniform(n - 1, e)[n - 1 := e]
  }

  lemma {:induction false} UniformBytes(n: nat, e: Entry)
    ensures Sum(Sizes(Uniform(n, e))) == n * EntryBytes(e) && |Uniform(n, e)| == n
    decreases n
  {
    var l := Uniform(n, e);
    if n == 0 {
      assert Sizes(l) == map[] && l == map[];
    } else {
      UniformBytes(n - 1, e);
      SplitBytes(l, n - 1);
      assert l - {n - 1} == Uniform(n - 1, e);
      assert l.Keys == Uniform(n - 1, e).Keys + {n - 1};
      EachBytes(n, EntryBytes(e));
    }
  }

  lemma EachBytes(n: nat, each: int)
    requires n > 0
    ensures n * each == each + (n - 1) * each
  {
  }

  lemma {:induction false} UniformAmounts(n: nat, e: Entry)
    ensures Spend(Uniform(n, e), e.provider) == n * e.micro
    decreases n
  {
    if n == 0 {
      assert Amounts(Uniform(n, e), e.provider) == map[];
    } else {
      UniformAmounts(n - 1, e);
      AmountsSplit(Uniform(n, e), n - 1);
      assert Uniform(n, e) - {n - 1} == Uniform(n - 1, e);
      EachBytes(n, e.micro);
    }
  }

  lemma AmountsSplit(l: Ledger, id: Id)
    requires id in l
    ensures Spend(l, l[id].provider) == l[id].micro + Spend(l - {id}, l[id].provider)
  {
    SumSplit(Amounts(l, l[id].provider), id);
    assert Amounts(l, l[id].provider) - {id} == Amounts(l - {id}, l[id].provider);
  }

  /** Exactly the names of at most 120 bytes are safe in every valid ledger. */
  lemma SafeNamesExactly(n: nat)
    requires n > 0
    ensures (forall l: Ledger :: ValidLedger(l) && (forall id | id in l :: |l[id].provider| <= n) ==> Loadable(l)) <==>
        n <= SAFE_NAME
  {
    if n <= SAFE_NAME {
      forall l: Ledger | ValidLedger(l) && (forall id | id in l :: |l[id].provider| <= n) ensures Loadable(l) {
        ShortNamesAlwaysLoad(l);
      }
    } else {
      var e := Entry(Name(SAFE_NAME + 1), 1, MAX_MICRO, false);
      LargestAmountDigits();
      UniformBytes(MAX_ENTRIES, e);
      assert !Loadable(Uniform(MAX_ENTRIES, e));
      assert ValidLedger(Uniform(MAX_ENTRIES, e));
    }
  }

  lemma LargestAmountDigits()
    ensures Digits(MAX_MICRO) == 13
  {
    assert Digits(100_000_000) == 9;
    assert Digits(1_000_000_000) == 10;
  }

  /** A full file of equal pending reservations, with no room for another. */
  ghost predicate Crowded(n: nat, e: Entry) {
    && ValidEntry(e) && e.pending && n < MAX_ENTRIES
    && EMPTY_FILE - 1 + n * EntryBytes(e) <= MAX_FILE < EMPTY_FILE - 1 + (n + 1) * EntryBytes(e)
  }

  /** A provider with a name of 200 bytes and 26051 reservations of one micro-dollar. */
  lemma CrowdedExists()
    ensures exists n: nat, e: Entry :: Crowded(n, e) && 0 < n * e.micro < MAX_MICRO
  {
    var e := Entry(Name(200), 1, 1, true);
    assert EntryBytes(e) == 322;
    assert Crowded(26051, e) && 26051 * e.micro < MAX_MICRO;
  }

  /** One more reservation is accepted and written, and from then on no edit is possible:
      nothing can be reserved, settled or recovered. */
  lemma ReserveLocksOut(n: nat, e: Entry, limit: int)
    requires Crowded(n, e) && n * e.micro + e.micro <= limit && e.micro > 0
    ensures var l := Uniform(n, e);
      var (o, l') := ReserveEdit(l, n, e.provider, limit, e.micro, e.at);
      && Loadable(l) && o == Done && !Loadable(l')
      && LockedOut(Disk(true, Some(l')))
  {
    var l := Uniform(n, e);
    UniformBytes(n, e);
    UniformAmounts(n, e);
    if n > 0 { assert 0 in l; } else { EmptyIsLoadable(); }
    assert Prune(l, e.at) == l;
    assert l - {n} == l;
    PutBytes(l, n, e);
    EachBytes(n + 1, EntryBytes(e));
  }

  ghost predicate LockedOut(d: Disk) {
    && (forall id, provider, limit, bound, now :: ReserveOn(d, id, provider, limit, bound, now) == (InvalidLedger, d))
    && (forall id, cost, now :: SettleOn(d, id, cost, now) == (InvalidLedger, d))
    && (forall now :: RecoverOn(d, now) == (InvalidLedger, d))
  }

  lemma RefusingForGood(d: Disk)
    ensures LockedOut(d) <==> Content(d).None?
  {
    if Content(d).Some? {
      assert RecoverOn(d, 0).0 == Done;
    }
  }

  // ---------- crashes ----------

  /** Where a process can stop inside an edit. */
  datatype Point = BeforeMarker | BeforeReplacement | AfterReplacement

  ghost function Interrupted(d: Disk, edit: (Outcome, Ledger), at: Point): Disk {
    match at
    case BeforeMarker => d
    case BeforeReplacement => d.(marker := true)
    case AfterReplacement => Replaced(d, edit).1
  }

  /** An edit that a crash interrupts, or that is refused by its closure, breaks the ledger for
      good exactly when it stops between the marker and the first replacement of all. */
  lemma BrokenBetweenMarkerAndFirstFile(d: Disk, edit: (Outcome, Ledger), at: Point)
    requires Content(d).Some? && edit.0 != InvalidLedger && (edit.0 == Done ==> Loadable(edit.1))
    ensures LockedOut(Interrupted(d, edit, at)) <==>
      d.file.None? && (at == BeforeReplacement || (at == AfterReplacement && edit.0 != Done))
  {
    RefusingForGood(Interrupted(d, edit, at));
  }
  /** The running total of a ledger that loads stays far inside a signed 64-bit integer. */
  lemma TotalFits(l: Ledger, provider: string, bound: int)
    requires ValidLedger(l) && bound <= MAX_MICRO
    ensures 0 <= Spend(l, provider)
    ensures Spend(l, provider) + bound < 0x8000_0000_0000_0000
  {
    BoundedSum(Amounts(l, provider));
    SubsetSize(Amounts(l, provider).Keys, l.Keys);
  }

  lemma {:induction false} BoundedSum(m: map<Id, int>)
    requires forall k | k in m :: 0 <= m[k] <= MAX_MICRO
    ensures 0 <= Sum(m) <= |m.Keys| * MAX_MICRO
    decreases |m|
  {
    if m != map[] {
      var k :| k in m && Sum(m) == m[k] + Sum(m - {k});
      BoundedSum(m - {k});
      assert (m - {k}).Keys == m.Keys - {k};
    }
  }
}
