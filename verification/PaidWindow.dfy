/** What the ledger guarantees about real charges over whole runs: concurrent
    reservations, settlements stamped ahead of the clock, crashes and restarts. */
module PaidWindow {
  import opened Sums
  import opened PaidLedger

  datatype Charge = Charge(provider: string, at: int, micro: int)

  /** The ledger together with the true clock and every charge a provider really made. */
  datatype World = World(clock: int, ledger: Ledger, charges: map<Id, Charge>)

  /** A critical section of the ledger lock, a real charge, or time passing. `now` is the
      instant a caller read before it got the lock, so it may be stale; a settlement whose
      outcome is unknown passes an instant one lifetime ahead. A crash is the absence of
      further steps for a request, a restart is a Recover step. */
  datatype Step =
    | Tick(to: int)
    | Reserve(id: Id, provider: string, bound: int, now: int)
    | Spent(id: Id, micro: int)
    | Settle(id: Id, cost: int, now: int)
    | Recover(now: int)

  type Limits = string -> int

  /** What the environment owes: clocks do not run backwards, a charge falls between its
      reservation and its stamp and within its entry, a settlement covers the charge. */
  ghost predicate Legal(w: World, s: Step) {
    match s
    case Tick(to) => w.clock <= to
    case Reserve(id, provider, bound, now) =>
      0 < now <= w.clock && id !in w.ledger && id !in w.charges && bound <= MAX_MICRO && provider != ""
    case Spent(id, micro) =>
      && id in w.ledger && id !in w.charges
      && 0 <= micro <= w.ledger[id].micro
      && (w.ledger[id].pending || w.clock <= w.ledger[id].at)
    case Settle(id, cost, now) =>
      0 < now <= w.clock + LIFETIME &&
      (id in w.charges ==> w.charges[id].at <= now && w.charges[id].micro <= cost)
    case Recover(now) =>
      && 0 < now <= w.clock
      && forall id | id in w.charges && id in w.ledger && w.ledger[id].pending ::
           w.charges[id].at <= now + LIFETIME
  }

  ghost function Apply(w: World, s: Step, limits: Limits): World {
    match s
    case Tick(to) => w.(clock := to)
    case Reserve(id, provider, bound, now) =>
      w.(ledger := ReserveEdit(w.ledger, id, provider, limits(provider), bound, now).1)
    case Spent(id, micro) =>
      if id in w.ledger then w.(charges := w.charges[id := Charge(w.ledger[id].provider, w.clock, micro)]) else w
    case Settle(id, cost, now) => w.(ledger := SettleEdit(w.ledger, id, cost, now).1)
    case Recover(now) => w.(ledger := RecoverEdit(w.ledger, now).1)
  }

  ghost predicate LegalRun(w: World, run: seq<Step>, limits: Limits)
    decreases |run|
  {
    run != [] ==> Legal(w, run[0]) && LegalRun(Apply(w, run[0], limits), run[1..], limits)
  }

  ghost function Final(w: World, run: seq<Step>, limits: Limits): World
    decreases |run|
  {
    if run == [] then w else Final(Apply(w, run[0], limits), run[1..], limits)
  }

  ghost function Charged(w: World, provider: string, from: int, to: int): map<Id, int> {
    map id | id in w.charges && w.charges[id].provider == provider && from < w.charges[id].at <= to ::
        w.charges[id].micro
  }

  /** Real charges of one provider in the window (t - width, t]. */
  ghost function WindowSpend(w: World, provider: string, t: int, width: int): int {
    Sum(Charged(w, provider, t - width, t))
  }

  ghost predicate WithinLimits(w: World, limits: Limits, width: int) {
    forall provider, t :: WindowSpend(w, provider, t, width) <= limits(provider)
  }

  /** The step's prune forgets no amount that was still within `width` of the true clock. */
  ghost predicate KeepsWindow(w: World, s: Step, width: int) {
    s.Tick? || s.Spent? ||
    forall id | id in w.ledger && !Kept(w.ledger[id], s.now) && w.ledger[id].micro > 0 ::
        w.ledger[id].at <= w.clock - width
  }

  ghost predicate RunKeepsWindow(w: World, run: seq<Step>, limits: Limits, width: int)
    decreases |run|
  {
    run != [] ==> KeepsWindow(w, run[0], width) && RunKeepsWindow(Apply(w, run[0], limits), run[1..], limits, width)
  }

  // ---------- the invariant ----------

  /** A charge and the ledger agree: the entry still covers it, or it has left the window. */
  ghost predicate Covered(w: World, id: Id, width: int)
    requires id in w.charges
  {
    var c := w.charges[id];
    && 0 <= c.micro && c.at <= w.clock
    && if id in w.ledger then
         var e := w.ledger[id];
         c.provider == e.provider && c.micro <= e.micro && (e.pending || c.at <= e.at)
       else
         c.micro == 0 || c.at <= w.clock - width
  }

  ghost predicate Inv(w: World, limits: Limits, width: int) {
    && ValidLedger(w.ledger)
    && (forall provider :: Spend(w.ledger, provider) <= limits(provider))
    && (forall id | id in w.charges :: Covered(w, id, width))
    && WithinLimits(w, limits, width)
  }

  /** Every charge inside the window ending now or later is covered by a ledger entry. */
  lemma LedgerCoversWindow(w: World, provider: string, t: int, width: int)
    requires ValidLedger(w.ledger)
    requires forall id | id in w.charges :: Covered(w, id, width)
    requires w.clock <= t
    ensures WindowSpend(w, provider, t, width) <= Spend(w.ledger, provider)
  {
    var window := Charged(w, provider, t - width, t);
    var amounts := Amounts(w.ledger, provider);
    forall id | id in window ensures window[id] <= At(amounts, id) {
      assert Covered(w, id, width);
    }
    SumDominated(window, amounts);
  }

  lemma PruneSpendsLess(l: Ledger, provider: string, now: int)
    requires ValidLedger(l)
    ensures Spend(Prune(l, now), provider) <= Spend(l, provider)
  {
    SumDominated(Amounts(Prune(l, now), provider), Amounts(l, provider));
  }

  lemma TickKeepsInv(w: World, to: int, limits: Limits, width: nat)
    requires Inv(w, limits, width) && w.clock <= to
    ensures Inv(w.(clock := to), limits, width)
  {
    var w' := w.(clock := to);
    forall id | id in w'.charges ensures Covered(w', id, width) {
      assert Covered(w, id, width);
    }
    forall provider, t ensures WindowSpend(w', provider, t, width) <= limits(provider) {
      assert Charged(w', provider, t - width, t) == Charged(w, provider, t - width, t);
      assert WindowSpend(w, provider, t, width) <= limits(provider);
    }
  }

  lemma SpentKeepsInv(w: World, id: Id, micro: int, limits: Limits, width: nat)
    requires Inv(w, limits, width) && Legal(w, Spent(id, micro))
    ensures Inv(Apply(w, Spent(id, micro), limits), limits, width)
  {
    var w' := Apply(w, Spent(id, micro), limits);
    forall j | j in w'.charges ensures Covered(w', j, width) {
      assert j != id ==> Covered(w, j, width);
    }
    forall provider, t ensures WindowSpend(w', provider, t, width) <= limits(provider) {
      if w.clock <= t {
        LedgerCoversWindow(w', provider, t, width);
      } else {
        assert Charged(w', provider, t - width, t) == Charged(w, provider, t - width, t);
        assert WindowSpend(w, provider, t, width) <= limits(provider);
      }
    }
  }

  /** An edit that changes only the ledger keeps the invariant once it keeps the spend
      below the limits and every charge covered. */
  lemma EditKeepsInv(w: World, l: Ledger, limits: Limits, width: nat)
    requires Inv(w, limits, width) && ValidLedger(l)
    requires forall provider :: Spend(l, provider) <= limits(provider)
    requires forall id | id in w.charges :: Covered(w.(ledger := l), id, width)
    ensures Inv(w.(ledger := l), limits, width)
  {
    var w' := w.(ledger := l);
    forall provider, t ensures WindowSpend(w', provider, t, width) <= limits(provider) {
      assert Charged(w', provider, t - width, t) == Charged(w, provider, t - width, t);
      assert WindowSpend(w, provider, t, width) <= limits(provider);
    }
  }

  lemma AddedSpend(l: Ledger, id: Id, e: Entry, provider: string)
    requires id !in l
    ensures Spend(l[id := e], provider) == Spend(l, provider) + if provider == e.provider then e.micro else 0
  {
    var before, after := Amounts(l, provider), Amounts(l[id := e], provider);
    if provider == e.provider {
      SumUpdate(before, id, e.micro);
      assert after == before[id := e.micro];
    } else {
      assert after == before;
    }
  }

  lemma ReserveKeepsSpend(l: Ledger, id: Id, reserver: string, limit: int, bound: int, now: int, provider: string,
                          cap: int)
    requires ValidLedger(l) && id !in l
    requires Spend(l, provider) <= cap && (provider == reserver ==> cap == limit)
    ensures Spend(ReserveEdit(l, id, reserver, limit, bound, now).1, provider) <= cap
  {
    var kept := Prune(l, now);
    PruneSpendsLess(l, provider, now);
    AddedSpend(kept, id, Entry(reserver, now, bound, true), provider);
  }

  lemma ReserveKeepsInv(w: World, s: Step, limits: Limits, width: nat)
    requires s.Reserve? && Inv(w, limits, width) && Legal(w, s) && KeepsWindow(w, s, width)
    ensures Inv(Apply(w, s, limits), limits, width)
  {
    var l := Apply(w, s, limits).ledger;
    ReserveKeepsValid(w.ledger, s.id, s.provider, limits(s.provider), s.bound, s.now);
    forall provider ensures Spend(l, provider) <= limits(provider) {
      ReserveKeepsSpend(w.ledger, s.id, s.provider, limits(s.provider), s.bound, s.now, provider, limits(provider));
    }
    forall id | id in w.charges ensures Covered(w.(ledger := l), id, width) {
      assert Covered(w, id, width);
    }
    EditKeepsInv(w, l, limits, width);
  }

  lemma SettleKeepsInv(w: World, s: Step, limits: Limits, width: nat)
    requires s.Settle? && Inv(w, limits, width) && Legal(w, s) && KeepsWindow(w, s, width)
    ensures Inv(Apply(w, s, limits), limits, width)
  {
    var l := Apply(w, s, limits).ledger;
    SettleKeepsValid(w.ledger, s.id, s.cost, s.now);
    if SettleEdit(w.ledger, s.id, s.cost, s.now).0 == Done {
      forall provider ensures Spend(l, provider) <= limits(provider) {
        SumDominated(Amounts(l, provider), Amounts(w.ledger, provider));
        assert Spend(w.ledger, provider) <= limits(provider);
      }
      forall id | id in w.charges ensures Covered(w.(ledger := l), id, width) {
        assert Covered(w, id, width);
      }
      EditKeepsInv(w, l, limits, width);
    }
  }

  lemma RecoverKeepsInv(w: World, s: Step, limits: Limits, width: nat)
    requires s.Recover? && Inv(w, limits, width) && Legal(w, s) && KeepsWindow(w, s, width)
    ensures Inv(Apply(w, s, limits), limits, width)
  {
    var l := Apply(w, s, limits).ledger;
    RecoverKeepsValid(w.ledger, s.now);
    forall provider ensures Spend(l, provider) <= limits(provider) {
      SumDominated(Amounts(l, provider), Amounts(w.ledger, provider));
      assert Spend(w.ledger, provider) <= limits(provider);
    }
    forall id | id in w.charges ensures Covered(w.(ledger := l), id, width) {
      assert Covered(w, id, width);
    }
    EditKeepsInv(w, l, limits, width);
  }

  lemma StepKeepsInv(w: World, s: Step, limits: Limits, width: nat)
    requires Inv(w, limits, width) && Legal(w, s) && KeepsWindow(w, s, width)
    ensures Inv(Apply(w, s, limits), limits, width)
  {
    match s
    case Tick(to) => TickKeepsInv(w, to, limits, width);
    case Reserve(_, _, _, _) => ReserveKeepsInv(w, s, limits, width);
    case Spent(id, micro) => SpentKeepsInv(w, id, micro, limits, width);
    case Settle(_, _, _) => SettleKeepsInv(w, s, limits, width);
    case Recover(_) => RecoverKeepsInv(w, s, limits, width);
  }

  /** The sliding-window theorem: while no prune forgets an entry still inside the window,
      no window of that width ever holds more real charges than the limit. */
  lemma {:induction false} RunWithinLimits(w: World, run: seq<Step>, limits: Limits, width: nat)
    requires Inv(w, limits, width)
    requires LegalRun(w, run, limits) && RunKeepsWindow(w, run, limits, width)
    ensures Inv(Final(w, run, limits), limits, width)
    ensures WithinLimits(Final(w, run, limits), limits, width)
    decreases |run|
  {
    if run != [] {
      StepKeepsInv(w, run[0], limits, width);
      RunWithinLimits(Apply(w, run[0], limits), run[1..], limits, width);
    }
  }

  predicate Touches(s: Step, id: Id) {
    (s.Reserve? || s.Settle?) && s.id == id
  }

  lemma StepLeavesEntry(w: World, s: Step, limits: Limits, id: Id)
    requires !Touches(s, id)
    ensures var l := Apply(w, s, limits).ledger;
      && (id in l ==> id in w.ledger && l[id].micro == w.ledger[id].micro)
      && (id in w.ledger && w.ledger[id].pending && !s.Recover? ==> id in l && l[id] == w.ledger[id])
  {
  }

  /** Until its own settlement an entry keeps its amount, and until a restart it stays put. */
  lemma {:induction false} ReservationUntouched(w: World, run: seq<Step>, limits: Limits, id: Id)
    requires forall s | s in run :: !Touches(s, id)
    ensures var l := Final(w, run, limits).ledger;
      && (id in l ==> id in w.ledger && l[id].micro == w.ledger[id].micro)
      && (id in w.ledger && w.ledger[id].pending && (forall s | s in run :: !s.Recover?) ==>
          id in l && l[id] == w.ledger[id])
    decreases |run|
  {
    if run != [] {
      assert run[0] in run;
      StepLeavesEntry(w, run[0], limits, id);
      ReservationUntouched(Apply(w, run[0], limits), run[1..], limits, id);
    }
  }

  // ---------- which reservations are open ----------

  ghost function OutcomeOf(w: World, s: Step, limits: Limits): Outcome
    requires s.Reserve? || s.Settle? || s.Recover?
  {
    match s
    case Reserve(id, provider, bound, now) => ReserveEdit(w.ledger, id, provider, limits(provider), bound, now).0
    case Settle(id, cost, now) => SettleEdit(w.ledger, id, cost, now).0
    case Recover(now) => RecoverEdit(w.ledger, now).0
  }

  /** A reservation opens when it is granted and closes with its settlement, at whatever cost, or
      with a restart; a refusal changes nothing. */
  ghost function Opened(open: set<Id>, w: World, s: Step, limits: Limits): set<Id> {
    if s.Tick? || s.Spent? || OutcomeOf(w, s, limits) != Done then open
    else match s
      case Reserve(id, _, _, _) => open + {id}
      case Settle(id, _, _) => open - {id}
      case Recover(_) => {}
  }

  ghost function Open(open: set<Id>, w: World, run: seq<Step>, limits: Limits): set<Id>
    decreases |run|
  {
    if run == [] then open else Open(Opened(open, w, run[0], limits), Apply(w, run[0], limits), run[1..], limits)
  }

  lemma StepOpens(w: World, s: Step, limits: Limits)
    ensures Pendings(Apply(w, s, limits).ledger) == Opened(Pendings(w.ledger), w, s, limits)
  {
    var before, after := w.ledger, Apply(w, s, limits).ledger;
    match s
    case Tick(_) =>
    case Spent(_, _) =>
    case Reserve(id, provider, bound, now) => ReservationMeans(before, id, provider, limits(provider), bound, now);
    case Settle(id, cost, now) => SettlementMeans(before, id, cost, now);
    case Recover(now) => RecoveryMeans(before, now);
  }

  /** Over every run, legal or not, the pending entries are exactly the open reservations: none
      is left pending by a settlement, and none is closed by anything else. */
  lemma {:induction false} PendingIsOpen(w: World, run: seq<Step>, limits: Limits)
    ensures Pendings(Final(w, run, limits).ledger) == Open(Pendings(w.ledger), w, run, limits)
    decreases |run|
  {
    if run != [] {
      StepOpens(w, run[0], limits);
      PendingIsOpen(Apply(w, run[0], limits), run[1..], limits);
    }
  }

  // ---------- which windows the gateway really guarantees ----------

  const SAFE_WINDOW := WINDOW - LIFETIME

  function Start(): World {
    World(1, map[], map[])
  }

  ghost predicate Limiting(limits: Limits) {
    forall provider :: 0 <= limits(provider)
  }

  lemma StartInv(limits: Limits, width: nat)
    requires Limiting(limits)
    ensures Inv(Start(), limits, width)
  {
    forall provider ensures Spend(map[], provider) == 0 {
      assert Amounts(map[], provider) == map[];
    }
    forall provider, t ensures WindowSpend(Start(), provider, t, width) <= limits(provider) {
      assert Charged(Start(), provider, t - width, t) == map[];
    }
  }

  /** Every legal step respects a window one attempt lifetime shorter than 24 hours. */
  lemma {:induction false} LegalRunKeepsSafeWindow(w: World, run: seq<Step>, limits: Limits, width: nat)
    requires LegalRun(w, run, limits) && width <= SAFE_WINDOW
    ensures RunKeepsWindow(w, run, limits, width)
    decreases |run|
  {
    if run != [] {
      LegalRunKeepsSafeWindow(Apply(w, run[0], limits), run[1..], limits, width);
    }
  }

  ghost predicate Guaranteed(width: nat) {
    forall limits: Limits, run: seq<Step> ::
      Limiting(limits) && LegalRun(Start(), run, limits) ==> WithinLimits(Final(Start(), run, limits), limits, width)
  }

  ghost predicate Reaches(w: World, run: seq<Step>, w': World, limits: Limits) {
    LegalRun(w, run, limits) && Final(w, run, limits) == w'
  }

  lemma OneStep(w: World, s: Step, w': World, limits: Limits)
    requires Legal(w, s) && w' == Apply(w, s, limits)
    ensures Reaches(w, [s], w', limits)
  {
    assert [s][1..] == [];
  }

  lemma {:induction false} Then(w: World, a: seq<Step>, mid: World, b: seq<Step>, w': World, limits: Limits)
    requires Reaches(w, a, mid, limits) && Reaches(mid, b, w', limits)
    ensures Reaches(w, a + b, w', limits)
    decreases |a|
  {
    if a == [] {
      assert a + b == b;
    } else {
      Then(Apply(w, a[0], limits), a[1..], mid, b, w', limits);
      assert (a + b)[1..] == a[1..] + b;
    }
  }

  function Eleven(): Limits { provider => 11 }

  /** A full reservation charged at once, then a small one whose outcome is unknown 23 hours
      later: settling it prunes the first entry an hour early, and the budget is spent again. */
  function EarlyPruneRun(): seq<Step> {
    [Reserve(0, "p", 10, 1), Spent(0, 10), Settle(0, 10, 1), Tick(LATE)]
    + [Reserve(1, "p", 1, LATE), Settle(1, 1, LATE + LIFETIME), Reserve(2, "p", 10, LATE), Spent(2, 10)]
  }

  const LATE := SAFE_WINDOW + 1
  const FIRST := Entry("p", 1, 10, false)
  const SECOND := Entry("p", LATE, 1, true)
  const EARLY := Entry("p", LATE + LIFETIME, 1, false)
  const THIRD := Entry("p", LATE, 10, true)

  const CHARGES: map<Id, Charge> := map[0 := Charge("p", 1, 10)]
  const W1 := World(1, map[0 := FIRST.(pending := true)], map[])
  const W2 := World(1, map[0 := FIRST.(pending := true)], CHARGES)
  const W3 := World(1, map[0 := FIRST], CHARGES)
  const W4 := World(LATE, map[0 := FIRST], CHARGES)
  const W5 := World(LATE, map[0 := FIRST, 1 := SECOND], CHARGES)
  const W6 := World(LATE, map[1 := EARLY], CHARGES)
  const W7 := World(LATE, map[1 := EARLY, 2 := THIRD], CHARGES)
  const W8 := W7.(charges := CHARGES[2 := Charge("p", LATE, 10)])

  lemma OneEntrySpend(id: Id, e: Entry)
    ensures Spend(map[id := e], e.provider) == e.micro
  {
    var l: Ledger := map[];
    assert Amounts(l, e.provider) == map[];
    AddedSpend(l, id, e, e.provider);
    assert l[id := e] == map[id := e];
  }

  lemma FirstReserve()
    ensures Reaches(Start(), [Reserve(0, "p", 10, 1)], W1, Eleven())
  {
    assert Amounts(map[], "p") == map[] && Prune(map[], 1) == map[];
    EmptyIsLoadable();
    OneStep(Start(), Reserve(0, "p", 10, 1), W1, Eleven());
  }

  lemma FirstSettle()
    ensures Reaches(W2, [Settle(0, 10, 1)], W3, Eleven())
  {
    assert Prune(W2.ledger, 1) == W2.ledger;
    ShortNamesAlwaysLoad(W2.ledger);
    OneStep(W2, Settle(0, 10, 1), W3, Eleven());
  }

  lemma SecondReserve()
    ensures Reaches(W4, [Reserve(1, "p", 1, LATE)], W5, Eleven())
  {
    assert Prune(W4.ledger, LATE) == W4.ledger;
    ShortNamesAlwaysLoad(W4.ledger);
    OneEntrySpend(0, FIRST);
    OneStep(W4, Reserve(1, "p", 1, LATE), W5, Eleven());
  }

  lemma SecondSettle()
    ensures Reaches(W5, [Settle(1, 1, LATE + LIFETIME)], W6, Eleven())
  {
    assert Prune(W5.ledger, LATE + LIFETIME) == map[1 := SECOND];
    ShortNamesAlwaysLoad(W5.ledger);
    OneStep(W5, Settle(1, 1, LATE + LIFETIME), W6, Eleven());
  }

  lemma ThirdReserve()
    ensures Reaches(W6, [Reserve(2, "p", 10, LATE)], W7, Eleven())
  {
    assert Prune(W6.ledger, LATE) == W6.ledger;
    ShortNamesAlwaysLoad(W6.ledger);
    OneEntrySpend(1, EARLY);
    OneStep(W6, Reserve(2, "p", 10, LATE), W7, Eleven());
  }

  lemma FourSteps(w0: World, s0: Step, w1: World, s1: Step, w2: World, s2: Step, w3: World, s3: Step, w4: World,
                  limits: Limits)
    requires Reaches(w0, [s0], w1, limits) && Reaches(w1, [s1], w2, limits)
    requires Reaches(w2, [s2], w3, limits) && Reaches(w3, [s3], w4, limits)
    ensures Reaches(w0, [s0, s1, s2, s3], w4, limits)
  {
    Then(w2, [s2], w3, [s3], w4, limits);
    Then(w1, [s1], w2, [s2] + [s3], w4, limits);
    Then(w0, [s0], w1, [s1] + ([s2] + [s3]), w4, limits);
    assert [s0] + ([s1] + ([s2] + [s3])) == [s0, s1, s2, s3];
  }

  lemma FirstDay()
    ensures Reaches(Start(), [Reserve(0, "p", 10, 1), Spent(0, 10), Settle(0, 10, 1), Tick(LATE)], W4, Eleven())
  {
    FirstReserve();
    OneStep(W1, Spent(0, 10), W2, Eleven());
    FirstSettle();
    OneStep(W3, Tick(LATE), W4, Eleven());
    FourSteps(Start(), Reserve(0, "p", 10, 1), W1, Spent(0, 10), W2, Settle(0, 10, 1), W3, Tick(LATE), W4, Eleven());
  }

  lemma LastHour()
    ensures Reaches(W4, [Reserve(1, "p", 1, LATE), Settle(1, 1, LATE + LIFETIME), Reserve(2, "p", 10, LATE),
        Spent(2, 10)], W8, Eleven())
  {
    SecondReserve();
    SecondSettle();
    ThirdReserve();
    OneStep(W7, Spent(2, 10), W8, Eleven());
    FourSteps(W4, Reserve(1, "p", 1, LATE), W5, Settle(1, 1, LATE + LIFETIME), W6, Reserve(2, "p", 10, LATE), W7,
        Spent(2, 10), W8, Eleven());
  }

  lemma EarlyPruneEnds()
    ensures Reaches(Start(), EarlyPruneRun(), W8, Eleven())
  {
    FirstDay();
    LastHour();
    Then(Start(), [Reserve(0, "p", 10, 1), Spent(0, 10), Settle(0, 10, 1), Tick(LATE)], W4,
         [Reserve(1, "p", 1, LATE), Settle(1, 1, LATE + LIFETIME), Reserve(2, "p", 10, LATE), Spent(2, 10)], W8,
             Eleven());
  }

  lemma TwentyCharged(w: World, width: nat)
    requires w.charges == map[0 := Charge("p", 1, 10), 2 := Charge("p", LATE, 10)] && SAFE_WINDOW < width
    ensures WindowSpend(w, "p", LATE, width) == 20
  {
    var window := Charged(w, "p", LATE - width, LATE);
    assert window == map[0 := 10, 2 := 10];
    SumSplit(window, 0);
    assert window - {0} == map[2 := 10];
    SumSplit(map[2 := 10], 2);
    assert map[2 := 10] - {2} == map[];
  }

  /** Any window wider than 23 hours can hold more real charges than the limit. */
  lemma EarlyPruneBreaks(width: nat)
    requires SAFE_WINDOW < width
    ensures LegalRun(Start(), EarlyPruneRun(), Eleven())
    ensures WindowSpend(Final(Start(), EarlyPruneRun(), Eleven()), "p", LATE, width) == 20
  {
    EarlyPruneEnds();
    TwentyCharged(W8, width);
  }

  /** The widest window in which the limit holds on every run is 23 hours: a settlement
      stamped one lifetime ahead also prunes one lifetime ahead. */
  lemma GuaranteedWindow(width: nat)
    ensures Guaranteed(width) <==> width <= SAFE_WINDOW
  {
    if width <= SAFE_WINDOW {
      forall limits: Limits, run: seq<Step> | Limiting(limits) && LegalRun(Start(), run, limits)
        ensures WithinLimits(Final(Start(), run, limits), limits, width)
      {
        StartInv(limits, width);
        LegalRunKeepsSafeWindow(Start(), run, limits, width);
        RunWithinLimits(Start(), run, limits, width);
      }
    } else {
      EarlyPruneBreaks(width);
      var end := Final(Start(), EarlyPruneRun(), Eleven());
      assert Limiting(Eleven());
      assert WindowSpend(end, "p", LATE, width) > Eleven()("p");
    }
  }

  // ---------- which settlements are safe for the advertised 24 hours ----------

  /** An amount that the settlement's prune drops although 24 hours have not passed since its stamp. */
  predicate Victim(l: Ledger, clock: int, now: int, id: Id) {
    id in l && !l[id].pending && l[id].micro > 0 && clock - WINDOW < l[id].at <= now - WINDOW
  }

  predicate Unsettled(run: seq<Step>) {
    forall s | s in run :: !s.Settle?
  }

  /** A world with this ledger and clock in which the settlement, followed by steps without
      another settlement, lets some provider exceed its limit within 24 hours. */
  ghost predicate Exceeds(w: World, l: Ledger, clock: int, s: Step, rest: seq<Step>, limits: Limits) {
    && w.ledger == l && w.clock == clock && Inv(w, limits, WINDOW)
    && LegalRun(w, [s] + rest, limits) && Unsettled(rest)
    && !WithinLimits(Final(w, [s] + rest, limits), limits, WINDOW)
  }

  // ---------- a victim can be spent again ----------

  function ChargeTime(e: Entry, clock: int): int {
    if e.pending || e.at > clock then clock else e.at
  }

  /** Everything in the ledger was really charged, as late as it can have been; the entry to be
      settled only in the amount it is settled at. */
  ghost function ChargedWorld(l: Ledger, clock: int, settled: Id, cost: int): World {
    World(clock, l, map id | id in l ::
      Charge(l[id].provider, ChargeTime(l[id], clock), if id == settled then cost else l[id].micro))
  }

  lemma ChargedWorldInv(l: Ledger, clock: int, settled: Id, cost: int, limits: Limits)
    requires ValidLedger(l) && forall provider :: Spend(l, provider) <= limits(provider)
    requires settled in l ==> 0 <= cost <= l[settled].micro
    ensures Inv(ChargedWorld(l, clock, settled, cost), limits, WINDOW)
  {
    var w := ChargedWorld(l, clock, settled, cost);
    forall provider, t ensures WindowSpend(w, provider, t, WINDOW) <= limits(provider) {
      SumDominated(Charged(w, provider, t - WINDOW, t), Amounts(l, provider));
      assert Spend(l, provider) <= limits(provider);
    }
  }

  lemma {:induction false} FreshId(l: Ledger) returns (next: Id)
    ensures forall id | id in l :: id < next
    decreases |l|
  {
    if l == map[] {
      next := 0;
    } else {
      var id :| id in l;
      var below := FreshId(l - {id});
      next := if below > id then below else id + 1;
      assert forall j | j in l :: j == id || j in l - {id};
    }
  }

  lemma {:induction false} DigitsGrow(a: int, b: int)
    requires a <= b
    ensures Digits(a) <= Digits(b)
    decreases b
  {
    if a >= 10 { DigitsGrow(a / 10, b / 10); }
  }

  ghost function Settled(l: Ledger, s: Step): Ledger
    requires s.Settle?
  {
    SettleEdit(l, s.id, s.cost, s.now).1
  }

  lemma SettledEntries(l: Ledger, s: Step, victim: Id, clock: int)
    requires s.Settle? && SettleEdit(l, s.id, s.cost, s.now).0 == Done && Victim(l, clock, s.now, victim)
    ensures victim !in Settled(l, s) && victim != s.id && s.id in l && 0 <= s.cost <= l[s.id].micro
    ensures forall id | id in Settled(l, s) :: id in l && Kept(l[id], s.now)
    ensures forall id | id in Settled(l, s) :: Settled(l, s)[id].provider == l[id].provider
    ensures forall id | id in Settled(l, s) :: Settled(l, s)[id].micro == if id == s.id then s.cost else l[id].micro
    ensures forall id | id in Settled(l, s) && id != s.id :: Settled(l, s)[id] == l[id]
  {
  }

  /** The file shrinks: a settled entry grows by at most a byte, the victim's is gone. */
  lemma SettledLoads(l: Ledger, s: Step, victim: Id, clock: int)
    requires s.Settle? && SettleEdit(l, s.id, s.cost, s.now).0 == Done && Victim(l, clock, s.now, victim) && s.now != 0
    ensures Loadable(Settled(l, s)) && |Settled(l, s)| < MAX_ENTRIES
  {
    var after := Settled(l, s);
    SettledEntries(l, s, victim, clock);
    SettleKeepsValid(l, s.id, s.cost, s.now);
    FewerEntries(after, l, victim);
    var grown := Sizes(l)[s.id := EntryBytes(l[s.id]) + 1];
    SumUpdate(Sizes(l), s.id, EntryBytes(l[s.id]) + 1);
    SumSplit(grown, victim);
    forall id | id in Sizes(after) ensures Sizes(after)[id] <= At(grown - {victim}, id) {
      SettledSize(l, s, victim, clock, id);
    }
    SumDominated(Sizes(after), grown - {victim});
    if after == map[] { EmptyIsLoadable(); }
  }

  lemma FewerEntries(small: Ledger, large: Ledger, gone: Id)
    requires gone in large && gone !in small && forall id | id in small :: id in large
    ensures |small| < |large|
  {
    SubsetSize(small.Keys, large.Keys - {gone});
    assert |large.Keys| == |large| && |small.Keys| == |small|;
  }

  lemma SettledSize(l: Ledger, s: Step, victim: Id, clock: int, id: Id)
    requires s.Settle? && SettleEdit(l, s.id, s.cost, s.now).0 == Done && Victim(l, clock, s.now, victim)
    requires id in Settled(l, s)
    ensures id in l && id != victim
    ensures EntryBytes(Settled(l, s)[id]) <= EntryBytes(l[id]) + if id == s.id then 1 else 0
  {
    SettledEntries(l, s, victim, clock);
    if id == s.id { DigitsGrow(s.cost, l[s.id].micro); }
  }

  /** What the settlement leaves counted of the victim's provider, with the victim on top. */
  ghost function Counted(l: Ledger, s: Step, victim: Id): map<Id, int>
    requires s.Settle? && victim in l
  {
    Amounts(Settled(l, s), l[victim].provider)[victim := l[victim].micro]
  }

  lemma CountedEntry(l: Ledger, s: Step, victim: Id, clock: int, id: Id)
    requires s.Settle? && SettleEdit(l, s.id, s.cost, s.now).0 == Done && Victim(l, clock, s.now, victim)
    requires s.now <= clock + LIFETIME && id in Counted(l, s, victim)
    ensures var p := l[victim].provider;
      var w := ChargedWorld(l, clock, s.id, s.cost);
      && Counted(l, s, victim)[id] <= At(Amounts(l, p), id)
      && Counted(l, s, victim)[id] <= At(Charged(w, p, clock - WINDOW, clock), id)
  {
    SettledEntries(l, s, victim, clock);
    var p := l[victim].provider;
    var w := ChargedWorld(l, clock, s.id, s.cost);
    assert id in l && l[id].provider == p;
    assert w.charges[id].provider == p && clock - WINDOW < w.charges[id].at <= clock;
    assert id in Charged(w, p, clock - WINDOW, clock) && id in Amounts(l, p);
  }

  lemma ChargedWorldSums(l: Ledger, clock: int, settled: Id, cost: int, window: map<Id, int>, p: string)
    requires ValidLedger(l) && 0 <= cost
    requires window == Charged(ChargedWorld(l, clock, settled, cost), p, clock - WINDOW, clock)
    ensures forall id | id in window :: 0 <= window[id]
  {
  }

  /** All of it was counted before and has been charged within 24 hours. */
  lemma VictimUncounted(l: Ledger, s: Step, victim: Id, clock: int)
    requires s.Settle? && SettleEdit(l, s.id, s.cost, s.now).0 == Done && Victim(l, clock, s.now, victim)
    requires s.now <= clock + LIFETIME
    ensures var p := l[victim].provider;
      var w := ChargedWorld(l, clock, s.id, s.cost);
      && Spend(Settled(l, s), p) + l[victim].micro <= Spend(l, p)
      && Spend(Settled(l, s), p) + l[victim].micro <= WindowSpend(w, p, clock, WINDOW)
  {
    var p := l[victim].provider;
    var counted := Counted(l, s, victim);
    var window := Charged(ChargedWorld(l, clock, s.id, s.cost), p, clock - WINDOW, clock);
    SettledEntries(l, s, victim, clock);
    ChargedWorldSums(l, clock, s.id, s.cost, window, p);
    SumUpdate(Amounts(Settled(l, s), p), victim, l[victim].micro);
    forall id | id in counted ensures counted[id] <= At(Amounts(l, p), id) && counted[id] <= At(window, id) {
      CountedEntry(l, s, victim, clock, id);
    }
    SumDominated(counted, Amounts(l, p));
    SumDominated(counted, window);
  }

  function Respend(next: Id, p: string, bound: int, clock: int): seq<Step> {
    [Reserve(next, p, bound, clock), Spent(next, bound)]
  }

  /** Whatever a lowered ledger frees can be reserved and charged on top of the window. */
  lemma RespendCharges(w: World, next: Id, provider: string, limits: Limits)
    requires Loadable(w.ledger) && |w.ledger| < MAX_ENTRIES && next !in w.ledger && next !in w.charges
    requires 0 < w.clock && provider != "" && limits(provider) <= MAX_MICRO
    requires Spend(w.ledger, provider) < limits(provider)
    ensures var bound := limits(provider) - Spend(w.ledger, provider);
      var run := Respend(next, provider, bound, w.clock);
      && LegalRun(w, run, limits)
      && WindowSpend(Final(w, run, limits), provider, w.clock, WINDOW)
         == WindowSpend(w, provider, w.clock, WINDOW) + bound
  {
    var bound := limits(provider) - Spend(w.ledger, provider);
    SumNonnegative(Amounts(w.ledger, provider));
    PruneSpendsLess(w.ledger, provider, w.clock);
    PruneKeepsValid(w.ledger, w.clock);
    var reserved := w.(ledger := Prune(w.ledger, w.clock)[next := Entry(provider, w.clock, bound, true)]);
    var spent := reserved.(charges := w.charges[next := Charge(provider, w.clock, bound)]);
    OneStep(w, Reserve(next, provider, bound, w.clock), reserved, limits);
    OneStep(reserved, Spent(next, bound), spent, limits);
    Then(w, [Reserve(next, provider, bound, w.clock)], reserved, [Spent(next, bound)], spent, limits);
    assert [Reserve(next, provider, bound, w.clock)] + [Spent(next, bound)] == Respend(next, provider, bound, w.clock);
    var window := Charged(w, provider, w.clock - WINDOW, w.clock);
    SumUpdate(window, next, bound);
    assert Charged(spent, provider, w.clock - WINDOW, w.clock) == window[next := bound];
  }

  lemma PrependStep(w: World, s: Step, run: seq<Step>, limits: Limits)
    requires Legal(w, s) && LegalRun(Apply(w, s, limits), run, limits)
    ensures LegalRun(w, [s] + run, limits)
    ensures Final(w, [s] + run, limits) == Final(Apply(w, s, limits), run, limits)
  {
    assert ([s] + run)[1..] == run;
  }

  lemma SettlementIsLegal(l: Ledger, clock: int, s: Step, victim: Id)
    requires s.Settle? && 0 < s.now <= clock + LIFETIME
    requires SettleEdit(l, s.id, s.cost, s.now).0 == Done && Victim(l, clock, s.now, victim)
    ensures Legal(ChargedWorld(l, clock, s.id, s.cost), s)
  {
  }

  lemma WindowUnmoved(w: World, s: Step, limits: Limits, p: string)
    requires s.Settle?
    ensures var after := Apply(w, s, limits);
      after.charges == w.charges && after.clock == w.clock
      && WindowSpend(after, p, w.clock, WINDOW) == WindowSpend(w, p, w.clock, WINDOW)
  {
    assert Charged(Apply(w, s, limits), p, w.clock - WINDOW, w.clock) == Charged(w, p, w.clock - WINDOW, w.clock);
  }

  /** Spending again what a settlement freed, on top of a window that holds more than is left. */
  lemma RespendExceeds(w: World, s: Step, p: string, next: Id, limits: Limits)
    requires Inv(w, limits, WINDOW) && s.Settle? && Legal(w, s) && 0 < w.clock
    requires var l := Apply(w, s, limits).ledger; Loadable(l) && |l| < MAX_ENTRIES && next !in l
    requires next !in w.charges && p != "" && limits(p) <= MAX_MICRO
    requires var left := Spend(Apply(w, s, limits).ledger, p);
        left < limits(p) && left < WindowSpend(w, p, w.clock, WINDOW)
    ensures exists rest :: Exceeds(w, w.ledger, w.clock, s, rest, limits)
  {
    var after := Apply(w, s, limits);
    WindowUnmoved(w, s, limits, p);
    RespendCharges(after, next, p, limits);
    var bound := limits(p) - Spend(after.ledger, p);
    RunExceeds(w, s, after, Respend(next, p, bound, w.clock), limits, p);
  }

  lemma RunExceeds(w: World, s: Step, after: World, rest: seq<Step>, limits: Limits, p: string)
    requires Inv(w, limits, WINDOW) && Legal(w, s) && after == Apply(w, s, limits)
    requires LegalRun(after, rest, limits) && Unsettled(rest)
    requires WindowSpend(Final(after, rest, limits), p, w.clock, WINDOW) > limits(p)
    ensures exists rest :: Exceeds(w, w.ledger, w.clock, s, rest, limits)
  {
    PrependStep(w, s, rest, limits);
    ExceedsBy(w, s, rest, limits, p);
  }

  lemma ExceedsBy(w: World, s: Step, rest: seq<Step>, limits: Limits, p: string)
    requires Inv(w, limits, WINDOW) && LegalRun(w, [s] + rest, limits) && Unsettled(rest)
    requires WindowSpend(Final(w, [s] + rest, limits), p, w.clock, WINDOW) > limits(p)
    ensures Exceeds(w, w.ledger, w.clock, s, rest, limits)
  {
  }

  lemma VictimBreaks(l: Ledger, clock: int, s: Step, victim: Id, limits: Limits)
    requires 0 < clock && s.Settle? && 0 < s.now <= clock + LIFETIME
    requires SettleEdit(l, s.id, s.cost, s.now).0 == Done && Victim(l, clock, s.now, victim)
    requires forall provider :: Spend(l, provider) <= limits(provider) <= MAX_MICRO
    ensures exists w, rest :: Exceeds(w, l, clock, s, rest, limits)
  {
    var w := ChargedWorld(l, clock, s.id, s.cost);
    var p := l[victim].provider;
    var next := FreshId(l);
    SettledEntries(l, s, victim, clock);
    ChargedWorldInv(l, clock, s.id, s.cost, limits);
    SettledLoads(l, s, victim, clock);
    VictimUncounted(l, s, victim, clock);
    SettlementIsLegal(l, clock, s, victim);
    assert Spend(l, p) <= limits(p);
    RespendExceeds(w, s, p, next, limits);
    var rest :| Exceeds(w, w.ledger, w.clock, s, rest, limits);
    assert Exceeds(w, l, clock, s, rest, limits);
  }

  // ---------- without a victim the day is kept ----------

  lemma NoVictimKeepsDay(w: World, s: Step)
    requires s.Settle? && forall id :: !Victim(w.ledger, w.clock, s.now, id)
    ensures KeepsWindow(w, s, WINDOW)
  {
    forall id | id in w.ledger && !Kept(w.ledger[id], s.now) && w.ledger[id].micro > 0
      ensures w.ledger[id].at <= w.clock - WINDOW {
      assert !Victim(w.ledger, w.clock, s.now, id);
    }
  }

  /** No settlement of the run that goes through finds a victim. */
  ghost predicate NoVictims(w: World, run: seq<Step>, limits: Limits)
    decreases |run|
  {
    run != [] ==>
      && (run[0].Settle? && SettleEdit(w.ledger, run[0].id, run[0].cost, run[0].now).0 == Done ==>
            forall id :: !Victim(w.ledger, w.clock, run[0].now, id))
      && NoVictims(Apply(w, run[0], limits), run[1..], limits)
  }

  lemma SafeStep(w: World, s: Step, limits: Limits)
    requires Inv(w, limits, WINDOW) && Legal(w, s)
    requires s.Settle? && SettleEdit(w.ledger, s.id, s.cost, s.now).0 == Done ==>
        forall id :: !Victim(w.ledger, w.clock, s.now, id)
    ensures Inv(Apply(w, s, limits), limits, WINDOW)
  {
    if s.Settle? {
      if SettleEdit(w.ledger, s.id, s.cost, s.now).0 == Done {
        NoVictimKeepsDay(w, s);
        StepKeepsInv(w, s, limits, WINDOW);
      } else {
        assert Apply(w, s, limits) == w;
      }
    } else {
      StepKeepsInv(w, s, limits, WINDOW);
    }
  }

  /** Over a whole run the advertised 24 hours hold as long as no settlement finds a victim. */
  lemma {:induction false} DayKeptWithoutVictims(w: World, run: seq<Step>, limits: Limits)
    requires Inv(w, limits, WINDOW) && LegalRun(w, run, limits) && NoVictims(w, run, limits)
    ensures Inv(Final(w, run, limits), limits, WINDOW)
    ensures WithinLimits(Final(w, run, limits), limits, WINDOW)
    decreases |run|
  {
    if run != [] {
      SafeStep(w, run[0], limits);
      DayKeptWithoutVictims(Apply(w, run[0], limits), run[1..], limits);
    }
  }

  lemma {:induction false} UnsettledHasNoVictims(w: World, run: seq<Step>, limits: Limits)
    requires Unsettled(run)
    ensures NoVictims(w, run, limits)
    decreases |run|
  {
    if run != [] {
      assert run[0] in run;
      UnsettledHasNoVictims(Apply(w, run[0], limits), run[1..], limits);
    }
  }

  lemma NoVictimHolds(w: World, l: Ledger, clock: int, s: Step, rest: seq<Step>, limits: Limits)
    requires s.Settle? && forall id :: !Victim(l, clock, s.now, id)
    ensures !Exceeds(w, l, clock, s, rest, limits)
  {
    var run := [s] + rest;
    if w.ledger == l && w.clock == clock && Inv(w, limits, WINDOW) && LegalRun(w, run, limits) && Unsettled(rest) {
      assert run[0] == s && run[1..] == rest;
      UnsettledHasNoVictims(Apply(w, s, limits), rest, limits);
      DayKeptWithoutVictims(w, run, limits);
    }
  }

  /** For every ledger, clock and settlement that goes through: some history behind the ledger
      lets a provider exceed its limit within 24 hours, with no further settlement, exactly when
      the settlement's prune finds a victim. The ledger and the clock alone decide it, so a
      caller could check first. */
  lemma SettlementSafeIffNoVictim(l: Ledger, clock: int, s: Step, limits: Limits)
    requires 0 < clock && s.Settle? && 0 < s.now <= clock + LIFETIME
    requires SettleEdit(l, s.id, s.cost, s.now).0 == Done
    requires forall provider :: Spend(l, provider) <= limits(provider) <= MAX_MICRO
    ensures (exists w, rest :: Exceeds(w, l, clock, s, rest, limits)) <==> (exists id :: Victim(l, clock, s.now, id))
  {
    if victim :| Victim(l, clock, s.now, victim) {
      VictimBreaks(l, clock, s, victim, limits);
    } else {
      forall w, rest ensures !Exceeds(w, l, clock, s, rest, limits) {
        NoVictimHolds(w, l, clock, s, rest, limits);
      }
    }
  }
}
