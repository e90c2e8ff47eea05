/** What a paid response costs: which bytes are read as payloads, what usage they amount to,
    what each token adds to the bill, and which amount is settled. */
module PaidBill {
  import opened Wrappers
  import opened PaidBody
  import F = RollupFile

  // ---------- which bytes are read as payloads ----------

  /** The payload texts of an event stream: data lines of at most 1 MiB, terminated. */
  function Records(m: Meter, lines: seq<Bytes>): seq<Bytes> {
    if lines == [] then [] else
      var line := lines[|lines| - 1];
      Records(m, lines[..|lines| - 1]) +
      if |line| <= 1_048_576 && "data:" <= m.trim(line) then [m.trim(m.trim(line)[5..])] else []
  }

  function ObserveAll(m: Meter, raws: seq<Bytes>): Observer {
    if raws == [] then NEW_OBSERVER else m.Observe(ObserveAll(m, raws[..|raws| - 1]), raws[|raws| - 1])
  }

  lemma {:induction false} ObserveAllIdle(m: Meter, raws: seq<Bytes>)
    ensures ObserveAll(m, raws).buffer == [] && !ObserveAll(m, raws).dropping
    decreases |raws|
  {
    if raws != [] { ObserveAllIdle(m, raws[..|raws| - 1]); }
  }

  lemma RecordsSnoc(m: Meter, lines: seq<Bytes>, line: Bytes)
    ensures var read := |line| <= 1_048_576 && "data:" <= m.trim(line);
      && (read ==>
          ObserveAll(m, Records(m, lines + [line]))
          == m.Observe(ObserveAll(m, Records(m, lines)), m.trim(m.trim(line)[5..])))
      && (!read ==> Records(m, lines + [line]) == Records(m, lines))
  {
    assert (lines + [line])[..|lines|] == lines;
    if |line| <= 1_048_576 && "data:" <= m.trim(line) {
      var raw := m.trim(m.trim(line)[5..]);
      assert (Records(m, lines) + [raw])[..|Records(m, lines)|] == Records(m, lines);
    }
  }

  /** The observer of an event stream between two bytes. */
  function Between(m: Meter, body: Bytes): Observer {
    var tail := F.Tail(body);
    var long := |tail| > 1_048_576;
    ObserveAll(m, Records(m, F.Lines(body))).(buffer := if long then [] else tail, dropping := long)
  }

  lemma TailSnoc(body: Bytes)
    requires body != [] && body[|body| - 1] != '\n'
    ensures F.Lines(body) == F.Lines(body[..|body| - 1])
    ensures F.Tail(body) == F.Tail(body[..|body| - 1]) + [body[|body| - 1]]
  {
    Suffix(body, F.Cut(body[..|body| - 1]));
  }

  lemma Suffix(body: Bytes, n: nat)
    requires n < |body|
    ensures body[n..] == body[..|body| - 1][n..] + [body[|body| - 1]]
  {
  }

  lemma NewlineSnoc(body: Bytes)
    requires body != [] && body[|body| - 1] == '\n'
    ensures F.Lines(body) == F.Lines(body[..|body| - 1]) + [F.Tail(body[..|body| - 1])] && F.Tail(body) == []
  {
    F.CutFacts(body[..|body| - 1]);
  }

  lemma LineEnds(m: Meter, init: Bytes)
    requires m.sse
    ensures m.EndLine(Between(m, init)) == ObserveAll(m, Records(m, F.Lines(init) + [F.Tail(init)]))
  {
    RecordsSnoc(m, F.Lines(init), F.Tail(init));
    ObserveAllIdle(m, Records(m, F.Lines(init)));
    ObserveAllIdle(m, Records(m, F.Lines(init) + [F.Tail(init)]));
  }

  /** An event stream is read line by line: exactly the terminated data lines of at most 1 MiB,
      each once and in order; a longer line is passed over and the next one is read again. */
  lemma {:induction false} StreamIsLines(m: Meter, body: Bytes)
    requires m.sse
    ensures m.Feed(NEW_OBSERVER, body) == Between(m, body)
    decreases |body|
  {
    if body == [] {
      assert F.Lines(body) == [];
    } else {
      var init := body[..|body| - 1];
      StreamIsLines(m, init);
      if body[|body| - 1] == '\n' {
        NewlineSnoc(body);
        LineEnds(m, init);
        ObserveAllIdle(m, Records(m, F.Lines(body)));
      } else {
        TailSnoc(body);
      }
    }
  }

  /** A plain body is one payload if it has at most 1 MiB, and none otherwise. */
  lemma {:induction false} PlainIsWhole(m: Meter, body: Bytes)
    requires !m.sse
    ensures m.AtEnd(m.Feed(NEW_OBSERVER, body)) ==
      if |body| <= 1_048_576 then m.Observe(NEW_OBSERVER.(buffer := body), body)
      else NEW_OBSERVER.(dropping := true)
  {
    PlainBuffer(m, body);
  }

  lemma {:induction false} PlainBuffer(m: Meter, body: Bytes)
    requires !m.sse
    ensures m.Feed(NEW_OBSERVER, body) ==
      if |body| <= 1_048_576 then NEW_OBSERVER.(buffer := body) else NEW_OBSERVER.(dropping := true)
    decreases |body|
  {
    if body != [] {
      PlainBuffer(m, body[..|body| - 1]);
      assert body[..|body| - 1] + [body[|body| - 1]] == body;
    }
  }

  // ---------- what the payloads amount to ----------

  function Decoded(m: Meter, raws: seq<Bytes>): seq<Payload> {
    if raws == [] then [] else
      var init, v := Decoded(m, raws[..|raws| - 1]), m.decode(raws[|raws| - 1]);
      if v.Some? then init + [v.value] else init
  }

  function Usages(ps: seq<Payload>): seq<UsageFields> {
    if ps == [] then [] else
      Usages(ps[..|ps| - 1]) + if ps[|ps| - 1].usage.Some? then [ps[|ps| - 1].usage.value] else []
  }

  datatype Kind = Input | Output | CacheRead | CacheCreation | Reasoning | Creation5m | Creation1h

  function Given(f: UsageFields, kind: Kind): Field {
    match kind
    case Input => f.input
    case Output => f.output
    case CacheRead => f.cacheRead
    case CacheCreation => f.cacheCreation
    case Reasoning => f.reasoning
    case Creation5m => f.creation5m
    case Creation1h => f.creation1h
  }

  function Held(u: TokenUsage, kind: Kind): Option<Count> {
    match kind
    case Input => u.input
    case Output => u.output
    case CacheRead => u.cacheRead
    case CacheCreation => u.cacheCreation
    case Reasoning => u.reasoning
    case Creation5m => u.creation5m
    case Creation1h => u.creation1h
  }

  /** The count that stands after a series of usage objects: the last one given. */
  function LastGiven(us: seq<UsageFields>, kind: Kind): Option<Count> {
    if us == [] then None
    else if Given(us[|us| - 1], kind).Present? then Given(us[|us| - 1], kind).count
    else LastGiven(us[..|us| - 1], kind)
  }

  /** Counts that cannot all be right: more reasoning than output, or cache creations of the
      two lifetimes that do not add up to all cache creations. */
  predicate Disagree(us: seq<UsageFields>) {
    var output, reasoning := LastGiven(us, Output), LastGiven(us, Reasoning);
    var all, short, long := LastGiven(us, CacheCreation), LastGiven(us, Creation5m), LastGiven(us, Creation1h);
    || (output.Some? && reasoning.Some? && output.value < reasoning.value)
    || (all.Some? && short.Some? && long.Some? && short.value as int + long.value as int != all.value as int)
  }

  /** Usage holds the last count given of each kind, and is inconsistent for good once the
      counts disagree. */
  ghost predicate Amounts(u: TokenUsage, us: seq<UsageFields>) {
    && (forall kind :: Held(u, kind) == LastGiven(us, kind))
    && (u.inconsistent <==> exists n :: 0 < n <= |us| && Disagree(us[..n]))
  }

  lemma GivenSnoc(us: seq<UsageFields>, f: UsageFields, kind: Kind)
    ensures LastGiven(us + [f], kind) == Assign(LastGiven(us, kind), Given(f, kind))
  {
    assert (us + [f])[..|us|] == us;
  }

  lemma TwoFit(a: Count, b: Count)
    ensures SafeSum([a, b]) == if a as int + b as int <= MAX_INT64 then Some(a + b) else None
  {
    assert [a, b][1..] == [b];
    assert SafeSumFrom(0 + a, [b]) == SafeSum([a, b]);
    assert [b][1..] == [];
  }

  lemma DisagreeSnoc(us: seq<UsageFields>, f: UsageFields)
    ensures (exists n :: 0 < n <= |us + [f]| && Disagree((us + [f])[..n])) <==>
            Disagree(us + [f]) || exists n :: 0 < n <= |us| && Disagree(us[..n])
  {
    var more := us + [f];
    assert more[..|more|] == more;
    forall n | 0 < n <= |us| ensures more[..n] == us[..n] { }
  }

  lemma SameDisagreement(u: TokenUsage, us: seq<UsageFields>)
    requires forall kind :: Held(u, kind) == LastGiven(us, kind)
    ensures SubsetsDisagree(u) <==> Disagree(us)
  {
    assert Held(u, Output) == u.output && Held(u, Reasoning) == u.reasoning;
    assert Held(u, CacheCreation) == u.cacheCreation;
    assert Held(u, Creation5m) == u.creation5m && Held(u, Creation1h) == u.creation1h;
    if u.creation5m.Some? && u.creation1h.Some? {
      TwoFit(u.creation5m.value, u.creation1h.value);
    }
  }

  lemma UsageSnoc(usage: Option<TokenUsage>, us: seq<UsageFields>, f: UsageFields)
    requires if usage.Some? then Amounts(usage.value, us) else us == []
    ensures Amounts(ObserveUsage(usage, f), us + [f])
  {
    var u := ObserveUsage(usage, f);
    DisagreeSnoc(us, f);
    forall kind ensures Held(u, kind) == LastGiven(us + [f], kind) {
      GivenSnoc(us, f, kind);
      if usage.Some? { assert Held(usage.value, kind) == LastGiven(us, kind); }
    }
    SameDisagreement(u, us + [f]);
  }

  /** A payload ends the message, and names a cost inside the bound. */
  predicate Reports(m: Meter, p: Payload) {
    && (p.kind == "message_stop" || (p.kind == "message_delta" && p.deltaStop) || (!m.sse && p.topStop))
    && p.gatewayCost.Some? && 0.0 <= p.gatewayCost.value && p.gatewayCost.value * 1000000.0 <= m.bound as real
  }

  function LastReport(m: Meter, ps: seq<Payload>): Option<real> {
    if ps == [] then None
    else if Reports(m, ps[|ps| - 1]) then ps[|ps| - 1].gatewayCost
    else LastReport(m, ps[..|ps| - 1])
  }

  /** The least whole number of micro-USD that covers an amount. */
  predicate Covers(micro: int, amount: real) {
    micro as real - 1.0 < amount <= micro as real
  }

  predicate Completes(m: Meter, p: Payload) {
    p.kind == "message_stop" || (!m.sse && p.topStop)
  }

  /** What the observer knows after a series of payloads. */
  ghost predicate Knows(m: Meter, o: Observer, ps: seq<Payload>) {
    && (o.complete <==> exists i :: 0 <= i < |ps| && Completes(m, ps[i]))
    && (if o.usage.Some? then Usages(ps) != [] && Amounts(o.usage.value, Usages(ps)) else Usages(ps) == [])
    && (o.reported.Some? <==> LastReport(m, ps).Some?)
    && (o.reported.Some? ==> Covers(o.reported.value, LastReport(m, ps).value * 1000000.0))
  }

  lemma PayloadsSnoc(m: Meter, ps: seq<Payload>, p: Payload)
    ensures Usages(ps + [p]) == if p.usage.Some? then Usages(ps) + [p.usage.value] else Usages(ps)
    ensures LastReport(m, ps + [p]) == if Reports(m, p) then p.gatewayCost else LastReport(m, ps)
    ensures (exists i :: 0 <= i < |ps + [p]| && Completes(m, (ps + [p])[i])) <==>
            Completes(m, p) || exists i :: 0 <= i < |ps| && Completes(m, ps[i])
  {
    var more := ps + [p];
    assert more[..|ps|] == ps;
    assert more[|ps|] == p;
    if i :| 0 <= i < |ps| && Completes(m, ps[i]) { assert Completes(m, more[i]); }
  }

  lemma ObservedKnows(m: Meter, o: Observer, ps: seq<Payload>, raw: Bytes)
    requires Knows(m, o, ps)
    ensures m.decode(raw).Some? ==> Knows(m, m.Observe(o, raw), ps + [m.decode(raw).value])
    ensures m.decode(raw).None? ==> m.Observe(o, raw) == o
  {
    if m.decode(raw).Some? {
      var p := m.decode(raw).value;
      PayloadsSnoc(m, ps, p);
      if p.usage.Some? {
        UsageSnoc(o.usage, Usages(ps), p.usage.value);
      }
      if Reports(m, p) {
        CeilBounds(p.gatewayCost.value * 1000000.0, 0);
      }
    }
  }

  lemma {:induction false} AllKnown(m: Meter, raws: seq<Bytes>)
    ensures Knows(m, ObserveAll(m, raws), Decoded(m, raws))
    decreases |raws|
  {
    if raws != [] {
      AllKnown(m, raws[..|raws| - 1]);
      ObservedKnows(m, ObserveAll(m, raws[..|raws| - 1]), Decoded(m, raws[..|raws| - 1]), raws[|raws| - 1]);
    }
  }

  /** The payloads a whole body is read as. */
  function Payloads(m: Meter, body: Bytes): seq<Payload> {
    Decoded(m, if m.sse then Records(m, F.Lines(body)) else if |body| <= 1_048_576 then [body] else [])
  }

  /** What is known when a body ends: every count, the completion and the reported cost come
      from its payloads, whatever the chunks were. */
  lemma BodyIsPayloads(m: Meter, body: Bytes)
    ensures Knows(m, m.AtEnd(m.Feed(NEW_OBSERVER, body)), Payloads(m, body))
  {
    if m.sse {
      StreamIsLines(m, body);
      AllKnown(m, Records(m, F.Lines(body)));
    } else {
      PlainIsWhole(m, body);
      OnePayload(m, body);
    }
  }

  lemma OnePayload(m: Meter, body: Bytes)
    ensures Knows(m, m.Observe(NEW_OBSERVER.(buffer := body), body), Decoded(m, [body]))
    ensures Decoded(m, []) == [] && Knows(m, NEW_OBSERVER.(dropping := true), [])
  {
    ObservedKnows(m, NEW_OBSERVER.(buffer := body), [], body);
    assert [body][..0] == [];
    if m.decode(body).Some? { assert [] + [m.decode(body).value] == [m.decode(body).value]; }
  }

  // ---------- what each token costs ----------

  predicate Known(u: TokenUsage) {
    u.input.Some? && u.output.Some?
  }

  predicate CacheKnown(u: TokenUsage) {
    u.cacheRead.Some? && u.cacheCreation.Some?
  }

  lemma OneMore(n: Count, price: real, rest: real)
    requires n < MAX_INT64
    ensures (n + 1) as real * price + rest == n as real * price + rest + price
  {
    assert (n + 1) as real == n as real + 1.0;
    Distribute(n as real, 1.0, price);
  }

  /** One more output token adds the output price, whatever else is known. */
  lemma OutputToken(m: Meter, u: TokenUsage)
    requires Known(u) && u.output.value < MAX_INT64
    ensures m.Bill(u.(output := Some(u.output.value + 1))) == m.Bill(u) + m.prices.output
  {
    OneMore(u.output.value, m.prices.output, m.InputPrice(u));
  }

  /** One more token sent uncached, or written to the cache, adds the input price. */
  lemma InputToken(m: Meter, u: TokenUsage)
    requires Known(u) && CacheKnown(u)
    ensures u.input.value < MAX_INT64 ==>
      m.Bill(u.(input := Some(u.input.value + 1))) == m.Bill(u) + m.prices.input
    ensures u.cacheCreation.value < MAX_INT64 ==>
      m.Bill(u.(cacheCreation := Some(u.cacheCreation.value + 1))) == m.Bill(u) + m.prices.input
  {
    var uncached := u.input.value as real + u.cacheCreation.value as real;
    Distribute(uncached, 1.0, m.prices.input);
    if u.input.value < MAX_INT64 {
      assert (u.input.value + 1) as real + u.cacheCreation.value as real == uncached + 1.0;
    }
    if u.cacheCreation.value < MAX_INT64 {
      assert u.input.value as real + (u.cacheCreation.value + 1) as real == uncached + 1.0;
    }
  }

  /** One more token read from the cache adds the cache price, or the input price if no cache
      price is set. */
  lemma CacheReadToken(m: Meter, u: TokenUsage)
    requires Known(u) && CacheKnown(u) && u.cacheRead.value < MAX_INT64
    ensures m.Bill(u.(cacheRead := Some(u.cacheRead.value + 1)))
         == m.Bill(u) + if m.prices.cacheRead == 0.0 then m.prices.input else m.prices.cacheRead
  {
    OneMore(u.cacheRead.value, if m.prices.cacheRead == 0.0 then m.prices.input else m.prices.cacheRead, 0.0);
  }

  /** No tokens cost nothing. While a cache count is missing the input is billed as a full
      context at the higher of its two prices, whatever was sent. */
  lemma FirstToken(m: Meter, u: TokenUsage)
    requires Known(u) && u.output.value == 0
    ensures CacheKnown(u) && u.input.value == u.cacheRead.value == u.cacheCreation.value == 0 ==> m.Bill(u) == 0.0
    ensures !CacheKnown(u) && m.prices.cacheRead <= m.prices.input ==>
      m.Bill(u) == m.contextTokens as real * m.prices.input
    ensures !CacheKnown(u) && m.prices.input <= m.prices.cacheRead ==>
      m.Bill(u) == m.contextTokens as real * m.prices.cacheRead
  {
  }

  // ---------- which amount is settled ----------

  predicate Rejecting(status: int) {
    status == 400 || status == 401 || status == 402 || status == 403 || status == 404 || status == 422 || status == 429
  }

  /** A successful and complete response with usage that prices within the bound. */
  predicate Billed(m: Meter, o: Observer) {
    && 200 <= m.status <= 299 && o.complete && o.usage.Some? && !o.usage.value.inconsistent && Known(o.usage.value)
    && -1.0 < m.Bill(o.usage.value) <= m.bound as real
  }

  /** A reported cost comes first, then the bill rounded up, both settled as of now; a rejected
      request costs nothing; in every other case the whole reservation is kept, an hour ahead. */
  lemma SettlementMeans(m: Meter, o: Observer)
    ensures var (cost, known) := m.Settlement(o);
      var reported := 200 <= m.status <= 299 && o.complete && o.reported.Some?;
      && (reported ==> known && cost == o.reported.value)
      && (!reported && Billed(m, o) ==> known && Covers(cost, m.Bill(o.usage.value)))
      && (!reported && !Billed(m, o) && Rejecting(m.status) ==> known && cost == 0)
      && (!reported && !Billed(m, o) && !Rejecting(m.status) ==> !known && cost == m.bound)
  {
    if o.usage.Some? && Known(o.usage.value) {
      CeilBounds(m.Bill(o.usage.value), m.bound);
    }
  }

  lemma SameBill(m: Meter, u: TokenUsage, v: TokenUsage)
    requires forall kind :: Held(u, kind) == Held(v, kind)
    ensures Known(u) == Known(v)
    ensures Known(u) ==> m.Bill(u) == m.Bill(v)
  {
    assert Held(u, Input) == u.input && Held(u, Output) == u.output;
    assert Held(u, CacheRead) == u.cacheRead && Held(u, CacheCreation) == u.cacheCreation;
  }

  /** A body that was delivered whole, names no cost of its own and gives all its counts is
      settled at their bill rounded up. */
  lemma WholeBodySettles(m: Meter, body: Bytes, u: TokenUsage)
    requires 200 <= m.status <= 299
    requires exists i :: 0 <= i < |Payloads(m, body)| && Completes(m, Payloads(m, body)[i])
    requires LastReport(m, Payloads(m, body)).None?
    requires Usages(Payloads(m, body)) != [] && Amounts(u, Usages(Payloads(m, body)))
    requires Known(u) && !u.inconsistent && 0.0 <= m.Bill(u) <= m.bound as real
    ensures var (cost, known) := m.Settlement(m.AtEnd(m.Feed(NEW_OBSERVER, body)));
      known && Covers(cost, m.Bill(u))
  {
    BodyIsPayloads(m, body);
    var o := m.AtEnd(m.Feed(NEW_OBSERVER, body));
    forall kind ensures Held(o.usage.value, kind) == Held(u, kind) {
      assert Held(u, kind) == LastGiven(Usages(Payloads(m, body)), kind);
    }
    SameBill(m, o.usage.value, u);
    SettlementMeans(m, o);
  }

  /** At 3, 15 and 0.3 a thousand uncached tokens, a hundred read from the cache and ten of
      output are settled at 3180. */
  lemma ThreeOneEightZero(m: Meter, o: Observer)
    requires m.prices == Prices(3.0, 15.0, 0.3) && 200 <= m.status <= 299 && m.bound >= 3180
    requires o.complete && o.reported.None? && o.usage.Some? && !o.usage.value.inconsistent
    requires var u := o.usage.value;
      u.input == Some(1000) && u.cacheCreation == Some(0) && u.cacheRead == Some(100) && u.output == Some(10)
    ensures m.Settlement(o) == (3180, true)
  {
    SettlementMeans(m, o);
    assert m.Bill(o.usage.value) == 3180.0;
  }

  /** The bound reserved is tight: it is what a response costs that uses up max_tokens and says
      nothing about the cache. There is one exactly for requests whose context and max_tokens
      are limited and whose cost is positive and at most a million dollars. */
  lemma BoundIsTight(m: Meter, maxTokens: Option<Count>, u: TokenUsage)
    requires Known(u) && !CacheKnown(u) && u.output == maxTokens
    ensures var b := ReserveBound(m.prices, m.contextTokens, maxTokens);
      && (b.Some? <==> 0 < m.contextTokens <= 1_048_576 && 0 < maxTokens.value <= m.contextTokens
                       && 0.0 < m.Bill(u) <= 1000000000000.0)
      && (b.Some? ==> Covers(b.value, m.Bill(u)))
  {
    CeilBounds(m.Bill(u), 0);
  }

  lemma NoLimitNoBound(prices: Prices, contextWindow: int)
    ensures ReserveBound(prices, contextWindow, None).None?
  {
  }
}
