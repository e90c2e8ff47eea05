/** The settlement amount of a paid response: a byte-at-a-time observer of the body,
    the token usage it collects, and the price it settles at. Prices are exact reals. */
module PaidBody {
  import opened Wrappers
  import L = PaidLedger

  type Bytes = string

  const MAX_INT64 := 0x7fff_ffff_ffff_ffff
  const MAX_LINE := 0x10_0000
  const MAX_COST := 1_000_000_000_000.0
  const MAX_CONTEXT := 1_048_576

  type Count = c: int | 0 <= c <= MAX_INT64

  /** A usage key of a JSON object: missing, or present with the count it stands for, if any. */
  datatype Field = Absent | Present(count: Option<Count>)

  datatype UsageFields = UsageFields(input: Field, output: Field, cacheRead: Field, cacheCreation: Field,
                                     reasoning: Field, creation5m: Field, creation1h: Field)

  /** What the observer looks at in one decoded JSON payload. */
  datatype Payload = Payload(kind: string, usage: Option<UsageFields>, deltaStop: bool, topStop: bool,
      gatewayCost: Option<real>)

  datatype TokenUsage = TokenUsage(input: Option<Count>, inputTotal: Option<Count>, output: Option<Count>,
                                   cacheRead: Option<Count>, cacheCreation: Option<Count>, reasoning: Option<Count>,
                                   creation5m: Option<Count>, creation1h: Option<Count>, inconsistent: bool)

  const NO_USAGE := TokenUsage(None, None, None, None, None, None, None, None, false)

  datatype Prices = Prices(input: real, output: real, cacheRead: real)

  // ---------- token usage ----------

  function Assign(target: Option<Count>, field: Field): Option<Count> {
    if field.Absent? then target else field.count
  }

  function SafeSum(values: seq<Count>): (sum: Option<Count>) {
    SafeSumFrom(0, values)
  }

  function SafeSumFrom(sum: Count, values: seq<Count>): Option<Count>
    decreases |values|
  {
    if values == [] then Some(sum)
    else if sum > MAX_INT64 - values[0] then None
    else SafeSumFrom(sum + values[0], values[1..])
  }

  function SubsetsDisagree(u: TokenUsage): bool {
    || (u.output.Some? && u.reasoning.Some? && u.reasoning.value > u.output.value)
    || (u.cacheCreation.Some? && u.creation5m.Some? && u.creation1h.Some? &&
        SafeSum([u.creation5m.value, u.creation1h.value]) != Some(u.cacheCreation.value))
  }

  function ObserveUsage(usage: Option<TokenUsage>, fields: UsageFields): TokenUsage {
    var u := if usage.Some? then usage.value else NO_USAGE;
    var v := u.(input := Assign(u.input, fields.input),
                output := Assign(u.output, fields.output),
                cacheRead := Assign(u.cacheRead, fields.cacheRead),
                cacheCreation := Assign(u.cacheCreation, fields.cacheCreation),
                reasoning := Assign(u.reasoning, fields.reasoning),
                creation5m := Assign(u.creation5m, fields.creation5m),
                creation1h := Assign(u.creation1h, fields.creation1h));
    var total := if v.input.Some? && v.cacheRead.Some? && v.cacheCreation.Some?
                 then SafeSum([v.input.value, v.cacheRead.value, v.cacheCreation.value]) else None;
    v.(inputTotal := total, inconsistent := v.inconsistent || SubsetsDisagree(v))
  }

  // ---------- the observer ----------

  datatype Observer = Observer(buffer: Bytes, dropping: bool, usage: Option<TokenUsage>, reported: Option<int>,
      complete: bool)

  const NEW_OBSERVER := Observer([], false, None, None, false)

  function Ceil(x: real): int {
    -((-x).Floor)
  }

  function MaxPrice(p: Prices): real {
    if p.input < p.cacheRead then p.cacheRead else p.input
  }

  /** A metered response: how it was reserved and priced. `decode` is JSON decoding and
      `trim` the removal of white space at both ends, both whatever they are. */
  datatype Meter = Meter(decode: Bytes -> Option<Payload>, trim: Bytes -> Bytes, sse: bool, bound: int,
                         contextTokens: nat, status: int, prices: Prices) {

    predicate Terminal(v: Payload) {
      v.kind == "message_stop" || (v.kind == "message_delta" && v.deltaStop) || (!sse && v.topStop)
    }

    function Observe(o: Observer, raw: Bytes): Observer {
      match decode(raw)
      case None => o
      case Some(v) =>
        var usage := if v.usage.Some? then Some(ObserveUsage(o.usage, v.usage.value)) else o.usage;
        var accepted := Terminal(v) && v.gatewayCost.Some? && 0.0 <= v.gatewayCost.value &&
                        v.gatewayCost.value * 1000000.0 <= bound as real;
        var reported := if accepted then Some(Ceil(v.gatewayCost.value * 1000000.0)) else o.reported;
        var complete := o.complete || v.kind == "message_stop" || (!sse && v.topStop);
        o.(usage := usage, reported := reported, complete := complete)
    }

    function EndLine(o: Observer): Observer {
      var line := trim(o.buffer);
      var seen := if !o.dropping && "data:" <= line then Observe(o, trim(line[5..])) else o;
      seen.(buffer := [], dropping := false)
    }

    function Byte(o: Observer, c: char): Observer {
      if sse && c == '\n' then EndLine(o)
      else if o.dropping then o
      else if |o.buffer| >= MAX_LINE then o.(buffer := [], dropping := true)
      else o.(buffer := o.buffer + [c])
    }

    function Feed(o: Observer, b: Bytes): Observer {
      if b == [] then o else Byte(Feed(o, b[..|b| - 1]), b[|b| - 1])
    }

    /** End of a plain JSON body; Read does this at EOF and Close does it again. */
    function AtEnd(o: Observer): Observer {
      if !sse && !o.dropping then Observe(o, o.buffer) else o
    }

    function Rejected(): bool {
      status in {400, 401, 402, 403, 404, 422, 429}
    }

    function Succeeded(): bool {
      200 <= status < 300
    }

    function InputPrice(u: TokenUsage): real
      requires u.input.Some?
    {
      if u.cacheRead.Some? && u.cacheCreation.Some? then
        var readPrice := if prices.cacheRead == 0.0 then prices.input else prices.cacheRead;
        (u.input.value as real + u.cacheCreation.value as real) * prices.input + u.cacheRead.value as real * readPrice
      else contextTokens as real * MaxPrice(prices)
    }

    function Bill(u: TokenUsage): real
      requires u.input.Some? && u.output.Some?
    {
      InputPrice(u) + u.output.value as real * prices.output
    }

    function Actual(u: TokenUsage): int
      requires u.input.Some? && u.output.Some?
    {
      Ceil(Bill(u))
    }

    predicate Priced(o: Observer) {
      Succeeded() && o.complete && o.usage.Some? && !o.usage.value.inconsistent &&
      o.usage.value.input.Some? && o.usage.value.output.Some? && 0 <= Actual(o.usage.value) <= bound
    }

    /** The settled amount, and whether its stamp is the present or one lifetime ahead. */
    function Settlement(o: Observer): (int, bool) {
      if Succeeded() && o.complete && o.reported.Some? then (o.reported.value, true)
      else if Priced(o) then (Actual(o.usage.value), true)
      else if Rejected() then (0, true)
      else (bound, false)
    }
  }

  // ---------- chunking does not matter ----------

  /** One Read call: the bytes it returned and whether it also reported EOF. */
  datatype Chunk = Chunk(bytes: Bytes, eof: bool)

  function Joined(chunks: seq<Chunk>): Bytes {
    if chunks == [] then [] else Joined(chunks[..|chunks| - 1]) + chunks[|chunks| - 1].bytes
  }

  function ReadAll(m: Meter, chunks: seq<Chunk>): Observer {
    if chunks == [] then NEW_OBSERVER else
      var o := m.Feed(ReadAll(m, chunks[..|chunks| - 1]), chunks[|chunks| - 1].bytes);
      if chunks[|chunks| - 1].eof then m.AtEnd(o) else o
  }

  /** After EOF a reader returns no more bytes. */
  predicate EofLast(chunks: seq<Chunk>) {
    forall i, j | 0 <= i < j < |chunks| :: chunks[i].eof ==> chunks[j].bytes == []
  }

  lemma {:induction false} FeedAppend(m: Meter, o: Observer, a: Bytes, b: Bytes)
    ensures m.Feed(o, a + b) == m.Feed(m.Feed(o, a), b)
    decreases |b|
  {
    if b == [] {
      assert a + b == a;
    } else {
      assert (a + b)[..|a + b| - 1] == a + b[..|b| - 1];
      FeedAppend(m, o, a, b[..|b| - 1]);
    }
  }

  /** Observing the same payload twice is observing it once. */
  lemma ObserveIdempotent(m: Meter, o: Observer, raw: Bytes)
    ensures m.Observe(m.Observe(o, raw), raw) == m.Observe(o, raw)
  {
    if m.decode(raw).Some? && m.decode(raw).value.usage.Some? {
      var fields := m.decode(raw).value.usage.value;
      var once := ObserveUsage(o.usage, fields);
      assert ObserveUsage(Some(once), fields) == once;
    }
  }

  lemma AtEndIdempotent(m: Meter, o: Observer)
    ensures m.AtEnd(m.AtEnd(o)) == m.AtEnd(o)
  {
    ObserveIdempotent(m, o, o.buffer);
  }

  lemma {:induction false} ReadsAreBytes(m: Meter, chunks: seq<Chunk>)
    requires EofLast(chunks)
    ensures var whole := m.Feed(NEW_OBSERVER, Joined(chunks));
      if exists i :: 0 <= i < |chunks| && chunks[i].eof then ReadAll(m, chunks) == m.AtEnd(whole)
          else ReadAll(m, chunks) == whole
    decreases |chunks|
  {
    if chunks != [] {
      var last := |chunks| - 1;
      var init := chunks[..last];
      ReadsAreBytes(m, init);
      FeedAppend(m, NEW_OBSERVER, Joined(init), chunks[last].bytes);
      AtEndIdempotent(m, m.Feed(NEW_OBSERVER, Joined(init)));
      if i :| 0 <= i < |chunks| && chunks[i].eof {
        if i < last {
          assert init[i].eof && chunks[last].bytes == [];
          assert Joined(chunks) == Joined(init);
        } else {
          assert chunks[last].eof;
          if j :| 0 <= j < |init| && init[j].eof {
            assert chunks[j].eof && chunks[last].bytes == [];
          }
        }
      } else {
        assert forall j | 0 <= j < |init| :: !chunks[j].eof;
      }
    }
  }

  /** The settlement depends on the bytes and the status alone: not on how the reads cut
      the body up, nor on whether EOF was reported once, repeatedly or never. */
  lemma SettlementIgnoresChunking(m: Meter, chunks: seq<Chunk>, others: seq<Chunk>)
    requires EofLast(chunks) && EofLast(others) && Joined(chunks) == Joined(others)
    ensures m.AtEnd(ReadAll(m, chunks)) == m.AtEnd(ReadAll(m, others))
    ensures m.Settlement(m.AtEnd(ReadAll(m, chunks))) == m.Settlement(m.AtEnd(m.Feed(NEW_OBSERVER, Joined(chunks))))
  {
    ReadsAreBytes(m, chunks);
    ReadsAreBytes(m, others);
    AtEndIdempotent(m, m.Feed(NEW_OBSERVER, Joined(chunks)));
  }

  // ---------- the amount stays within the reservation ----------

  predicate ReportedInBound(m: Meter, o: Observer) {
    o.reported.Some? ==> 0 <= o.reported.value <= m.bound
  }

  lemma CeilBounds(x: real, n: int)
    ensures x <= Ceil(x) as real < x + 1.0
    ensures x <= n as real ==> Ceil(x) <= n
    ensures 0.0 <= x ==> 0 <= Ceil(x)
  {
  }

  lemma ObserveReported(m: Meter, o: Observer, raw: Bytes)
    requires ReportedInBound(m, o)
    ensures ReportedInBound(m, m.Observe(o, raw))
  {
    if m.decode(raw).Some? && m.decode(raw).value.gatewayCost.Some? {
      CeilBounds(m.decode(raw).value.gatewayCost.value * 1000000.0, m.bound);
    }
  }

  lemma {:induction false} FeedReported(m: Meter, b: Bytes)
    ensures ReportedInBound(m, m.Feed(NEW_OBSERVER, b))
    decreases |b|
  {
    if b != [] {
      FeedReported(m, b[..|b| - 1]);
      var o := m.Feed(NEW_OBSERVER, b[..|b| - 1]);
      var line := m.trim(o.buffer);
      if "data:" <= line {
        ObserveReported(m, o, m.trim(line[5..]));
      }
    }
  }

  lemma SettlementWithinBound(m: Meter, body: Bytes)
    requires 0 < m.bound
    ensures 0 <= m.Settlement(m.AtEnd(m.Feed(NEW_OBSERVER, body))).0 <= m.bound
  {
    FeedReported(m, body);
    var o := m.Feed(NEW_OBSERVER, body);
    ObserveReported(m, o, o.buffer);
  }

  /** The ledger never refuses the amount: whenever the reservation is still there, at the
      bound it was made with, closing the body settles it. */
  lemma SettlementAccepted(m: Meter, body: Bytes, l: L.Ledger, id: L.Id, now: int)
    requires 0 < m.bound && L.Loadable(l)
    requires id in l ==> l[id].micro == m.bound
    ensures L.SettleEdit(l, id, m.Settlement(m.AtEnd(m.Feed(NEW_OBSERVER, body))).0, now).0
         == if id in l && L.Kept(l[id], now) then L.Done else L.MissingReservation
  {
    SettlementWithinBound(m, body);
  }

  // ---------- the reserved bound covers every honest bill ----------

  function ReserveBound(prices: Prices, contextWindow: int, maxTokens: Option<Count>): Option<int> {
    if !(0 < contextWindow <= MAX_CONTEXT) || maxTokens.None? || !(0 < maxTokens.value <= contextWindow) then None
    else
      var cost := contextWindow as real * MaxPrice(prices) + maxTokens.value as real * prices.output;
      if cost <= 0.0 || cost > MAX_COST then None else Some(Ceil(cost))
  }

  lemma Scaled(n: real, n': real, p: real, p': real)
    requires 0.0 <= n <= n' && 0.0 <= p <= p'
    ensures 0.0 <= n * p <= n' * p'
  {
    assert n * p <= n * p' <= n' * p';
  }

  lemma Distribute(a: real, b: real, p: real)
    ensures (a + b) * p == a * p + b * p
  {
  }

  lemma AtMost(x: real, y: real, x': real, y': real, z: real, top: real)
    requires 0.0 <= x <= x' && 0.0 <= y <= y' && z == x' + y' && z <= top
    ensures 0.0 <= x + y <= top
  {
  }

  lemma TwoPrices(a: real, b: real, n: real, p: real, q: real, top: real)
    requires 0.0 <= a && 0.0 <= b && a + b <= n
    requires 0.0 <= p <= top && 0.0 <= q <= top
    ensures 0.0 <= a * p + b * q <= n * top
  {
    Scaled(a, a, p, top);
    Scaled(b, b, q, top);
    Scaled(a + b, n, top, top);
    Distribute(a, b, top);
    AtMost(a * p, b * q, a * top, b * top, (a + b) * top, n * top);
  }

  lemma InputWithinContext(m: Meter, u: TokenUsage)
    requires 0.0 <= m.prices.input && 0.0 <= m.prices.cacheRead
    requires u.input.Some?
    requires u.cacheRead.Some? && u.cacheCreation.Some? ==>
               u.input.value + u.cacheRead.value + u.cacheCreation.value <= m.contextTokens
    ensures 0.0 <= m.InputPrice(u) <= m.contextTokens as real * MaxPrice(m.prices)
  {
    var top := MaxPrice(m.prices);
    if u.cacheRead.Some? && u.cacheCreation.Some? {
      var uncached, read := u.input.value as real + u.cacheCreation.value as real, u.cacheRead.value as real;
      var readPrice := if m.prices.cacheRead == 0.0 then m.prices.input else m.prices.cacheRead;
      TwoPrices(uncached, read, m.contextTokens as real, m.prices.input, readPrice, top);
    } else {
      Scaled(m.contextTokens as real, m.contextTokens as real, top, top);
    }
  }

  /** Usage inside the context window and max_tokens never prices above the reserved bound. */
  lemma BoundCoversUsage(m: Meter, u: TokenUsage, maxTokens: Count)
    requires 0.0 <= m.prices.input && 0.0 <= m.prices.cacheRead && 0.0 <= m.prices.output
    requires ReserveBound(m.prices, m.contextTokens, Some(maxTokens)) == Some(m.bound)
    requires u.input.Some? && u.output.Some? && u.output.value <= maxTokens
    requires u.cacheRead.Some? && u.cacheCreation.Some? ==>
               u.input.value + u.cacheRead.value + u.cacheCreation.value <= m.contextTokens
    ensures 0 <= m.Actual(u) <= m.bound
  {
    InputWithinContext(m, u);
    Scaled(u.output.value as real, maxTokens as real, m.prices.output, m.prices.output);
    var actual := m.InputPrice(u) + u.output.value as real * m.prices.output;
    var reserved := m.contextTokens as real * MaxPrice(m.prices) + maxTokens as real * m.prices.output;
    CeilBounds(reserved, 0);
    CeilBounds(actual, m.bound);
  }

  /** Every bound is an amount the ledger accepts. */
  lemma BoundIsValid(prices: Prices, contextWindow: int, maxTokens: Option<Count>)
    ensures var b := ReserveBound(prices, contextWindow, maxTokens); b.Some? ==> 0 < b.value <= L.MAX_MICRO
  {
  }

  // ---------- the response body ----------

  class PaidBudgetBody {
    const meter: Meter
    const id: L.Id
    const ledger: L.LedgerFile
    var buffer: Bytes
    var dropping: bool
    var usage: Option<TokenUsage>
    var reported: Option<int>
    var complete: bool
    var closed: bool

    constructor (meter: Meter, id: L.Id, ledger: L.LedgerFile)
      ensures this.meter == meter && this.id == id && this.ledger == ledger
      ensures State() == NEW_OBSERVER && !closed
    {
      this.meter, this.id, this.ledger := meter, id, ledger;
      buffer, dropping, usage, reported, complete, closed := [], false, None, None, false, false;
    }

    ghost function State(): Observer
      reads this
    {
      Observer(buffer, dropping, usage, reported, complete)
    }

    method Observe(raw: Bytes)
      modifies this
      ensures State() == meter.Observe(old(State()), raw)
      ensures closed == old(closed)
    {
      var value := meter.decode(raw);
      if value.None? {
        return;
      }
      var v := value.value;
      if v.usage.Some? {
        usage := Some(ObserveUsage(usage, v.usage.value));
      }
      if meter.Terminal(v) && v.gatewayCost.Some? {
        var micro := v.gatewayCost.value * 1000000.0;
        if 0.0 <= v.gatewayCost.value && micro <= meter.bound as real {
          reported := Some(Ceil(micro));
        }
      }
      if v.kind == "message_stop" || (!meter.sse && v.topStop) {
        complete := true;
      }
    }

    method Read(p: Bytes, eof: bool)
      modifies this
      ensures var o := meter.Feed(old(State()), p);
        State() == if eof then meter.AtEnd(o) else o
      ensures closed == old(closed)
    {
      ghost var before := State();
      for i := 0 to |p|
        invariant State() == meter.Feed(before, p[..i])
        invariant closed == old(closed)
      {
        assert p[..i + 1][..i] == p[..i];
        if meter.sse && p[i] == '\n' {
          if !dropping {
            var line := meter.trim(buffer);
            if "data:" <= line {
              Observe(meter.trim(line[5..]));
            }
          }
          buffer, dropping := [], false;
        } else if !dropping {
          if |buffer| >= MAX_LINE {
            buffer, dropping := [], true;
          } else {
            buffer := buffer + [p[i]];
          }
        }
      }
      assert p[..|p|] == p;
      if eof && !meter.sse && !dropping {
        Observe(buffer);
      }
    }

    /** Settles the reservation on the first call only. */
    method Close(now: int) returns (outcome: Option<L.Outcome>)
      modifies this, ledger
      ensures closed
      ensures old(closed) ==> outcome == None && ledger.View() == old(ledger.View())
      ensures !old(closed) ==>
        var (cost, known) := meter.Settlement(meter.AtEnd(old(State())));
        && State() == meter.AtEnd(old(State()))
        && outcome.Some?
        && (outcome.value, ledger.View())
            == L.SettleOn(old(ledger.View()), id, cost, if known then now else now + L.LIFETIME)
    {
      if closed {
        return None;
      }
      closed := true;
      if !meter.sse && !dropping {
        Observe(buffer);
      }
      var cost, at := meter.bound, now + L.LIFETIME;
      if meter.Rejected() {
        cost, at := 0, now;
      }
      if 200 <= meter.status < 300 && complete {
        if usage.Some? && !usage.value.inconsistent && usage.value.input.Some? && usage.value.output.Some? {
          var actual := meter.Actual(usage.value);
          if 0 <= actual <= meter.bound {
            cost, at := actual, now;
          }
        }
        if reported.Some? {
          cost, at := reported.value, now;
        }
      }
      var settled := ledger.Settle(id, cost, at);
      outcome := Some(settled);
    }
  }
}
