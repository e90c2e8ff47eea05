/** The wire format by its own definition, without a parser: which byte strings are varints,
    values, fields and messages. The parser accepts exactly these. */
module WireFormat {
  import opened Wrappers
  import opened Wire

  // ---------- varints ----------

  /** Seven bits a byte, the lowest first. */
  function Low(b: seq<byte>): nat {
    if b == [] then 0 else b[0] % 128 + 128 * Low(b[1..])
  }

  /** Every byte but the last has its high bit set. */
  predicate Chained(b: seq<byte>) {
    b != [] && b[|b| - 1] < 128 && forall i :: 0 <= i < |b| - 1 ==> b[i] >= 128
  }

  /** At most ten bytes that say a 64-bit number. */
  predicate IsVarint(b: seq<byte>, n: nat) {
    Chained(b) && |b| <= 10 && n == Low(b) && n < 0x1_0000_0000_0000_0000
  }

  predicate Spelt(b: seq<byte>, i: nat, n: nat, k: nat)
    requires i <= MAX_VARINT
  {
    0 < k <= |b| && Chained(b[..k]) && n == Low(b[..k]) && i + k <= MAX_VARINT && i < MAX_VARINT && n < Room(i)
  }

  lemma ChainedRest(b: seq<byte>, k: nat)
    requires 0 < k <= |b|
    ensures k == 1 ==> (Chained(b[..k]) <==> b[0] < 128) && Low(b[..k]) == b[0] % 128
    ensures k > 1 ==> b[1..][..k - 1] == b[..k][1..]
    ensures k > 1 ==> (Chained(b[..k]) <==> b[0] >= 128 && Chained(b[1..][..k - 1]))
    ensures k > 1 ==> Low(b[..k]) == b[0] % 128 + 128 * Low(b[1..][..k - 1])
  {
    var c, d := b[..k], b[1..][..if k > 1 then k - 1 else 0];
    assert forall i :: 0 <= i < |d| ==> d[i] == c[i + 1];
    assert c[1..] == d;
    if k > 1 && b[0] >= 128 && Chained(d) {
      forall i | 0 <= i < |c| - 1 ensures c[i] >= 128 {
        if i > 0 { assert d[i - 1] == c[i]; }
      }
    }
  }

  lemma ScaledBelow(low: nat, high: nat, room: nat)
    requires low < 128
    ensures low + 128 * high < 128 * room <==> high < room
  {
  }

  /** Reading on from the i-th byte of a varint. */
  lemma {:induction false} UvarintSpells(b: seq<byte>, i: nat, n: nat, k: nat)
    requires i <= MAX_VARINT
    ensures Uvarint(b, i) == Some((n, k)) <==> Spelt(b, i, n, k)
    decreases MAX_VARINT - i
  {
    if b != [] && i < MAX_VARINT {
      if b[0] < 128 {
        ShortVarint(b, i, n, k);
      } else {
        LongVarint(b, i, n, k);
      }
    }
  }

  lemma ShortVarint(b: seq<byte>, i: nat, n: nat, k: nat)
    requires b != [] && i < MAX_VARINT && b[0] < 128
    ensures Uvarint(b, i) == Some((n, k)) <==> Spelt(b, i, n, k)
  {
    if 0 < k <= |b| { ChainedRest(b, k); }
    if 1 <= |b| { ChainedRest(b, 1); }
    assert i < MAX_VARINT - 1 ==> Room(i) >= 256;
  }

  lemma LongVarint(b: seq<byte>, i: nat, n: nat, k: nat)
    requires b != [] && i < MAX_VARINT && b[0] >= 128
    ensures Uvarint(b, i) == Some((n, k)) <==> Spelt(b, i, n, k)
    decreases MAX_VARINT - i, 0
  {
    var rest := b[1..];
    if Uvarint(b, i) == Some((n, k)) {
      var high := Uvarint(rest, i + 1).value.0;
      UvarintSpells(rest, i + 1, high, k - 1);
      SpeltOn(b, i, high, k);
    }
    if Spelt(b, i, n, k) {
      ChainedRest(b, k);
      var high := Low(rest[..k - 1]);
      SpeltRest(b, i, n, k);
      UvarintSpells(rest, i + 1, high, k - 1);
    }
  }

  lemma SpeltOn(b: seq<byte>, i: nat, high: nat, k: nat)
    requires b != [] && i < MAX_VARINT && b[0] >= 128 && k > 0 && Spelt(b[1..], i + 1, high, k - 1)
    ensures i + 1 < MAX_VARINT ==> Spelt(b, i, b[0] - 128 + 128 * high, k)
  {
    ChainedRest(b, k);
    if i + 1 < MAX_VARINT { ScaledBelow(b[0] - 128, high, Room(i + 1)); }
  }

  lemma SpeltRest(b: seq<byte>, i: nat, n: nat, k: nat)
    requires b != [] && i < MAX_VARINT && b[0] >= 128 && Spelt(b, i, n, k)
    ensures k > 1 && i + 1 < MAX_VARINT
    ensures var high := Low(b[1..][..k - 1]);
      n == b[0] - 128 + 128 * high && Spelt(b[1..], i + 1, high, k - 1)
  {
    ChainedRest(b, k);
    ScaledBelow(b[0] - 128, Low(b[1..][..k - 1]), Room(i + 1));
  }

  lemma VarintExactly(b: seq<byte>, n: nat, k: nat)
    ensures Uvarint(b, 0) == Some((n, k)) <==> k <= |b| && IsVarint(b[..k], n)
  {
    RoomIsAWord();
    UvarintSpells(b, 0, n, k);
  }

  // ---------- values, fields, messages ----------

  /** The bytes of a value: a varint, eight bytes, four bytes, or a length and that many bytes. */
  ghost predicate IsValue(b: seq<byte>, v: Value) {
    || (v.wire == 0 && v.b == [] && IsVarint(b, v.n))
    || (v.wire == 1 && v == Value(1, b, 0) && |b| == 8)
    || (v.wire == 5 && v == Value(5, b, 0) && |b| == 4)
    || (v.wire == 2 && v.n == 0 && Measured(b, v.b))
  }

  ghost predicate Measured(b: seq<byte>, content: seq<byte>) {
    exists k: nat :: k <= |b| && IsVarint(b[..k], |content|) && b[k..] == content
  }

  /** A field: its key, a varint holding tag and kind, and its value. */
  ghost predicate IsField(b: seq<byte>, tag: nat, v: Value) {
    1 <= tag <= 0x1FFF_FFFF && v.wire < 8 && exists k: nat :: k <= |b| && KeyedAt(b, k, tag, v)
  }

  ghost predicate KeyedAt(b: seq<byte>, k: nat, tag: nat, v: Value)
    requires k <= |b|
  {
    IsVarint(b[..k], 8 * tag + v.wire) && IsValue(b[k..], v)
  }

  /** A message: the bytes of its fields, one after another. */
  ghost predicate Spells(b: seq<byte>, fields: seq<(nat, Value)>)
    decreases |fields|
  {
    if fields == [] then b == []
    else exists k: nat | 0 < k <= |b| :: IsField(b[..k], fields[0].0, fields[0].1) && Spells(b[k..], fields[1..])
  }

  lemma Cuts(b: seq<byte>, n: nat, k: nat)
    requires k <= n <= |b|
    ensures b[..n][..k] == b[..k] && b[..n][k..] == b[k..][..n - k] && b[..n][k..] == b[k..n]
  {
  }

  lemma MeasuredExactly(b: seq<byte>, content: seq<byte>, m: nat)
    requires m <= |b|
    ensures Measured(b[..m], content) <==>
      exists k: nat :: Uvarint(b, 0) == Some((|content|, k)) && k + |content| == m && b[k..m] == content
  {
    if Measured(b[..m], content) {
      var k: nat :| k <= m && IsVarint(b[..m][..k], |content|) && b[..m][k..] == content;
      Cuts(b, m, k);
      VarintExactly(b, |content|, k);
      assert Uvarint(b, 0) == Some((|content|, k)) && k + |content| == m && b[k..m] == content;
    }
    if k: nat :| Uvarint(b, 0) == Some((|content|, k)) && k + |content| == m && b[k..m] == content {
      VarintExactly(b, |content|, k);
      Cuts(b, m, k);
    }
  }

  /** The parser of values takes exactly the bytes of a value. */
  lemma ValueExactly(b: seq<byte>, v: Value, m: nat)
    ensures ParseValue(v.wire, b) == Some((v, m)) <==> m <= |b| && IsValue(b[..m], v)
  {
    if v.wire == 0 {
      VarintExactly(b, v.n, m);
    } else if v.wire == 2 {
      if m <= |b| { MeasuredExactly(b, v.b, m); }
    }
  }

  lemma ParsedWire(wire: nat, b: seq<byte>)
    ensures ParseValue(wire, b).Some? ==> ParseValue(wire, b).value.0.wire == wire
  {
  }

  lemma KeyParts(tag: nat, wire: nat)
    requires wire < 8
    ensures (8 * tag + wire) / 8 == tag && (8 * tag + wire) % 8 == wire
  {
  }

  lemma ParsedField(b: seq<byte>, tag: nat, v: Value, n: nat)
    requires ParseOne(b) == Some((tag, v, n))
    ensures n <= |b| && IsField(b[..n], tag, v)
  {
    var (key, k) := Uvarint(b, 0).value;
    ParseOneIs(b, key, k);
    VarintExactly(b, key, k);
    ParsedWire(key % 8, b[k..]);
    ValueExactly(b[k..], v, n - k);
    Cuts(b, n, k);
    assert KeyedAt(b[..n], k, tag, v);
  }

  lemma WithKeyIs(tag: nat, k: nat, v: Value, m: nat)
    requires 1 <= tag <= MAX_TAG
    ensures WithKey(tag, k, Some((v, m))) == Some((tag, v, k + m))
  {
  }

  lemma KeyAndValue(b: seq<byte>, key: nat, k: nat, v: Value, m: nat)
    requires Uvarint(b, 0) == Some((key, k)) && 1 <= key / 8 <= MAX_TAG
    requires ParseValue(key % 8, b[k..]) == Some((v, m))
    ensures ParseOne(b) == Some((key / 8, v, k + m))
  {
    ParseOneIs(b, key, k);
    WithKeyIs(key / 8, k, v, m);
  }

  lemma SameField(r: Option<(nat, Value, nat)>, key: nat, tag: nat, v: Value, k: nat, n: nat)
    requires k <= n && key / 8 == tag && r == Some((key / 8, v, k + (n - k)))
    ensures r == Some((tag, v, n))
  {
  }

  lemma ReadsVarint(b: seq<byte>, n: nat, k: nat)
    requires k <= |b| && IsVarint(b[..k], n)
    ensures Uvarint(b, 0) == Some((n, k))
  {
    VarintExactly(b, n, k);
  }

  lemma ReadsValue(b: seq<byte>, wire: nat, v: Value, m: nat)
    requires m <= |b| && IsValue(b[..m], v) && v.wire == wire
    ensures ParseValue(wire, b) == Some((v, m))
  {
    ValueExactly(b, v, m);
  }

  /** The key of a field and its length, as the parser reads them. */
  lemma FieldReads(b: seq<byte>, tag: nat, v: Value, n: nat) returns (key: nat, k: nat)
    requires n <= |b| && IsField(b[..n], tag, v)
    ensures key / 8 == tag && key % 8 == v.wire && k <= n && Uvarint(b, 0) == Some((key, k))
    ensures ParseValue(v.wire, b[k..]) == Some((v, n - k))
  {
    k :| k <= n && KeyedAt(b[..n], k, tag, v);
    key := 8 * tag + v.wire;
    KeyParts(tag, v.wire);
    Cuts(b, n, k);
    ReadsVarint(b, key, k);
    ReadsValue(b[k..], v.wire, v, n - k);
  }

  lemma FieldParses(b: seq<byte>, tag: nat, v: Value, n: nat)
    requires n <= |b| && IsField(b[..n], tag, v)
    ensures ParseOne(b) == Some((tag, v, n))
  {
    var key, k := FieldReads(b, tag, v, n);
    KeyAndValue(b, key, k, v, n - k);
    SameField(ParseOne(b), key, tag, v, k, n);
  }

  lemma FieldExactly(b: seq<byte>, tag: nat, v: Value, n: nat)
    ensures ParseOne(b) == Some((tag, v, n)) <==> n <= |b| && IsField(b[..n], tag, v)
  {
    if ParseOne(b) == Some((tag, v, n)) { ParsedField(b, tag, v, n); }
    if n <= |b| && IsField(b[..n], tag, v) { FieldParses(b, tag, v, n); }
  }

  /** The parser accepts exactly the messages of the format, and gives their fields. */
  lemma {:induction false} MessageExactly(b: seq<byte>, fields: seq<(nat, Value)>)
    ensures Fields(b) == Some(fields) <==> Spells(b, fields)
    decreases |b|
  {
    if b != [] {
      if Fields(b) == Some(fields) {
        var (tag, v, n) := ParseOne(b).value;
        FieldExactly(b, tag, v, n);
        assert fields[0] == (tag, v) && fields[1..] == Fields(b[n..]).value;
        MessageExactly(b[n..], fields[1..]);
        assert IsField(b[..n], tag, v) && Spells(b[n..], fields[1..]);
      }
      if Spells(b, fields) {
        assert fields != [];
        var k: nat :| 0 < k <= |b| &&
          IsField(b[..k], fields[0].0, fields[0].1) && Spells(b[k..], fields[1..]);
        FieldExactly(b, fields[0].0, fields[0].1, k);
        MessageExactly(b[k..], fields[1..]);
        assert fields == [fields[0]] + fields[1..];
      }
    } else if fields != [] {
      assert !Spells(b, fields);
    }
  }
}
