/** The private wire format: Base 128 varints and tagged fields, printed and parsed.
    See "Base 128 Varints" and "Message Structure" in the Protocol Buffers Encoding guide. */
module Wire {
  import opened Wrappers

  type byte = b: int | 0 <= b < 256

  const MAX_VARINT := 10
  const WORD := 0x1_0000_0000_0000_0000
  const MAX_TAG := 0x1FFF_FFFF

  // ---------- varints ----------

  function Varint(n: nat): (r: seq<byte>)
    ensures r != []
  {
    if n < 128 then [n] else [128 + n % 128] + Varint(n / 128)
  }

  /** How many values a varint may still distinguish from its i-th byte on. */
  function Room(i: nat): (r: nat)
    requires i < MAX_VARINT
    ensures r >= 2
    decreases MAX_VARINT - i
  {
    if i == MAX_VARINT - 1 then 2 else 128 * Room(i + 1)
  }

  lemma RoomIsAWord()
    ensures Room(0) == WORD
  {
    assert Room(7) == 0x8000;
    assert Room(5) == 0x2000_0000;
    assert Room(3) == 0x800_0000_0000;
  }

  /** The value read from the front and how many bytes it took; None when the bytes run out or
      the value needs more than 64 bits. */
  function Uvarint(b: seq<byte>, i: nat): (r: Option<(nat, nat)>)
    requires i <= MAX_VARINT
    ensures r.Some? ==> i < MAX_VARINT && r.value.0 < Room(i) && 0 < r.value.1 <= |b|
    decreases |b|
  {
    if b == [] || i == MAX_VARINT then None
    else if b[0] < 128 then (if i == MAX_VARINT - 1 && b[0] > 1 then None else Some((b[0], 1)))
    else match Uvarint(b[1..], i + 1)
      case None => None
      case Some((high, n)) => Some((b[0] - 128 + 128 * high, n + 1))
  }

  lemma {:induction false} VarintRoundTrip(n: nat, rest: seq<byte>, i: nat)
    requires i < MAX_VARINT && n < Room(i)
    ensures Uvarint(Varint(n) + rest, i) == Some((n, |Varint(n)|))
    decreases n
  {
    if n >= 128 {
      var tail := Varint(n / 128);
      assert (Varint(n) + rest)[1..] == tail + rest;
      VarintRoundTrip(n / 128, rest, i + 1);
    }
  }

  /** More bytes behind a complete varint do not matter. */
  lemma {:induction false} UvarintPrefix(b: seq<byte>, rest: seq<byte>, i: nat)
    requires i <= MAX_VARINT && Uvarint(b, i).Some?
    ensures Uvarint(b + rest, i) == Uvarint(b, i)
    decreases |b|
  {
    if b[0] >= 128 {
      assert (b + rest)[1..] == b[1..] + rest;
      UvarintPrefix(b[1..], rest, i + 1);
    }
  }

  // ---------- fields ----------

  /** A field to print; a double is given by its 64 bits. */
  datatype Field = Number(tag: nat, n: nat) | Bytes(tag: nat, b: seq<byte>) | Double(tag: nat, bits: nat)

  predicate Printable(f: Field) {
    && 1 <= f.tag <= MAX_TAG
    && (match f case Number(_, n) => n < WORD case Bytes(_, b) => |b| < WORD case Double(_, bits) => bits < WORD)
  }

  function LittleEndian(n: nat, size: nat): (r: seq<byte>)
    ensures |r| == size
  {
    if size == 0 then [] else [n % 256] + LittleEndian(n / 256, size - 1)
  }

  function Print(f: Field): seq<byte> {
    match f
    case Number(tag, n) => Varint(8 * tag) + Varint(n)
    case Bytes(tag, b) => Varint(8 * tag + 2) + Varint(|b|) + b
    case Double(tag, bits) => Varint(8 * tag + 1) + LittleEndian(bits, 8)
  }

  function PrintAll(fields: seq<Field>): seq<byte> {
    if fields == [] then [] else Print(fields[0]) + PrintAll(fields[1..])
  }

  datatype Value = Value(wire: nat, b: seq<byte>, n: nat)

  /** The value of the field at the front, and how many bytes it took. */
  function ParseOne(b: seq<byte>): (r: Option<(nat, Value, nat)>)
    ensures r.Some? ==> 0 < r.value.2 <= |b|
  {
    match Uvarint(b, 0)
    case None => None
    case Some((key, n)) => WithKey(key / 8, n, ParseValue(key % 8, b[n..]))
  }

  /** The field whose key took `n` bytes, given its value and the bytes that took. */
  function WithKey(tag: nat, n: nat, value: Option<(Value, nat)>): (r: Option<(nat, Value, nat)>)
    ensures r.Some? ==> value.Some? && r.value.2 == n + value.value.1
  {
    if tag == 0 || tag > MAX_TAG then None
    else match value
      case None => None
      case Some((v, m)) => Some((tag, v, n + m))
  }

  function ParseValue(wire: nat, b: seq<byte>): (r: Option<(Value, nat)>)
    ensures r.Some? ==> r.value.1 <= |b|
  {
    if wire == 0 then
      match Uvarint(b, 0)
      case None => None
      case Some((n, k)) => Some((Value(0, [], n), k))
    else if wire == 1 then Take(1, b, 0, 8)
    else if wire == 5 then Take(5, b, 0, 4)
    else if wire == 2 then
      match Uvarint(b, 0)
      case None => None
      case Some((size, k)) => Take(2, b, k, size)
    else None
  }

  function Take(wire: nat, b: seq<byte>, from: nat, size: nat): (r: Option<(Value, nat)>)
    requires from <= |b|
    ensures r.Some? ==> r.value.1 <= |b|
  {
    if size > |b| - from then None else Some((Value(wire, b[from..from + size], 0), from + size))
  }

  /** Every field in order, or None if anything is malformed. */
  function Fields(b: seq<byte>): Option<seq<(nat, Value)>>
    decreases |b|
  {
    if b == [] then Some([])
    else match ParseOne(b)
      case None => None
      case Some((tag, v, n)) =>
        match Fields(b[n..])
        case None => None
        case Some(rest) => Some([(tag, v)] + rest)
  }

  /** The values of a tag in order. */
  function ValuesOf(fields: seq<(nat, Value)>, tag: nat): seq<Value> {
    if fields == [] then [] else
      var (t, v) := fields[|fields| - 1];
      ValuesOf(fields[..|fields| - 1], tag) + if t == tag then [v] else []
  }

  /** A parsed message: each tag that occurs, with its values in order. */
  ghost predicate Groups(p: map<nat, seq<Value>>, fields: seq<(nat, Value)>) {
    forall tag :: (if tag in p then p[tag] else []) == ValuesOf(fields, tag) && (tag in p ==> p[tag] != [])
  }

  // ---------- parse undoes print ----------

  function Meaning(f: Field): (nat, Value) {
    match f
    case Number(tag, n) => (tag, Value(0, [], n))
    case Bytes(tag, b) => (tag, Value(2, b, 0))
    case Double(tag, bits) => (tag, Value(1, LittleEndian(bits, 8), 0))
  }

  function Meanings(fields: seq<Field>): seq<(nat, Value)> {
    seq(|fields|, i requires 0 <= i < |fields| => Meaning(fields[i]))
  }

  function Wiretype(f: Field): nat {
    match f case Number(_, _) => 0 case Bytes(_, _) => 2 case Double(_, _) => 1
  }

  function Payload(f: Field): seq<byte> {
    match f
    case Number(_, n) => Varint(n)
    case Bytes(_, b) => Varint(|b|) + b
    case Double(_, bits) => LittleEndian(bits, 8)
  }

  lemma PayloadRoundTrip(f: Field, rest: seq<byte>)
    requires Printable(f)
    ensures ParseValue(Wiretype(f), Payload(f) + rest) == Some((Meaning(f).1, |Payload(f)|))
  {
    RoomIsAWord();
    match f
    case Number(_, n) => VarintRoundTrip(n, rest, 0);
    case Bytes(_, b) =>
      VarintRoundTrip(|b|, b + rest, 0);
      var all := Payload(f) + rest;
      assert all == Varint(|b|) + (b + rest);
      assert all[|Varint(|b|)|..|Varint(|b|)| + |b|] == b;
    case Double(_, bits) =>
      assert (LittleEndian(bits, 8) + rest)[0..8] == LittleEndian(bits, 8);
  }

  lemma KeyParts(key: nat, tag: nat, wire: nat)
    requires wire < 8 && key == 8 * tag + wire
    ensures key / 8 == tag && key % 8 == wire
  {
  }

  lemma ParseOneIs(b: seq<byte>, key: nat, n: nat)
    requires Uvarint(b, 0) == Some((key, n))
    ensures ParseOne(b) == WithKey(key / 8, n, ParseValue(key % 8, b[n..]))
  {
  }

  lemma TailIs(head: seq<byte>, tail: seq<byte>)
    ensures (head + tail)[|head|..] == tail
  {
  }

  lemma Shift3(a: seq<byte>, b: seq<byte>, c: seq<byte>, rest: seq<byte>)
    ensures a + b + rest == a + (b + rest) && a + b + c + rest == a + (b + c + rest)
    ensures |a + b + c| == |a| + |b + c| && |a + b| == |a| + |b|
  {
  }

  lemma PrintIs(f: Field, key: nat, rest: seq<byte>)
    requires key == 8 * f.tag + Wiretype(f)
    ensures Print(f) + rest == Varint(key) + (Payload(f) + rest)
    ensures |Print(f)| == |Varint(key)| + |Payload(f)|
  {
    match f
    case Number(tag, n) => Shift3(Varint(key), Varint(n), [], rest);
    case Bytes(tag, b) => Shift3(Varint(key), Varint(|b|), b, rest);
    case Double(tag, bits) => Shift3(Varint(key), LittleEndian(bits, 8), [], rest);
  }

  lemma KeyReadsBack(key: nat, tag: nat, wire: nat, tail: seq<byte>)
    requires 1 <= tag <= MAX_TAG && wire < 8 && key == 8 * tag + wire
    ensures ParseOne(Varint(key) + tail) == WithKey(tag, |Varint(key)|, ParseValue(wire, tail))
  {
    RoomIsAWord();
    VarintRoundTrip(key, tail, 0);
    KeyParts(key, tag, wire);
    TailIs(Varint(key), tail);
    ParseOneIs(Varint(key) + tail, key, |Varint(key)|);
  }

  lemma KeyAndPayload(tag: nat, wire: nat, key: nat, tail: seq<byte>, v: Value, m: nat)
    requires 1 <= tag <= MAX_TAG && wire < 8 && key == 8 * tag + wire && ParseValue(wire, tail) == Some((v, m))
    ensures ParseOne(Varint(key) + tail) == Some((tag, v, |Varint(key)| + m))
  {
    KeyReadsBack(key, tag, wire, tail);
  }

  lemma FieldRoundTrip(f: Field, rest: seq<byte>)
    requires Printable(f)
    ensures ParseOne(Print(f) + rest) == Some((f.tag, Meaning(f).1, |Print(f)|))
  {
    var key := 8 * f.tag + Wiretype(f);
    PrintIs(f, key, rest);
    PayloadRoundTrip(f, rest);
    KeyAndPayload(f.tag, Wiretype(f), key, Payload(f) + rest, Meaning(f).1, |Payload(f)|);
  }

  lemma FieldsStep(b: seq<byte>, rest: seq<byte>, tag: nat, v: Value, more: seq<(nat, Value)>)
    requires b != [] && ParseOne(b + rest) == Some((tag, v, |b|)) && Fields(rest) == Some(more)
    ensures Fields(b + rest) == Some([(tag, v)] + more)
  {
    assert (b + rest)[|b|..] == rest;
  }

  lemma FrontField(f: Field, rest: seq<byte>, more: seq<(nat, Value)>)
    requires Printable(f) && Fields(rest) == Some(more)
    ensures Fields(Print(f) + rest) == Some([(f.tag, Meaning(f).1)] + more)
  {
    FieldRoundTrip(f, rest);
    FieldsStep(Print(f), rest, f.tag, Meaning(f).1, more);
  }

  lemma MeaningsFirst(fields: seq<Field>)
    requires fields != []
    ensures Meanings(fields) == [(fields[0].tag, Meaning(fields[0]).1)] + Meanings(fields[1..])
  {
  }

  /** Parsing what was printed gives back every field in order, and nothing else. */
  lemma {:induction false} ParseUndoesPrint(fields: seq<Field>)
    requires forall i :: 0 <= i < |fields| ==> Printable(fields[i])
    ensures Fields(PrintAll(fields)) == Some(Meanings(fields))
    decreases |fields|
  {
    if fields == [] {
      assert Meanings(fields) == [];
    } else {
      var f, more := fields[0], fields[1..];
      ParseUndoesPrint(more);
      MeaningsFirst(fields);
      FrontField(f, PrintAll(more), Meanings(more));
    }
  }

  // ---------- concatenation ----------

  lemma TailPrefix(b: seq<byte>, rest: seq<byte>, n: nat)
    requires n <= |b|
    ensures (b + rest)[n..] == b[n..] + rest
  {
  }

  lemma ParseOnePrefix(b: seq<byte>, rest: seq<byte>)
    requires ParseOne(b).Some?
    ensures ParseOne(b + rest) == ParseOne(b)
  {
    UvarintPrefix(b, rest, 0);
    var (key, n) := Uvarint(b, 0).value;
    TailPrefix(b, rest, n);
    ParseValuePrefix(key % 8, b[n..], rest);
    ParseOneIs(b, key, n);
    ParseOneIs(b + rest, key, n);
  }

  lemma ParseValuePrefix(wire: nat, b: seq<byte>, rest: seq<byte>)
    requires ParseValue(wire, b).Some?
    ensures ParseValue(wire, b + rest) == ParseValue(wire, b)
  {
    if wire == 0 || wire == 2 { UvarintPrefix(b, rest, 0); }
    if wire == 1 {
      TakePrefix(1, b, rest, 0, 8);
    } else if wire == 5 {
      TakePrefix(5, b, rest, 0, 4);
    } else if wire == 2 {
      TakePrefix(2, b, rest, Uvarint(b, 0).value.1, Uvarint(b, 0).value.0);
    }
  }

  lemma TakePrefix(wire: nat, b: seq<byte>, rest: seq<byte>, from: nat, size: nat)
    requires from <= |b| && Take(wire, b, from, size).Some?
    ensures Take(wire, b + rest, from, size) == Take(wire, b, from, size)
  {
    assert (b + rest)[from..from + size] == b[from..from + size];
  }

  lemma ConcatStep(a: seq<byte>, b: seq<byte>)
    requires a != [] && Fields(a).Some? && Fields(b).Some?
    requires var n := ParseOne(a).value.2; Fields(a[n..] + b) == Some(Fields(a[n..]).value + Fields(b).value)
    ensures Fields(a + b) == Some(Fields(a).value + Fields(b).value)
  {
    var (tag, v, n) := ParseOne(a).value;
    ParseOnePrefix(a, b);
    TailPrefix(a, b, n);
    FieldsAre(a, tag, v, n, Fields(a[n..]).value);
    FieldsAre(a + b, tag, v, n, Fields(a[n..]).value + Fields(b).value);
    Associative([(tag, v)], Fields(a[n..]).value, Fields(b).value);
  }

  lemma FieldsAre(b: seq<byte>, tag: nat, v: Value, n: nat, more: seq<(nat, Value)>)
    requires b != [] && ParseOne(b) == Some((tag, v, n)) && Fields(b[n..]) == Some(more)
    ensures Fields(b) == Some([(tag, v)] + more)
  {
  }

  lemma Associative(x: seq<(nat, Value)>, y: seq<(nat, Value)>, z: seq<(nat, Value)>)
    ensures x + (y + z) == x + y + z && [] + z == z
  {
  }

  /** Two messages one behind the other parse as the one's fields followed by the other's. */
  lemma {:induction false} ParseConcat(a: seq<byte>, b: seq<byte>)
    requires Fields(a).Some? && Fields(b).Some?
    ensures Fields(a + b) == Some(Fields(a).value + Fields(b).value)
    decreases |a|
  {
    if a == [] {
      assert a + b == b;
      Associative([], [], Fields(b).value);
    } else {
      var n := ParseOne(a).value.2;
      ParseConcat(a[n..], b);
      ConcatStep(a, b);
    }
  }

  lemma {:induction false} ValuesAppend(x: seq<(nat, Value)>, y: seq<(nat, Value)>, tag: nat)
    ensures ValuesOf(x + y, tag) == ValuesOf(x, tag) + ValuesOf(y, tag)
    decreases |y|
  {
    if y == [] {
      assert x + y == x;
    } else {
      assert (x + y)[..|x + y| - 1] == x + y[..|y| - 1];
      ValuesAppend(x, y[..|y| - 1], tag);
    }
  }

  /** So the parsed map of a concatenation appends the two maps tag by tag. */
  lemma ConcatAppendsByTag(a: seq<byte>, b: seq<byte>, tag: nat)
    requires Fields(a).Some? && Fields(b).Some?
    ensures Fields(a + b).Some?
    ensures ValuesOf(Fields(a + b).value, tag) == ValuesOf(Fields(a).value, tag) + ValuesOf(Fields(b).value, tag)
  {
    ParseConcat(a, b);
    ValuesAppend(Fields(a).value, Fields(b).value, tag);
  }

  // ---------- the parser as it runs ----------

  /** Reads a varint from the front; 0 bytes taken means that it ran out or overflowed. */
  method ReadUvarint(b: seq<byte>) returns (x: nat, n: nat)
    ensures Uvarint(b, 0) == if n == 0 then None else Some((x, n))
  {
    x := 0;
    var scale: nat := 1;
    var i := 0;
    ghost var r := Uvarint(b, 0);
    assert b[0..] == b;
    while i < |b|
      invariant 0 <= i <= |b| && i <= MAX_VARINT
      invariant r == Shifted(Uvarint(b[i..], i), x, scale, i)
    {
      if i == MAX_VARINT {
        LastByte(b, x, scale, i);
        return 0, 0;
      }
      if b[i] < 128 {
        LastByte(b, x, scale, i);
        if i == MAX_VARINT - 1 && b[i] > 1 {
          x, n := 0, 0;
        } else {
          x, n := x + b[i] * scale, i + 1;
        }
        return;
      }
      NextByte(b, x, scale, i);
      x, scale, i := x + (b[i] - 128) * scale, scale * 128, i + 1;
    }
    LastByte(b, x, scale, i);
    return 0, 0;
  }

  /** A varint whose first `i` bytes came to `x`. */
  function Shifted(r: Option<(nat, nat)>, x: nat, scale: nat, i: nat): Option<(nat, nat)> {
    match r
    case None => None
    case Some((high, n)) => Some((x + high * scale, i + n))
  }

  lemma NextByte(b: seq<byte>, x: nat, scale: nat, i: nat)
    requires i < |b| && i < MAX_VARINT && b[i] >= 128
    ensures (b[i] - 128) * scale >= 0
    ensures Shifted(Uvarint(b[i..], i), x, scale, i)
        == Shifted(Uvarint(b[i + 1..], i + 1), x + (b[i] - 128) * scale, scale * 128, i + 1)
  {
    assert b[i..][1..] == b[i + 1..];
    ShiftMore(b[i] - 128, x, scale, i, Uvarint(b[i + 1..], i + 1));
  }

  lemma LastByte(b: seq<byte>, x: nat, scale: nat, i: nat)
    requires i <= |b| && i <= MAX_VARINT && (i < |b| && i < MAX_VARINT ==> b[i] < 128)
    ensures Shifted(Uvarint(b[i..], i), x, scale, i) ==
      if i == |b| || i == MAX_VARINT || (i == MAX_VARINT - 1 && b[i] > 1) then None else Some((x + b[i] * scale, i + 1))
  {
  }

  lemma ShiftMore(low: nat, x: nat, scale: nat, i: nat, r: Option<(nat, nat)>)
    ensures Shifted(match r case None => None case Some((high, n)) => Some((low + 128 * high, n + 1)), x, scale, i)
         == Shifted(r, x + low * scale, scale * 128, i + 1)
  {
    if r.Some? {
      var high := r.value.0;
      assert (low + 128 * high) * scale == low * scale + high * (scale * 128);
    }
  }

  /** The map a list of fields comes to. */
  function Grouped(fields: seq<(nat, Value)>): map<nat, seq<Value>> {
    if fields == [] then map[] else
      var p := Grouped(fields[..|fields| - 1]);
      var (tag, v) := fields[|fields| - 1];
      p[tag := (if tag in p then p[tag] else []) + [v]]
  }

  lemma {:induction false} GroupedGroups(fields: seq<(nat, Value)>)
    ensures Groups(Grouped(fields), fields)
    decreases |fields|
  {
    if fields != [] {
      GroupedGroups(fields[..|fields| - 1]);
    }
  }

  function Prepended(done: seq<(nat, Value)>, rest: Option<seq<(nat, Value)>>): Option<seq<(nat, Value)>> {
    match rest
    case None => None
    case Some(more) => Some(done + more)
  }

  lemma PrependNothing(done: seq<(nat, Value)>, rest: Option<seq<(nat, Value)>>)
    ensures Prepended([], rest) == rest && Prepended(done, Some([])) == Some(done)
  {
    if rest.Some? { assert [] + rest.value == rest.value; }
    assert done + [] == done;
  }

  /** Moving one parsed field from the bytes to the done list. */
  lemma PrependOne(done: seq<(nat, Value)>, b: seq<byte>)
    requires b != [] && ParseOne(b).Some?
    ensures var (tag, v, n) := ParseOne(b).value;
      Prepended(done, Fields(b)) == Prepended(done + [(tag, v)], Fields(b[n..]))
  {
    var (tag, v, n) := ParseOne(b).value;
    if Fields(b[n..]).Some? {
      assert done + ([(tag, v)] + Fields(b[n..]).value) == done + [(tag, v)] + Fields(b[n..]).value;
    }
  }

  lemma GroupedSnoc(done: seq<(nat, Value)>, tag: nat, v: Value)
    ensures var p := Grouped(done);
      Grouped(done + [(tag, v)]) == p[tag := (if tag in p then p[tag] else []) + [v]]
  {
    assert (done + [(tag, v)])[..|done|] == done;
  }

  /** One field from the front. */
  method ReadField(b: seq<byte>) returns (tag: nat, v: Value, n: nat, good: bool)
    ensures ParseOne(b) == if good then Some((tag, v, n)) else None
    ensures good ==> 0 < n <= |b|
  {
    tag, v, n, good := 0, Value(0, [], 0), 0, false;
    var key, k := ReadUvarint(b);
    if k == 0 || key / 8 == 0 || key / 8 > MAX_TAG {
      return;
    }
    tag := key / 8;
    var m;
    v, m, good := ReadValue(key % 8, b[k..]);
    n := k + m;
  }

  /** Consumes the bytes field by field, appending each value under its tag. */
  method Parse(bytes: seq<byte>) returns (p: map<nat, seq<Value>>, ok: bool)
    ensures ok == Fields(bytes).Some?
    ensures ok ==> p == Grouped(Fields(bytes).value)
  {
    p := map[];
    var b := bytes;
    ghost var done: seq<(nat, Value)> := [];
    PrependNothing([], Fields(bytes));
    while |b| > 0
      invariant p == Grouped(done)
      invariant Fields(bytes) == Prepended(done, Fields(b))
    {
      var tag, v, n, good := ReadField(b);
      if !good {
        return p, false;
      }
      PrependOne(done, b);
      GroupedSnoc(done, tag, v);
      p := p[tag := (if tag in p then p[tag] else []) + [v]];
      done := done + [(tag, v)];
      b := b[n..];
    }
    PrependNothing(done, None);
    return p, true;
  }

  method ReadValue(wire: nat, b: seq<byte>) returns (v: Value, m: nat, good: bool)
    ensures ParseValue(wire, b) == if good then Some((v, m)) else None
    ensures good ==> m <= |b|
  {
    v, m, good := Value(wire, [], 0), 0, false;
    match wire
    case 0 =>
      var x, n := ReadUvarint(b);
      v, m, good := Value(0, [], x), n, n > 0;
    case 1 =>
      good := 8 <= |b|;
      if good { v, m := Value(1, b[0..8], 0), 8; }
    case 5 =>
      good := 4 <= |b|;
      if good { v, m := Value(5, b[0..4], 0), 4; }
    case 2 =>
      var size, n := ReadUvarint(b);
      good := n > 0 && size <= |b| - n;
      if good { v, m := Value(2, b[n..n + size], 0), n + size; }
    case _ =>
  }

  /** The first value of a tag, when it is bytes; otherwise the empty string. */
  function Str(p: map<nat, seq<Value>>, tag: nat): seq<byte> {
    if tag in p && p[tag] != [] && p[tag][0].wire == 2 then p[tag][0].b else []
  }

  const MAX_INT64 := 0x7FFF_FFFF_FFFF_FFFF

  /** The first value of a tag, when it is a number that fits. */
  function Num(p: map<nat, seq<Value>>, tag: nat): Option<nat> {
    if tag in p && p[tag] != [] && p[tag][0].wire == 0 && p[tag][0].n <= MAX_INT64 then Some(p[tag][0].n) else None
  }

  /** Reading back what was printed: a field is found under its tag as long as no earlier field
      had the same tag. */
  lemma AccessorsReadBack(before: seq<Field>, f: Field, after: seq<Field>)
    requires forall i :: 0 <= i < |before + [f] + after| ==> Printable((before + [f] + after)[i])
    requires forall i :: 0 <= i < |before| ==> before[i].tag != f.tag
    ensures var p := Grouped(Meanings(before + [f] + after));
      && Fields(PrintAll(before + [f] + after)) == Some(Meanings(before + [f] + after))
      && (f.Bytes? ==> Str(p, f.tag) == f.b)
      && (f.Number? && f.n <= MAX_INT64 ==> Num(p, f.tag) == Some(f.n))
  {
    var all := before + [f] + after;
    ParseUndoesPrint(all);
    GroupedGroups(Meanings(all));
    FirstValue(before, f, after);
  }

  lemma FirstValue(before: seq<Field>, f: Field, after: seq<Field>)
    requires forall i :: 0 <= i < |before| ==> before[i].tag != f.tag
    ensures var vs := ValuesOf(Meanings(before + [f] + after), f.tag); vs != [] && vs[0] == Meaning(f).1
  {
    var all := before + [f] + after;
    assert Meanings(all) == Meanings(before) + [Meaning(f)] + Meanings(after);
    ValuesAppend(Meanings(before) + [Meaning(f)], Meanings(after), f.tag);
    ValuesAppend(Meanings(before), [Meaning(f)], f.tag);
    NoValues(before, f.tag);
    OneValue(f);
  }

  lemma OneValue(f: Field)
    ensures ValuesOf([Meaning(f)], f.tag) == [Meaning(f).1]
  {
    assert [Meaning(f)][..0] == [];
  }

  lemma {:induction false} NoValues(fields: seq<Field>, tag: nat)
    requires forall i :: 0 <= i < |fields| ==> fields[i].tag != tag
    ensures ValuesOf(Meanings(fields), tag) == []
    decreases |fields|
  {
    if fields != [] {
      NoValues(fields[..|fields| - 1], tag);
      assert Meanings(fields)[..|fields| - 1] == Meanings(fields[..|fields| - 1]);
    }
  }
}
