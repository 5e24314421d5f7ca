/** Short strings, long strings and field tables (section 4.2.5.5 of AMQP 0-9-1): the
    reference codec, as functions of the values and of the buffer. */
module FieldTables {
  import opened Results
  import opened Octets

  const CEILING: nat := 131072
  const DEFAULT_MAX_TABLE_DEPTH: nat := 32

  type Raw8 = s: octets | |s| == 8 witness [0, 0, 0, 0, 0, 0, 0, 0]
  type Raw4 = s: octets | |s| == 4 witness [0, 0, 0, 0]

  /** A field value.  Text is its octets, a double its eight octets.  A table is a Python
      dict: its entries in insertion order. */
  datatype FieldValue =
    | Void
    | Bool(b: bool)
    | Int(i: int)
    | Double(double: Raw8)
    | Single(single: Raw4)
    | Str(text: octets)
    | Bytes(bytes: octets)
    | Decimal(scale: int, unscaled: int)
    | Dict(entries: seq<Entry>)
    | Array(items: seq<FieldValue>)

  datatype Entry = Entry(key: octets, value: FieldValue)

  const TAG_VOID: octet := 'V' as int
  const TAG_BOOL: octet := 't' as int
  const TAG_INT8: octet := 'b' as int
  const TAG_UINT8: octet := 'B' as int
  const TAG_UINT16: octet := 'U' as int
  const TAG_INT16: octet := 'u' as int
  const TAG_UINT32: octet := 'i' as int
  const TAG_INT32: octet := 'I' as int
  const TAG_UINT64: octet := 'l' as int
  const TAG_INT64: octet := 'L' as int
  const TAG_SINGLE: octet := 'f' as int
  const TAG_DOUBLE: octet := 'd' as int
  const TAG_DECIMAL: octet := 'D' as int
  const TAG_TIMESTAMP: octet := 'T' as int
  const TAG_SHORTSTR: octet := 's' as int
  const TAG_LONGSTR: octet := 'S' as int
  const TAG_BYTES: octet := 'x' as int
  const TAG_TABLE: octet := 'F' as int
  const TAG_ARRAY: octet := 'A' as int

  // ---------------------------------------------------------------- strings

  function EncodeShortstr(text: octets): (r: Result<octets>)
    ensures r.Ok? ==> r.value == [|text|] + text
  {
    if !ValidUtf8(text) then Err(NotUtf8)
    else if |text| > 255 then Err(StringTooLong)
    else Ok([|text|] + text)
  }

  function DecodeShortstr(data: octets, pos: nat): (r: Result<(octets, nat)>)
    ensures r.Ok? ==> pos < r.value.1 <= |data|
  {
    if pos >= |data| then Err(Truncated) else
    var end := pos + 1 + data[pos];
    if end > |data| then Err(Truncated)
    else if !ValidUtf8(data[pos + 1..end]) then Err(NotUtf8)
    else Ok((data[pos + 1..end], end))
  }

  /** Octets behind their count in four octets: long strings, and the blocks of tables and
      arrays alike. */
  function EncodeLongstr(bytes: octets): (r: Result<octets>)
    ensures r.Ok? ==> |r.value| == 4 + |bytes|
    ensures r.Ok? <==> |bytes| < 0x1_0000_0000
  {
    PowersOf256();
    var length :- ToBytes(|bytes|, 4);
    Ok(length + bytes)
  }

  function DecodeLongstr(data: octets, pos: nat): (r: Result<(octets, nat)>)
    ensures r.Ok? ==> pos < r.value.1 <= |data|
  {
    if pos + 4 > |data| then Err(Truncated) else
    var n := FromBigEndian(data[pos..pos + 4]);
    if n > CEILING then Err(CeilingExceeded)
    else if pos + 4 + n > |data| then Err(Truncated)
    else Ok((data[pos + 4..pos + 4 + n], pos + 4 + n))
  }

  lemma ShortstrRoundTrip(text: octets, data: octets, pos: nat)
    requires EncodeShortstr(text).Ok? && At(data, pos, EncodeShortstr(text).value)
    ensures DecodeShortstr(data, pos) == Ok((text, pos + 1 + |text|))
  {
    AtSplit(data, pos, [|text|], text);
  }

  lemma LengthPrefix(n: nat, body: octets, data: octets, pos: nat)
    requires n < 0x1_0000_0000 && At(data, pos, BigEndian(n, 4) + body)
    ensures pos + 4 + |body| <= |data| && FromBigEndian(data[pos..pos + 4]) == n
    ensures At(data, pos + 4, body)
  {
    AtSplit(data, pos, BigEndian(n, 4), body);
    PowersOf256();
    BigEndianRoundTrip(n, 4);
  }

  lemma LongstrRoundTrip(bytes: octets, data: octets, pos: nat)
    requires EncodeLongstr(bytes).Ok? && At(data, pos, EncodeLongstr(bytes).value)
    ensures DecodeLongstr(data, pos)
         == if |bytes| <= CEILING then Ok((bytes, pos + 4 + |bytes|)) else Err(CeilingExceeded)
  {
    PowersOf256();
    LengthPrefix(|bytes|, bytes, data, pos);
  }

  /** The short-string decoder, exactly: it returns a text iff what is there is what the
      encoder makes of that text, and it uses exactly those octets. */
  lemma ShortstrInverse(data: octets, pos: nat, text: octets, end: nat)
    ensures DecodeShortstr(data, pos) == Ok((text, end))
       <==> EncodeShortstr(text).Ok? && At(data, pos, EncodeShortstr(text).value) && end == pos + 1 + |text|
  {
    hide ValidUtf8;
    if DecodeShortstr(data, pos) == Ok((text, end)) {
      assert data[pos..end] == [data[pos]] + data[pos + 1..end];
    }
    if EncodeShortstr(text).Ok? && At(data, pos, EncodeShortstr(text).value) {
      ShortstrRoundTrip(text, data, pos);
    }
  }

  /** The same for long strings, up to the ceiling. */
  lemma LongstrInverse(data: octets, pos: nat, bytes: octets, end: nat)
    ensures DecodeLongstr(data, pos) == Ok((bytes, end))
       <==> |bytes| <= CEILING && At(data, pos, EncodeLongstr(bytes).value) && end == pos + 4 + |bytes|
  {
    PowersOf256();
    hide FromBigEndian, BigEndian, Pow256;
    if DecodeLongstr(data, pos) == Ok((bytes, end)) {
      FromBigEndianRoundTrip(data[pos..pos + 4]);
      assert data[pos..end] == data[pos..pos + 4] + data[pos + 4..end];
    }
    if |bytes| <= CEILING && At(data, pos, EncodeLongstr(bytes).value) {
      LongstrRoundTrip(bytes, data, pos);
    }
  }

  // ---------------------------------------------------------------- encoding

  function Tagged(tag: octet, r: Result<octets>): Result<octets> {
    var s :- r;
    Ok([tag] + s)
  }

  function EncodeValue(v: FieldValue, depth: nat, maxDepth: nat): (r: Result<octets>)
    ensures r.Ok? ==> 0 < |r.value|
    decreases v, 1
  {
    if depth > maxDepth then Err(DepthExceeded) else
    match v
    case Dict(entries) => Tagged(TAG_TABLE, EncodeTable(entries, depth + 1, maxDepth))
    case Array(items) =>
      var parts :- EncodeItems(items, depth + 1, maxDepth);
      if |parts| > CEILING then Err(CeilingExceeded) else Tagged(TAG_ARRAY, EncodeLongstr(parts))
    case _ => EncodeScalar(v)
  }

  /** Everything but tables and arrays. */
  function EncodeScalar(v: FieldValue): (r: Result<octets>)
    requires !v.Dict? && !v.Array?
    ensures r.Ok? ==> 0 < |r.value|
  {
    match v
    case Void => Ok([TAG_VOID])
    case Bool(b) => Ok([TAG_BOOL, if b then 1 else 0])
    case Int(i) =>
      if -0x8000_0000 <= i <= 0x7FFF_FFFF
      then Tagged(TAG_INT32, ToBytesSigned(i, 4))
      else Tagged(TAG_INT64, ToBytesSigned(i, 8))
    case Double(raw) => Ok([TAG_DOUBLE] + raw)
    case Single(_) => Err(WrongType)
    case Str(text) => if ValidUtf8(text) then Tagged(TAG_LONGSTR, EncodeLongstr(text)) else Err(NotUtf8)
    case Bytes(bytes) => Tagged(TAG_BYTES, EncodeLongstr(bytes))
    case Decimal(scale, unscaled) => Tagged(TAG_DECIMAL, EncodeDecimal(scale, unscaled))
  }

  function EncodeDecimal(scale: int, unscaled: int): (r: Result<octets>)
    ensures r.Ok? ==> |r.value| == 5
  {
    var value :- ToBytesSigned(unscaled, 4);
    Ok([scale % 256] + value)
  }

  function EncodeTable(entries: seq<Entry>, depth: nat, maxDepth: nat): (r: Result<octets>)
    ensures r.Ok? ==> 4 <= |r.value|
    decreases entries, 1
  {
    if depth > maxDepth then Err(DepthExceeded) else
    var parts :- EncodeEntries(entries, depth, maxDepth);
    EncodeLongstr(parts)
  }

  /** The octets of a run of table entries.  Values sit at their table's own depth. */
  function EncodeEntries(entries: seq<Entry>, depth: nat, maxDepth: nat): Result<octets>
    decreases entries, 0
  {
    if entries == [] then Ok([]) else
    var key :- EncodeShortstr(entries[0].key);
    var value :- EncodeValue(entries[0].value, depth, maxDepth);
    var rest :- EncodeEntries(entries[1..], depth, maxDepth);
    Ok(key + value + rest)
  }

  function EncodeItems(items: seq<FieldValue>, depth: nat, maxDepth: nat): Result<octets>
    decreases items, 0
  {
    if items == [] then Ok([]) else
    var value :- EncodeValue(items[0], depth, maxDepth);
    var rest :- EncodeItems(items[1..], depth, maxDepth);
    Ok(value + rest)
  }

  // ---------------------------------------------------------------- decoding

  predicate HasKey(entries: seq<Entry>, key: octets) {
    entries != [] && (entries[0].key == key || HasKey(entries[1..], key))
  }

  predicate KeysDistinct(entries: seq<Entry>) {
    entries != [] ==> !HasKey(entries[1..], entries[0].key) && KeysDistinct(entries[1..])
  }

  /** `result[key] = value` on a Python dict: replace in place, or append. */
  function DictSet(entries: seq<Entry>, key: octets, value: FieldValue): seq<Entry> {
    if entries == [] then [Entry(key, value)]
    else if entries[0].key == key then [Entry(key, value)] + entries[1..]
    else [entries[0]] + DictSet(entries[1..], key, value)
  }

  lemma {:induction false} DictSetKeys(entries: seq<Entry>, key: octets, value: FieldValue, k: octets)
    ensures HasKey(DictSet(entries, key, value), k) <==> k == key || HasKey(entries, k)
  {
    if entries != [] && entries[0].key != key {
      DictSetKeys(entries[1..], key, value, k);
      assert DictSet(entries, key, value)[1..] == DictSet(entries[1..], key, value);
    }
  }

  lemma {:induction false} DictSetDistinct(entries: seq<Entry>, key: octets, value: FieldValue)
    requires KeysDistinct(entries)
    ensures KeysDistinct(DictSet(entries, key, value))
  {
    if entries != [] && entries[0].key != key {
      DictSetDistinct(entries[1..], key, value);
      DictSetKeys(entries[1..], key, value, entries[0].key);
      assert DictSet(entries, key, value)[1..] == DictSet(entries[1..], key, value);
    }
  }

  lemma {:induction false} DictSetFresh(entries: seq<Entry>, key: octets, value: FieldValue)
    requires !HasKey(entries, key)
    ensures DictSet(entries, key, value) == entries + [Entry(key, value)]
  {
    if entries != [] {
      DictSetFresh(entries[1..], key, value);
    }
  }

  /** The value under a key, if there is one. */
  function Lookup(entries: seq<Entry>, key: octets): Option<FieldValue> {
    if entries == [] then None
    else if entries[0].key == key then Some(entries[0].value) else Lookup(entries[1..], key)
  }

  /** The last value set under a key is the one it has, every other key keeps its own, and no
      key changes its place. */
  lemma {:induction false} DictSetLookup(entries: seq<Entry>, key: octets, value: FieldValue, k: octets, i: nat)
    ensures Lookup(DictSet(entries, key, value), k) == if k == key then Some(value) else Lookup(entries, k)
    ensures |DictSet(entries, key, value)| == |entries| + if HasKey(entries, key) then 0 else 1
    ensures i < |entries| ==> DictSet(entries, key, value)[i].key == entries[i].key
  {
    if entries != [] && entries[0].key != key {
      DictSetLookup(entries[1..], key, value, k, if i > 0 then i - 1 else 0);
      assert DictSet(entries, key, value)[1..] == DictSet(entries[1..], key, value);
    }
  }

  /** A value of fixed width `n` after a type tag. */
  predicate Has(data: octets, pos: nat, n: nat) {
    pos + n <= |data|
  }

  /** The scalar tags: everything but tables and arrays. */
  function DecodeScalar(tag: octet, data: octets, pos: nat): (r: Result<(FieldValue, nat)>)
    requires pos <= |data|
    ensures r.Ok? ==> pos <= r.value.1 <= |data|
  {
    if tag == TAG_VOID then Ok((Void, pos))
    else if tag == TAG_BOOL then
      if Has(data, pos, 1) then Ok((Bool(data[pos] != 0), pos + 1)) else Err(Truncated)
    else if tag == TAG_INT8 then DecodeInt(data, pos, 1, true)
    else if tag == TAG_UINT8 then DecodeInt(data, pos, 1, false)
    else if tag == TAG_UINT16 then DecodeInt(data, pos, 2, false)
    else if tag == TAG_INT16 then DecodeInt(data, pos, 2, true)
    else if tag == TAG_UINT32 then DecodeInt(data, pos, 4, false)
    else if tag == TAG_INT32 then DecodeInt(data, pos, 4, true)
    else if tag == TAG_UINT64 then DecodeInt(data, pos, 8, false)
    else if tag == TAG_INT64 then DecodeInt(data, pos, 8, true)
    else if tag == TAG_SINGLE then
      if Has(data, pos, 4) then Ok((Single(data[pos..pos + 4]), pos + 4)) else Err(Truncated)
    else if tag == TAG_DOUBLE then
      if Has(data, pos, 8) then Ok((Double(data[pos..pos + 8]), pos + 8)) else Err(Truncated)
    else if tag == TAG_DECIMAL then
      if Has(data, pos, 5)
      then Ok((Decimal(data[pos], FromBigEndianSigned(data[pos + 1..pos + 5])), pos + 5))
      else Err(Truncated)
    else if tag == TAG_TIMESTAMP then DecodeInt(data, pos, 8, false)
    else if tag == TAG_SHORTSTR then
      var (text, end) :- DecodeShortstr(data, pos);
      Ok((Str(text), end))
    else if tag == TAG_LONGSTR then
      var (text, end) :- DecodeLongstr(data, pos);
      if ValidUtf8(text) then Ok((Str(text), end)) else Err(NotUtf8)
    else if tag == TAG_BYTES then
      var (bytes, end) :- DecodeLongstr(data, pos);
      Ok((Bytes(bytes), end))
    else Err(UnsupportedTag)
  }

  function DecodeInt(data: octets, pos: nat, n: nat, signed: bool): (r: Result<(FieldValue, nat)>)
    ensures r.Ok? ==> r.value.1 == pos + n <= |data|
  {
    if !Has(data, pos, n) then Err(Truncated)
    else if signed then Ok((Int(FromBigEndianSigned(data[pos..pos + n])), pos + n))
    else Ok((Int(FromBigEndian(data[pos..pos + n])), pos + n))
  }

  /** Depth left before the budget is spent. */
  function Budget(depth: nat, maxDepth: nat): nat {
    if depth > maxDepth then 0 else maxDepth + 1 - depth
  }

  /** Decoding is total: it terminates on every octet string, because every nested call
      spends depth or octets, and on success it ends past its start and within the buffer. */
  function DecodeValue(data: octets, pos: nat, depth: nat, maxDepth: nat): (r: Result<(FieldValue, nat)>)
    ensures r.Ok? ==> pos < r.value.1 <= |data| && depth <= maxDepth
    decreases Budget(depth, maxDepth), |data| - pos, 2
  {
    if depth > maxDepth then Err(DepthExceeded)
    else if pos >= |data| then Err(Truncated)
    else if data[pos] == TAG_TABLE then
      var (entries, end) :- DecodeTable(data, pos + 1, depth + 1, maxDepth);
      Ok((Dict(entries), end))
    else if data[pos] == TAG_ARRAY then
      var end :- BlockEnd(data, pos + 1);
      var items :- DecodeItems(data, pos + 5, end, depth, maxDepth, []);
      Ok((Array(items), end))
    else DecodeScalar(data[pos], data, pos + 1)
  }

  function DecodeTable(data: octets, pos: nat, depth: nat, maxDepth: nat): (r: Result<(seq<Entry>, nat)>)
    ensures r.Ok? ==> pos < r.value.1 <= |data| && depth <= maxDepth && KeysDistinct(r.value.0)
    decreases Budget(depth, maxDepth), |data| - pos, 1
  {
    if depth > maxDepth then Err(DepthExceeded) else
    var end :- BlockEnd(data, pos);
    var entries :- DecodeEntries(data, pos + 4, end, depth, maxDepth, []);
    Ok((entries, end))
  }

  /** The end of a length-prefixed block, which must lie under the ceiling and in the buffer. */
  function BlockEnd(data: octets, pos: nat): (r: Result<nat>)
    ensures r.Ok? ==> pos + 4 <= r.value <= |data|
  {
    if pos + 4 > |data| then Err(Truncated) else
    var n := FromBigEndian(data[pos..pos + 4]);
    if n > CEILING then Err(CeilingExceeded)
    else if pos + 4 + n > |data| then Err(Truncated)
    else Ok(pos + 4 + n)
  }

  /** The entries from `pos` on, added to `acc`.  The last entry may run past `end`. */
  function DecodeEntries(data: octets, pos: nat, end: nat, depth: nat, maxDepth: nat, acc: seq<Entry>)
    : (r: Result<seq<Entry>>)
    requires end <= |data| && depth <= maxDepth
    ensures r.Ok? && KeysDistinct(acc) ==> KeysDistinct(r.value)
    decreases Budget(depth, maxDepth), |data| - pos, 0
  {
    if pos >= end then Ok(acc) else
    var (key, next) :- DecodeShortstr(data, pos);
    var (value, next') :- DecodeValue(data, next, depth + 1, maxDepth);
    assert KeysDistinct(acc) ==> KeysDistinct(DictSet(acc, key, value)) by {
      if KeysDistinct(acc) {
        DictSetDistinct(acc, key, value);
      }
    }
    DecodeEntries(data, next', end, depth, maxDepth, DictSet(acc, key, value))
  }

  function DecodeItems(data: octets, pos: nat, end: nat, depth: nat, maxDepth: nat, acc: seq<FieldValue>)
    : Result<seq<FieldValue>>
    requires end <= |data| && depth <= maxDepth
    decreases Budget(depth, maxDepth), |data| - pos, 0
  {
    if pos >= end then Ok(acc) else
    var (value, next) :- DecodeValue(data, pos, depth + 1, maxDepth);
    DecodeItems(data, next, end, depth, maxDepth, acc + [value])
  }
}
