/** What the field-table codec promises: encoded tables decode to themselves inside any
    surrounding octets, exactly when the ceiling and the decoder's depth budget allow. */
module FieldTableProofs {
  import opened Results
  import opened Octets
  import opened FieldTables

  /** How deep a value nests.  Entering a table from a value costs one level in both
      directions; going on to a table's values costs `step` more, which is 0 for the
      encoder and 1 for the decoder.  Array items cost one level in both. */
  function Nesting(v: FieldValue, step: nat): nat
    decreases v, 1
  {
    match v
    case Dict(entries) => 1 + NestingOfEntries(entries, step)
    case Array(items) => NestingOfItems(items, step)
    case _ => 0
  }

  function NestingOfEntries(entries: seq<Entry>, step: nat): nat
    decreases entries, 0
  {
    if entries == [] then 0
    else Max(step + Nesting(entries[0].value, step), NestingOfEntries(entries[1..], step))
  }

  function NestingOfItems(items: seq<FieldValue>, step: nat): nat
    decreases items, 0
  {
    if items == [] then 0
    else Max(1 + Nesting(items[0], step), NestingOfItems(items[1..], step))
  }

  function Max(a: nat, b: nat): nat {
    if a < b then b else a
  }

  /** Every table in the value is a dict: its keys are distinct. */
  predicate IsPython(v: FieldValue)
    decreases v, 1
  {
    match v
    case Dict(entries) => KeysDistinct(entries) && ArePythonEntries(entries)
    case Array(items) => ArePythonItems(items)
    case _ => true
  }

  predicate ArePythonEntries(entries: seq<Entry>)
    decreases entries, 0
  {
    entries == [] || (IsPython(entries[0].value) && ArePythonEntries(entries[1..]))
  }

  predicate ArePythonItems(items: seq<FieldValue>)
    decreases items, 0
  {
    items == [] || (IsPython(items[0]) && ArePythonItems(items[1..]))
  }

  /** The value a decoder gives back: the same, except that the encoder keeps only the low
      octet of a decimal's scale. */
  function AsSent(v: FieldValue): FieldValue
    decreases v, 1
  {
    match v
    case Decimal(scale, unscaled) => Decimal(scale % 256, unscaled)
    case Dict(entries) => Dict(EntriesAsSent(entries))
    case Array(items) => Array(ItemsAsSent(items))
    case _ => v
  }

  function EntriesAsSent(entries: seq<Entry>): seq<Entry>
    decreases entries, 0
  {
    if entries == [] then []
    else [Entry(entries[0].key, AsSent(entries[0].value))] + EntriesAsSent(entries[1..])
  }

  function ItemsAsSent(items: seq<FieldValue>): seq<FieldValue>
    decreases items, 0
  {
    if items == [] then [] else [AsSent(items[0])] + ItemsAsSent(items[1..])
  }

  // ---------------------------------------------------------------- the encoder's depth

  /** The encoder raises for depth exactly as `Nesting(_, 0)` says, whatever else it may
      raise for first. */
  lemma {:induction false} EncoderDepth(v: FieldValue, depth: nat, maxDepth: nat)
    ensures depth + Nesting(v, 0) <= maxDepth ==> EncodeValue(v, depth, maxDepth) != Err(DepthExceeded)
    ensures EncodeValue(v, depth, maxDepth).Ok? ==> depth + Nesting(v, 0) <= maxDepth
    decreases v, 1
  {
    match v
    case Dict(entries) =>
      EncoderDepthOfEntries(entries, depth + 1, maxDepth);
      assert EncodeTable(entries, depth + 1, maxDepth).Ok? ==> EncodeEntries(entries, depth + 1, maxDepth).Ok?;
    case Array(items) => EncoderDepthOfItems(items, depth, maxDepth);
    case _ =>
  }

  lemma {:induction false} EncoderDepthOfEntries(entries: seq<Entry>, depth: nat, maxDepth: nat)
    ensures depth + NestingOfEntries(entries, 0) <= maxDepth
        ==> EncodeEntries(entries, depth, maxDepth) != Err(DepthExceeded)
    ensures EncodeEntries(entries, depth, maxDepth).Ok? && depth <= maxDepth
        ==> depth + NestingOfEntries(entries, 0) <= maxDepth
    decreases entries, 0
  {
    if entries != [] {
      EncoderDepth(entries[0].value, depth, maxDepth);
      EncoderDepthOfEntries(entries[1..], depth, maxDepth);
    }
  }

  lemma {:induction false} EncoderDepthOfItems(items: seq<FieldValue>, depth: nat, maxDepth: nat)
    ensures depth + NestingOfItems(items, 0) <= maxDepth
        ==> EncodeItems(items, depth + 1, maxDepth) != Err(DepthExceeded)
    ensures EncodeItems(items, depth + 1, maxDepth).Ok? && depth <= maxDepth
        ==> depth + NestingOfItems(items, 0) <= maxDepth
    decreases items, 0
  {
    if items != [] {
      EncoderDepth(items[0], depth + 1, maxDepth);
      EncoderDepthOfItems(items[1..], depth, maxDepth);
    }
  }

  // ---------------------------------------------------------------- round trip

  lemma IntRoundTrip(i: int, s: octets, data: octets, pos: nat)
    requires EncodeScalar(Int(i)) == Ok(s) && At(data, pos, s)
    ensures DecodeScalar(s[0], data, pos + 1) == Ok((Int(i), pos + |s|))
  {
    var w := if -0x8000_0000 <= i <= 0x7FFF_FFFF then 4 else 8;
    SignedRoundTrip(i, w);
    TagAt(s[0], ToBytesSigned(i, w).value, data, pos);
  }

  lemma DecimalRoundTrip(scale: int, unscaled: int, s: octets, data: octets, pos: nat)
    requires EncodeDecimal(scale, unscaled) == Ok(s) && At(data, pos, s)
    ensures DecodeScalar(TAG_DECIMAL, data, pos) == Ok((Decimal(scale % 256, unscaled), pos + 5))
  {
    SignedRoundTrip(unscaled, 4);
    TagAt(scale % 256, ToBytesSigned(unscaled, 4).value, data, pos);
  }

  lemma ScalarRoundTrip(v: FieldValue, s: octets, data: octets, pos: nat)
    requires !v.Dict? && !v.Array? && |s| <= CEILING
    requires EncodeScalar(v) == Ok(s) && At(data, pos, s)
    ensures s[0] != TAG_TABLE && s[0] != TAG_ARRAY && pos < |data| && data[pos] == s[0]
    ensures DecodeScalar(s[0], data, pos + 1) == Ok((AsSent(v), pos + |s|))
  {
    hide ValidUtf8, BigEndian, FromBigEndian;
    assert s == [s[0]] + s[1..];
    TagAt(s[0], s[1..], data, pos);
    match v
    case Int(i) => IntRoundTrip(i, s, data, pos);
    case Double(raw) => assert s[1..] == raw;
    case Str(text) => LongstrRoundTrip(text, data, pos + 1);
    case Bytes(bytes) => LongstrRoundTrip(bytes, data, pos + 1);
    case Decimal(scale, unscaled) => DecimalRoundTrip(scale, unscaled, s[1..], data, pos + 1);
    case _ =>
  }

  /** A decoded value is the encoded one, and ends where it ended, if the decoder's budget
      covers its nesting; otherwise the decoder rejects it for depth and nothing else.
      Every ceiling inside follows from the one on the whole. */
  lemma {:induction false} ValueRoundTrip(v: FieldValue, depth: nat, maxDepth: nat, s: octets,
                                          data: octets, pos: nat, d: nat, dMax: nat)
    requires IsPython(v) && |s| <= CEILING
    requires EncodeValue(v, depth, maxDepth) == Ok(s) && At(data, pos, s)
    ensures DecodeValue(data, pos, d, dMax)
         == if d + Nesting(v, 1) <= dMax then Ok((AsSent(v), pos + |s|)) else Err(DepthExceeded)
    decreases v, 1
  {
    hide EncodeScalar, DecodeScalar, At;
    match v
    case Dict(entries) =>
      var table := EncodeTable(entries, depth + 1, maxDepth).value;
      TagAt(TAG_TABLE, table, data, pos);
      TableRoundTrip(entries, depth + 1, maxDepth, table, data, pos + 1, d + 1, dMax);
    case Array(items) =>
      ArrayRoundTrip(items, depth, maxDepth, s, data, pos, d, dMax);
    case _ =>
      ScalarRoundTrip(v, s, data, pos);
      ScalarDecoded(data, pos, d, dMax);
  }

  // One unfolding of each codec function, so that the inductions below stay small.

  lemma BlockAt(body: octets, data: octets, pos: nat)
    requires |body| <= CEILING && At(data, pos, BigEndian(|body|, 4) + body)
    ensures BlockEnd(data, pos) == Ok(pos + 4 + |body|) && At(data, pos + 4, body)
  {
    hide At, FromBigEndian, BigEndian;
    LengthPrefix(|body|, body, data, pos);
  }

  lemma ArrayEncoded(items: seq<FieldValue>, depth: nat, maxDepth: nat, s: octets, data: octets, pos: nat)
    requires EncodeValue(Array(items), depth, maxDepth) == Ok(s) && At(data, pos, s) && |s| <= CEILING
    ensures EncodeItems(items, depth + 1, maxDepth).Ok?
    ensures var parts := EncodeItems(items, depth + 1, maxDepth).value;
      |s| == 5 + |parts| && At(data, pos + 5, parts)
    ensures data[pos] == TAG_ARRAY && BlockEnd(data, pos + 1) == Ok(pos + |s|)
  {
    PowersOf256();
    var parts := EncodeItems(items, depth + 1, maxDepth).value;
    assert s == [TAG_ARRAY] + (BigEndian(|parts|, 4) + parts);
    AtSplit(data, pos, [TAG_ARRAY], BigEndian(|parts|, 4) + parts);
    BlockAt(parts, data, pos + 1);
    assert data[pos] == s[0];
  }

  lemma TagAt(tag: octet, s: octets, data: octets, pos: nat)
    requires At(data, pos, [tag] + s)
    ensures pos < |data| && data[pos] == tag && At(data, pos + 1, s)
  {
    AtSplit(data, pos, [tag], s);
    assert data[pos] == ([tag] + s)[0];
  }

  lemma ScalarDecoded(data: octets, pos: nat, d: nat, dMax: nat)
    requires pos < |data| && data[pos] != TAG_TABLE && data[pos] != TAG_ARRAY
    ensures DecodeValue(data, pos, d, dMax)
         == if d <= dMax then DecodeScalar(data[pos], data, pos + 1) else Err(DepthExceeded)
  {}

  lemma ArrayDecoded(data: octets, pos: nat, end: nat, d: nat, dMax: nat)
    requires pos < |data| && data[pos] == TAG_ARRAY && BlockEnd(data, pos + 1) == Ok(end)
    ensures d > dMax ==> DecodeValue(data, pos, d, dMax) == Err(DepthExceeded)
    ensures d <= dMax ==> var r := DecodeItems(data, pos + 5, end, d, dMax, []);
      DecodeValue(data, pos, d, dMax) == if r.Ok? then Ok((Array(r.value), end)) else Err(r.error)
  {}

  lemma EntryEncoded(entries: seq<Entry>, depth: nat, maxDepth: nat, s: octets, data: octets, pos: nat)
    requires entries != [] && EncodeEntries(entries, depth, maxDepth) == Ok(s) && At(data, pos, s)
    ensures EncodeShortstr(entries[0].key).Ok? && At(data, pos, EncodeShortstr(entries[0].key).value)
    ensures EncodeValue(entries[0].value, depth, maxDepth).Ok?
    ensures EncodeEntries(entries[1..], depth, maxDepth).Ok?
    ensures var (key, value, rest) := (EncodeShortstr(entries[0].key).value,
        EncodeValue(entries[0].value, depth, maxDepth).value, EncodeEntries(entries[1..], depth, maxDepth).value);
      && |s| == |key| + |value| + |rest| && |key| == 1 + |entries[0].key|
      && At(data, pos + |key|, value) && At(data, pos + |key| + |value|, rest)
  {
    var (key, value, rest) := (EncodeShortstr(entries[0].key).value,
      EncodeValue(entries[0].value, depth, maxDepth).value, EncodeEntries(entries[1..], depth, maxDepth).value);
    AtSplit(data, pos, key + value, rest);
    AtSplit(data, pos, key, value);
  }

  lemma ItemEncoded(items: seq<FieldValue>, depth: nat, maxDepth: nat, s: octets, data: octets, pos: nat)
    requires items != [] && EncodeItems(items, depth, maxDepth) == Ok(s) && At(data, pos, s)
    ensures EncodeValue(items[0], depth, maxDepth).Ok? && EncodeItems(items[1..], depth, maxDepth).Ok?
    ensures var (value, rest) := (EncodeValue(items[0], depth, maxDepth).value,
        EncodeItems(items[1..], depth, maxDepth).value);
      |s| == |value| + |rest| && At(data, pos, value) && At(data, pos + |value|, rest)
  {
    AtSplit(data, pos, EncodeValue(items[0], depth, maxDepth).value, EncodeItems(items[1..], depth, maxDepth).value);
  }

  lemma ItemDecoded(items: seq<FieldValue>, data: octets, pos: nat, mid: nat, end: nat, d: nat, dMax: nat,
                    acc: seq<FieldValue>)
    requires items != [] && pos < mid <= end <= |data| && d <= dMax
    requires DecodeValue(data, pos, d + 1, dMax)
          == if d + 1 + Nesting(items[0], 1) <= dMax then Ok((AsSent(items[0]), mid)) else Err(DepthExceeded)
    requires DecodeItems(data, mid, end, d, dMax, acc + [AsSent(items[0])])
          == if d + NestingOfItems(items[1..], 1) <= dMax
             then Ok(acc + [AsSent(items[0])] + ItemsAsSent(items[1..])) else Err(DepthExceeded)
    ensures DecodeItems(data, pos, end, d, dMax, acc)
         == if d + NestingOfItems(items, 1) <= dMax then Ok(acc + ItemsAsSent(items)) else Err(DepthExceeded)
  {
    hide DecodeValue, AsSent, Nesting;
    assert acc + [AsSent(items[0])] + ItemsAsSent(items[1..]) == acc + ItemsAsSent(items);
  }

  lemma TableDecoded(data: octets, pos: nat, end: nat, d: nat, dMax: nat)
    requires BlockEnd(data, pos) == Ok(end) && d <= dMax
    ensures var r := DecodeEntries(data, pos + 4, end, d, dMax, []);
      DecodeTable(data, pos, d, dMax) == if r.Ok? then Ok((r.value, end)) else Err(r.error)
  {}

  lemma NoEntries(depth: nat, maxDepth: nat, data: octets, pos: nat, d: nat, dMax: nat, acc: seq<Entry>)
    requires pos <= |data| && d <= dMax
    ensures EncodeEntries([], depth, maxDepth) == Ok([])
    ensures DecodeEntries(data, pos, pos, d, dMax, acc) == Ok(acc) && acc + EntriesAsSent([]) == acc
  {
    assert acc + EntriesAsSent([]) == acc;
  }

  lemma EntryDecoded(data: octets, pos: nat, end: nat, d: nat, dMax: nat, acc: seq<Entry>, key: octets, next: nat)
    requires pos < end <= |data| && d <= dMax && DecodeShortstr(data, pos) == Ok((key, next))
    ensures var r := DecodeValue(data, next, d + 1, dMax);
      DecodeEntries(data, pos, end, d, dMax, acc)
      == if r.Ok? then DecodeEntries(data, r.value.1, end, d, dMax, DictSet(acc, key, r.value.0)) else Err(r.error)
  {}

  predicate Disjoint(entries: seq<Entry>, acc: seq<Entry>) {
    entries != [] ==> !HasKey(acc, entries[0].key) && Disjoint(entries[1..], acc)
  }

  lemma {:induction false} DisjointAfterAdding(entries: seq<Entry>, acc: seq<Entry>, e: Entry)
    requires !HasKey(entries, e.key) && !HasKey(acc, e.key) && Disjoint(entries, acc)
    ensures Disjoint(entries, acc + [e])
  {
    if entries != [] {
      DictSetFresh(acc, e.key, e.value);
      DictSetKeys(acc, e.key, e.value, entries[0].key);
      DisjointAfterAdding(entries[1..], acc, e);
    }
  }

  lemma FirstEntry(entries: seq<Entry>, acc: seq<Entry>, sent: Entry)
    requires entries != [] && KeysDistinct(entries) && ArePythonEntries(entries) && Disjoint(entries, acc)
    requires sent == Entry(entries[0].key, AsSent(entries[0].value))
    ensures IsPython(entries[0].value) && KeysDistinct(entries[1..]) && ArePythonEntries(entries[1..])
    ensures DictSet(acc, sent.key, sent.value) == acc + [sent] && Disjoint(entries[1..], acc + [sent])
    ensures acc + [sent] + EntriesAsSent(entries[1..]) == acc + EntriesAsSent(entries)
  {
    FirstEntryApart(entries, acc);
    hide HasKey, KeysDistinct, Disjoint, DictSet, IsPython, AsSent;
    DictSetFresh(acc, sent.key, sent.value);
    DisjointAfterAdding(entries[1..], acc, sent);
    assert acc + [sent] + EntriesAsSent(entries[1..]) == acc + ([sent] + EntriesAsSent(entries[1..]));
  }

  lemma FirstEntryApart(entries: seq<Entry>, acc: seq<Entry>)
    requires entries != [] && KeysDistinct(entries) && Disjoint(entries, acc)
    ensures !HasKey(entries[1..], entries[0].key) && KeysDistinct(entries[1..])
    ensures !HasKey(acc, entries[0].key) && Disjoint(entries[1..], acc)
  {
    hide HasKey;
  }

  lemma {:induction false} DisjointFromNothing(entries: seq<Entry>)
    ensures Disjoint(entries, [])
  {
    if entries != [] {
      DisjointFromNothing(entries[1..]);
    }
  }

  lemma {:induction false} ArrayRoundTrip(items: seq<FieldValue>, depth: nat, maxDepth: nat, s: octets,
                                          data: octets, pos: nat, d: nat, dMax: nat)
    requires ArePythonItems(items) && |s| <= CEILING
    requires EncodeValue(Array(items), depth, maxDepth) == Ok(s) && At(data, pos, s)
    ensures DecodeValue(data, pos, d, dMax)
         == if d + NestingOfItems(items, 1) <= dMax
            then Ok((Array(ItemsAsSent(items)), pos + |s|)) else Err(DepthExceeded)
    decreases items, 1
  {
    hide At, BlockEnd, DecodeValue, DecodeItems, EncodeValue, EncodeItems;
    ArrayEncoded(items, depth, maxDepth, s, data, pos);
    ArrayDecoded(data, pos, pos + |s|, d, dMax);
    if d <= dMax {
      var parts := EncodeItems(items, depth + 1, maxDepth).value;
      ItemsRoundTrip(items, depth + 1, maxDepth, parts, data, pos + 5, d, dMax, []);
      assert pos + 5 + |parts| == pos + |s| && [] + ItemsAsSent(items) == ItemsAsSent(items);
    }
  }

  /** The field-table round trip, for every table the encoder accepts: the decoder, started
      anywhere in a larger buffer at the start of the encoding, returns the same table and
      the exact end if and only if the body is within the ceiling and the nesting within
      the decoder's budget. */
  lemma {:induction false} TableRoundTrip(entries: seq<Entry>, depth: nat, maxDepth: nat, s: octets,
                                          data: octets, pos: nat, d: nat, dMax: nat)
    requires KeysDistinct(entries) && ArePythonEntries(entries)
    requires EncodeTable(entries, depth, maxDepth) == Ok(s) && At(data, pos, s)
    ensures DecodeTable(data, pos, d, dMax)
         == if d > dMax then Err(DepthExceeded)
            else if |s| - 4 > CEILING then Err(CeilingExceeded)
            else if d + NestingOfEntries(entries, 1) > dMax then Err(DepthExceeded)
            else Ok((EntriesAsSent(entries), pos + |s|))
    decreases entries, 1
  {
    hide DecodeEntries, EncodeEntries, DecodeValue, FromBigEndian, BigEndian;
    var parts := EncodeEntries(entries, depth, maxDepth).value;
    PowersOf256();
    assert s == BigEndian(|parts|, 4) + parts;
    LengthPrefix(|parts|, parts, data, pos);
    if d <= dMax && |parts| <= CEILING {
      assert BlockEnd(data, pos) == Ok(pos + |s|);
      DisjointFromNothing(entries);
      EntriesRoundTrip(entries, depth, maxDepth, parts, data, pos + 4, d, dMax, []);
      assert pos + 4 + |parts| == pos + |s| && [] + EntriesAsSent(entries) == EntriesAsSent(entries);
      TableDecoded(data, pos, pos + |s|, d, dMax);
    }
  }

  lemma {:induction false} EntriesRoundTrip(entries: seq<Entry>, depth: nat, maxDepth: nat, s: octets,
                                            data: octets, pos: nat, d: nat, dMax: nat, acc: seq<Entry>)
    requires KeysDistinct(entries) && ArePythonEntries(entries) && d <= dMax && |s| <= CEILING
    requires Disjoint(entries, acc)
    requires EncodeEntries(entries, depth, maxDepth) == Ok(s) && At(data, pos, s)
    ensures DecodeEntries(data, pos, pos + |s|, d, dMax, acc)
         == if d + NestingOfEntries(entries, 1) <= dMax then Ok(acc + EntriesAsSent(entries)) else Err(DepthExceeded)
    decreases entries, 0
  {
    hide EncodeShortstr, DecodeShortstr, DictSet, HasKey, KeysDistinct, IsPython, ArePythonEntries, Disjoint;
    hide EncodeValue, EncodeEntries, DecodeValue, DecodeEntries;
    if entries == [] {
      NoEntries(depth, maxDepth, data, pos, d, dMax, acc);
    } else {
      var sent := Entry(entries[0].key, AsSent(entries[0].value));
      FirstEntry(entries, acc, sent);
      EntryEncoded(entries, depth, maxDepth, s, data, pos);
      var key := EncodeShortstr(entries[0].key).value;
      var value := EncodeValue(entries[0].value, depth, maxDepth).value;
      var rest := EncodeEntries(entries[1..], depth, maxDepth).value;
      var end := pos + |s|;
      assert pos + |key| + |value| + |rest| == end;
      ShortstrRoundTrip(entries[0].key, data, pos);
      ValueRoundTrip(entries[0].value, depth, maxDepth, value, data, pos + |key|, d + 1, dMax);
      EntryDecoded(data, pos, end, d, dMax, acc, entries[0].key, pos + |key|);
      if d + 1 + Nesting(entries[0].value, 1) <= dMax {
        EntriesRoundTrip(entries[1..], depth, maxDepth, rest, data, pos + |key| + |value|, d, dMax, acc + [sent]);
      }
    }
  }

  lemma {:induction false} ItemsRoundTrip(items: seq<FieldValue>, depth: nat, maxDepth: nat, s: octets,
                                          data: octets, pos: nat, d: nat, dMax: nat, acc: seq<FieldValue>)
    requires ArePythonItems(items) && d <= dMax && |s| <= CEILING
    requires EncodeItems(items, depth, maxDepth) == Ok(s) && At(data, pos, s)
    ensures DecodeItems(data, pos, pos + |s|, d, dMax, acc)
         == if d + NestingOfItems(items, 1) <= dMax then Ok(acc + ItemsAsSent(items)) else Err(DepthExceeded)
    decreases items, 0
  {
    hide At, DecodeScalar, EncodeValue;
    if items == [] {
      assert acc + ItemsAsSent(items) == acc;
    } else {
      ItemEncoded(items, depth, maxDepth, s, data, pos);
      var value := EncodeValue(items[0], depth, maxDepth).value;
      var rest := EncodeItems(items[1..], depth, maxDepth).value;
      var end := pos + |s|;
      assert pos + |value| + |rest| == end;
      ValueRoundTrip(items[0], depth, maxDepth, value, data, pos, d + 1, dMax);
      ItemsRoundTrip(items[1..], depth, maxDepth, rest, data, pos + |value|, d, dMax, acc + [AsSent(items[0])]);
      ItemDecoded(items, data, pos, pos + |value|, end, d, dMax, acc);
    }
  }

  // ---------------------------------------------------------------- the two budgets differ

  /** The decoder charges for a value at least what the encoder charges for it, and at most
      twice that. */
  lemma {:induction false} BudgetsCompared(v: FieldValue)
    ensures Nesting(v, 0) <= Nesting(v, 1) <= 2 * Nesting(v, 0)
    decreases v, 1
  {
    match v
    case Dict(entries) => BudgetsOfEntries(entries);
    case Array(items) => BudgetsOfItems(items);
    case _ =>
  }

  /** For a table's entries alone it may be one more: the table they are in. */
  lemma {:induction false} BudgetsOfEntries(entries: seq<Entry>)
    ensures NestingOfEntries(entries, 0) <= NestingOfEntries(entries, 1) <= 2 * NestingOfEntries(entries, 0) + 1
    decreases entries, 0
  {
    if entries != [] {
      BudgetsCompared(entries[0].value);
      BudgetsOfEntries(entries[1..]);
    }
  }

  lemma {:induction false} BudgetsOfItems(items: seq<FieldValue>)
    ensures NestingOfItems(items, 0) <= NestingOfItems(items, 1) <= 2 * NestingOfItems(items, 0)
    decreases items, 0
  {
    if items != [] {
      BudgetsCompared(items[0]);
      BudgetsOfItems(items[1..]);
    }
  }

  const KEY: octet := 107

  /** A table holding a table holding a table: `k` tables inside the outermost one. */
  function Chain(k: nat): seq<Entry> {
    if k == 0 then [] else [Entry([KEY], Dict(Chain(k - 1)))]
  }

  lemma {:induction false} ChainShape(k: nat)
    ensures NestingOfEntries(Chain(k), 0) == k && NestingOfEntries(Chain(k), 1) == 2 * k
    ensures KeysDistinct(Chain(k)) && ArePythonEntries(Chain(k)) && EntriesAsSent(Chain(k)) == Chain(k)
  {
    if k != 0 {
      ChainShape(k - 1);
      assert Chain(k)[1..] == [];
    }
  }

  lemma {:induction false} ChainEncodes(k: nat, depth: nat, maxDepth: nat)
    requires depth + k <= maxDepth && 7 * k < 0x1_0000_0000
    ensures EncodeTable(Chain(k), depth, maxDepth).Ok? && |EncodeTable(Chain(k), depth, maxDepth).value| == 4 + 7 * k
  {
    hide ValidUtf8, ToBytesSigned, BigEndian;
    PowersOf256();
    if k != 0 {
      ChainEncodes(k - 1, depth + 1, maxDepth);
      KeyEncodes();
      var nested := EncodeValue(Dict(Chain(k - 1)), depth, maxDepth);
      assert nested.Ok? && |nested.value| == 5 + 7 * (k - 1);
      assert Chain(k)[1..] == [] && EncodeEntries([], depth, maxDepth) == Ok([]);
      assert EncodeEntries(Chain(k), depth, maxDepth).Ok?;
      assert |EncodeEntries(Chain(k), depth, maxDepth).value| == 7 * k;
    }
  }

  lemma KeyEncodes()
    ensures EncodeShortstr([KEY]) == Ok([1, KEY])
  {
    var s := [KEY];
    assert ValidUtf8(s[1..]);
    assert ValidUtf8(s);
    assert [|s|] + s == [1, KEY];
  }

  /** With one and the same budget `maxDepth`, `k` nested tables can be encoded if and only
      if k <= maxDepth, but what was encoded can be decoded if and only if 2k <= maxDepth. */
  lemma DepthBudgetsDiffer(k: nat, maxDepth: nat)
    requires 7 * k <= CEILING
    ensures EncodeTable(Chain(k), 0, maxDepth).Ok? <==> k <= maxDepth
    ensures k <= maxDepth ==> EncodeTable(Chain(k), 0, maxDepth).Ok?
    ensures k <= maxDepth ==> var s := EncodeTable(Chain(k), 0, maxDepth).value;
      DecodeTable(s, 0, 0, maxDepth) == if 2 * k <= maxDepth then Ok((Chain(k), |s|)) else Err(DepthExceeded)
  {
    hide ValidUtf8;
    ChainShape(k);
    EncoderDepthOfEntries(Chain(k), 0, maxDepth);
    if k <= maxDepth {
      ChainEncodes(k, 0, maxDepth);
      var s := EncodeTable(Chain(k), 0, maxDepth).value;
      TableRoundTrip(Chain(k), 0, maxDepth, s, s, 0, 0, maxDepth);
    }
  }

  /** The end a table declares does not bound what is read for it: here its one value lies
      past that end, and the table is accepted all the same.  Cut at its declared end, the
      same table is refused. */
  lemma OverrunIsAccepted()
    ensures var data: octets := [0, 0, 0, 2, 1, KEY, TAG_VOID];
      && DecodeTable(data, 0, 0, 1) == Ok(([Entry([KEY], Void)], 6))
      && DecodeTable(data[..6], 0, 0, 1) == Err(Truncated)
  {
    var data: octets := [0, 0, 0, 2, 1, KEY, TAG_VOID];
    KeyDecodes(data);
    KeyDecodes(data[..6]);
    assert data[0..4] == [0, 0, 0, 2] && data[..6][0..4] == [0, 0, 0, 2];
    assert FromBigEndian([0, 0, 0, 2]) == 2 by { TwoInFourOctets(); }
    assert BlockEnd(data, 0) == Ok(6) && BlockEnd(data[..6], 0) == Ok(6);
    assert DecodeEntries(data[..6], 4, 6, 0, 1, []) == Err(Truncated) by {
      assert DecodeValue(data[..6], 6, 1, 1) == Err(Truncated);
    }
    assert DecodeValue(data, 6, 1, 1) == Ok((Void, 7));
    assert DecodeEntries(data, 7, 6, 0, 1, [Entry([KEY], Void)]) == Ok([Entry([KEY], Void)]);
    assert DictSet([], [KEY], Void) == [Entry([KEY], Void)];
  }

  lemma KeyDecodes(data: octets)
    requires |data| >= 6 && data[4] == 1 && data[5] == KEY
    ensures DecodeShortstr(data, 4) == Ok(([KEY], 6))
  {
    var s := [KEY];
    assert data[5..6] == s && ValidUtf8(s[1..]) && ValidUtf8(s);
  }

  lemma TwoInFourOctets()
    ensures FromBigEndian([0, 0, 0, 2]) == 2
  {
    var one: octets, two: octets, three: octets, all: octets := [0], [0, 0], [0, 0, 0], [0, 0, 0, 2];
    assert one[..0] == [] && FromBigEndian(one) == 0;
    assert two[..1] == one && FromBigEndian(two) == 0;
    assert three[..2] == two && FromBigEndian(three) == 0;
    assert all[..3] == three;
  }
}
