/** How far into the octets a successful decode looks.  A table says where it ends, but its
    last entry, or one nested in it, may be read from beyond that. */
module FieldTableReach {
  import opened Results
  import opened Octets
  import opened FieldTables
  import opened FieldTableProofs

  /** One past the furthest octet that decoding a value depends on. */
  function ReachOfValue(data: octets, pos: nat, depth: nat, maxDepth: nat): nat
    decreases Budget(depth, maxDepth), |data| - pos, 2
  {
    if depth > maxDepth || pos >= |data| then 0
    else if data[pos] == TAG_TABLE then ReachOfTable(data, pos + 1, depth + 1, maxDepth)
    else if data[pos] == TAG_ARRAY then
      match BlockEnd(data, pos + 1)
      case Ok(end) => Max(end, ReachOfItems(data, pos + 5, end, depth, maxDepth))
      case Err(_) => 0
    else
      match DecodeScalar(data[pos], data, pos + 1)
      case Ok((_, end)) => end
      case Err(_) => 0
  }

  function ReachOfTable(data: octets, pos: nat, depth: nat, maxDepth: nat): nat
    decreases Budget(depth, maxDepth), |data| - pos, 1
  {
    if depth > maxDepth then 0 else
    match BlockEnd(data, pos)
    case Ok(end) => Max(end, ReachOfEntries(data, pos + 4, end, depth, maxDepth))
    case Err(_) => 0
  }

  function ReachOfEntries(data: octets, pos: nat, end: nat, depth: nat, maxDepth: nat): nat
    requires end <= |data| && depth <= maxDepth
    decreases Budget(depth, maxDepth), |data| - pos, 0
  {
    if pos >= end then 0 else
    match DecodeShortstr(data, pos)
    case Err(_) => 0
    case Ok((_, next)) =>
      match DecodeValue(data, next, depth + 1, maxDepth)
      case Err(_) => 0
      case Ok((_, next')) =>
        Max(ReachOfValue(data, next, depth + 1, maxDepth), ReachOfEntries(data, next', end, depth, maxDepth))
  }

  function ReachOfItems(data: octets, pos: nat, end: nat, depth: nat, maxDepth: nat): nat
    requires end <= |data| && depth <= maxDepth
    decreases Budget(depth, maxDepth), |data| - pos, 0
  {
    if pos >= end then 0 else
    match DecodeValue(data, pos, depth + 1, maxDepth)
    case Err(_) => 0
    case Ok((_, next)) =>
      Max(ReachOfValue(data, pos, depth + 1, maxDepth), ReachOfItems(data, next, end, depth, maxDepth))
  }

  /** A decode looks at least as far as it says it ends. */
  lemma ReachCoversEnd(data: octets, pos: nat, depth: nat, maxDepth: nat)
    ensures var r := DecodeValue(data, pos, depth, maxDepth);
      r.Ok? ==> pos < r.value.1 <= ReachOfValue(data, pos, depth, maxDepth)
    ensures var r := DecodeTable(data, pos, depth, maxDepth);
      r.Ok? ==> r.value.1 <= ReachOfTable(data, pos, depth, maxDepth)
  {
    hide DecodeScalar, DecodeEntries, DecodeItems, ReachOfEntries, ReachOfItems;
  }

  // ---------------------------------------------------------------- cutting

  lemma CutSlice(data: octets, c: nat, i: nat, j: nat)
    requires i <= j <= c <= |data|
    ensures data[..c][i..j] == data[i..j]
  {}

  lemma CutShortstr(data: octets, c: nat, pos: nat)
    requires c <= |data| && DecodeShortstr(data, pos).Ok?
    ensures DecodeShortstr(data[..c], pos)
         == if DecodeShortstr(data, pos).value.1 <= c then DecodeShortstr(data, pos) else Err(Truncated)
  {
    hide ValidUtf8;
    var end := DecodeShortstr(data, pos).value.1;
    if end <= c {
      CutSlice(data, c, pos + 1, end);
    }
  }

  lemma CutLongstr(data: octets, c: nat, pos: nat)
    requires c <= |data| && DecodeLongstr(data, pos).Ok?
    ensures DecodeLongstr(data[..c], pos)
         == if DecodeLongstr(data, pos).value.1 <= c then DecodeLongstr(data, pos) else Err(Truncated)
  {
    hide FromBigEndian;
    var end := DecodeLongstr(data, pos).value.1;
    if pos + 4 <= c {
      CutSlice(data, c, pos, pos + 4);
    }
    if end <= c {
      CutSlice(data, c, pos + 4, end);
    }
  }

  lemma CutBlock(data: octets, c: nat, pos: nat)
    requires c <= |data| && BlockEnd(data, pos).Ok?
    ensures BlockEnd(data[..c], pos) == if BlockEnd(data, pos).value <= c then BlockEnd(data, pos) else Err(Truncated)
  {
    hide FromBigEndian;
    if pos + 4 <= c {
      CutSlice(data, c, pos, pos + 4);
    }
  }

  lemma CutInt(data: octets, c: nat, pos: nat, n: nat, signed: bool)
    requires c <= |data| && DecodeInt(data, pos, n, signed).Ok?
    ensures DecodeInt(data[..c], pos, n, signed)
         == if pos + n <= c then DecodeInt(data, pos, n, signed) else Err(Truncated)
  {
    hide FromBigEndian, FromBigEndianSigned;
    if pos + n <= c {
      CutSlice(data, c, pos, pos + n);
    }
  }

  lemma CutScalar(data: octets, c: nat, tag: octet, pos: nat)
    requires pos <= c <= |data| && DecodeScalar(tag, data, pos).Ok?
    ensures DecodeScalar(tag, data[..c], pos)
         == if DecodeScalar(tag, data, pos).value.1 <= c then DecodeScalar(tag, data, pos) else Err(Truncated)
  {
    hide DecodeInt, DecodeShortstr, DecodeLongstr, ValidUtf8, FromBigEndianSigned;
    if tag == TAG_SHORTSTR {
      CutShortstr(data, c, pos);
    } else if tag == TAG_LONGSTR || tag == TAG_BYTES {
      CutLongstr(data, c, pos);
    } else if tag == TAG_BOOL || tag == TAG_VOID {
    } else if tag == TAG_SINGLE || tag == TAG_DOUBLE || tag == TAG_DECIMAL {
      var end := DecodeScalar(tag, data, pos).value.1;
      if end <= c {
        CutSlice(data, c, pos, end);
        CutSlice(data, c, if tag == TAG_DECIMAL then pos + 1 else pos, end);
      }
    } else {
      CutIntegerTag(data, c, tag, pos);
    }
  }

  lemma CutIntegerTag(data: octets, c: nat, tag: octet, pos: nat)
    requires pos <= c <= |data| && DecodeScalar(tag, data, pos).Ok?
    requires tag !in {TAG_SHORTSTR, TAG_LONGSTR, TAG_BYTES, TAG_BOOL, TAG_VOID, TAG_SINGLE, TAG_DOUBLE, TAG_DECIMAL}
    ensures DecodeScalar(tag, data[..c], pos)
         == if DecodeScalar(tag, data, pos).value.1 <= c then DecodeScalar(tag, data, pos) else Err(Truncated)
  {
    hide DecodeShortstr, DecodeLongstr, ValidUtf8, FromBigEndian, FromBigEndianSigned;
    var n := if tag == TAG_INT8 || tag == TAG_UINT8 then 1 else if tag == TAG_UINT16 || tag == TAG_INT16 then 2
             else if tag == TAG_UINT32 || tag == TAG_INT32 then 4 else 8;
    var signed := tag == TAG_INT8 || tag == TAG_INT16 || tag == TAG_INT32 || tag == TAG_INT64;
    assert DecodeScalar(tag, data, pos) == DecodeInt(data, pos, n, signed);
    CutInt(data, c, pos, n, signed);
  }

  /** Cut the octets anywhere: a value still decodes to the same, if the cut is not short of
      its reach; otherwise it is refused as truncated. */
  lemma {:induction false} CutValue(data: octets, c: nat, pos: nat, depth: nat, maxDepth: nat)
    requires c <= |data| && DecodeValue(data, pos, depth, maxDepth).Ok?
    ensures DecodeValue(data[..c], pos, depth, maxDepth)
         == if ReachOfValue(data, pos, depth, maxDepth) <= c
            then DecodeValue(data, pos, depth, maxDepth) else Err(Truncated)
    decreases Budget(depth, maxDepth), |data| - pos, 2
  {
    ReachCoversEnd(data, pos, depth, maxDepth);
    if pos < c {
      hide DecodeScalar, BlockEnd, DecodeItems, ReachOfItems, DecodeTable, ReachOfTable;
      assert data[..c][pos] == data[pos];
      if data[pos] == TAG_TABLE {
        CutTable(data, c, pos + 1, depth + 1, maxDepth);
      } else if data[pos] == TAG_ARRAY {
        CutBlock(data, c, pos + 1);
        var end := BlockEnd(data, pos + 1).value;
        if end <= c {
          CutItems(data, c, pos + 5, end, depth, maxDepth, []);
        }
      } else {
        CutScalar(data, c, data[pos], pos + 1);
      }
    }
  }

  lemma {:induction false} CutTable(data: octets, c: nat, pos: nat, depth: nat, maxDepth: nat)
    requires c <= |data| && DecodeTable(data, pos, depth, maxDepth).Ok?
    ensures DecodeTable(data[..c], pos, depth, maxDepth)
         == if ReachOfTable(data, pos, depth, maxDepth) <= c
            then DecodeTable(data, pos, depth, maxDepth) else Err(Truncated)
    decreases Budget(depth, maxDepth), |data| - pos, 1
  {
    hide BlockEnd, DecodeEntries, ReachOfEntries;
    CutBlock(data, c, pos);
    var end := BlockEnd(data, pos).value;
    if end <= c {
      CutEntries(data, c, pos + 4, end, depth, maxDepth, []);
    }
  }

  lemma {:induction false} CutEntries(data: octets, c: nat, pos: nat, end: nat, depth: nat, maxDepth: nat,
                                      acc: seq<Entry>)
    requires end <= c <= |data| && depth <= maxDepth && DecodeEntries(data, pos, end, depth, maxDepth, acc).Ok?
    ensures DecodeEntries(data[..c], pos, end, depth, maxDepth, acc)
         == if ReachOfEntries(data, pos, end, depth, maxDepth) <= c
            then DecodeEntries(data, pos, end, depth, maxDepth, acc) else Err(Truncated)
    decreases Budget(depth, maxDepth), |data| - pos, 0
  {
    hide DecodeShortstr, DecodeValue, ReachOfValue, DictSet, KeysDistinct;
    if pos < end {
      CutShortstr(data, c, pos);
      var (key, next) := DecodeShortstr(data, pos).value;
      var (value, next') := DecodeValue(data, next, depth + 1, maxDepth).value;
      ReachCoversEnd(data, next, depth + 1, maxDepth);
      if next <= c {
        CutValue(data, c, next, depth + 1, maxDepth);
        if ReachOfValue(data, next, depth + 1, maxDepth) <= c {
          CutEntries(data, c, next', end, depth, maxDepth, DictSet(acc, key, value));
        }
      }
    }
  }

  lemma {:induction false} CutItems(data: octets, c: nat, pos: nat, end: nat, depth: nat, maxDepth: nat,
                                    acc: seq<FieldValue>)
    requires end <= c <= |data| && depth <= maxDepth && DecodeItems(data, pos, end, depth, maxDepth, acc).Ok?
    ensures DecodeItems(data[..c], pos, end, depth, maxDepth, acc)
         == if ReachOfItems(data, pos, end, depth, maxDepth) <= c
            then DecodeItems(data, pos, end, depth, maxDepth, acc) else Err(Truncated)
    decreases Budget(depth, maxDepth), |data| - pos, 0
  {
    hide DecodeValue, ReachOfValue;
    if pos < end {
      var (value, next) := DecodeValue(data, pos, depth + 1, maxDepth).value;
      CutValue(data, c, pos, depth + 1, maxDepth);
      if ReachOfValue(data, pos, depth + 1, maxDepth) <= c {
        CutItems(data, c, next, end, depth, maxDepth, acc + [value]);
      }
    }
  }

  // ---------------------------------------------------------------- the declared end

  /** When the declared end of a table does bound what is read for it: cut there, the table
      decodes to the same if and only if its reach is its end, and is refused otherwise. */
  lemma DeclaredEndBoundsIff(data: octets, pos: nat, depth: nat, maxDepth: nat)
    requires DecodeTable(data, pos, depth, maxDepth).Ok?
    ensures var (r, end) := (DecodeTable(data, pos, depth, maxDepth), DecodeTable(data, pos, depth, maxDepth).value.1);
      && ReachOfTable(data, pos, depth, maxDepth) >= end
      && (DecodeTable(data[..end], pos, depth, maxDepth) == r <==> ReachOfTable(data, pos, depth, maxDepth) == end)
      && (ReachOfTable(data, pos, depth, maxDepth) > end ==>
            DecodeTable(data[..end], pos, depth, maxDepth) == Err(Truncated))
  {
    var end := DecodeTable(data, pos, depth, maxDepth).value.1;
    ReachCoversEnd(data, pos, depth, maxDepth);
    hide DecodeTable, ReachOfTable;
    CutTable(data, end, pos, depth, maxDepth);
  }

  /** The encoder's own tables never reach past their end, wherever they lie. */
  lemma EncodedTablesStayWithin(entries: seq<Entry>, depth: nat, maxDepth: nat, s: octets, data: octets, pos: nat,
                                d: nat, dMax: nat)
    requires KeysDistinct(entries) && ArePythonEntries(entries)
    requires EncodeTable(entries, depth, maxDepth) == Ok(s) && At(data, pos, s)
    requires DecodeTable(data, pos, d, dMax).Ok?
    ensures ReachOfTable(data, pos, d, dMax) == pos + |s|
  {
    hide DecodeTable, ReachOfTable, EncodeTable, KeysDistinct, ArePythonEntries, EntriesAsSent, NestingOfEntries;
    TableRoundTrip(entries, depth, maxDepth, s, data, pos, d, dMax);
    var end := pos + |s|;
    assert At(data[..end], pos, s) by {
      assert data[..end][pos..end] == data[pos..end];
    }
    TableRoundTrip(entries, depth, maxDepth, s, data[..end], pos, d, dMax);
    DeclaredEndBoundsIff(data, pos, d, dMax);
  }

  /** A table whose one value lies past its declared end. */
  lemma OverrunReaches()
    ensures var data: octets := [0, 0, 0, 2, 1, KEY, TAG_VOID];
      && DecodeTable(data, 0, 0, 1) == Ok(([Entry([KEY], Void)], 6))
      && DecodeTable(data[..6], 0, 0, 1) == Err(Truncated) && ReachOfTable(data, 0, 0, 1) > 6
  {
    var data: octets := [0, 0, 0, 2, 1, KEY, TAG_VOID];
    OverrunIsAccepted();
    hide DecodeTable, ReachOfTable;
    DeclaredEndBoundsIff(data, 0, 0, 1);
  }
}
