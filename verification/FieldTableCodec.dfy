/** The codec as the source runs it: loops that grow `parts`, `items` and `result` and move
    `pos`.  Each is proved equal to the reference codec in module FieldTables. */
module FieldTableCodec {
  import opened Results
  import opened Octets
  import opened FieldTables

  /** What a loop returns if it has built `parts` and the rest of its input gives `r`. */
  function After(parts: octets, r: Result<octets>): Result<octets> {
    var rest :- r;
    Ok(parts + rest)
  }

  lemma AfterNothing(r: Result<octets>)
    ensures After([], r) == r
  {
    if r.Ok? {
      assert [] + r.value == r.value;
    }
  }

  lemma AfterItem(items: seq<FieldValue>, i: nat, depth: nat, maxDepth: nat, parts: octets, r: Result<octets>)
    requires i < |items| && r == EncodeValue(items[i], depth, maxDepth)
    ensures After(parts, EncodeItems(items[i..], depth, maxDepth))
         == if r.Err? then r else After(parts + r.value, EncodeItems(items[i + 1..], depth, maxDepth))
  {
    assert items[i..][1..] == items[i + 1..];
    var rest := EncodeItems(items[i + 1..], depth, maxDepth);
    if r.Ok? && rest.Ok? {
      assert parts + (r.value + rest.value) == parts + r.value + rest.value;
    }
  }

  lemma AfterEntry(entries: seq<Entry>, i: nat, depth: nat, maxDepth: nat, parts: octets, key: Result<octets>,
                   value: Result<octets>)
    requires i < |entries| && key == EncodeShortstr(entries[i].key)
    requires value == EncodeValue(entries[i].value, depth, maxDepth)
    ensures After(parts, EncodeEntries(entries[i..], depth, maxDepth))
         == if key.Err? then key else if value.Err? then value
            else After(parts + key.value + value.value, EncodeEntries(entries[i + 1..], depth, maxDepth))
  {
    hide ValidUtf8;
    assert entries[i..][1..] == entries[i + 1..];
    var rest := EncodeEntries(entries[i + 1..], depth, maxDepth);
    if key.Ok? && value.Ok? && rest.Ok? {
      assert parts + (key.value + value.value + rest.value) == parts + key.value + value.value + rest.value;
    }
  }

  method EncodeFieldValue(v: FieldValue, depth: nat, maxDepth: nat) returns (r: Result<octets>)
    ensures r == EncodeValue(v, depth, maxDepth)
    decreases v, 1
  {
    hide EncodeScalar, ToBytes;
    if depth > maxDepth {
      return Err(DepthExceeded);
    }
    match v
    case Dict(entries) =>
      var table := EncodeFieldTable(entries, depth + 1, maxDepth);
      return Tagged(TAG_TABLE, table);
    case Array(items) =>
      var parts := [];
      var i := 0;
      assert items[i..] == items;
      AfterNothing(EncodeItems(items, depth + 1, maxDepth));
      while i < |items|
        invariant 0 <= i <= |items|
        invariant EncodeItems(items, depth + 1, maxDepth)
               == After(parts, EncodeItems(items[i..], depth + 1, maxDepth))
      {
        var item := EncodeFieldValue(items[i], depth + 1, maxDepth);
        AfterItem(items, i, depth + 1, maxDepth, parts, item);
        if item.Err? {
          return item;
        }
        parts := parts + item.value;
        i := i + 1;
      }
      assert items[i..] == [] && parts + [] == parts;
      if |parts| > CEILING {
        return Err(CeilingExceeded);
      }
      return Tagged(TAG_ARRAY, EncodeLongstr(parts));
    case _ =>
      return EncodeScalar(v);
  }

  method EncodeFieldTable(entries: seq<Entry>, depth: nat, maxDepth: nat) returns (r: Result<octets>)
    ensures r == EncodeTable(entries, depth, maxDepth)
    decreases entries, 1
  {
    hide ToBytes, ValidUtf8, EncodeValue, EncodeShortstr;
    if depth > maxDepth {
      return Err(DepthExceeded);
    }
    var parts := [];
    var i := 0;
    assert entries[i..] == entries;
    AfterNothing(EncodeEntries(entries, depth, maxDepth));
    while i < |entries|
      invariant 0 <= i <= |entries|
      invariant EncodeEntries(entries, depth, maxDepth)
             == After(parts, EncodeEntries(entries[i..], depth, maxDepth))
    {
      var key := EncodeShortstr(entries[i].key);
      var value := EncodeFieldValue(entries[i].value, depth, maxDepth);
      AfterEntry(entries, i, depth, maxDepth, parts, key, value);
      if key.Err? {
        return key;
      }
      if value.Err? {
        return value;
      }
      parts := parts + key.value + value.value;
      i := i + 1;
    }
    assert entries[i..] == [] && parts + [] == parts;
    return EncodeLongstr(parts);
  }

  method DecodeFieldValue(data: octets, pos: nat, depth: nat, maxDepth: nat)
    returns (r: Result<(FieldValue, nat)>)
    ensures r == DecodeValue(data, pos, depth, maxDepth)
    decreases Budget(depth, maxDepth), |data| - pos, 1
  {
    hide DecodeScalar;
    if depth > maxDepth {
      return Err(DepthExceeded);
    }
    if pos >= |data| {
      return Err(Truncated);
    }
    if data[pos] == TAG_TABLE {
      var table := DecodeFieldTable(data, pos + 1, depth + 1, maxDepth);
      if table.Err? {
        return Err(table.error);
      }
      return Ok((Dict(table.value.0), table.value.1));
    }
    if data[pos] == TAG_ARRAY {
      var end :- BlockEnd(data, pos + 1);
      var items := [];
      var at := pos + 5;
      while at < end
        invariant pos < at <= |data|
        invariant DecodeItems(data, pos + 5, end, depth, maxDepth, [])
               == DecodeItems(data, at, end, depth, maxDepth, items)
        decreases |data| - at
      {
        var item := DecodeFieldValue(data, at, depth + 1, maxDepth);
        if item.Err? {
          return Err(item.error);
        }
        items, at := items + [item.value.0], item.value.1;
      }
      return Ok((Array(items), end));
    }
    return DecodeScalar(data[pos], data, pos + 1);
  }

  method DecodeFieldTable(data: octets, pos: nat, depth: nat, maxDepth: nat)
    returns (r: Result<(seq<Entry>, nat)>)
    ensures r == DecodeTable(data, pos, depth, maxDepth)
    decreases Budget(depth, maxDepth), |data| - pos, 0
  {
    hide DecodeScalar, DecodeShortstr, DictSet;
    if depth > maxDepth {
      return Err(DepthExceeded);
    }
    var end :- BlockEnd(data, pos);
    var result := [];
    var at := pos + 4;
    while at < end
      invariant pos < at <= |data|
      invariant DecodeEntries(data, pos + 4, end, depth, maxDepth, [])
             == DecodeEntries(data, at, end, depth, maxDepth, result)
      decreases |data| - at
    {
      var key := DecodeShortstr(data, at);
      if key.Err? {
        return Err(key.error);
      }
      var value := DecodeFieldValue(data, key.value.1, depth + 1, maxDepth);
      if value.Err? {
        return Err(value.error);
      }
      result, at := DictSet(result, key.value.0, value.value.0), value.value.1;
    }
    return Ok((result, end));
  }
}
