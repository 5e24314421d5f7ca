/** The octets of field values and of content headers, as the AMQP 0-9-1 reference and its
    errata lay them out: every type tag by its letter, every property by its flag bit. */
module ValueLayouts {
  import opened Results
  import opened Octets
  import opened FieldTables
  import opened ContentHeader

  // ---------------------------------------------------------------- field values

  /** The integer tags: how many octets, and whether in two's complement. */
  function IntegerTag(tag: char): Option<(nat, bool)> {
    match tag
    case 'b' => Some((1, true))
    case 'B' => Some((1, false))
    case 'u' => Some((2, true))
    case 'U' => Some((2, false))
    case 'I' => Some((4, true))
    case 'i' => Some((4, false))
    case 'L' => Some((8, true))
    case 'l' => Some((8, false))
    case 'T' => Some((8, false))
    case _ => None
  }

  /** A value with this tag starts here, and the depth budget is not spent. */
  predicate Starts(data: octets, pos: nat, tag: char, depth: nat, maxDepth: nat) {
    pos < |data| && data[pos] == tag as int && depth <= maxDepth
  }

  /** Every integer tag is read with its own width and sign. */
  lemma IntegersRead(data: octets, pos: nat, tag: char, depth: nat, maxDepth: nat)
    requires Starts(data, pos, tag, depth, maxDepth) && IntegerTag(tag).Some?
    ensures var (w, signed) := IntegerTag(tag).value;
      DecodeValue(data, pos, depth, maxDepth)
      == if pos + 1 + w > |data| then Err(Truncated)
         else Ok((Int(FromBigEndian(data[pos + 1..pos + 1 + w])
                      - if signed && data[pos + 1] >= 128 then Pow256(w) else 0), pos + 1 + w))
  {
    hide FromBigEndian, Pow256, FromBigEndianSigned;
    var (w, signed) := IntegerTag(tag).value;
    if pos + 1 + w <= |data| {
      SignBit(data[pos + 1..pos + 1 + w]);
    }
  }

  /** The other scalar tags, and what is no tag at all. */
  lemma ScalarsRead(data: octets, pos: nat, tag: char, depth: nat, maxDepth: nat)
    requires Starts(data, pos, tag, depth, maxDepth) && IntegerTag(tag).None?
    ensures var (v, p) := (DecodeValue(data, pos, depth, maxDepth), pos + 1);
      match tag
      case 'V' => v == Ok((Void, p))
      case 't' => v == if p < |data| then Ok((Bool(data[p] != 0), p + 1)) else Err(Truncated)
      case 'f' => v == if p + 4 <= |data| then Ok((Single(data[p..p + 4]), p + 4)) else Err(Truncated)
      case 'd' => v == if p + 8 <= |data| then Ok((Double(data[p..p + 8]), p + 8)) else Err(Truncated)
      case 'D' =>
        v == if p + 5 <= |data| then Ok((Decimal(data[p], FromBigEndianSigned(data[p + 1..p + 5])), p + 5))
             else Err(Truncated)
      case 's' => var s := DecodeShortstr(data, p);
        v == if s.Ok? then Ok((Str(s.value.0), s.value.1)) else Err(s.error)
      case 'S' => var s := DecodeLongstr(data, p);
        v == if s.Err? then Err(s.error)
             else if ValidUtf8(s.value.0) then Ok((Str(s.value.0), s.value.1)) else Err(NotUtf8)
      case 'x' => var s := DecodeLongstr(data, p);
        v == if s.Ok? then Ok((Bytes(s.value.0), s.value.1)) else Err(s.error)
      case 'F' => var s := DecodeTable(data, p, depth + 1, maxDepth);
        v == if s.Ok? then Ok((Dict(s.value.0), s.value.1)) else Err(s.error)
      case 'A' => v.Ok? ==> v.value.0.Array? && v.value.1 == p + 4 + FromBigEndian(data[p..p + 4])
      case _ => v == Err(UnsupportedTag)
  {
    hide FromBigEndian, FromBigEndianSigned, DecodeShortstr, DecodeLongstr, DecodeTable, DecodeItems, ValidUtf8;
  }

  /** The tag the encoder gives a value: the smaller signed integer if it fits, else the larger. */
  lemma EncodedTags(v: FieldValue, depth: nat, maxDepth: nat, s: octets)
    requires EncodeValue(v, depth, maxDepth) == Ok(s)
    ensures var tag := match v
        case Void => 'V'
        case Bool(_) => 't'
        case Int(i) => if -0x8000_0000 <= i < 0x8000_0000 then 'I' else 'L'
        case Double(_) => 'd'
        case Str(_) => 'S'
        case Bytes(_) => 'x'
        case Decimal(_, _) => 'D'
        case Dict(_) => 'F'
        case _ => 'A';
      s[0] == tag as int && !v.Single?
  {
    hide ToBytesSigned, EncodeTable, EncodeItems, EncodeLongstr, EncodeDecimal, ValidUtf8;
  }

  // ---------------------------------------------------------------- content headers

  /** A property's own octets: text as a short string, the delivery mode and the priority in one
      octet, the timestamp in eight, and the headers as a field table. */
  lemma PropertyOctets(p: Property, v: PropertyValue, s: octets)
    requires EncodeProperty(p, v) == Ok(s)
    ensures match p
      case Headers => v.Table? && EncodeTable(v.entries, 0, DEFAULT_MAX_TABLE_DEPTH) == Ok(s)
      case DeliveryMode => v.Number? && s == [v.n]
      case Priority => v.Number? && s == [v.n]
      case Timestamp => v.Number? && v.n >= 0 && s == BigEndian(v.n, 8)
      case _ => v.Text? && |v.text| <= 255 && s == [|v.text|] + v.text
  {
    hide EncodeTable, ValidUtf8;
    if p.DeliveryMode? || p.Priority? {
      PowersOf256();
      assert BigEndian(v.n, 1) == BigEndian(v.n / 256, 0) + [v.n % 256];
    }
  }

  /** The octets of the properties present among the first k. */
  function SizeBefore(props: Properties, k: nat): nat
    requires k <= 14
  {
    if k == 0 then 0
    else
      var p := ORDER[k - 1];
      SizeBefore(props, k - 1)
      + if p in props && EncodeProperty(p, props[p]).Ok? then |EncodeProperty(p, props[p]).value| else 0
  }

  lemma {:induction false} PropertiesLieInOrder(props: Properties, k: nat, s: octets, data: octets, pos: nat, j: nat)
    requires k <= j < 14 && PropertiesFrom(props, k) == Ok(s) && At(data, pos, s) && ORDER[j] in props
    ensures EncodeProperty(ORDER[j], props[ORDER[j]]).Ok?
    ensures pos + SizeBefore(props, j) >= SizeBefore(props, k)
    ensures At(data, pos + SizeBefore(props, j) - SizeBefore(props, k), EncodeProperty(ORDER[j], props[ORDER[j]]).value)
    decreases 14 - k
  {
    hide EncodeProperty, At, ORDER;
    assert |ORDER| == 14 by { Fourteen(); }
    var p := ORDER[k];
    if p in props {
      var v := EncodeProperty(p, props[p]).value;
      var rest := PropertiesFrom(props, k + 1).value;
      AtSplit(data, pos, v, rest);
      if j > k {
        PropertiesLieInOrder(props, k + 1, rest, data, pos + |v|, j);
      }
    } else {
      PropertiesLieInOrder(props, k + 1, s, data, pos, j);
    }
  }

  /** The whole header: class, two zero octets, body size, flags, and then the properties one
      after another in the order of their bits, the highest first. */
  lemma HeaderLayout(classId: int, bodySize: int, props: Properties, s: octets, p: Property)
    requires EncodeHeader(classId, bodySize, props) == Ok(s)
    ensures 0 <= classId && 0 <= bodySize && 14 <= |s|
    ensures s[0..2] == BigEndian(classId, 2) && s[2..4] == [0, 0] && s[4..12] == BigEndian(bodySize, 8)
    ensures 2 <= BitOf(p) <= 15 && (HasBit(FromBigEndian(s[12..14]), BitOf(p)) <==> p in props)
    ensures p in props ==>
              && EncodeProperty(p, props[p]).Ok?
              && At(s, 14 + SizeBefore(props, 15 - BitOf(p)), EncodeProperty(p, props[p]).value)
  {
    OrderedByBit(p);
    hide PropertiesFrom, EncodeProperty, BigEndian, FromBigEndian, HasBit, FlagWord, At, BitOf;
    var j := 15 - BitOf(p);
    var (c, b, f) := (BigEndian(classId, 2), BigEndian(bodySize, 8), BigEndian(FlagWord(props), 2));
    var body := PropertiesFrom(props, 0).value;
    assert s == c + [0, 0] + b + f + body;
    assert s[0..2] == c && s[2..4] == [0, 0] && s[4..12] == b && s[12..14] == f;
    PowersOf256();
    FlagWordBits(props);
    BigEndianRoundTrip(FlagWord(props), 2);
    assert HasBit(FlagWord(props), 15 - j) <==> ORDER[j] in props;
    if p in props {
      assert At(s, 14, body) by { TailIsAt(s, 14, body); }
      PropertiesLieInOrder(props, 0, body, s, 14, j);
    }
  }

  lemma TailIsAt(s: octets, pos: nat, t: octets)
    requires pos <= |s| && s[pos..] == t
    ensures At(s, pos, t)
  {}
}
