/** The basic content header: class, weight, body size, a word of property flags, and the
    properties present, in flag order. */
module ContentHeader {
  import opened Results
  import opened Octets
  import opened FieldTables
  import opened FieldTableProofs

  datatype Property =
    | ContentType | ContentEncoding | Headers | DeliveryMode | Priority | CorrelationId | ReplyTo
    | Expiration | MessageId | Timestamp | TypeName | UserId | AppId | ClusterId

  datatype PropertyValue = Text(text: octets) | Number(n: int) | Table(entries: seq<Entry>)

  type Properties = map<Property, PropertyValue>

  /** The properties from the highest flag bit down: property `k` has bit 15 - k. */
  const ORDER: seq<Property> :=
    [ContentType, ContentEncoding, Headers, DeliveryMode, Priority, CorrelationId, ReplyTo,
     Expiration, MessageId, Timestamp, TypeName, UserId, AppId, ClusterId]

  datatype Kind = KShortstr | KTable | KOctet | KTimestamp

  function KindOf(p: Property): Kind {
    match p
    case Headers => KTable
    case DeliveryMode | Priority => KOctet
    case Timestamp => KTimestamp
    case _ => KShortstr
  }

  /** The flag bit the source writes out for each property. */
  function BitOf(p: Property): nat {
    match p
    case ContentType => 15
    case ContentEncoding => 14
    case Headers => 13
    case DeliveryMode => 12
    case Priority => 11
    case CorrelationId => 10
    case ReplyTo => 9
    case Expiration => 8
    case MessageId => 7
    case Timestamp => 6
    case TypeName => 5
    case UserId => 4
    case AppId => 3
    case ClusterId => 2
  }

  lemma OrderedByBit(p: Property)
    ensures 2 <= BitOf(p) <= 15 && ORDER[15 - BitOf(p)] == p
  {}

  function Pow2(k: nat): (p: nat)
    ensures 0 < p
  {
    if k == 0 then 1 else 2 * Pow2(k - 1)
  }

  /** `flags & (1 << bit)` is not zero. */
  predicate HasBit(flags: nat, bit: nat) {
    if bit == 0 then flags % 2 == 1 else HasBit(flags / 2, bit - 1)
  }

  /** `flags |= 1 << bit`. */
  function SetBit(flags: nat, bit: nat): nat {
    if HasBit(flags, bit) then flags else flags + Pow2(bit)
  }

  /** `n << by`. */
  function ShiftLeft(n: nat, places: nat): nat {
    if places == 0 then n else 2 * ShiftLeft(n, places - 1)
  }

  // ---------------------------------------------------------------- reference codec

  function EncodeProperty(p: Property, v: PropertyValue): Result<octets> {
    match (KindOf(p), v)
    case (KShortstr, Text(text)) => EncodeShortstr(text)
    case (KTable, Table(entries)) => EncodeTable(entries, 0, DEFAULT_MAX_TABLE_DEPTH)
    case (KOctet, Number(n)) => ToBytes(n, 1)
    case (KTimestamp, Number(n)) => ToBytes(n, 8)
    case _ => Err(WrongType)
  }

  /** The presence bits of the first k properties, read as a k-bit number. */
  function FlagBits(props: Properties, k: nat): nat
    requires k <= 14
  {
    if k == 0 then 0 else 2 * FlagBits(props, k - 1) + if ORDER[k - 1] in props then 1 else 0
  }

  /** The flag word: fourteen presence bits above two unused ones. */
  function FlagWord(props: Properties): nat {
    ShiftLeft(FlagBits(props, 14), 2)
  }

  function PropertiesFrom(props: Properties, k: nat): Result<octets>
    requires k <= 14
    decreases 14 - k
  {
    if k == 14 then Ok([])
    else if ORDER[k] in props then
      var s :- EncodeProperty(ORDER[k], props[ORDER[k]]);
      var rest :- PropertiesFrom(props, k + 1);
      Ok(s + rest)
    else PropertiesFrom(props, k + 1)
  }

  function EncodeHeader(classId: int, bodySize: int, props: Properties): Result<octets> {
    var body :- PropertiesFrom(props, 0);
    var classOctets :- ToBytes(classId, 2);
    var sizeOctets :- ToBytes(bodySize, 8);
    var flagOctets :- ToBytes(FlagWord(props), 2);
    Ok(classOctets + [0, 0] + sizeOctets + flagOctets + body)
  }

  function DecodeProperty(p: Property, data: octets, pos: nat): (r: Result<(PropertyValue, nat)>)
    ensures r.Ok? ==> r.value.1 <= |data|
  {
    match KindOf(p)
    case KShortstr =>
      var (text, end) :- DecodeShortstr(data, pos);
      Ok((Text(text), end))
    case KTable =>
      var (entries, end) :- DecodeTable(data, pos, 0, DEFAULT_MAX_TABLE_DEPTH);
      Ok((Table(entries), end))
    case KOctet =>
      if pos < |data| then Ok((Number(data[pos]), pos + 1)) else Err(Truncated)
    case KTimestamp =>
      if pos + 8 <= |data| then Ok((Number(FromBigEndian(data[pos..pos + 8])), pos + 8)) else Err(Truncated)
  }

  function DecodePropertiesFrom(data: octets, flags: nat, k: nat, pos: nat, props: Properties): Result<Properties>
    requires k <= 14
    decreases 14 - k
  {
    if k == 14 then Ok(props)
    else if HasBit(flags, 15 - k) then
      var (v, next) :- DecodeProperty(ORDER[k], data, pos);
      DecodePropertiesFrom(data, flags, k + 1, next, props[ORDER[k] := v])
    else DecodePropertiesFrom(data, flags, k + 1, pos, props)
  }

  datatype Header = Header(classId: nat, bodySize: nat, properties: Properties)

  function DecodeHeader(data: octets): Result<Header> {
    if |data| < 14 then Err(Truncated) else
    var props :- DecodePropertiesFrom(data, FromBigEndian(data[12..14]), 0, 14, map[]);
    Ok(Header(FromBigEndian(data[0..2]), FromBigEndian(data[4..12]), props))
  }

  // ---------------------------------------------------------------- flags

  lemma {:induction false} FlagBitsAt(props: Properties, k: nat, j: nat)
    requires j < k <= 14
    ensures HasBit(FlagBits(props, k), k - 1 - j) <==> ORDER[j] in props
  {
    if j < k - 1 {
      FlagBitsAt(props, k - 1, j);
    }
  }

  lemma {:induction false} FlagBitsBound(props: Properties, k: nat)
    requires k <= 14
    ensures FlagBits(props, k) < Pow2(k)
  {
    if k != 0 {
      FlagBitsBound(props, k - 1);
    }
  }

  /** The flag word fits two octets, and bit 15 - k is set if and only if property k is
      present. */
  lemma FlagWordBits(props: Properties)
    ensures FlagWord(props) < 0x1_0000
    ensures forall k :: 0 <= k < 14 ==> (HasBit(FlagWord(props), 15 - k) <==> ORDER[k] in props)
  {
    FlagBitsBound(props, 14);
    assert Pow2(14) == 16 * Pow2(10) && Pow2(10) == 16 * Pow2(6) && Pow2(6) == 64 by {
      assert Pow2(12) == 4 * Pow2(10) && Pow2(8) == 4 * Pow2(6) && Pow2(4) == 16;
    }
    assert ShiftLeft(FlagBits(props, 14), 1) == 2 * ShiftLeft(FlagBits(props, 14), 0);
    assert FlagWord(props) == 2 * (2 * FlagBits(props, 14));
    forall k | 0 <= k < 14
      ensures HasBit(FlagWord(props), 15 - k) <==> ORDER[k] in props
    {
      FlagBitsAt(props, 14, k);
      assert HasBit(FlagWord(props), 15 - k) == HasBit(2 * FlagBits(props, 14), 14 - k)
          == HasBit(FlagBits(props, 14), 13 - k);
    }
  }

  // ---------------------------------------------------------------- round trip

  /** The values a property carries through unchanged: those the encoder accepts and whose
      header table, if any, fits the decoder's ceiling and depth. */
  predicate Carries(p: Property, v: PropertyValue) {
    && EncodeProperty(p, v).Ok?
    && (v.Table? ==>
          && KeysDistinct(v.entries) && ArePythonEntries(v.entries) && EntriesAsSent(v.entries) == v.entries
          && |EncodeProperty(p, v).value| - 4 <= CEILING
          && NestingOfEntries(v.entries, 1) <= DEFAULT_MAX_TABLE_DEPTH)
  }

  predicate AllCarry(props: Properties) {
    forall p :: p in props ==> Carries(p, props[p])
  }

  lemma PropertyRoundTrip(p: Property, v: PropertyValue, data: octets, pos: nat)
    requires Carries(p, v) && At(data, pos, EncodeProperty(p, v).value)
    ensures DecodeProperty(p, data, pos) == Ok((v, pos + |EncodeProperty(p, v).value|))
  {
    PowersOf256();
    match v
    case Text(text) => ShortstrRoundTrip(text, data, pos);
    case Table(entries) =>
      TableRoundTrip(entries, 0, DEFAULT_MAX_TABLE_DEPTH, EncodeProperty(p, v).value, data, pos, 0,
                     DEFAULT_MAX_TABLE_DEPTH);
    case Number(n) =>
      var s := EncodeProperty(p, v).value;
      BigEndianRoundTrip(n, |s|);
      assert data[pos..pos + |s|] == s && data[pos] == s[0];
  }

  /** The properties that come before the k-th. */
  predicate Before(p: Property, k: nat)
    requires k <= 14
  {
    p in ORDER[..k]
  }

  lemma BeforeNext(k: nat)
    requires k < 14
    ensures forall p :: Before(p, k + 1) <==> Before(p, k) || p == ORDER[k]
  {
    assert ORDER[..k + 1] == ORDER[..k] + [ORDER[k]];
  }

  lemma BeforeEnds()
    ensures forall p :: !Before(p, 0) && Before(p, 14)
  {
    assert ORDER[..14] == ORDER;
    forall p: Property
      ensures p in ORDER
    {
      EveryPropertyIsOrdered(p);
    }
  }

  /** The properties decoded so far: those given, of those that come before the k-th. */
  ghost predicate Rebuilt(props: Properties, k: nat, acc: Properties)
    requires k <= 14
  {
    && (forall p :: p in acc <==> p in props && Before(p, k))
    && (forall p :: p in acc ==> acc[p] == props[p])
  }

  lemma RebuiltNext(props: Properties, k: nat, acc: Properties)
    requires k < 14 && Rebuilt(props, k, acc)
    ensures ORDER[k] in props ==> Rebuilt(props, k + 1, acc[ORDER[k] := props[ORDER[k]]])
    ensures ORDER[k] !in props ==> Rebuilt(props, k + 1, acc)
  {
    hide Before, ORDER;
    BeforeNext(k);
  }

  lemma RebuiltAll(props: Properties, acc: Properties)
    requires Rebuilt(props, 14, acc)
    ensures acc == props
  {
    hide Before;
    BeforeEnds();
  }

  /** Decoding the fields from the k-th on, with the right flags, rebuilds the properties. */
  lemma {:induction false} PropertiesRoundTrip(props: Properties, k: nat, s: octets, flags: nat, data: octets,
                                               pos: nat, acc: Properties)
    requires k <= 14 && AllCarry(props) && PropertiesFrom(props, k) == Ok(s) && At(data, pos, s)
    requires forall j :: 0 <= j < 14 ==> (HasBit(flags, 15 - j) <==> ORDER[j] in props)
    requires Rebuilt(props, k, acc)
    ensures DecodePropertiesFrom(data, flags, k, pos, acc) == Ok(props)
    decreases 14 - k
  {
    hide DecodeProperty, EncodeProperty, HasBit, At, Rebuilt, ORDER, Carries;
    if k == 14 {
      RebuiltAll(props, acc);
    } else {
      assert |ORDER| == 14 by { Fourteen(); }
      var p := ORDER[k];
      assert HasBit(flags, 15 - k) <==> p in props;
      RebuiltNext(props, k, acc);
      if p in props {
        CarriesEncodes(props, p);
        var v := EncodeProperty(p, props[p]).value;
        var rest := PropertiesFrom(props, k + 1).value;
        AtSplit(data, pos, v, rest);
        PropertyRoundTrip(p, props[p], data, pos);
        PropertiesRoundTrip(props, k + 1, rest, flags, data, pos + |v|, acc[p := props[p]]);
      } else {
        PropertiesRoundTrip(props, k + 1, s, flags, data, pos, acc);
      }
    }
  }

  lemma Fourteen()
    ensures |ORDER| == 14
  {}

  lemma CarriesEncodes(props: Properties, p: Property)
    requires AllCarry(props) && p in props
    ensures Carries(p, props[p]) && EncodeProperty(p, props[p]).Ok?
  {}

  lemma EveryPropertyIsOrdered(p: Property)
    ensures p in ORDER
  {
    match p
    case ContentType => assert ORDER[0] == p;
    case ContentEncoding => assert ORDER[1] == p;
    case Headers => assert ORDER[2] == p;
    case DeliveryMode => assert ORDER[3] == p;
    case Priority => assert ORDER[4] == p;
    case CorrelationId => assert ORDER[5] == p;
    case ReplyTo => assert ORDER[6] == p;
    case Expiration => assert ORDER[7] == p;
    case MessageId => assert ORDER[8] == p;
    case Timestamp => assert ORDER[9] == p;
    case TypeName => assert ORDER[10] == p;
    case UserId => assert ORDER[11] == p;
    case AppId => assert ORDER[12] == p;
    case ClusterId => assert ORDER[13] == p;
  }

  /** The content header round trip, for every subset of the fourteen properties: what the
      encoder makes of a class, a body size and properties decodes to exactly those. */
  lemma HeaderRoundTrip(classId: int, bodySize: int, props: Properties)
    requires AllCarry(props) && EncodeHeader(classId, bodySize, props).Ok?
    ensures DecodeHeader(EncodeHeader(classId, bodySize, props).value) == Ok(Header(classId, bodySize, props))
  {
    hide HasBit, FlagWord, PropertiesFrom, DecodePropertiesFrom, BigEndian, FromBigEndian;
    var s := EncodeHeader(classId, bodySize, props).value;
    var flags := FlagWord(props);
    var body := PropertiesFrom(props, 0).value;
    PowersOf256();
    FlagWordBits(props);
    BigEndianRoundTrip(classId, 2);
    BigEndianRoundTrip(bodySize, 8);
    BigEndianRoundTrip(flags, 2);
    assert s == BigEndian(classId, 2) + [0, 0] + BigEndian(bodySize, 8) + BigEndian(flags, 2) + body;
    assert s[0..2] == BigEndian(classId, 2) && s[4..12] == BigEndian(bodySize, 8);
    assert s[12..14] == BigEndian(flags, 2) && s[14..] == body;
    assert Rebuilt(props, 0, map[]) by { BeforeEnds(); }
    PropertiesRoundTrip(props, 0, body, flags, s, 14, map[]);
  }

  /** An in-range class and size, and acceptable properties, are all the encoder asks for:
      the flag word itself always fits its two octets. */
  lemma {:induction false} PropertiesEncode(props: Properties, k: nat)
    requires k <= 14 && forall p :: p in props ==> EncodeProperty(p, props[p]).Ok?
    ensures PropertiesFrom(props, k).Ok?
    decreases 14 - k
  {
    if k < 14 {
      PropertiesEncode(props, k + 1);
    }
  }

  lemma HeaderEncodes(classId: int, bodySize: int, props: Properties)
    requires forall p :: p in props ==> EncodeProperty(p, props[p]).Ok?
    ensures EncodeHeader(classId, bodySize, props).Ok?
       <==> 0 <= classId < 0x1_0000 && 0 <= bodySize < 0x1_0000_0000_0000_0000
  {
    hide FlagWord, PropertiesFrom, EncodeProperty;
    PowersOf256();
    FlagWordBits(props);
    PropertiesEncode(props, 0);
  }
}
