/** The content header codec as the source runs it: one test per property, in flag order,
    setting a bit and growing the body, or moving an offset and filling a dict.  Both are
    proved equal to the reference codec in module ContentHeader. */
module ContentHeaderCodec {
  import opened Results
  import opened Octets
  import opened ContentHeader
  import opened FieldTableCodec

  /** After the first k tests: the flags set so far, and the body that is still to come. */
  predicate Encoded(props: Properties, k: nat, flags: nat, body: octets)
    requires k <= 14
  {
    && flags == ShiftLeft(FlagBits(props, k), 16 - k)
    && PropertiesFrom(props, 0) == After(body, PropertiesFrom(props, k))
  }

  lemma {:induction false} ShiftAddsBit(n: nat, places: nat, bit: nat)
    requires bit <= 1
    ensures !HasBit(ShiftLeft(n, places + 1), places)
    ensures ShiftLeft(2 * n + bit, places) == ShiftLeft(n, places + 1) + bit * Pow2(places)
  {
    if places == 0 {
      assert ShiftLeft(n, 1) == 2 * ShiftLeft(n, 0);
    } else {
      ShiftAddsBit(n, places - 1, bit);
      assert ShiftLeft(n, places + 1) == 2 * ShiftLeft(n, places);
    }
  }

  method AppendIfPresent(props: Properties, p: Property, bit: nat, flags: nat, body: octets)
    returns (r: Result<(nat, octets)>)
    requires bit == BitOf(p) && 2 <= bit <= 15 && Encoded(props, 15 - bit, flags, body)
    ensures r.Ok? ==> Encoded(props, 16 - bit, r.value.0, r.value.1)
    ensures r.Err? ==> PropertiesFrom(props, 0) == Err(r.error)
  {
    hide EncodeProperty, HasBit, FlagBits, PropertiesFrom, ShiftLeft, Encoded, BitOf;
    OrderedByBit(p);
    OneMore(props, 15 - bit, flags, body);
    if p in props {
      var s :- EncodeProperty(p, props[p]);
      return Ok((SetBit(flags, bit), body + s));
    }
    return Ok((flags, body));
  }

  lemma OneMore(props: Properties, k: nat, flags: nat, body: octets)
    requires k < 14 && Encoded(props, k, flags, body)
    ensures ORDER[k] !in props ==> Encoded(props, k + 1, flags, body)
    ensures ORDER[k] in props ==>
      var s := EncodeProperty(ORDER[k], props[ORDER[k]]);
      if s.Ok? then Encoded(props, k + 1, SetBit(flags, 15 - k), body + s.value)
      else PropertiesFrom(props, 0) == Err(s.error)
  {
    hide EncodeProperty, ShiftLeft;
    ShiftAddsBit(FlagBits(props, k), 15 - k, if ORDER[k] in props then 1 else 0);
    if ORDER[k] in props {
      var s, rest := EncodeProperty(ORDER[k], props[ORDER[k]]), PropertiesFrom(props, k + 1);
      if s.Ok? && rest.Ok? {
        assert body + (s.value + rest.value) == body + s.value + rest.value;
      }
    }
  }

  method AppendFirst(props: Properties) returns (r: Result<(nat, octets)>)
    ensures r.Ok? ==> Encoded(props, 7, r.value.0, r.value.1)
    ensures r.Err? ==> PropertiesFrom(props, 0) == Err(r.error)
  {
    hide Encoded, PropertiesFrom, ORDER;
    StartsEncoded(props);
    var e :- AppendIfPresent(props, ContentType, 15, 0, []);
    e :- AppendIfPresent(props, ContentEncoding, 14, e.0, e.1);
    e :- AppendIfPresent(props, Headers, 13, e.0, e.1);
    e :- AppendIfPresent(props, DeliveryMode, 12, e.0, e.1);
    e :- AppendIfPresent(props, Priority, 11, e.0, e.1);
    e :- AppendIfPresent(props, CorrelationId, 10, e.0, e.1);
    r := AppendIfPresent(props, ReplyTo, 9, e.0, e.1);
  }

  method AppendRest(props: Properties, flags: nat, body: octets) returns (r: Result<(nat, octets)>)
    requires Encoded(props, 7, flags, body)
    ensures r.Ok? ==> Encoded(props, 14, r.value.0, r.value.1)
    ensures r.Err? ==> PropertiesFrom(props, 0) == Err(r.error)
  {
    hide Encoded, PropertiesFrom, ORDER;
    var e :- AppendIfPresent(props, Expiration, 8, flags, body);
    e :- AppendIfPresent(props, MessageId, 7, e.0, e.1);
    e :- AppendIfPresent(props, Timestamp, 6, e.0, e.1);
    e :- AppendIfPresent(props, TypeName, 5, e.0, e.1);
    e :- AppendIfPresent(props, UserId, 4, e.0, e.1);
    e :- AppendIfPresent(props, AppId, 3, e.0, e.1);
    r := AppendIfPresent(props, ClusterId, 2, e.0, e.1);
  }

  method EncodeContentHeader(classId: int, bodySize: int, props: Properties) returns (r: Result<octets>)
    ensures r == EncodeHeader(classId, bodySize, props)
  {
    hide Encoded, EncodeProperty, PropertiesFrom, FlagWord;
    var e :- AppendFirst(props);
    e :- AppendRest(props, e.0, e.1);
    EndsEncoded(props, e.0, e.1);
    var classOctets :- ToBytes(classId, 2);
    var sizeOctets :- ToBytes(bodySize, 8);
    var flagOctets :- ToBytes(e.0, 2);
    return Ok(classOctets + [0, 0] + sizeOctets + flagOctets + e.1);
  }

  lemma StartsEncoded(props: Properties)
    ensures Encoded(props, 0, 0, [])
  {
    ShiftOfZero(16);
    AfterNothing(PropertiesFrom(props, 0));
  }

  lemma {:induction false} ShiftOfZero(places: nat)
    ensures ShiftLeft(0, places) == 0
  {
    if places != 0 {
      ShiftOfZero(places - 1);
    }
  }

  lemma EndsEncoded(props: Properties, flags: nat, body: octets)
    requires Encoded(props, 14, flags, body)
    ensures flags == FlagWord(props) && PropertiesFrom(props, 0) == Ok(body)
  {
    assert body + [] == body;
  }

  method TakeIfFlagged(data: octets, flags: nat, p: Property, bit: nat, pos: nat, props: Properties)
    returns (r: Result<(nat, Properties)>)
    requires bit == BitOf(p) && 2 <= bit <= 15
    ensures DecodePropertiesFrom(data, flags, 15 - bit, pos, props)
         == if r.Ok? then DecodePropertiesFrom(data, flags, 16 - bit, r.value.0, r.value.1) else Err(r.error)
  {
    hide HasBit, DecodeProperty, BitOf;
    OrderedByBit(p);
    if HasBit(flags, bit) {
      var v :- DecodeProperty(p, data, pos);
      return Ok((v.1, props[p := v.0]));
    }
    return Ok((pos, props));
  }

  lemma AllTaken(data: octets, flags: nat, pos: nat, props: Properties)
    ensures DecodePropertiesFrom(data, flags, 14, pos, props) == Ok(props)
  {}

  method TakeFirst(data: octets, flags: nat) returns (r: Result<(nat, Properties)>)
    ensures DecodePropertiesFrom(data, flags, 0, 14, map[])
         == if r.Ok? then DecodePropertiesFrom(data, flags, 7, r.value.0, r.value.1) else Err(r.error)
  {
    hide DecodePropertiesFrom, ORDER;
    var d :- TakeIfFlagged(data, flags, ContentType, 15, 14, map[]);
    d :- TakeIfFlagged(data, flags, ContentEncoding, 14, d.0, d.1);
    d :- TakeIfFlagged(data, flags, Headers, 13, d.0, d.1);
    d :- TakeIfFlagged(data, flags, DeliveryMode, 12, d.0, d.1);
    d :- TakeIfFlagged(data, flags, Priority, 11, d.0, d.1);
    d :- TakeIfFlagged(data, flags, CorrelationId, 10, d.0, d.1);
    r := TakeIfFlagged(data, flags, ReplyTo, 9, d.0, d.1);
  }

  method TakeRest(data: octets, flags: nat, pos: nat, props: Properties) returns (r: Result<(nat, Properties)>)
    ensures DecodePropertiesFrom(data, flags, 7, pos, props)
         == if r.Ok? then DecodePropertiesFrom(data, flags, 14, r.value.0, r.value.1) else Err(r.error)
  {
    hide DecodePropertiesFrom, ORDER;
    var d :- TakeIfFlagged(data, flags, Expiration, 8, pos, props);
    d :- TakeIfFlagged(data, flags, MessageId, 7, d.0, d.1);
    d :- TakeIfFlagged(data, flags, Timestamp, 6, d.0, d.1);
    d :- TakeIfFlagged(data, flags, TypeName, 5, d.0, d.1);
    d :- TakeIfFlagged(data, flags, UserId, 4, d.0, d.1);
    d :- TakeIfFlagged(data, flags, AppId, 3, d.0, d.1);
    r := TakeIfFlagged(data, flags, ClusterId, 2, d.0, d.1);
  }

  method DecodeContentHeader(data: octets) returns (r: Result<Header>)
    ensures r == DecodeHeader(data)
  {
    hide FromBigEndian, DecodePropertiesFrom;
    if |data| < 14 {
      return Err(Truncated);
    }
    var classId := FromBigEndian(data[0..2]);
    var bodySize := FromBigEndian(data[4..12]);
    var flags := FromBigEndian(data[12..14]);
    var d :- TakeFirst(data, flags);
    d :- TakeRest(data, flags, d.0, d.1);
    AllTaken(data, flags, d.0, d.1);
    return Ok(Header(classId, bodySize, d.1));
  }
}
