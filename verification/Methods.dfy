/** AMQP methods: the payload of a METHOD frame, as reference functions. */
module Methods {
  import opened Results
  import opened Octets
  import opened FieldTables

  const CONNECTION: nat := 10
  const CHANNEL: nat := 20
  const EXCHANGE: nat := 40
  const QUEUE: nat := 50
  const BASIC: nat := 60
  const CONFIRM: nat := 85

  /** The methods this client decodes, and `Publish`, which it only encodes. */
  datatype Method =
    | Start(versionMajor: nat, versionMinor: nat, serverProperties: seq<Entry>, mechanisms: octets, locales: octets)
    | Secure(challenge: octets)
    | Tune(channelMax: nat, frameMax: nat, heartbeat: nat)
    | OpenOk(reserved: octets)
    | ConnectionClose(replyCode: int, replyText: octets, classId: int, methodId: int)
    | ConnectionCloseOk
    | Blocked(reason: octets)
    | Unblocked
    | UpdateSecretOk
    | ChannelOpenOk(channelId: octets)
    | ChannelClose(replyCode: int, replyText: octets, classId: int, methodId: int)
    | ChannelCloseOk
    | ExchangeDeclareOk
    | QueueDeclareOk(queue: octets, messageCount: nat, consumerCount: nat)
    | QueueBindOk
    | QosOk
    | ConsumeOk(consumerTag: octets)
    | CancelOk(consumerTag: octets)
    | Publish(exchange: octets, routingKey: octets, mandatory: bool)
    | Return(replyCode: int, replyText: octets, exchange: octets, routingKey: octets)
    | Deliver(consumerTag: octets, deliveryTag: int, redelivered: bool, exchange: octets, routingKey: octets)
    | Ack(deliveryTag: int, multiple: bool)
    | Nack(deliveryTag: int, multiple: bool, requeue: bool)
    | SelectOk
    | Unknown(classId: int, methodId: int, raw: octets)

  function Ids(m: Method): (int, int) {
    match m
    case Start(_, _, _, _, _) => (CONNECTION, 10)
    case Secure(_) => (CONNECTION, 20)
    case Tune(_, _, _) => (CONNECTION, 30)
    case OpenOk(_) => (CONNECTION, 41)
    case ConnectionClose(_, _, _, _) => (CONNECTION, 50)
    case ConnectionCloseOk => (CONNECTION, 51)
    case Blocked(_) => (CONNECTION, 60)
    case Unblocked => (CONNECTION, 61)
    case UpdateSecretOk => (CONNECTION, 71)
    case ChannelOpenOk(_) => (CHANNEL, 11)
    case ChannelClose(_, _, _, _) => (CHANNEL, 40)
    case ChannelCloseOk => (CHANNEL, 41)
    case ExchangeDeclareOk => (EXCHANGE, 11)
    case QueueDeclareOk(_, _, _) => (QUEUE, 11)
    case QueueBindOk => (QUEUE, 21)
    case QosOk => (BASIC, 11)
    case ConsumeOk(_) => (BASIC, 21)
    case CancelOk(_) => (BASIC, 31)
    case Publish(_, _, _) => (BASIC, 40)
    case Return(_, _, _, _) => (BASIC, 50)
    case Deliver(_, _, _, _, _) => (BASIC, 60)
    case Ack(_, _) => (BASIC, 80)
    case Nack(_, _, _) => (BASIC, 120)
    case SelectOk => (CONFIRM, 11)
    case Unknown(c, m, _) => (c, m)
  }

  // ---------------------------------------------------------------- encoding

  function EncodeArguments(m: Method): Result<octets> {
    match m
    case ConnectionClose(code, text, c, i) => EncodeClose(code, text, c, i)
    case ChannelClose(code, text, c, i) => EncodeClose(code, text, c, i)
    case ConnectionCloseOk | ChannelCloseOk => Ok([])
    case ChannelOpenOk(id) => EncodeLongstr(id)
    case Publish(exchange, routingKey, mandatory) =>
      var e :- EncodeShortstr(exchange);
      var k :- EncodeShortstr(routingKey);
      Ok([0, 0] + e + k + [if mandatory then 1 else 0])
    case Return(code, text, exchange, routingKey) =>
      var c :- ToBytes(code, 2);
      var t :- EncodeShortstr(text);
      var e :- EncodeShortstr(exchange);
      var k :- EncodeShortstr(routingKey);
      Ok(c + t + e + k)
    case Ack(tag, multiple) =>
      var t :- ToBytes(tag, 8);
      Ok(t + [if multiple then 1 else 0])
    case Nack(tag, multiple, requeue) =>
      var t :- ToBytes(tag, 8);
      Ok(t + [(if multiple then 1 else 0) + if requeue then 2 else 0])
    case _ => Err(UnsupportedMethod)
  }

  function EncodeClose(code: int, text: octets, classId: int, methodId: int): Result<octets> {
    var c :- ToBytes(code, 2);
    var t :- EncodeShortstr(text);
    var k :- ToBytes(classId, 2);
    var i :- ToBytes(methodId, 2);
    Ok(c + t + k + i)
  }

  function EncodeMethod(m: Method): Result<octets> {
    var c :- ToBytes(Ids(m).0, 2);
    var i :- ToBytes(Ids(m).1, 2);
    var arguments :- EncodeArguments(m);
    Ok(c + i + arguments)
  }

  // ---------------------------------------------------------------- decoding

  /** `int.from_bytes(payload[pos:pos + n], "big")`: a short payload gives a short number. */
  function Number(payload: octets, pos: nat, n: nat): nat {
    FromBigEndian(Slice(payload, pos, pos + n))
  }

  function OctetAt(payload: octets, pos: nat): Result<octet> {
    if pos < |payload| then Ok(payload[pos]) else Err(Truncated)
  }

  function TextAt(payload: octets, pos: nat): Result<octets> {
    var (text, _) :- DecodeShortstr(payload, pos);
    Ok(text)
  }

  function DecodeMethod(payload: octets): Result<Method> {
    if |payload| < 4 then Err(Truncated)
    else DecodeArguments(FromBigEndian(payload[0..2]), FromBigEndian(payload[2..4]), payload)
  }

  function DecodeArguments(c: nat, i: nat, payload: octets): Result<Method>
    requires 4 <= |payload|
  {
    if c == CONNECTION then DecodeConnection(i, payload)
    else if c == CHANNEL && i == 11 then
      var (id, _) :- DecodeLongstr(payload, 4);
      Ok(ChannelOpenOk(id))
    else if c == CHANNEL && i == 40 then
      var (code, text, k, j) :- DecodeClose(payload);
      Ok(ChannelClose(code, text, k, j))
    else if c == CHANNEL && i == 41 then Ok(ChannelCloseOk)
    else if c == EXCHANGE && i == 11 then Ok(ExchangeDeclareOk)
    else if c == QUEUE && i == 11 then
      var (queue, pos) :- DecodeShortstr(payload, 4);
      Ok(QueueDeclareOk(queue, Number(payload, pos, 4), Number(payload, pos + 4, 4)))
    else if c == QUEUE && i == 21 then Ok(QueueBindOk)
    else if c == BASIC then DecodeBasic(i, payload)
    else if c == CONFIRM && i == 11 then Ok(SelectOk)
    else Ok(Unknown(c, i, payload[4..]))
  }

  function DecodeClose(payload: octets): Result<(nat, octets, nat, nat)> {
    var (text, pos) :- DecodeShortstr(payload, 6);
    Ok((Number(payload, 4, 2), text, Number(payload, pos, 2), Number(payload, pos + 2, 2)))
  }

  function DecodeConnection(i: nat, payload: octets): Result<Method>
    requires 4 <= |payload|
  {
    if i == 10 then
      var major :- OctetAt(payload, 4);
      var minor :- OctetAt(payload, 5);
      var (properties, p1) :- DecodeTable(payload, 6, 0, DEFAULT_MAX_TABLE_DEPTH);
      var (mechanisms, p2) :- DecodeLongstr(payload, p1);
      if !ValidUtf8(mechanisms) then Err(NotUtf8) else
      var (locales, _) :- DecodeLongstr(payload, p2);
      if !ValidUtf8(locales) then Err(NotUtf8) else
      Ok(Start(major, minor, properties, mechanisms, locales))
    else if i == 20 then
      var (challenge, _) :- DecodeLongstr(payload, 4);
      Ok(Secure(challenge))
    else if i == 30 then Ok(Tune(Number(payload, 4, 2), Number(payload, 6, 4), Number(payload, 10, 2)))
    else if i == 41 then
      var text :- TextAt(payload, 4);
      Ok(OpenOk(text))
    else if i == 50 then
      var (code, text, k, j) :- DecodeClose(payload);
      Ok(ConnectionClose(code, text, k, j))
    else if i == 51 then Ok(ConnectionCloseOk)
    else if i == 60 then
      var text :- TextAt(payload, 4);
      Ok(Blocked(text))
    else if i == 61 then Ok(Unblocked)
    else if i == 71 then Ok(UpdateSecretOk)
    else Ok(Unknown(CONNECTION, i, payload[4..]))
  }

  function DecodeBasic(i: nat, payload: octets): Result<Method>
    requires 4 <= |payload|
  {
    if i == 11 then Ok(QosOk)
    else if i == 21 then
      var text :- TextAt(payload, 4);
      Ok(ConsumeOk(text))
    else if i == 31 then
      var text :- TextAt(payload, 4);
      Ok(CancelOk(text))
    else if i == 50 then
      var (text, p1) :- DecodeShortstr(payload, 6);
      var (exchange, p2) :- DecodeShortstr(payload, p1);
      var (routingKey, _) :- DecodeShortstr(payload, p2);
      Ok(Return(Number(payload, 4, 2), text, exchange, routingKey))
    else if i == 60 then
      var (tag, p1) :- DecodeShortstr(payload, 4);
      var redelivered :- OctetAt(payload, p1 + 8);
      var (exchange, p2) :- DecodeShortstr(payload, p1 + 9);
      var (routingKey, _) :- DecodeShortstr(payload, p2);
      Ok(Deliver(tag, Number(payload, p1, 8), redelivered != 0, exchange, routingKey))
    else if i == 80 then
      Ok(Ack(Number(payload, 4, 8), 13 <= |payload| && payload[12] != 0))
    else if i == 120 then
      var bits := if 13 <= |payload| then payload[12] else 0;
      Ok(Nack(Number(payload, 4, 8), bits % 2 == 1, bits / 2 % 2 == 1))
    else Ok(Unknown(BASIC, i, payload[4..]))
  }

  // ---------------------------------------------------------------- round trip

  /** The methods with both an encoder and a decoder in this client. */
  predicate BothWays(m: Method) {
    || m.ConnectionClose? || m.ConnectionCloseOk? || m.ChannelOpenOk? || m.ChannelClose? || m.ChannelCloseOk?
    || m.Return? || m.Ack? || m.Nack?
  }

  lemma NumberAt(n: nat, w: nat, payload: octets, pos: nat)
    requires n < Pow256(w) && At(payload, pos, BigEndian(n, w))
    ensures Number(payload, pos, w) == n
  {
    SliceAt(payload, pos, BigEndian(n, w));
    BigEndianRoundTrip(n, w);
  }

  lemma HeadAt(c: nat, i: nat, arguments: octets, payload: octets)
    requires c < 256 && i < 256 && payload == BigEndian(c, 2) + BigEndian(i, 2) + arguments
    ensures DecodeMethod(payload) == DecodeArguments(c, i, payload) && At(payload, 4, arguments)
  {
    PowersOf256();
    BigEndianRoundTrip(c, 2);
    BigEndianRoundTrip(i, 2);
    assert payload[0..2] == BigEndian(c, 2) && payload[2..4] == BigEndian(i, 2);
  }

  lemma CloseAt(code: int, text: octets, classId: int, methodId: int, s: octets, payload: octets)
    requires EncodeClose(code, text, classId, methodId) == Ok(s) && At(payload, 4, s)
    ensures DecodeClose(payload) == Ok((code, text, classId, methodId))
  {
    hide At, ValidUtf8, BigEndian, Number;
    var (c, t) := (BigEndian(code, 2), [|text|] + text);
    var (k, i) := (BigEndian(classId, 2), BigEndian(methodId, 2));
    AtSplit(payload, 4, c + t + k, i);
    AtSplit(payload, 4, c + t, k);
    AtSplit(payload, 4, c, t);
    NumberAt(code, 2, payload, 4);
    ShortstrRoundTrip(text, payload, 6);
    NumberAt(classId, 2, payload, 7 + |text|);
    NumberAt(methodId, 2, payload, 9 + |text|);
  }

  lemma ReturnAt(m: Method, s: octets, payload: octets)
    requires m.Return? && EncodeArguments(m) == Ok(s) && At(payload, 4, s) && 4 <= |payload|
    ensures DecodeBasic(50, payload) == Ok(m)
  {
    hide At, ValidUtf8, BigEndian, Number;
    var c := BigEndian(m.replyCode, 2);
    var t, e, k := [|m.replyText|] + m.replyText, [|m.exchange|] + m.exchange, [|m.routingKey|] + m.routingKey;
    AtSplit(payload, 4, c + t + e, k);
    AtSplit(payload, 4, c + t, e);
    AtSplit(payload, 4, c, t);
    NumberAt(m.replyCode, 2, payload, 4);
    ShortstrRoundTrip(m.replyText, payload, 6);
    ShortstrRoundTrip(m.exchange, payload, 7 + |m.replyText|);
    ShortstrRoundTrip(m.routingKey, payload, 8 + |m.replyText| + |m.exchange|);
  }

  lemma SettleAt(tag: int, bits: octet, payload: octets)
    requires 0 <= tag < Pow256(8) && At(payload, 4, BigEndian(tag, 8) + [bits])
    ensures Number(payload, 4, 8) == tag && 13 <= |payload| && payload[12] == bits
  {
    AtSplit(payload, 4, BigEndian(tag, 8), [bits]);
    NumberAt(tag, 8, payload, 4);
  }

  /** What the client encodes it also decodes, to the same method: for every method with
      both an encoder and a decoder, and every value the encoder accepts that is under the
      decoder's long-string ceiling. */
  lemma MethodRoundTrip(m: Method, payload: octets)
    requires BothWays(m) && EncodeMethod(m) == Ok(payload)
    ensures DecodeMethod(payload)
         == if m.ChannelOpenOk? && |m.channelId| > CEILING then Err(CeilingExceeded) else Ok(m)
  {
    hide At, ValidUtf8, BigEndian, DecodeShortstr, DecodeLongstr, EncodeLongstr, Number, DecodeMethod;
    var s := EncodeArguments(m).value;
    HeadAt(Ids(m).0, Ids(m).1, s, payload);
    match m
    case ConnectionClose(code, text, c, i) => CloseAt(code, text, c, i, s, payload);
    case ChannelClose(code, text, c, i) => CloseAt(code, text, c, i, s, payload);
    case ChannelOpenOk(id) => LongstrRoundTrip(id, payload, 4);
    case Return(_, _, _, _) => ReturnAt(m, s, payload);
    case Ack(tag, multiple) => SettleAt(tag, if multiple then 1 else 0, payload);
    case Nack(tag, multiple, requeue) =>
      SettleAt(tag, (if multiple then 1 else 0) + if requeue then 2 else 0, payload);
    case _ =>
  }
}
