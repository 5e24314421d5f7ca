/** The octets of each method, field by field as the AMQP 0-9-1 reference lays them out, and
    what the codec makes of them. */
module MethodLayouts {
  import opened Results
  import opened Octets
  import opened FieldTables
  import opened FieldTableProofs
  import opened Methods

  /** A short string: its length in one octet, then its text. */
  function Short(text: octets): octets
    requires |text| <= 255
  {
    [|text|] + text
  }

  /** A long string: its length in four octets, then its content. */
  function Long(content: octets): octets {
    BigEndian(|content|, 4) + content
  }

  predicate IsShort(text: octets) {
    |text| <= 255 && ValidUtf8(text)
  }

  predicate FitsIn(n: int, w: nat) {
    0 <= n < Pow256(w)
  }

  function Bit(b: bool): octet {
    if b then 1 else 0
  }

  /** A server's properties, as any table that travels unchanged. */
  predicate TableTravels(entries: seq<Entry>) {
    && KeysDistinct(entries) && ArePythonEntries(entries) && EntriesAsSent(entries) == entries
    && EncodeTable(entries, 0, DEFAULT_MAX_TABLE_DEPTH).Ok?
    && |EncodeTable(entries, 0, DEFAULT_MAX_TABLE_DEPTH).value| - 4 <= CEILING
    && NestingOfEntries(entries, 1) <= DEFAULT_MAX_TABLE_DEPTH
  }

  /** The values the fields of a method have room for. */
  predicate Fits(m: Method) {
    match m
    case Start(major, minor, properties, mechanisms, locales) =>
      && FitsIn(major, 1) && FitsIn(minor, 1) && TableTravels(properties)
      && |mechanisms| <= CEILING && ValidUtf8(mechanisms) && |locales| <= CEILING && ValidUtf8(locales)
    case Secure(challenge) => |challenge| <= CEILING
    case Tune(channelMax, frameMax, heartbeat) => FitsIn(channelMax, 2) && FitsIn(frameMax, 4) && FitsIn(heartbeat, 2)
    case OpenOk(reserved) => IsShort(reserved)
    case ConnectionClose(code, text, c, i) => FitsIn(code, 2) && IsShort(text) && FitsIn(c, 2) && FitsIn(i, 2)
    case ChannelClose(code, text, c, i) => FitsIn(code, 2) && IsShort(text) && FitsIn(c, 2) && FitsIn(i, 2)
    case Blocked(reason) => IsShort(reason)
    case ChannelOpenOk(id) => |id| <= CEILING
    case QueueDeclareOk(queue, messages, consumers) => IsShort(queue) && FitsIn(messages, 4) && FitsIn(consumers, 4)
    case ConsumeOk(tag) => IsShort(tag)
    case CancelOk(tag) => IsShort(tag)
    case Publish(exchange, routingKey, _) => IsShort(exchange) && IsShort(routingKey)
    case Return(code, text, exchange, routingKey) =>
      FitsIn(code, 2) && IsShort(text) && IsShort(exchange) && IsShort(routingKey)
    case Deliver(tag, deliveryTag, _, exchange, routingKey) =>
      IsShort(tag) && FitsIn(deliveryTag, 8) && IsShort(exchange) && IsShort(routingKey)
    case Ack(tag, _) => FitsIn(tag, 8)
    case Nack(tag, _, _) => FitsIn(tag, 8)
    case Unknown(_, _, _) => false
    case _ => true
  }

  /** Class and method, in two octets each. */
  function Head(m: Method): octets {
    match m
    case Start(_, _, _, _, _) => [0, 10, 0, 10]
    case Secure(_) => [0, 10, 0, 20]
    case Tune(_, _, _) => [0, 10, 0, 30]
    case OpenOk(_) => [0, 10, 0, 41]
    case ConnectionClose(_, _, _, _) => [0, 10, 0, 50]
    case ConnectionCloseOk => [0, 10, 0, 51]
    case Blocked(_) => [0, 10, 0, 60]
    case Unblocked => [0, 10, 0, 61]
    case UpdateSecretOk => [0, 10, 0, 71]
    case ChannelOpenOk(_) => [0, 20, 0, 11]
    case ChannelClose(_, _, _, _) => [0, 20, 0, 40]
    case ChannelCloseOk => [0, 20, 0, 41]
    case ExchangeDeclareOk => [0, 40, 0, 11]
    case QueueDeclareOk(_, _, _) => [0, 50, 0, 11]
    case QueueBindOk => [0, 50, 0, 21]
    case QosOk => [0, 60, 0, 11]
    case ConsumeOk(_) => [0, 60, 0, 21]
    case CancelOk(_) => [0, 60, 0, 31]
    case Publish(_, _, _) => [0, 60, 0, 40]
    case Return(_, _, _, _) => [0, 60, 0, 50]
    case Deliver(_, _, _, _, _) => [0, 60, 0, 60]
    case Ack(_, _) => [0, 60, 0, 80]
    case Nack(_, _, _) => [0, 60, 0, 120]
    case SelectOk => [0, 85, 0, 11]
    case Unknown(_, _, raw) => raw
  }

  function CloseFields(code: int, text: octets, c: int, i: int): octets
    requires FitsIn(code, 2) && IsShort(text) && FitsIn(c, 2) && FitsIn(i, 2)
  {
    BigEndian(code, 2) + Short(text) + BigEndian(c, 2) + BigEndian(i, 2)
  }

  function BasicFields(m: Method): octets
    requires Fits(m)
  {
    match m
    case Publish(exchange, routingKey, mandatory) => [0, 0] + Short(exchange) + Short(routingKey) + [Bit(mandatory)]
    case Return(code, text, exchange, routingKey) =>
      BigEndian(code, 2) + Short(text) + Short(exchange) + Short(routingKey)
    case Deliver(tag, deliveryTag, redelivered, exchange, routingKey) =>
      Short(tag) + BigEndian(deliveryTag, 8) + [Bit(redelivered)] + Short(exchange) + Short(routingKey)
    case Ack(tag, multiple) => BigEndian(tag, 8) + [Bit(multiple)]
    case Nack(tag, multiple, requeue) => BigEndian(tag, 8) + [Bit(multiple) + 2 * Bit(requeue)]
    case _ => []
  }

  function Fields(m: Method): octets
    requires Fits(m)
  {
    match m
    case Start(major, minor, properties, mechanisms, locales) =>
      [major, minor] + EncodeTable(properties, 0, DEFAULT_MAX_TABLE_DEPTH).value + Long(mechanisms) + Long(locales)
    case Secure(challenge) => Long(challenge)
    case Tune(channelMax, frameMax, heartbeat) =>
      BigEndian(channelMax, 2) + BigEndian(frameMax, 4) + BigEndian(heartbeat, 2)
    case OpenOk(reserved) => Short(reserved)
    case ConnectionClose(code, text, c, i) => CloseFields(code, text, c, i)
    case ChannelClose(code, text, c, i) => CloseFields(code, text, c, i)
    case Blocked(reason) => Short(reason)
    case ChannelOpenOk(id) => Long(id)
    case QueueDeclareOk(queue, messages, consumers) => Short(queue) + BigEndian(messages, 4) + BigEndian(consumers, 4)
    case ConsumeOk(tag) => Short(tag)
    case CancelOk(tag) => Short(tag)
    case _ => BasicFields(m)
  }

  /** The payload of a METHOD frame. */
  function Layout(m: Method): octets
    requires Fits(m)
  {
    Head(m) + Fields(m)
  }

  // ---------------------------------------------------------------- encoding

  predicate HasEncoder(m: Method) {
    BothWays(m) || m.Publish?
  }

  lemma TwoOctets(n: nat)
    requires n < 256
    ensures BigEndian(n, 2) == [0, n] && FromBigEndian([0, n]) == n
  {
    assert BigEndian(n, 1) == BigEndian(n / 256, 0) + [n % 256] == [n];
    assert BigEndian(n, 2) == BigEndian(0, 1) + [n];
    assert BigEndian(0, 1) == BigEndian(0, 0) + [0] == [0];
    assert [0, n][..1] == [0] && [0][..0] == [];
  }

  /** A method this client encodes becomes exactly its layout, and is refused iff some field
      has no room for its value.  The identifier of an open channel has more room in the
      encoder than in the decoder. */
  lemma EncodesAsLaidOut(m: Method)
    requires HasEncoder(m) && (m.ChannelOpenOk? ==> |m.channelId| <= CEILING)
    ensures EncodeMethod(m).Ok? <==> Fits(m)
    ensures Fits(m) ==> EncodeMethod(m) == Ok(Layout(m))
  {
    HeadIsIds(m);
    if Fits(m) {
      ArgumentsAsLaidOut(m);
    } else {
      NoRoomNoArguments(m);
    }
    hide Head, Ids, Fields, Fits, EncodeArguments, ToBytes;
  }

  lemma HeadIsIds(m: Method)
    requires HasEncoder(m)
    ensures var (c, i) := (ToBytes(Ids(m).0, 2), ToBytes(Ids(m).1, 2));
      c.Ok? && i.Ok? && c.value + i.value == Head(m)
  {
    hide BigEndian;
    PowersOf256();
    var (c, i) := Ids(m);
    TwoOctets(c);
    TwoOctets(i);
  }

  lemma ArgumentsAsLaidOut(m: Method)
    requires HasEncoder(m) && Fits(m)
    ensures EncodeArguments(m) == Ok(Fields(m))
  {
    hide ValidUtf8, BigEndian;
    PowersOf256();
  }

  lemma NoRoomNoArguments(m: Method)
    requires HasEncoder(m) && !Fits(m) && (m.ChannelOpenOk? ==> |m.channelId| <= CEILING)
    ensures EncodeArguments(m).Err?
  {
    hide ValidUtf8, BigEndian;
  }

  // ---------------------------------------------------------------- decoding

  lemma ShortAt(text: octets, data: octets, pos: nat)
    requires IsShort(text) && At(data, pos, Short(text))
    ensures DecodeShortstr(data, pos) == Ok((text, pos + 1 + |text|)) && TextAt(data, pos) == Ok(text)
  {
    hide ValidUtf8;
    ShortstrRoundTrip(text, data, pos);
  }

  lemma LongAt(content: octets, data: octets, pos: nat)
    requires |content| <= CEILING && At(data, pos, Long(content))
    ensures DecodeLongstr(data, pos) == Ok((content, pos + 4 + |content|))
  {
    PowersOf256();
    LongstrRoundTrip(content, data, pos);
  }

  lemma FieldAt(n: int, w: nat, data: octets, pos: nat)
    requires FitsIn(n, w) && At(data, pos, BigEndian(n, w))
    ensures Number(data, pos, w) == n
  {
    NumberAt(n, w, data, pos);
  }

  lemma HeadReads(c: nat, i: nat, payload: octets, fields: octets)
    requires c < 256 && i < 256 && payload == [0, c, 0, i] + fields
    ensures DecodeMethod(payload) == DecodeArguments(c, i, payload) && At(payload, 4, fields)
  {
    hide FromBigEndian;
    TwoOctets(c);
    TwoOctets(i);
    assert payload[0..2] == [0, c] && payload[2..4] == [0, i];
  }

  lemma CloseReads(code: int, text: octets, c: int, i: int, payload: octets)
    requires FitsIn(code, 2) && IsShort(text) && FitsIn(c, 2) && FitsIn(i, 2)
    requires At(payload, 4, CloseFields(code, text, c, i))
    ensures DecodeClose(payload) == Ok((code, text, c, i))
  {
    hide ValidUtf8;
    var (a, t) := (BigEndian(code, 2), Short(text));
    var (k, j) := (BigEndian(c, 2), BigEndian(i, 2));
    hide At, IsShort, BigEndian, Number, Short, FitsIn;
    AtSplit(payload, 4, a + t + k, j);
    AtSplit(payload, 4, a + t, k);
    AtSplit(payload, 4, a, t);
    FieldAt(code, 2, payload, 4);
    ShortAt(text, payload, 6);
    ShortHasLength(text);
    FieldAt(c, 2, payload, 7 + |text|);
    FieldAt(i, 2, payload, 9 + |text|);
  }

  lemma ShortHasLength(text: octets)
    requires IsShort(text)
    ensures |Short(text)| == 1 + |text|
  {}

  lemma FiveParts(payload: octets, t: octets, d: octets, r: octets, e: octets, k: octets)
    requires At(payload, 4, t + d + r + e + k)
    ensures At(payload, 4, t) && At(payload, 4 + |t|, d) && At(payload, 4 + |t| + |d|, r)
    ensures At(payload, 4 + |t| + |d| + |r|, e) && At(payload, 4 + |t| + |d| + |r| + |e|, k)
  {
    hide At;
    AtSplit(payload, 4, t + d + r + e, k);
    AtSplit(payload, 4, t + d + r, e);
    AtSplit(payload, 4, t + d, r);
    AtSplit(payload, 4, t, d);
  }

  lemma DeliverHas(m: Method)
    requires m.Deliver? && Fits(m)
    ensures IsShort(m.consumerTag) && FitsIn(m.deliveryTag, 8) && IsShort(m.exchange) && IsShort(m.routingKey)
    ensures Fields(m) == Short(m.consumerTag) + BigEndian(m.deliveryTag, 8) + [Bit(m.redelivered)]
                         + Short(m.exchange) + Short(m.routingKey)
  {
    hide ValidUtf8, BigEndian;
  }

  /** A delivery, octet by octet. */
  lemma DeliverReads(m: Method, payload: octets)
    requires m.Deliver? && Fits(m) && At(payload, 4, Fields(m)) && 4 <= |payload|
    ensures DecodeBasic(60, payload) == Ok(m)
  {
    DeliverHas(m);
    ShortHasLength(m.consumerTag);
    ShortHasLength(m.exchange);
    hide *;
    FiveParts(payload, Short(m.consumerTag), BigEndian(m.deliveryTag, 8), [Bit(m.redelivered)],
              Short(m.exchange), Short(m.routingKey));
    DeliverAt(m, payload, 5 + |m.consumerTag|);
  }

  lemma DeliverAt(m: Method, payload: octets, p: nat)
    requires m.Deliver? && 4 <= |payload| && IsShort(m.consumerTag) && FitsIn(m.deliveryTag, 8)
    requires IsShort(m.exchange) && IsShort(m.routingKey) && p == 5 + |m.consumerTag|
    requires At(payload, 4, Short(m.consumerTag)) && At(payload, p, BigEndian(m.deliveryTag, 8))
    requires At(payload, p + 8, [Bit(m.redelivered)]) && At(payload, p + 9, Short(m.exchange))
    requires At(payload, p + 10 + |m.exchange|, Short(m.routingKey))
    ensures DecodeBasic(60, payload) == Ok(m)
  {
    hide *;
    ShortAt(m.consumerTag, payload, 4);
    FieldAt(m.deliveryTag, 8, payload, p);
    OctetReads(payload, p + 8, Bit(m.redelivered));
    ShortAt(m.exchange, payload, p + 9);
    ShortAt(m.routingKey, payload, p + 10 + |m.exchange|);
    FiveFields(m, payload, p);
  }

  lemma FiveFields(m: Method, payload: octets, p: nat)
    requires m.Deliver? && 4 <= |payload|
    requires DecodeShortstr(payload, 4) == Ok((m.consumerTag, p)) && Number(payload, p, 8) == m.deliveryTag
    requires OctetAt(payload, p + 8) == Ok(Bit(m.redelivered))
    requires DecodeShortstr(payload, p + 9) == Ok((m.exchange, p + 10 + |m.exchange|))
    requires DecodeShortstr(payload, p + 10 + |m.exchange|).Ok?
    requires DecodeShortstr(payload, p + 10 + |m.exchange|).value.0 == m.routingKey
    ensures DecodeBasic(60, payload) == Ok(m)
  {
    hide DecodeShortstr, Number, OctetAt;
  }

  lemma OctetReads(data: octets, pos: nat, o: octet)
    requires At(data, pos, [o])
    ensures OctetAt(data, pos) == Ok(o)
  {
    assert data[pos..pos + 1][0] == data[pos];
  }

  lemma ReturnReads(m: Method, payload: octets)
    requires m.Return? && Fits(m) && At(payload, 4, Fields(m)) && 4 <= |payload|
    ensures DecodeBasic(50, payload) == Ok(m)
  {
    hide ValidUtf8;
    var (c, t, e, k) := (BigEndian(m.replyCode, 2), Short(m.replyText), Short(m.exchange), Short(m.routingKey));
    hide At, IsShort, BigEndian, Number, Short, FitsIn;
    AtSplit(payload, 4, c + t + e, k);
    AtSplit(payload, 4, c + t, e);
    AtSplit(payload, 4, c, t);
    ShortHasLength(m.replyText);
    ShortHasLength(m.exchange);
    FieldAt(m.replyCode, 2, payload, 4);
    ShortAt(m.replyText, payload, 6);
    ShortAt(m.exchange, payload, 7 + |m.replyText|);
    ShortAt(m.routingKey, payload, 8 + |m.replyText| + |m.exchange|);
  }

  lemma SettleReads(tag: int, bits: octet, payload: octets)
    requires FitsIn(tag, 8) && At(payload, 4, BigEndian(tag, 8) + [bits])
    ensures Number(payload, 4, 8) == tag && 13 <= |payload| && payload[12] == bits
  {
    SettleAt(tag, bits, payload);
  }

  lemma BasicReads(m: Method, payload: octets)
    requires Fits(m) && Ids(m).0 == BASIC && !m.Publish? && At(payload, 4, Fields(m)) && 4 <= |payload|
    ensures DecodeBasic(Ids(m).1, payload) == Ok(m)
  {
    hide At, IsShort, BigEndian, Number, Short, FitsIn, TextAt, DecodeShortstr;
    match m {
      case Deliver(_, _, _, _, _) => DeliverReads(m, payload);
      case Return(_, _, _, _) => ReturnReads(m, payload);
      case Ack(tag, multiple) => SettleReads(tag, Bit(multiple), payload);
      case Nack(tag, multiple, requeue) => SettleReads(tag, Bit(multiple) + 2 * Bit(requeue), payload);
      case ConsumeOk(tag) => ShortAt(tag, payload, 4);
      case CancelOk(tag) => ShortAt(tag, payload, 4);
      case _ =>
    }
  }

  lemma StartHas(m: Method) returns (table: octets)
    requires m.Start? && Fits(m)
    ensures m.versionMajor < 256 && m.versionMinor < 256 && TableTravels(m.serverProperties)
    ensures |m.mechanisms| <= CEILING && |m.locales| <= CEILING && ValidUtf8(m.mechanisms) && ValidUtf8(m.locales)
    ensures EncodeTable(m.serverProperties, 0, DEFAULT_MAX_TABLE_DEPTH) == Ok(table)
    ensures Fields(m) == [m.versionMajor] + [m.versionMinor] + table + Long(m.mechanisms) + Long(m.locales)
  {
    PowersOf256();
    hide ValidUtf8, EncodeTable, Long, KeysDistinct, ArePythonEntries, EntriesAsSent;
    table := EncodeTable(m.serverProperties, 0, DEFAULT_MAX_TABLE_DEPTH).value;
    assert [m.versionMajor, m.versionMinor] == [m.versionMajor] + [m.versionMinor];
  }

  lemma StartReads(m: Method, payload: octets)
    requires m.Start? && Fits(m) && At(payload, 4, Fields(m)) && 4 <= |payload|
    ensures DecodeConnection(10, payload) == Ok(m)
  {
    var table := StartHas(m);
    LongHasLength(m.mechanisms);
    hide *;
    FiveParts(payload, [m.versionMajor], [m.versionMinor], table, Long(m.mechanisms), Long(m.locales));
    StartAt(m, payload, table);
  }

  lemma StartAt(m: Method, payload: octets, table: octets)
    requires m.Start? && 4 <= |payload| && m.versionMajor < 256 && m.versionMinor < 256
    requires TableTravels(m.serverProperties)
    requires EncodeTable(m.serverProperties, 0, DEFAULT_MAX_TABLE_DEPTH) == Ok(table)
    requires |m.mechanisms| <= CEILING && |m.locales| <= CEILING && ValidUtf8(m.mechanisms) && ValidUtf8(m.locales)
    requires At(payload, 4, [m.versionMajor]) && At(payload, 5, [m.versionMinor]) && At(payload, 6, table)
    requires At(payload, 6 + |table|, Long(m.mechanisms))
    requires At(payload, 10 + |table| + |m.mechanisms|, Long(m.locales))
    ensures DecodeConnection(10, payload) == Ok(m)
  {
    hide *;
    OctetReads(payload, 4, m.versionMajor);
    OctetReads(payload, 5, m.versionMinor);
    TableReads(m.serverProperties, table, payload, 6);
    LongAt(m.mechanisms, payload, 6 + |table|);
    LongAt(m.locales, payload, 10 + |table| + |m.mechanisms|);
    StartFields(m, payload, 6 + |table|);
  }

  lemma TableReads(entries: seq<Entry>, table: octets, data: octets, pos: nat)
    requires TableTravels(entries) && EncodeTable(entries, 0, DEFAULT_MAX_TABLE_DEPTH) == Ok(table)
    requires At(data, pos, table)
    ensures DecodeTable(data, pos, 0, DEFAULT_MAX_TABLE_DEPTH) == Ok((entries, pos + |table|))
  {
    hide At, KeysDistinct, ArePythonEntries, EntriesAsSent, EncodeTable, DecodeTable;
    TableRoundTrip(entries, 0, DEFAULT_MAX_TABLE_DEPTH, table, data, pos, 0, DEFAULT_MAX_TABLE_DEPTH);
  }

  lemma StartFields(m: Method, payload: octets, p: nat)
    requires m.Start? && 4 <= |payload| && ValidUtf8(m.mechanisms) && ValidUtf8(m.locales)
    requires OctetAt(payload, 4) == Ok(m.versionMajor) && OctetAt(payload, 5) == Ok(m.versionMinor)
    requires DecodeTable(payload, 6, 0, DEFAULT_MAX_TABLE_DEPTH) == Ok((m.serverProperties, p))
    requires DecodeLongstr(payload, p) == Ok((m.mechanisms, p + 4 + |m.mechanisms|))
    requires DecodeLongstr(payload, p + 4 + |m.mechanisms|).Ok?
    requires DecodeLongstr(payload, p + 4 + |m.mechanisms|).value.0 == m.locales
    ensures DecodeConnection(10, payload) == Ok(m)
  {
    hide DecodeLongstr, DecodeTable, OctetAt, ValidUtf8;
  }

  lemma LongHasLength(content: octets)
    ensures |Long(content)| == 4 + |content|
  {}

  lemma TuneReads(m: Method, payload: octets)
    requires m.Tune? && Fits(m) && At(payload, 4, Fields(m)) && 4 <= |payload|
    ensures DecodeConnection(30, payload) == Ok(m)
  {
    hide ValidUtf8;
    var (c, f, h) := (BigEndian(m.channelMax, 2), BigEndian(m.frameMax, 4), BigEndian(m.heartbeat, 2));
    hide At, BigEndian, Number, FitsIn;
    AtSplit(payload, 4, c + f, h);
    AtSplit(payload, 4, c, f);
    FieldAt(m.channelMax, 2, payload, 4);
    FieldAt(m.frameMax, 4, payload, 6);
    FieldAt(m.heartbeat, 2, payload, 10);
  }

  lemma ConnectionReads(m: Method, payload: octets)
    requires Fits(m) && Ids(m).0 == CONNECTION && At(payload, 4, Fields(m)) && 4 <= |payload|
    ensures DecodeConnection(Ids(m).1, payload) == Ok(m)
  {
    hide At, IsShort, BigEndian, Number, Short, FitsIn, TextAt, DecodeShortstr, DecodeLongstr, DecodeTable, DecodeClose;
    match m {
      case Start(_, _, _, _, _) => StartReads(m, payload);
      case Secure(challenge) => LongAt(challenge, payload, 4);
      case Tune(_, _, _) => TuneReads(m, payload);
      case OpenOk(reserved) => ShortAt(reserved, payload, 4);
      case ConnectionClose(code, text, c, i) => CloseReads(code, text, c, i, payload);
      case Blocked(reason) => ShortAt(reason, payload, 4);
      case _ =>
    }
  }

  lemma QueueDeclareOkReads(m: Method, payload: octets)
    requires m.QueueDeclareOk? && Fits(m) && At(payload, 4, Fields(m)) && 4 <= |payload|
    ensures DecodeArguments(QUEUE, 11, payload) == Ok(m)
  {
    hide ValidUtf8;
    var (q, a, b) := (Short(m.queue), BigEndian(m.messageCount, 4), BigEndian(m.consumerCount, 4));
    hide At, IsShort, BigEndian, Number, Short, FitsIn, DecodeShortstr;
    AtSplit(payload, 4, q + a, b);
    AtSplit(payload, 4, q, a);
    ShortHasLength(m.queue);
    ShortAt(m.queue, payload, 4);
    FieldAt(m.messageCount, 4, payload, 5 + |m.queue|);
    FieldAt(m.consumerCount, 4, payload, 9 + |m.queue|);
  }

  /** What a method's layout decodes to is that method, for everything this client decodes. */
  lemma DecodesAsLaidOut(m: Method)
    requires Fits(m) && !m.Publish?
    ensures DecodeMethod(Layout(m)) == Ok(m)
  {
    var payload := Layout(m);
    var (c, i) := Ids(m);
    assert Head(m) == [0, c, 0, i];
    HeadReads(c, i, payload, Fields(m));
    if c == BASIC {
      BasicReads(m, payload);
    } else if c == CONNECTION {
      ConnectionReads(m, payload);
    } else {
      hide At, IsShort, BigEndian, Number, Short, FitsIn, DecodeShortstr, DecodeLongstr, DecodeClose, DecodeMethod;
      match m {
        case ChannelOpenOk(id) => LongAt(id, payload, 4);
        case ChannelClose(code, text, k, j) => CloseReads(code, text, k, j, payload);
        case QueueDeclareOk(_, _, _) => QueueDeclareOkReads(m, payload);
        case _ =>
      }
    }
  }

  /** The methods this client knows when they come in, by class and method. */
  predicate IsKnown(c: nat, i: nat) {
    || (c == 10 && i in {10, 20, 30, 41, 50, 51, 60, 61, 71}) || (c == 20 && i in {11, 40, 41})
    || (c == 40 && i == 11) || (c == 50 && i in {11, 21}) || (c == 60 && i in {11, 21, 31, 50, 60, 80, 120})
    || (c == 85 && i == 11)
  }

  /** Any other method is kept as it came, whatever follows its head. */
  lemma UnknownIsKept(payload: octets)
    requires 4 <= |payload|
    ensures var (c, i) := (FromBigEndian(payload[0..2]), FromBigEndian(payload[2..4]));
      !IsKnown(c, i) <==> DecodeMethod(payload) == Ok(Unknown(c, i, payload[4..]))
  {
    hide FromBigEndian, DecodeShortstr, DecodeLongstr, DecodeTable, ValidUtf8, Number, OctetAt;
  }

  /** An ack or a nack cut short of its bits has none of them set. */
  lemma BitsMayBeMissing(tag: nat)
    requires FitsIn(tag, 8)
    ensures DecodeMethod([0, 60, 0, 80] + BigEndian(tag, 8)) == Ok(Ack(tag, false))
    ensures DecodeMethod([0, 60, 0, 120] + BigEndian(tag, 8)) == Ok(Nack(tag, false, false))
  {
    var (a, n, t) := ([0, 60, 0, 80] + BigEndian(tag, 8), [0, 60, 0, 120] + BigEndian(tag, 8), BigEndian(tag, 8));
    HeadReads(60, 80, a, t);
    HeadReads(60, 120, n, t);
    FieldAt(tag, 8, a, 4);
    FieldAt(tag, 8, n, 4);
    hide At, BigEndian, Number, DecodeMethod, FitsIn;
  }

  /** A publish that encodes, read back octet by octet: the exchange, then the routing key,
      then one octet that says whether it is mandatory, and nothing else. */
  lemma PublishReads(m: Method, payload: octets)
    requires m.Publish? && EncodeMethod(m) == Ok(payload)
    ensures |payload| >= 6 && payload[..6] == [0, 60, 0, 40, 0, 0]
    ensures var exchange := DecodeShortstr(payload, 6);
      && exchange.Ok? && exchange.value.0 == m.exchange
      && var routingKey := DecodeShortstr(payload, exchange.value.1);
         && routingKey.Ok? && routingKey.value.0 == m.routingKey
         && |payload| == routingKey.value.1 + 1
         && payload[routingKey.value.1] == if m.mandatory then 1 else 0
  {
    PublishIs(m, payload);
    var (e, k) := (Short(m.exchange), Short(m.routingKey));
    hide *;
    ShortHasLength(m.exchange);
    ShortHasLength(m.routingKey);
    PublishParts(payload, e, k, Bit(m.mandatory));
    ShortAt(m.exchange, payload, 6);
    ShortAt(m.routingKey, payload, 7 + |m.exchange|);
    BitIs(m.mandatory);
  }

  lemma PublishIs(m: Method, payload: octets)
    requires m.Publish? && EncodeMethod(m) == Ok(payload)
    ensures IsShort(m.exchange) && IsShort(m.routingKey)
    ensures payload == [0, 60, 0, 40] + ([0, 0] + Short(m.exchange) + Short(m.routingKey) + [Bit(m.mandatory)])
  {
    hide ValidUtf8, EncodeMethod;
    EncodesAsLaidOut(m);
  }

  lemma BitIs(b: bool)
    ensures Bit(b) == if b then 1 else 0
  {}

  lemma PublishParts(payload: octets, e: octets, k: octets, bit: octet)
    requires payload == [0, 60, 0, 40] + ([0, 0] + e + k + [bit])
    ensures At(payload, 6, e) && At(payload, 6 + |e|, k)
    ensures |payload| == 6 + |e| + |k| + 1 && payload[..6] == [0, 60, 0, 40, 0, 0] && payload[6 + |e| + |k|] == bit
  {
    assert payload == [0, 60, 0, 40, 0, 0] + e + k + [bit];
    assert payload[6..6 + |e|] == e && payload[6 + |e|..6 + |e| + |k|] == k;
  }
}
