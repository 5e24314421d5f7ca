/** The method codec as the source runs it: an encoder that grows `body`, a decoder that
    moves `offset`.  Both are proved equal to the reference functions in module Methods. */
module MethodCodec {
  import opened Results
  import opened Octets
  import opened FieldTables
  import opened Methods

  method EncodeMethodPayload(m: Method) returns (r: Result<octets>)
    ensures r == EncodeMethod(m)
  {
    hide ToBytes, EncodeShortstr, EncodeLongstr;
    var c :- ToBytes(Ids(m).0, 2);
    var i :- ToBytes(Ids(m).1, 2);
    var head := c + i;
    var body := head;
    match m {
      case ConnectionCloseOk | ChannelCloseOk =>
        assert head + [] == body;
      case ConnectionClose(_, _, _, _) | ChannelClose(_, _, _, _) =>
        var code :- ToBytes(m.replyCode, 2);
        body := body + code;
        var text :- EncodeShortstr(m.replyText);
        body := body + text;
        var classId :- ToBytes(m.classId, 2);
        body := body + classId;
        var methodId :- ToBytes(m.methodId, 2);
        body := body + methodId;
        assert head + (code + text + classId + methodId) == body;
      case ChannelOpenOk(id) =>
        var s :- EncodeLongstr(id);
        body := body + s;
      case Publish(_, _, mandatory) =>
        body := body + [0, 0];
        var exchange :- EncodeShortstr(m.exchange);
        body := body + exchange;
        var routingKey :- EncodeShortstr(m.routingKey);
        body := body + routingKey;
        var bits := 0;
        if mandatory {
          bits := bits + 1;
        }
        body := body + [bits];
        assert head + ([0, 0] + exchange + routingKey + [bits]) == body;
      case Return(_, _, _, _) =>
        var code :- ToBytes(m.replyCode, 2);
        body := body + code;
        var text :- EncodeShortstr(m.replyText);
        body := body + text;
        var exchange :- EncodeShortstr(m.exchange);
        body := body + exchange;
        var routingKey :- EncodeShortstr(m.routingKey);
        body := body + routingKey;
        assert head + (code + text + exchange + routingKey) == body;
      case Ack(tag, multiple) =>
        var t :- ToBytes(tag, 8);
        body := body + t + [if multiple then 1 else 0];
        assert head + (t + [if multiple then 1 else 0]) == body;
      case Nack(tag, multiple, requeue) =>
        var t :- ToBytes(tag, 8);
        body := body + t;
        var bits := 0;
        if multiple {
          bits := bits + 1;
        }
        if requeue {
          bits := bits + 2;
        }
        body := body + [bits];
        assert head + (t + [bits]) == body;
      case _ =>
        return Err(UnsupportedMethod);
    }
    return Ok(body);
  }

  /** The content-bearing and settling methods of class 60. */
  method DecodeBasicPayload(methodId: nat, payload: octets) returns (r: Result<Method>)
    requires 4 <= |payload|
    ensures r == DecodeBasic(methodId, payload)
  {
    hide DecodeShortstr, Number;
    var offset := 4;
    if methodId == 50 {
      var code := Number(payload, offset, 2);
      offset := offset + 2;
      var text :- DecodeShortstr(payload, offset);
      offset := text.1;
      var exchange :- DecodeShortstr(payload, offset);
      offset := exchange.1;
      var routingKey :- DecodeShortstr(payload, offset);
      return Ok(Return(code, text.0, exchange.0, routingKey.0));
    }
    if methodId == 60 {
      var consumerTag :- DecodeShortstr(payload, offset);
      offset := consumerTag.1;
      var deliveryTag := Number(payload, offset, 8);
      offset := offset + 8;
      var redelivered :- OctetAt(payload, offset);
      offset := offset + 1;
      var exchange :- DecodeShortstr(payload, offset);
      offset := exchange.1;
      var routingKey :- DecodeShortstr(payload, offset);
      return Ok(Deliver(consumerTag.0, deliveryTag, redelivered != 0, exchange.0, routingKey.0));
    }
    if methodId == 80 {
      return Ok(Ack(Number(payload, offset, 8), offset + 9 <= |payload| && payload[offset + 8] != 0));
    }
    if methodId == 120 {
      var bits := if offset + 9 <= |payload| then payload[offset + 8] else 0;
      return Ok(Nack(Number(payload, offset, 8), bits % 2 == 1, bits / 2 % 2 == 1));
    }
    if methodId == 21 || methodId == 31 {
      var consumerTag :- DecodeShortstr(payload, offset);
      return Ok(if methodId == 21 then ConsumeOk(consumerTag.0) else CancelOk(consumerTag.0));
    }
    return Ok(if methodId == 11 then QosOk else Unknown(BASIC, methodId, payload[offset..]));
  }

  /** The handshake, close and flow methods of class 10. */
  method DecodeConnectionPayload(methodId: nat, payload: octets) returns (r: Result<Method>)
    requires 4 <= |payload|
    ensures r == DecodeConnection(methodId, payload)
  {
    hide DecodeShortstr, DecodeLongstr, DecodeTable, ValidUtf8, Number;
    var offset := 4;
    if methodId == 10 {
      var major :- OctetAt(payload, offset);
      var minor :- OctetAt(payload, offset + 1);
      offset := offset + 2;
      var properties :- DecodeTable(payload, offset, 0, DEFAULT_MAX_TABLE_DEPTH);
      offset := properties.1;
      var mechanisms :- DecodeLongstr(payload, offset);
      offset := mechanisms.1;
      if !ValidUtf8(mechanisms.0) {
        return Err(NotUtf8);
      }
      var locales :- DecodeLongstr(payload, offset);
      if !ValidUtf8(locales.0) {
        return Err(NotUtf8);
      }
      return Ok(Start(major, minor, properties.0, mechanisms.0, locales.0));
    }
    if methodId == 20 {
      var challenge :- DecodeLongstr(payload, offset);
      return Ok(Secure(challenge.0));
    }
    if methodId == 30 {
      return Ok(Tune(Number(payload, offset, 2), Number(payload, offset + 2, 4), Number(payload, offset + 6, 2)));
    }
    if methodId == 50 {
      var code := Number(payload, offset, 2);
      offset := offset + 2;
      var text :- DecodeShortstr(payload, offset);
      offset := text.1;
      return Ok(ConnectionClose(code, text.0, Number(payload, offset, 2), Number(payload, offset + 2, 2)));
    }
    if methodId == 41 || methodId == 60 {
      var text :- DecodeShortstr(payload, offset);
      return Ok(if methodId == 41 then OpenOk(text.0) else Blocked(text.0));
    }
    return Ok(if methodId == 51 then ConnectionCloseOk
              else if methodId == 61 then Unblocked
              else if methodId == 71 then UpdateSecretOk
              else Unknown(CONNECTION, methodId, payload[offset..]));
  }

  method DecodeMethodPayload(payload: octets) returns (r: Result<Method>)
    ensures r == DecodeMethod(payload)
  {
    hide DecodeShortstr, DecodeLongstr, DecodeBasic, DecodeConnection, Number;
    if |payload| < 4 {
      return Err(Truncated);
    }
    var classId, methodId := FromBigEndian(payload[0..2]), FromBigEndian(payload[2..4]);
    var offset := 4;
    if classId == CONNECTION {
      r := DecodeConnectionPayload(methodId, payload);
      return;
    }
    if classId == BASIC {
      r := DecodeBasicPayload(methodId, payload);
      return;
    }
    if classId == CHANNEL && methodId == 11 {
      var id :- DecodeLongstr(payload, offset);
      return Ok(ChannelOpenOk(id.0));
    }
    if classId == CHANNEL && methodId == 40 {
      var code := Number(payload, offset, 2);
      offset := offset + 2;
      var text :- DecodeShortstr(payload, offset);
      offset := text.1;
      return Ok(ChannelClose(code, text.0, Number(payload, offset, 2), Number(payload, offset + 2, 2)));
    }
    if classId == QUEUE && methodId == 11 {
      var queue :- DecodeShortstr(payload, offset);
      offset := queue.1;
      return Ok(QueueDeclareOk(queue.0, Number(payload, offset, 4), Number(payload, offset + 4, 4)));
    }
    return Ok(if classId == CHANNEL && methodId == 41 then ChannelCloseOk
              else if classId == EXCHANGE && methodId == 11 then ExchangeDeclareOk
              else if classId == QUEUE && methodId == 21 then QueueBindOk
              else if classId == CONFIRM && methodId == 11 then SelectOk
              else Unknown(classId, methodId, payload[offset..]));
  }
}
