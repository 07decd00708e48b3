/** The message event a WebSocket endpoint hands to its OnMessage callbacks:
    the opcode of a received message and its application data, with a text
    view, a byte view and a type view of them. */
module MessageEvents {
  import opened Numerals
  import opened Opcodes

  type byte = bv8

  /** PayloadData.MaxLength, taken to be the longest payload a frame can
      announce: the 63-bit ceiling of the 64-bit extended payload length of
      section 5.2 of RFC 6455 (its most significant bit must be 0). The
      declaration itself, in PayloadData.cs, is not part of this model. */
  const MaxLength: nat := 0x7FFF_FFFF_FFFF_FFFF

  /** The close status the failure maps to: 1009, "message too big",
      section 7.4.1 of RFC 6455. */
  datatype CloseStatusCode = TOO_BIG
  {
    function Code(): nat {
      1009
    }
  }

  datatype Error = WebSocketException(status: CloseStatusCode)

  datatype Result<+T> = Ok(value: T) | Err(error: Error)

  /** A reassembled payload as the frame layer delivers it; only its
      application data is seen here. */
  datatype PayloadData = PayloadData(applicationData: seq<byte>)

  /** Encoding.UTF8.GetString, supplied by the caller; nothing is assumed
      about what it returns. */
  type Utf8Decoder = seq<byte> -> string

  /** The opcodes whose payload Data decodes as text. */
  predicate RendersAsText(opcode: Opcode) {
    opcode == TEXT || opcode == PING || opcode == PONG
  }

  /** The event's two fields, assigned once by init and never again. */
  datatype MessageEventArgs = MessageEventArgs(opcode: Opcode, data: seq<byte>)
  {
    /** The received data as text: the UTF-8 decoding of the bytes for a
        text, ping or pong message (the empty string, without decoding,
        when there are no bytes), the opcode's name for any other message. */
    function Data(utf8: Utf8Decoder): (s: string) {
      if RendersAsText(opcode) then
        if |data| > 0 then utf8(data) else ""
      else
        opcode.Name()
    }

    /** The received data as bytes. */
    function RawData(): (bytes: seq<byte>) {
      data
    }

    /** The kind of the received message. */
    function Type(): (op: Opcode) {
      opcode
    }
  }

  /** The constructor from raw bytes: a payload longer than MaxLength is
      refused with TOO_BIG and no event exists; any other payload, up to and
      including MaxLength bytes, is stored unchanged with the opcode. */
  function FromRawData(opcode: Opcode, data: seq<byte>): (r: Result<MessageEventArgs>)
    ensures r.Ok? <==> |data| <= MaxLength
    ensures r.Ok? ==> r.value.Type() == opcode && r.value.RawData() == data
    ensures r.Err? ==> r.error == WebSocketException(TOO_BIG) && r.error.status.Code() == 1009
  {
    if |data| > MaxLength then
      Err(WebSocketException(TOO_BIG))
    else
      Ok(MessageEventArgs(opcode, data))
  }

  /** The constructor from a payload unit: never fails, checks no length, and
      stores the unit's application data unchanged with the opcode. */
  function FromPayloadData(opcode: Opcode, payload: PayloadData): (m: MessageEventArgs)
    ensures m.Type() == opcode && m.RawData() == payload.applicationData
  {
    MessageEventArgs(opcode, payload.applicationData)
  }

  /** The two constructors build the same event whenever the raw-bytes one
      succeeds; they differ only on an over-long payload, which the payload
      constructor lets through. */
  lemma ConstructorsAgree(opcode: Opcode, payload: PayloadData)
    ensures |payload.applicationData| <= MaxLength ==>
      FromRawData(opcode, payload.applicationData) == Ok(FromPayloadData(opcode, payload))
    ensures |payload.applicationData| > MaxLength ==>
      FromRawData(opcode, payload.applicationData).Err? &&
      |FromPayloadData(opcode, payload).RawData()| > MaxLength
  {
  }

  /** Data case by case: empty text for a text-bearing message without
      bytes, the decoding of exactly the stored bytes for one with bytes,
      and the opcode's name otherwise. */
  lemma DataCases(m: MessageEventArgs, utf8: Utf8Decoder)
    ensures RendersAsText(m.Type()) && m.RawData() == [] ==> m.Data(utf8) == ""
    ensures RendersAsText(m.Type()) && m.RawData() != [] ==> m.Data(utf8) == utf8(m.RawData())
    ensures !RendersAsText(m.Type()) ==> m.Data(utf8) == m.Type().Name()
  {
  }

  /** The decoder is consulted only for a text-bearing message with at least
      one byte, and only on the stored bytes: two decoders that agree there
      give the same Data. */
  lemma DataUsesDecoderOnlyOnText(m: MessageEventArgs, utf8: Utf8Decoder, utf8': Utf8Decoder)
    ensures m.Data(utf8) != m.Data(utf8') ==>
      RendersAsText(m.Type()) && |m.RawData()| > 0 && utf8(m.RawData()) != utf8'(m.RawData())
  {
  }

  /** For a message that is not text-bearing Data ignores the bytes and the
      decoder, and names the opcode: a reader of Data alone can tell two such
      messages' kinds apart, and a reserved opcode reads as its number. */
  lemma DataNamesOpcode(m: MessageEventArgs, m': MessageEventArgs, utf8: Utf8Decoder, utf8': Utf8Decoder)
    requires !RendersAsText(m.Type()) && !RendersAsText(m'.Type())
    ensures m.Data(utf8) == m'.Data(utf8') <==> m.Type() == m'.Type()
    ensures m.Type().Reserved? <==> AllDigits(m.Data(utf8))
    ensures m.Type().Reserved? ==> ParseDecimal(m.Data(utf8)) == m.Type().Value()
  {
  }

  /** A ping without payload: accepted, empty text, no bytes, type PING. */
  lemma EmptyPing(utf8: Utf8Decoder)
    ensures FromRawData(PING, []).Ok?
    ensures var m := FromRawData(PING, []).value;
      m.Data(utf8) == "" && m.RawData() == [] && m.Type() == PING
  {
  }

  /** A close message with a two-byte status: accepted, text "CLOSE" whatever
      the bytes, bytes unchanged. */
  lemma CloseWithStatus(b0: byte, b1: byte, utf8: Utf8Decoder)
    ensures FromRawData(CLOSE, [b0, b1]).Ok?
    ensures var m := FromRawData(CLOSE, [b0, b1]).value;
      m.Data(utf8) == "CLOSE" && m.RawData() == [b0, b1] && m.Type() == CLOSE
  {
  }

  /** A binary message within the bound: text "BINARY", bytes unchanged. */
  lemma BinaryMessage(data: seq<byte>, utf8: Utf8Decoder)
    requires |data| <= MaxLength
    ensures FromRawData(BINARY, data).Ok?
    ensures var m := FromRawData(BINARY, data).value;
      m.Data(utf8) == "BINARY" && m.RawData() == data && m.Type() == BINARY
  {
  }
}
