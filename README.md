# MessageEventArgs of websocket-sharp, in Dafny

This project models `MessageEventArgs`, the value a websocket-sharp endpoint
hands to its `OnMessage` callbacks for every received message. An event holds
an opcode and the message's application data. It offers three views of them:

- `Data`: the data as text;
- `RawData`: the bytes;
- `Type`: the opcode.

The class has two internal constructors. One takes raw bytes and refuses a
payload longer than `PayloadData.MaxLength` with the close status TOO_BIG.
The other takes a `PayloadData` unit and checks nothing.

The fields are assigned once, by the private `init`, and never written again.
So the event is a Dafny `datatype MessageEventArgs(opcode, data)`, and its
datatype constructor plays the part of `init`. The two C# constructors are
functions:

- `FromRawData` returns a `Result`, whose `Err(WebSocketException(TOO_BIG))`
  stands for the thrown exception;
- `FromPayloadData` is total.

`Data`, `RawData` and `Type` are member functions of the datatype. They read
the two fields and change nothing, so repeated reads return the same value and
depend on the fields alone. Dafny functions of an immutable value give this by
construction, so no lemma restates it.

Modules:

- `Opcodes` (opcodes.dfy): the frame opcodes of section 5.2 of RFC 6455. The six
  defined ones carry the member names `CONT`, `TEXT`, `BINARY`, `CLOSE`, `PING`
  and `PONG`. Every other four-bit value is `Reserved(v)`. The module gives each
  opcode's wire value and its name as `Enum.ToString` renders a value of a plain
  (not `[Flags]`) enumeration: the member name, or the decimal numeral for a
  value without a name. The enumeration's declaration is an assumption of the
  model (see "## Left out").
- `Numerals` (numerals.dfy): that decimal numeral and the parse that undoes it.
- `MessageEvents` (message_event_args.dfy): the event, its constructors, its
  views and the lemmas about them.

Choices the model makes:

- `Encoding.UTF8.GetString` is a parameter `utf8: seq<byte> -> string` of
  `Data`, and nothing is assumed about it. The lemmas say when the decoder is
  applied and to which bytes, never what it returns.
- `PayloadData.MaxLength` is assumed to be `0x7FFF_FFFF_FFFF_FFFF`, the 63-bit
  payload length ceiling of section 5.2 of RFC 6455 (the most significant bit
  of the 64-bit length must be 0). PayloadData.cs is not part of this model, so
  the value is an assumption. Only `CloseWithStatus` uses it, and only the
  fact that it is at least 2.
- Under that value, the TOO_BIG path cannot be reached from C#. `LongLength` is
  a `long`, so it is at most 2^63-1, and the guard at MessageEventArgs.cs:55
  is never true. The model's sequences have no such ceiling, so its `Err`
  branch is taken only for lengths no C# array can have.
- The C# guard is `(ulong)data.LongLength > PayloadData.MaxLength`. An array's
  length is never negative, so the cast changes nothing; the model compares
  `|data|` with `MaxLength`.
- Only the raw-bytes constructor checks the bound (MessageEventArgs.cs:55).
  The `PayloadData` constructor (:61-64) takes the unit's `ApplicationData`
  unchecked. So `FromPayloadData` accepts any length, and `ConstructorsAgree`
  states where the two differ.

## Model

| member | source | states |
|---|---|---|
| `MessageEvents.FromRawData` | websocket-sharp/MessageEventArgs.cs:53-59 | The raw-bytes constructor; its success value is the datatype `MessageEventArgs(opcode, data)`, which stands for the fields (:46-47) and `init` (:114-118), read back through `RawData` (:92-96) and `Type` (:104-108). Succeeds exactly when the payload has at most `MaxLength` bytes, so a payload of exactly `MaxLength` is accepted and one more byte is refused. On failure the error is `WebSocketException(TOO_BIG)`, close status 1009, and no event exists. On success the event's `Type` is the given opcode and its `RawData` the given bytes, unchanged. |
| `MessageEvents.FromPayloadData` | websocket-sharp/MessageEventArgs.cs:61-64 | The `PayloadData` constructor, building the datatype as `init` (:114-118) does. Never fails, whatever the length. The event's `Type` is the given opcode and its `RawData` is exactly the unit's `ApplicationData`. |
| `MessageEvents.ConstructorsAgree` | websocket-sharp/MessageEventArgs.cs:53-64 | Within the bound, the raw-bytes constructor yields the same event as the payload constructor. Beyond it, the raw-bytes constructor fails while the payload constructor stores the over-long data. |
| `MessageEvents.DataCases` | websocket-sharp/MessageEventArgs.cs:76-84 | The three cases of `MessageEventArgs.Data` (:76-84), with the opcode test of :78 as `RendersAsText`, read through `Type` and `RawData`. For TEXT, PING and PONG, `Data` is the empty string when there are no bytes, and otherwise the decoder applied to exactly the stored bytes. For any other opcode `Data` is the opcode's name. |
| `MessageEvents.DataUsesDecoderOnlyOnText` | websocket-sharp/MessageEventArgs.cs:78-81 | `Data` can depend on the decoder only for a TEXT, PING or PONG message with at least one byte, and only through the decoder's output on the stored bytes. So an empty payload is never decoded. |
| `MessageEvents.DataNamesOpcode` | websocket-sharp/MessageEventArgs.cs:78-82 | For messages that are not TEXT, PING or PONG, `Data` (:82) is the opcode's name and ignores bytes and decoder. Two such messages have equal `Data` if and only if they have the same opcode. Under the assumed plain (not `[Flags]`) Opcode enumeration, `Data` is a decimal numeral equal to the opcode's wire value exactly when the opcode is reserved. |
| `MessageEvents.EmptyPing` | websocket-sharp/MessageEventArgs.cs:53-108 | A PING with no payload is accepted. Its `Data` is "", its `RawData` is empty and its `Type` is PING. |
| `MessageEvents.CloseWithStatus` | websocket-sharp/MessageEventArgs.cs:53-108 | A CLOSE with a two-byte status is accepted. Its `Data` is "CLOSE" whatever the bytes, and its `RawData` is the two bytes unchanged. |
| `MessageEvents.BinaryMessage` | websocket-sharp/MessageEventArgs.cs:53-108 | A BINARY message within the bound is accepted. Its `Data` is "BINARY" and its `RawData` is the given bytes. |
| `Opcodes.Opcode.Name` | websocket-sharp/MessageEventArgs.cs:82 | `_opcode.ToString()`, for the assumed plain (not `[Flags]`) Opcode enumeration. The name is non-empty. A defined opcode's name does not start with a digit. A reserved opcode's name is all digits and parses back to its wire value. |
| `Opcodes.NameIdentifiesOpcode` | websocket-sharp/MessageEventArgs.cs:82 | Distinct opcodes have distinct names. |
| `Numerals.Decimal` | websocket-sharp/MessageEventArgs.cs:82 | The rendering `ToString` gives a value of the assumed plain (not `[Flags]`) enumeration that has no member name: non-empty, digits only, no leading zero except for zero itself. |
| `Numerals.ParseDecimalOfDecimal` | websocket-sharp/MessageEventArgs.cs:82 | Parsing a rendered numeral gives back the number, so distinct reserved values get distinct names. |

## Left out

- The behaviour of `Encoding.UTF8.GetString`, including what it does with malformed UTF-8. It is a .NET library call and is a parameter here.
- The inside of `PayloadData`: how `ApplicationData` is built from the frame and its extension data, and where `MaxLength` is declared. The model sees only the application data and a fixed bound.
- `WebSocketException` and `CloseStatusCode` beyond the single TOO_BIG error and its status code 1009.
- The `EventArgs` base class, the raising of `WebSocket.OnMessage`, threads and delivery order. These live in the connection layer.
- Aliasing: `RawData` returns the event's own array, not a copy, so a caller could change the bytes the event holds. The model keeps the bytes as an immutable sequence and does not capture changes made through that reference.
- Opcode.cs is not part of this model. MessageEventArgs.cs names only TEXT, PING and PONG (:78). The members CONT, BINARY and CLOSE, and all six values, are assumptions that follow the frame opcodes of section 5.2 of RFC 6455.
- Opcodes.Opcode.Name: assumes Opcode is a plain, non-`[Flags]` enumeration, so `ToString` prints a value without a member name as its decimal numeral. For a `[Flags]` enumeration .NET would instead join member names (`(Opcode)3` would print "TEXT, BINARY"). The same assumption underlies the decimal clauses of `MessageEvents.DataNamesOpcode`. Whether a reserved opcode can reach these constructors at all is decided by the frame layer, which is not part of this model.
- Null references: a `seq` cannot be null. So the model leaves out three cases. A null `data` throws NullReferenceException at :55. A null `PayloadData` throws at :63. A null `ApplicationData` is stored, and a later read of `Data` throws at :79.
