/** The frame opcodes of section 5.2 of RFC 6455, as the WebSocket endpoint
    classifies a received message, with their wire values and their names. */
module Opcodes {
  import opened Numerals

  /** A four-bit opcode value that the protocol leaves reserved: 0x3-0x7 for
      further non-control frames, 0xB-0xF for further control frames. */
  type ReservedValue = v: nat | v < 16 && v !in {0x0, 0x1, 0x2, 0x8, 0x9, 0xA} witness 0x3

  /** The opcode enumeration, taken to be a plain (not [Flags]) enumeration
      with the six members CONT, TEXT, BINARY, CLOSE, PING and PONG at the
      wire values of RFC 6455; any other four-bit value is carried as
      Reserved. Opcode.cs is not part of this model. */
  datatype Opcode = CONT | TEXT | BINARY | CLOSE | PING | PONG | Reserved(value: ReservedValue)
  {
    /** The opcode's value in the four-bit opcode field of a frame header. */
    function Value(): (v: nat)
      ensures v < 16
    {
      match this
      case CONT => 0x0
      case TEXT => 0x1
      case BINARY => 0x2
      case CLOSE => 0x8
      case PING => 0x9
      case PONG => 0xA
      case Reserved(v) => v
    }

    /** The opcode's name, as Enum.ToString renders a value of a plain
        enumeration: the member name of a defined opcode, the decimal numeral
        of the value otherwise. A defined name never starts with a digit; a
        reserved one is all digits. */
    function Name(): (s: string)
      ensures |s| > 0
      ensures Reserved? ==> AllDigits(s) && ParseDecimal(s) == Value()
      ensures !Reserved? ==> !IsDigit(s[0])
    {
      match this
      case CONT => "CONT"
      case TEXT => "TEXT"
      case BINARY => "BINARY"
      case CLOSE => "CLOSE"
      case PING => "PING"
      case PONG => "PONG"
      case Reserved(v) => ParseDecimalOfDecimal(v); Decimal(v)
    }
  }

  /** Distinct opcodes have distinct names, so a name identifies the opcode. */
  lemma NameIdentifiesOpcode(a: Opcode, b: Opcode)
    ensures a.Name() == b.Name() ==> a == b
  {
  }
}
