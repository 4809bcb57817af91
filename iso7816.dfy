/**
 * The parts of ISO/IEC 7816-4 the applet relies on: the offsets of the command
 * header in the APDU buffer, the status words of section 5.1.3 it raises, and the
 * shape of a response.
 */
module Iso7816 {
  import opened JavaTypes

  const OFFSET_CLA := 0
  const OFFSET_INS := 1
  const OFFSET_P1 := 2
  const OFFSET_P2 := 3
  const OFFSET_LC := 4
  const OFFSET_CDATA := 5

  /** Normal processing. */
  const SW_NO_ERROR := 0x9000
  /** Wrong length. */
  const SW_WRONG_LENGTH := 0x6700
  /** Command not allowed (conditions of use not satisfied). */
  const SW_COMMAND_NOT_ALLOWED := 0x6986
  /** Instruction code not supported or invalid. */
  const SW_INS_NOT_SUPPORTED := 0x6D00
  /** Class not supported. */
  const SW_CLA_NOT_SUPPORTED := 0x6E00

  /**
   * How a command ends: normally (status word SW_NO_ERROR), with the data the card
   * sends back, or by an `ISOException` carrying a status word, after which nothing
   * is sent.
   */
  datatype Response = Success(data: seq<Byte>) | Failure(sw: int)

  /**
   * A class byte of the interindustry kind (section 5.1.1 of ISO/IEC 7816-4) has
   * bit b8 clear, that is, it is non-negative as a Java byte.
   */
  predicate IsInterindustryCla(cla: Byte) {
    cla >= 0
  }

  /**
   * The APDU buffer after the card has answered: the reply data is placed at
   * offset 0 and sent from there; the rest of the buffer is left as it was.
   */
  function Transmit(buf: seq<Byte>, r: Response): (out: seq<Byte>)
    ensures |out| == |buf|
    ensures r.Success? && |r.data| <= |buf| ==> out[..|r.data|] == r.data
    ensures forall i :: 0 <= i < |buf| && (r.Failure? || i >= |r.data|) ==> out[i] == buf[i]
  {
    if r.Success? && |r.data| <= |buf| then r.data + buf[|r.data|..] else buf
  }
}
