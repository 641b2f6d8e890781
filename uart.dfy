/** The transmit half of the buffered UART, seen as the sequence of characters
    written to it so far (`bwrite_all` appends and never fails here). */
module Uart {

  class Tx {
    var sent: string

    constructor ()
      ensures sent == []
    {
      sent := [];
    }

    /** `bwrite_all`: appends `bytes` to what the terminal receives. */
    method Write(bytes: string)
      modifies this
      ensures sent == old(sent) + bytes
    {
      sent := sent + bytes;
    }
  }
}
