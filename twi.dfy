/** The reply both receive handlers give on the TWI (I2C) slave bus: the
    received byte at index `bytesReceived`, inverted. The slave driver that
    owns the buffers and counts the bytes is not part of this model; its
    buffers are arrays and the index is a parameter here. */
module Twi {
  import opened Io

  /** `sendData[bufIndex] = ~receivedData[bufIndex]` with
      `bufIndex = bytesReceived`. The C complement is taken on the promoted
      `int` and truncated back to `uint8_t`, which is the 8-bit complement. */
  method EchoComplement(receivedData: array<Byte>, sendData: array<Byte>, bytesReceived: Byte)
    requires (bytesReceived as int) < receivedData.Length
    requires (bytesReceived as int) < sendData.Length
    modifies sendData
    ensures sendData[bytesReceived as int] == !old(receivedData[bytesReceived as int])
    ensures forall j :: 0 <= j < sendData.Length && j != bytesReceived as int ==>
      sendData[j] == old(sendData[j])
  {
    var bufIndex := bytesReceived as int;
    sendData[bufIndex] := !receivedData[bufIndex];
  }
}
