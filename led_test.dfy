/** The earlier firmware in daughterboard.c, whose bus receive handler shows
    the received byte on the six lamps: bits 5..0 drive power, orders,
    error 1, error 2, motor A and motor B, on the ports the header assigns. */
module LedTest {
  import opened Io
  import opened PinMap
  import Twi

  /** The lamp pins of each port. */
  const LedMaskA: Byte := PinLedPower | PinLedOrders | PinLedError1
  const LedMaskC: Byte := PinLedMotA | PinLedMotB
  const LedMaskE: Byte := PinLedError2

  /** The bits of a received byte that reach a lamp. */
  const LedBits: Byte := 0x3F

  /** The output registers of ports A, C and E. */
  datatype PortOuts = PortOuts(a: Byte, c: Byte, e: Byte)

  /** The state of the six lamp pins. */
  datatype LedPins = LedPins(
    power: bool, orders: bool, error1: bool,
    error2: bool, motA: bool, motB: bool)

  /** What the six lamp pins of the ports currently drive. */
  function Pins(p: PortOuts): LedPins
  {
    LedPins(p.a & PinLedPower != 0, p.a & PinLedOrders != 0, p.a & PinLedError1 != 0,
            p.e & PinLedError2 != 0, p.c & PinLedMotA != 0, p.c & PinLedMotB != 0)
  }

  /** The lamps a received byte asks for: bit 5 is the power lamp, down to
      bit 0 for the motor-B lamp, in the order the lamps sit on the board. */
  function Decode(b: Byte): LedPins
  {
    LedPins(b & Pin5 != 0, b & Pin4 != 0, b & Pin3 != 0, b & Pin2 != 0, b & Pin1 != 0, b & Pin0 != 0)
  }

  /** The byte a master sends to ask for the lamps `l`. */
  function Pack(l: LedPins): (b: Byte)
    ensures b & !LedBits == 0
  {
    (if l.power then Pin5 else 0) | (if l.orders then Pin4 else 0) |
    (if l.error1 then Pin3 else 0) | (if l.error2 then Pin2 else 0) |
    (if l.motA then Pin1 else 0) | (if l.motB then Pin0 else 0)
  }

  /** Port A after showing byte `b`: power, orders and error 1 from bits 5, 4
      and 3. */
  function ShowA(a: Byte, b: Byte): Byte
  {
    SetPin(SetPin(SetPin(a, PinLedPower, b & Pin5 != 0), PinLedOrders, b & Pin4 != 0),
           PinLedError1, b & Pin3 != 0)
  }

  /** Port C after showing byte `b`: motor A and motor B from bits 1 and 0. */
  function ShowC(c: Byte, b: Byte): Byte
  {
    SetPin(SetPin(c, PinLedMotA, b & Pin1 != 0), PinLedMotB, b & Pin0 != 0)
  }

  /** Port E after showing byte `b`: error 2 from bit 2. */
  function ShowE(e: Byte, b: Byte): Byte
  {
    SetPin(e, PinLedError2, b & Pin2 != 0)
  }

  /** The ports after showing byte `b`: the lamp pins follow `b`, every other
      pin of the three ports keeps its value. */
  function Show(p: PortOuts, b: Byte): (r: PortOuts)
    ensures Pins(r) == Decode(b)
    ensures r.a & !LedMaskA == p.a & !LedMaskA
    ensures r.c & !LedMaskC == p.c & !LedMaskC
    ensures r.e & !LedMaskE == p.e & !LedMaskE
  {
    PortOuts(ShowA(p.a, b), ShowC(p.c, b), ShowE(p.e, b))
  }

  /** Decoding a packed request gives back the six lamp states. */
  lemma DecodePack(l: LedPins)
    ensures Decode(Pack(l)) == l
  {
  }

  /** Packing what a byte decodes to recovers the byte's lamp bits. */
  lemma PackDecode(b: Byte)
    ensures Pack(Decode(b)) == b & LedBits
  {
  }

  /** Sending the packed form of `l` lights exactly the lamps of `l`. */
  lemma ShowRoundTrip(p: PortOuts, l: LedPins)
    ensures Pins(Show(p, Pack(l))) == l
  {
    DecodePack(l);
  }

  /** Bits 6 and 7 of the byte have no effect on any port. */
  lemma HighBitsIgnored(p: PortOuts, b: Byte)
    ensures Show(p, b) == Show(p, b & LedBits)
  {
    assert Decode(b) == Decode(b & LedBits);
  }

  /** The lamp pins afterwards depend on the byte alone, not on what the ports
      held before. */
  lemma PinsIndependentOfPorts(p: PortOuts, q: PortOuts, b: Byte)
    ensures Pins(Show(p, b)) == Pins(Show(q, b))
  {
  }

  /** Showing the same byte twice is the same as showing it once. */
  lemma ShowIdempotent(p: PortOuts, b: Byte)
    ensures Show(Show(p, b), b) == Show(p, b)
  {
  }

  /** The OUTCLR write and the three conditional OUTSET writes to port A
      amount to ShowA. */
  lemma PortASteps(a0: Byte, b: Byte, a1: Byte, a2: Byte, a3: Byte, a4: Byte)
    requires a1 == OutClr(a0, PinLedPower | PinLedOrders | PinLedError1)
    requires a2 == if b & Pin5 != 0 then OutSet(a1, PinLedPower) else a1
    requires a3 == if b & Pin4 != 0 then OutSet(a2, PinLedOrders) else a2
    requires a4 == if b & Pin3 != 0 then OutSet(a3, PinLedError1) else a3
    ensures a4 == ShowA(a0, b)
  {
  }

  /** The same for port C and its two conditional writes. */
  lemma PortCSteps(c0: Byte, b: Byte, c1: Byte, c2: Byte, c3: Byte)
    requires c1 == OutClr(c0, PinLedMotA | PinLedMotB)
    requires c2 == if b & Pin1 != 0 then OutSet(c1, PinLedMotA) else c1
    requires c3 == if b & Pin0 != 0 then OutSet(c2, PinLedMotB) else c2
    ensures c3 == ShowC(c0, b)
  {
  }

  /** The same for port E and its one conditional write. */
  lemma PortESteps(e0: Byte, b: Byte, e1: Byte, e2: Byte)
    requires e1 == OutClr(e0, PinLedError2)
    requires e2 == if b & Pin2 != 0 then OutSet(e1, PinLedError2) else e1
    ensures e2 == ShowE(e0, b)
  {
  }

  /** The three port output registers of the earlier board. */
  class Board {
    var portAOut: Byte
    var portCOut: Byte
    var portEOut: Byte

    function Ports(): PortOuts
      reads this
    {
      PortOuts(portAOut, portCOut, portEOut)
    }

    /** Power-up: every output register at its reset value 0. */
    constructor ()
      ensures Ports() == PortOuts(0, 0, 0)
    {
      portAOut, portCOut, portEOut := 0, 0, 0;
    }

    /** `TWIE_SlaveProcessData`: echo the inverted byte at index
        `bytesReceived`, clear the six lamp pins with OUTCLR, then set each one
        whose bit in that byte is 1 with OUTSET. The receive and send buffers
        are two separate arrays of the slave driver. */
    method SlaveProcessData(receivedData: array<Byte>, sendData: array<Byte>, bytesReceived: Byte)
      requires receivedData != sendData
      requires (bytesReceived as int) < receivedData.Length
      requires (bytesReceived as int) < sendData.Length
      modifies this, sendData
      ensures sendData[bytesReceived as int] == !old(receivedData[bytesReceived as int])
      ensures forall j :: 0 <= j < sendData.Length && j != bytesReceived as int ==>
        sendData[j] == old(sendData[j])
      ensures Ports() == Show(old(Ports()), receivedData[bytesReceived as int])
      ensures Pins(Ports()) == Decode(receivedData[bytesReceived as int])
    {
      Twi.EchoComplement(receivedData, sendData, bytesReceived);
      var bufIndex := bytesReceived as int;
      ghost var p0, b := Ports(), receivedData[bufIndex];

      portAOut := OutClr(portAOut, PinLedPower | PinLedOrders | PinLedError1);
      portCOut := OutClr(portCOut, PinLedMotA | PinLedMotB);
      portEOut := OutClr(portEOut, PinLedError2);
      ghost var a1, c1, e1 := portAOut, portCOut, portEOut;

      // The received bits are tested with `1 << n`, the same value as Pin n.
      if receivedData[bufIndex] & Pin5 != 0 { portAOut := OutSet(portAOut, PinLedPower); }
      ghost var a2 := portAOut;
      if receivedData[bufIndex] & Pin4 != 0 { portAOut := OutSet(portAOut, PinLedOrders); }
      ghost var a3 := portAOut;
      if receivedData[bufIndex] & Pin3 != 0 { portAOut := OutSet(portAOut, PinLedError1); }
      PortASteps(p0.a, b, a1, a2, a3, portAOut);

      if receivedData[bufIndex] & Pin2 != 0 { portEOut := OutSet(portEOut, PinLedError2); }
      PortESteps(p0.e, b, e1, portEOut);

      if receivedData[bufIndex] & Pin1 != 0 { portCOut := OutSet(portCOut, PinLedMotA); }
      ghost var c2 := portCOut;
      if receivedData[bufIndex] & Pin0 != 0 { portCOut := OutSet(portCOut, PinLedMotB); }
      PortCSteps(p0.c, b, c1, c2, portCOut);
    }
  }
}
