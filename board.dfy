/** The lamp annunciator of the daughterboard firmware in avr/: six `led_t`
    globals, the port A output register they are written to, the lamp refresh
    run on every timer tick, and the bus receive handler that pulses the
    orders lamp. */
module Daughterboard {
  import opened Io
  import opened PinMap
  import opened Lamp
  import Twi

  /** The pulse length, in ticks, that a received byte starts on the orders
      lamp. */
  const OrdersPulseTicks: Uint16 := 2500

  /** PORTA bits 0..2 carry no lamp in the refresh: the header names them
      `PIN_ANALOG_5`, `PIN_ANALOG_3` and `PIN_DIGITAL_1`. Bits 3 and 4, which
      it names `PIN_ANALOG_1` and `PIN_SWITCH_3`, are driven by the motor-lamp
      writes. */
  const NonLedMaskA: Byte := Pin0 | Pin1 | Pin2

  /** The six lamp records, in the order the refresh polls them. */
  datatype LedBank = LedBank(
    power: LedState, orders: LedState, error1: LedState,
    error2: LedState, motA: LedState, motB: LedState)

  /** Everything the lamp refresh reads and writes. */
  datatype Snapshot = Snapshot(leds: LedBank, portA: Byte)

  /** The six read-modify-write updates of PORTA.OUT that `do_leds` performs,
      given the poll results. All six go to port A, whatever port the header
      puts the pin on, and the error-2 and motor-A masks coincide. */
  function DoLedsPort(portA: Byte, power: bool, orders: bool, error1: bool,
                      error2: bool, motB: bool, motA: bool): Byte
  {
    var a := SetPin(portA, PinLedPower, power);
    var a := SetPin(a, PinLedOrders, orders);
    var a := SetPin(a, PinLedError1, error1);
    var a := SetPin(a, PinLedError2, error2);
    var a := SetPin(a, PinLedMotA, motB);
    SetPin(a, PinLedMotB, motA)
  }

  /** The state after one `do_leds`: each lamp polled once, port A updated
      from the poll results. The motor-A pin shows `led_motb` and the
      motor-B pin shows `led_mota`. */
  function DoLedsSpec(s: Snapshot): Snapshot
  {
    var b := s.leds;
    Snapshot(
      LedBank(Poll(b.power).next, Poll(b.orders).next, Poll(b.error1).next,
              Poll(b.error2).next, Poll(b.motA).next, Poll(b.motB).next),
      DoLedsPort(s.portA, Poll(b.power).lit, Poll(b.orders).lit, Poll(b.error1).lit,
                 Poll(b.error2).lit, Poll(b.motB).lit, Poll(b.motA).lit))
  }

  /** `k` timer ticks with nothing but the lamp refresh running. */
  function Ticks(s: Snapshot, k: nat): Snapshot
  {
    if k == 0 then s else DoLedsSpec(Ticks(s, k - 1))
  }

  /** Which bit of port A carries which poll result after the refresh. */
  lemma DoLedsPortBits(portA: Byte, power: bool, orders: bool, error1: bool,
                       error2: bool, motB: bool, motA: bool)
    ensures var r := DoLedsPort(portA, power, orders, error1, error2, motB, motA);
      && (r & Pin5 != 0 <==> power)
      && (r & Pin6 != 0 <==> orders)
      && (r & Pin7 != 0 <==> error1)
      && (r & Pin3 != 0 <==> motB)
      && (r & Pin4 != 0 <==> motA)
      && r & NonLedMaskA == portA & NonLedMaskA
  {
  }

  /** The error-2 poll result never reaches the port: the motor-A write to the
      same pin overwrites it. */
  lemma Error2Overwritten(portA: Byte, power: bool, orders: bool, error1: bool,
                          motB: bool, motA: bool)
    ensures DoLedsPort(portA, power, orders, error1, true, motB, motA)
         == DoLedsPort(portA, power, orders, error1, false, motB, motA)
  {
  }

  /** One refresh keeps every lamp's behaviour and takes at most one off
      each countdown. */
  lemma DoLedsSpecCountdown(s: Snapshot)
    ensures var b, b' := s.leds, DoLedsSpec(s).leds;
      && b'.power.behavior == b.power.behavior && b'.orders.behavior == b.orders.behavior
      && b'.error1.behavior == b.error1.behavior && b'.error2.behavior == b.error2.behavior
      && b'.motA.behavior == b.motA.behavior && b'.motB.behavior == b.motB.behavior
      && b'.power.time <= b.power.time <= b'.power.time + 1
      && b'.orders.time <= b.orders.time <= b'.orders.time + 1
      && b'.error1.time <= b.error1.time <= b'.error1.time + 1
      && b'.error2.time <= b.error2.time <= b'.error2.time + 1
      && b'.motA.time <= b.motA.time <= b'.motA.time + 1
      && b'.motB.time <= b.motB.time <= b'.motB.time + 1
  {
  }

  /** Over `k` ticks every lamp is polled exactly `k` times. */
  lemma {:induction false} TicksPollEachLamp(s: Snapshot, k: nat)
    ensures Ticks(s, k).leds == LedBank(
      PollTimes(s.leds.power, k), PollTimes(s.leds.orders, k), PollTimes(s.leds.error1, k),
      PollTimes(s.leds.error2, k), PollTimes(s.leds.motA, k), PollTimes(s.leds.motB, k))
  {
    if k > 0 {
      TicksPollEachLamp(s, k - 1);
    }
  }

  /** Once a received byte has started the orders pulse, the orders pin of
      port A is set after each of the next 2500 refreshes and clear after
      every later one. */
  lemma OrdersPinPulse(s: Snapshot, k: nat)
    requires s.leds.orders == LedState(BehaviorTimed, OrdersPulseTicks)
    ensures Ticks(s, k + 1).portA & Pin6 != 0 <==> k < OrdersPulseTicks
  {
    TicksPollEachLamp(s, k);
    PulseDecay(s.leds.orders, k);
    var b := Ticks(s, k).leds;
    DoLedsPortBits(Ticks(s, k).portA, Poll(b.power).lit, Poll(b.orders).lit, Poll(b.error1).lit,
                   Poll(b.error2).lit, Poll(b.motB).lit, Poll(b.motA).lit);
  }

  /** After start-up the power lamp shows on port A after every refresh. */
  lemma PowerPinSteady(s: Snapshot, k: nat)
    requires s.leds.power.behavior == BehaviorOn
    ensures Ticks(s, k + 1).portA & Pin5 != 0
  {
    TicksPollEachLamp(s, k);
    SteadyLamp(s.leds.power, k);
    var b := Ticks(s, k).leds;
    DoLedsPortBits(Ticks(s, k).portA, Poll(b.power).lit, Poll(b.orders).lit, Poll(b.error1).lit,
                   Poll(b.error2).lit, Poll(b.motB).lit, Poll(b.motA).lit);
  }

  /** The firmware's globals: the six lamp records and PORTA.OUT. The lamp
      records are fixed objects, like the globals they stand for. */
  class Board {
    const ledPower: Led
    const ledOrders: Led
    const ledError1: Led
    const ledError2: Led
    const ledMotA: Led
    const ledMotB: Led
    var portAOut: Byte

    /** The six records are six different globals. */
    ghost predicate Valid()
    {
      ledPower != ledOrders && ledPower != ledError1 && ledPower != ledError2 &&
      ledPower != ledMotA && ledPower != ledMotB &&
      ledOrders != ledError1 && ledOrders != ledError2 && ledOrders != ledMotA &&
      ledOrders != ledMotB &&
      ledError1 != ledError2 && ledError1 != ledMotA && ledError1 != ledMotB &&
      ledError2 != ledMotA && ledError2 != ledMotB &&
      ledMotA != ledMotB
    }

    function State(): Snapshot
      reads this, ledPower, ledOrders, ledError1, ledError2, ledMotA, ledMotB
    {
      Snapshot(
        LedBank(ledPower.State(), ledOrders.State(), ledError1.State(),
                ledError2.State(), ledMotA.State(), ledMotB.State()),
        portAOut)
    }

    /** Power-up: every static record zero-filled, PORTA.OUT at its reset
        value 0. */
    constructor ()
      ensures Valid()
      ensures fresh(ledPower) && fresh(ledOrders) && fresh(ledError1)
      ensures fresh(ledError2) && fresh(ledMotA) && fresh(ledMotB)
      ensures State() == Snapshot(
        LedBank(LedState(0, 0), LedState(0, 0), LedState(0, 0),
                LedState(0, 0), LedState(0, 0), LedState(0, 0)), 0)
    {
      ledPower := new Led();
      ledOrders := new Led();
      ledError1 := new Led();
      ledError2 := new Led();
      ledMotA := new Led();
      ledMotB := new Led();
      portAOut := 0;
    }

    /** The lamp part of `init_leds`: the power lamp is switched on; its
        countdown and every other record are left as they were. */
    method InitLeds()
      requires Valid()
      modifies ledPower
      ensures ledPower.State() == LedState(BehaviorOn, old(ledPower.time))
    {
      ledPower.behavior := BehaviorOn;
    }

    /** `do_leds`: poll each lamp once and write the results to port A. */
    method DoLeds()
      requires Valid()
      modifies this, ledPower, ledOrders, ledError1, ledError2, ledMotA, ledMotB
      ensures State() == DoLedsSpec(old(State()))
      ensures portAOut & NonLedMaskA == old(portAOut) & NonLedMaskA
      ensures (portAOut & Pin5 != 0) == Poll(old(ledPower.State())).lit
      ensures (portAOut & Pin6 != 0) == Poll(old(ledOrders.State())).lit
      ensures (portAOut & Pin7 != 0) == Poll(old(ledError1.State())).lit
      ensures (portAOut & Pin3 != 0) == Poll(old(ledMotB.State())).lit
      ensures (portAOut & Pin4 != 0) == Poll(old(ledMotA.State())).lit
    {
      ghost var s0 := State();
      var lit := LedCheckValue(ledPower);
      portAOut := SetPin(portAOut, PinLedPower, lit);
      lit := LedCheckValue(ledOrders);
      portAOut := SetPin(portAOut, PinLedOrders, lit);
      lit := LedCheckValue(ledError1);
      portAOut := SetPin(portAOut, PinLedError1, lit);
      lit := LedCheckValue(ledError2);
      portAOut := SetPin(portAOut, PinLedError2, lit);
      lit := LedCheckValue(ledMotB);
      portAOut := SetPin(portAOut, PinLedMotA, lit);
      lit := LedCheckValue(ledMotA);
      portAOut := SetPin(portAOut, PinLedMotB, lit);
      var b := s0.leds;
      DoLedsPortBits(s0.portA, Poll(b.power).lit, Poll(b.orders).lit, Poll(b.error1).lit,
                     Poll(b.error2).lit, Poll(b.motB).lit, Poll(b.motA).lit);
    }

    /** `TWIE_SlaveProcessData`: echo the inverted byte at index
        `bytesReceived` and start a 2500-tick pulse on the orders lamp. */
    method SlaveProcessData(receivedData: array<Byte>, sendData: array<Byte>, bytesReceived: Byte)
      requires Valid()
      requires (bytesReceived as int) < receivedData.Length
      requires (bytesReceived as int) < sendData.Length
      modifies sendData, ledOrders
      ensures sendData[bytesReceived as int] == !old(receivedData[bytesReceived as int])
      ensures forall j :: 0 <= j < sendData.Length && j != bytesReceived as int ==>
        sendData[j] == old(sendData[j])
      ensures ledOrders.State() == LedState(BehaviorTimed, OrdersPulseTicks)
      ensures forall k: nat :: Poll(PollTimes(ledOrders.State(), k)).lit <==> k < OrdersPulseTicks
    {
      Twi.EchoComplement(receivedData, sendData, bytesReceived);
      ledOrders.behavior := BehaviorTimed;
      ledOrders.time := OrdersPulseTicks;
      forall k: nat ensures Poll(PollTimes(ledOrders.State(), k)).lit <==> k < OrdersPulseTicks {
        PulseDecay(ledOrders.State(), k);
      }
    }
  }

  /** The start of `main`: the globals at power-up, then `init_leds`. The
      timer tick and the bus handler may then run on the board returned. */
  method PowerUp() returns (b: Board)
    ensures fresh(b) && b.Valid()
    ensures fresh(b.ledPower) && fresh(b.ledOrders) && fresh(b.ledError1)
    ensures fresh(b.ledError2) && fresh(b.ledMotA) && fresh(b.ledMotB)
    ensures b.State() == Snapshot(
      LedBank(LedState(BehaviorOn, 0), LedState(0, 0), LedState(0, 0),
              LedState(0, 0), LedState(0, 0), LedState(0, 0)), 0)
  {
    b := new Board();
    b.InitLeds();
  }
}
