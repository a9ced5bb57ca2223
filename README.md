# pcimotor daughterboard: lamp annunciator and bus echo

This project models the code of the pcimotor motor-controller daughterboard,
an ATxmega firmware. The motor, sensor and PID parts of that firmware are
empty, so the model covers only the code that does something:

- **The lamp annunciator of `avr/daughterboard.c`.** There are six `led_t`
  records: power, orders, error 1, error 2, motor A and motor B. Each holds a
  behaviour (`OFF`, `ON` or `TIMED`) and a 16-bit countdown.
  - `led_check_value` polls one record. `ON` is lit and `OFF` is unlit. `TIMED`
    is lit while the countdown is positive and takes one off it. Any other
    value is unlit, including the 0 of a record never written.
  - `do_leds` runs on every timer tick. It polls the six records and writes
    the results into `PORTA.OUT` by read-modify-write.
  - The bus receive handler echoes the inverted byte. It also starts a
    2500-tick pulse on the orders lamp.
  - `init_leds` switches the power lamp on.
- **The earlier bus receive handler of `daughterboard.c`.** It echoes the
  inverted byte the same way. It then shows bits 5..0 of the received byte on
  the six lamp pins of ports A, C and E. It clears the pins with `OUTCLR` and
  sets them with `OUTSET`.

Module layout:

- `Io` (io.dfy): bytes as `bv8`, the pin masks `PINn_bm` as `1 << n`, and the
  register updates. The read-modify-write is `SetPin`. `OUTCLR m` is
  `out & ~m` and `OUTSET m` is `out | m`.
- `PinMap` (io.dfy): the lamp pin masks of the two board headers.
- `Lamp` (lamp.dfy):
  - `led_t` as the value `LedState` and the class `Led`.
  - The poll as the function `Poll`.
  - `led_check_value` as the method `LedCheckValue`, which updates a `Led`
    in place.
- `Twi` (twi.dfy): the echo that both handlers share.
- `Daughterboard` (board.dfy): the `avr/` firmware's globals as the class
  `Board`, which holds six `Led` objects and `portAOut`. It also holds
  `init_leds`, `do_leds` and the receive handler. Each method is proved
  against a value-level specification: `DoLedsSpec` and `Ticks`.
- `LedTest` (led_test.dfy): the earlier firmware's three port registers as a
  class. The receive handler is proved against `Show`, the "show this byte on
  the lamps" function.

The model keeps the code's quirks exactly:

- A `TIMED` lamp whose countdown reaches 0 stays `TIMED`; it never becomes
  `OFF`.
- All six writes in `do_leds` go to port A. The header places the motor pins
  on port C and error 2 on port E.
- The error-2 and motor-A masks are both pin 3, so the error-2 result is
  always overwritten.
- The motor-A pin shows `led_motb` and the motor-B pin shows `led_mota`.
- The buffer index is `bytesReceived` itself.

Further facts about the code that the model follows:

- No lamp is ever set back to `OFF`. A timed pulse that has run out keeps
  `TIMED` with time 0 and polls unlit.
- Only the power lamp is ever given a behaviour at start-up. The other five
  records keep the zero of an unassigned global. Behaviour 0 is none of `OFF`,
  `ON` and `TIMED`, and it polls unlit.
- The timer tick runs `do_leds`, `do_sensors` and `do_motors` in that order
  (avr/daughterboard.c:152-157). The last two are empty. The `go` command's
  timeout and the PID channels are described in avr/i2c_commands.h:34-44 and
  54-74, but no code implements them.
- `do_leds` also drives the port A pins that the header names `PIN_ANALOG_1`
  (bit 3) and `PIN_SWITCH_3` (bit 4) (avr/daughterboard.h:39-40). It leaves
  bits 0..2 alone: `PIN_ANALOG_5`, `PIN_ANALOG_3` and `PIN_DIGITAL_1`.
- The bus callback is registered at avr/daughterboard.c:84 as
  `TWIE_SlaveProcessData`, before that function is defined at line 98. The
  header declares only `TWIC_SlaveProcessData` (avr/daughterboard.h:163). This
  comes from reading the text only; nothing was compiled. The model takes the
  handler that is defined at line 98.

## Model

| member | source | states |
|---|---|---|
| `Io.SetPin` | avr/daughterboard.c:228-233 | the masked bits become all set or all clear as the flag says; every other bit keeps its value |
| `Io.OutClr` | daughterboard.c:86-88 | an OUTCLR write clears exactly the bits of its mask and keeps the rest |
| `Io.OutSet` | daughterboard.c:91-98 | an OUTSET write sets exactly the bits of its mask and keeps the rest |
| `Lamp.Poll` | avr/daughterboard.c:205-224 | a poll never changes the behaviour; the countdown drops by at most one, never below 0, and drops exactly when a `TIMED` lamp polls lit |
| `Lamp.PollOn` | avr/daughterboard.c:209-210 | an `ON` lamp polls lit and its record is unchanged |
| `Lamp.PollOffOrUnknown` | avr/daughterboard.c:207-223 | an `OFF` lamp, or one with a behaviour outside the enum such as 0, polls unlit and is unchanged |
| `Lamp.PollTimedRunning` | avr/daughterboard.c:215-220 | a `TIMED` lamp with a positive countdown polls lit; the countdown drops by one and the lamp stays `TIMED` |
| `Lamp.PollTimedExpired` | avr/daughterboard.c:215-223 | a `TIMED` lamp at 0 polls unlit and stays `TIMED` at 0 (no underflow) |
| `Lamp.TimedCountdown` | avr/daughterboard.c:215-220 | after k polls a timed lamp is still `TIMED` with its countdown k lower, stopped at 0 |
| `Lamp.PulseDecay` | avr/daughterboard.c:215-223 | a `TIMED` lamp started at n is lit on exactly the first n polls and unlit on every later one |
| `Lamp.SteadyLamp` | avr/daughterboard.c:207-214 | a lamp that is not `TIMED` never changes under polling; it is lit on every poll exactly when it is `ON` |
| `Lamp.Led.constructor` | avr/daughterboard.h:133-138 | an unassigned `led_t` global has behaviour 0 and time 0 |
| `Lamp.LedCheckValue` | avr/daughterboard.c:205-224 | `led_check_value` returns the poll result and leaves the record the poll specifies |
| `Twi.EchoComplement` | avr/daughterboard.c:106-107 | `sendData[bytesReceived]` becomes the 8-bit complement of `receivedData[bytesReceived]`; no other `sendData` entry changes |
| `Daughterboard.DoLedsPortBits` | avr/daughterboard.c:228-233 | after the six port writes, PORTA bits 5, 6 and 7 hold the power, orders and error-1 results, bit 3 holds `led_motb`'s, bit 4 holds `led_mota`'s, and bits 0..2 keep their values |
| `Daughterboard.Error2Overwritten` | avr/daughterboard.c:231-232 | the error-2 result has no effect on port A |
| `Daughterboard.DoLedsSpecCountdown` | avr/daughterboard.c:226-234 | one refresh keeps each lamp's behaviour and takes at most one off each countdown |
| `Daughterboard.TicksPollEachLamp` | avr/daughterboard.c:226-234 | k refreshes poll every one of the six lamps exactly k times |
| `Daughterboard.OrdersPinPulse` | avr/daughterboard.c:110-111 | once the receive handler has started the orders pulse, the orders pin of port A is set after each of the next 2500 refreshes and clear after every later one |
| `Daughterboard.PowerPinSteady` | avr/daughterboard.c:202 | once `init_leds` has switched the power lamp on, its pin of port A is set after every refresh |
| `Daughterboard.Board.constructor` | avr/daughterboard.h:133-138 | at power-up all six records are zero and PORTA.OUT is 0; the six records are new and pairwise distinct objects, so later calls may update them |
| `Daughterboard.Board.InitLeds` | avr/daughterboard.c:202 | the power lamp becomes `ON`, and nothing else changes |
| `Daughterboard.Board.DoLeds` | avr/daughterboard.c:226-234 | `do_leds` leaves the state `DoLedsSpec` gives: each lamp polled once, PORTA bits 5, 6, 7, 3, 4 set to the poll results of power, orders, error 1, motor B and motor A, and bits 0..2 unchanged |
| `Daughterboard.PowerUp` | avr/daughterboard.c:249-256 | after power-up and `init_leds`, on a new board: the power lamp is `ON` with time 0, the other five records are zero, and PORTA.OUT is 0 |
| `Daughterboard.Board.SlaveProcessData` | avr/daughterboard.c:98-112 | the complement echo at index `bytesReceived`, no other `sendData` change, and `led_orders` set to `TIMED` with time 2500, so it is lit for exactly the next 2500 polls |
| `LedTest.Pack` | daughterboard.c:91-98 | a master's request byte for six lamp states uses only bits 5..0 |
| `LedTest.Show` | daughterboard.c:86-98 | after showing a byte, the power, orders and error-1 pins of port A equal bits 5, 4 and 3, the port E error-2 pin equals bit 2, the port C motor-A and motor-B pins equal bits 1 and 0, and every other bit of the three ports is unchanged |
| `LedTest.DecodePack` | daughterboard.c:91-98 | decoding a packed request gives back the six lamp states |
| `LedTest.PackDecode` | daughterboard.c:91-98 | packing a byte's decoded lamp states gives back bits 5..0 of the byte |
| `LedTest.ShowRoundTrip` | daughterboard.c:91-98 | sending the packed form of six lamp states lights exactly those lamps, whatever the ports held |
| `LedTest.HighBitsIgnored` | daughterboard.c:91-98 | bits 6 and 7 of the received byte affect no output |
| `LedTest.PinsIndependentOfPorts` | daughterboard.c:86-98 | the resulting lamp pins depend only on the received byte, not on the prior port contents |
| `LedTest.ShowIdempotent` | daughterboard.c:86-98 | handling the same byte twice leaves the ports as handling it once |
| `LedTest.Board.constructor` | daughterboard.c:187-192 | at power-up the output registers of ports A, C and E read 0; the earlier `init_leds` sets only pin directions, so they still read 0 when the first byte arrives |
| `LedTest.Board.SlaveProcessData` | daughterboard.c:74-99 | the complement echo at index `bytesReceived`, no other `sendData` change, and the ports become `Show` of the old ports and the received byte, so the six lamp pins are the byte's bits 5..0 |

## Left out

- Register and peripheral setup is left out. It is one-time, runs once at
  start-up, and has no logic to state:
  - `init_twi`
  - `init_clock` and its wait for the oscillator
  - the pin-direction writes of both `init_leds`
  - the `PORTCFG` pull-up setup
- The interrupt service routines and `main`'s empty loop are left out. The
  model treats each call of `do_leds` or of a receive handler as one atomic
  step.
  - The tick interrupt has medium priority and the bus interrupt low
    priority, so the tick can preempt the handler between its two writes to
    `led_orders`. That interleaving is not modelled.
- The TWI slave driver is not part of this model. It owns `receivedData`,
  `sendData` and `bytesReceived`, so these are parameters here. The index
  must be within both buffers.
  - The earlier handler also requires the two buffers to be different arrays.
    They are separate members of the driver's structure, and the handler
    reads the received byte again after writing the reply.
- The clock system driver is not part of this model.
- `do_sensors`, `do_motors`, `init_sensors` and `init_motors` are empty in the
  source, so there is nothing to model. The PID controller, the motor channels
  and the `go` timeout are described only in the prose of
  avr/i2c_commands.h:34-44 and 54-74; no code implements them.
- The command constants and prose of `avr/i2c_commands.h` have no decoder in
  the code. The sensor-function table of `double`-valued function pointers is
  foreign calls and floating point. Neither is modelled.
- The unused global `twi_last_read` is not modelled.
- The register reset value 0 of `PORTA.OUT`, `PORTC.OUT` and `PORTE.OUT` in the
  constructors is taken from the XMEGA data sheet, which is not part of this
  model.
