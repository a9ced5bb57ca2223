/** Byte-wide I/O registers of the XMEGA as the firmware uses them: bit masks
    for single pins and the read-modify-write update of one pin in an output
    register. */
module Io {

  /** A data byte or an 8-bit port register. */
  type Byte = bv8

  /** The single-pin masks `PINn_bm` of the AVR I/O headers, `1 << n`. */
  const Pin0: Byte := 1 << 0
  const Pin1: Byte := 1 << 1
  const Pin2: Byte := 1 << 2
  const Pin3: Byte := 1 << 3
  const Pin4: Byte := 1 << 4
  const Pin5: Byte := 1 << 5
  const Pin6: Byte := 1 << 6
  const Pin7: Byte := 1 << 7

  /** `(out & ~mask) | (on ? mask : 0)`: the bits under `mask` become all set or
      all clear, every other bit of `out` is kept. */
  function SetPin(out: Byte, mask: Byte, on: bool): (r: Byte)
    ensures r & mask == (if on then mask else 0)
    ensures r & !mask == out & !mask
  {
    (out & !mask) | (if on then mask else 0)
  }

  /** Writing `m` to a port's OUTCLR register clears exactly the bits of `m`. */
  function OutClr(out: Byte, m: Byte): (r: Byte)
    ensures r & m == 0
    ensures r & !m == out & !m
  {
    out & !m
  }

  /** Writing `m` to a port's OUTSET register sets exactly the bits of `m`. */
  function OutSet(out: Byte, m: Byte): (r: Byte)
    ensures r & m == m
    ensures r & !m == out & !m
  {
    out | m
  }
}

/** Names of the pins that drive the six indicator lamps. Both board headers
    give the same masks; note that the error-2 lamp (port E) and the motor-A
    lamp (port C) share the mask of pin 3. */
module PinMap {
  import opened Io

  /** Port A. */
  const PinLedPower: Byte := Pin5
  const PinLedOrders: Byte := Pin6
  const PinLedError1: Byte := Pin7

  /** Port C. */
  const PinLedMotA: Byte := Pin3
  const PinLedMotB: Byte := Pin4

  /** Port E. */
  const PinLedError2: Byte := Pin3
}
