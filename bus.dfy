/**
 * The two bus drivers of nrf52840-hal the board builds, `Spim` and `Uarte`.
 * Their protocol code is not modelled: a bus handle records the peripheral
 * token, the pins and the configuration it was constructed with.
 */
module Bus {
  import opened Wrappers
  import opened Gpio
  import Pac

  /** SPIM clock frequencies. */
  datatype Frequency = K125 | K250 | K500 | M1 | M2 | M4 | M8 | M16 | M32

  function Kilohertz(f: Frequency): nat
  {
    match f
    case K125 => 125
    case K250 => 250
    case K500 => 500
    case M1 => 1000
    case M2 => 2000
    case M4 => 4000
    case M8 => 8000
    case M16 => 16000
    case M32 => 32000
  }

  /** The SPI clock polarity and phase of embedded-hal's `spi::Mode`. */
  datatype Polarity = IdleLow | IdleHigh
  datatype Phase = CaptureOnFirstTransition | CaptureOnSecondTransition
  datatype SpiMode = SpiMode(polarity: Polarity, phase: Phase)

  /** `MODE_0`: clock idles low, data captured on the first (rising) edge. */
  const Mode0: SpiMode := SpiMode(IdleLow, CaptureOnFirstTransition)

  /** An unsigned byte (`u8`). */
  type Byte = x: int | 0 <= x < 256

  /** `spim::Pins`: the clock line and the optional data lines. */
  datatype SpimPins = SpimPins(sck: Pin, mosi: Option<Pin>, miso: Option<Pin>)

  /**
   * `Spim::new(instance, pins, frequency, mode, orc)`; `orc` is the
   * over-read character the controller clocks out once the transmit buffer
   * is exhausted.
   */
  datatype Spim = Spim(instance: Pac.ChipId, pins: SpimPins, frequency: Frequency, mode: SpiMode, orc: Byte)

  datatype Parity = Excluded | Included

  /** UARTE baud rates. */
  datatype Baudrate =
    | BAUD1200 | BAUD2400 | BAUD4800 | BAUD9600 | BAUD14400 | BAUD19200
    | BAUD28800 | BAUD31250 | BAUD38400 | BAUD56000 | BAUD57600 | BAUD76800
    | BAUD115200 | BAUD230400 | BAUD250000 | BAUD460800 | BAUD921600 | BAUD1M

  function BitsPerSecond(b: Baudrate): nat
  {
    match b
    case BAUD1200 => 1200
    case BAUD2400 => 2400
    case BAUD4800 => 4800
    case BAUD9600 => 9600
    case BAUD14400 => 14400
    case BAUD19200 => 19200
    case BAUD28800 => 28800
    case BAUD31250 => 31250
    case BAUD38400 => 38400
    case BAUD56000 => 56000
    case BAUD57600 => 57600
    case BAUD76800 => 76800
    case BAUD115200 => 115200
    case BAUD230400 => 230400
    case BAUD250000 => 250000
    case BAUD460800 => 460800
    case BAUD921600 => 921600
    case BAUD1M => 1000000
  }

  /** `uarte::Pins`: transmit and receive lines and the optional flow-control lines. */
  datatype UartePins = UartePins(txd: Pin, rxd: Pin, cts: Option<Pin>, rts: Option<Pin>)

  /** `Uarte::new(instance, pins, parity, baudrate)`. */
  datatype Uarte = Uarte(instance: Pac.ChipId, pins: UartePins, parity: Parity, baudrate: Baudrate)
}
