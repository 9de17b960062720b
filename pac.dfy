/**
 * The peripheral registries the board crate draws its tokens from:
 * `cortex_m::Peripherals` (the Cortex-M core facilities, called
 * `CorePeripherals` in the crate) and `nrf52840_pac::Peripherals` (the chip's
 * register blocks). A token is identified by the block it gives access to.
 * Each registry has a once-flag: `take` hands the tokens out only while the
 * flag is clear and sets it; `steal` hands them out unconditionally.
 *
 * Only the sequential once-flag behaviour is modelled, not the critical
 * section that makes it atomic.
 */
module Pac {
  import opened Wrappers

  /** The Cortex-M core facilities. */
  datatype CoreId =
    | CBP | CPUID | DCB | DWT | FPB | FPU | ITM | MPU | NVIC | SCB | SYST | TPIU

  /** The nRF52840 register blocks the board crate names. */
  datatype ChipId =
    | FICR | UICR | ACL | POWER | CLOCK | RADIO
    | UART0 | SPIM0 | SPIS0 | TWIM0 | TWIS0 | SPI0 | TWI0
    | SPIM1 | SPIS1 | TWIM1 | TWIS1 | SPI1 | TWI1
    | NFCT | GPIOTE | SAADC | TIMER0 | TIMER1 | TIMER2 | RTC0 | TEMP | RNG
    | ECB | CCM | AAR | WDT | RTC1 | QDEC | COMP | LPCOMP
    | SWI0 | EGU0 | SWI1 | EGU1 | SWI2 | EGU2 | SWI3 | EGU3 | SWI4 | EGU4 | SWI5 | EGU5
    | TIMER3 | TIMER4 | PWM0 | PDM | NVMC | PPI | MWU | PWM1 | PWM2 | RTC2 | I2S
    | P0 | P1 | SPIM2 | UARTE0

  /** A value of the core registry: one token for every `CoreId`. */
  datatype CorePeripherals = CorePeripherals

  /** A value of the chip registry: one token for every `ChipId`. */
  datatype Peripherals = Peripherals

  /** The two once-flags: has the core, has the chip registry been handed out? */
  datatype Flags = Flags(coreTaken: bool, chipTaken: bool)

  /** The process-wide registry state. */
  class Registry {
    var coreTaken: bool
    var chipTaken: bool

    /** At reset neither registry has been handed out. */
    constructor ()
      ensures State() == Flags(false, false)
    {
      coreTaken, chipTaken := false, false;
    }

    function State(): Flags
      reads this
    {
      Flags(coreTaken, chipTaken)
    }

    /** `CorePeripherals::take`: the core tokens the first time, `None` afterwards. */
    method TakeCore() returns (cp: Option<CorePeripherals>)
      modifies this
      ensures cp.Some? <==> !old(coreTaken)
      ensures coreTaken && chipTaken == old(chipTaken)
    {
      if coreTaken {
        cp := None;
      } else {
        coreTaken := true;
        cp := Some(CorePeripherals);
      }
    }

    /** `CorePeripherals::steal`: the core tokens whatever the flag; the flag ends up set. */
    method StealCore() returns (cp: CorePeripherals)
      modifies this
      ensures coreTaken && chipTaken == old(chipTaken)
    {
      coreTaken := true;
      cp := CorePeripherals;
    }

    /** `Peripherals::take`: the chip tokens the first time, `None` afterwards. */
    method TakeChip() returns (p: Option<Peripherals>)
      modifies this
      ensures p.Some? <==> !old(chipTaken)
      ensures chipTaken && coreTaken == old(coreTaken)
    {
      if chipTaken {
        p := None;
      } else {
        chipTaken := true;
        p := Some(Peripherals);
      }
    }

    /** `Peripherals::steal`: the chip tokens whatever the flag; the flag ends up set. */
    method StealChip() returns (p: Peripherals)
      modifies this
      ensures chipTaken && coreTaken == old(coreTaken)
    {
      chipTaken := true;
      p := Peripherals;
    }
  }
}
