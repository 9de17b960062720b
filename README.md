# Feather nRF52840 Express board support, modelled in Dafny

This project models the board-support crate for the Adafruit Feather
nRF52840 Express (`src/lib.rs`). The crate holds one piece of logic: who owns
which hardware resource. It has three parts.

- **Acquisition.** `Board::take` hands out a `Board` only while neither the
  Cortex-M core registry nor the nRF52840 chip registry has been handed out.
  It asks the core registry first, and `?` short-circuits, so the chip
  registry is not asked when the core one is gone. `Board::steal` hands out a
  board whatever the flags. The registries are the class `Pac.Registry`, with
  one once-flag each; `Feather.Take` and `Feather.Steal` take the registry as a parameter and update its flags.
- **Construction.** `Board::new` partitions both GPIO ports into one pin per
  line. It configures the flash SPI bus and its chip select and the USB CDC
  UART. It wraps the two LEDs and the button, and moves every remaining pin
  and peripheral token into the board.
  - Rust's move semantics make every line and token end up in exactly one
    place; here that is a proved obligation.
  - A line is a `(port, index)` pair, so P0.02 and P1.02 are different lines.
  - `Feather.Assignment` is the line each place of the board receives.
  - `Feather.Schematic` is an independent table mapping each line back to its
    place. Because it inverts the assignment, no line is handed out twice.
  - `Feather.Built` collects everything `Board::new` promises: the wiring,
    untouched free pins, the bus configurations, two distinct LEDs that are
    off, a pull-up button, and every token in exactly one place.
- **User I/O.** `UserIo.Led` is a class with an output-level field that
  `enable`/`disable` change. `UserIo.Button` is a value read active-low.
  `UserIo.Replay` is the LED's one-bit state machine over a sequence of calls.

Modules: `Wrappers` (Option), `Gpio` (ports, lines, modes, port partitions),
`Pac` (token names and the once-flag registry), `Bus` (the recorded `Spim` and
`Uarte` configurations), `UserIo` (LED and button), `Feather` (`Pins`, `Board`,
construction, acquisition).

`Board::new` is a method rather than a function because it allocates the two
`Led` objects, and `Led` is a class because its level changes in place. The
rest of the construction is made of pure functions (`Feather.Assemble` and its
parts).

`Board::steal` calls `CorePeripherals::steal` and `Peripherals::steal` from
cortex-m and the PAC. Their code is not part of this model. It is modelled as
their published behaviour: a steal reads no flag and leaves the flag set. So a
`take` after a `steal` returns `None`.

## Model

| member | source | states |
|---|---|---|
| Feather.Take | src/lib.rs:264-266 | returns a board exactly when neither registry had been taken; the flags end as `AfterTake` says; a returned board keeps every promise of `Board::new` and has fresh LEDs |
| Feather.AfterTake | src/lib.rs:264-266 | after a take the core flag is always set; when the core registry was free, the chip flag is set too, even if the chip take then failed; when the core registry was already taken, nothing changes; a later take is never granted |
| Feather.Steal | src/lib.rs:280-282 | always returns a board keeping every promise of `Board::new`; the flags end with both registries taken, whatever they were |
| Feather.AfterSteal | src/lib.rs:280-282 | after a steal no take is granted |
| Feather.TakeSucceedsOnlyFirst | src/lib.rs:260-266 | over any sequence of takes and steals, exactly one take returns a board if the sequence starts with a take from fresh flags; otherwise none does |
| Feather.NoGrantAfterwards | src/lib.rs:260-266 | once either registry is taken, no later take, after any mix of calls, returns a board |
| Feather.New | src/lib.rs:285-433 | the constructed board satisfies `Built`: wiring, free pins disconnected, flash and UART configuration, two distinct off LEDs, a pull-up button, and each token in exactly one place |
| Feather.AssembledBoardBuilt | src/lib.rs:285-433 | the board put together from the two port partitions, two distinct off LEDs on P1.15 and P1.10, and the remaining tokens satisfies every conjunct of `Built` |
| Feather.SchematicInvertsAssignment | src/lib.rs:286-355 | every line assigned to a place exists on its port, and the schematic maps it back to that place |
| Feather.AssignmentExclusive | src/lib.rs:286-355 | no two places receive the same line; no line taken by the flash bus, the chip select, the UART, an LED or the button is among the 20 `Pins` lines |
| Feather.WiredLinesExclusive | src/lib.rs:286-355 | on a wired board the held lines are pairwise distinct; claimed and unclaimed lines are disjoint; every held line is a real line of its port |
| Feather.FreePinsAssigned | src/lib.rs:325-346 | each of the 20 `Pins` fields, `_RESET` (P0.18) included, is its assigned line still in the disconnected mode `Parts::new` gave it |
| Feather.FlashBusOf | src/lib.rs:291-301 | the flash bus uses SPIM2 on P0.19 (sck), P0.21 (mosi) and P0.17 (miso); sck and mosi are push-pull outputs starting low; miso is a floating input; 500 kHz, mode 0, over-read character 0 |
| Feather.FlashSelectOf | src/lib.rs:303 | the flash chip select is P0.20, a push-pull output starting high, so the flash starts deselected |
| Feather.CdcBusOf | src/lib.rs:308-318 | the CDC UART uses UARTE0 with txd on P0.25, a push-pull output idling high, and rxd on P0.24, a floating input; no cts or rts; parity excluded; 115200 baud |
| Feather.TokensPlacedByFields | src/lib.rs:357-431 | with SPIM2 in the flash bus, UARTE0 in the UART and the named token fields filled, every chip token sits in exactly one place; P0 and P1 are consumed by the partitions; every core token has its field |
| Feather.FieldTokenPlaced | src/lib.rs:372-431 | a chip token with its own board field is in that field and nowhere else |
| Gpio.Parts | src/lib.rs:286-287 | a port partition has one pin per line of the port (32 on port 0, 16 on port 1); pin i is line i of that port, disconnected |
| Pac.Registry.TakeCore | src/lib.rs:265 | `CorePeripherals::take` yields the tokens exactly when the core flag was clear; it sets the flag and leaves the chip flag alone |
| Pac.Registry.TakeChip | src/lib.rs:265 | `Peripherals::take` yields the tokens exactly when the chip flag was clear; it sets the flag and leaves the core flag alone |
| Pac.Registry.StealCore | src/lib.rs:281 | `CorePeripherals::steal` yields the tokens unconditionally and leaves the core flag set |
| Pac.Registry.StealChip | src/lib.rs:281 | `Peripherals::steal` yields the tokens unconditionally and leaves the chip flag set |
| UserIo.Led.constructor | src/lib.rs:470-472 | `Led::new` makes the pin a push-pull output on the same line, driven low, so the LED starts off |
| UserIo.Led.Enable | src/lib.rs:475-477 | `enable` drives the line high: `is_on` becomes true and `is_off` false |
| UserIo.Led.Disable | src/lib.rs:480-482 | `disable` drives the line low: `is_on` becomes false and `is_off` true |
| UserIo.Led.IsOn | src/lib.rs:484-486 | `is_on` holds exactly when the owned output's latch is high |
| UserIo.Led.IsOff | src/lib.rs:488-490 | `is_off` is always the complement of `is_on` |
| UserIo.ReplayIsLastWrite | src/lib.rs:470-490 | after any sequence of `enable`/`disable` calls the level is what the last call wrote, or the start level after no calls |
| UserIo.OnIffLastCallEnabled | src/lib.rs:470-490 | starting from `Led::new`, the LED is on exactly when the most recent call was `enable` |
| UserIo.Button.New | src/lib.rs:505-507 | `Button::new` makes the pin a pull-up input on the same line |
| UserIo.Button.IsPressed | src/lib.rs:510-512 | `is_pressed` holds exactly when the line reads low (active-low) |
| UserIo.Button.IsReleased | src/lib.rs:515-517 | `is_released` is the exact complement of `is_pressed`, and holds exactly when the line reads high |

## Left out

- GPIO register programming: `into_push_pull_output`, `into_floating_input`, `into_pullup_input` and `degrade` belong to nrf52840-hal. A transition only records the pin's new mode, and `degrade` is the identity, since it only erases the line number from the Rust type.
- The `Spim` and `Uarte` protocol drivers (nrf52840-hal): a bus handle records the token, the pins and the configuration it was built with.
- The `unwrap()` on LED and button reads and writes: the HAL's error type is not visible, so these operations are assumed to succeed.
- The critical section that makes `CorePeripherals::take`/`Peripherals::take` atomic: only the sequential once-flag behaviour is modelled.
- The implementations of the two registries' `take` and `steal` (cortex-m and the PAC): modelled by their published once-flag behaviour. That a steal sets the flag comes from those crates, not from `src/lib.rs`.
- Chip register blocks that the PAC may define but `src/lib.rs` does not name: `Board::new` drops them, and the model does not list them.
- Port lines that `Board::new` neither assigns nor stores: they are dropped with the partitions, as in Rust.
- Reading the button's physical input is I/O: the level on the line is a parameter of `is_pressed` and `is_released`.
- The example program `examples/blinky.rs`: application code, an endless loop paced by the SysTick delay driver.
- The crate's re-exports and `prelude` module: they hold no logic.
