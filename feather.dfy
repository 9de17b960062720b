/**
 * The board-support layer of the Adafruit Feather nRF52840 Express: the
 * `Board` aggregate, its construction `Board::new`, and the two ways of
 * obtaining one, `Board::take` and `Board::steal`.
 *
 * Rust's move semantics make every pin and every token end up in exactly one
 * place. Here that is an explicit obligation: `Board::new` promises that each
 * position of the board holds the line the board's schematic assigns to it
 * (so no line is held twice), that the free pins are untouched, how every bus
 * line is configured, and where every token went.
 */
module Feather {
  import opened Wrappers
  import opened Gpio
  import opened Pac
  import opened Bus
  import opened UserIo

  // ---------------------------------------------------------------- the Board

  /** The fields of `Pins`, the lines left free for user wiring; `Reset` is the private `_RESET`. */
  datatype PinName =
    | Reset | A0 | A1 | A2 | A3 | A4 | A5 | Sck | Mosi | Miso | Scl | Sda
    | D2 | D5 | D6 | D9 | D10 | D11 | D12 | D13

  /** `Pins`: the free lines, each still as `Parts::new` handed it out. */
  datatype Pins = Pins(
    reset: Pin, a0: Pin, a1: Pin, a2: Pin, a3: Pin, a4: Pin, a5: Pin,
    sck: Pin, mosi: Pin, miso: Pin, scl: Pin, sda: Pin,
    d2: Pin, d5: Pin, d6: Pin, d9: Pin, d10: Pin, d11: Pin, d12: Pin, d13: Pin)
  {
    /** The field called `n`. */
    function Get(n: PinName): Pin
    {
      match n
      case Reset => reset
      case A0 => a0
      case A1 => a1
      case A2 => a2
      case A3 => a3
      case A4 => a4
      case A5 => a5
      case Sck => sck
      case Mosi => mosi
      case Miso => miso
      case Scl => scl
      case Sda => sda
      case D2 => d2
      case D5 => d5
      case D6 => d6
      case D9 => d9
      case D10 => d10
      case D11 => d11
      case D12 => d12
      case D13 => d13
    }
  }

  datatype Leds = Leds(d3: Led, conn: Led)

  datatype Buttons = Buttons(switch: Button)

  /**
   * `Board`. The token fields are kept as sets of names: the field called X
   * holds the token of block X.
   */
  datatype Board = Board(
    pins: Pins,
    cdc: Uarte,
    flash: Spim,
    flashCs: Pin,
    leds: Leds,
    buttons: Buttons,
    core: set<CoreId>,
    chip: set<ChipId>)

  // -------------------------------------------------- lines and their owners

  /** The places of a board that hold a GPIO line. */
  datatype Owner =
    | FlashSck | FlashMosi | FlashMiso | FlashCs | CdcTxd | CdcRxd
    | LedD3 | LedConn | Switch
    | Free(name: PinName)

  function LineOf(p: Option<Pin>): Option<Line>
  {
    if p.Some? then Some(p.value.line) else None
  }

  /** The line that board `b` holds at place `o`, if that place holds one. */
  function Holds(b: Board, o: Owner): Option<Line>
  {
    match o
    case FlashSck => Some(b.flash.pins.sck.line)
    case FlashMosi => LineOf(b.flash.pins.mosi)
    case FlashMiso => LineOf(b.flash.pins.miso)
    case FlashCs => Some(b.flashCs.line)
    case CdcTxd => Some(b.cdc.pins.txd.line)
    case CdcRxd => Some(b.cdc.pins.rxd.line)
    case LedD3 => Some(b.leds.d3.line)
    case LedConn => Some(b.leds.conn.line)
    case Switch => Some(b.buttons.switch.pin.line)
    case Free(n) => Some(b.pins.Get(n).line)
  }

  /**
   * The line `Board::new` puts at each place: the flash bus, its chip select
   * and the UART on port 0, the LEDs and the button on port 1, and the free
   * pins as `Pins` lists them.
   */
  function Assignment(o: Owner): Line
  {
    match o
    case FlashSck => Line(Port0, 19)
    case FlashMosi => Line(Port0, 21)
    case FlashMiso => Line(Port0, 17)
    case FlashCs => Line(Port0, 20)
    case CdcTxd => Line(Port0, 25)
    case CdcRxd => Line(Port0, 24)
    case LedD3 => Line(Port1, 15)
    case LedConn => Line(Port1, 10)
    case Switch => Line(Port1, 2)
    case Free(n) => (
      match n
      case Reset => Line(Port0, 18)
      case A0 => Line(Port0, 4)
      case A1 => Line(Port0, 5)
      case A2 => Line(Port0, 30)
      case A3 => Line(Port0, 28)
      case A4 => Line(Port0, 2)
      case A5 => Line(Port0, 3)
      case Sck => Line(Port0, 14)
      case Mosi => Line(Port0, 13)
      case Miso => Line(Port0, 15)
      case Scl => Line(Port0, 11)
      case Sda => Line(Port0, 12)
      case D2 => Line(Port0, 10)
      case D5 => Line(Port1, 8)
      case D6 => Line(Port0, 7)
      case D9 => Line(Port0, 26)
      case D10 => Line(Port0, 27)
      case D11 => Line(Port0, 6)
      case D12 => Line(Port0, 8)
      case D13 => Line(Port1, 9))
  }

  /**
   * The board's wiring: the place each connected line belongs to, `None` for
   * a line the board leaves unconnected.
   */
  function Schematic(l: Line): Option<Owner>
  {
    match l.port
    case Port0 => (
      match l.index
        case 2 => Some(Free(A4))
        case 3 => Some(Free(A5))
        case 4 => Some(Free(A0))
        case 5 => Some(Free(A1))
        case 6 => Some(Free(D11))
        case 7 => Some(Free(D6))
        case 8 => Some(Free(D12))
        case 10 => Some(Free(D2))
        case 11 => Some(Free(Scl))
        case 12 => Some(Free(Sda))
        case 13 => Some(Free(Mosi))
        case 14 => Some(Free(Sck))
        case 15 => Some(Free(Miso))
        case 17 => Some(FlashMiso)
        case 18 => Some(Free(Reset))
        case 19 => Some(FlashSck)
        case 20 => Some(FlashCs)
        case 21 => Some(FlashMosi)
        case 24 => Some(CdcRxd)
        case 25 => Some(CdcTxd)
        case 26 => Some(Free(D9))
        case 27 => Some(Free(D10))
        case 28 => Some(Free(A3))
        case 30 => Some(Free(A2))
        case _ => None)
    case Port1 => (
      match l.index
        case 2 => Some(Switch)
        case 8 => Some(Free(D5))
        case 9 => Some(Free(D13))
        case 10 => Some(LedConn)
        case 15 => Some(LedD3)
        case _ => None)
  }

  /** The schematic reads the assignment back: every assigned line is a line of the chip, wired to its place. */
  lemma SchematicInvertsAssignment(o: Owner)
    ensures ValidLine(Assignment(o)) && Schematic(Assignment(o)) == Some(o)
  {
  }

  /**
   * The ownership rule Rust's moves enforce: no line is assigned to two
   * places, so no line claimed by a bus, the chip select, an LED or the
   * button is among the free `Pins`.
   */
  lemma AssignmentExclusive()
    ensures forall o1, o2 :: Assignment(o1) == Assignment(o2) ==> o1 == o2
    ensures forall o: Owner, n: PinName :: !o.Free? ==> Assignment(o) != Assignment(Free(n))
  {
    forall o1, o2 | Assignment(o1) == Assignment(o2)
      ensures o1 == o2
    {
      SchematicInvertsAssignment(o1);
      SchematicInvertsAssignment(o2);
    }
  }

  /** Every place of `b` holds the line assigned to it. */
  ghost predicate Wired(b: Board)
  {
    forall o :: Holds(b, o) == Some(Assignment(o))
  }

  /** On a wired board no line is held in two places, and every held line is a line of the chip. */
  lemma WiredLinesExclusive(b: Board)
    requires Wired(b)
    ensures forall o1, o2 :: Holds(b, o1) == Holds(b, o2) ==> o1 == o2
    ensures forall o: Owner, n: PinName :: !o.Free? ==> Holds(b, o) != Holds(b, Free(n))
    ensures forall o :: Holds(b, o).Some? && ValidLine(Holds(b, o).value)
  {
    AssignmentExclusive();
    forall o
      ensures Holds(b, o).Some? && ValidLine(Holds(b, o).value)
    {
      SchematicInvertsAssignment(o);
    }
  }

  // ------------------------------------------------- configuration promised

  /** Every free pin is still disconnected, as `Parts::new` handed it out. */
  predicate FreePinsDisconnected(b: Board)
  {
    forall n :: b.pins.Get(n).mode == Disconnected
  }

  /**
   * The flash bus: SPIM2 at 500 kHz in mode 0 with over-read character 0;
   * clock and data-out driven low, data-in floating; the chip select a
   * separate output driven high, so the flash starts deselected.
   */
  predicate FlashConfigured(flash: Spim, cs: Pin)
  {
    && flash.instance == SPIM2
    && flash.pins.sck.mode == PushPullOutput(Low)
    && flash.pins.mosi.Some? && flash.pins.mosi.value.mode == PushPullOutput(Low)
    && flash.pins.miso.Some? && flash.pins.miso.value.mode == FloatingInput
    && Kilohertz(flash.frequency) == 500
    && flash.mode == Mode0
    && flash.orc == 0
    && cs.mode == PushPullOutput(High)
  }

  /**
   * The USB CDC UART: UARTE0 at 115200 baud without parity and without flow
   * control; transmit is an output idling high, receive a floating input.
   */
  predicate CdcConfigured(cdc: Uarte)
  {
    && cdc.instance == UARTE0
    && cdc.pins.txd.mode == PushPullOutput(High)
    && cdc.pins.rxd.mode == FloatingInput
    && cdc.pins.cts.None? && cdc.pins.rts.None?
    && cdc.parity == Excluded
    && BitsPerSecond(cdc.baudrate) == 115200
  }

  /** Where a chip token can end up. */
  datatype Holder = FlashBus | CdcBus | Partition(port: Port) | Field

  /** Where each chip token belongs: the buses, the port partitions, or its own field. */
  function Destination(t: ChipId): Holder
  {
    match t
    case SPIM2 => FlashBus
    case UARTE0 => CdcBus
    case P0 => Partition(Port0)
    case P1 => Partition(Port1)
    case _ => Field
  }

  function PortToken(port: Port): ChipId
  {
    match port
    case Port0 => P0
    case Port1 => P1
  }

  /**
   * Every place token `t` occupies once `b` is built; the port tokens are
   * consumed by the partitions `Parts::new` makes of them.
   */
  function Places(b: Board, t: ChipId): seq<Holder>
  {
    (if b.flash.instance == t then [FlashBus] else [])
    + (if b.cdc.instance == t then [CdcBus] else [])
    + (if PortToken(Port0) == t then [Partition(Port0)] else [])
    + (if PortToken(Port1) == t then [Partition(Port1)] else [])
    + (if t in b.chip then [Field] else [])
  }

  /** Each chip token sits in exactly one place, the one it belongs to, and every core token has its field. */
  predicate TokensPlaced(b: Board)
  {
    && (forall t :: Places(b, t) == [Destination(t)])
    && (forall c: CoreId :: c in b.core)
  }

  /** Everything `Board::new` promises about the board it returns. */
  ghost predicate Built(b: Board)
    reads b.leds.d3, b.leds.conn
  {
    && Wired(b)
    && FreePinsDisconnected(b)
    && FlashConfigured(b.flash, b.flashCs)
    && CdcConfigured(b.cdc)
    && b.leds.d3 != b.leds.conn
    && !b.leds.d3.IsOn() && !b.leds.conn.IsOn()
    && b.buttons.switch.pin.mode == PullUpInput
    && TokensPlaced(b)
  }

  // ---------------------------------------------------------- construction

  /** `Board` declares a field named after core block `c`. */
  predicate IsCoreField(c: CoreId)
  {
    match c
    case CBP | CPUID | DCB | DWT | FPB | FPU => true
    case ITM | MPU | NVIC | SCB | SYST | TPIU => true
  }

  /** `Board` declares a field named after chip block `t`. */
  predicate IsChipField(t: ChipId)
  {
    match t
    case FICR | UICR | ACL | POWER | CLOCK | RADIO => true
    case UART0 | SPIM0 | SPIS0 | TWIM0 | TWIS0 | SPI0 => true
    case TWI0 | SPIM1 | SPIS1 | TWIM1 | TWIS1 | SPI1 => true
    case TWI1 | NFCT | GPIOTE | SAADC | TIMER0 | TIMER1 => true
    case TIMER2 | RTC0 | TEMP | RNG | ECB | CCM => true
    case AAR | WDT | RTC1 | QDEC | COMP | LPCOMP => true
    case SWI0 | EGU0 | SWI1 | EGU1 | SWI2 | EGU2 => true
    case SWI3 | EGU3 | SWI4 | EGU4 | SWI5 | EGU5 => true
    case TIMER3 | TIMER4 | PWM0 | PDM | NVMC | PPI => true
    case MWU | PWM1 | PWM2 | RTC2 | I2S => true
    case _ => false
  }

  /** The core tokens `Board::new` moves into fields of their own. */
  const CoreFields: set<CoreId> := set c: CoreId | IsCoreField(c)

  /** The chip tokens `Board::new` moves into fields of their own. */
  const ChipFields: set<ChipId> := set t: ChipId | IsChipField(t)

  /**
   * A board whose buses hold SPIM2 and UARTE0 and whose token fields are
   * those `Board::new` fills has every token in exactly one place.
   */
  lemma TokensPlacedByFields(b: Board)
    requires b.flash.instance == SPIM2 && b.cdc.instance == UARTE0
    requires b.core == CoreFields && b.chip == ChipFields
    ensures TokensPlaced(b)
  {
    forall t
      ensures Places(b, t) == [Destination(t)]
    {
      if IsChipField(t) {
        FieldTokenPlaced(b, t);
      } else {
        match t
        case SPIM2 => assert Places(b, t) == [FlashBus] + [] + [] + [] + [];
        case UARTE0 => assert Places(b, t) == [] + [CdcBus] + [] + [] + [];
        case P0 => assert Places(b, t) == [] + [] + [Partition(Port0)] + [] + [];
        case P1 => assert Places(b, t) == [] + [] + [] + [Partition(Port1)] + [];
      }
    }
  }

  /** A token with a field of its own is in that field and nowhere else. */
  lemma FieldTokenPlaced(b: Board, t: ChipId)
    requires b.flash.instance == SPIM2 && b.cdc.instance == UARTE0 && b.chip == ChipFields
    requires IsChipField(t)
    ensures Places(b, t) == [Field] && Destination(t) == Field
  {
    assert t != SPIM2 && t != UARTE0 && t != P0 && t != P1;
    assert Places(b, t) == [] + [] + [] + [] + [Field];
  }

  /** The flash bus `Board::new` builds on port 0: SPIM2 over the flash clock, data-out and data-in lines. */
  function FlashBusOf(pins0: seq<Pin>): (flash: Spim)
    requires pins0 == Parts(Port0)
    ensures flash.pins.sck.line == Assignment(FlashSck)
    ensures LineOf(flash.pins.mosi) == Some(Assignment(FlashMosi))
    ensures LineOf(flash.pins.miso) == Some(Assignment(FlashMiso))
    ensures FlashConfigured(flash, FlashSelectOf(pins0))
  {
    Spim(
      SPIM2,
      SpimPins(
        IntoPushPullOutput(pins0[19], Low),
        Some(IntoPushPullOutput(pins0[21], Low)),
        Some(IntoFloatingInput(pins0[17]))),
      K500, Mode0, 0)
  }

  /** The flash chip select: a port 0 output driven high, so the flash starts deselected. */
  function FlashSelectOf(pins0: seq<Pin>): (cs: Pin)
    requires pins0 == Parts(Port0)
    ensures cs.line == Assignment(FlashCs) && cs.mode == PushPullOutput(High)
  {
    IntoPushPullOutput(pins0[20], High)
  }

  /** The CDC UART `Board::new` builds on port 0: UARTE0 over the transmit and receive lines. */
  function CdcBusOf(pins0: seq<Pin>): (cdc: Uarte)
    requires pins0 == Parts(Port0)
    ensures cdc.pins.txd.line == Assignment(CdcTxd) && cdc.pins.rxd.line == Assignment(CdcRxd)
    ensures CdcConfigured(cdc)
  {
    Uarte(
      UARTE0,
      UartePins(IntoPushPullOutput(pins0[25], High), IntoFloatingInput(pins0[24]), None, None),
      Excluded, BAUD115200)
  }

  /** The `Pins` of the board, listing the lines no driver claims. */
  function FreePins(pins0: seq<Pin>, pins1: seq<Pin>): Pins
    requires pins0 == Parts(Port0) && pins1 == Parts(Port1)
  {
    Pins(
      pins0[18], pins0[4], pins0[5], pins0[30], pins0[28], pins0[2], pins0[3],
      pins0[14], pins0[13], pins0[15], pins0[11], pins0[12],
      pins0[10], pins1[8], pins0[7], pins0[26], pins0[27], pins0[6], pins0[8], pins1[9])
  }

  /** Each free pin is the disconnected pin of the line assigned to its name. */
  lemma FreePinsAssigned(pins0: seq<Pin>, pins1: seq<Pin>)
    requires pins0 == Parts(Port0) && pins1 == Parts(Port1)
    ensures forall n :: FreePins(pins0, pins1).Get(n) == Pin(Assignment(Free(n)), Disconnected)
  {
    forall n
      ensures FreePins(pins0, pins1).Get(n) == Pin(Assignment(Free(n)), Disconnected)
    {
      match n
      case Reset =>
      case A0 =>
      case A1 =>
      case A2 =>
      case A3 =>
      case A4 =>
      case A5 =>
      case Sck =>
      case Mosi =>
      case Miso =>
      case Scl =>
      case Sda =>
      case D2 =>
      case D5 =>
      case D6 =>
      case D9 =>
      case D10 =>
      case D11 =>
      case D12 =>
      case D13 =>
    }
  }

  /**
   * The board `Board::new` assembles from the two port partitions and the
   * two LED wrappers: the free pins, the buses, the button and every
   * remaining token.
   */
  function Assemble(pins0: seq<Pin>, pins1: seq<Pin>, d3: Led, conn: Led): Board
    requires pins0 == Parts(Port0) && pins1 == Parts(Port1)
  {
    Board(
      FreePins(pins0, pins1),
      CdcBusOf(pins0), FlashBusOf(pins0), FlashSelectOf(pins0),
      Leds(d3, conn),
      Buttons(Button.New(pins1[2])),
      CoreFields,
      ChipFields)
  }

  /**
   * An assembled board whose LEDs are two distinct wrappers of their
   * assigned lines, both off, keeps every promise of `Built`.
   */
  lemma AssembledBoardBuilt(pins0: seq<Pin>, pins1: seq<Pin>, d3: Led, conn: Led)
    requires pins0 == Parts(Port0) && pins1 == Parts(Port1)
    requires d3 != conn
    requires d3.line == Assignment(LedD3) && conn.line == Assignment(LedConn)
    requires !d3.IsOn() && !conn.IsOn()
    ensures Built(Assemble(pins0, pins1, d3, conn))
  {
    var b := Assemble(pins0, pins1, d3, conn);
    FreePinsAssigned(pins0, pins1);
    forall o
      ensures Holds(b, o) == Some(Assignment(o))
    {
    }
    TokensPlacedByFields(b);
  }

  /**
   * `Board::new`: partitions the two ports, configures the flash bus, its
   * chip select and the CDC UART, wraps the LED and button lines, and moves
   * every other pin and token into the board.
   */
  method New(cp: CorePeripherals, p: Peripherals) returns (b: Board)
    ensures Built(b)
    ensures fresh(b.leds.d3) && fresh(b.leds.conn)
  {
    var pins0 := Parts(Port0);
    var pins1 := Parts(Port1);
    var d3 := new Led(pins1[15]);
    var conn := new Led(pins1[10]);
    AssembledBoardBuilt(pins0, pins1, d3, conn);
    b := Assemble(pins0, pins1, d3, conn);
  }

  // ----------------------------------------------------------- acquisition

  /** `Board::take` hands out a board exactly when neither registry has been handed out. */
  predicate Granted(f: Flags)
  {
    !f.coreTaken && !f.chipTaken
  }

  /**
   * The flags after `Board::take`. The core registry is taken first, so its
   * flag is set even when the chip registry then turns out to be taken; if the
   * core registry was already taken, `?` returns before the chip registry is
   * asked and nothing changes.
   */
  function AfterTake(f: Flags): (g: Flags)
    ensures g.coreTaken
    ensures !f.coreTaken ==> g.chipTaken
    ensures f.coreTaken ==> g == f
    ensures !Granted(g)
  {
    if f.coreTaken then f else Flags(true, true)
  }

  /** The flags after `Board::steal`: both registries count as taken. */
  function AfterSteal(f: Flags): (g: Flags)
    ensures !Granted(g)
  {
    Flags(true, true)
  }

  /** `Board::take`. */
  method Take(reg: Registry) returns (r: Option<Board>)
    modifies reg
    ensures r.Some? <==> Granted(old(reg.State()))
    ensures reg.State() == AfterTake(old(reg.State()))
    ensures r.Some? ==> Built(r.value) && fresh(r.value.leds.d3) && fresh(r.value.leds.conn)
  {
    var cp := reg.TakeCore();
    if cp.None? {
      return None;
    }
    var p := reg.TakeChip();
    if p.None? {
      return None;
    }
    var b := New(cp.value, p.value);
    r := Some(b);
  }

  /** `Board::steal`: a board whatever the flags. */
  method Steal(reg: Registry) returns (b: Board)
    modifies reg
    ensures reg.State() == AfterSteal(old(reg.State()))
    ensures Built(b) && fresh(b.leds.d3) && fresh(b.leds.conn)
  {
    var cp := reg.StealCore();
    var p := reg.StealChip();
    b := New(cp, p);
  }

  /** A call of one of the two acquisition operations. */
  datatype Call = TakeCall | StealCall

  function Next(f: Flags, c: Call): Flags
  {
    match c
    case TakeCall => AfterTake(f)
    case StealCall => AfterSteal(f)
  }

  /** How many of `calls`, made in order from flags `f`, are takes that return a board. */
  function TakeGrants(f: Flags, calls: seq<Call>): nat
    decreases calls
  {
    if calls == [] then 0
    else (if calls[0] == TakeCall && Granted(f) then 1 else 0) + TakeGrants(Next(f, calls[0]), calls[1..])
  }

  /**
   * Take-once: in any sequence of takes and steals, a take returns a board
   * only if it is the very first call and neither registry had been handed
   * out before; every other take returns `None`.
   */
  lemma {:induction false} TakeSucceedsOnlyFirst(f: Flags, calls: seq<Call>)
    ensures TakeGrants(f, calls) == if calls != [] && calls[0] == TakeCall && Granted(f) then 1 else 0
    decreases calls
  {
    if calls != [] {
      NoGrantAfterwards(Next(f, calls[0]), calls[1..]);
    }
  }

  /** Once no take would be granted, none ever is. */
  lemma {:induction false} NoGrantAfterwards(f: Flags, calls: seq<Call>)
    requires !Granted(f)
    ensures TakeGrants(f, calls) == 0
    decreases calls
  {
    if calls != [] {
      NoGrantAfterwards(Next(f, calls[0]), calls[1..]);
    }
  }
}
