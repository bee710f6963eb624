/**
 * `pico_bevy_uart`: the `UArtPeripheral` claim `make_uart`, the per-peripheral
 * dispatch `get_uart`, the `UArtPlugin` that installs a `UArtBus<P>`
 * resource when the claim succeeds, and the bus's `write` and `read`.
 */
module Uart {
  import opened Wrappers
  import opened Ecs
  import opened Gpio
  import opened Claim
  import Core
  import Uart0
  import Uart1

  /** The peripherals that implement `UArtPeripheral`. */
  type UartPeripheral = p: Peripheral | p == UART0 || p == UART1 witness UART0

  /** `embassy_rp::uart::Config`; its contents are foreign, so a chosen configuration is an opaque tag. */
  datatype UartConfig = DefaultConfig | Config(tag: nat)

  /** `MakeUArtError`: exactly three cases. */
  datatype MakeUArtError = PeripheralTaken | TxTaken | RxTaken

  /** The error `make_uart` returns for the step that failed. */
  function ErrorOf(s: Stage): MakeUArtError
  {
    match s
    case PeripheralStage => PeripheralTaken
    case FirstPinStage => TxTaken
    case SecondPinStage => RxTaken
  }

  /** The step each error names. */
  function StageOf(e: MakeUArtError): Stage
  {
    match e
    case PeripheralTaken => PeripheralStage
    case TxTaken => FirstPinStage
    case RxTaken => SecondPinStage
  }

  /** Each error names exactly one claim step and each step has its own error. */
  lemma ErrorsNameSteps(s: Stage, e: MakeUArtError)
    ensures StageOf(ErrorOf(s)) == s
    ensures ErrorOf(StageOf(e)) == e
  {
  }

  /**
   * The blocking driver `Uart::new_blocking(pac, tx, rx, config)` builds:
   * it owns the three handles it was given.
   */
  datatype UartDriver = UartDriver(pac: Resource, tx: Resource, rx: Resource, config: UartConfig)

  function Owned(d: UartDriver): set<Resource>
  {
    {d.pac, d.tx, d.rx}
  }

  /** The claim `make_uart::<TX, RX>` makes for peripheral p: peripheral, TX, RX. */
  function ClaimOf(p: UartPeripheral, tx: PicoPin, rx: PicoPin): Request
  {
    Request(Periph(p), EmbassyType(tx), EmbassyType(rx))
  }

  /**
   * `UArtPeripheral::make_uart`: claims the peripheral, then TX, then RX;
   * on a missing handle it puts back what it took and names the step. The
   * registry afterwards and the result are those of `Transaction`.
   */
  method MakeUart(w: World, p: UartPeripheral, tx: PicoPin, rx: PicoPin, config: UartConfig)
    returns (r: Result<UartDriver, MakeUArtError>)
    modifies w`handles
    ensures var o := Transaction(old(w.handles), ClaimOf(p, tx, rx));
      && w.handles == o.after
      && (o.failed.None? ==> r == Ok(UartDriver(Periph(p), EmbassyType(tx), EmbassyType(rx), config)))
      && (o.failed.Some? ==> r == Err(ErrorOf(o.failed.value)))
  {
    var pac := w.Remove(Periph(p));
    if pac.None? {
      return Err(PeripheralTaken);
    }
    var txHandle := FromWorld(w, tx);
    if txHandle.None? {
      w.Insert(pac.value);
      return Err(TxTaken);
    }
    var rxHandle := FromWorld(w, rx);
    if rxHandle.None? {
      w.Insert(pac.value);
      w.Insert(txHandle.value);
      return Err(RxTaken);
    }
    r := Ok(UartDriver(pac.value, txHandle.value, rxHandle.value, config));
  }

  /** The pin choice of a `UArtPlugin<P>`: `P::TxPins` and `P::RxPins` for UART0 or UART1. */
  datatype UartPins =
    | Uart0Pins(tx0: Uart0.TxPins, rx0: Uart0.RxPins)
    | Uart1Pins(tx1: Uart1.TxPins, rx1: Uart1.RxPins)

  function PeripheralOf(pins: UartPins): UartPeripheral
  {
    if pins.Uart0Pins? then UART0 else UART1
  }

  /** The TX and RX markers the `get_uart` match picks. */
  function Markers(pins: UartPins): (PicoPin, PicoPin)
  {
    match pins
    case Uart0Pins(tx, rx) => Uart0.Dispatch(tx, rx)
    case Uart1Pins(tx, rx) => Uart1.Dispatch(tx, rx)
  }

  /** The claim a pin choice leads to. */
  function PinsClaim(pins: UartPins): Request
  {
    ClaimOf(PeripheralOf(pins), Markers(pins).0, Markers(pins).1)
  }

  /**
   * Every pin choice claims its peripheral and two distinct pins, TX from
   * the peripheral's TX set and RX from its RX set.
   */
  lemma PinsClaimShape(pins: UartPins)
    ensures PinsClaim(pins).periph == Periph(PeripheralOf(pins))
    ensures PinsClaim(pins).first.Pin? && PinsClaim(pins).second.Pin?
    ensures PinsClaim(pins).first != PinsClaim(pins).second
    ensures pins.Uart0Pins? ==> PinsClaim(pins).first.id in Uart0.TxPinSet && PinsClaim(pins).second.id in Uart0.RxPinSet
    ensures pins.Uart1Pins? ==> PinsClaim(pins).first.id in Uart1.TxPinSet && PinsClaim(pins).second.id in Uart1.RxPinSet
  {
    match pins
    case Uart0Pins(tx, rx) =>
      Uart0.RolesDisjoint(tx, rx);
      Uart0.DispatchExact(Markers(pins).0.n, Markers(pins).1.n);
    case Uart1Pins(tx, rx) =>
      Uart1.RolesDisjoint(tx, rx);
      Uart1.DispatchExact(Markers(pins).0.n, Markers(pins).1.n);
  }

  /** `get_uart`: the total match over the pin pair, each arm calling `make_uart`. */
  method GetUart(w: World, pins: UartPins, config: UartConfig) returns (r: Result<UartDriver, MakeUArtError>)
    modifies w`handles
    ensures var o := Transaction(old(w.handles), PinsClaim(pins));
      && w.handles == o.after
      && (o.failed.None? ==> r == Ok(UartDriver(PinsClaim(pins).periph, PinsClaim(pins).first, PinsClaim(pins).second, config)))
      && (o.failed.Some? ==> r == Err(ErrorOf(o.failed.value)))
  {
    match pins
    case Uart0Pins(tx, rx) =>
      var (a, b) := Uart0.Dispatch(tx, rx);
      r := MakeUart(w, UART0, a, b, config);
    case Uart1Pins(tx, rx) =>
      var (a, b) := Uart1.Dispatch(tx, rx);
      r := MakeUart(w, UART1, a, b, config);
  }

  /** A peripheral whose feature the core was built without is never there to claim. */
  lemma ClaimWithoutFeature(f: Core.Features, avail: set<Resource>, pins: UartPins)
    requires !f.uart
    requires avail <= Core.CoreHandles(f)
    ensures Transaction(avail, PinsClaim(pins)).failed == Some(PeripheralStage)
  {
    assert forall r :: r in Core.Elements(Core.PinHandles(PinCount)) ==> r.Pin?;
  }

  // ---- UArtPlugin ----

  /** `UArtPlugin<P>`: the pins to claim and the driver configuration. */
  datatype UartPlugin = UartPlugin(pins: UartPins, config: UartConfig)

  /** `UArtPlugin::uart0`. */
  function NewUart0(tx: Uart0.TxPins, rx: Uart0.RxPins): (plugin: UartPlugin)
    ensures PeripheralOf(plugin.pins) == UART0
    ensures Markers(plugin.pins) == (Uart0.TxMarker(tx), Uart0.RxMarker(rx))
    ensures plugin.config == DefaultConfig
  {
    UartPlugin(Uart0Pins(tx, rx), DefaultConfig)
  }

  /** `UArtPlugin::uart1`. */
  function NewUart1(tx: Uart1.TxPins, rx: Uart1.RxPins): (plugin: UartPlugin)
    ensures PeripheralOf(plugin.pins) == UART1
    ensures Markers(plugin.pins) == (Uart1.TxMarker(tx), Uart1.RxMarker(rx))
    ensures plugin.config == DefaultConfig
  {
    UartPlugin(Uart1Pins(tx, rx), DefaultConfig)
  }

  /** `with_config`: replaces the configuration and nothing else. */
  function WithConfig(plugin: UartPlugin, config: UartConfig): (r: UartPlugin)
    ensures r.pins == plugin.pins && r.config == config
  {
    plugin.(config := config)
  }

  /** `Default for UArtPlugin<UART0>`: UART0 on TX = GPIO0 and RX = GPIO1. */
  function Default(): (plugin: UartPlugin)
    ensures PinsClaim(plugin.pins) == Request(Periph(UART0), Pin(0), Pin(1))
    ensures plugin.config == DefaultConfig
  {
    NewUart0(Uart0.Gpio0, Uart0.Gpio1)
  }

  /** The `#[default]` variants of UART0's pin enums agree with the default plugin. */
  lemma DefaultPinsAreDefaultVariants()
    ensures Default().pins == Uart0Pins(Uart0.DefaultTx, Uart0.DefaultRx)
  {
  }

  /** The app's `UArtBus<P>` resources, one slot per peripheral type P. */
  class UartBuses {
    var installed: map<UartPeripheral, UartDriver>

    constructor ()
      ensures installed == map[]
    {
      installed := map[];
    }

    /**
     * Each installed bus drives its own peripheral, owns handles that are no
     * longer in the world, and shares none with another installed bus.
     */
    ghost predicate Valid(w: World)
      reads this, w
    {
      && (forall p :: p in installed ==> installed[p].pac == Periph(p) && Owned(installed[p]) !! w.handles)
      && (forall p, q :: p in installed && q in installed && p != q ==> Owned(installed[p]) !! Owned(installed[q]))
    }
  }

  /**
   * `UArtPlugin::build`: without `PicoCore` nothing happens; otherwise the
   * pins are claimed, and only a successful claim inserts the `UArtBus<P>`.
   * `coreAdded` is `app.is_plugin_added::<PicoCore>()`.
   */
  method Build(plugin: UartPlugin, coreAdded: bool, w: World, buses: UartBuses)
    requires buses.Valid(w)
    modifies w`handles, buses
    ensures buses.Valid(w)
    ensures !coreAdded ==> w.handles == old(w.handles) && buses.installed == old(buses.installed)
    ensures coreAdded ==>
      var q := PinsClaim(plugin.pins);
      var o := Transaction(old(w.handles), q);
      && w.handles == o.after
      && (o.failed.Some? ==> buses.installed == old(buses.installed))
      && (o.failed.None? ==>
            && PeripheralOf(plugin.pins) !in old(buses.installed)
            && buses.installed == old(buses.installed)[PeripheralOf(plugin.pins) := UartDriver(q.periph, q.first, q.second, plugin.config)])
  {
    if !coreAdded {
      return;
    }
    var uart := GetUart(w, plugin.pins, plugin.config);
    if uart.Err? {
      return;
    }
    buses.installed := buses.installed[PeripheralOf(plugin.pins) := uart.value];
  }

  // ---- UArtBus::write / read ----

  type Byte = x: int | 0 <= x < 256

  /** `embassy_rp::uart::Error`. */
  datatype UartError = Overrun | Break | Parity | Framing

  /**
   * `UArtBus::write`: the driver's blocking write (hardware I/O, its outcome
   * a parameter here) is performed and its result discarded.
   */
  function Write(bus: UartDriver, data: seq<Byte>, driver: Option<UartError>): (reported: Option<UartError>)
    ensures reported == None
  {
    None
  }

  /** `UArtBus::read`: the driver's blocking read outcome is passed on unchanged. */
  function Read(bus: UartDriver, buffer: seq<Byte>, driver: Option<UartError>): (reported: Option<UartError>)
    ensures reported.Some? <==> driver.Some?
    ensures reported.Some? ==> reported.value == driver.value
  {
    driver
  }

  /** The same driver error is hidden by `write` and surfaced by `read`. */
  lemma WriteReadAsymmetry(bus: UartDriver, data: seq<Byte>, buffer: seq<Byte>, e: UartError)
    ensures Write(bus, data, Some(e)) == None
    ensures Read(bus, buffer, Some(e)) == Some(e)
  {
  }

  /** `UseUArtBus::uart0` and `uart1`: the markers for the two UART buses. */
  function UseUart0(): (u: Core.UseBus)
    ensures u.target == UART0
  {
    Core.NewUseBus(UART0)
  }

  function UseUart1(): (u: Core.UseBus)
    ensures u.target == UART1
  {
    Core.NewUseBus(UART1)
  }
}
