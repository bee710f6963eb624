/**
 * `pico_bevy_i2c`: the `I2CPeripheral` claim `make_i2c`, the per-peripheral
 * dispatch `get_i2c`, and the `I2CPlugin` that installs an `I2CBus<P>`
 * resource when the claim succeeds.
 */
module I2c {
  import opened Wrappers
  import opened Ecs
  import opened Gpio
  import opened Claim
  import Core
  import I2c0
  import I2c1

  /** The peripherals that implement `I2CPeripheral`. */
  type I2cPeripheral = p: Peripheral | p == I2C0 || p == I2C1 witness I2C0

  /** `embassy_rp::i2c::Config`; its contents are foreign, so a chosen configuration is an opaque tag. */
  datatype I2cConfig = DefaultConfig | Config(tag: nat)

  /** `MakeI2CError`: exactly three cases. */
  datatype MakeI2CError = PeripheralTaken | SDATaken | SCLTaken

  /** The error `make_i2c` returns for the step that failed. */
  function ErrorOf(s: Stage): MakeI2CError
  {
    match s
    case PeripheralStage => PeripheralTaken
    case FirstPinStage => SDATaken
    case SecondPinStage => SCLTaken
  }

  /** The step each error names. */
  function StageOf(e: MakeI2CError): Stage
  {
    match e
    case PeripheralTaken => PeripheralStage
    case SDATaken => FirstPinStage
    case SCLTaken => SecondPinStage
  }

  /** Each error names exactly one claim step and each step has its own error. */
  lemma ErrorsNameSteps(s: Stage, e: MakeI2CError)
    ensures StageOf(ErrorOf(s)) == s
    ensures ErrorOf(StageOf(e)) == e
  {
  }

  /**
   * The blocking driver `I2c::new_blocking(pac, scl, sda, config)` builds:
   * it owns the three handles it was given.
   */
  datatype I2cDriver = I2cDriver(pac: Resource, scl: Resource, sda: Resource, config: I2cConfig)

  function Owned(d: I2cDriver): set<Resource>
  {
    {d.pac, d.scl, d.sda}
  }

  /** The claim `make_i2c::<SDA, SCL>` makes for peripheral p: peripheral, SDA, SCL. */
  function ClaimOf(p: I2cPeripheral, sda: PicoPin, scl: PicoPin): Request
  {
    Request(Periph(p), EmbassyType(sda), EmbassyType(scl))
  }

  /**
   * `I2CPeripheral::make_i2c`: claims the peripheral, then SDA, then SCL;
   * on a missing handle it puts back what it took and names the step. The
   * registry afterwards and the result are those of `Transaction`.
   */
  method MakeI2c(w: World, p: I2cPeripheral, sda: PicoPin, scl: PicoPin, config: I2cConfig)
    returns (r: Result<I2cDriver, MakeI2CError>)
    modifies w`handles
    ensures var o := Transaction(old(w.handles), ClaimOf(p, sda, scl));
      && w.handles == o.after
      && (o.failed.None? ==> r == Ok(I2cDriver(Periph(p), EmbassyType(scl), EmbassyType(sda), config)))
      && (o.failed.Some? ==> r == Err(ErrorOf(o.failed.value)))
  {
    var pac := w.Remove(Periph(p));
    if pac.None? {
      return Err(PeripheralTaken);
    }
    var sdaHandle := FromWorld(w, sda);
    if sdaHandle.None? {
      w.Insert(pac.value);
      return Err(SDATaken);
    }
    var sclHandle := FromWorld(w, scl);
    if sclHandle.None? {
      w.Insert(pac.value);
      w.Insert(sdaHandle.value);
      return Err(SCLTaken);
    }
    r := Ok(I2cDriver(pac.value, sclHandle.value, sdaHandle.value, config));
  }

  /** The pin choice of an `I2CPlugin<P>`: `P::SDAPins` and `P::SCLPins` for I2C0 or I2C1. */
  datatype I2cPins =
    | I2c0Pins(sda0: I2c0.SDAPins, scl0: I2c0.SCLPins)
    | I2c1Pins(sda1: I2c1.SDAPins, scl1: I2c1.SCLPins)

  function PeripheralOf(pins: I2cPins): I2cPeripheral
  {
    if pins.I2c0Pins? then I2C0 else I2C1
  }

  /** The SDA and SCL markers the `get_i2c` match picks. */
  function Markers(pins: I2cPins): (PicoPin, PicoPin)
  {
    match pins
    case I2c0Pins(sda, scl) => I2c0.Dispatch(sda, scl)
    case I2c1Pins(sda, scl) => I2c1.Dispatch(sda, scl)
  }

  /** The claim a pin choice leads to. */
  function PinsClaim(pins: I2cPins): Request
  {
    ClaimOf(PeripheralOf(pins), Markers(pins).0, Markers(pins).1)
  }

  /**
   * Every pin choice claims its peripheral and two distinct pins, SDA from
   * the peripheral's SDA set and SCL from its SCL set.
   */
  lemma PinsClaimShape(pins: I2cPins)
    ensures PinsClaim(pins).periph == Periph(PeripheralOf(pins))
    ensures PinsClaim(pins).first.Pin? && PinsClaim(pins).second.Pin?
    ensures PinsClaim(pins).first != PinsClaim(pins).second
    ensures pins.I2c0Pins? ==> PinsClaim(pins).first.id in I2c0.SdaPinSet && PinsClaim(pins).second.id in I2c0.SclPinSet
    ensures pins.I2c1Pins? ==> PinsClaim(pins).first.id in I2c1.SdaPinSet && PinsClaim(pins).second.id in I2c1.SclPinSet
  {
    match pins
    case I2c0Pins(sda, scl) =>
      I2c0.RolesDisjoint(sda, scl);
      I2c0.DispatchExact(Markers(pins).0.n, Markers(pins).1.n);
    case I2c1Pins(sda, scl) =>
      I2c1.RolesDisjoint(sda, scl);
      I2c1.DispatchExact(Markers(pins).0.n, Markers(pins).1.n);
  }

  /** `get_i2c`: the total match over the pin pair, each arm calling `make_i2c`. */
  method GetI2c(w: World, pins: I2cPins, config: I2cConfig) returns (r: Result<I2cDriver, MakeI2CError>)
    modifies w`handles
    ensures var o := Transaction(old(w.handles), PinsClaim(pins));
      && w.handles == o.after
      && (o.failed.None? ==> r == Ok(I2cDriver(PinsClaim(pins).periph, PinsClaim(pins).second, PinsClaim(pins).first, config)))
      && (o.failed.Some? ==> r == Err(ErrorOf(o.failed.value)))
  {
    match pins
    case I2c0Pins(sda, scl) =>
      var (a, b) := I2c0.Dispatch(sda, scl);
      r := MakeI2c(w, I2C0, a, b, config);
    case I2c1Pins(sda, scl) =>
      var (a, b) := I2c1.Dispatch(sda, scl);
      r := MakeI2c(w, I2C1, a, b, config);
  }

  /** A peripheral whose feature the core was built without is never there to claim. */
  lemma ClaimWithoutFeature(f: Core.Features, avail: set<Resource>, pins: I2cPins)
    requires !f.i2c
    requires avail <= Core.CoreHandles(f)
    ensures Transaction(avail, PinsClaim(pins)).failed == Some(PeripheralStage)
  {
    assert forall r :: r in Core.Elements(Core.PinHandles(PinCount)) ==> r.Pin?;
  }

  // ---- I2CPlugin ----

  /** `I2CPlugin<P>`: the pins to claim and the driver configuration. */
  datatype I2cPlugin = I2cPlugin(pins: I2cPins, config: I2cConfig)

  /** `I2CPlugin::i2c0`. */
  function NewI2c0(sda: I2c0.SDAPins, scl: I2c0.SCLPins): (plugin: I2cPlugin)
    ensures PeripheralOf(plugin.pins) == I2C0
    ensures Markers(plugin.pins) == (I2c0.SdaMarker(sda), I2c0.SclMarker(scl))
    ensures plugin.config == DefaultConfig
  {
    I2cPlugin(I2c0Pins(sda, scl), DefaultConfig)
  }

  /** `I2CPlugin::i2c1`. */
  function NewI2c1(sda: I2c1.SDAPins, scl: I2c1.SCLPins): (plugin: I2cPlugin)
    ensures PeripheralOf(plugin.pins) == I2C1
    ensures Markers(plugin.pins) == (I2c1.SdaMarker(sda), I2c1.SclMarker(scl))
    ensures plugin.config == DefaultConfig
  {
    I2cPlugin(I2c1Pins(sda, scl), DefaultConfig)
  }

  /** `with_config`: replaces the configuration and nothing else. */
  function WithConfig(plugin: I2cPlugin, config: I2cConfig): (r: I2cPlugin)
    ensures r.pins == plugin.pins && r.config == config
  {
    plugin.(config := config)
  }

  /** `Default for I2CPlugin<I2C0>`: I2C0 on SDA = GPIO4 and SCL = GPIO5. */
  function Default(): (plugin: I2cPlugin)
    ensures PinsClaim(plugin.pins) == Request(Periph(I2C0), Pin(4), Pin(5))
    ensures plugin.config == DefaultConfig
  {
    NewI2c0(I2c0.DefaultSda, I2c0.DefaultScl)
  }

  /** The app's `I2CBus<P>` resources, one slot per peripheral type P. */
  class I2cBuses {
    var installed: map<I2cPeripheral, I2cDriver>

    constructor ()
      ensures installed == map[]
    {
      installed := map[];
    }

    /**
     * Each installed bus drives its own peripheral, owns handles that are no
     * longer in the world, and shares none with another installed bus.
     */
    ghost predicate Valid(w: World)
      reads this, w
    {
      && (forall p :: p in installed ==> installed[p].pac == Periph(p) && Owned(installed[p]) !! w.handles)
      && (forall p, q :: p in installed && q in installed && p != q ==> Owned(installed[p]) !! Owned(installed[q]))
    }
  }

  /**
   * `I2CPlugin::build`: without `PicoCore` nothing happens; otherwise the
   * pins are claimed, and only a successful claim inserts the `I2CBus<P>`.
   * `coreAdded` is `app.is_plugin_added::<PicoCore>()`.
   */
  method Build(plugin: I2cPlugin, coreAdded: bool, w: World, buses: I2cBuses)
    requires buses.Valid(w)
    modifies w`handles, buses
    ensures buses.Valid(w)
    ensures !coreAdded ==> w.handles == old(w.handles) && buses.installed == old(buses.installed)
    ensures coreAdded ==>
      var q := PinsClaim(plugin.pins);
      var o := Transaction(old(w.handles), q);
      && w.handles == o.after
      && (o.failed.Some? ==> buses.installed == old(buses.installed))
      && (o.failed.None? ==>
            && PeripheralOf(plugin.pins) !in old(buses.installed)
            && buses.installed == old(buses.installed)[PeripheralOf(plugin.pins) := I2cDriver(q.periph, q.second, q.first, plugin.config)])
  {
    if !coreAdded {
      return;
    }
    var i2c := GetI2c(w, plugin.pins, plugin.config);
    if i2c.Err? {
      return;
    }
    buses.installed := buses.installed[PeripheralOf(plugin.pins) := i2c.value];
  }
}
