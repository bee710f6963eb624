/**
 * `pico_bevy_core`: the `PicoCore` plugin that fills the world with every
 * hardware handle its cargo features enable, and the `UseBus` marker.
 */
module Core {
  import opened Wrappers
  import opened Ecs

  /** The cargo features of the core crate that gate what `build` inserts. */
  datatype Features = Features(uart: bool, spi: bool, i2c: bool, gpio: bool, watchdog: bool, rtc: bool)

  /** `ClockConfig::crystal(12_000_000)`, used when the app supplies no clock configuration. */
  const DefaultCrystalHz: nat := 12_000_000

  function Elements(s: seq<Resource>): set<Resource>
  {
    set r | r in s
  }

  /** `PIN_0`, .., `PIN_(n-1)` in insertion order. */
  function PinHandles(n: nat): (s: seq<Resource>)
    requires n <= PinCount
  {
    seq(n, i requires 0 <= i < n => Pin(i))
  }

  lemma PinHandlesSnoc(n: nat)
    requires n < PinCount
    ensures PinHandles(n + 1) == PinHandles(n) + [Pin(n)]
  {
  }

  /** One feature-gated group of inserts. */
  function Gate(on: bool, s: seq<Resource>): seq<Resource>
  {
    if on then s else []
  }

  /** The `uart`, `spi` and `i2c` inserts of `build`, in order. */
  function BusInserts(f: Features): seq<Resource>
  {
    Gate(f.uart, [Periph(UART0), Periph(UART1)])
    + Gate(f.spi, [Periph(SPI0), Periph(SPI1)])
    + Gate(f.i2c, [Periph(I2C0), Periph(I2C1)])
  }

  /** The handles `build` inserts, in the order of its insert calls. */
  function CoreInserts(f: Features): (s: seq<Resource>)
    ensures forall i :: 0 <= i < |s| ==> Enabled(f, s[i])
  {
    BusInserts(f)
    + Gate(f.gpio, PinHandles(PinCount))
    + Gate(f.watchdog, [Periph(WATCHDOG)])
    + Gate(f.rtc, [Periph(RTC)])
  }

  lemma ElementsAppend(a: seq<Resource>, b: seq<Resource>)
    ensures Elements(a + b) == Elements(a) + Elements(b)
  {
  }

  lemma ElementsGate(on: bool, s: seq<Resource>)
    ensures Elements(Gate(on, s)) == if on then Elements(s) else {}
  {
  }

  lemma ElementsPair(a: Resource, b: Resource)
    ensures Elements([a, b]) == {a, b}
  {
    assert [a, b][0] == a && [a, b][1] == b;
  }

  /** The feature that gates a handle is enabled. */
  predicate Enabled(f: Features, r: Resource)
  {
    match r
    case Pin(_) => f.gpio
    case Periph(p) =>
      match p
      case UART0 | UART1 => f.uart
      case SPI0 | SPI1 => f.spi
      case I2C0 | I2C1 => f.i2c
      case WATCHDOG => f.watchdog
      case RTC => f.rtc
  }

  /** No handle identity occurs twice in a sequence of inserts. */
  predicate NoDuplicates(s: seq<Resource>)
  {
    forall i, j :: 0 <= i < j < |s| ==> s[i] != s[j]
  }

  lemma NoDuplicatesAppend(a: seq<Resource>, b: seq<Resource>)
    requires NoDuplicates(a) && NoDuplicates(b)
    requires forall r :: r in a ==> r !in b
    ensures NoDuplicates(a + b)
  {
    forall i, j | 0 <= i < j < |a + b|
      ensures (a + b)[i] != (a + b)[j]
    {
      if i < |a| && |a| <= j {
        assert (a + b)[i] in a && (a + b)[j] in b;
      }
    }
  }

  /** The bus peripherals `build` inserts, group by group. */
  function BusHandles(f: Features): set<Resource>
  {
    (if f.uart then {Periph(UART0), Periph(UART1)} else {})
    + (if f.spi then {Periph(SPI0), Periph(SPI1)} else {})
    + (if f.i2c then {Periph(I2C0), Periph(I2C1)} else {})
  }

  /** The set of handles `build` inserts, group by group. */
  function CoreHandles(f: Features): set<Resource>
  {
    BusHandles(f)
    + (if f.gpio then Elements(PinHandles(PinCount)) else {})
    + (if f.watchdog then {Periph(WATCHDOG)} else {})
    + (if f.rtc then {Periph(RTC)} else {})
  }

  lemma BusInsertsGroups(f: Features)
    ensures Elements(BusInserts(f)) == BusHandles(f)
  {
    ElementsPair(Periph(UART0), Periph(UART1));
    ElementsPair(Periph(SPI0), Periph(SPI1));
    ElementsPair(Periph(I2C0), Periph(I2C1));
    ElementsGate(f.uart, [Periph(UART0), Periph(UART1)]);
    ElementsGate(f.spi, [Periph(SPI0), Periph(SPI1)]);
    ElementsGate(f.i2c, [Periph(I2C0), Periph(I2C1)]);
    ElementsAppend(Gate(f.uart, [Periph(UART0), Periph(UART1)]), Gate(f.spi, [Periph(SPI0), Periph(SPI1)]));
    ElementsAppend(Gate(f.uart, [Periph(UART0), Periph(UART1)]) + Gate(f.spi, [Periph(SPI0), Periph(SPI1)]),
      Gate(f.i2c, [Periph(I2C0), Periph(I2C1)]));
  }

  /** The set `build` ends up with is the set of its insert calls. */
  lemma CoreInsertsGroups(f: Features)
    ensures Elements(CoreInserts(f)) == CoreHandles(f)
  {
    var b, g, wd, rt := BusInserts(f), Gate(f.gpio, PinHandles(PinCount)), Gate(f.watchdog, [Periph(WATCHDOG)]),
      Gate(f.rtc, [Periph(RTC)]);
    BusInsertsGroups(f);
    ElementsGate(f.gpio, PinHandles(PinCount));
    ElementsGate(f.watchdog, [Periph(WATCHDOG)]);
    ElementsGate(f.rtc, [Periph(RTC)]);
    ElementsAppend(b, g);
    ElementsAppend(b + g, wd);
    ElementsAppend(b + g + wd, rt);
  }

  /** A handle is in the inserted set exactly when its feature is enabled. */
  lemma CoreHandlesExactly(f: Features, r: Resource)
    ensures r in CoreHandles(f) <==> Enabled(f, r)
  {
    if r.Pin? && f.gpio {
      assert PinHandles(PinCount)[r.id] == r;
    }
  }

  /** `build` inserts exactly the handles whose feature is enabled. */
  lemma CoreInsertsExactly(f: Features, r: Resource)
    ensures r in CoreInserts(f) <==> Enabled(f, r)
  {
    CoreInsertsGroups(f);
    CoreHandlesExactly(f, r);
  }

  lemma BusInsertsDistinct(f: Features)
    ensures NoDuplicates(BusInserts(f))
    ensures forall r :: r in BusInserts(f) ==> r.Periph? && r.kind in {UART0, UART1, SPI0, SPI1, I2C0, I2C1}
  {
    var u, sp, i := Gate(f.uart, [Periph(UART0), Periph(UART1)]), Gate(f.spi, [Periph(SPI0), Periph(SPI1)]),
      Gate(f.i2c, [Periph(I2C0), Periph(I2C1)]);
    NoDuplicatesAppend(u, sp);
    NoDuplicatesAppend(u + sp, i);
  }

  /** No handle identity is inserted twice: each pin PIN_0 .. PIN_29 once with `gpio`. */
  lemma CoreInsertsDistinct(f: Features)
    ensures NoDuplicates(CoreInserts(f))
  {
    var b, g, wd, rt := BusInserts(f), Gate(f.gpio, PinHandles(PinCount)), Gate(f.watchdog, [Periph(WATCHDOG)]),
      Gate(f.rtc, [Periph(RTC)]);
    BusInsertsDistinct(f);
    assert forall r :: r in g ==> r.Pin?;
    NoDuplicatesAppend(b, g);
    NoDuplicatesAppend(b + g, wd);
    NoDuplicatesAppend(b + g + wd, rt);
  }

  lemma CoreInsertsCount(f: Features)
    ensures |CoreInserts(f)| ==
      (if f.uart then 2 else 0) + (if f.spi then 2 else 0) + (if f.i2c then 2 else 0)
      + (if f.gpio then PinCount else 0) + (if f.watchdog then 1 else 0) + (if f.rtc then 1 else 0)
  {
  }

  /** The `gpio` block of `build`: PIN_0 .. PIN_29, one insert each. */
  method InsertPins(w: World)
    modifies w`handles
    ensures w.handles == old(w.handles) + Elements(PinHandles(PinCount))
  {
    for n := 0 to PinCount
      invariant w.handles == old(w.handles) + Elements(PinHandles(n))
    {
      w.Insert(Pin(n));
      PinHandlesSnoc(n);
      ElementsAppend(PinHandles(n), [Pin(n)]);
    }
  }

  /** The `uart`, `spi` and `i2c` blocks of `build`. */
  method InsertBuses(w: World, f: Features)
    modifies w`handles
    ensures w.handles == old(w.handles) + BusHandles(f)
  {
    if f.uart {
      w.Insert(Periph(UART0));
      w.Insert(Periph(UART1));
    }
    ghost var inserted := if f.uart then {Periph(UART0), Periph(UART1)} else {};
    assert w.handles == old(w.handles) + inserted;
    if f.spi {
      w.Insert(Periph(SPI0));
      w.Insert(Periph(SPI1));
    }
    inserted := inserted + if f.spi then {Periph(SPI0), Periph(SPI1)} else {};
    assert w.handles == old(w.handles) + inserted;
    if f.i2c {
      w.Insert(Periph(I2C0));
      w.Insert(Periph(I2C1));
    }
  }

  /**
   * `PicoCore::build`: takes the app's `ClockConfig` out of the world (or
   * the 12 MHz crystal default), hands it to `embassy_rp::init`, and inserts
   * the handles of every enabled feature. The returned value is the clock
   * configuration passed to `embassy_rp::init`, which is foreign.
   */
  method Build(w: World, f: Features) returns (clock: ClockConfig)
    modifies w
    ensures clock == match old(w.clockConfig) case Some(c) => c case None => Crystal(DefaultCrystalHz)
    ensures w.clockConfig == None
    ensures w.handles == old(w.handles) + CoreHandles(f)
  {
    var supplied := w.RemoveClockConfig();
    clock := match supplied case Some(c) => c case None => Crystal(DefaultCrystalHz);
    InsertBuses(w, f);
    if f.gpio {
      InsertPins(w);
    }
    ghost var inserted := BusHandles(f) + if f.gpio then Elements(PinHandles(PinCount)) else {};
    assert w.handles == old(w.handles) + inserted;
    if f.watchdog {
      w.Insert(Periph(WATCHDOG));
    }
    inserted := inserted + if f.watchdog then {Periph(WATCHDOG)} else {};
    assert w.handles == old(w.handles) + inserted;
    if f.rtc {
      w.Insert(Periph(RTC));
    }
  }

  /**
   * `UseBus<P>`: a marker component naming the bus a system wants; it holds
   * nothing but the bus it names.
   */
  datatype UseBus = UseBus(target: Peripheral)

  /** `UseBus::new`; there is deliberately no `Default`, so every marker names its bus explicitly. */
  function NewUseBus(target: Peripheral): (u: UseBus)
    ensures u.target == target
  {
    UseBus(target)
  }

  /** The marker is stateless: two markers for the same bus are equal. */
  lemma UseBusStateless(u: UseBus, v: UseBus)
    ensures u.target == v.target ==> u == v
  {
  }
}
