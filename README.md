# pico_bevy hardware-resource claim protocol, in Dafny

This project models how the RP2040 layer for Bevy hands out hardware.
`PicoCore::build` fills the Bevy `World` with one singleton handle per
peripheral block and pin that its cargo features enable. A handle that is
in the world is free. A handle that someone removed is owned by them.

The I2C and UART crates claim a bus as one transaction. The claim takes the
peripheral handle, then the first pin, then the second pin. If a step finds
its handle missing, the claim puts back what it already took and reports
that step. Each peripheral has a fixed table of pins it can use. The plugin
installs a bus resource only when the claim succeeds.

Modules, one per file:

- `Wrappers` holds `Option` and `Result`.
- `Ecs` holds the handle identities and the `World` class. `World` is the
  non-send resource store: a set of handles plus the optional `ClockConfig`.
- `Gpio` holds the `GPIOn` markers, `NAME` and `from_world`.
- `Core` holds `PicoCore::build`, the feature-gated registry and `UseBus`.
- `Claim` holds the pure specification of the claim transaction, plus a
  ledger that proves no handle ever has two owners.
- `I2c0`, `I2c1`, `Uart0` and `Uart1` hold the pin enums and the pin-pair
  dispatch of `get_i2c` and `get_uart`.
- `I2c` and `Uart` hold `make_i2c`/`make_uart`, `get_i2c`/`get_uart`, the
  plugins, and the UART bus `write`/`read`.

The claim methods mutate a `World` step by step, with the source's early
returns. Their postconditions tie the new world and the result to
`Claim.Transaction`. The all-or-nothing behaviour, the error that names the
first unavailable handle, and the lemmas about retrying and ownership are
all proved about that function.

## Model

| member | source | states |
|---|---|---|
| Ecs.World.Remove | crates/core/src/gpio.rs:8 | `remove_non_send_resource` hands out a handle exactly when it is stored, and the handle is no longer stored afterwards. |
| Ecs.World.Insert | crates/i2c/src/lib.rs:59 | `insert_non_send_resource` stores the handle and leaves every other handle as it was. |
| Ecs.World.RemoveClockConfig | crates/core/src/lib.rs:19-21 | Removing the `ClockConfig` resource returns what was stored and leaves none behind. |
| Gpio.EmbassyType | crates/core/src/gpio.rs:21 | `EmbassyType` of `GPIOn` is the pin handle `PIN_n`; this holds by construction. |
| Gpio.Name | crates/core/src/gpio.rs:20 | `NAME` starts with "GPIO", and the rest is a non-empty run of decimal digits. |
| Gpio.FromWorld | crates/core/src/gpio.rs:7-9 | It returns the marker's own pin handle exactly when that handle was present. Only that handle leaves the world, and it is absent afterwards, so a second call returns `None`. |
| Gpio.EmbassyTypeOneToOne | crates/core/src/gpio.rs:18-23 | `GPIOn` names the handle `PIN_n`, and two markers name the same handle only if they are the same marker. This follows directly from the definition of `Gpio.EmbassyType`. |
| Gpio.EmbassyTypeOnto | crates/core/src/gpio.rs:26-29 | Every pin handle `PIN_n` is named by exactly one marker, `GPIOn`. This follows directly from the definition of `Gpio.EmbassyType`. |
| Gpio.DigitChar | crates/core/src/gpio.rs:20 | A digit below ten is spelled as the decimal character with that value. |
| Gpio.Decimal | crates/core/src/gpio.rs:20 | The `stringify!` spelling of a pin number is a non-empty run of decimal digits without a leading zero. |
| Gpio.DecimalRoundTrip | crates/core/src/gpio.rs:20 | Reading the decimal spelling back gives the original number. |
| Gpio.NameRoundTrip | crates/core/src/gpio.rs:19-20 | `NAME` is "GPIO" followed by the number in decimal, and reading it back gives the marker. |
| Gpio.NameInjective | crates/core/src/gpio.rs:19-20 | Two markers share a `NAME` exactly when they are the same marker. |
| Gpio.NameExamples | crates/core/src/gpio.rs:26-28 | `GPIO0`, `GPIO5` and `GPIO29` are named "GPIO0", "GPIO5" and "GPIO29". |
| Core.CoreInserts | crates/core/src/lib.rs:31-92 | The insert calls of `build`, transcribed in source order. Each of them is gated by a feature that is enabled. |
| Core.InsertPins | crates/core/src/lib.rs:49-82 | The `gpio` block adds the handles PIN_0 .. PIN_29 to the world, and nothing else. |
| Core.InsertBuses | crates/core/src/lib.rs:31-48 | The `uart`, `spi` and `i2c` blocks add exactly the enabled bus peripherals to the world. |
| Core.BusInsertsGroups | crates/core/src/lib.rs:31-48 | The bus inserts, taken as a set, are the enabled peripheral pairs. |
| Core.BusInsertsDistinct | crates/core/src/lib.rs:31-48 | The bus inserts name no handle twice, and each of them is a UART, SPI or I2C peripheral. |
| Core.CoreHandlesExactly | crates/core/src/lib.rs:31-92 | A handle is in the populated set exactly when its feature is enabled. |
| Core.Build | crates/core/src/lib.rs:16-93 | A supplied `ClockConfig` is removed from the world and used; without one, the 12 MHz crystal is used. The world gains exactly the handles of the enabled feature groups. |
| Core.CoreInsertsExactly | crates/core/src/lib.rs:31-92 | A handle is inserted if and only if its feature is enabled. With `gpio` that is each pin 0..29. `uart` gives UART0/UART1, `spi` gives SPI0/SPI1, `i2c` gives I2C0/I2C1, then WATCHDOG and RTC. |
| Core.CoreInsertsDistinct | crates/core/src/lib.rs:34-91 | The transcribed sequence of insert calls names no handle identity twice. |
| Core.CoreInsertsCount | crates/core/src/lib.rs:31-92 | Insert counts: two per enabled peripheral pair, thirty for `gpio`, one each for `watchdog` and `rtc`. |
| Core.CoreInsertsGroups | crates/core/src/lib.rs:31-92 | The set of inserted handles is the union of the enabled groups, the set that `Core.Build` ensures. |
| Core.NewUseBus | crates/core/src/lib.rs:105-111 | `UseBus::new` produces a marker for the requested bus. |
| Core.UseBusStateless | crates/core/src/lib.rs:102-103 | The marker carries no state: two markers for the same bus are equal. This holds by construction. |
| Claim.Transaction | crates/i2c/src/lib.rs:46-74 | It fails at the peripheral, the first pin or the second pin exactly when that is the first unavailable handle. It succeeds exactly when all three are present and distinct. On failure the registry is unchanged. On success exactly the three claimed handles are gone and nothing else changes. |
| Claim.LaterStepsNotExamined | crates/i2c/src/lib.rs:46-61 | A missing peripheral ends the claim before either pin is looked at. A missing first pin ends it before the second pin is looked at. |
| Claim.RetryAfterFailure | crates/i2c/src/lib.rs:46-73 | Retrying a failed claim fails at the same step with no state drift. |
| Claim.RepeatAfterSuccess | crates/i2c/src/lib.rs:46-50 | After a success, every claim of the same peripheral fails with the peripheral error and changes nothing. |
| Claim.Independence | crates/i2c/src/lib.rs:46-74 | A successful or failed claim of other handles does not change whether a claim succeeds or where it fails. |
| Claim.StepKeepsExclusive | crates/i2c/src/plugin.rs:21-26 | One claim keeps every handle either free or owned by exactly one bus. |
| Claim.RunKeepsExclusive | crates/i2c/src/plugin.rs:21-26 | Any sequence of claims keeps every handle either free or owned by exactly one bus. |
| Claim.OwnedByExactlyOne | crates/i2c/src/plugin.rs:21-26 | In such a ledger, a handle missing from the registry has exactly one owner. |
| Claim.StartUpIsExclusive | crates/core/src/lib.rs:30-92 | Start-up begins with the registry holding every handle and no owners. After any start-up sequence of claims, no handle is lost, duplicated or shared. It is the instance of `Claim.RunKeepsExclusive` for that starting ledger. |
| I2c0.Dispatch | crates/i2c/src/lib.rs:127-182 | The 36 arms of I2C0's `get_i2c` match, in source order. Each arm picks an SDA pin from the SDA set and an SCL pin from the SCL set. |
| I2c0.DispatchExact | crates/i2c/src/lib.rs:127-182 | I2C0's `get_i2c` accepts exactly the pin pairs {0,4,8,12,16,20} × {1,5,9,13,17,21}. |
| I2c0.DispatchIsProduct | crates/i2c/src/lib.rs:127-182 | I2C0's dispatch picks the SDA pin from the SDA variant alone and the SCL pin from the SCL variant alone. |
| I2c0.MarkersInjective | crates/i2c/src/lib.rs:94-114 | Distinct I2C0 variants name distinct GPIO markers. |
| I2c0.RolesDisjoint | crates/i2c/src/lib.rs:94-114 | I2C0's SDA and SCL sets share no pin, so one claim never requests the same pin twice. |
| I2c0.DispatchAndDiscriminants | crates/i2c/src/lib.rs:94-114 | The dispatched GPIO follows the variant name. It equals the SDA discriminant but is one more than the written SCL discriminant. |
| I2c1.Dispatch | crates/i2c/src/lib.rs:232-301 | The 36 arms of I2C1's `get_i2c` match. Each arm picks an SDA pin from the SDA set and an SCL pin from the SCL set. |
| I2c1.DispatchExact | crates/i2c/src/lib.rs:232-301 | I2C1's `get_i2c` accepts exactly the pin pairs {2,6,10,14,18,26} × {3,7,11,15,19,27}. |
| I2c1.DispatchIsProduct | crates/i2c/src/lib.rs:232-301 | I2C1's dispatch picks each pin from its own role's variant alone. |
| I2c1.MarkersInjective | crates/i2c/src/lib.rs:203-220 | Distinct I2C1 variants name distinct GPIO markers. |
| I2c1.RolesDisjoint | crates/i2c/src/lib.rs:203-220 | I2C1's SDA and SCL sets share no pin. |
| I2c1.DispatchAndDiscriminants | crates/i2c/src/lib.rs:203-220 | I2C1's dispatched GPIO numbers equal the written discriminants. |
| Uart0.Dispatch | crates/uart/src/lib.rs:133-151 | The 9 arms of UART0's `get_uart` match, in their irregular source order. Each arm picks a TX pin from the TX set and an RX pin from the RX set. |
| Uart0.DispatchExact | crates/uart/src/lib.rs:133-151 | UART0's `get_uart` accepts exactly the 9 pairs {0,12,16} × {1,13,17}. |
| Uart0.DispatchIsProduct | crates/uart/src/lib.rs:133-151 | UART0's dispatch picks TX from the TX variant alone and RX from the RX variant alone, despite the arms' irregular order. |
| Uart0.MarkersInjective | crates/uart/src/lib.rs:106-120 | Distinct UART0 variants name distinct GPIO markers. |
| Uart0.RolesDisjoint | crates/uart/src/lib.rs:106-120 | UART0's TX and RX sets share no pin. |
| Uart0.DispatchAndDiscriminants | crates/uart/src/lib.rs:106-120 | UART0's dispatched GPIO numbers equal the written discriminants. |
| Uart1.Dispatch | crates/uart/src/lib.rs:193-198 | The 4 arms of UART1's `get_uart` match. Each arm picks a TX pin from the TX set and an RX pin from the RX set. |
| Uart1.DispatchExact | crates/uart/src/lib.rs:193-198 | UART1's `get_uart` accepts exactly the 4 pairs {4,8} × {5,9}. |
| Uart1.DispatchIsProduct | crates/uart/src/lib.rs:193-198 | UART1's dispatch picks each pin from its own role's variant alone. |
| Uart1.MarkersInjective | crates/uart/src/lib.rs:172-181 | Distinct UART1 variants name distinct GPIO markers. |
| Uart1.RolesDisjoint | crates/uart/src/lib.rs:172-181 | UART1's TX and RX sets share no pin. |
| Uart1.DispatchAndDiscriminants | crates/uart/src/lib.rs:172-181 | UART1's dispatched GPIO numbers equal the written discriminants. |
| I2c.ErrorsNameSteps | crates/i2c/src/plugin.rs:54-60 | `MakeI2CError` has exactly three cases. They correspond one-to-one with the three claim steps. |
| I2c.MakeI2c | crates/i2c/src/lib.rs:39-75 | The world afterwards is what the claim transaction leaves. On failure the error names the failed step: peripheral, SDA, then SCL. On success the driver owns the peripheral, SCL and SDA handles, passed to `new_blocking` in that order, plus the configuration. |
| I2c.PinsClaimShape | crates/i2c/src/lib.rs:116-301 | Every pin choice claims its own peripheral and two distinct pins, SDA from its SDA set and SCL from its SCL set. |
| I2c.GetI2c | crates/i2c/src/lib.rs:116-301 | The total match over the pin pair behaves as `make_i2c` on the dispatched markers. |
| I2c.ClaimWithoutFeature | crates/core/src/lib.rs:43-48 | Without the `i2c` feature no I2C handle is ever in the registry. Start-up's registry and any registry later claims leave behind are both subsets of what `build` inserted. So every I2C claim fails with `PeripheralTaken`. |
| I2c.NewI2c0 | crates/i2c/src/lib.rs:82-90 | `i2c0` targets I2C0 with the given pins and the default configuration. |
| I2c.NewI2c1 | crates/i2c/src/lib.rs:192-200 | `i2c1` targets I2C1 with the given pins and the default configuration. |
| I2c.WithConfig | crates/i2c/src/plugin.rs:38-43 | Only the configuration is replaced; SDA and SCL are unchanged. |
| I2c.Default | crates/i2c/src/plugin.rs:45-52 | The default plugin claims I2C0 with SDA = PIN_4 and SCL = PIN_5 under the default configuration. |
| I2c.I2cBuses.constructor | crates/i2c/src/plugin.rs:26 | The app starts with no I2C bus resource. |
| I2c.Build | crates/i2c/src/plugin.rs:8-29 | Without PicoCore nothing changes. Otherwise the world is what the claim leaves. A failed claim inserts no bus. A successful one inserts exactly one `I2CBus<P>`, for a peripheral that had none. Installed buses stay disjoint from each other and from the registry. |
| Uart.ErrorsNameSteps | crates/uart/src/plugin.rs:51-57 | `MakeUArtError` has exactly three cases. They correspond one-to-one with the three claim steps. |
| Uart.MakeUart | crates/uart/src/lib.rs:52-88 | The world afterwards is what the claim transaction leaves. On failure the error names the failed step: peripheral, TX, then RX. On success the driver owns the peripheral, TX and RX handles and the configuration. |
| Uart.PinsClaimShape | crates/uart/src/lib.rs:91-201 | Every pin choice claims its own peripheral and two distinct pins, TX from its TX set and RX from its RX set. |
| Uart.GetUart | crates/uart/src/lib.rs:122-200 | The total match over the pin pair behaves as `make_uart` on the dispatched markers. |
| Uart.ClaimWithoutFeature | crates/core/src/lib.rs:31-36 | Without the `uart` feature, every UART claim against a registry that holds no more than `build` inserted fails with `PeripheralTaken`. |
| Uart.NewUart0 | crates/uart/src/lib.rs:94-102 | `uart0` targets UART0 with the given pins and the default configuration. |
| Uart.NewUart1 | crates/uart/src/lib.rs:161-169 | `uart1` targets UART1 with the given pins and the default configuration. |
| Uart.WithConfig | crates/uart/src/plugin.rs:38-43 | Only the configuration is replaced; TX and RX are unchanged. |
| Uart.Default | crates/uart/src/plugin.rs:45-49 | The default plugin claims UART0 with TX = PIN_0 and RX = PIN_1 under the default configuration. |
| Uart.DefaultPinsAreDefaultVariants | crates/uart/src/lib.rs:104-120 | The default plugin's pins are the `#[default]` variants of UART0's pin enums. |
| Uart.UartBuses.constructor | crates/uart/src/plugin.rs:26 | The app starts with no UART bus resource. |
| Uart.Build | crates/uart/src/plugin.rs:8-29 | Without PicoCore nothing changes. Otherwise the world is what the claim leaves. A failed claim inserts no bus. A successful one inserts exactly one `UArtBus<P>`. Buses stay disjoint from each other and from the registry. |
| Uart.Write | crates/uart/src/lib.rs:204-207 | `write` never reports an error, whatever the blocking write returned. |
| Uart.Read | crates/uart/src/lib.rs:209-211 | `read` reports an error exactly when the blocking read did, and it is the same error. |
| Uart.WriteReadAsymmetry | crates/uart/src/lib.rs:203-212 | The same driver error is hidden by `write` and surfaced by `read`. |
| Uart.UseUart0 | crates/uart/src/lib.rs:215-217 | `uart0()` is the marker for UART0. |
| Uart.UseUart1 | crates/uart/src/lib.rs:218-220 | `uart1()` is the marker for UART1. |

## Left out

- Rollback order: the code re-inserts the peripheral first and then the first pin. That is the acquisition order, not its reverse. Re-insertion into a keyed store is order-independent, so the final registry is the same. The model follows the code.
- crates/i2c/src/bus.rs: the I2C bus operations only forward to the embassy driver, which is hardware I/O. What is modelled is that an `I2CBus` exists only after a successful claim.
- crates/i2c/src/address.rs (a `u8` newtype) and src/lib.rs (heap allocator set-up and re-exports) carry no protocol logic and are not part of this model.
- `embassy_rp::init` is foreign. `Core.Build` returns the clock configuration it would be given. The contents of `ClockConfig`, `i2c::Config` and `uart::Config` are opaque tags.
- `I2c::new_blocking` and `Uart::new_blocking` are foreign. A driver is a value that owns the handles passed to it, and nothing in the hardware is configured.
- `defmt` logging is left out. It has no effect on state.
- The Bevy `App`/`Plugin` lifecycle is left out. `is_plugin_added::<PicoCore>()` is a boolean parameter, and bus resources are a map keyed by peripheral.
- `get_pin` (crates/i2c/src/lib.rs:36-38, crates/uart/src/lib.rs:49-51) removes a pin like `Gpio.FromWorld` does. Nothing calls it, so it is not modelled separately.
- SPI, watchdog and RTC handles are only inserted by `Core.Build`. No code shown claims them.
- Pin numbers are a subtype below 30. A handle for any other pin number cannot be written down, so "no other pin is inserted" holds by construction.
- Core.InsertPins: the thirty unrolled insert calls are modelled as one loop over 0..29. The resulting registry is the same.
- Core.CoreInsertsDistinct: this is proved of `Core.CoreInserts`, the transcription of the insert calls. `Core.Build` is tied to the same handles only as a set, through `Core.CoreInsertsGroups`. The world keeps no log of the calls `Core.Build` makes.
- Trait bounds such as `SdaPin<Self>` and `TxPin<Self>` are modelled by the finite dispatch tables.
- I2c.Build, Uart.Build: each class invariant covers the buses of its own crate. Exclusivity across I2C and UART buses together is proved on the `Claim` ledger instead.
- Uart.Write, Uart.Read: the driver's outcome is a parameter. The bytes moved by the hardware are not modelled.
- Concurrency does not arise, because all claims run once at start-up.
