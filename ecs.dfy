/**
 * The part of Bevy's `World` that the claim protocol relies on: a store of
 * singleton non-send resources keyed by type. A hardware handle (a `Peri`
 * for a peripheral block or a pin) is present in the store while it is free
 * and absent while someone who removed it owns it.
 */
module Ecs {
  import opened Wrappers

  /** The peripheral blocks of the RP2040 that `PicoCore` can hand out. */
  datatype Peripheral = UART0 | UART1 | SPI0 | SPI1 | I2C0 | I2C1 | WATCHDOG | RTC

  /** The RP2040 has the GPIO lines PIN_0 .. PIN_29. */
  type PinId = n: nat | n < 30

  const PinCount: nat := 30

  /** The identity of one singleton hardware handle. */
  datatype Resource = Periph(kind: Peripheral) | Pin(id: PinId)

  /**
   * `embassy_rp::clocks::ClockConfig`; its contents are foreign, so a
   * caller-supplied configuration is an opaque tag.
   */
  datatype ClockConfig = Crystal(hz: nat) | Supplied(tag: nat)

  class World {
    /** The hardware handles currently stored as non-send resources. */
    var handles: set<Resource>
    /** The non-send `ClockConfig` resource, if one was inserted. */
    var clockConfig: Option<ClockConfig>

    constructor (clock: Option<ClockConfig>)
      ensures handles == {} && clockConfig == clock
    {
      handles := {};
      clockConfig := clock;
    }

    /** `remove_non_send_resource`: hands out the handle if it is stored. */
    method Remove(r: Resource) returns (h: Option<Resource>)
      modifies this`handles
      ensures h.Some? <==> r in old(handles)
      ensures h.Some? ==> h.value == r
      ensures handles == old(handles) - {r}
    {
      if r in handles {
        h := Some(r);
        handles := handles - {r};
      } else {
        h := None;
      }
    }

    /** `insert_non_send_resource`: stores the handle (replacing one of its type). */
    method Insert(r: Resource)
      modifies this`handles
      ensures handles == old(handles) + {r}
    {
      handles := handles + {r};
    }

    /** `remove_non_send_resource::<ClockConfig>`. */
    method RemoveClockConfig() returns (c: Option<ClockConfig>)
      modifies this`clockConfig
      ensures c == old(clockConfig) && clockConfig == None
    {
      c := clockConfig;
      clockConfig := None;
    }
  }
}
