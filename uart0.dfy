/**
 * `uart0`: the TX and RX pins of UART0 and the pin-pair dispatch of its `get_uart`.
 */
module Uart0 {
  import opened Ecs
  import opened Gpio

  /** `TxPins`: the TX pins UART0 can use; `Gpio0` is the `#[default]`. */
  datatype TxPins = Gpio0 | Gpio12 | Gpio16

  /** `RxPins`: the RX pins UART0 can use; `Gpio1` is the `#[default]`. */
  datatype RxPins = Gpio1 | Gpio13 | Gpio17

  /** The discriminants written on `TxPins`; the dispatch does not read them. */
  function TxDiscriminant(v: TxPins): nat
  {
    match v
    case Gpio0 => 0
    case Gpio12 => 12
    case Gpio16 => 16
  }

  /** The discriminants written on `RxPins`; the dispatch does not read them. */
  function RxDiscriminant(v: RxPins): nat
  {
    match v
    case Gpio1 => 1
    case Gpio13 => 13
    case Gpio17 => 17
  }

  const DefaultTx: TxPins := Gpio0
  const DefaultRx: RxPins := Gpio1

  /** The pin numbers of the TX role. */
  const TxPinSet: set<PinId> := {0, 12, 16}
  /** The pin numbers of the RX role. */
  const RxPinSet: set<PinId> := {1, 13, 17}

  /**
   * The `match (tx_pin, rx_pin)` of `get_uart`: the pair of
   * markers `GPIOa`, `GPIOb` it instantiates the claim with, chosen by the
   * variant's name.
   */
  function Dispatch(tx: TxPins, rx: RxPins): (pair: (PicoPin, PicoPin))
    ensures pair.0.n in TxPinSet && pair.1.n in RxPinSet
  {
    match (tx, rx)
    case (Gpio0, Gpio1) => (GPIO(0), GPIO(1))
    case (Gpio12, Gpio1) => (GPIO(12), GPIO(1))
    case (Gpio16, Gpio1) => (GPIO(16), GPIO(1))
    case (Gpio0, Gpio17) => (GPIO(0), GPIO(17))
    case (Gpio16, Gpio17) => (GPIO(16), GPIO(17))
    case (Gpio12, Gpio17) => (GPIO(12), GPIO(17))
    case (Gpio12, Gpio13) => (GPIO(12), GPIO(13))
    case (Gpio0, Gpio13) => (GPIO(0), GPIO(13))
    case (Gpio16, Gpio13) => (GPIO(16), GPIO(13))
  }

  /**
   * The dispatch accepts exactly the pin pairs of TxPinSet x RxPinSet:
   * every such pair is reachable and nothing else is.
   */
  lemma DispatchExact(p: PinId, q: PinId)
    ensures (exists tx, rx :: Dispatch(tx, rx) == (GPIO(p), GPIO(q))) <==> p in TxPinSet && q in RxPinSet
  {
    if p in TxPinSet && q in RxPinSet {
      var tx: TxPins := if p == 0 then Gpio0 else if p == 12 then Gpio12 else Gpio16;
      var rx: RxPins := if q == 1 then Gpio1 else if q == 13 then Gpio13 else Gpio17;
      assert Dispatch(tx, rx) == (GPIO(p), GPIO(q));
    }
  }

  /** The TX marker each `TxPins` variant names. */
  function TxMarker(v: TxPins): PicoPin
  {
    match v
    case Gpio0 => GPIO(0)
    case Gpio12 => GPIO(12)
    case Gpio16 => GPIO(16)
  }

  /** The RX marker each `RxPins` variant names. */
  function RxMarker(v: RxPins): PicoPin
  {
    match v
    case Gpio1 => GPIO(1)
    case Gpio13 => GPIO(13)
    case Gpio17 => GPIO(17)
  }

  /**
   * The table is a full cross product: the TX marker depends only on
   * the TX variant and the RX marker only on the RX variant.
   */
  lemma DispatchIsProduct(tx: TxPins, rx: RxPins)
    ensures Dispatch(tx, rx) == (TxMarker(tx), RxMarker(rx))
  {
  }

  /** Distinct variants name distinct markers, so distinct variant pairs claim distinct pin pairs. */
  lemma MarkersInjective(tx: TxPins, tx': TxPins, rx: RxPins, rx': RxPins)
    ensures TxMarker(tx) == TxMarker(tx') ==> tx == tx'
    ensures RxMarker(rx) == RxMarker(rx') ==> rx == rx'
  {
  }

  /** The two roles never share a pin, so one claim never asks for the same pin twice. */
  lemma RolesDisjoint(tx: TxPins, rx: RxPins)
    ensures Dispatch(tx, rx).0 != Dispatch(tx, rx).1
    ensures TxPinSet !! RxPinSet
  {
  }

  /** How the dispatched pin numbers relate to the written discriminants. */
  lemma DispatchAndDiscriminants(tx: TxPins, rx: RxPins)
    ensures Dispatch(tx, rx).0.n == TxDiscriminant(tx)
    ensures Dispatch(tx, rx).1.n == RxDiscriminant(rx)
  {
  }
}
