/**
 * `uart1`: the TX and RX pins of UART1 and the pin-pair dispatch of its `get_uart`.
 */
module Uart1 {
  import opened Ecs
  import opened Gpio

  /** `TxPins`: the TX pins UART1 can use. */
  datatype TxPins = Gpio4 | Gpio8

  /** `RxPins`: the RX pins UART1 can use. */
  datatype RxPins = Gpio5 | Gpio9

  /** The discriminants written on `TxPins`; the dispatch does not read them. */
  function TxDiscriminant(v: TxPins): nat
  {
    match v
    case Gpio4 => 4
    case Gpio8 => 8
  }

  /** The discriminants written on `RxPins`; the dispatch does not read them. */
  function RxDiscriminant(v: RxPins): nat
  {
    match v
    case Gpio5 => 5
    case Gpio9 => 9
  }

  /** The pin numbers of the TX role. */
  const TxPinSet: set<PinId> := {4, 8}
  /** The pin numbers of the RX role. */
  const RxPinSet: set<PinId> := {5, 9}

  /**
   * The `match (tx_pin, rx_pin)` of `get_uart`: the pair of
   * markers `GPIOa`, `GPIOb` it instantiates the claim with, chosen by the
   * variant's name.
   */
  function Dispatch(tx: TxPins, rx: RxPins): (pair: (PicoPin, PicoPin))
    ensures pair.0.n in TxPinSet && pair.1.n in RxPinSet
  {
    match (tx, rx)
    case (Gpio4, Gpio5) => (GPIO(4), GPIO(5))
    case (Gpio4, Gpio9) => (GPIO(4), GPIO(9))
    case (Gpio8, Gpio5) => (GPIO(8), GPIO(5))
    case (Gpio8, Gpio9) => (GPIO(8), GPIO(9))
  }

  /**
   * The dispatch accepts exactly the pin pairs of TxPinSet x RxPinSet:
   * every such pair is reachable and nothing else is.
   */
  lemma DispatchExact(p: PinId, q: PinId)
    ensures (exists tx, rx :: Dispatch(tx, rx) == (GPIO(p), GPIO(q))) <==> p in TxPinSet && q in RxPinSet
  {
    if p in TxPinSet && q in RxPinSet {
      var tx: TxPins := if p == 4 then Gpio4 else Gpio8;
      var rx: RxPins := if q == 5 then Gpio5 else Gpio9;
      assert Dispatch(tx, rx) == (GPIO(p), GPIO(q));
    }
  }

  /** The TX marker each `TxPins` variant names. */
  function TxMarker(v: TxPins): PicoPin
  {
    match v
    case Gpio4 => GPIO(4)
    case Gpio8 => GPIO(8)
  }

  /** The RX marker each `RxPins` variant names. */
  function RxMarker(v: RxPins): PicoPin
  {
    match v
    case Gpio5 => GPIO(5)
    case Gpio9 => GPIO(9)
  }

  /**
   * The table is a full cross product: the TX marker depends only on
   * the TX variant and the RX marker only on the RX variant.
   */
  lemma DispatchIsProduct(tx: TxPins, rx: RxPins)
    ensures Dispatch(tx, rx) == (TxMarker(tx), RxMarker(rx))
  {
  }

  /** Distinct variants name distinct markers, so distinct variant pairs claim distinct pin pairs. */
  lemma MarkersInjective(tx: TxPins, tx': TxPins, rx: RxPins, rx': RxPins)
    ensures TxMarker(tx) == TxMarker(tx') ==> tx == tx'
    ensures RxMarker(rx) == RxMarker(rx') ==> rx == rx'
  {
  }

  /** The two roles never share a pin, so one claim never asks for the same pin twice. */
  lemma RolesDisjoint(tx: TxPins, rx: RxPins)
    ensures Dispatch(tx, rx).0 != Dispatch(tx, rx).1
    ensures TxPinSet !! RxPinSet
  {
  }

  /** How the dispatched pin numbers relate to the written discriminants. */
  lemma DispatchAndDiscriminants(tx: TxPins, rx: RxPins)
    ensures Dispatch(tx, rx).0.n == TxDiscriminant(tx)
    ensures Dispatch(tx, rx).1.n == RxDiscriminant(rx)
  {
  }
}
