/**
 * `i2c0`: the SDA and SCL pins of I2C0 and the pin-pair dispatch of its `get_i2c`.
 */
module I2c0 {
  import opened Ecs
  import opened Gpio

  /** `SDAPins`: the SDA pins I2C0 can use; `Gpio4` is the `#[default]`. */
  datatype SDAPins = Gpio0 | Gpio4 | Gpio8 | Gpio12 | Gpio16 | Gpio20

  /** `SCLPins`: the SCL pins I2C0 can use; `Gpio5` is the `#[default]`. */
  datatype SCLPins = Gpio1 | Gpio5 | Gpio9 | Gpio13 | Gpio17 | Gpio21

  /** The discriminants written on `SDAPins`; the dispatch does not read them. */
  function SdaDiscriminant(v: SDAPins): nat
  {
    match v
    case Gpio0 => 0
    case Gpio4 => 4
    case Gpio8 => 8
    case Gpio12 => 12
    case Gpio16 => 16
    case Gpio20 => 20
  }

  /** The discriminants written on `SCLPins`; the dispatch does not read them. */
  function SclDiscriminant(v: SCLPins): nat
  {
    match v
    case Gpio1 => 0
    case Gpio5 => 4
    case Gpio9 => 8
    case Gpio13 => 12
    case Gpio17 => 16
    case Gpio21 => 20
  }

  const DefaultSda: SDAPins := Gpio4
  const DefaultScl: SCLPins := Gpio5

  /** The pin numbers of the SDA role. */
  const SdaPinSet: set<PinId> := {0, 4, 8, 12, 16, 20}
  /** The pin numbers of the SCL role. */
  const SclPinSet: set<PinId> := {1, 5, 9, 13, 17, 21}

  /**
   * The `match (sda_pin, scl_pin)` of `get_i2c`: the pair of
   * markers `GPIOa`, `GPIOb` it instantiates the claim with, chosen by the
   * variant's name.
   */
  function Dispatch(sda: SDAPins, scl: SCLPins): (pair: (PicoPin, PicoPin))
    ensures pair.0.n in SdaPinSet && pair.1.n in SclPinSet
  {
    match (sda, scl)
    case (Gpio0, Gpio1) => (GPIO(0), GPIO(1))
    case (Gpio0, Gpio5) => (GPIO(0), GPIO(5))
    case (Gpio0, Gpio9) => (GPIO(0), GPIO(9))
    case (Gpio0, Gpio13) => (GPIO(0), GPIO(13))
    case (Gpio0, Gpio17) => (GPIO(0), GPIO(17))
    case (Gpio0, Gpio21) => (GPIO(0), GPIO(21))
    case (Gpio4, Gpio1) => (GPIO(4), GPIO(1))
    case (Gpio4, Gpio5) => (GPIO(4), GPIO(5))
    case (Gpio4, Gpio9) => (GPIO(4), GPIO(9))
    case (Gpio4, Gpio13) => (GPIO(4), GPIO(13))
    case (Gpio4, Gpio17) => (GPIO(4), GPIO(17))
    case (Gpio4, Gpio21) => (GPIO(4), GPIO(21))
    case (Gpio8, Gpio1) => (GPIO(8), GPIO(1))
    case (Gpio8, Gpio5) => (GPIO(8), GPIO(5))
    case (Gpio8, Gpio9) => (GPIO(8), GPIO(9))
    case (Gpio8, Gpio13) => (GPIO(8), GPIO(13))
    case (Gpio8, Gpio17) => (GPIO(8), GPIO(17))
    case (Gpio8, Gpio21) => (GPIO(8), GPIO(21))
    case (Gpio12, Gpio1) => (GPIO(12), GPIO(1))
    case (Gpio12, Gpio5) => (GPIO(12), GPIO(5))
    case (Gpio12, Gpio9) => (GPIO(12), GPIO(9))
    case (Gpio12, Gpio13) => (GPIO(12), GPIO(13))
    case (Gpio12, Gpio17) => (GPIO(12), GPIO(17))
    case (Gpio12, Gpio21) => (GPIO(12), GPIO(21))
    case (Gpio16, Gpio1) => (GPIO(16), GPIO(1))
    case (Gpio16, Gpio5) => (GPIO(16), GPIO(5))
    case (Gpio16, Gpio9) => (GPIO(16), GPIO(9))
    case (Gpio16, Gpio13) => (GPIO(16), GPIO(13))
    case (Gpio16, Gpio17) => (GPIO(16), GPIO(17))
    case (Gpio16, Gpio21) => (GPIO(16), GPIO(21))
    case (Gpio20, Gpio1) => (GPIO(20), GPIO(1))
    case (Gpio20, Gpio5) => (GPIO(20), GPIO(5))
    case (Gpio20, Gpio9) => (GPIO(20), GPIO(9))
    case (Gpio20, Gpio13) => (GPIO(20), GPIO(13))
    case (Gpio20, Gpio17) => (GPIO(20), GPIO(17))
    case (Gpio20, Gpio21) => (GPIO(20), GPIO(21))
  }

  /**
   * The dispatch accepts exactly the pin pairs of SdaPinSet x SclPinSet:
   * every such pair is reachable and nothing else is.
   */
  lemma DispatchExact(p: PinId, q: PinId)
    ensures (exists sda, scl :: Dispatch(sda, scl) == (GPIO(p), GPIO(q))) <==> p in SdaPinSet && q in SclPinSet
  {
    if p in SdaPinSet && q in SclPinSet {
      var sda: SDAPins := if p == 0 then Gpio0 else if p == 4 then Gpio4 else if p == 8 then Gpio8 else if p == 12 then Gpio12 else if p == 16 then Gpio16 else Gpio20;
      var scl: SCLPins := if q == 1 then Gpio1 else if q == 5 then Gpio5 else if q == 9 then Gpio9 else if q == 13 then Gpio13 else if q == 17 then Gpio17 else Gpio21;
      assert Dispatch(sda, scl) == (GPIO(p), GPIO(q));
    }
  }

  /** The SDA marker each `SDAPins` variant names. */
  function SdaMarker(v: SDAPins): PicoPin
  {
    match v
    case Gpio0 => GPIO(0)
    case Gpio4 => GPIO(4)
    case Gpio8 => GPIO(8)
    case Gpio12 => GPIO(12)
    case Gpio16 => GPIO(16)
    case Gpio20 => GPIO(20)
  }

  /** The SCL marker each `SCLPins` variant names. */
  function SclMarker(v: SCLPins): PicoPin
  {
    match v
    case Gpio1 => GPIO(1)
    case Gpio5 => GPIO(5)
    case Gpio9 => GPIO(9)
    case Gpio13 => GPIO(13)
    case Gpio17 => GPIO(17)
    case Gpio21 => GPIO(21)
  }

  /**
   * The table is a full cross product: the SDA marker depends only on
   * the SDA variant and the SCL marker only on the SCL variant.
   */
  lemma DispatchIsProduct(sda: SDAPins, scl: SCLPins)
    ensures Dispatch(sda, scl) == (SdaMarker(sda), SclMarker(scl))
  {
  }

  /** Distinct variants name distinct markers, so distinct variant pairs claim distinct pin pairs. */
  lemma MarkersInjective(sda: SDAPins, sda': SDAPins, scl: SCLPins, scl': SCLPins)
    ensures SdaMarker(sda) == SdaMarker(sda') ==> sda == sda'
    ensures SclMarker(scl) == SclMarker(scl') ==> scl == scl'
  {
  }

  /** The two roles never share a pin, so one claim never asks for the same pin twice. */
  lemma RolesDisjoint(sda: SDAPins, scl: SCLPins)
    ensures Dispatch(sda, scl).0 != Dispatch(sda, scl).1
    ensures SdaPinSet !! SclPinSet
  {
  }

  /** How the dispatched pin numbers relate to the written discriminants. */
  lemma DispatchAndDiscriminants(sda: SDAPins, scl: SCLPins)
    ensures Dispatch(sda, scl).0.n == SdaDiscriminant(sda)
    ensures Dispatch(sda, scl).1.n == SclDiscriminant(scl) + 1
  {
  }
}
