/**
 * `i2c1`: the SDA and SCL pins of I2C1 and the pin-pair dispatch of its `get_i2c`.
 */
module I2c1 {
  import opened Ecs
  import opened Gpio

  /** `SDAPins`: the SDA pins I2C1 can use. */
  datatype SDAPins = Gpio2 | Gpio6 | Gpio10 | Gpio14 | Gpio18 | Gpio26

  /** `SCLPins`: the SCL pins I2C1 can use. */
  datatype SCLPins = Gpio3 | Gpio7 | Gpio11 | Gpio15 | Gpio19 | Gpio27

  /** The discriminants written on `SDAPins`; the dispatch does not read them. */
  function SdaDiscriminant(v: SDAPins): nat
  {
    match v
    case Gpio2 => 2
    case Gpio6 => 6
    case Gpio10 => 10
    case Gpio14 => 14
    case Gpio18 => 18
    case Gpio26 => 26
  }

  /** The discriminants written on `SCLPins`; the dispatch does not read them. */
  function SclDiscriminant(v: SCLPins): nat
  {
    match v
    case Gpio3 => 3
    case Gpio7 => 7
    case Gpio11 => 11
    case Gpio15 => 15
    case Gpio19 => 19
    case Gpio27 => 27
  }

  /** The pin numbers of the SDA role. */
  const SdaPinSet: set<PinId> := {2, 6, 10, 14, 18, 26}
  /** The pin numbers of the SCL role. */
  const SclPinSet: set<PinId> := {3, 7, 11, 15, 19, 27}

  /**
   * The `match (sda_pin, scl_pin)` of `get_i2c`: the pair of
   * markers `GPIOa`, `GPIOb` it instantiates the claim with, chosen by the
   * variant's name.
   */
  function Dispatch(sda: SDAPins, scl: SCLPins): (pair: (PicoPin, PicoPin))
    ensures pair.0.n in SdaPinSet && pair.1.n in SclPinSet
  {
    match (sda, scl)
    case (Gpio2, Gpio3) => (GPIO(2), GPIO(3))
    case (Gpio2, Gpio7) => (GPIO(2), GPIO(7))
    case (Gpio2, Gpio11) => (GPIO(2), GPIO(11))
    case (Gpio2, Gpio15) => (GPIO(2), GPIO(15))
    case (Gpio2, Gpio19) => (GPIO(2), GPIO(19))
    case (Gpio2, Gpio27) => (GPIO(2), GPIO(27))
    case (Gpio6, Gpio3) => (GPIO(6), GPIO(3))
    case (Gpio6, Gpio7) => (GPIO(6), GPIO(7))
    case (Gpio6, Gpio11) => (GPIO(6), GPIO(11))
    case (Gpio6, Gpio15) => (GPIO(6), GPIO(15))
    case (Gpio6, Gpio19) => (GPIO(6), GPIO(19))
    case (Gpio6, Gpio27) => (GPIO(6), GPIO(27))
    case (Gpio10, Gpio3) => (GPIO(10), GPIO(3))
    case (Gpio10, Gpio7) => (GPIO(10), GPIO(7))
    case (Gpio10, Gpio11) => (GPIO(10), GPIO(11))
    case (Gpio10, Gpio15) => (GPIO(10), GPIO(15))
    case (Gpio10, Gpio19) => (GPIO(10), GPIO(19))
    case (Gpio10, Gpio27) => (GPIO(10), GPIO(27))
    case (Gpio14, Gpio3) => (GPIO(14), GPIO(3))
    case (Gpio14, Gpio7) => (GPIO(14), GPIO(7))
    case (Gpio14, Gpio11) => (GPIO(14), GPIO(11))
    case (Gpio14, Gpio15) => (GPIO(14), GPIO(15))
    case (Gpio14, Gpio19) => (GPIO(14), GPIO(19))
    case (Gpio14, Gpio27) => (GPIO(14), GPIO(27))
    case (Gpio18, Gpio3) => (GPIO(18), GPIO(3))
    case (Gpio18, Gpio7) => (GPIO(18), GPIO(7))
    case (Gpio18, Gpio11) => (GPIO(18), GPIO(11))
    case (Gpio18, Gpio15) => (GPIO(18), GPIO(15))
    case (Gpio18, Gpio19) => (GPIO(18), GPIO(19))
    case (Gpio18, Gpio27) => (GPIO(18), GPIO(27))
    case (Gpio26, Gpio3) => (GPIO(26), GPIO(3))
    case (Gpio26, Gpio7) => (GPIO(26), GPIO(7))
    case (Gpio26, Gpio11) => (GPIO(26), GPIO(11))
    case (Gpio26, Gpio15) => (GPIO(26), GPIO(15))
    case (Gpio26, Gpio19) => (GPIO(26), GPIO(19))
    case (Gpio26, Gpio27) => (GPIO(26), GPIO(27))
  }

  /**
   * The dispatch accepts exactly the pin pairs of SdaPinSet x SclPinSet:
   * every such pair is reachable and nothing else is.
   */
  lemma DispatchExact(p: PinId, q: PinId)
    ensures (exists sda, scl :: Dispatch(sda, scl) == (GPIO(p), GPIO(q))) <==> p in SdaPinSet && q in SclPinSet
  {
    if p in SdaPinSet && q in SclPinSet {
      var sda: SDAPins := if p == 2 then Gpio2 else if p == 6 then Gpio6 else if p == 10 then Gpio10 else if p == 14 then Gpio14 else if p == 18 then Gpio18 else Gpio26;
      var scl: SCLPins := if q == 3 then Gpio3 else if q == 7 then Gpio7 else if q == 11 then Gpio11 else if q == 15 then Gpio15 else if q == 19 then Gpio19 else Gpio27;
      assert Dispatch(sda, scl) == (GPIO(p), GPIO(q));
    }
  }

  /** The SDA marker each `SDAPins` variant names. */
  function SdaMarker(v: SDAPins): PicoPin
  {
    match v
    case Gpio2 => GPIO(2)
    case Gpio6 => GPIO(6)
    case Gpio10 => GPIO(10)
    case Gpio14 => GPIO(14)
    case Gpio18 => GPIO(18)
    case Gpio26 => GPIO(26)
  }

  /** The SCL marker each `SCLPins` variant names. */
  function SclMarker(v: SCLPins): PicoPin
  {
    match v
    case Gpio3 => GPIO(3)
    case Gpio7 => GPIO(7)
    case Gpio11 => GPIO(11)
    case Gpio15 => GPIO(15)
    case Gpio19 => GPIO(19)
    case Gpio27 => GPIO(27)
  }

  /**
   * The table is a full cross product: the SDA marker depends only on
   * the SDA variant and the SCL marker only on the SCL variant.
   */
  lemma DispatchIsProduct(sda: SDAPins, scl: SCLPins)
    ensures Dispatch(sda, scl) == (SdaMarker(sda), SclMarker(scl))
  {
  }

  /** Distinct variants name distinct markers, so distinct variant pairs claim distinct pin pairs. */
  lemma MarkersInjective(sda: SDAPins, sda': SDAPins, scl: SCLPins, scl': SCLPins)
    ensures SdaMarker(sda) == SdaMarker(sda') ==> sda == sda'
    ensures SclMarker(scl) == SclMarker(scl') ==> scl == scl'
  {
  }

  /** The two roles never share a pin, so one claim never asks for the same pin twice. */
  lemma RolesDisjoint(sda: SDAPins, scl: SCLPins)
    ensures Dispatch(sda, scl).0 != Dispatch(sda, scl).1
    ensures SdaPinSet !! SclPinSet
  {
  }

  /** How the dispatched pin numbers relate to the written discriminants. */
  lemma DispatchAndDiscriminants(sda: SDAPins, scl: SCLPins)
    ensures Dispatch(sda, scl).0.n == SdaDiscriminant(sda)
    ensures Dispatch(sda, scl).1.n == SclDiscriminant(scl)
  {
  }
}
