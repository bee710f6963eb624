/**
 * `pico_bevy_core::gpio`: the marker types `GPIO0` .. `GPIO29`, the pin
 * handle each one names, its `NAME`, and the remove-to-claim primitive
 * `from_world`.
 */
module Gpio {
  import opened Wrappers
  import opened Ecs

  /** The marker type `GPIOn`, one per pin, each an implementation of `PicoPin`. */
  datatype PicoPin = GPIO(n: PinId)

  /** `EmbassyType` of `GPIOn`: the handle `PIN_n`. */
  function EmbassyType(g: PicoPin): (r: Resource)
    ensures r.Pin? && r.id == g.n
  {
    Pin(g.n)
  }

  /** `GPIOn` and `PIN_n` are in one-to-one correspondence. */
  lemma EmbassyTypeOneToOne(g: PicoPin, h: PicoPin)
    ensures EmbassyType(g) == EmbassyType(h) <==> g == h
    ensures EmbassyType(g).Pin? && EmbassyType(g).id == g.n
  {
  }

  /** Every pin handle is claimed through exactly the marker of the same number. */
  lemma EmbassyTypeOnto(r: Resource)
    requires r.Pin?
    ensures EmbassyType(GPIO(r.id)) == r
    ensures forall g: PicoPin :: EmbassyType(g) == r ==> g == GPIO(r.id)
  {
  }

  // ---- NAME: "GPIO" followed by stringify!(n) ----

  predicate IsDigit(c: char)
  {
    '0' <= c <= '9'
  }

  function DigitChar(d: nat): (c: char)
    requires d < 10
    ensures IsDigit(c) && c as int - '0' as int == d
  {
    "0123456789"[d]
  }

  /** The decimal spelling of a literal, as `stringify!` produces it: no sign, no leading zeros. */
  function Decimal(n: nat): (s: string)
    ensures 1 <= |s|
    ensures forall i :: 0 <= i < |s| ==> IsDigit(s[i])
    ensures |s| > 1 ==> s[0] != '0'
    decreases n
  {
    if n < 10 then [DigitChar(n)] else Decimal(n / 10) + [DigitChar(n % 10)]
  }

  /** Reads back a non-empty string of decimal digits. */
  function ParseDecimal(s: string): (r: Option<nat>)
    ensures r.Some? ==> 1 <= |s|
    decreases |s|
  {
    if |s| == 0 || !IsDigit(s[|s| - 1]) then None
    else
      var d := s[|s| - 1] as int - '0' as int;
      if |s| == 1 then Some(d)
      else match ParseDecimal(s[..|s| - 1])
        case None => None
        case Some(v) => Some(v * 10 + d)
  }

  lemma {:induction false} DecimalRoundTrip(n: nat)
    ensures ParseDecimal(Decimal(n)) == Some(n)
    decreases n
  {
    if n >= 10 {
      var s := Decimal(n);
      assert s == Decimal(n / 10) + [DigitChar(n % 10)];
      assert s[..|s| - 1] == Decimal(n / 10);
      DecimalRoundTrip(n / 10);
    }
  }

  /** `NAME` of `GPIOn`. */
  function Name(g: PicoPin): (s: string)
    ensures 5 <= |s| && s[..4] == "GPIO"
    ensures forall i :: 4 <= i < |s| ==> IsDigit(s[i])
  {
    "GPIO" + Decimal(g.n)
  }

  /** Reads a `NAME` back to its marker; the inverse partner of `Name`. */
  function ParseName(s: string): Option<PicoPin>
  {
    if |s| < 4 || s[..4] != "GPIO" then None
    else match ParseDecimal(s[4..])
      case Some(v) => if v < PinCount then Some(GPIO(v)) else None
      case None => None
  }

  lemma NameRoundTrip(g: PicoPin)
    ensures ParseName(Name(g)) == Some(g)
  {
    var s := Name(g);
    assert s[..4] == "GPIO";
    assert s[4..] == Decimal(g.n);
    DecimalRoundTrip(g.n);
  }

  /** No two markers share a `NAME`. */
  lemma NameInjective(g: PicoPin, h: PicoPin)
    ensures Name(g) == Name(h) <==> g == h
  {
    if Name(g) == Name(h) {
      NameRoundTrip(g);
      NameRoundTrip(h);
    }
  }

  lemma NameExamples()
    ensures Name(GPIO(0)) == "GPIO0"
    ensures Name(GPIO(5)) == "GPIO5"
    ensures Name(GPIO(29)) == "GPIO29"
  {
    assert Decimal(29) == Decimal(2) + [DigitChar(9)];
  }

  /**
   * `PicoPin::from_world`: removes the marker's pin handle from the world
   * if it is there; `None` if someone already owns it.
   */
  method FromWorld(w: World, g: PicoPin) returns (h: Option<Resource>)
    modifies w`handles
    ensures h.Some? <==> EmbassyType(g) in old(w.handles)
    ensures h.Some? ==> h.value == EmbassyType(g)
    ensures w.handles == old(w.handles) - {EmbassyType(g)}
    ensures EmbassyType(g) !in w.handles
  {
    h := w.Remove(EmbassyType(g));
  }
}
