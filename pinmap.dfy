/**
 * The two lookup tables between the 40-pin header of the Raspberry Pi 3 B
 * and the GPIO numbers of its controller (GPIO 17 to 20 have no header pin
 * in this numbering).
 */
module Pinmap {
  import opened Types

  function Pin2Gpio(pin: Int32): Option<Int32> {
    match pin
    case 11 => Some(0)
    case 12 => Some(1)
    case 13 => Some(2)
    case 15 => Some(3)
    case 16 => Some(4)
    case 18 => Some(5)
    case 22 => Some(6)
    case 7 => Some(7)
    case 3 => Some(8)
    case 5 => Some(9)
    case 24 => Some(10)
    case 26 => Some(11)
    case 19 => Some(12)
    case 21 => Some(13)
    case 23 => Some(14)
    case 8 => Some(15)
    case 10 => Some(16)
    case 29 => Some(21)
    case 31 => Some(22)
    case 33 => Some(23)
    case 35 => Some(24)
    case 37 => Some(25)
    case 32 => Some(26)
    case 36 => Some(27)
    case 38 => Some(28)
    case 40 => Some(29)
    case 27 => Some(30)
    case 28 => Some(31)
    case _ => None
  }

  function Gpio2Pin(gpio: Int32): Option<Int32> {
    match gpio
    case 0 => Some(11)
    case 1 => Some(12)
    case 2 => Some(13)
    case 3 => Some(15)
    case 4 => Some(16)
    case 5 => Some(18)
    case 6 => Some(22)
    case 7 => Some(7)
    case 8 => Some(3)
    case 9 => Some(5)
    case 10 => Some(24)
    case 11 => Some(26)
    case 12 => Some(19)
    case 13 => Some(21)
    case 14 => Some(23)
    case 15 => Some(8)
    case 16 => Some(10)
    case 21 => Some(29)
    case 22 => Some(31)
    case 23 => Some(33)
    case 24 => Some(35)
    case 25 => Some(37)
    case 26 => Some(32)
    case 27 => Some(36)
    case 28 => Some(38)
    case 29 => Some(40)
    case 30 => Some(27)
    case 31 => Some(28)
    case _ => None
  }

  /** The header pins that carry a GPIO line, in increasing order. */
  const HeaderGpioPins: seq<int> :=
    [3, 5, 7, 8, 10, 11, 12, 13, 15, 16, 18, 19, 21, 22, 23, 24, 26, 27, 28, 29, 31, 32, 33, 35, 36, 37, 38, 40]

  /** `gpio2pin` is defined exactly on GPIO 0..16 and 21..31. */
  lemma Gpio2PinDomain(gpio: Int32)
    ensures Gpio2Pin(gpio).Some? <==> 0 <= gpio <= 16 || 21 <= gpio <= 31
  {
  }

  /**
   * `pin2gpio` is defined exactly on the pins of HeaderGpioPins: 28 distinct
   * pins (the list is strictly increasing), all within 3..40.
   */
  lemma Pin2GpioDomain(pin: Int32)
    ensures Pin2Gpio(pin).Some? <==> pin in HeaderGpioPins
    ensures Pin2Gpio(pin).Some? ==> 3 <= pin <= 40
    ensures |HeaderGpioPins| == 28
    ensures forall i :: 0 <= i < |HeaderGpioPins| - 1 ==> HeaderGpioPins[i] < HeaderGpioPins[i + 1]
  {
  }

  /** GPIO to header pin and back is the identity. */
  lemma GpioRoundTrip(gpio: Int32)
    requires Gpio2Pin(gpio).Some?
    ensures Pin2Gpio(Gpio2Pin(gpio).value) == Some(gpio)
  {
  }

  /** Header pin to GPIO and back is the identity. */
  lemma PinRoundTrip(pin: Int32)
    requires Pin2Gpio(pin).Some?
    ensures Gpio2Pin(Pin2Gpio(pin).value) == Some(pin)
  {
  }

  /** Distinct GPIOs sit on distinct header pins. */
  lemma Gpio2PinInjective(g1: Int32, g2: Int32)
    requires Gpio2Pin(g1).Some? && Gpio2Pin(g2).Some?
    requires Gpio2Pin(g1) == Gpio2Pin(g2)
    ensures g1 == g2
  {
    GpioRoundTrip(g1);
    GpioRoundTrip(g2);
  }
}
