/**
 * The hardware gate as built on machines without the Raspberry Pi GPIO
 * controller: a shared counter that every successful level write bumps.
 */
module Rpi {
  import opened Types
  import Utilities

  /**
   * What a level write reports: the pin id must fit in a u8 (checked before
   * the lock is taken), then only the exact tokens "high" and "low" are
   * accepted.
   */
  function LevelWriteOutcome(gpioId: Int32, level: string): (r: Result<()>)
    ensures r.Ok? <==> 0 <= gpioId <= 255 && (level == "high" || level == "low")
    ensures !(0 <= gpioId <= 255) ==> r == Err(OutOfU8Range(gpioId))
    ensures 0 <= gpioId <= 255 && level != "high" && level != "low" ==> r == Err(InvalidLevel(level))
  {
    match Utilities.I32ToU8(gpioId)
    case Err(e) => Err(e)
    case Ok(_) => if level == "high" || level == "low" then Ok(()) else Err(InvalidLevel(level))
  }

  /** Past the range check, the outcome depends on the level token alone. */
  lemma OutcomeIndependentOfPin(g1: Int32, g2: Int32, level: string)
    requires 0 <= g1 <= 255 && 0 <= g2 <= 255
    ensures LevelWriteOutcome(g1, level) == LevelWriteOutcome(g2, level)
  {
  }

  /** Level tokens are matched exactly: upper-case spellings are refused. */
  lemma TokenMatchIsCaseSensitive(gpioId: Int32)
    requires 0 <= gpioId <= 255
    ensures LevelWriteOutcome(gpioId, "HIGH") == Err(InvalidLevel("HIGH"))
    ensures LevelWriteOutcome(gpioId, "Low") == Err(InvalidLevel("Low"))
  {
  }

  /** The module's unit tests: pin 1 accepts "high" and "low" and refuses "unknown_level". */
  lemma RpiUnitTests()
    ensures LevelWriteOutcome(1, "high").Ok?
    ensures LevelWriteOutcome(1, "low").Ok?
    ensures LevelWriteOutcome(1, "unknown_level").Err?
  {
  }

  /** The mutex-guarded handle; its payload is a write counter. */
  class GpioController {
    var counter: int

    /** `create_gpio_arc_mutex`: always succeeds, with the counter at zero. */
    constructor ()
      ensures counter == 0
    {
      counter := 0;
    }

    /** Writes a level; a successful write adds exactly one to the counter, a failed one nothing. */
    method SetGpioLevelRpi(gpioId: Int32, level: string) returns (r: Result<()>)
      modifies this
      ensures r == LevelWriteOutcome(gpioId, level)
      ensures counter == old(counter) + (if r.Ok? then 1 else 0)
    {
      var gpioIdU8 := Utilities.I32ToU8(gpioId);
      if gpioIdU8.Err? {
        return Err(gpioIdU8.error);
      }
      if level == "high" {
        counter := counter + 1;
      } else if level == "low" {
        counter := counter + 1;
      } else {
        return Err(InvalidLevel(level));
      }
      return Ok(());
    }
  }
}
