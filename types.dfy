/**
 * Shared vocabulary of the GPIO state store: the integer widths used by the
 * service, the Option/Result wrappers, the error reasons the core reports,
 * the row of table `gpio_state`, and ASCII lower-casing.
 */
module Types {

  /** Rust `i32`: pin ids, the `in_use` flag and configuration entries. */
  type Int32 = x: int | -0x8000_0000 <= x < 0x8000_0000

  /** Rust `u8`: the pin numbers the hardware layer can address. */
  type U8 = x: int | 0 <= x < 0x100

  /** The `last_change` column; the service fills it from the wall clock. */
  type Timestamp = string

  datatype Option<T> = None | Some(value: T) {
    function GetOr(default: T): T {
      match this
      case Some(v) => v
      case None => default
    }
  }

  /** Why an operation of the core failed, one alternative per kind of failure. */
  datatype Error =
    // startup configuration (validation.rs)
    | LevelsWithoutInUse
    | LevelsWithoutModeOutput
    | LevelPinNotInUse(gpio: Int32)
    | LevelPinNotOutput(gpio: Int32)
    | BothLowAndHigh(gpios: seq<Int32>)
    | BothInputAndOutput(gpios: seq<Int32>)
    // state store (utilities.rs)
    | RowsAffected(gpio: Int32, rows: nat)
    | StateTypeNotFound
    | OutOfU8Range(x: Int32)
    // hardware gate (rpi.rs)
    | InvalidLevel(level: string)
    // request handlers (handlers.rs)
    | NoResultForGpio(gpio: Int32)
    | GpioNotInUse(gpio: Int32)
    | LevelNotAllowedForMode(level: string, mode: string)
    | ErrorLoadingFromDatabase
    | LevelNotInAllowedStates(level: string)
    | StateNotAllowed
    | CouldNotConnect

  datatype Result<T> = Ok(value: T) | Err(error: Error)

  /** One row of table `gpio_state`; mode, level and last_change are nullable. */
  datatype GpioRecord = GpioRecord(
    gpioId: Int32,
    inUse: Int32,
    gpioMode: Option<string>,
    gpioLevel: Option<string>,
    lastChange: Option<Timestamp>)

  /** Table `gpio_state`, keyed by its primary key `gpio_id`. */
  type Table = map<Int32, GpioRecord>

  /** Table `allowed_states`: state type ("mode" or "level") to a legality flag per token. */
  type AllowedTable = map<string, map<string, bool>>

  /** Every row is stored under its own id (gpio_id is the primary key). */
  ghost predicate Keyed(t: Table) {
    forall id :: id in t ==> t[id].gpioId == id
  }

  function LowerChar(c: char): (d: char)
    ensures 'A' <= c <= 'Z' ==> 'a' <= d <= 'z' && d as int - c as int == 32
    ensures !('A' <= c <= 'Z') ==> d == c
  {
    if 'A' <= c <= 'Z' then (c as int + 32) as char else c
  }

  /** ASCII lower-casing of a string, character by character. */
  function ToLower(s: string): (r: string)
    ensures |r| == |s|
  {
    seq(|s|, i requires 0 <= i < |s| => LowerChar(s[i]))
  }

  /** Lower-casing twice is lower-casing once. */
  lemma ToLowerIdempotent(s: string)
    ensures ToLower(ToLower(s)) == ToLower(s)
  {
  }

  /** The lower-case forms of the tokens the service and its tests use. */
  lemma LowerCaseTokens()
    ensures ToLower("level") == "level"
    ensures ToLower("high") == "high"
    ensures ToLower("HIGH") == "high"
    ensures ToLower("input") == "input"
    ensures ToLower("output") == "output"
    ensures ToLower("something_random") == "something_random"
  {
  }
}
