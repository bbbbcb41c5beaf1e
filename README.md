# raspberry-web: GPIO state bookkeeping in Dafny

raspberry-web is a small web service that lets clients read and set the
level of the GPIO pins of a Raspberry Pi. It keeps what it knows about
each pin in an SQLite table `gpio_state`, with one row per pin: the pin id,
an `in_use` flag, a mode, a level and the time of the last change. A second
table, `allowed_states`, says which tokens are legal for the state types
"level" and "mode". At startup the service resets the table, validates a
pin configuration (five optional lists of pin ids) and applies a pin
configuration to the hardware and the table (`src/setup.rs`). Afterwards, the request handlers answer status
queries and run a chain of checks before a new level is written.

This project models that core:

- `types.dfy` (module `Types`): the row, the table and the error reasons, plus ASCII lower-casing.
- `validation.dfy` (module `Validation`): the configuration validator. It has a
  loop-based method proved equal to a reference function, and a
  declarative characterisation of the configurations it accepts.
- `utilities.dfy` (module `Utilities`): the store operations.
  - Class `StateStore` holds table `gpio_state` as a field. Its methods reset all
    rows or update one row, each proved against a pure table function.
  - Also here: the u8 range conversion and the lookup in `allowed_states`.
- `rpi.dfy` (module `Rpi`): the hardware layer, as built for machines without the Pi's GPIO controller.
  - Class `GpioController` holds the shared write counter.
  - Function `LevelWriteOutcome` says when a level write is accepted.
- `handlers.dfy` (module `Handlers`): the status lookup, the level-write
  check chain, and the level write with its re-read.
- `setup.dfy` (module `Setup`): applying a configuration. Each of the five
  loops is a method proved against `ApplyPhase`. The whole is proved
  against `SetupSpec`. Lemmas then characterise success exactly and say
  which rows change. They also show that a failure does not roll back
  earlier updates.
- `pinmap.dfy` (module `Pinmap`): the header-pin to GPIO tables and their round trips.

Errors are distinct alternatives of `Types.Error`, one per kind of
failure in the source (one alternative can stand for several sites, e.g.
`RowsAffected` for the zero-row result of all four updates). The source turns them into message strings and HTTP statuses.
The wall clock becomes a `now` parameter that every update in one call
shares.

A pin listed both low and high is reported as a low/high overlap only if
it passes the per-pin membership checks (`validation.rs:67-84`); otherwise
it is reported as not in use or not an output. `Validation.ErrorPrecedence`
states this order, and `Validation.LowHighOverlapAlwaysRejected` proves
that such a configuration is always rejected.

## Model

| member | source | states |
|---|---|---|
| Types.ToLowerIdempotent | src/utilities.rs:53 | lower-casing a requested state type (or level) twice is the same as once |
| Types.LowerCaseTokens | src/handlers.rs:118 | the lower-case forms of the tokens the service compares against ("level", "high", "input", ...) are themselves, and "HIGH" becomes "high" |
| Validation.VecOptionToVec | src/validation.rs:6-11 | an absent list is empty; a present list is returned unchanged |
| Validation.InBothMembers | src/validation.rs:14-30 | x is among the collected common elements exactly when x is in both u and v |
| Validation.InBothEmptyIff | src/validation.rs:14-30 | no common element is collected exactly when no element of u occurs in v |
| Validation.ElementsInBothVecs | src/validation.rs:14-30 | the loop returns None exactly when u and v share no element; otherwise it returns Some of the non-empty list of common elements, in u's order with repeats |
| Validation.LevelViolationNoneIff | src/validation.rs:67-84 | the per-pin loop finds nothing exactly when every level pin is both in use and an output |
| Validation.LevelViolationShape | src/validation.rs:67-84 | a reported level pin comes from the level lists; "not in use" names a pin missing from in_use; "not an output" names a pin that is in use but missing from output |
| Validation.ValidateSpecOkIff | src/validation.rs:32-106 | the validator accepts exactly the consistent configurations. Every level pin is in use and an output, no pin is both low and high, and no pin is both input and output |
| Validation.ValidateSetup | src/validation.rs:32-106 | the imperative validator returns exactly the verdict of the reference check order, and accepts exactly the consistent configurations |
| Validation.AllAbsentIsValid | src/validation.rs:32-106 | a configuration with all five lists absent is accepted |
| Validation.LevelsNeedInUseAndOutput | src/validation.rs:50-65 | when levels are set, an empty in_use list gives that error first; otherwise an empty output list gives its error |
| Validation.LevelPinMustBeInUseAndOutput | src/validation.rs:67-84 | a level pin missing from in_use or from output makes validation fail |
| Validation.ErrorPrecedence | src/validation.rs:50-104 | the check order: an output complaint names an in-use pin; an overlap error is only reported once every earlier check has passed |
| Validation.LowHighOverlapAlwaysRejected | src/validation.rs:86-94 | a pin listed both low and high always makes validation fail, whatever else the configuration holds |
| Validation.GuardsDoNotChangeVerdict | src/validation.rs:50-65 | the two empty-list guards change only which error is reported, never whether validation passes |
| Validation.UnitTestConfigsRejected | src/validation.rs:114-169 | the four test configurations are rejected, each for the reason its test name gives |
| Utilities.I32ToU8 | src/utilities.rs:161-169 | narrowing succeeds exactly on 0..255 and keeps the value; otherwise it reports the out-of-range value |
| Utilities.I32ToU8UnitTests | src/utilities.rs:175-190 | -1 and 256 are refused; 17 converts to 17 |
| Utilities.GetAllowedStates | src/utilities.rs:47-60 | the lookup succeeds exactly when the lower-cased state type is a key, returns that key's map, and otherwise reports "state_type not found" |
| Utilities.GetAllowedStatesIgnoresCase | src/utilities.rs:53 | the lookup gives the same answer for a type and its lower-cased form |
| Utilities.SeededAllowedStatesLookup | tests/diesel_tests.rs:38-78 | with the seeded table, "level" allows only high and low, and "mode" allows only input and output |
| Utilities.ResetAll | src/utilities.rs:9-45 | a reset keeps the same pins and ids; every row becomes unused, with empty mode and level and the new timestamp |
| Utilities.ResetAllIdempotent | src/utilities.rs:9-45 | resetting twice equals resetting once at the later time |
| Utilities.UpdateResult | src/utilities.rs:72-83 | an update of one pin succeeds exactly when the pin has a row; otherwise it reports zero rows affected |
| Utilities.SetInUse | src/utilities.rs:62-70 | only the pin's in_use flag and timestamp change; other rows and an absent pin leave the table unchanged |
| Utilities.SetMode | src/utilities.rs:95-103 | only the pin's mode and timestamp change; other rows and an absent pin leave the table unchanged |
| Utilities.SetLevel | src/utilities.rs:128-136 | only the pin's level and timestamp change; other rows and an absent pin leave the table unchanged |
| Utilities.StoreScenarios | tests/diesel_tests.rs:80-223 | the store tests: updates of pin 1 succeed and show in its row; pin 42 reports zero rows; a reset clears pin 1 (the level-write clause goes beyond the tests, whose level test writes a mode) |
| Utilities.StateStore.ResetTable | src/utilities.rs:9-45 | visiting the pins one by one leaves the table equal to the whole-table reset, and keeps every row under its own id |
| Utilities.StateStore.SetGpioInUseDb | src/utilities.rs:62-93 | reports success exactly when the pin has a row, and leaves the in_use update applied |
| Utilities.StateStore.SetGpioModeDb | src/utilities.rs:95-126 | reports success exactly when the pin has a row, and leaves the mode update applied |
| Utilities.StateStore.SetGpioLevelDb | src/utilities.rs:128-159 | reports success exactly when the pin has a row, and leaves the level update applied |
| Rpi.LevelWriteOutcome | src/rpi.rs:25-40 | a write is accepted exactly when the pin fits in a u8 and the level is exactly "high" or "low"; a range failure is reported before a bad token |
| Rpi.OutcomeIndependentOfPin | src/rpi.rs:29-38 | past the range check, the outcome depends only on the level token |
| Rpi.TokenMatchIsCaseSensitive | src/rpi.rs:31-37 | "HIGH" and "Low" are refused as invalid levels |
| Rpi.RpiUnitTests | src/rpi.rs:76-98 | pin 1 accepts "high" and "low" and refuses "unknown_level" |
| Rpi.GpioController.constructor | src/rpi.rs:14-17 | the controller starts with the counter at zero |
| Rpi.GpioController.SetGpioLevelRpi | src/rpi.rs:25-40 | returns the outcome above; an accepted write adds exactly one to the counter and a refused one leaves it unchanged |
| Handlers.GpioId | src/handlers.rs:45-67 | the status lookup succeeds exactly when the pin has a row, returns that row, and otherwise reports "no result" for the pin |
| Handlers.GpioIdReturnsRequestedPin | src/handlers.rs:56-66 | in a table keyed by pin id, the returned row is the requested pin's |
| Handlers.CheckGpioLevel | src/handlers.rs:70-136 | the check passes exactly when all four conditions hold, and then returns the row as loaded. The row exists, it is in use, its mode is "output", and the lower-cased level is listed and legal |
| Handlers.CheckGpioLevelOrder | src/handlers.rs:81-132 | the checks run in order (existence, in use, mode, the "level" row of allowed_states, level token), and each failure gives its own error, including "error loading" when allowed_states has no "level" row |
| Handlers.CheckGpioLevelIgnoresCase | src/handlers.rs:117-128 | the verdict is the same for a level and its lower-cased form |
| Handlers.SeededLevelTokens | src/handlers.rs:117-134 | on an in-use output pin with the seeded table, "high", "low" and "HIGH" pass; "input" and "output" are not allowed; an unknown token is not found |
| Handlers.IntegrationScenarios | tests/integration_tests.rs:50-233 | with the integration-test fixture, the status and level-check requests on pins 1, 2, 3 and 18 succeed or fail as the tests expect |
| Handlers.SetGpioLevel | src/handlers.rs:138-169 | writes the lower-cased level and the timestamp, and ignores the write's row count. It succeeds exactly when the pin has a row, and then returns the re-read row with the new level. Otherwise it reports "could not connect" and the table is unchanged |
| Pinmap.Pin2GpioDomain | src/pinmap.rs:2-36 | pin2gpio is defined on exactly 28 distinct header pins, all within 3..40 |
| Pinmap.Gpio2PinDomain | src/pinmap.rs:39-73 | gpio2pin is defined on exactly GPIO 0..16 and 21..31 |
| Pinmap.GpioRoundTrip | src/pinmap.rs:79-91 | for every mapped GPIO, gpio2pin followed by pin2gpio gives it back |
| Pinmap.PinRoundTrip | src/pinmap.rs:2-36 | for every mapped header pin, pin2gpio followed by gpio2pin gives it back |
| Pinmap.Gpio2PinInjective | src/pinmap.rs:39-73 | distinct GPIOs sit on distinct header pins |
| Setup.ErrorPersists | src/setup.rs:16-17 | the first failure within a loop is the failure of the whole loop, since `?` stops the loop |
| Setup.SetPinsInUse | src/setup.rs:15-19 | the in_use loop leaves the state and result that ApplyPhase prescribes |
| Setup.SetPinsOutput | src/setup.rs:22-29 | the output loop (mode, then the two hardware preparations) leaves the state and result that ApplyPhase prescribes |
| Setup.SetPinsInput | src/setup.rs:32-36 | the input loop leaves the state and result that ApplyPhase prescribes |
| Setup.SetPinsLow | src/setup.rs:39-44 | the low loop (hardware write, then store write) leaves the state, counter and result that ApplyPhase prescribes |
| Setup.SetPinsHigh | src/setup.rs:47-52 | the high loop (hardware write, then store write) leaves the state, counter and result that ApplyPhase prescribes |
| Setup.SetupRpiAndDb | src/setup.rs:11-55 | the five loops in order, stopping at the first failure, leave exactly the state, counter and result of SetupSpec |
| Setup.StepPinEffect | src/setup.rs:14-52 | one pin's calls succeed exactly when PinSucceeds holds, add or remove no row, and touch at most that pin's row. On success the row carries the phase's effect, and a level pin adds one write |
| Setup.ApplyPhaseOkIff | src/setup.rs:14-52 | a loop succeeds exactly when the calls for every listed pin succeed |
| Setup.ApplyPhaseOk | src/setup.rs:14-52 | a successful loop leaves every listed row with the phase's effect and every other row unchanged; a level loop adds one write per entry |
| Setup.ApplyPhaseFrame | src/setup.rs:14-52 | whatever its outcome, a loop adds or removes no row, leaves unlisted rows unchanged, and leaves every row either unchanged or with the phase's effect |
| Setup.SetupFromOkIff | src/setup.rs:11-55 | the loops from any point on succeed exactly when every pin they list succeeds |
| Setup.SetupOkIff | src/setup.rs:11-55 | setup succeeds exactly when every listed pin has a row, every output pin can be prepared, and every level pin fits in a u8 |
| Setup.SetupAllAbsent | src/setup.rs:11-55 | a configuration without lists changes nothing and succeeds |
| Setup.SetupTableRow | src/setup.rs:14-52 | row by row after all loops: in use if listed so; input wins over output and high over low, since later loops overwrite; new timestamp if listed; otherwise unchanged |
| Setup.SetupOk | src/setup.rs:11-55 | a successful setup leaves exactly that table and one hardware write per level entry |
| Setup.SetupFromFrame | src/setup.rs:11-55 | whatever the outcome, no row appears or disappears, and rows that no remaining list names are unchanged |
| Setup.SetupFromKeepsInUse | src/setup.rs:21-52 | the loops after the in_use loop change no in_use flag, whatever their outcome |
| Setup.SetupKeepsUnlisted | src/setup.rs:11-55 | whatever the outcome of setup, no row appears or disappears and unlisted pins are untouched |
| Setup.SetupNoRollback | src/setup.rs:11-55 | once the in_use loop has completed, a later failure does not undo it: every in_use pin stays marked in use |
| Setup.HardwareBeforeStore | src/setup.rs:41-42 | a refused hardware write leaves store and counter untouched; an accepted one counts even when the store then has no row for the pin |
| Setup.ValidatedSetupLevelPins | src/setup.rs:38-52 | after a validated configuration is applied successfully, every level pin is an in-use output with its level |
| Setup.ValidatedSetupAcceptsLevelWrites | src/handlers.rs:94-134 | so, with the seeded tokens, the level-write check accepts "high" and "low" for every such pin |

## Left out

- The HTTP layer (actix routes, JSON, status codes), the database actor pool and its connection errors, and the mutex itself. Errors are kept as distinct reasons; the mapping to HTTP statuses is not modelled.
- Database I/O errors: a failing SQL statement (not a zero-row update) is not modelled. Every update either finds its row or reports zero rows.
- Utilities.StateStore.ResetTable: the "affects n rows" error branch is not modelled. Ids are read from the table itself, so each update touches exactly one row. The order of visiting the pins is left open.
- The wall clock (`Local::now`): every update in one call takes the same `now` parameter, and nothing is said about timestamps increasing.
- Lower-casing: `to_lowercase` is Unicode-aware; the model lower-cases ASCII letters only.
- Rpi.GpioController.SetGpioLevelRpi: the counter is an unbounded integer, so the overflow of the source's `i32` counter after 2^31 - 1 writes is not modelled.
- The Raspberry Pi (ARM) build of the hardware layer, i.e. rppal and the real pin writes. Only the build without the controller, with its counter, is modelled.
- `reset_gpio_output_pin_rpi` and `set_reset_on_drop_false_for_output_pin_rpi` are not part of this model. They are given as the two functions of `Setup.PinHardware`, which may fail for any pin and are modelled as side-effect free: they change neither the pin table nor the hardware write counter. `Setup.SetupOk`, `Setup.ApplyPhaseOk` and the frame lemmas rely on this.
- Configuration loading (settings files, environment, command line), `errors.rs`, `main.rs`, `app.rs`, database creation and migrations. The seeded `allowed_states` contents are stated as constants.
- Pinmap.Pin2Gpio and Pinmap.Gpio2Pin are lookup tables without contracts of their own; their properties are the Pinmap lemmas above.
- Setup.ValidatedSetupLevelPins and Setup.ValidatedSetupAcceptsLevelWrites assume that the configuration applied is the one validated. The startup code in `src/lib.rs` (lines 71-79) validates `config.gpioconfig` but applies a map read from environment keys, and that code is not part of this model, so the premise is not guaranteed there.
- Failed reads of `gpio_state` in the handlers ("Error loading from database" at `src/handlers.rs` lines 59, 85 and 162) are not modelled: a read always returns the table. `ErrorLoadingFromDatabase` stands only for the failed `allowed_states` lookup of the level check.
