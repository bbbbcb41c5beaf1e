/**
 * The three request handlers of the database actor, as operations on the
 * pin table: a status lookup, the check chain that decides whether a level
 * may be written to a pin, and the level write itself.
 */
module Handlers {
  import opened Types
  import opened Utilities

  /** The `GpioId` message: the stored row of one pin. */
  function GpioId(table: Table, id: Int32): (r: Result<GpioRecord>)
    ensures r.Ok? <==> id in table
    ensures r.Ok? ==> r.value == table[id]
    ensures r.Err? ==> r.error == NoResultForGpio(id)
  {
    if id in table then Ok(table[id]) else Err(NoResultForGpio(id))
  }

  /** In a store whose rows sit under their own ids, the status of pin `id` is about pin `id`. */
  lemma GpioIdReturnsRequestedPin(table: Table, id: Int32)
    requires Keyed(table)
    requires id in table
    ensures GpioId(table, id) == Ok(table[id]) && GpioId(table, id).value.gpioId == id
  {
  }

  /** The level token `token` (already lower-cased) is listed for state type "level" and flagged legal. */
  predicate LevelAllowed(allowed: AllowedTable, token: string) {
    "level" in allowed && token in allowed["level"] && allowed["level"][token]
  }

  /**
   * The `CheckGpioLevel` message. The row must exist, be in use and be an
   * output (an absent mode counts as ""), and the lower-cased level must be
   * listed and legal in `allowed_states`; the row is returned as loaded.
   */
  function CheckGpioLevel(table: Table, allowed: AllowedTable, id: Int32, level: string): (r: Result<GpioRecord>)
    ensures r.Ok? <==> && id in table
                       && table[id].inUse == 1
                       && table[id].gpioMode == Some("output")
                       && LevelAllowed(allowed, ToLower(level))
    ensures r.Ok? ==> r.value == table[id]
  {
    if id !in table then Err(NoResultForGpio(id))
    else
      var gpioBefore := table[id];
      if gpioBefore.inUse != 1 then Err(GpioNotInUse(id))
      else
        var gpioModeBefore := gpioBefore.gpioMode.GetOr("");
        if gpioModeBefore != "output" then Err(LevelNotAllowedForMode(level, gpioModeBefore))
        else
          var desiredLevel := ToLower(level);
          LowerCaseTokens();
          match GetAllowedStates(allowed, "level")
          case Err(_) => Err(ErrorLoadingFromDatabase)
          case Ok(stateMap) =>
            if desiredLevel !in stateMap then Err(LevelNotInAllowedStates(desiredLevel))
            else if !stateMap[desiredLevel] then Err(StateNotAllowed)
            else Ok(gpioBefore)
  }

  /**
   * The checks run in a fixed order: existence, then in-use, then mode, then
   * the "level" row of `allowed_states`, then the level token. A pin that is not in use is refused whatever level is
   * asked for, and a non-output pin whatever level is asked for.
   */
  lemma CheckGpioLevelOrder(table: Table, allowed: AllowedTable, id: Int32, level: string)
    ensures id !in table ==> CheckGpioLevel(table, allowed, id, level) == Err(NoResultForGpio(id))
    ensures id in table && table[id].inUse != 1
            ==> CheckGpioLevel(table, allowed, id, level) == Err(GpioNotInUse(id))
    ensures id in table && table[id].inUse == 1 && table[id].gpioMode.GetOr("") != "output"
            ==> CheckGpioLevel(table, allowed, id, level)
                == Err(LevelNotAllowedForMode(level, table[id].gpioMode.GetOr("")))
    ensures id in table && table[id].inUse == 1 && table[id].gpioMode == Some("output") && "level" !in allowed
            ==> CheckGpioLevel(table, allowed, id, level) == Err(ErrorLoadingFromDatabase)
    ensures id in table && table[id].inUse == 1 && table[id].gpioMode == Some("output") && "level" in allowed
            ==> && (ToLower(level) !in allowed["level"]
                    ==> CheckGpioLevel(table, allowed, id, level) == Err(LevelNotInAllowedStates(ToLower(level))))
                && (ToLower(level) in allowed["level"] && !allowed["level"][ToLower(level)]
                    ==> CheckGpioLevel(table, allowed, id, level) == Err(StateNotAllowed))
  {
    LowerCaseTokens();
  }

  /** The level is lower-cased before the lookup, so the verdict ignores its case. */
  lemma CheckGpioLevelIgnoresCase(table: Table, allowed: AllowedTable, id: Int32, level: string)
    ensures CheckGpioLevel(table, allowed, id, level).Ok?
            <==> CheckGpioLevel(table, allowed, id, ToLower(level)).Ok?
  {
    ToLowerIdempotent(level);
  }

  /**
   * With the seeded `allowed_states`, on a pin that is in use and an output,
   * "high", "low" and "HIGH" are accepted, "input" and "output" are refused as not allowed, and
   * an unknown token is refused as not found.
   */
  lemma SeededLevelTokens(table: Table, id: Int32)
    requires id in table && table[id].inUse == 1 && table[id].gpioMode == Some("output")
    ensures CheckGpioLevel(table, SeededAllowedStates, id, "high") == Ok(table[id])
    ensures CheckGpioLevel(table, SeededAllowedStates, id, "low") == Ok(table[id])
    ensures CheckGpioLevel(table, SeededAllowedStates, id, "HIGH") == Ok(table[id])
    ensures CheckGpioLevel(table, SeededAllowedStates, id, "input") == Err(StateNotAllowed)
    ensures CheckGpioLevel(table, SeededAllowedStates, id, "output") == Err(StateNotAllowed)
    ensures CheckGpioLevel(table, SeededAllowedStates, id, "something_random")
            == Err(LevelNotInAllowedStates("something_random"))
  {
    LowerCaseTokens();
    SeededAllowedStatesLookup();
    assert ToLower("low") == "low";
    assert SeededAllowedStates["level"] == SeededLevels;
    assert "something_random" !in SeededLevels;
    CheckGpioLevelOrder(table, SeededAllowedStates, id, "input");
    CheckGpioLevelOrder(table, SeededAllowedStates, id, "output");
    CheckGpioLevelOrder(table, SeededAllowedStates, id, "something_random");
  }

  /** The pins the integration tests set up: 1 usable output, 2 unused, 3 an input, 18 absent. */
  ghost predicate IntegrationFixture(table: Table) {
    && 1 in table && table[1].inUse == 1 && table[1].gpioMode == Some("output") && table[1].gpioLevel == Some("low")
    && 2 in table && table[2].inUse == 0
    && 3 in table && table[3].inUse == 1 && table[3].gpioMode == Some("input")
    && 18 !in table
  }

  /** The integration-test expectations on the check chain and the status lookup. */
  lemma IntegrationScenarios(table: Table)
    requires IntegrationFixture(table)
    ensures GpioId(table, 1) == Ok(table[1])
    ensures GpioId(table, 18) == Err(NoResultForGpio(18))
    ensures CheckGpioLevel(table, SeededAllowedStates, 1, "high") == Ok(table[1])
    ensures CheckGpioLevel(table, SeededAllowedStates, 2, "high") == Err(GpioNotInUse(2))
    ensures CheckGpioLevel(table, SeededAllowedStates, 3, "high") == Err(LevelNotAllowedForMode("high", "input"))
    ensures CheckGpioLevel(table, SeededAllowedStates, 18, "high") == Err(NoResultForGpio(18))
    ensures CheckGpioLevel(table, SeededAllowedStates, 1, "something_random")
            == Err(LevelNotInAllowedStates("something_random"))
  {
    LowerCaseTokens();
    SeededAllowedStatesLookup();
    assert SeededAllowedStates["level"] == SeededLevels;
    assert "something_random" !in SeededLevels;
    CheckGpioLevelOrder(table, SeededAllowedStates, 1, "something_random");
    CheckGpioLevelOrder(table, SeededAllowedStates, 2, "high");
    CheckGpioLevelOrder(table, SeededAllowedStates, 3, "high");
  }

  /**
   * The `SetGpioLevel` message: writes the lower-cased level and the
   * timestamp, ignores how many rows the write touched, then re-reads the
   * row; only the re-read can fail.
   */
  method SetGpioLevel(store: StateStore, id: Int32, level: string, now: Timestamp) returns (r: Result<GpioRecord>)
    requires store.Valid()
    modifies store`gpioState
    ensures store.Valid()
    ensures store.gpioState == SetLevel(old(store.gpioState), id, ToLower(level), now)
    ensures r.Ok? <==> id in old(store.gpioState)
    ensures r.Ok? ==> && r == GpioId(store.gpioState, id)
                      && r.value.gpioId == id
                      && r.value.gpioLevel == Some(ToLower(level))
                      && r.value.inUse == old(store.gpioState[id].inUse)
                      && r.value.gpioMode == old(store.gpioState[id].gpioMode)
    ensures r.Err? ==> r.error == CouldNotConnect && store.gpioState == old(store.gpioState)
  {
    var ignored := store.SetGpioLevelDb(id, ToLower(level), now);
    var gpioAfter := GpioId(store.gpioState, id);
    match gpioAfter
    case Ok(rec) => r := Ok(rec);
    case Err(_) => r := Err(CouldNotConnect);
  }
}
