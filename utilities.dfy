/**
 * The pin-state store: table `gpio_state` (one row per pin) and table
 * `allowed_states` (which tokens are legal for a state type), with the row
 * updates the service performs, plus the i32 to u8 range conversion.
 */
module Utilities {
  import opened Types

  /** Narrowing to u8 succeeds exactly on 0..255 and keeps the value. */
  function I32ToU8(x: Int32): (r: Result<U8>)
    ensures r.Ok? <==> 0 <= x <= 255
    ensures r.Ok? ==> r.value == x
    ensures r.Err? ==> r.error == OutOfU8Range(x)
  {
    if 0 <= x <= 255 then Ok(x) else Err(OutOfU8Range(x))
  }

  /** The module's unit tests: just below and just above the range fail, 17 converts to 17. */
  lemma I32ToU8UnitTests()
    ensures I32ToU8(-1).Err?
    ensures I32ToU8(256).Err?
    ensures I32ToU8(17) == Ok(17)
  {
  }

  /**
   * The legality map stored for a state type; the requested type is
   * lower-cased before the lookup.
   */
  function GetAllowedStates(allowed: AllowedTable, desiredType: string): (r: Result<map<string, bool>>)
    ensures r.Ok? <==> ToLower(desiredType) in allowed
    ensures r.Ok? ==> r.value == allowed[ToLower(desiredType)]
    ensures r.Err? ==> r.error == StateTypeNotFound
  {
    var key := ToLower(desiredType);
    if key in allowed then Ok(allowed[key]) else Err(StateTypeNotFound)
  }

  /** The lookup does not depend on the case of the requested type. */
  lemma GetAllowedStatesIgnoresCase(allowed: AllowedTable, desiredType: string)
    ensures GetAllowedStates(allowed, desiredType) == GetAllowedStates(allowed, ToLower(desiredType))
  {
    ToLowerIdempotent(desiredType);
  }

  /** Contents of `allowed_states` after the migrations have run. */
  const SeededLevels: map<string, bool> := map["high" := true, "low" := true, "input" := false, "output" := false]
  const SeededModes: map<string, bool> := map["high" := false, "low" := false, "input" := true, "output" := true]
  const SeededAllowedStates: AllowedTable := map["level" := SeededLevels, "mode" := SeededModes]

  /** With the seeded table, levels allow high/low only and modes allow input/output only. */
  lemma SeededAllowedStatesLookup()
    ensures GetAllowedStates(SeededAllowedStates, "level") == Ok(SeededLevels)
    ensures GetAllowedStates(SeededAllowedStates, "mode") == Ok(SeededModes)
    ensures SeededLevels["high"] && SeededLevels["low"] && !SeededLevels["input"] && !SeededLevels["output"]
    ensures !SeededModes["high"] && !SeededModes["low"] && SeededModes["input"] && SeededModes["output"]
  {
    LowerCaseTokens();
    assert ToLower("mode") == "mode";
  }

  /** A row after `reset_table_gpio_state`: unused, empty mode and level. */
  function ResetRow(rec: GpioRecord, now: Timestamp): GpioRecord {
    rec.(inUse := 0, gpioMode := Some(""), gpioLevel := Some(""), lastChange := Some(now))
  }

  /** The whole table after a reset: same pins, every one unused with empty mode and level. */
  function ResetAll(t: Table, now: Timestamp): (t': Table)
    ensures t'.Keys == t.Keys
    ensures forall id :: id in t' ==>
              && t'[id].gpioId == t[id].gpioId
              && t'[id].inUse == 0
              && t'[id].gpioMode == Some("")
              && t'[id].gpioLevel == Some("")
              && t'[id].lastChange == Some(now)
  {
    map id | id in t :: ResetRow(t[id], now)
  }

  /** Resetting twice is resetting once, up to the timestamp of the second reset. */
  lemma ResetAllIdempotent(t: Table, now1: Timestamp, now2: Timestamp)
    ensures ResetAll(ResetAll(t, now1), now2) == ResetAll(t, now2)
  {
  }

  /** The outcome of an UPDATE on one pin: one row (the key exists) or zero rows. */
  function UpdateResult(t: Table, id: Int32): (r: Result<()>)
    ensures r.Ok? <==> id in t
    ensures r.Err? ==> r.error == RowsAffected(id, 0)
  {
    if id in t then Ok(()) else Err(RowsAffected(id, 0))
  }

  /** Table after `UPDATE gpio_state SET in_use, last_change WHERE gpio_id = id`. */
  function SetInUse(t: Table, id: Int32, state: Int32, now: Timestamp): (t': Table)
    ensures t'.Keys == t.Keys
    ensures forall k :: k in t && k != id ==> t'[k] == t[k]
    ensures id in t ==> && t'[id].inUse == state && t'[id].lastChange == Some(now)
                        && t'[id].gpioId == t[id].gpioId
                        && t'[id].gpioMode == t[id].gpioMode && t'[id].gpioLevel == t[id].gpioLevel
    ensures id !in t ==> t' == t
  {
    if id in t then t[id := t[id].(inUse := state, lastChange := Some(now))] else t
  }

  /** Table after `UPDATE gpio_state SET gpio_mode, last_change WHERE gpio_id = id`. */
  function SetMode(t: Table, id: Int32, mode: string, now: Timestamp): (t': Table)
    ensures t'.Keys == t.Keys
    ensures forall k :: k in t && k != id ==> t'[k] == t[k]
    ensures id in t ==> && t'[id].gpioMode == Some(mode) && t'[id].lastChange == Some(now)
                        && t'[id].gpioId == t[id].gpioId
                        && t'[id].inUse == t[id].inUse && t'[id].gpioLevel == t[id].gpioLevel
    ensures id !in t ==> t' == t
  {
    if id in t then t[id := t[id].(gpioMode := Some(mode), lastChange := Some(now))] else t
  }

  /** Table after `UPDATE gpio_state SET gpio_level, last_change WHERE gpio_id = id`. */
  function SetLevel(t: Table, id: Int32, level: string, now: Timestamp): (t': Table)
    ensures t'.Keys == t.Keys
    ensures forall k :: k in t && k != id ==> t'[k] == t[k]
    ensures id in t ==> && t'[id].gpioLevel == Some(level) && t'[id].lastChange == Some(now)
                        && t'[id].gpioId == t[id].gpioId
                        && t'[id].inUse == t[id].inUse && t'[id].gpioMode == t[id].gpioMode
    ensures id !in t ==> t' == t
  {
    if id in t then t[id := t[id].(gpioLevel := Some(level), lastChange := Some(now))] else t
  }

  /**
   * The store tests: pin 1 exists and pin 42 does not; updates of pin 1
   * succeed and show up in its row, updates of pin 42 report zero rows, and
   * a reset clears a pin that had been set up. The level-write clause goes
   * beyond the tests, whose level test writes a mode instead.
   */
  lemma StoreScenarios(t: Table, now: Timestamp, later: Timestamp)
    requires 1 in t && 42 !in t
    ensures UpdateResult(t, 1) == Ok(()) && UpdateResult(t, 42) == Err(RowsAffected(42, 0))
    ensures SetInUse(t, 1, 1, now)[1].inUse == 1
    ensures SetMode(t, 1, "input", now)[1].gpioMode == Some("input")
    ensures SetLevel(t, 1, "high", now)[1].gpioLevel == Some("high")
    ensures var changed := t[1 := t[1].(inUse := 1, gpioMode := Some("output"), gpioLevel := Some("low"))];
            var reset := ResetAll(changed, later);
            reset[1].inUse == 0 && reset[1].gpioMode == Some("") && reset[1].gpioLevel == Some("")
  {
  }

  /**
   * Table `gpio_state` of the SQLite database behind the service; the
   * handlers are given table `allowed_states` as a value, since nothing in
   * the core writes it.
   */
  class StateStore {
    var gpioState: Table

    ghost predicate Valid()
      reads this
    {
      Keyed(gpioState)
    }

    /** Resets every row; the set of pins stays the same. */
    method ResetTable(now: Timestamp)
      requires Valid()
      modifies this`gpioState
      ensures Valid()
      ensures gpioState == ResetAll(old(gpioState), now)
    {
      var gpioIdsDb := gpioState.Keys;
      while gpioIdsDb != {}
        invariant gpioIdsDb <= gpioState.Keys
        invariant gpioState.Keys == old(gpioState).Keys
        invariant forall id :: id in gpioState ==>
                    gpioState[id] == if id in gpioIdsDb then old(gpioState)[id] else ResetRow(old(gpioState)[id], now)
        decreases gpioIdsDb
      {
        var idx :| idx in gpioIdsDb;
        gpioState := gpioState[idx := ResetRow(gpioState[idx], now)];
        gpioIdsDb := gpioIdsDb - {idx};
      }
    }

    method SetGpioInUseDb(id: Int32, state: Int32, now: Timestamp) returns (r: Result<()>)
      requires Valid()
      modifies this`gpioState
      ensures Valid()
      ensures r == UpdateResult(old(gpioState), id)
      ensures gpioState == SetInUse(old(gpioState), id, state, now)
    {
      var rowsUpdated := if id in gpioState then 1 else 0;
      gpioState := SetInUse(gpioState, id, state, now);
      if rowsUpdated == 1 {
        r := Ok(());
      } else {
        r := Err(RowsAffected(id, rowsUpdated));
      }
    }

    method SetGpioModeDb(id: Int32, mode: string, now: Timestamp) returns (r: Result<()>)
      requires Valid()
      modifies this`gpioState
      ensures Valid()
      ensures r == UpdateResult(old(gpioState), id)
      ensures gpioState == SetMode(old(gpioState), id, mode, now)
    {
      var rowsUpdated := if id in gpioState then 1 else 0;
      gpioState := SetMode(gpioState, id, mode, now);
      if rowsUpdated == 1 {
        r := Ok(());
      } else {
        r := Err(RowsAffected(id, rowsUpdated));
      }
    }

    method SetGpioLevelDb(id: Int32, level: string, now: Timestamp) returns (r: Result<()>)
      requires Valid()
      modifies this`gpioState
      ensures Valid()
      ensures r == UpdateResult(old(gpioState), id)
      ensures gpioState == SetLevel(old(gpioState), id, level, now)
    {
      var rowsUpdated := if id in gpioState then 1 else 0;
      gpioState := SetLevel(gpioState, id, level, now);
      if rowsUpdated == 1 {
        r := Ok(());
      } else {
        r := Err(RowsAffected(id, rowsUpdated));
      }
    }
  }
}
