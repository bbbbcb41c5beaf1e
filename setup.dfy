/**
 * Applying a validated startup configuration: the five pin lists are
 * applied in a fixed order (in use, output, input, low, high), each pin by
 * store updates and, for outputs and levels, hardware calls. The first
 * failing call aborts; what was applied before it stays applied.
 */
module Setup {
  import opened Types
  import opened Utilities
  import opened Validation
  import Rpi
  import Handlers

  /**
   * The two output-pin preparations of the hardware layer (reset the pin,
   * keep its state when the handle is dropped). Their code is not part of
   * this model: they are given as functions that may fail.
   */
  datatype PinHardware = PinHardware(resetOutputPin: Int32 -> Result<()>, keepOnDrop: Int32 -> Result<()>)

  /** What setup can change: the pin table and the hardware write counter. */
  datatype World = World(table: Table, counter: int)

  /** The result of a sequence of calls together with the state they leave behind. */
  datatype Outcome = Outcome(result: Result<()>, world: World)

  /** The five loops of setup, in the order they run. */
  datatype Phase = InUsePhase | OutputPhase | InputPhase | LowPhase | HighPhase {
    predicate WritesLevel() {
      LowPhase? || HighPhase?
    }
  }

  /** A level pin: the hardware write first, then the store write. */
  function LevelStep(id: Int32, level: string, w: World, now: Timestamp): Outcome {
    var written := Rpi.LevelWriteOutcome(id, level);
    if written.Err? then Outcome(written, w)
    else Outcome(UpdateResult(w.table, id), World(SetLevel(w.table, id, level, now), w.counter + 1))
  }

  /** The calls made for one pin of one phase. */
  function StepPin(phase: Phase, id: Int32, w: World, now: Timestamp, hw: PinHardware): Outcome {
    match phase
    case InUsePhase =>
      Outcome(UpdateResult(w.table, id), w.(table := SetInUse(w.table, id, 1, now)))
    case OutputPhase =>
      var w' := w.(table := SetMode(w.table, id, "output", now));
      if UpdateResult(w.table, id).Err? then Outcome(UpdateResult(w.table, id), w')
      else if hw.resetOutputPin(id).Err? then Outcome(hw.resetOutputPin(id), w')
      else if hw.keepOnDrop(id).Err? then Outcome(hw.keepOnDrop(id), w')
      else Outcome(Ok(()), w')
    case InputPhase =>
      Outcome(UpdateResult(w.table, id), w.(table := SetMode(w.table, id, "input", now)))
    case LowPhase => LevelStep(id, "low", w, now)
    case HighPhase => LevelStep(id, "high", w, now)
  }

  /** One phase over a list of pins, stopping at the first failure. */
  function ApplyPhase(phase: Phase, ids: seq<Int32>, w: World, now: Timestamp, hw: PinHardware): Outcome
    decreases |ids|
  {
    if ids == [] then Outcome(Ok(()), w)
    else
      var before := ApplyPhase(phase, ids[..|ids| - 1], w, now, hw);
      if before.result.Err? then before
      else StepPin(phase, ids[|ids| - 1], before.world, now, hw)
  }

  /** The phase of the `k`-th loop of setup. */
  function PhaseOf(k: nat): Phase
    requires k < 5
  {
    [InUsePhase, OutputPhase, InputPhase, LowPhase, HighPhase][k]
  }

  /** The pin list the `k`-th loop runs over; an absent list is empty. */
  function ListOf(config: GpioConfig, k: nat): seq<Int32>
    requires k < 5
  {
    VecOptionToVec([config.gpiosInUse, config.gpiosModeOutput, config.gpiosModeInput,
                    config.gpiosLevelLow, config.gpiosLevelHigh][k])
  }

  /** The loops from the `k`-th on, one after another, stopping at the first failure. */
  function SetupFrom(config: GpioConfig, k: nat, w: World, now: Timestamp, hw: PinHardware): Outcome
    decreases 5 - k
  {
    if k >= 5 then Outcome(Ok(()), w)
    else
      var o := ApplyPhase(PhaseOf(k), ListOf(config, k), w, now, hw);
      if o.result.Err? then o else SetupFrom(config, k + 1, o.world, now, hw)
  }

  /** What setup does to the store and the hardware, and what it returns. */
  function SetupSpec(config: GpioConfig, w: World, now: Timestamp, hw: PinHardware): Outcome {
    SetupFrom(config, 0, w, now, hw)
  }

  /** A failure within the first `j` pins of a phase is the failure of the whole phase. */
  lemma {:induction false} ErrorPersists(phase: Phase, ids: seq<Int32>, j: nat, w: World, now: Timestamp, hw: PinHardware)
    requires j <= |ids|
    requires ApplyPhase(phase, ids[..j], w, now, hw).result.Err?
    ensures ApplyPhase(phase, ids, w, now, hw) == ApplyPhase(phase, ids[..j], w, now, hw)
    decreases |ids|
  {
    if j < |ids| {
      var prefix := ids[..|ids| - 1];
      assert prefix[..j] == ids[..j];
      ErrorPersists(phase, prefix, j, w, now, hw);
    } else {
      assert ids[..j] == ids;
    }
  }

  /** One more pin of a phase that has succeeded so far is one more step from where it left off. */
  lemma PhaseStep(phase: Phase, ids: seq<Int32>, i: nat, w: World, now: Timestamp, hw: PinHardware)
    requires i < |ids|
    requires ApplyPhase(phase, ids[..i], w, now, hw).result.Ok?
    ensures ApplyPhase(phase, ids[..i + 1], w, now, hw)
            == StepPin(phase, ids[i], ApplyPhase(phase, ids[..i], w, now, hw).world, now, hw)
  {
    assert ids[..i + 1][..i] == ids[..i];
  }

  /** The `in_use` loop: marks every listed pin as in use. */
  method SetPinsInUse(gpiosInUse: seq<Int32>, store: StateStore, gpio: Rpi.GpioController, now: Timestamp, hw: PinHardware)
    returns (r: Result<()>)
    requires store.Valid()
    modifies store`gpioState
    ensures store.Valid()
    ensures Outcome(r, World(store.gpioState, gpio.counter))
            == ApplyPhase(InUsePhase, gpiosInUse, World(old(store.gpioState), gpio.counter), now, hw)
  {
    ghost var w := World(store.gpioState, gpio.counter);
    var i := 0;
    while i < |gpiosInUse|
      invariant 0 <= i <= |gpiosInUse|
      invariant store.Valid()
      invariant ApplyPhase(InUsePhase, gpiosInUse[..i], w, now, hw) == Outcome(Ok(()), World(store.gpioState, gpio.counter))
    {
      var idx := gpiosInUse[i];
      PhaseStep(InUsePhase, gpiosInUse, i, w, now, hw);
      var res := store.SetGpioInUseDb(idx, 1, now);
      if res.Err? {
        ErrorPersists(InUsePhase, gpiosInUse, i + 1, w, now, hw);
        return res;
      }
      i := i + 1;
    }
    assert gpiosInUse[..i] == gpiosInUse;
    return Ok(());
  }

  /** The `mode output` loop: sets the mode, then prepares the pin on the hardware. */
  method SetPinsOutput(gpiosModeOutput: seq<Int32>, store: StateStore, gpio: Rpi.GpioController, now: Timestamp, hw: PinHardware)
    returns (r: Result<()>)
    requires store.Valid()
    modifies store`gpioState
    ensures store.Valid()
    ensures Outcome(r, World(store.gpioState, gpio.counter))
            == ApplyPhase(OutputPhase, gpiosModeOutput, World(old(store.gpioState), gpio.counter), now, hw)
  {
    ghost var w := World(store.gpioState, gpio.counter);
    var i := 0;
    while i < |gpiosModeOutput|
      invariant 0 <= i <= |gpiosModeOutput|
      invariant store.Valid()
      invariant ApplyPhase(OutputPhase, gpiosModeOutput[..i], w, now, hw) == Outcome(Ok(()), World(store.gpioState, gpio.counter))
    {
      var idx := gpiosModeOutput[i];
      PhaseStep(OutputPhase, gpiosModeOutput, i, w, now, hw);
      var res := store.SetGpioModeDb(idx, "output", now);
      if res.Err? {
        ErrorPersists(OutputPhase, gpiosModeOutput, i + 1, w, now, hw);
        return res;
      }
      var reset := hw.resetOutputPin(idx);
      if reset.Err? {
        ErrorPersists(OutputPhase, gpiosModeOutput, i + 1, w, now, hw);
        return reset;
      }
      var keep := hw.keepOnDrop(idx);
      if keep.Err? {
        ErrorPersists(OutputPhase, gpiosModeOutput, i + 1, w, now, hw);
        return keep;
      }
      i := i + 1;
    }
    assert gpiosModeOutput[..i] == gpiosModeOutput;
    return Ok(());
  }

  /** The `mode input` loop: sets the mode of every listed pin. */
  method SetPinsInput(gpiosModeInput: seq<Int32>, store: StateStore, gpio: Rpi.GpioController, now: Timestamp, hw: PinHardware)
    returns (r: Result<()>)
    requires store.Valid()
    modifies store`gpioState
    ensures store.Valid()
    ensures Outcome(r, World(store.gpioState, gpio.counter))
            == ApplyPhase(InputPhase, gpiosModeInput, World(old(store.gpioState), gpio.counter), now, hw)
  {
    ghost var w := World(store.gpioState, gpio.counter);
    var i := 0;
    while i < |gpiosModeInput|
      invariant 0 <= i <= |gpiosModeInput|
      invariant store.Valid()
      invariant ApplyPhase(InputPhase, gpiosModeInput[..i], w, now, hw) == Outcome(Ok(()), World(store.gpioState, gpio.counter))
    {
      var idx := gpiosModeInput[i];
      PhaseStep(InputPhase, gpiosModeInput, i, w, now, hw);
      var res := store.SetGpioModeDb(idx, "input", now);
      if res.Err? {
        ErrorPersists(InputPhase, gpiosModeInput, i + 1, w, now, hw);
        return res;
      }
      i := i + 1;
    }
    assert gpiosModeInput[..i] == gpiosModeInput;
    return Ok(());
  }

  /** The `level low` loop: the hardware write, then the store write. */
  method SetPinsLow(gpiosLevelLow: seq<Int32>, store: StateStore, gpio: Rpi.GpioController, now: Timestamp, hw: PinHardware)
    returns (r: Result<()>)
    requires store.Valid()
    modifies store`gpioState, gpio
    ensures store.Valid()
    ensures Outcome(r, World(store.gpioState, gpio.counter))
            == ApplyPhase(LowPhase, gpiosLevelLow, World(old(store.gpioState), old(gpio.counter)), now, hw)
  {
    ghost var w := World(store.gpioState, gpio.counter);
    var i := 0;
    while i < |gpiosLevelLow|
      invariant 0 <= i <= |gpiosLevelLow|
      invariant store.Valid()
      invariant ApplyPhase(LowPhase, gpiosLevelLow[..i], w, now, hw) == Outcome(Ok(()), World(store.gpioState, gpio.counter))
    {
      var idx := gpiosLevelLow[i];
      PhaseStep(LowPhase, gpiosLevelLow, i, w, now, hw);
      var written := gpio.SetGpioLevelRpi(idx, "low");
      if written.Err? {
        ErrorPersists(LowPhase, gpiosLevelLow, i + 1, w, now, hw);
        return written;
      }
      var res := store.SetGpioLevelDb(idx, "low", now);
      if res.Err? {
        ErrorPersists(LowPhase, gpiosLevelLow, i + 1, w, now, hw);
        return res;
      }
      i := i + 1;
    }
    assert gpiosLevelLow[..i] == gpiosLevelLow;
    return Ok(());
  }

  /** The `level high` loop: the hardware write, then the store write. */
  method SetPinsHigh(gpiosLevelHigh: seq<Int32>, store: StateStore, gpio: Rpi.GpioController, now: Timestamp, hw: PinHardware)
    returns (r: Result<()>)
    requires store.Valid()
    modifies store`gpioState, gpio
    ensures store.Valid()
    ensures Outcome(r, World(store.gpioState, gpio.counter))
            == ApplyPhase(HighPhase, gpiosLevelHigh, World(old(store.gpioState), old(gpio.counter)), now, hw)
  {
    ghost var w := World(store.gpioState, gpio.counter);
    var i := 0;
    while i < |gpiosLevelHigh|
      invariant 0 <= i <= |gpiosLevelHigh|
      invariant store.Valid()
      invariant ApplyPhase(HighPhase, gpiosLevelHigh[..i], w, now, hw) == Outcome(Ok(()), World(store.gpioState, gpio.counter))
    {
      var idx := gpiosLevelHigh[i];
      PhaseStep(HighPhase, gpiosLevelHigh, i, w, now, hw);
      var written := gpio.SetGpioLevelRpi(idx, "high");
      if written.Err? {
        ErrorPersists(HighPhase, gpiosLevelHigh, i + 1, w, now, hw);
        return written;
      }
      var res := store.SetGpioLevelDb(idx, "high", now);
      if res.Err? {
        ErrorPersists(HighPhase, gpiosLevelHigh, i + 1, w, now, hw);
        return res;
      }
      i := i + 1;
    }
    assert gpiosLevelHigh[..i] == gpiosLevelHigh;
    return Ok(());
  }

  /** Applies the configuration: the five loops in order, returning the first failure. */
  method SetupRpiAndDb(config: GpioConfig, store: StateStore, gpio: Rpi.GpioController, now: Timestamp, hw: PinHardware)
    returns (r: Result<()>)
    requires store.Valid()
    modifies store`gpioState, gpio
    ensures store.Valid()
    ensures Outcome(r, World(store.gpioState, gpio.counter))
            == SetupSpec(config, World(old(store.gpioState), old(gpio.counter)), now, hw)
  {
    r := SetPinsInUse(ListOf(config, 0), store, gpio, now, hw);
    if r.Err? {
      return;
    }
    r := SetPinsOutput(ListOf(config, 1), store, gpio, now, hw);
    if r.Err? {
      return;
    }
    r := SetPinsInput(ListOf(config, 2), store, gpio, now, hw);
    if r.Err? {
      return;
    }
    r := SetPinsLow(ListOf(config, 3), store, gpio, now, hw);
    if r.Err? {
      return;
    }
    r := SetPinsHigh(ListOf(config, 4), store, gpio, now, hw);
  }

  /** The row a pin of `phase` ends with when its calls succeed. */
  function PinEffect(phase: Phase, rec: GpioRecord, now: Timestamp): GpioRecord {
    match phase
    case InUsePhase => rec.(inUse := 1, lastChange := Some(now))
    case OutputPhase => rec.(gpioMode := Some("output"), lastChange := Some(now))
    case InputPhase => rec.(gpioMode := Some("input"), lastChange := Some(now))
    case LowPhase => rec.(gpioLevel := Some("low"), lastChange := Some(now))
    case HighPhase => rec.(gpioLevel := Some("high"), lastChange := Some(now))
  }

  /** The table after `phase` has been applied to every listed pin. */
  function PhaseTable(phase: Phase, t: Table, ids: seq<Int32>, now: Timestamp): Table {
    map k | k in t :: if k in ids then PinEffect(phase, t[k], now) else t[k]
  }

  /**
   * The calls for pin `id` in `phase` all succeed: the row exists, an output
   * pin can be prepared on the hardware, and a level pin fits in a u8.
   */
  ghost predicate PinSucceeds(phase: Phase, id: Int32, t: Table, hw: PinHardware) {
    && id in t
    && (phase.OutputPhase? ==> hw.resetOutputPin(id).Ok? && hw.keepOnDrop(id).Ok?)
    && (phase.WritesLevel() ==> 0 <= id <= 255)
  }

  /** One pin: succeeds exactly when PinSucceeds; touches at most its own row; counts one write per level pin. */
  lemma StepPinEffect(phase: Phase, id: Int32, w: World, now: Timestamp, hw: PinHardware)
    ensures var o := StepPin(phase, id, w, now, hw);
            && o.world.table.Keys == w.table.Keys
            && (o.result.Ok? <==> PinSucceeds(phase, id, w.table, hw))
            && (o.result.Ok? ==> o.world == World(w.table[id := PinEffect(phase, w.table[id], now)],
                                                  w.counter + (if phase.WritesLevel() then 1 else 0)))
            && (forall k :: k in w.table && k != id ==> o.world.table[k] == w.table[k])
            && (id in w.table ==> o.world.table[id] in {w.table[id], PinEffect(phase, w.table[id], now)})
  {
  }

  /** A phase succeeds exactly when the calls for every listed pin succeed. */
  lemma {:induction false} ApplyPhaseOkIff(phase: Phase, ids: seq<Int32>, w: World, now: Timestamp, hw: PinHardware)
    ensures ApplyPhase(phase, ids, w, now, hw).result.Ok?
            <==> forall id :: id in ids ==> PinSucceeds(phase, id, w.table, hw)
    decreases |ids|
  {
    if ids != [] {
      var prefix := ids[..|ids| - 1];
      var last := ids[|ids| - 1];
      assert ids == prefix + [last];
      ApplyPhaseOkIff(phase, prefix, w, now, hw);
      ApplyPhaseFrame(phase, prefix, w, now, hw);
      var before := ApplyPhase(phase, prefix, w, now, hw);
      StepPinEffect(phase, last, before.world, now, hw);
      assert PinSucceeds(phase, last, before.world.table, hw) <==> PinSucceeds(phase, last, w.table, hw);
    }
  }

  /** A successful pin call leaves its row with the phase's effect and bumps the counter for a level write. */
  lemma StepPinOk(phase: Phase, id: Int32, w: World, now: Timestamp, hw: PinHardware)
    requires StepPin(phase, id, w, now, hw).result.Ok?
    ensures id in w.table
    ensures StepPin(phase, id, w, now, hw).world
            == World(w.table[id := PinEffect(phase, w.table[id], now)], w.counter + (if phase.WritesLevel() then 1 else 0))
  {
  }

  /** Applying a phase's effect to one more pin: the effect is idempotent, so repeats in the list do not matter. */
  lemma PhaseTableSnoc(phase: Phase, t: Table, prefix: seq<Int32>, last: Int32, now: Timestamp)
    requires last in t
    ensures PhaseTable(phase, t, prefix + [last], now)
            == (var before := PhaseTable(phase, t, prefix, now); before[last := PinEffect(phase, before[last], now)])
  {
  }

  /**
   * On success every listed row carries the phase's effect, every other row
   * is unchanged, and a level phase has made one hardware write per list
   * entry.
   */
  lemma {:induction false} ApplyPhaseOk(phase: Phase, ids: seq<Int32>, w: World, now: Timestamp, hw: PinHardware)
    requires ApplyPhase(phase, ids, w, now, hw).result.Ok?
    ensures ApplyPhase(phase, ids, w, now, hw).world
            == World(PhaseTable(phase, w.table, ids, now), w.counter + (if phase.WritesLevel() then |ids| else 0))
    decreases |ids|
  {
    if ids == [] {
      assert PhaseTable(phase, w.table, ids, now) == w.table;
    } else {
      var prefix := ids[..|ids| - 1];
      var last := ids[|ids| - 1];
      assert ids == prefix + [last];
      var before := ApplyPhase(phase, prefix, w, now, hw);
      ApplyPhaseOk(phase, prefix, w, now, hw);
      StepPinOk(phase, last, before.world, now, hw);
      PhaseTableSnoc(phase, w.table, prefix, last, now);
    }
  }

  /**
   * Whatever the outcome of a phase, every row is either unchanged or carries
   * the phase's effect, and rows of unlisted pins are unchanged.
   */
  lemma {:induction false} ApplyPhaseFrame(phase: Phase, ids: seq<Int32>, w: World, now: Timestamp, hw: PinHardware)
    ensures var t := ApplyPhase(phase, ids, w, now, hw).world.table;
            && t.Keys == w.table.Keys
            && (forall k :: k in w.table ==> t[k] in {w.table[k], PinEffect(phase, w.table[k], now)})
            && (forall k :: k in w.table && k !in ids ==> t[k] == w.table[k])
    decreases |ids|
  {
    if ids != [] {
      var prefix := ids[..|ids| - 1];
      var last := ids[|ids| - 1];
      assert ids == prefix + [last];
      ApplyPhaseFrame(phase, prefix, w, now, hw);
      var before := ApplyPhase(phase, prefix, w, now, hw);
      StepPinEffect(phase, last, before.world, now, hw);
    }
  }

  /** Whether a pin's calls succeed depends on the table only through its set of pins. */
  lemma PinSucceedsKeys(phase: Phase, id: Int32, t1: Table, t2: Table, hw: PinHardware)
    requires t1.Keys == t2.Keys
    ensures PinSucceeds(phase, id, t1, hw) <==> PinSucceeds(phase, id, t2, hw)
  {
  }

  /** The loops from `k` on succeed exactly when the calls for every pin they list succeed. */
  lemma {:induction false} SetupFromOkIff(config: GpioConfig, k: nat, w: World, now: Timestamp, hw: PinHardware)
    ensures SetupFrom(config, k, w, now, hw).result.Ok?
            <==> forall j, id :: k <= j < 5 && id in ListOf(config, j) ==> PinSucceeds(PhaseOf(j), id, w.table, hw)
    decreases 5 - k
  {
    if k < 5 {
      var o := ApplyPhase(PhaseOf(k), ListOf(config, k), w, now, hw);
      ApplyPhaseOkIff(PhaseOf(k), ListOf(config, k), w, now, hw);
      ApplyPhaseFrame(PhaseOf(k), ListOf(config, k), w, now, hw);
      SetupFromOkIff(config, k + 1, o.world, now, hw);
      forall j, id | k + 1 <= j < 5
        ensures PinSucceeds(PhaseOf(j), id, o.world.table, hw) <==> PinSucceeds(PhaseOf(j), id, w.table, hw)
      {
        PinSucceedsKeys(PhaseOf(j), id, o.world.table, w.table, hw);
      }
    }
  }

  /**
   * Setup succeeds exactly when every listed pin exists in the table, every
   * output pin can be prepared on the hardware and every level pin fits in a
   * u8.
   */
  lemma SetupOkIff(config: GpioConfig, w: World, now: Timestamp, hw: PinHardware)
    ensures SetupSpec(config, w, now, hw).result.Ok?
            <==> forall j, id :: 0 <= j < 5 && id in ListOf(config, j) ==> PinSucceeds(PhaseOf(j), id, w.table, hw)
  {
    SetupFromOkIff(config, 0, w, now, hw);
  }

  /** A configuration without any list changes nothing and succeeds. */
  lemma SetupAllAbsent(config: GpioConfig, w: World, now: Timestamp, hw: PinHardware)
    requires config == GpioConfig(None, None, None, None, None)
    ensures SetupSpec(config, w, now, hw) == Outcome(Ok(()), w)
  {
  }

  /** The pin table after all five phases have been applied to every listed pin. */
  function SetupTable(config: GpioConfig, t: Table, now: Timestamp): Table {
    var t1 := PhaseTable(InUsePhase, t, ListOf(config, 0), now);
    var t2 := PhaseTable(OutputPhase, t1, ListOf(config, 1), now);
    var t3 := PhaseTable(InputPhase, t2, ListOf(config, 2), now);
    var t4 := PhaseTable(LowPhase, t3, ListOf(config, 3), now);
    PhaseTable(HighPhase, t4, ListOf(config, 4), now)
  }

  /** A pin is named by some list of the configuration. */
  predicate Listed(config: GpioConfig, id: Int32) {
    id in ListOf(config, 0) || id in ListOf(config, 1) || id in ListOf(config, 2)
    || id in ListOf(config, 3) || id in ListOf(config, 4)
  }

  /**
   * Row by row, the table after setup: in use if listed as such, the mode of
   * the last mode list naming it (input is applied after output), the level
   * of the last level list naming it (high is applied after low), a fresh
   * timestamp if any list names it, and otherwise the row as it was.
   */
  lemma SetupTableRow(config: GpioConfig, t: Table, now: Timestamp, id: Int32)
    requires id in t
    ensures SetupTable(config, t, now).Keys == t.Keys
    ensures SetupTable(config, t, now)[id]
            == GpioRecord(
                 t[id].gpioId,
                 if id in ListOf(config, 0) then 1 else t[id].inUse,
                 if id in ListOf(config, 2) then Some("input")
                 else if id in ListOf(config, 1) then Some("output")
                 else t[id].gpioMode,
                 if id in ListOf(config, 4) then Some("high")
                 else if id in ListOf(config, 3) then Some("low")
                 else t[id].gpioLevel,
                 if Listed(config, id) then Some(now) else t[id].lastChange)
  {
  }

  /** One loop of setup, then the ones after it. */
  lemma SetupFromStep(config: GpioConfig, k: nat, w: World, now: Timestamp, hw: PinHardware)
    requires k < 5
    ensures SetupFrom(config, k, w, now, hw)
            == (var o := ApplyPhase(PhaseOf(k), ListOf(config, k), w, now, hw);
                if o.result.Err? then o else SetupFrom(config, k + 1, o.world, now, hw))
  {
  }

  /** A successful setup leaves exactly SetupTable behind and has made one hardware write per level entry. */
  lemma SetupOk(config: GpioConfig, w: World, now: Timestamp, hw: PinHardware)
    requires SetupSpec(config, w, now, hw).result.Ok?
    ensures SetupSpec(config, w, now, hw).world
            == World(SetupTable(config, w.table, now), w.counter + |ListOf(config, 3)| + |ListOf(config, 4)|)
  {
    SetupFromStep(config, 0, w, now, hw);
    var o0 := ApplyPhase(InUsePhase, ListOf(config, 0), w, now, hw);
    ApplyPhaseOk(InUsePhase, ListOf(config, 0), w, now, hw);
    SetupFromStep(config, 1, o0.world, now, hw);
    var o1 := ApplyPhase(OutputPhase, ListOf(config, 1), o0.world, now, hw);
    ApplyPhaseOk(OutputPhase, ListOf(config, 1), o0.world, now, hw);
    SetupFromStep(config, 2, o1.world, now, hw);
    var o2 := ApplyPhase(InputPhase, ListOf(config, 2), o1.world, now, hw);
    ApplyPhaseOk(InputPhase, ListOf(config, 2), o1.world, now, hw);
    SetupFromStep(config, 3, o2.world, now, hw);
    var o3 := ApplyPhase(LowPhase, ListOf(config, 3), o2.world, now, hw);
    ApplyPhaseOk(LowPhase, ListOf(config, 3), o2.world, now, hw);
    SetupFromStep(config, 4, o3.world, now, hw);
    var o4 := ApplyPhase(HighPhase, ListOf(config, 4), o3.world, now, hw);
    ApplyPhaseOk(HighPhase, ListOf(config, 4), o3.world, now, hw);
  }

  /**
   * Whatever the outcome of the loops from `k` on: no row is added or
   * removed, and a row none of them lists is unchanged.
   */
  lemma {:induction false} SetupFromFrame(config: GpioConfig, k: nat, w: World, now: Timestamp, hw: PinHardware)
    ensures var t := SetupFrom(config, k, w, now, hw).world.table;
            && t.Keys == w.table.Keys
            && (forall id :: id in w.table && (forall j :: k <= j < 5 ==> id !in ListOf(config, j)) ==> t[id] == w.table[id])
    decreases 5 - k
  {
    if k < 5 {
      var o := ApplyPhase(PhaseOf(k), ListOf(config, k), w, now, hw);
      ApplyPhaseFrame(PhaseOf(k), ListOf(config, k), w, now, hw);
      SetupFromFrame(config, k + 1, o.world, now, hw);
    }
  }

  /** Whatever their outcome, the loops after the `in_use` loop change no `in_use` flag. */
  lemma {:induction false} SetupFromKeepsInUse(config: GpioConfig, k: nat, w: World, now: Timestamp, hw: PinHardware)
    requires 1 <= k
    ensures var t := SetupFrom(config, k, w, now, hw).world.table;
            && t.Keys == w.table.Keys
            && forall id :: id in w.table ==> t[id].inUse == w.table[id].inUse
    decreases 5 - k
  {
    if k < 5 {
      var o := ApplyPhase(PhaseOf(k), ListOf(config, k), w, now, hw);
      ApplyPhaseFrame(PhaseOf(k), ListOf(config, k), w, now, hw);
      SetupFromKeepsInUse(config, k + 1, o.world, now, hw);
    }
  }

  /** Whatever the outcome of setup, no row appears or disappears and rows of unlisted pins are unchanged. */
  lemma SetupKeepsUnlisted(config: GpioConfig, w: World, now: Timestamp, hw: PinHardware)
    ensures var t := SetupSpec(config, w, now, hw).world.table;
            && t.Keys == w.table.Keys
            && forall id :: id in w.table && !Listed(config, id) ==> t[id] == w.table[id]
  {
    SetupFromFrame(config, 0, w, now, hw);
    forall id, j | !Listed(config, id) && 0 <= j < 5
      ensures id !in ListOf(config, j)
    {
      assert j == 0 || j == 1 || j == 2 || j == 3 || j == 4;
    }
  }

  /**
   * Setup is not transactional: when it fails after the `in_use` loop has
   * completed, every pin of that loop stays marked in use.
   */
  lemma SetupNoRollback(config: GpioConfig, w: World, now: Timestamp, hw: PinHardware)
    requires ApplyPhase(InUsePhase, ListOf(config, 0), w, now, hw).result.Ok?
    ensures var t := SetupSpec(config, w, now, hw).world.table;
            forall id :: id in ListOf(config, 0) ==> id in t && t[id].inUse == 1
  {
    SetupFromStep(config, 0, w, now, hw);
    var o0 := ApplyPhase(InUsePhase, ListOf(config, 0), w, now, hw);
    ApplyPhaseOk(InUsePhase, ListOf(config, 0), w, now, hw);
    ApplyPhaseOkIff(InUsePhase, ListOf(config, 0), w, now, hw);
    SetupFromKeepsInUse(config, 1, o0.world, now, hw);
  }

  /**
   * A level pin is written on the hardware before the store: a refused
   * hardware write leaves the store and the counter untouched and reports the
   * hardware error; an accepted one counts even when the store then finds no
   * row for the pin.
   */
  lemma HardwareBeforeStore(id: Int32, level: string, w: World, now: Timestamp)
    ensures Rpi.LevelWriteOutcome(id, level).Err?
            ==> LevelStep(id, level, w, now) == Outcome(Rpi.LevelWriteOutcome(id, level), w)
    ensures Rpi.LevelWriteOutcome(id, level).Ok? && id !in w.table
            ==> LevelStep(id, level, w, now) == Outcome(Err(RowsAffected(id, 0)), World(w.table, w.counter + 1))
  {
  }

  /**
   * After a configuration the validator accepts has been applied
   * successfully, every pin given a level is an in-use output carrying that
   * level.
   */
  lemma ValidatedSetupLevelPins(config: GpioConfig, w: World, now: Timestamp, hw: PinHardware, id: Int32)
    requires ValidateSpec(config).Ok?
    requires SetupSpec(config, w, now, hw).result.Ok?
    requires id in ListOf(config, 3) || id in ListOf(config, 4)
    ensures var t := SetupSpec(config, w, now, hw).world.table;
            && id in t
            && t[id].inUse == 1
            && t[id].gpioMode == Some("output")
            && t[id].gpioLevel == Some(if id in ListOf(config, 4) then "high" else "low")
  {
    ValidateSpecOkIff(config);
    SetupOkIff(config, w, now, hw);
    assert PinSucceeds(PhaseOf(3), id, w.table, hw) || PinSucceeds(PhaseOf(4), id, w.table, hw);
    SetupOk(config, w, now, hw);
    SetupTableRow(config, w.table, now, id);
    assert id in VecOptionToVec(config.gpiosLevelLow) + VecOptionToVec(config.gpiosLevelHigh);
    assert id !in ListOf(config, 2);
  }

  /**
   * So, with the seeded legal tokens, the level-write check chain accepts
   * "high" and "low" for every level pin of a validated, applied configuration.
   */
  lemma ValidatedSetupAcceptsLevelWrites(config: GpioConfig, w: World, now: Timestamp, hw: PinHardware, id: Int32)
    requires ValidateSpec(config).Ok?
    requires SetupSpec(config, w, now, hw).result.Ok?
    requires id in ListOf(config, 3) || id in ListOf(config, 4)
    ensures var t := SetupSpec(config, w, now, hw).world.table;
            && Handlers.CheckGpioLevel(t, SeededAllowedStates, id, "high").Ok?
            && Handlers.CheckGpioLevel(t, SeededAllowedStates, id, "low").Ok?
  {
    ValidatedSetupLevelPins(config, w, now, hw, id);
    Handlers.SeededLevelTokens(SetupSpec(config, w, now, hw).world.table, id);
  }
}
