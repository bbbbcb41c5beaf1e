/**
 * The startup configuration validator: five optional lists of pin ids are
 * checked for consistency before anything is applied to the hardware or the
 * state store. Checks run in a fixed order and the first violation is the
 * one reported.
 */
module Validation {
  import opened Types

  /** The `[gpioconfig]` section: five optional lists of pin ids. */
  datatype GpioConfig = GpioConfig(
    gpiosInUse: Option<seq<Int32>>,
    gpiosModeOutput: Option<seq<Int32>>,
    gpiosModeInput: Option<seq<Int32>>,
    gpiosLevelLow: Option<seq<Int32>>,
    gpiosLevelHigh: Option<seq<Int32>>)

  /** The list inside an option, or the empty list for an absent one. */
  function VecOptionToVec(option: Option<seq<Int32>>): (v: seq<Int32>)
    ensures option.None? ==> v == []
    ensures option.Some? ==> v == option.value
  {
    match option
    case Some(vec) => vec
    case None => []
  }

  /** The elements of `u` that also occur in `v`, in `u`'s order, repeats kept. */
  function InBoth(u: seq<Int32>, v: seq<Int32>): seq<Int32>
  {
    if u == [] then []
    else InBoth(u[..|u| - 1], v) + (if u[|u| - 1] in v then [u[|u| - 1]] else [])
  }

  lemma {:induction false} InBothMembers(u: seq<Int32>, v: seq<Int32>)
    ensures forall x :: x in InBoth(u, v) <==> x in u && x in v
  {
    if u != [] {
      InBothMembers(u[..|u| - 1], v);
      assert u == u[..|u| - 1] + [u[|u| - 1]];
    }
  }

  /** `InBoth(u, v)` is empty exactly when no element of `u` occurs in `v`. */
  lemma InBothEmptyIff(u: seq<Int32>, v: seq<Int32>)
    ensures InBoth(u, v) == [] <==> forall x :: x in u ==> x !in v
  {
  }

  /** Some(the common elements) when there are any, None otherwise. */
  method ElementsInBothVecs(u: seq<Int32>, v: seq<Int32>) returns (r: Option<seq<Int32>>)
    ensures r.None? <==> forall x :: x in u ==> x !in v
    ensures r.None? ==> InBoth(u, v) == []
    ensures r.Some? ==> r.value == InBoth(u, v) && r.value != []
  {
    var res: seq<Int32> := [];
    var i := 0;
    while i < |u|
      invariant 0 <= i <= |u|
      invariant res == InBoth(u[..i], v)
    {
      assert u[..i + 1][..i] == u[..i];
      if u[i] in v {
        res := res + [u[i]];
      }
      i := i + 1;
    }
    assert u[..|u|] == u;
    InBothEmptyIff(u, v);
    if res != [] {
      r := Some(res);
    } else {
      r := None;
    }
  }

  /**
   * The first pin of `levels`, in order, that is missing from `inUse` or from
   * `output`; for one pin the `inUse` test comes first.
   */
  function LevelViolation(levels: seq<Int32>, inUse: seq<Int32>, output: seq<Int32>): Option<Error>
  {
    if levels == [] then None
    else if levels[0] !in inUse then Some(LevelPinNotInUse(levels[0]))
    else if levels[0] !in output then Some(LevelPinNotOutput(levels[0]))
    else LevelViolation(levels[1..], inUse, output)
  }

  lemma {:induction false} LevelViolationNoneIff(levels: seq<Int32>, inUse: seq<Int32>, output: seq<Int32>)
    ensures LevelViolation(levels, inUse, output).None?
            <==> forall p :: p in levels ==> p in inUse && p in output
  {
    if levels != [] {
      LevelViolationNoneIff(levels[1..], inUse, output);
      assert forall p :: p in levels <==> p == levels[0] || p in levels[1..];
    }
  }

  /** A reported violation names a pin of `levels` and, for NotOutput, one that is in use. */
  lemma {:induction false} LevelViolationShape(levels: seq<Int32>, inUse: seq<Int32>, output: seq<Int32>)
    ensures match LevelViolation(levels, inUse, output)
            case None => true
            case Some(e) =>
              || (e.LevelPinNotInUse? && e.gpio in levels && e.gpio !in inUse)
              || (e.LevelPinNotOutput? && e.gpio in levels && e.gpio in inUse && e.gpio !in output)
  {
    if levels != [] && levels[0] in inUse && levels[0] in output {
      LevelViolationShape(levels[1..], inUse, output);
    }
  }

  /**
   * Reference definition of the validator, check by check in the order the
   * source applies them.
   */
  function ValidateSpec(config: GpioConfig): Result<()>
  {
    var inUse := VecOptionToVec(config.gpiosInUse);
    var output := VecOptionToVec(config.gpiosModeOutput);
    var input := VecOptionToVec(config.gpiosModeInput);
    var low := VecOptionToVec(config.gpiosLevelLow);
    var high := VecOptionToVec(config.gpiosLevelHigh);
    var allLevels := low + high;
    if inUse == [] && allLevels != [] then Err(LevelsWithoutInUse)
    else if output == [] && allLevels != [] then Err(LevelsWithoutModeOutput)
    else if LevelViolation(allLevels, inUse, output).Some? then
      Err(LevelViolation(allLevels, inUse, output).value)
    else if InBoth(low, high) != [] then Err(BothLowAndHigh(InBoth(low, high)))
    else if InBoth(input, output) != [] then Err(BothInputAndOutput(InBoth(input, output)))
    else Ok(())
  }

  /** The four consistency rules, stated declaratively. */
  ghost predicate Consistent(config: GpioConfig) {
    var inUse := VecOptionToVec(config.gpiosInUse);
    var output := VecOptionToVec(config.gpiosModeOutput);
    var input := VecOptionToVec(config.gpiosModeInput);
    var low := VecOptionToVec(config.gpiosLevelLow);
    var high := VecOptionToVec(config.gpiosLevelHigh);
    && (forall p :: p in low + high ==> p in inUse)
    && (forall p :: p in low + high ==> p in output)
    && (forall p :: p in low ==> p !in high)
    && (forall p :: p in input ==> p !in output)
  }

  /** The validator accepts a configuration exactly when it is consistent. */
  lemma ValidateSpecOkIff(config: GpioConfig)
    ensures ValidateSpec(config).Ok? <==> Consistent(config)
  {
    var inUse := VecOptionToVec(config.gpiosInUse);
    var output := VecOptionToVec(config.gpiosModeOutput);
    var input := VecOptionToVec(config.gpiosModeInput);
    var low := VecOptionToVec(config.gpiosLevelLow);
    var high := VecOptionToVec(config.gpiosLevelHigh);
    var allLevels := low + high;
    LevelViolationNoneIff(allLevels, inUse, output);
    InBothEmptyIff(low, high);
    InBothEmptyIff(input, output);
    if allLevels != [] {
      assert allLevels[0] in allLevels;
    }
  }

  method ValidateSetup(config: GpioConfig) returns (r: Result<()>)
    ensures r == ValidateSpec(config)
    ensures r.Ok? <==> Consistent(config)
  {
    ValidateSpecOkIff(config);
    var gpiosInUse := VecOptionToVec(config.gpiosInUse);
    var gpiosModeOutput := VecOptionToVec(config.gpiosModeOutput);
    var gpiosModeInput := VecOptionToVec(config.gpiosModeInput);
    var gpiosLevelLow := VecOptionToVec(config.gpiosLevelLow);
    var gpiosLevelHigh := VecOptionToVec(config.gpiosLevelHigh);

    var gpioAllLevels: seq<Int32> := [];
    gpioAllLevels := gpioAllLevels + gpiosLevelLow;
    gpioAllLevels := gpioAllLevels + gpiosLevelHigh;
    assert gpioAllLevels == gpiosLevelLow + gpiosLevelHigh;

    if gpiosInUse == [] {
      if gpioAllLevels != [] {
        return Err(LevelsWithoutInUse);
      }
    }
    if gpiosModeOutput == [] {
      if gpioAllLevels != [] {
        return Err(LevelsWithoutModeOutput);
      }
    }

    var i := 0;
    while i < |gpioAllLevels|
      invariant 0 <= i <= |gpioAllLevels|
      invariant LevelViolation(gpioAllLevels, gpiosInUse, gpiosModeOutput)
                == LevelViolation(gpioAllLevels[i..], gpiosInUse, gpiosModeOutput)
    {
      var idx := gpioAllLevels[i];
      assert gpioAllLevels[i..][0] == idx;
      if idx !in gpiosInUse {
        return Err(LevelPinNotInUse(idx));
      }
      if idx !in gpiosModeOutput {
        return Err(LevelPinNotOutput(idx));
      }
      assert gpioAllLevels[i..][1..] == gpioAllLevels[i + 1..];
      i := i + 1;
    }

    assert gpioAllLevels[|gpioAllLevels|..] == [];
    var bothHighAndLow := ElementsInBothVecs(gpiosLevelLow, gpiosLevelHigh);
    if bothHighAndLow.Some? {
      return Err(BothLowAndHigh(bothHighAndLow.value));
    }

    var bothInputAndOutput := ElementsInBothVecs(gpiosModeInput, gpiosModeOutput);
    if bothInputAndOutput.Some? {
      return Err(BothInputAndOutput(bothInputAndOutput.value));
    }

    return Ok(());
  }

  /** A configuration with all five lists absent is accepted. */
  lemma AllAbsentIsValid()
    ensures ValidateSpec(GpioConfig(None, None, None, None, None)) == Ok(())
  {
  }

  /** Levels without any in-use pin, or without any output pin, are rejected up front. */
  lemma LevelsNeedInUseAndOutput(config: GpioConfig)
    requires VecOptionToVec(config.gpiosLevelLow) + VecOptionToVec(config.gpiosLevelHigh) != []
    ensures VecOptionToVec(config.gpiosInUse) == [] ==> ValidateSpec(config) == Err(LevelsWithoutInUse)
    ensures VecOptionToVec(config.gpiosInUse) != [] && VecOptionToVec(config.gpiosModeOutput) == []
            ==> ValidateSpec(config) == Err(LevelsWithoutModeOutput)
  {
  }

  /** A level pin missing from the in-use list or the output list makes validation fail. */
  lemma LevelPinMustBeInUseAndOutput(config: GpioConfig, p: Int32)
    requires p in VecOptionToVec(config.gpiosLevelLow) + VecOptionToVec(config.gpiosLevelHigh)
    requires p !in VecOptionToVec(config.gpiosInUse) || p !in VecOptionToVec(config.gpiosModeOutput)
    ensures ValidateSpec(config).Err?
  {
    ValidateSpecOkIff(config);
  }

  /**
   * Fixed precedence: an output complaint concerns a pin already known to be
   * in use; a low/high overlap is reported only when every level pin passed
   * both membership checks; an input/output overlap only when, in addition,
   * the level lists are disjoint.
   */
  lemma ErrorPrecedence(config: GpioConfig)
    ensures ValidateSpec(config).Err? && ValidateSpec(config).error.LevelPinNotOutput?
            ==> ValidateSpec(config).error.gpio in VecOptionToVec(config.gpiosInUse)
    ensures ValidateSpec(config).Err? && ValidateSpec(config).error.BothLowAndHigh?
            ==> forall p :: p in VecOptionToVec(config.gpiosLevelLow) + VecOptionToVec(config.gpiosLevelHigh)
                  ==> p in VecOptionToVec(config.gpiosInUse) && p in VecOptionToVec(config.gpiosModeOutput)
    ensures ValidateSpec(config).Err? && ValidateSpec(config).error.BothInputAndOutput?
            ==> && (forall p :: p in VecOptionToVec(config.gpiosLevelLow) + VecOptionToVec(config.gpiosLevelHigh)
                      ==> p in VecOptionToVec(config.gpiosInUse) && p in VecOptionToVec(config.gpiosModeOutput))
                && (forall p :: p in VecOptionToVec(config.gpiosLevelLow) ==> p !in VecOptionToVec(config.gpiosLevelHigh))
  {
    var inUse := VecOptionToVec(config.gpiosInUse);
    var output := VecOptionToVec(config.gpiosModeOutput);
    var low := VecOptionToVec(config.gpiosLevelLow);
    var high := VecOptionToVec(config.gpiosLevelHigh);
    LevelViolationNoneIff(low + high, inUse, output);
    LevelViolationShape(low + high, inUse, output);
    InBothEmptyIff(low, high);
  }

  /** A pin in both level lists is always rejected, whatever the other lists hold. */
  lemma LowHighOverlapAlwaysRejected(config: GpioConfig, p: Int32)
    requires p in VecOptionToVec(config.gpiosLevelLow) && p in VecOptionToVec(config.gpiosLevelHigh)
    ensures ValidateSpec(config).Err?
  {
    ValidateSpecOkIff(config);
  }

  /** The validator with the two empty-list guards removed. */
  function ValidateWithoutGuards(config: GpioConfig): Result<()>
  {
    var inUse := VecOptionToVec(config.gpiosInUse);
    var output := VecOptionToVec(config.gpiosModeOutput);
    var input := VecOptionToVec(config.gpiosModeInput);
    var low := VecOptionToVec(config.gpiosLevelLow);
    var high := VecOptionToVec(config.gpiosLevelHigh);
    if LevelViolation(low + high, inUse, output).Some? then
      Err(LevelViolation(low + high, inUse, output).value)
    else if InBoth(low, high) != [] then Err(BothLowAndHigh(InBoth(low, high)))
    else if InBoth(input, output) != [] then Err(BothInputAndOutput(InBoth(input, output)))
    else Ok(())
  }

  /**
   * The empty-list guards are subsumed by the per-pin loop: dropping them
   * changes at most the error reported, never whether validation passes.
   */
  lemma GuardsDoNotChangeVerdict(config: GpioConfig)
    ensures ValidateSpec(config).Ok? <==> ValidateWithoutGuards(config).Ok?
  {
  }

  /** The four configurations of the module's unit tests are rejected, each for its own reason. */
  lemma UnitTestConfigsRejected()
    ensures ValidateSpec(GpioConfig(None, Some([1]), None, Some([1]), None)) == Err(LevelsWithoutInUse)
    ensures ValidateSpec(GpioConfig(Some([2]), Some([2]), None, Some([1]), None)) == Err(LevelPinNotInUse(1))
    ensures ValidateSpec(GpioConfig(Some([1]), None, None, Some([1]), None)) == Err(LevelsWithoutModeOutput)
    ensures ValidateSpec(GpioConfig(Some([1]), Some([2]), None, Some([1]), None)) == Err(LevelPinNotOutput(1))
  {
  }
}
