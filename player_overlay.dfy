/**
 * A player's life-point counter: add and subtract by a step, halve, the
 * digit-only step input and its blur normaliser, and the sync from the
 * `currentLP` prop.
 */
module PlayerOverlay {
  import opened Wrappers

  const INITIAL_LIFE_POINTS := 8000
  const INITIAL_STEP := "1000"

  predicate IsDigit(c: char)
  {
    '0' <= c <= '9'
  }

  /** `/^\d+$/.test(s)`. */
  predicate AllDigits(s: string)
  {
    |s| > 0 && forall i :: 0 <= i < |s| ==> IsDigit(s[i])
  }

  /** What the step input may hold: empty, or digits only. */
  predicate WellFormedStep(s: string)
  {
    s == "" || AllDigits(s)
  }

  function DigitValue(c: char): nat
    requires IsDigit(c)
  {
    c as int - '0' as int
  }

  /** The decimal value of a string of digits (leading zeros allowed). */
  function DecimalValue(s: string): nat
    requires forall i :: 0 <= i < |s| ==> IsDigit(s[i])
  {
    if s == [] then 0 else 10 * DecimalValue(s[..|s| - 1]) + DigitValue(s[|s| - 1])
  }

  /**
   * `parseInt(stepInput) || 0` on the inputs the field can hold: the + and
   * − buttons act iff the value is positive, that is iff the input holds a
   * non-zero digit (the empty input counts as 0).
   */
  function StepValue(s: string): (r: nat)
    requires WellFormedStep(s)
    ensures r > 0 <==> exists i :: 0 <= i < |s| && s[i] != '0'
  {
    if s == "" then 0 else DecimalPositive(s); DecimalValue(s)
  }

  /** A digit string is worth more than 0 iff some digit is not `0`. */
  lemma {:induction false} DecimalPositive(s: string)
    requires forall i :: 0 <= i < |s| ==> IsDigit(s[i])
    ensures DecimalValue(s) > 0 <==> exists i :: 0 <= i < |s| && s[i] != '0'
  {
    if s != [] {
      var init := s[..|s| - 1];
      DecimalPositive(init);
      if exists i :: 0 <= i < |init| && init[i] != '0' {
        var i :| 0 <= i < |init| && init[i] != '0';
        assert s[i] == init[i];
      }
      if exists i :: 0 <= i < |s| && s[i] != '0' {
        var i :| 0 <= i < |s| && s[i] != '0';
        if i < |init| {
          assert init[i] == s[i];
        }
      }
    }
  }

  /** A leading `0` does not change a decimal value. */
  lemma {:induction false} DecimalLeadingZero(s: string)
    requires forall i :: 0 <= i < |s| ==> IsDigit(s[i])
    ensures DecimalValue("0" + s) == DecimalValue(s)
  {
    if s != [] {
      var init := s[..|s| - 1];
      assert ("0" + s)[..|"0" + s| - 1] == "0" + init;
      DecimalLeadingZero(init);
    }
  }

  /**
   * After the blur has turned an empty input into `0`, typing digits after
   * it steps by what they spell: `"0" + s` is worth what `s` is worth.
   */
  lemma LeadingZeroIgnored(s: string)
    requires AllDigits(s)
    ensures WellFormedStep("0" + s) && StepValue("0" + s) == StepValue(s)
  {
    DecimalLeadingZero(s);
  }

  lemma InitialStep()
    ensures WellFormedStep(INITIAL_STEP) && StepValue(INITIAL_STEP) == 1000
  {
    assert INITIAL_STEP[..3] == "100" && "100"[..2] == "10" && "10"[..1] == "1" && "1"[..0] == "";
  }

  datatype Delta = Add | Subtract

  /** The new life points after + or − by `step`. */
  function ApplyStep(prev: int, step: int, d: Delta): (r: int)
    ensures d == Add ==> r == prev + step
    ensures d == Subtract ==> r >= 0 && r >= prev - step && (r == 0 || r == prev - step)
  {
    match d
    case Add => prev + step
    case Subtract => if 0 > prev - step then 0 else prev - step
  }

  /** `Math.ceil(prev / 2)` on whole numbers. */
  function CeilHalf(x: int): (r: int)
    ensures 2 * r - 1 <= x <= 2 * r
  {
    (x + 1) / 2
  }

  /** Halving never raises non-negative life points, and fixes exactly 0 and 1. */
  lemma HalveBounds(x: int)
    requires x >= 0
    ensures 0 <= CeilHalf(x) <= x
    ensures CeilHalf(x) == x <==> x == 0 || x == 1
  {
  }

  /** Local operations keep life points non-negative. */
  lemma NonNegativeKept(prev: int, step: nat, d: Delta)
    requires prev >= 0
    ensures ApplyStep(prev, step, d) >= 0 && CeilHalf(prev) >= 0
  {
  }

  class Overlay {
    /** Whether an `onLpChange` callback was passed. */
    const hasListener: bool
    var lifePoints: int
    var stepInput: string
    /** The values passed to `onLpChange`, in order. */
    var broadcasts: seq<int>

    ghost predicate Valid()
      reads this
    {
      WellFormedStep(stepInput)
    }

    constructor (hasListener: bool)
      ensures this.hasListener == hasListener
      ensures lifePoints == INITIAL_LIFE_POINTS && stepInput == INITIAL_STEP && broadcasts == []
      ensures Valid()
    {
      this.hasListener := hasListener;
      lifePoints, stepInput, broadcasts := INITIAL_LIFE_POINTS, INITIAL_STEP, [];
      InitialStep();
    }

    /** The effect on `currentLP`: a defined prop overwrites the local value. */
    method SyncCurrentLP(currentLP: Option<int>)
      modifies this`lifePoints
      ensures lifePoints == if currentLP.Some? then currentLP.value else old(lifePoints)
    {
      if currentLP.Some? {
        lifePoints := currentLP.value;
      }
    }

    /** `handleLpChange`: a step of 0 does nothing. */
    method HandleLpChange(d: Delta)
      requires Valid()
      modifies this`lifePoints, this`broadcasts
      ensures StepValue(stepInput) == 0 ==> lifePoints == old(lifePoints) && broadcasts == old(broadcasts)
      ensures StepValue(stepInput) > 0 ==>
        && lifePoints == ApplyStep(old(lifePoints), StepValue(stepInput), d)
        && broadcasts == old(broadcasts) + (if hasListener then [lifePoints] else [])
    {
      var stepValue := StepValue(stepInput);
      if stepValue <= 0 {
        return;
      }
      var newVal := ApplyStep(lifePoints, stepValue, d);
      if hasListener {
        broadcasts := broadcasts + [newVal];
      }
      lifePoints := newVal;
    }

    /** `handleHalveLP`. */
    method HandleHalveLP()
      modifies this`lifePoints, this`broadcasts
      ensures lifePoints == CeilHalf(old(lifePoints))
      ensures broadcasts == old(broadcasts) + (if hasListener then [lifePoints] else [])
    {
      var newVal := CeilHalf(lifePoints);
      if hasListener {
        broadcasts := broadcasts + [newVal];
      }
      lifePoints := newVal;
    }

    /** `handleStepChange`: accept only an empty or all-digit edit. */
    method HandleStepChange(val: string)
      requires Valid()
      modifies this`stepInput
      ensures Valid()
      ensures stepInput == if WellFormedStep(val) then val else old(stepInput)
    {
      if val == "" || AllDigits(val) {
        stepInput := val;
      }
    }

    /** `handleStepBlur`: an empty input becomes `'0'`. */
    method HandleStepBlur()
      requires Valid()
      modifies this`stepInput
      ensures Valid()
      ensures stepInput == if old(stepInput) == "" then "0" else old(stepInput)
    {
      if stepInput == "" {
        stepInput := "0";
      }
    }
  }
}
