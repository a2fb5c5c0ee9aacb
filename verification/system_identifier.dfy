/** The transfer-function record `MySystem` and the unfinished `parameter_calculation`
    of system_identifier.py. Coefficients are given in descending powers of s. */
module SystemIdentifier {
  import opened Results
  import opened Coefficients

  /** The message of the assertion that guards construction, spelled as in system_identifier.py. */
  const DenominatorMessage: string := "Denominator coefficients must be non-zero intergers"

  /** The exceptions the modelled code can raise. */
  datatype IdentifierError =
    | AssertionFailed(message: string)
      // `num_coeff.index[0]` raises (an AttributeError on an array, a TypeError on a list)
    | TimeConstantLookupFailed

  /** The dataclass `MySystem`; `order` stays `None` until `determine_order` sets it. */
  datatype MySystem = MySystem(numerator: seq<real>, denominator: seq<real>, order: Option<int>)

  /** The guard of `__post_init__`: sum, max and min of the denominator are all non-zero.
      The `and` short-circuits, so `max` and `min` are only reached on a non-empty
      denominator (an empty one sums to 0). */
  predicate DenominatorAccepted(den: seq<real>)
  {
    Sum(den) != 0.0 && Max(den) != 0.0 && Min(den) != 0.0
  }

  /** An independent reading of the guard: the sum is non-zero, and a zero coefficient is
      only tolerated when both a positive and a negative coefficient are present. */
  predicate NonZeroSumAndMixedAroundZero(den: seq<real>)
  {
    Sum(den) != 0.0 &&
    (0.0 in den ==> (exists i :: 0 <= i < |den| && den[i] > 0.0) && (exists j :: 0 <= j < |den| && den[j] < 0.0))
  }

  /** Constructing `MySystem(num, den, order)`: the dataclass stores its fields, then
      `__post_init__` asserts the denominator guard. */
  function NewSystem(num: seq<real>, den: seq<real>, order: Option<int>): (r: Result<MySystem, IdentifierError>)
    ensures r.Success? <==> NonZeroSumAndMixedAroundZero(den)
    ensures r.Success? ==> r.value.numerator == num && r.value.denominator == den && r.value.order == order
    ensures r.Failure? ==> r.error == AssertionFailed(DenominatorMessage)
    ensures |den| == 0 ==> r.Failure?
  {
    if DenominatorAccepted(den) then Success(MySystem(num, den, order))
    else Failure(AssertionFailed(DenominatorMessage))
  }

  /** The two readings of the construction guard agree on every denominator. */
  lemma GuardReading(den: seq<real>)
    ensures DenominatorAccepted(den) <==> NonZeroSumAndMixedAroundZero(den)
  {
  }

  /** `determine_order`: two coefficients give order 1, three give order 2, any other
      length only prints a message and leaves `order` as it was. */
  function DetermineOrder(s: MySystem): (r: MySystem)
    ensures r.numerator == s.numerator && r.denominator == s.denominator
    ensures 2 <= |s.denominator| <= 3 ==> r.order == Some(|s.denominator| - 1)
    ensures !(2 <= |s.denominator| <= 3) ==> r == s
  {
    if |s.denominator| == 2 then s.(order := Some(1))
    else if |s.denominator| == 3 then s.(order := Some(2))
    else s
  }

  /** `determine_order` may be run again without effect. */
  lemma DetermineOrderIdempotent(s: MySystem)
    ensures DetermineOrder(DetermineOrder(s)) == DetermineOrder(s)
  {
  }

  /** A freshly constructed system whose order was left at its default has
      order 1 or 2 after `determine_order` exactly when its denominator has 2 or 3
      coefficients, and `None` otherwise. */
  lemma ConstructThenClassify(num: seq<real>, den: seq<real>)
    requires NewSystem(num, den, None).Success?
    ensures var s := NewSystem(num, den, None).value;
      s.order == None &&
      (DetermineOrder(s).order == Some(1) <==> |den| == 2) &&
      (DetermineOrder(s).order == Some(2) <==> |den| == 3) &&
      (DetermineOrder(s).order == None <==> |den| != 2 && |den| != 3)
  {
  }

  /** An instance of `parameter_calculation`: the four inputs and the derived
      parameters, every one of which starts out as `None`. */
  datatype ParameterCalculation = ParameterCalculation(
    numerator: seq<real>, denominator: seq<real>, order: Option<int>, input: real,
    tau: Option<real>, peakTime: Option<real>, overshoot: Option<real>,
    settling1: Option<real>, settling2: Option<real>, settling3: Option<real>,
    steadyResponse: Option<real>, steadyError: Option<real>)

  /** No derived parameter has been computed. */
  predicate NothingDerived(p: ParameterCalculation)
  {
    p.tau.None? && p.peakTime.None? && p.overshoot.None? &&
    p.settling1.None? && p.settling2.None? && p.settling3.None? &&
    p.steadyResponse.None? && p.steadyError.None?
  }

  /** `parameter_calculation.__init__`: keeps the inputs and derives nothing yet. */
  function NewParameterCalculation(num: seq<real>, den: seq<real>, order: Option<int>, input: real): (p: ParameterCalculation)
    ensures p.numerator == num && p.denominator == den && p.order == order && p.input == input
    ensures NothingDerived(p)
  {
    ParameterCalculation(num, den, order, input, None, None, None, None, None, None, None, None)
  }

  /** `calculate`: for order 1 the time-constant line raises before `tau` is assigned;
      for any other order there is no branch, so nothing changes. */
  function Calculate(p: ParameterCalculation): (r: Result<ParameterCalculation, IdentifierError>)
    ensures r.Failure? <==> p.order == Some(1)
    ensures r.Failure? ==> r.error == TimeConstantLookupFailed
    ensures r.Success? ==> r.value == p
  {
    if p.order == Some(1) then Failure(TimeConstantLookupFailed) else Success(p)
  }

  /** Whatever its inputs, `calculate` never yields a time constant or any other
      derived parameter for a freshly built calculation. */
  lemma CalculateDerivesNothing(num: seq<real>, den: seq<real>, order: Option<int>, input: real)
    ensures var r := Calculate(NewParameterCalculation(num, den, order, input));
      r.Success? ==> NothingDerived(r.value)
  {
  }

  /** The whole pipeline (construct, classify, build the calculation with the
      classified order, calculate) raises exactly for an accepted first-order
      denominator, and otherwise leaves every derived parameter `None`. */
  lemma PipelineFailsExactlyOnFirstOrder(num: seq<real>, den: seq<real>, input: real)
    requires NewSystem(num, den, None).Success?
    ensures var s := DetermineOrder(NewSystem(num, den, None).value);
      var r := Calculate(NewParameterCalculation(num, den, s.order, input));
      (r.Failure? <==> |den| == 2) && (r.Success? ==> NothingDerived(r.value))
  {
  }

  /** The guard is not the per-coefficient check its message describes: a
      denominator containing a zero coefficient is accepted ... */
  lemma ZeroCoefficientAccepted()
    ensures NewSystem([1.0], [2.0, 0.0, -1.0], None).Success?
  {
    var den := [2.0, 0.0, -1.0];
    assert den[..2] == [2.0, 0.0] && den[..2][..1] == [2.0];
    assert Sum(den) == 1.0;
    assert den[0] > 0.0 && den[2] < 0.0;
  }

  /** ... and one whose coefficients are all non-zero can be rejected. */
  lemma NonZeroCoefficientsRejected()
    ensures NewSystem([1.0], [1.0, -1.0], None).Failure?
  {
  }

  /** Any non-empty denominator of strictly positive coefficients passes the guard. */
  lemma PositiveDenominatorAccepted(num: seq<real>, den: seq<real>, order: Option<int>)
    requires |den| > 0 && AllPositive(den)
    ensures NewSystem(num, den, order).Success?
  {
    SumOfPositives(den);
  }
}
