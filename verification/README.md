# Mass–spring–damper scripts: decision logic in Dafny

This project models the plain decision logic in a set of controls/vibrations course
scripts. It covers three parts. Everything is modelled over exact reals. The numeric
responses, plotting and symbolic algebra are left out.

1. **Transfer-function record and order classifier** (`system_identifier.py`).
   - Constructing `MySystem` asserts that the denominator's sum, maximum and minimum
     are all non-zero.
   - `determine_order` maps a denominator of 2 coefficients to order 1 and one of 3
     coefficients to order 2.
   - `parameter_calculation` stores its inputs and derives nothing. Its
     `calculate` raises on order 1 at the `num_coeff.index[0]` lookup.
2. **Damping-case declaration** (`system.declare_case` in `system_response.py` and
   `system_response.declare_case` in `vibrations_functions.py`).
   - A case name sets the damping coefficient C and the ratio Z = C / (2·√(K·M)).
   - In the over- and under-damped cases, a loop moves C one unit at a time past the
     critical value.
   - The `system_response.py` version also sets the damped frequency `wd`.
3. **Response dispatch and plot selection** (`system.calculate_response` and the
   case loop of `system.plot_response`).

Both files set the module globals K = M = 1. The critical coefficient 2·√(K·M) is
therefore the constant 2 and wn = √(K/M) is 1. `Damping.CriticalDamping` and
`Damping.NaturalFrequency` return these constants. Their contracts say that each one
is the positive square root it stands for, so no square root is modelled.

Modules:
- `Results`: `Option` models Python's `None`. `Result` models a call that returns or raises.
- `Coefficients`: Python's `sum`, `max` and `min` over a coefficient array.
- `SystemIdentifier`: `MySystem`, `determine_order`, `parameter_calculation`.
- `Damping`: the plant constants, the case names and the two adjust-past-critical
  loops. It also holds the fixed order in which `plot_response` visits the cases.
- `SystemResponse`: the `system` class of `system_response.py`.
- `Vibrations`: the `system_response` class of `vibrations_functions.py`.

Two behaviours a reader might expect are not in the code, and the model follows the code:
- An unsupported denominator length is not an error. `determine_order` only prints a
  message and leaves `order` unchanged.
- No time-constant, overshoot, settling-time or steady-state formula exists. The only
  such line is the order-1 time-constant line, and it raises, so it is modelled as an
  error outcome.

## Model

| member | source | states |
|---|---|---|
| Coefficients.Sum | system_identifier.py:16 | `sum` of an empty denominator is 0, so the guard's first conjunct rejects it |
| Coefficients.Max | system_identifier.py:16 | `max` is a coefficient of the array and bounds every coefficient from above |
| Coefficients.Min | system_identifier.py:16 | `min` is a coefficient of the array and bounds every coefficient from below |
| SystemIdentifier.NewSystem | system_identifier.py:9-16 | construction succeeds exactly when the guard `DenominatorAccepted` holds, that is when the sum is non-zero and a zero coefficient is accompanied by both a positive and a negative one; it then stores the fields unchanged; an empty denominator fails; every failure is the assertion with its message |
| SystemIdentifier.GuardReading | system_identifier.py:16 | `DenominatorAccepted` (sum, max and min all non-zero, short-circuiting on an empty denominator) is equivalent to "sum non-zero, and a zero coefficient only alongside coefficients of both signs" |
| SystemIdentifier.ZeroCoefficientAccepted | system_identifier.py:16 | the guard accepts [2, 0, −1], although it contains a zero coefficient |
| SystemIdentifier.NonZeroCoefficientsRejected | system_identifier.py:16 | the guard rejects [1, −1], although no coefficient is zero |
| SystemIdentifier.PositiveDenominatorAccepted | system_identifier.py:16 | every non-empty denominator of positive coefficients is accepted |
| SystemIdentifier.DetermineOrder | system_identifier.py:18-24 | 2 coefficients give order 1 and 3 give order 2; any other length leaves the record unchanged; the coefficients are never touched |
| SystemIdentifier.DetermineOrderIdempotent | system_identifier.py:18-24 | classifying twice is the same as classifying once |
| SystemIdentifier.ConstructThenClassify | system_identifier.py:13-24 | after default construction the order is `None`; classification then yields 1 iff the length is 2, 2 iff it is 3, and `None` otherwise |
| SystemIdentifier.NewParameterCalculation | system_identifier.py:36-48 | the four inputs are kept and every derived parameter is `None` |
| SystemIdentifier.Calculate | system_identifier.py:50-55 | raises exactly when the order is 1; otherwise returns the calculation unchanged |
| SystemIdentifier.CalculateDerivesNothing | system_identifier.py:36-55 | on a fresh calculation, `calculate` never produces a time constant or any other derived parameter |
| SystemIdentifier.PipelineFailsExactlyOnFirstOrder | system_identifier.py:9-55 | construct, classify, build the calculation and calculate: this raises iff the accepted denominator has 2 coefficients, and otherwise nothing is derived |
| Damping.CriticalDamping | system_response.py:76 | the critical coefficient is positive and its square is 4·K·M |
| Damping.NaturalFrequency | system_response.py:43 | wn is positive and its square is K/M |
| Damping.Parse | system_response.py:71-86 | a parsed name is exactly the name of the case returned; an unparsed name matches no case |
| Damping.RaisePastCritical | system_response.py:82-83 | the `C += 1` loop ends strictly above critical, after a whole number of unit steps; its last step started at or below critical; it runs no step iff it starts above critical |
| Damping.LowerBelowCritical | system_response.py:89-90 | the `C -= 1` loop ends strictly below critical, after a whole number of unit steps; its last step started at or above critical; it runs no step iff it starts below critical |
| Damping.Coefficient | system_response.py:71-92 | each case's coefficient is in its regime: 0 for Not Damped, exactly critical for Critically Damped, above critical for Over Damped, strictly between 0 and critical for Underdamped |
| Damping.RatioNamesItsCase | vibrations_functions.py:164-191 | the ratio C/(2·√(K·M)) each case settles on is classified as that case: 0, 1, above 1, or between 0 and 1 |
| Damping.FlaggedMembers | system_response.py:111-121 | `Flagged`, the `if plot_flag` filter over the `cases` dictionary, keeps a case iff it is in the case table and its flag is set |
| Damping.FlaggedKeepsOrder | system_response.py:111-121 | the plotted cases keep the table's order |
| Damping.LastFlaggedIsHighest | system_response.py:111-121 | the last case declared is flagged, and no flagged case comes after it in the table |
| SystemResponse.NewSystem | system_response.py:24-45 | the arguments are stored as given; wn is the positive root of K/M |
| SystemResponse.DeclareCase | system_response.py:66-92 | the name is always stored. For a recognised name: C is that case's coefficient; Z·2√(K·M) = C; Not Damped gives wd = wn·√1; Critically Damped gives wd = wn·√0; wd is `WdAsWritten`, which is wn·√(1 − Z²) for lines 74 and 78 and wn·√(Z² − 1) for lines 85 and 92; Over Damped gives C above critical, Z > 1 and a positive radicand; Underdamped gives C below critical, Z < 1 and an undefined wd. Each loop runs exactly once. An unrecognised name changes only `case` |
| SystemResponse.CalculateResponse | system_response.py:96-105 | selects a routine iff the case is a recognised name, and then exactly the routine `RoutineFor` assigns to that case, the dispatch table of lines 98-105 |
| SystemResponse.RoutinesDistinguishCases | system_response.py:96-105 | two different declared cases select two different routines |
| SystemResponse.PlotResponse | system_response.py:107-123 | one curve per flagged case, in table order, each from the routine of its own case; with no flag the state is unchanged; otherwise the final state is the last flagged case's declaration, and no flagged case comes after it |
| SystemResponse.UnderdampedWdIsNaN | system_response.py:86-92 | as written (`WdAsWritten`), the under-damped radicand is −0.75; among the recognised cases, only the under-damped one gets an undefined wd |
| SystemResponse.IntendedWdDefined | system_response.py:71-92 | with the corrected formula `WdIntended`, which puts √(1 − Z²) in the under-damped branch, every case's wd is defined (the under-damped one is wn·√0.75); the other cases are unchanged |
| Vibrations.NewOscillator | vibrations_functions.py:130-149 | the four arguments are stored unchanged |
| Vibrations.DefaultOscillator | vibrations_functions.py:130 | with no arguments, every field is `None` |
| Vibrations.DeclareCase | vibrations_functions.py:151-191 | the name is always stored. A recognised name sets C to its case's coefficient and Z to C/(2·√(K·M)): 0 and 0, 2 and 1, above critical and 1.5, below critical and 0.5. Each loop runs exactly once. An unrecognised name leaves C and Z unchanged |

## Findings

| source | as written | input that shows it | evidently intended | confidence | as-written member | corrected member |
|---|---|---|---|---|---|---|
| system_response.py:92 | the under-damped branch sets `wd = wn·√(Z² − 1)` | `declare_case('Underdamped')` gives Z = 0.5, a radicand of −0.75, and `wd` is NaN; `underdamped_response` then reads that NaN | `wd = wn·√(1 − Z²)`: the formula of lines 74 and 78, and of the under-damped response in quickcopy.py | high, not executed | SystemResponse.UnderdampedWdIsNaN | SystemResponse.IntendedWdDefined |

`SystemResponse.DeclareCase` keeps the formula as written, because it models the file.
`SystemResponse.WdIntended` is the corrected formula. Nothing else in the model reads
`wd`, because the response formulas that consume it are left out.

## Left out

- The closed-form time responses (system_response.py:48-63, quickcopy.py, program1.py) are left out. They are floating-point exp/cos/sin/cosh/sinh numerics. `calculate_response` is modelled only by the routine it selects.
- The sympy solving and the odeint simulation in vibrations_functions.py:1-112 are left out. They are calls into symbolic and ODE libraries.
- HW10_program.py is left out. It only calls library routines for residues, pole-zero maps and step responses.
- Plotting, figure display, LaTeX and every `print` are left out, including the message `determine_order` prints for an unsupported length. `plot_response` is modelled only by its case-selection loop.
- The `input_type` dataclass (system_identifier.py:29-32) is left out. Nothing in the modelled code uses it.
- `np.sqrt` is not modelled. 2·√(K·M) and √(K/M) are fixed constants, and `wd` is kept as a symbolic scale·√radicand that is undefined (NaN) for a negative radicand.
- Floating-point rounding is not modelled: coefficients and damping values are exact reals.
- SystemIdentifier.NewSystem: models the guard over exact, unbounded numbers, and always checks it. Three source behaviours differ. A denominator whose float sum rounds away from zero (for example [0.1, 0.2, −0.3]) is accepted by the source but rejected by the model. An integer denominator becomes an int64 array, whose `sum` wraps on overflow: `np.array([2**62] * 4)` sums to 0 and raises, but the model sums it to 2^64 and accepts it. Under `python -O` the bare `assert` is removed and every denominator is accepted.
- SystemIdentifier.DetermineOrder: models only the updated record. The method's return value is always `None`, whatever its annotation says.
- SystemIdentifier.Calculate: models both failures of the `.index[0]` lookup as one error. On an array it is an AttributeError; on a list it is a TypeError.
- Python's dynamic typing is not modelled. Case names are strings, and int and float values of C and Z are the same real; `order` is an optional integer.
