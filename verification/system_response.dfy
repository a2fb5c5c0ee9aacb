/** The `system` class of system_response.py: case declaration, response dispatch and
    the case-selection loop of `plot_response`. The closed-form responses themselves
    are represented only by which routine is selected. */
module SystemResponse {
  import opened Results
  import opened Damping

  /** The damped frequency `wd`: unset, a value given to the constructor, or
      scale·√radicand as `declare_case` computes it. */
  datatype Frequency = Unset | Given(v: real) | Root(scale: real, radicand: real)
  {
    /** `np.sqrt` of a negative radicand: the value is NaN. */
    predicate Undefined()
    {
      Root? && radicand < 0.0
    }
  }

  /** An instance of `system`. `caseName` is `None` until a case is given. */
  datatype System = System(
    caseName: Option<string>, damping: Option<real>, ratio: Option<real>,
    wn: real, wd: Frequency, timeResponse: Option<seq<real>>)

  /** The response routines `calculate_response` can select. */
  datatype Routine = NotDampedResponse | CriticallyDampedResponse | OverdampedResponse | UnderdampedResponse

  /** The routine written for each case. */
  function RoutineFor(d: Case): Routine
  {
    match d
    case NotDamped => NotDampedResponse
    case CriticallyDamped => CriticallyDampedResponse
    case OverDamped => OverdampedResponse
    case Underdamped => UnderdampedResponse
  }

  /** `system.__init__`: stores its arguments and fixes `wn` at √(K/M). */
  function NewSystem(caseName: Option<string>, damping: Option<real>, ratio: Option<real>,
                     wd: Option<real>, timeResponse: Option<seq<real>>): (s: System)
    ensures s.caseName == caseName && s.damping == damping && s.ratio == ratio
    ensures s.timeResponse == timeResponse
    ensures wd.None? ==> s.wd == Unset
    ensures wd.Some? ==> s.wd == Given(wd.value)
    ensures s.wn > 0.0 && s.wn * s.wn == K / M
  {
    System(caseName, damping, ratio, NaturalFrequency(),
           match wd case None => Unset case Some(v) => Given(v), timeResponse)
  }

  /** `wd` as `declare_case` computes it: wn·√(1 − Z²) for the undamped and critical
      cases, wn·√(Z² − 1) for the over- and under-damped ones. */
  function WdAsWritten(d: Case, wn: real, z: real): Frequency
  {
    match d
    case NotDamped => Root(wn, 1.0 - z * z)
    case CriticallyDamped => Root(wn, 1.0 - z * z)
    case OverDamped => Root(wn, z * z - 1.0)
    case Underdamped => Root(wn, z * z - 1.0)
  }

  /** `wd` as the under-damped response needs it: wn·√(1 − Z²) for every case but the
      over-damped one, whose formulas take √(Z² − 1). */
  function WdIntended(d: Case, wn: real, z: real): Frequency
  {
    if d == OverDamped then Root(wn, z * z - 1.0) else Root(wn, 1.0 - z * z)
  }

  /** The state `declare_case(Name(d))` leaves behind, starting from `s`. */
  predicate DeclaredAs(r: System, s: System, d: Case)
  {
    var z := Coefficient(d) / CriticalDamping();
    r.caseName == Some(Name(d)) && r.damping == Some(Coefficient(d)) && r.ratio == Some(z) &&
    r.wd == WdAsWritten(d, s.wn, z) && r.wn == s.wn && r.timeResponse == s.timeResponse
  }

  /** `system.declare_case`. Always records the name; a recognised name also sets the
      damping coefficient C, the ratio Z = C / (2·√(K·M)) and `wd`. `steps` counts the
      iterations of the adjust-until-past-critical loop. */
  method DeclareCase(s: System, name: string) returns (r: System, steps: nat)
    ensures r.caseName == Some(name) && r.wn == s.wn && r.timeResponse == s.timeResponse
    ensures Parse(name).None? ==> r == s.(caseName := Some(name)) && steps == 0
    ensures Parse(name).Some? ==> DeclaredAs(r, s, Parse(name).value)
    ensures Parse(name).Some? ==> r.ratio.Some? && r.damping.Some? &&
                                  r.ratio.value * CriticalDamping() == r.damping.value
    ensures name == Name(NotDamped) ==> r.damping == Some(0.0) && r.ratio == Some(0.0) && r.wd == Root(s.wn, 1.0)
    ensures name == Name(CriticallyDamped) ==> r.damping == Some(CriticalDamping()) && r.ratio == Some(1.0) && r.wd == Root(s.wn, 0.0)
    ensures name == Name(OverDamped) ==> r.damping.value > CriticalDamping() && r.ratio.value > 1.0 && r.wd.radicand > 0.0
    ensures name == Name(Underdamped) ==> r.damping.value < CriticalDamping() && r.ratio.value < 1.0 && r.wd.Undefined()
    ensures steps == (if name == Name(OverDamped) || name == Name(Underdamped) then 1 else 0)
  {
    r, steps := s.(caseName := Some(name)), 0;
    if name == "Not Damped" {
      r := r.(damping := Some(0.0), ratio := Some(0.0), wd := Root(r.wn, 1.0 - 0.0 * 0.0));
    } else if name == "Critically Damped" {
      r := r.(damping := Some(CriticalDamping()), ratio := Some(1.0), wd := Root(r.wn, 1.0 - 1.0 * 1.0));
    } else if name == "Over Damped" {
      var c;
      c, steps := RaisePastCritical(CriticalDamping());
      var z := c / CriticalDamping();
      r := r.(damping := Some(c), ratio := Some(z), wd := Root(r.wn, z * z - 1.0));
    } else if name == "Underdamped" {
      var c;
      c, steps := LowerBelowCritical(CriticalDamping());
      var z := c / CriticalDamping();
      r := r.(damping := Some(c), ratio := Some(z), wd := Root(r.wn, z * z - 1.0));
    }
  }

  /** `system.calculate_response`: the routine named by the current case, or `None`
      (the method falls off its end) for any other case. */
  function CalculateResponse(s: System): (r: Option<Routine>)
    ensures r.Some? <==> s.caseName.Some? && Parse(s.caseName.value).Some?
    ensures r.Some? ==> r.value == RoutineFor(Parse(s.caseName.value).value)
  {
    if s.caseName == Some("Not Damped") then Some(NotDampedResponse)
    else if s.caseName == Some("Critically Damped") then Some(CriticallyDampedResponse)
    else if s.caseName == Some("Over Damped") then Some(OverdampedResponse)
    else if s.caseName == Some("Underdamped") then Some(UnderdampedResponse)
    else None
  }

  /** Distinct cases select distinct routines. */
  lemma RoutinesDistinguishCases(d: Case, e: Case)
    requires d != e
    ensures CalculateResponse(NewSystem(Some(Name(d)), None, None, None, None)) !=
            CalculateResponse(NewSystem(Some(Name(e)), None, None, None, None))
  {
  }

  /** One plotted curve: its legend entry and the routine that produced it. */
  datatype Curve = Curve(legend: string, routine: Option<Routine>)

  /** The case-selection loop of `plot_response`: walks the cases in dictionary order
      and, for each flagged one, declares it and computes its response. */
  method PlotResponse(s: System, f: Flags) returns (r: System, curves: seq<Curve>)
    ensures var sel := Flagged(CaseOrder, f);
      |curves| == |sel| &&
      forall k :: 0 <= k < |curves| ==> curves[k] == Curve(Name(sel[k]), Some(RoutineFor(sel[k])))
    ensures var sel := Flagged(CaseOrder, f); |sel| == 0 ==> r == s
    ensures var sel := Flagged(CaseOrder, f); |sel| > 0 ==>
      DeclaredAs(r, s, sel[|sel| - 1]) && f.Selects(sel[|sel| - 1]) &&
      forall d :: f.Selects(d) ==> Rank(d) <= Rank(sel[|sel| - 1])
  {
    r, curves := s, [];
    var i := 0;
    while i < |CaseOrder|
      invariant 0 <= i <= |CaseOrder|
      invariant var sel := Flagged(CaseOrder[..i], f);
        |curves| == |sel| &&
        (forall k :: 0 <= k < |curves| ==> curves[k] == Curve(Name(sel[k]), Some(RoutineFor(sel[k])))) &&
        (|sel| == 0 ==> r == s) &&
        (|sel| > 0 ==> DeclaredAs(r, s, sel[|sel| - 1]))
    {
      var d := CaseOrder[i];
      assert CaseOrder[..i + 1][..i] == CaseOrder[..i];
      if f.Selects(d) {
        var r', steps := DeclareCase(r, Name(d));
        ParseName(d);
        r := r';
        var routine := CalculateResponse(r);
        curves := curves + [Curve(Name(d), routine)];
      }
      i := i + 1;
    }
    assert CaseOrder[..|CaseOrder|] == CaseOrder;
    if |Flagged(CaseOrder, f)| > 0 {
      LastFlaggedIsHighest(f);
    }
  }

  /** As written, the under-damped `wd` takes the root of a negative number: with
      Z = 0.5 the radicand is −0.75, so `wd` is NaN. Among the recognised cases this
      happens for the under-damped one only. */
  lemma UnderdampedWdIsNaN(d: Case, wn: real)
    ensures WdAsWritten(Underdamped, wn, Coefficient(Underdamped) / CriticalDamping()) == Root(wn, -0.75)
    ensures WdAsWritten(d, wn, Coefficient(d) / CriticalDamping()).Undefined() <==> d == Underdamped
  {
  }

  /** With the intended formula every recognised case has a defined `wd`, and the
      under-damped one is wn·√0.75. */
  lemma IntendedWdDefined(d: Case, wn: real)
    ensures !WdIntended(d, wn, Coefficient(d) / CriticalDamping()).Undefined()
    ensures WdIntended(Underdamped, wn, Coefficient(Underdamped) / CriticalDamping()) == Root(wn, 0.75)
    ensures d != Underdamped ==>
      WdIntended(d, wn, Coefficient(d) / CriticalDamping()) == WdAsWritten(d, wn, Coefficient(d) / CriticalDamping())
  {
  }
}
