/** The `system_response` class of vibrations_functions.py (Problem 3): the same case
    declaration as system_response.py, without the damped frequency. */
module Vibrations {
  import opened Results
  import opened Damping

  /** An instance of `system_response`; every field defaults to `None`. */
  datatype Oscillator = Oscillator(
    caseName: Option<string>, damping: Option<real>, ratio: Option<real>,
    timeResponse: Option<seq<real>>)

  /** `system_response.__init__`: stores its four arguments unchanged. */
  function NewOscillator(caseName: Option<string>, damping: Option<real>, ratio: Option<real>,
                         timeResponse: Option<seq<real>>): (o: Oscillator)
    ensures o.caseName == caseName && o.damping == damping && o.ratio == ratio
    ensures o.timeResponse == timeResponse
  {
    Oscillator(caseName, damping, ratio, timeResponse)
  }

  /** `system_response()` with no arguments: nothing is set. */
  function DefaultOscillator(): (o: Oscillator)
    ensures o.caseName.None? && o.damping.None? && o.ratio.None? && o.timeResponse.None?
  {
    NewOscillator(None, None, None, None)
  }

  /** `system_response.declare_case`. Always records the name; a recognised name also
      sets C and Z = C / (2·√(K·M)); any other name leaves C and Z as they were.
      `steps` counts the iterations of the adjust-until-past-critical loop. */
  method DeclareCase(o: Oscillator, name: string) returns (r: Oscillator, steps: nat)
    ensures r.caseName == Some(name) && r.timeResponse == o.timeResponse
    ensures Parse(name).None? ==> r == o.(caseName := Some(name)) && steps == 0
    ensures Parse(name).Some? ==>
      r.damping == Some(Coefficient(Parse(name).value)) &&
      r.ratio == Some(Coefficient(Parse(name).value) / CriticalDamping())
    ensures name == Name(NotDamped) ==> r.damping == Some(0.0) && r.ratio == Some(0.0)
    ensures name == Name(CriticallyDamped) ==> r.damping == Some(CriticalDamping()) && r.ratio == Some(1.0)
    ensures name == Name(OverDamped) ==> r.damping.value > CriticalDamping() && r.ratio == Some(1.5)
    ensures name == Name(Underdamped) ==> r.damping.value < CriticalDamping() && r.ratio == Some(0.5)
    ensures steps == (if name == Name(OverDamped) || name == Name(Underdamped) then 1 else 0)
  {
    r, steps := o.(caseName := Some(name)), 0;
    if name == "Not Damped" {
      r := r.(damping := Some(0.0), ratio := Some(0.0));
    } else if name == "Critically Damped" {
      r := r.(damping := Some(CriticalDamping()), ratio := Some(1.0));
    } else if name == "Over Damped" {
      var c;
      c, steps := RaisePastCritical(CriticalDamping());
      r := r.(damping := Some(c), ratio := Some(c / CriticalDamping()));
    } else if name == "Underdamped" {
      var c;
      c, steps := LowerBelowCritical(CriticalDamping());
      r := r.(damping := Some(c), ratio := Some(c / CriticalDamping()));
    }
  }
}
