/** What system_response.py and vibrations_functions.py share: the plant globals, the
    four damping-case names, the loops that push the damping coefficient past the
    critical value, and the fixed order in which cases are plotted. */
module Damping {
  import opened Results

  /** Mass (kg) and spring constant (N/m), the module globals of both files. */
  const M: real := 1.0
  const K: real := 1.0

  /** The critical damping coefficient 2·√(K·M): the positive root of c² = 4·K·M. */
  function CriticalDamping(): (c: real)
    ensures c > 0.0 && c * c == 4.0 * K * M
  {
    2.0
  }

  /** The natural frequency √(K/M): the positive root of w² = K/M. */
  function NaturalFrequency(): (w: real)
    ensures w > 0.0 && w * w == K / M
  {
    1.0
  }

  /** The four damping cases `declare_case` recognises. */
  datatype Case = NotDamped | CriticallyDamped | OverDamped | Underdamped

  /** The case name `declare_case` compares against in system_response.py and vibrations_functions.py. */
  function Name(d: Case): string
  {
    match d
    case NotDamped => "Not Damped"
    case CriticallyDamped => "Critically Damped"
    case OverDamped => "Over Damped"
    case Underdamped => "Underdamped"
  }

  /** The case a name denotes, or `None` for a name no branch matches. */
  function Parse(name: string): (r: Option<Case>)
    ensures r.Some? ==> Name(r.value) == name
    ensures r.None? ==> forall d: Case :: Name(d) != name
  {
    if name == Name(NotDamped) then Some(NotDamped)
    else if name == Name(CriticallyDamped) then Some(CriticallyDamped)
    else if name == Name(OverDamped) then Some(OverDamped)
    else if name == Name(Underdamped) then Some(Underdamped)
    else None
  }

  /** Distinct cases have distinct names, so parsing a case's name gives the case back. */
  lemma ParseName(d: Case)
    ensures Parse(Name(d)) == Some(d)
  {
  }

  /** The `C += 1` loop of the over-damped branch, from any start value: it stops at
      the first value strictly above the critical coefficient. */
  method RaisePastCritical(c0: real) returns (c: real, steps: nat)
    ensures c > CriticalDamping()
    ensures c == c0 + steps as real
    ensures steps > 0 ==> c - 1.0 <= CriticalDamping()
    ensures steps == 0 <==> c0 > CriticalDamping()
  {
    c, steps := c0, 0;
    while c <= CriticalDamping()
      invariant c == c0 + steps as real
      invariant steps > 0 ==> c - 1.0 <= CriticalDamping()
      decreases if c <= CriticalDamping() then (CriticalDamping() - c).Floor + 1 else 0
    {
      c, steps := c + 1.0, steps + 1;
    }
  }

  /** The `C -= 1` loop of the under-damped branch, from any start value: it stops at
      the first value strictly below the critical coefficient. */
  method LowerBelowCritical(c0: real) returns (c: real, steps: nat)
    ensures c < CriticalDamping()
    ensures c == c0 - steps as real
    ensures steps > 0 ==> c + 1.0 >= CriticalDamping()
    ensures steps == 0 <==> c0 < CriticalDamping()
  {
    c, steps := c0, 0;
    while c >= CriticalDamping()
      invariant c == c0 - steps as real
      invariant steps > 0 ==> c + 1.0 >= CriticalDamping()
      decreases if c >= CriticalDamping() then (c - CriticalDamping()).Floor + 1 else 0
    {
      c, steps := c - 1.0, steps + 1;
    }
  }

  /** The damping coefficient each case settles on: none, exactly critical, or the
      first unit step past critical in either direction. */
  function Coefficient(d: Case): (c: real)
    ensures d == NotDamped <==> c == 0.0
    ensures d == CriticallyDamped <==> c == CriticalDamping()
    ensures d == OverDamped <==> c > CriticalDamping()
    ensures d == Underdamped <==> 0.0 < c < CriticalDamping()
  {
    match d
    case NotDamped => 0.0
    case CriticallyDamped => CriticalDamping()
    case OverDamped => CriticalDamping() + 1.0
    case Underdamped => CriticalDamping() - 1.0
  }

  /** The textbook regime a damping ratio z = C / (2·√(K·M)) describes. */
  function RegimeOf(z: real): Option<Case>
  {
    if z == 0.0 then Some(NotDamped)
    else if 0.0 < z < 1.0 then Some(Underdamped)
    else if z == 1.0 then Some(CriticallyDamped)
    else if z > 1.0 then Some(OverDamped)
    else None
  }

  /** The ratio each case settles on lies in the regime the case is named after. */
  lemma RatioNamesItsCase(d: Case)
    ensures RegimeOf(Coefficient(d) / CriticalDamping()) == Some(d)
  {
  }

  /** The keyword flags of `plot_response`, one per case. */
  datatype Flags = Flags(notDamped: bool, criticallyDamped: bool, overDamped: bool, underdamped: bool)
  {
    predicate Selects(d: Case)
    {
      match d
      case NotDamped => notDamped
      case CriticallyDamped => criticallyDamped
      case OverDamped => overDamped
      case Underdamped => underdamped
    }
  }

  /** The insertion order of the `cases` dictionary, which `items()` follows. */
  const CaseOrder: seq<Case> := [NotDamped, CriticallyDamped, OverDamped, Underdamped]

  /** A case's position in `CaseOrder`. */
  function Rank(d: Case): (i: nat)
    ensures i < |CaseOrder| && CaseOrder[i] == d
  {
    match d
    case NotDamped => 0
    case CriticallyDamped => 1
    case OverDamped => 2
    case Underdamped => 3
  }

  /** The cases of `ds` whose flag is set, in the order of `ds`. */
  function Flagged(ds: seq<Case>, f: Flags): seq<Case>
  {
    if |ds| == 0 then []
    else Flagged(ds[..|ds| - 1], f) + (if f.Selects(ds[|ds| - 1]) then [ds[|ds| - 1]] else [])
  }

  /** A case is kept exactly when it occurs in `ds` and is flagged. */
  lemma {:induction false} FlaggedMembers(ds: seq<Case>, f: Flags)
    ensures forall d :: d in Flagged(ds, f) <==> d in ds && f.Selects(d)
  {
    if |ds| > 0 {
      var front := ds[..|ds| - 1];
      FlaggedMembers(front, f);
      assert ds == front + [ds[|ds| - 1]];
    }
  }

  /** The cases are strictly increasing in rank. */
  predicate RankIncreasing(ds: seq<Case>)
  {
    forall i, j :: 0 <= i < j < |ds| ==> Rank(ds[i]) < Rank(ds[j])
  }

  /** Filtering a rank-increasing sequence keeps it rank-increasing. */
  lemma {:induction false} FlaggedKeepsOrder(ds: seq<Case>, f: Flags)
    requires RankIncreasing(ds)
    ensures RankIncreasing(Flagged(ds, f))
  {
    if |ds| > 0 {
      var front := ds[..|ds| - 1];
      var last := ds[|ds| - 1];
      FlaggedKeepsOrder(front, f);
      FlaggedMembers(front, f);
      var r := Flagged(front, f);
      forall k | 0 <= k < |r|
        ensures Rank(r[k]) < Rank(last)
      {
        assert r[k] in front;
      }
    }
  }

  /** The case `plot_response` declares last is the flagged case of highest rank. */
  lemma LastFlaggedIsHighest(f: Flags)
    requires |Flagged(CaseOrder, f)| > 0
    ensures var r := Flagged(CaseOrder, f);
      f.Selects(r[|r| - 1]) &&
      forall d :: f.Selects(d) ==> Rank(d) <= Rank(r[|r| - 1])
  {
    var r := Flagged(CaseOrder, f);
    FlaggedMembers(CaseOrder, f);
    FlaggedKeepsOrder(CaseOrder, f);
    assert r[|r| - 1] in r;
    forall d | f.Selects(d)
      ensures Rank(d) <= Rank(r[|r| - 1])
    {
      assert d in CaseOrder by { assert CaseOrder[Rank(d)] == d; }
      assert d in r;
      var k :| 0 <= k < |r| && r[k] == d;
    }
  }
}
