/**
 Finite joint-scenario allocation problems. Every validated input amount is a multiple of 10^-12, so it is
 held as that integer number of ticks; a Decimal or Fraction is the real number it denotes.
 */
module AllocationModel {
  import opened Basics
  import opened Ordering

  const SCALE: int := 1_000_000_000_000
  const INPUT_MAXIMUM: int := SCALE * SCALE

  datatype Bounds = Bounds(lower: int, upper: int)

  datatype Scenario = Scenario(id: string, probability: int, bounds: Option<Bounds>)

  datatype Action = Action(id: string, gross: map<string, int>, fee: int, capital: int, resourceUse: map<string, int>)

  datatype Kind = Assumed | Estimated

  datatype Risk = Risk(target: int, maxVariance: Option<real>, maxShortfall: Option<int>, floor: Option<int>)

  /** holdings counts the declared holding components; every target declares all of them. */
  datatype Problem = Problem(balance: int, reserved: int, currentUse: map<string, int>, capacities: map<string, int>,
                             holdings: nat, scenarios: seq<Scenario>, kind: Kind, actions: seq<Action>, noAction: string,
                             risk: Risk, coefficient: Option<int>)

  datatype Outcome = Outcome(id: string, net: real, terminal: real)

  datatype Forecast = Forecast(action: string, outcomes: seq<Outcome>, gross: real, net: real,
                               variance: real, shortfall: real, utility: real)

  datatype Reason = CapitalConstraint | ResourceConstraint | VarianceConstraint | ShortfallConstraint | BalanceConstraint

  datatype Evaluation = Evaluation(forecast: Forecast, feasible: bool, reasons: seq<Reason>)

  function ScenarioId(s: Scenario): string { s.id }

  function ActionId(a: Action): string { a.id }

  function RowId(e: Evaluation): string { e.forecast.action }

  // ---------------------------------------------------------------- exact decimals

  const S: real := SCALE as real

  /** The value of an integer count of 10^-12. */
  function Units(ticks: int): (v: real)
    ensures v * S == ticks as real
  {
    ticks as real / S
  }

  /** decimal_value at 24 places. */
  function Units24(n: int): (v: real)
    ensures v * (S * S) == n as real
  {
    n as real / (S * S)
  }

  /** decimal_value at 48 places. */
  function Units48(n: int): (v: real)
    ensures v * (S * S * S * S) == n as real
  {
    n as real / (S * S * S * S)
  }

  function Max(a: int, b: int): int { if a < b then b else a }

  function MaxReal(a: real, b: real): real { if a < b then b else a }

  // ---------------------------------------------------------------- what validation establishes

  predicate Amount(t: int) { 0 <= t <= INPUT_MAXIMUM }

  predicate Signed(t: int) { -INPUT_MAXIMUM <= t <= INPUT_MAXIMUM }

  function Probabilities(ss: seq<Scenario>): seq<int> {
    seq(|ss|, i requires 0 <= i < |ss| => ss[i].probability)
  }

  function Tally(ps: seq<int>): int {
    if |ps| == 0 then 0 else Tally(ps[..|ps| - 1]) + ps[|ps| - 1]
  }

  function Ids(ss: seq<Scenario>): set<string> { set i | 0 <= i < |ss| :: ss[i].id }

  predicate ValidScenario(s: Scenario, kind: Kind) {
    && 0 <= s.probability <= SCALE
    && (s.bounds.Some? <==> kind == Estimated)
    && (s.bounds.Some? ==>
          && 0 <= s.bounds.value.lower <= s.probability <= s.bounds.value.upper <= SCALE)
  }

  predicate ValidAction(p: Problem, a: Action) {
    && a.gross.Keys == Ids(p.scenarios) && (forall k :: k in a.gross ==> Signed(a.gross[k]))
    && a.resourceUse.Keys == p.capacities.Keys && (forall k :: k in a.resourceUse ==> Amount(a.resourceUse[k]))
    && Amount(a.capital) && 0 <= a.fee <= a.capital
  }

  predicate ValidRisk(r: Risk) {
    && Signed(r.target)
    && (r.maxVariance.Some? ==> r.maxVariance.value >= 0.0)
    && (r.maxShortfall.Some? ==> Amount(r.maxShortfall.value))
    && (r.floor.Some? ==> Amount(r.floor.value))
  }

  /** A validated, canonically ordered problem. */
  ghost predicate Valid(p: Problem) {
    && Amount(p.balance) && Amount(p.reserved) && ValidRisk(p.risk)
    && (p.coefficient.Some? ==> Amount(p.coefficient.value))
    && (forall k :: k in p.capacities ==> Amount(p.capacities[k]))
    && |p.scenarios| > 0 && Increasing(p.scenarios, ScenarioId)
    && (forall i :: 0 <= i < |p.scenarios| ==> ValidScenario(p.scenarios[i], p.kind))
    && Tally(Probabilities(p.scenarios)) == SCALE
    && |p.actions| > 0 && Increasing(p.actions, ActionId)
    && (forall i :: 0 <= i < |p.actions| ==> ValidAction(p, p.actions[i]))
    && (exists i :: 0 <= i < |p.actions| && p.actions[i].id == p.noAction)
    && (forall i :: 0 <= i < |p.actions| && p.actions[i].id == p.noAction ==>
          && p.actions[i].fee == 0 && p.actions[i].capital == p.reserved && p.actions[i].resourceUse == p.currentUse)
  }

  /** Rows sorted by identity; declarations with repeated identities are refused. */
  function Canonical(declared: Problem): Option<Problem> {
    match (Ordered(declared.scenarios, ScenarioId), Ordered(declared.actions, ActionId))
    case (Some(scenarios), Some(actions)) => Some(declared.(scenarios := scenarios, actions := actions))
    case _ => None
  }

  /** The order in which scenarios and actions are declared does not change the problem. */
  lemma DeclarationOrderImmaterial(a: Problem, b: Problem)
    requires multiset(a.scenarios) == multiset(b.scenarios) && multiset(a.actions) == multiset(b.actions)
    requires b == a.(scenarios := b.scenarios, actions := b.actions)
    ensures Canonical(a) == Canonical(b)
    ensures Canonical(a).Some? ==> Increasing(Canonical(a).value.scenarios, ScenarioId)
    ensures Canonical(a).Some? ==> Increasing(Canonical(a).value.actions, ActionId)
  {
    OrderedCanonical(a.scenarios, b.scenarios, ScenarioId);
    OrderedCanonical(a.actions, b.actions, ActionId);
  }

  // ---------------------------------------------------------------- nets and shortages

  function Gross(p: Problem, a: Action): (r: seq<int>)
    requires ValidAction(p, a)
    ensures |r| == |p.scenarios|
  {
    seq(|p.scenarios|, i requires 0 <= i < |p.scenarios| => assert p.scenarios[i].id in Ids(p.scenarios);
                                                            a.gross[p.scenarios[i].id])
  }

  function Nets(p: Problem, a: Action): (r: seq<int>)
    requires ValidAction(p, a)
    ensures |r| == |p.scenarios|
  {
    var g := Gross(p, a);
    seq(|g|, i requires 0 <= i < |g| => g[i] - a.fee)
  }

  function Shortages(target: int, nets: seq<int>): (r: seq<int>)
    ensures |r| == |nets|
  {
    seq(|nets|, i requires 0 <= i < |nets| => Max(target - nets[i], 0))
  }

  function Squares(xs: seq<int>): (r: seq<int>)
    ensures |r| == |xs|
  {
    seq(|xs|, i requires 0 <= i < |xs| => xs[i] * xs[i])
  }

  function Outcomes(p: Problem, nets: seq<int>): seq<Outcome>
    requires |nets| == |p.scenarios|
  {
    seq(|nets|, i requires 0 <= i < |nets| =>
      Outcome(p.scenarios[i].id, Units(nets[i]), Units(p.balance + nets[i])))
  }
}
