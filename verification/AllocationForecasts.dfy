/** The production forecast loop, its declared value ranges, and feasibility against the reference's. */
module AllocationForecasts {
  import opened Basics
  import opened Ordering
  import opened AllocationModel
  import opened AllocationMoments

  // ---------------------------------------------------------------- ranges

  lemma {:induction false} DotBetween(ps: seq<int>, xs: seq<int>, lo: int, hi: int)
    requires |ps| == |xs| && forall i :: 0 <= i < |ps| ==> ps[i] >= 0 && lo <= xs[i] <= hi
    ensures lo * Tally(ps) <= Dot(ps, xs) <= hi * Tally(ps)
  {
    if |ps| > 0 {
      var n := |ps| - 1;
      DotBetween(ps[..n], xs[..n], lo, hi);
      ProductBetween(ps[n], xs[n], lo, hi, Tally(ps[..n]));
    }
  }

  lemma ProductBetween(p: int, x: int, lo: int, hi: int, rest: int)
    requires p >= 0 && lo <= x <= hi
    ensures lo * (rest + p) <= lo * rest + p * x && hi * rest + p * x <= hi * (rest + p)
  {
    assert p * lo <= p * x <= p * hi;
  }

  lemma SquareBetween(x: int, b: int)
    requires -b <= x <= b
    ensures 0 <= x * x <= b * b
  {
    if x >= 0 { assert x * x <= b * x <= b * b; } else { assert (-x) * (-x) <= b * (-x) <= b * b; }
  }

  lemma SquaresBetween(xs: seq<int>, b: int)
    requires forall i :: 0 <= i < |xs| ==> -b <= xs[i] <= b
    ensures forall i :: 0 <= i < |xs| ==> 0 <= Squares(xs)[i] <= b * b
  {
    forall i | 0 <= i < |xs| ensures 0 <= Squares(xs)[i] <= b * b { SquareBetween(xs[i], b); }
  }

  const TEN48: int := SCALE * SCALE * SCALE * SCALE

  /** A value of an exact output field, with its 48-place numerator below 10^97. */
  predicate InRange(v: real) { -(TEN48 as real) <= v <= TEN48 as real }

  predicate Within(m: Numerators) {
    && -INPUT_MAXIMUM * SCALE <= m.gross <= INPUT_MAXIMUM * SCALE
    && -2 * INPUT_MAXIMUM * SCALE <= m.net <= INPUT_MAXIMUM * SCALE
    && 0 <= m.second <= 4 * INPUT_MAXIMUM * INPUT_MAXIMUM * SCALE
    && 0 <= m.shortfall <= 3 * INPUT_MAXIMUM * SCALE
    && 0 <= m.shortfallSquare <= 9 * INPUT_MAXIMUM * INPUT_MAXIMUM * SCALE
  }

  lemma SimplexRanges(ps: seq<int>, gs: seq<int>, ns: seq<int>, shs: seq<int>)
    requires |ps| == |gs| == |ns| == |shs| && Tally(ps) == SCALE && forall i :: 0 <= i < |ps| ==> ps[i] >= 0
    requires forall i :: 0 <= i < |ps| ==>
               Signed(gs[i]) && -2 * INPUT_MAXIMUM <= ns[i] <= INPUT_MAXIMUM && 0 <= shs[i] <= 3 * INPUT_MAXIMUM
    ensures Within(NumeratorsOf(ps, gs, ns, shs))
  {
    hide Dot, Tally;
    SquaresBetween(ns, 2 * INPUT_MAXIMUM);
    SquaresBetween(shs, 3 * INPUT_MAXIMUM);
    DotBetween(ps, gs, -INPUT_MAXIMUM, INPUT_MAXIMUM);
    DotBetween(ps, ns, -2 * INPUT_MAXIMUM, INPUT_MAXIMUM);
    DotBetween(ps, Squares(ns), 0, 4 * INPUT_MAXIMUM * INPUT_MAXIMUM);
    DotBetween(ps, shs, 0, 3 * INPUT_MAXIMUM);
    DotBetween(ps, Squares(shs), 0, 9 * INPUT_MAXIMUM * INPUT_MAXIMUM);
  }

  lemma NumeratorRanges(p: Problem, a: Action)
    requires Valid(p) && ValidAction(p, a)
    ensures var ns := Nets(p, a);
            Within(NumeratorsOf(Probabilities(p.scenarios), Gross(p, a), ns, Shortages(p.risk.target, ns)))
  {
    hide Dot, Tally, NumeratorsOf;
    var ps, ns := Probabilities(p.scenarios), Nets(p, a);
    NetsBetween(p, a);
    forall i | 0 <= i < |ns| ensures ps[i] >= 0 { assert ValidScenario(p.scenarios[i], p.kind); }
    SimplexRanges(ps, Gross(p, a), ns, Shortages(p.risk.target, ns));
  }

  lemma {:induction false} MeanNonnegative(ws: seq<real>, xs: seq<real>)
    requires |ws| == |xs| && forall i :: 0 <= i < |ws| ==> ws[i] >= 0.0 && xs[i] >= 0.0
    ensures Mean(ws, xs) >= 0.0
  {
    if |ws| > 0 { MeanNonnegative(ws[..|ws| - 1], xs[..|xs| - 1]); }
  }

  lemma DeviationsNonnegative(ws: seq<real>, xs: seq<real>, m: real)
    requires |ws| == |xs| && forall i :: 0 <= i < |ws| ==> ws[i] >= 0.0
    ensures Mean(ws, Deviations(xs, m)) >= 0.0
  {
    forall i | 0 <= i < |xs| ensures Deviations(xs, m)[i] >= 0.0 { SquareNonnegative(xs[i] - m); }
    MeanNonnegative(ws, Deviations(xs, m));
  }

  lemma SquareNonnegative(x: real)
    ensures Square(x) >= 0.0
  {
    if x < 0.0 { assert (-x) * (-x) == x * x; }
  }

  lemma WeightsNonnegative(p: Problem)
    requires Valid(p)
    ensures forall i :: 0 <= i < |p.scenarios| ==> AllUnits(Probabilities(p.scenarios))[i] >= 0.0
  {
    forall i | 0 <= i < |p.scenarios| ensures AllUnits(Probabilities(p.scenarios))[i] >= 0.0 {
      assert ValidScenario(p.scenarios[i], p.kind);
    }
  }

  /** The variance numerator second * SCALE - net^2 is never negative. */
  lemma VarianceNonnegative(p: Problem, a: Action)
    requires Valid(p) && ValidAction(p, a)
    ensures Exact(p, a).variance >= 0.0
  {
    hide Mean, Exact, Deviations, RealShortages, Utilities, AllUnits, Nets, Gross, Outcomes;
    ExactIsReference(p, a);
    ReferenceTicks(p, a);
    hide ReferenceWeights, ReferenceNets, ReferenceGross, ReferenceOutcomes;
    var ws, xs := ReferenceWeights(p), ReferenceNets(p, a);
    WeightsNonnegative(p);
    DeviationsNonnegative(ws, xs, Mean(ws, xs));
  }

  lemma VarianceBelow(second: int, net: int)
    requires 0 <= second <= 4 * INPUT_MAXIMUM * INPUT_MAXIMUM * SCALE
    ensures second * SCALE - net * net <= TEN48 * TEN48
  {
    assert net * net >= 0;
  }

  lemma PenalisedBetween(net: int, sq: int, c: int)
    requires -2 * INPUT_MAXIMUM * SCALE <= net <= INPUT_MAXIMUM * SCALE
    requires 0 <= sq <= 9 * INPUT_MAXIMUM * INPUT_MAXIMUM * SCALE && 0 <= c <= INPUT_MAXIMUM
    ensures -TEN48 * TEN48 <= Penalised(net, sq, c) <= TEN48 * TEN48
  {
    assert 0 <= c * sq <= INPUT_MAXIMUM * sq;
  }

  lemma Units48Between(n: int)
    requires -TEN48 * TEN48 <= n <= TEN48 * TEN48
    ensures InRange(Units48(n))
  {}

  lemma Units24Between(n: int)
    requires -3 * INPUT_MAXIMUM * SCALE <= n <= 3 * INPUT_MAXIMUM * SCALE
    ensures InRange(Units24(n)) && (n >= 0 ==> Units24(n) >= 0.0)
  {}

  lemma VarianceAtMost(n: int)
    requires n <= TEN48 * TEN48
    ensures Units48(n) <= TEN48 as real
  {}

  lemma PlainBetween(net: int)
    requires -2 * INPUT_MAXIMUM * SCALE <= net <= INPUT_MAXIMUM * SCALE
    ensures InRange(Units48(net * SCALE * SCALE))
  {}

  lemma WithinInRange(m: Numerators, coefficient: Option<int>)
    requires Within(m) && (coefficient.Some? ==> Amount(coefficient.value))
    ensures InRange(Units24(m.gross)) && InRange(Units24(m.net)) && InRange(Units48(Utility48(m, coefficient)))
    ensures Units48(Variance48(m)) <= TEN48 as real && 0.0 <= Units24(m.shortfall) <= TEN48 as real
  {
    hide Units24, Units48, Penalised;
    VarianceBelow(m.second, m.net);
    Units24Between(m.gross);
    Units24Between(m.net);
    Units24Between(m.shortfall);
    VarianceAtMost(Variance48(m));
    if coefficient.Some? {
      PenalisedBetween(m.net, m.shortfallSquare, coefficient.value);
      Units48Between(Utility48(m, coefficient));
    } else {
      PlainBetween(m.net);
    }
  }

  lemma UnitsInRange(t: int)
    requires -3 * INPUT_MAXIMUM <= t <= 3 * INPUT_MAXIMUM
    ensures InRange(Units(t))
  {}

  lemma NetsBetween(p: Problem, a: Action)
    requires Valid(p) && ValidAction(p, a)
    ensures |Nets(p, a)| == |p.scenarios|
    ensures forall i :: 0 <= i < |p.scenarios| ==>
              Signed(Gross(p, a)[i]) && -2 * INPUT_MAXIMUM <= Nets(p, a)[i] <= INPUT_MAXIMUM
  {
    forall i | 0 <= i < |p.scenarios| ensures Signed(Gross(p, a)[i]) { assert p.scenarios[i].id in a.gross; }
  }

  lemma OutcomesInRange(p: Problem, a: Action)
    requires Valid(p) && ValidAction(p, a)
    ensures forall o :: o in Outcomes(p, Nets(p, a)) ==> InRange(o.net) && InRange(o.terminal)
  {
    NetsBetween(p, a);
    hide Units, InRange, Nets, Gross, ValidAction, ValidScenario;
    forall i | 0 <= i < |p.scenarios|
      ensures InRange(Units(Nets(p, a)[i])) && InRange(Units(p.balance + Nets(p, a)[i]))
    {
      UnitsInRange(Nets(p, a)[i]);
      UnitsInRange(p.balance + Nets(p, a)[i]);
    }
  }

  /** Every output of a valid problem fits its declared range: at most 10^48 in size with 48 places. */
  lemma OutputsInRange(p: Problem, a: Action)
    requires Valid(p) && ValidAction(p, a)
    ensures var f := Exact(p, a);
            && InRange(f.gross) && InRange(f.net) && InRange(f.utility)
            && 0.0 <= f.variance <= TEN48 as real && 0.0 <= f.shortfall <= TEN48 as real
            && forall o :: o in f.outcomes ==> InRange(o.net) && InRange(o.terminal)
  {
    hide Units24, Units48, Variance48, Utility48, NumeratorsOf, Within, Outcomes, InRange;
    var ns := Nets(p, a);
    NumeratorRanges(p, a);
    VarianceNonnegative(p, a);
    WithinInRange(NumeratorsOf(Probabilities(p.scenarios), Gross(p, a), ns, Shortages(p.risk.target, ns)),
                  p.coefficient);
    OutcomesInRange(p, a);
  }

  // ---------------------------------------------------------------- feasibility

  function Support(p: Problem): set<string> {
    set i | 0 <= i < |p.scenarios| && p.scenarios[i].probability > 0 :: p.scenarios[i].id
  }

  predicate Overcommitted(p: Problem, a: Action) {
    exists k :: k in a.resourceUse && k in p.capacities && a.resourceUse[k] > p.capacities[k]
  }

  predicate BelowFloor(outcomes: seq<Outcome>, support: set<string>, floor: int) {
    exists i :: 0 <= i < |outcomes| && outcomes[i].id in support && outcomes[i].terminal < Units(floor)
  }

  function When(c: bool, r: Reason): seq<Reason> { if c then [r] else [] }

  /** The rejection reasons, in the order in which they are examined. */
  function Reasons(p: Problem, a: Action, f: Forecast): seq<Reason> {
    When(a.capital > p.balance, CapitalConstraint)
    + When(Overcommitted(p, a), ResourceConstraint)
    + When(p.risk.maxVariance.Some? && f.variance > p.risk.maxVariance.value, VarianceConstraint)
    + When(p.risk.maxShortfall.Some? && f.shortfall > Units(p.risk.maxShortfall.value), ShortfallConstraint)
    + When(p.risk.floor.Some? && BelowFloor(f.outcomes, Support(p), p.risk.floor.value), BalanceConstraint)
  }

  function Evaluate(p: Problem, a: Action): Evaluation
    requires ValidAction(p, a)
  {
    var f := Exact(p, a);
    Evaluation(f, Reasons(p, a, f) == [], Reasons(p, a, f))
  }

  /** The reference's own check of one declared weighting: reservation, resources, then risk. */
  ghost predicate ReferenceFeasible(p: Problem, a: Action)
    requires ValidAction(p, a)
  {
    var f := Reference(p, a);
    && Units(a.capital) <= Units(p.balance)
    && (forall k :: k in a.resourceUse && k in p.capacities ==> Units(a.resourceUse[k]) <= Units(p.capacities[k]))
    && (p.risk.maxVariance.Some? ==> f.variance <= p.risk.maxVariance.value)
    && (p.risk.maxShortfall.Some? ==> f.shortfall <= Units(p.risk.maxShortfall.value))
    && (p.risk.floor.Some? ==>
          forall i :: 0 <= i < |p.scenarios| && p.scenarios[i].probability > 0 ==>
            Units(p.balance) + ReferenceNets(p, a)[i] >= Units(p.risk.floor.value))
  }

  /** The constraint of the rational reference that a reason names is broken. */
  ghost predicate Breaks(p: Problem, a: Action, r: Reason)
    requires ValidAction(p, a)
  {
    var f := Reference(p, a);
    match r
    case CapitalConstraint => Units(a.capital) > Units(p.balance)
    case ResourceConstraint =>
      exists k :: k in a.resourceUse && k in p.capacities && Units(a.resourceUse[k]) > Units(p.capacities[k])
    case VarianceConstraint => p.risk.maxVariance.Some? && f.variance > p.risk.maxVariance.value
    case ShortfallConstraint => p.risk.maxShortfall.Some? && f.shortfall > Units(p.risk.maxShortfall.value)
    case BalanceConstraint =>
      && p.risk.floor.Some?
      && exists i :: 0 <= i < |p.scenarios| && p.scenarios[i].probability > 0
                     && Units(p.balance) + ReferenceNets(p, a)[i] < Units(p.risk.floor.value)
  }

  function Rank(r: Reason): nat {
    match r
    case CapitalConstraint => 0
    case ResourceConstraint => 1
    case VarianceConstraint => 2
    case ShortfallConstraint => 3
    case BalanceConstraint => 4
  }

  predicate InOrder(reasons: seq<Reason>) { forall i, j :: 0 <= i < j < |reasons| ==> Rank(reasons[i]) < Rank(reasons[j]) }

  lemma UnitsOrder(a: int, b: int)
    ensures Units(a) <= Units(b) <==> a <= b
    ensures Units(a) < Units(b) <==> a < b
  {}

  /** The floor is broken exactly by a scenario of positive probability, read from the problem's fields. */
  lemma FloorAgrees(p: Problem, a: Action, floor: int)
    requires Valid(p) && ValidAction(p, a)
    ensures BelowFloor(Exact(p, a).outcomes, Support(p), floor) <==>
            exists i :: 0 <= i < |p.scenarios| && p.scenarios[i].probability > 0
                        && Units(p.balance) + ReferenceNets(p, a)[i] < Units(floor)
  {
    ReferenceTicks(p, a);
    assert Exact(p, a).outcomes == Outcomes(p, Nets(p, a)) == ReferenceOutcomes(p, a);
    hide Exact, Units, ReferenceNets, Valid, ValidAction;
    var outcomes := ReferenceOutcomes(p, a);
    forall i | 0 <= i < |p.scenarios|
      ensures outcomes[i].id in Support(p) <==> p.scenarios[i].probability > 0
      ensures outcomes[i].terminal == Units(p.balance) + ReferenceNets(p, a)[i]
    {
      SupportAt(p, i);
    }
  }

  lemma SupportAt(p: Problem, i: nat)
    requires Valid(p) && i < |p.scenarios|
    ensures p.scenarios[i].id in Support(p) <==> p.scenarios[i].probability > 0
  {
    hide ValidScenario, ValidAction, Tally;
    if p.scenarios[i].id in Support(p) {
      var j :| 0 <= j < |p.scenarios| && p.scenarios[j].probability > 0 && p.scenarios[j].id == p.scenarios[i].id;
      LexTrichotomy(p.scenarios[i].id, p.scenarios[i].id);
      assert ScenarioId(p.scenarios[i]) == ScenarioId(p.scenarios[j]);
    }
  }

  /** An evaluation is feasible exactly when the independent reference accepts the action. */
  lemma FeasibilityAgrees(p: Problem, a: Action)
    requires Valid(p) && ValidAction(p, a)
    ensures Evaluate(p, a).feasible <==> ReferenceFeasible(p, a)
    ensures Evaluate(p, a).forecast == Reference(p, a)
  {
    hide Exact, Reference, BelowFloor, Support, ReferenceNets, Valid;
    ExactIsReference(p, a);
    if p.risk.floor.Some? { FloorAgrees(p, a, p.risk.floor.value); }
    UnitsOrder(a.capital, p.balance);
    forall k | k in a.resourceUse && k in p.capacities
      ensures Units(a.resourceUse[k]) <= Units(p.capacities[k]) <==> a.resourceUse[k] <= p.capacities[k]
    {
      UnitsOrder(a.resourceUse[k], p.capacities[k]);
    }
  }

  /** The reasons of an evaluation name exactly the constraints of the reference that the action breaks. */
  lemma ReasonsAreBreaches(p: Problem, a: Action)
    requires Valid(p) && ValidAction(p, a)
    ensures var reasons := Reasons(p, a, Exact(p, a));
            && InOrder(reasons) && (forall r :: r in reasons <==> Breaks(p, a, r))
            && (reasons == [] <==> ReferenceFeasible(p, a))
  {
    FeasibilityAgrees(p, a);
    ReasonsListed(p, a, Exact(p, a));
    hide Exact, Reference, ReferenceFeasible, Reasons, InOrder, Breaks, Holds;
    forall r ensures Holds(p, a, Exact(p, a), r) <==> Breaks(p, a, r) { HoldsBreaks(p, a, r); }
  }

  predicate Holds(p: Problem, a: Action, f: Forecast, r: Reason) {
    match r
    case CapitalConstraint => a.capital > p.balance
    case ResourceConstraint => Overcommitted(p, a)
    case VarianceConstraint => p.risk.maxVariance.Some? && f.variance > p.risk.maxVariance.value
    case ShortfallConstraint => p.risk.maxShortfall.Some? && f.shortfall > Units(p.risk.maxShortfall.value)
    case BalanceConstraint => p.risk.floor.Some? && BelowFloor(f.outcomes, Support(p), p.risk.floor.value)
  }

  lemma ReasonsListed(p: Problem, a: Action, f: Forecast)
    ensures InOrder(Reasons(p, a, f)) && forall r :: r in Reasons(p, a, f) <==> Holds(p, a, f, r)
  {
    hide Overcommitted, BelowFloor, Support, Units, InOrder, When;
    Listing(a.capital > p.balance, Overcommitted(p, a), p.risk.maxVariance.Some? && f.variance > p.risk.maxVariance.value,
            p.risk.maxShortfall.Some? && f.shortfall > Units(p.risk.maxShortfall.value),
            p.risk.floor.Some? && BelowFloor(f.outcomes, Support(p), p.risk.floor.value));
  }

  lemma Listing(capital: bool, resource: bool, variance: bool, shortfall: bool, balance: bool)
    ensures var rs := When(capital, CapitalConstraint) + When(resource, ResourceConstraint)
                      + When(variance, VarianceConstraint) + When(shortfall, ShortfallConstraint)
                      + When(balance, BalanceConstraint);
            && InOrder(rs) && (CapitalConstraint in rs <==> capital) && (ResourceConstraint in rs <==> resource)
            && (VarianceConstraint in rs <==> variance) && (ShortfallConstraint in rs <==> shortfall)
            && (BalanceConstraint in rs <==> balance)
  {
    hide InOrder, When;
    var rs := When(capital, CapitalConstraint);
    ListedPush([], capital, CapitalConstraint);
    assert [] + rs == rs;
    ListedPush(rs, resource, ResourceConstraint);
    rs := rs + When(resource, ResourceConstraint);
    ListedPush(rs, variance, VarianceConstraint);
    rs := rs + When(variance, VarianceConstraint);
    ListedPush(rs, shortfall, ShortfallConstraint);
    rs := rs + When(shortfall, ShortfallConstraint);
    ListedPush(rs, balance, BalanceConstraint);
  }

  lemma ListedPush(rs: seq<Reason>, c: bool, r: Reason)
    requires rs == [] || (InOrder(rs) && forall x :: x in rs ==> Rank(x) < Rank(r))
    ensures InOrder(rs + When(c, r)) && forall x :: x in rs + When(c, r) <==> x in rs || (c && x == r)
  {}

  lemma HoldsBreaks(p: Problem, a: Action, r: Reason)
    requires Valid(p) && ValidAction(p, a)
    ensures Holds(p, a, Exact(p, a), r) <==> Breaks(p, a, r)
  {
    hide Exact, Reference, Valid, ReferenceFeasible, BelowFloor, Support, ReferenceNets;
    FeasibilityAgrees(p, a);
    if p.risk.floor.Some? { FloorAgrees(p, a, p.risk.floor.value); }
    UnitsOrder(a.capital, p.balance);
    forall k | k in a.resourceUse && k in p.capacities
      ensures Units(a.resourceUse[k]) > Units(p.capacities[k]) <==> a.resourceUse[k] > p.capacities[k]
    {
      UnitsOrder(a.resourceUse[k], p.capacities[k]);
    }
  }
}
