/**
 One pass of integer numerators against direct rational moments: the production forecast keeps integers at
 24 and 48 decimal places, the reference forecast sums rational deviations, and the two are equal.
 */
module AllocationMoments {
  import opened Basics
  import opened Ordering
  import opened AllocationModel

  // ---------------------------------------------------------------- weighted sums

  function Dot(ps: seq<int>, xs: seq<int>): int
    requires |ps| == |xs|
  {
    if |ps| == 0 then 0
    else Dot(ps[..|ps| - 1], xs[..|xs| - 1]) + ps[|ps| - 1] * xs[|xs| - 1]
  }

  function Term(w: real, x: real): real { w * x }

  /** An expectation of rational values under rational weights. */
  function Mean(ws: seq<real>, xs: seq<real>): real
    requires |ws| == |xs|
  {
    if |ws| == 0 then 0.0
    else Mean(ws[..|ws| - 1], xs[..|xs| - 1]) + Term(ws[|ws| - 1], xs[|xs| - 1])
  }

  function Weight(ws: seq<real>): real {
    if |ws| == 0 then 0.0 else Weight(ws[..|ws| - 1]) + ws[|ws| - 1]
  }

  function AllUnits(xs: seq<int>): (r: seq<real>)
    ensures |r| == |xs|
  {
    seq(|xs|, i requires 0 <= i < |xs| => Units(xs[i]))
  }

  function Square(x: real): real { x * x }

  function Deviations(xs: seq<real>, m: real): (r: seq<real>)
    ensures |r| == |xs|
  {
    seq(|xs|, i requires 0 <= i < |xs| => Square(xs[i] - m))
  }

  function RealShortages(target: real, xs: seq<real>): (r: seq<real>)
    ensures |r| == |xs|
  {
    seq(|xs|, i requires 0 <= i < |xs| => MaxReal(target - xs[i], 0.0))
  }

  function PointUtility(target: real, coefficient: real, x: real): real {
    x - coefficient * Square(MaxReal(target - x, 0.0))
  }

  function Utilities(target: real, coefficient: real, xs: seq<real>): (r: seq<real>)
    ensures |r| == |xs|
  {
    seq(|xs|, i requires 0 <= i < |xs| => PointUtility(target, coefficient, xs[i]))
  }

  // ---------------------------------------------------------------- the two forecasts

  /** The rational inputs of the reference, scenario by scenario, from the problem's own fields. */
  ghost function ReferenceWeights(p: Problem): (r: seq<real>)
    ensures |r| == |p.scenarios|
  {
    seq(|p.scenarios|, i requires 0 <= i < |p.scenarios| => Units(p.scenarios[i].probability))
  }

  ghost function ReferenceGross(p: Problem, a: Action): (r: seq<real>)
    requires ValidAction(p, a)
    ensures |r| == |p.scenarios|
  {
    seq(|p.scenarios|, i requires 0 <= i < |p.scenarios| => assert p.scenarios[i].id in Ids(p.scenarios);
                                                            Units(a.gross[p.scenarios[i].id]))
  }

  ghost function ReferenceNets(p: Problem, a: Action): (r: seq<real>)
    requires ValidAction(p, a)
    ensures |r| == |p.scenarios|
  {
    seq(|p.scenarios|, i requires 0 <= i < |p.scenarios| => assert p.scenarios[i].id in Ids(p.scenarios);
                                                            Units(a.gross[p.scenarios[i].id]) - Units(a.fee))
  }

  ghost function ReferenceOutcomes(p: Problem, a: Action): seq<Outcome>
    requires ValidAction(p, a)
  {
    var xs := ReferenceNets(p, a);
    seq(|p.scenarios|, i requires 0 <= i < |p.scenarios| =>
      Outcome(p.scenarios[i].id, xs[i], Units(p.balance) + xs[i]))
  }

  /** Independent rational forecast: E[(net - mean)^2], E[max(target - net, 0)] and expected pointwise utility. */
  ghost function Reference(p: Problem, a: Action): Forecast
    requires ValidAction(p, a)
  {
    var ws, xs := ReferenceWeights(p), ReferenceNets(p, a);
    var target := Units(p.risk.target);
    var coefficient := if p.coefficient.Some? then Units(p.coefficient.value) else 0.0;
    var m := Mean(ws, xs);
    Forecast(a.id, ReferenceOutcomes(p, a), Mean(ws, ReferenceGross(p, a)), m, Mean(ws, Deviations(xs, m)),
             Mean(ws, RealShortages(target, xs)), Mean(ws, Utilities(target, coefficient, xs)))
  }

  /** The integer numerators after the first n scenarios. */
  datatype Numerators = Numerators(gross: int, net: int, second: int, shortfall: int, shortfallSquare: int)

  function NumeratorsOf(ps: seq<int>, gs: seq<int>, ns: seq<int>, shs: seq<int>): Numerators
    requires |ps| == |gs| == |ns| == |shs|
  {
    Numerators(Dot(ps, gs), Dot(ps, ns), Dot(ps, Squares(ns)), Dot(ps, shs), Dot(ps, Squares(shs)))
  }

  function Variance48(m: Numerators): int { m.second * SCALE - m.net * m.net }

  function Penalised(net: int, shortfallSquare: int, coefficient: int): int {
    net * SCALE * SCALE - coefficient * shortfallSquare
  }

  function Utility48(m: Numerators, coefficient: Option<int>): int {
    if coefficient.Some? then Penalised(m.net, m.shortfallSquare, coefficient.value) else m.net * SCALE * SCALE
  }

  function Exact(p: Problem, a: Action): Forecast
    requires ValidAction(p, a)
  {
    var ns := Nets(p, a);
    var m := NumeratorsOf(Probabilities(p.scenarios), Gross(p, a), ns, Shortages(p.risk.target, ns));
    Forecast(a.id, Outcomes(p, ns), Units24(m.gross), Units24(m.net), Units48(Variance48(m)),
             Units24(m.shortfall), Units48(Utility48(m, p.coefficient)))
  }

  // ---------------------------------------------------------------- their agreement

  lemma TermRefines(p: real, y: real, w: real, v: real, s: real, k: real)
    requires w * s == p && v * k == y
    ensures Term(w, v) * (s * k) == p * y
  {
    assert (w * v) * (s * k) == (w * s) * (v * k);
  }

  /** Scaling weights by s and values by k scales the sum by s * k. */
  lemma {:induction false} DotRefines(ps: seq<int>, ys: seq<int>, ws: seq<real>, vs: seq<real>, s: real, k: real)
    requires |ps| == |ys| == |ws| == |vs|
    requires forall i :: 0 <= i < |ps| ==> ws[i] * s == ps[i] as real && vs[i] * k == ys[i] as real
    ensures Mean(ws, vs) * (s * k) == Dot(ps, ys) as real
  {
    if |ps| > 0 {
      var n := |ps| - 1;
      DotRefines(ps[..n], ys[..n], ws[..n], vs[..n], s, k);
      TermRefines(ps[n] as real, ys[n] as real, ws[n], vs[n], s, k);
      assert (ps[n] * ys[n]) as real == ps[n] as real * ys[n] as real;
    }
  }

  lemma {:induction false} WeightIsTally(ps: seq<int>)
    ensures Weight(AllUnits(ps)) * S == Tally(ps) as real
  {
    if |ps| > 0 {
      WeightIsTally(ps[..|ps| - 1]);
      assert AllUnits(ps)[..|ps| - 1] == AllUnits(ps[..|ps| - 1]);
    }
  }

  /** Sum w(x - m)^2 = Sum wx^2 - 2m Sum wx + m^2 Sum w. */
  lemma {:induction false} DeviationsExpand(ws: seq<real>, xs: seq<real>, m: real)
    requires |ws| == |xs|
    ensures Mean(ws, Deviations(xs, m)) ==
            Mean(ws, Deviations(xs, 0.0)) - Term(2.0 * m, Mean(ws, xs)) + Term(Square(m), Weight(ws))
  {
    hide Square, Term;
    if |ws| > 0 {
      var n := |ws| - 1;
      DeviationsExpand(ws[..n], xs[..n], m);
      assert Deviations(xs, m)[..n] == Deviations(xs[..n], m);
      assert Deviations(xs, 0.0)[..n] == Deviations(xs[..n], 0.0);
      TermExpands(ws[n], xs[n], m, Mean(ws[..n], Deviations(xs[..n], m)), Mean(ws[..n], Deviations(xs[..n], 0.0)),
                  Mean(ws[..n], xs[..n]), Weight(ws[..n]));
    } else {
      TermZero(2.0 * m);
      TermZero(Square(m));
    }
  }

  lemma TermZero(c: real)
    ensures Term(c, 0.0) == 0.0
  {}

  lemma TermExpands(w: real, x: real, m: real, d: real, e: real, a: real, u: real)
    requires d == e - Term(2.0 * m, a) + Term(Square(m), u)
    ensures d + Term(w, Square(x - m)) ==
            (e + Term(w, Square(x - 0.0))) - Term(2.0 * m, a + Term(w, x)) + Term(Square(m), u + w)
  {}

  /** Expected utility splits into the mean and the penalty. */
  lemma {:induction false} UtilitySplits(ws: seq<real>, xs: seq<real>, target: real, c: real)
    requires |ws| == |xs|
    ensures Mean(ws, Utilities(target, c, xs)) ==
            Mean(ws, xs) - Term(c, Mean(ws, Deviations(RealShortages(target, xs), 0.0)))
  {
    hide Square, MaxReal, Term, PointUtility;
    if |ws| > 0 {
      var n := |ws| - 1;
      UtilitySplits(ws[..n], xs[..n], target, c);
      var shs := RealShortages(target, xs);
      assert Utilities(target, c, xs)[..n] == Utilities(target, c, xs[..n]);
      assert RealShortages(target, xs[..n]) == shs[..n];
      assert Deviations(shs, 0.0)[..n] == Deviations(shs[..n], 0.0);
      PenaltyCollects(ws[n], xs[n], c, target, Mean(ws[..n], xs[..n]), Mean(ws[..n], Deviations(shs[..n], 0.0)));
    } else {
      TermZero(c);
    }
  }

  lemma PenaltyCollects(w: real, x: real, c: real, target: real, a: real, rest: real)
    ensures var d := MaxReal(target - x, 0.0);
            a - Term(c, rest) + Term(w, PointUtility(target, c, x)) ==
            (a + Term(w, x)) - Term(c, rest + Term(w, Square(d - 0.0)))
  {
    var q := Square(MaxReal(target - x, 0.0));
    assert w * (c * q) == c * (w * q);
  }

  lemma SquareRefines(x: int, v: real)
    requires v * S == x as real
    ensures Square(v - 0.0) * (S * S) == (x * x) as real
  {
    TermRefines(x as real, x as real, v, v, S, S);
    assert (x * x) as real == x as real * x as real;
  }

  lemma ShortageRefines(target: int, x: int)
    ensures MaxReal(Units(target) - Units(x), 0.0) * S == Max(target - x, 0) as real
  {
    assert (Units(target) - Units(x)) * S == (target - x) as real;
  }

  lemma Cancel(a: real, b: real, k: real)
    requires k > 0.0 && a * k == b * k
    ensures a == b
  {
    assert (a - b) * k == 0.0;
  }

  /** A simplex of tick weights is a rational simplex. */
  lemma UnitWeight(p: Problem)
    requires Valid(p)
    ensures Weight(AllUnits(Probabilities(p.scenarios))) == 1.0
  {
    WeightIsTally(Probabilities(p.scenarios));
    Cancel(Weight(AllUnits(Probabilities(p.scenarios))), 1.0, S);
  }

  lemma MeanRefines(ps: seq<int>, xs: seq<int>)
    requires |ps| == |xs|
    ensures Mean(AllUnits(ps), AllUnits(xs)) * (S * S) == Dot(ps, xs) as real
    ensures Mean(AllUnits(ps), AllUnits(xs)) == Units24(Dot(ps, xs))
  {
    hide Mean, Dot;
    DotRefines(ps, xs, AllUnits(ps), AllUnits(xs), S, S);
    Cancel(Mean(AllUnits(ps), AllUnits(xs)), Units24(Dot(ps, xs)), S * S);
  }

  lemma SecondRefines(ps: seq<int>, xs: seq<int>, vs: seq<real>)
    requires |ps| == |xs| == |vs| && forall i :: 0 <= i < |xs| ==> vs[i] * S == xs[i] as real
    ensures Mean(AllUnits(ps), Deviations(vs, 0.0)) * (S * (S * S)) == Dot(ps, Squares(xs)) as real
  {
    hide Mean, Dot, Square;
    forall i | 0 <= i < |xs| ensures Deviations(vs, 0.0)[i] * (S * S) == Squares(xs)[i] as real {
      SquareRefines(xs[i], vs[i]);
    }
    DotRefines(ps, Squares(xs), AllUnits(ps), Deviations(vs, 0.0), S, S * S);
  }

  /** S * second - net^2 is the scaled sum of squared deviations from the mean. */
  lemma VarianceScales(second: int, net: int, e2: real, m: real, v: real)
    requires e2 * (S * (S * S)) == second as real && m * (S * S) == net as real
    requires v == e2 - Term(2.0 * m, m) + Term(Square(m), 1.0)
    ensures Units48(second * SCALE - net * net) == v
  {
    assert v == e2 - m * m;
    assert (m * m) * (S * S * S * S) == (m * (S * S)) * (m * (S * S));
    assert (net * net) as real == net as real * net as real;
    assert (second * SCALE - net * net) as real == second as real * S - net as real * net as real;
    Cancel(Units48(second * SCALE - net * net), v, S * S * S * S);
  }

  lemma VarianceAgrees(ps: seq<int>, xs: seq<int>)
    requires |ps| == |xs| && Weight(AllUnits(ps)) == 1.0
    ensures var m := Mean(AllUnits(ps), AllUnits(xs));
            Units48(Dot(ps, Squares(xs)) * SCALE - Dot(ps, xs) * Dot(ps, xs)) ==
            Mean(AllUnits(ps), Deviations(AllUnits(xs), m))
  {
    hide Mean, Dot, Square, Weight, Term;
    var ws, vs := AllUnits(ps), AllUnits(xs);
    var m := Mean(ws, vs);
    MeanRefines(ps, xs);
    SecondRefines(ps, xs, vs);
    DeviationsExpand(ws, vs, m);
    VarianceScales(Dot(ps, Squares(xs)), Dot(ps, xs), Mean(ws, Deviations(vs, 0.0)), m, Mean(ws, Deviations(vs, m)));
  }

  lemma UtilityScales(net: int, sq: int, c: int, m: real, e: real, cv: real)
    requires m * (S * S) == net as real && e * (S * (S * S)) == sq as real && cv * S == c as real
    ensures Units48(Penalised(net, sq, c)) == m - Term(cv, e)
  {
    assert (cv * e) * (S * S * S * S) == (cv * S) * (e * (S * (S * S)));
    assert (c * sq) as real == c as real * sq as real;
    assert (net * SCALE * SCALE) as real == net as real * S * S;
    Cancel(Units48(Penalised(net, sq, c)), m - cv * e, S * S * S * S);
  }

  lemma ShortagesRefine(target: int, ns: seq<int>)
    ensures AllUnits(Shortages(target, ns)) == RealShortages(Units(target), AllUnits(ns))
    ensures forall i :: 0 <= i < |ns| ==>
              RealShortages(Units(target), AllUnits(ns))[i] * S == Shortages(target, ns)[i] as real
  {
    forall i | 0 <= i < |ns|
      ensures AllUnits(Shortages(target, ns))[i] == RealShortages(Units(target), AllUnits(ns))[i]
    {
      ShortageRefines(target, ns[i]);
      Cancel(Units(Max(target - ns[i], 0)), MaxReal(Units(target) - Units(ns[i]), 0.0), S);
    }
    forall i | 0 <= i < |ns|
      ensures RealShortages(Units(target), AllUnits(ns))[i] * S == Shortages(target, ns)[i] as real
    {
      ShortageRefines(target, ns[i]);
    }
  }

  lemma UtilityAgrees(ps: seq<int>, ns: seq<int>, target: int, c: int, cv: real)
    requires |ps| == |ns| && cv * S == c as real
    ensures Units48(Penalised(Dot(ps, ns), Dot(ps, Squares(Shortages(target, ns))), c)) ==
            Mean(AllUnits(ps), Utilities(Units(target), cv, AllUnits(ns)))
  {
    hide Mean, Dot, PointUtility, Penalised, Term, Squares, Deviations, Utilities, AllUnits;
    var ws, vs := AllUnits(ps), AllUnits(ns);
    ShortagesRefine(target, ns);
    MeanRefines(ps, ns);
    SecondRefines(ps, Shortages(target, ns), RealShortages(Units(target), vs));
    UtilitySplits(ws, vs, Units(target), cv);
    UtilityScales(Dot(ps, ns), Dot(ps, Squares(Shortages(target, ns))), c, Mean(ws, vs),
                  Mean(ws, Deviations(RealShortages(Units(target), vs), 0.0)), cv);
  }

  lemma UnitsAdd(x: int, y: int)
    ensures Units(x) + Units(y) == Units(x + y) && Units(x) - Units(y) == Units(x - y)
  {}

  /** The integer ticks denote the reference's inputs. */
  lemma ReferenceTicks(p: Problem, a: Action)
    requires ValidAction(p, a)
    ensures ReferenceWeights(p) == AllUnits(Probabilities(p.scenarios))
    ensures ReferenceGross(p, a) == AllUnits(Gross(p, a)) && ReferenceNets(p, a) == AllUnits(Nets(p, a))
    ensures ReferenceOutcomes(p, a) == Outcomes(p, Nets(p, a))
  {
    hide Units;
    forall i | 0 <= i < |p.scenarios|
      ensures ReferenceNets(p, a)[i] == AllUnits(Nets(p, a))[i]
      ensures ReferenceOutcomes(p, a)[i] == Outcomes(p, Nets(p, a))[i]
    {
      assert p.scenarios[i].id in Ids(p.scenarios);
      UnitsAdd(a.gross[p.scenarios[i].id], a.fee);
      UnitsAdd(p.balance, Nets(p, a)[i]);
    }
  }

  /** For any number of scenarios the integer forecast is the rational one, field by field. */
  lemma ExactIsReference(p: Problem, a: Action)
    requires Valid(p) && ValidAction(p, a)
    ensures Exact(p, a) == Reference(p, a)
  {
    hide Mean, Dot, Square, Weight, PointUtility;
    ReferenceTicks(p, a);
    hide ReferenceWeights, ReferenceGross, ReferenceNets, ReferenceOutcomes;
    var ps, ns := Probabilities(p.scenarios), Nets(p, a);
    UnitWeight(p);
    MeanRefines(ps, Gross(p, a));
    MeanRefines(ps, ns);
    MeanRefines(ps, Shortages(p.risk.target, ns));
    ShortagesRefine(p.risk.target, ns);
    VarianceAgrees(ps, ns);
    UtilityAgrees(ps, ns, p.risk.target, if p.coefficient.Some? then p.coefficient.value else 0,
                  if p.coefficient.Some? then Units(p.coefficient.value) else 0.0);
  }
}
