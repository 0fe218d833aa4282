/** The conservative no-action certificate, and what it guarantees for every weighting on the declared support. */
module AllocationCertificate {
  import opened Basics
  import opened Ordering
  import opened AllocationModel
  import opened AllocationMoments
  import opened AllocationForecasts

  /** Scenario i may carry weight. */
  predicate Possible(p: Problem, i: nat)
    requires i < |p.scenarios|
  {
    p.scenarios[i].bounds.Some? && p.scenarios[i].bounds.value.upper > 0
  }

  /** The nets of the scenarios that may carry weight. */
  function PossibleNets(p: Problem, nets: seq<int>): seq<int>
    requires |nets| <= |p.scenarios|
  {
    if |nets| == 0 then []
    else PossibleNets(p, nets[..|nets| - 1]) + if Possible(p, |nets| - 1) then [nets[|nets| - 1]] else []
  }

  function Largest(xs: seq<int>): (m: int)
    requires |xs| > 0
    ensures m in xs && forall x :: x in xs ==> x <= m
  {
    assert xs == xs[..|xs| - 1] + [xs[|xs| - 1]];
    if |xs| == 1 then xs[0] else Max(xs[|xs| - 1], Largest(xs[..|xs| - 1]))
  }

  function Smallest(xs: seq<int>): (m: int)
    requires |xs| > 0
    ensures m in xs && forall x :: x in xs ==> m <= x
  {
    assert xs == xs[..|xs| - 1] + [xs[|xs| - 1]];
    if |xs| == 1 then xs[0]
    else var m := Smallest(xs[..|xs| - 1]); if xs[|xs| - 1] < m then xs[|xs| - 1] else m
  }

  lemma {:induction false} PossibleNetsHold(p: Problem, nets: seq<int>, i: nat)
    requires i < |nets| <= |p.scenarios| && Possible(p, i)
    ensures nets[i] in PossibleNets(p, nets)
  {
    if i < |nets| - 1 { PossibleNetsHold(p, nets[..|nets| - 1], i); }
  }

  lemma {:induction false} PossibleNetsFrom(p: Problem, nets: seq<int>, x: int)
    requires |nets| <= |p.scenarios| && x in PossibleNets(p, nets)
    ensures exists i :: 0 <= i < |nets| && Possible(p, i) && nets[i] == x
  {
    var n := |nets| - 1;
    if x in PossibleNets(p, nets[..n]) {
      PossibleNetsFrom(p, nets[..n], x);
      var i :| 0 <= i < n && Possible(p, i) && nets[..n][i] == x;
      assert nets[i] == x;
    } else {
      assert Possible(p, n) && nets[n] == x;
    }
  }

  /** The certificate over the payoffs of the no-action row; row is that row's evaluation. */
  predicate Certified(p: Problem, a: Action, row: Evaluation)
    requires ValidAction(p, a) && row == Evaluate(p, a)
    requires p.kind == Estimated ==> PossibleNets(p, Nets(p, a)) != []
  {
    && a.id == p.noAction
    && (if p.kind == Assumed then row.feasible
        else
          var nets := PossibleNets(p, Nets(p, a));
          var spread := Largest(nets) - Smallest(nets);
          var worst := Max(p.risk.target - Smallest(nets), 0);
          && CapitalConstraint !in row.reasons && ResourceConstraint !in row.reasons
          && (p.risk.maxVariance.Some? ==> Units24(spread * spread) <= p.risk.maxVariance.value)
          && (p.risk.maxShortfall.Some? ==> Units(worst) <= Units(p.risk.maxShortfall.value))
          && (p.risk.floor.Some? ==>
                forall i :: 0 <= i < |p.scenarios| && Possible(p, i) ==>
                  Units(p.balance + Nets(p, a)[i]) >= Units(p.risk.floor.value)))
  }

  /** A normalised weighting that puts weight only where the declared upper bound is positive. */
  ghost predicate Weighting(p: Problem, ws: seq<real>) {
    && |ws| == |p.scenarios| && Weight(ws) == 1.0
    && (forall i :: 0 <= i < |ws| ==> ws[i] >= 0.0)
    && (forall i :: 0 <= i < |ws| && ws[i] > 0.0 ==>
          p.scenarios[i].bounds.Some? && p.scenarios[i].bounds.value.upper > 0)
  }

  /** The action meets every declared limit when the scenarios carry the weights ws. */
  ghost predicate SafeUnder(p: Problem, a: Action, ws: seq<real>)
    requires ValidAction(p, a) && |ws| == |p.scenarios|
  {
    var xs := ReferenceNets(p, a);
    && a.capital <= p.balance
    && (forall k :: k in a.resourceUse && k in p.capacities ==> a.resourceUse[k] <= p.capacities[k])
    && (p.risk.maxVariance.Some? ==> Mean(ws, Deviations(xs, Mean(ws, xs))) <= p.risk.maxVariance.value)
    && (p.risk.maxShortfall.Some? ==>
          Mean(ws, RealShortages(Units(p.risk.target), xs)) <= Units(p.risk.maxShortfall.value))
    && (p.risk.floor.Some? ==>
          forall i :: 0 <= i < |ws| && ws[i] > 0.0 ==> Units(p.balance) + xs[i] >= Units(p.risk.floor.value))
  }

  lemma {:induction false} MeanBetween(ws: seq<real>, xs: seq<real>, lo: real, hi: real)
    requires |ws| == |xs|
    requires forall i :: 0 <= i < |ws| ==> ws[i] >= 0.0 && (ws[i] > 0.0 ==> lo <= xs[i] <= hi)
    ensures lo * Weight(ws) <= Mean(ws, xs) <= hi * Weight(ws)
  {
    hide Term;
    if |ws| > 0 {
      var n := |ws| - 1;
      MeanBetween(ws[..n], xs[..n], lo, hi);
      TermBetween(ws[n], xs[n], lo, hi, Weight(ws[..n]));
    }
  }

  lemma ReferenceNetTerms(p: Problem, a: Action)
    requires ValidAction(p, a)
    ensures ReferenceNets(p, a) == AllUnits(Nets(p, a))
    ensures forall i :: 0 <= i < |p.scenarios| ==>
              Units(p.balance) + ReferenceNets(p, a)[i] == Units(p.balance + Nets(p, a)[i])
  {
    ReferenceTicks(p, a);
    hide ReferenceNets;
    forall i | 0 <= i < |p.scenarios|
      ensures Units(p.balance) + AllUnits(Nets(p, a))[i] == Units(p.balance + Nets(p, a)[i])
    {
      UnitsAdd(p.balance, Nets(p, a)[i]);
    }
  }

  lemma TermBetween(w: real, x: real, lo: real, hi: real, rest: real)
    requires w >= 0.0 && (w > 0.0 ==> lo <= x <= hi)
    ensures lo * (rest + w) <= lo * rest + Term(w, x) && hi * rest + Term(w, x) <= hi * (rest + w)
  {
    if w == 0.0 { assert Term(w, x) == 0.0; } else { assert w * lo <= w * x <= w * hi; }
  }

  lemma SquareWithin(x: real, m: real, lo: real, hi: real)
    requires lo <= x <= hi && lo <= m <= hi
    ensures Square(x - m) <= Square(hi - lo)
  {
    var d, s := x - m, hi - lo;
    assert -s <= d <= s;
    if d >= 0.0 { assert d * d <= s * d <= s * s; } else { assert (-d) * (-d) <= s * (-d) <= s * s; }
  }

  /** Variance is at most the squared spread of the values that carry weight. */
  lemma VarianceWithinSpread(ws: seq<real>, xs: seq<real>, lo: real, hi: real)
    requires |ws| == |xs| && Weight(ws) == 1.0
    requires forall i :: 0 <= i < |ws| ==> ws[i] >= 0.0 && (ws[i] > 0.0 ==> lo <= xs[i] <= hi)
    ensures Mean(ws, Deviations(xs, Mean(ws, xs))) <= Square(hi - lo)
  {
    hide Mean, Weight, Square;
    MeanBetween(ws, xs, lo, hi);
    var m := Mean(ws, xs);
    forall i | 0 <= i < |ws|
      ensures ws[i] > 0.0 ==> 0.0 <= Deviations(xs, m)[i] <= Square(hi - lo)
    {
      SquareNonnegative(xs[i] - m);
      if ws[i] > 0.0 { SquareWithin(xs[i], m, lo, hi); }
    }
    MeanBetween(ws, Deviations(xs, m), 0.0, Square(hi - lo));
  }

  lemma SpreadUnits(hi: int, lo: int)
    ensures Square(Units(hi) - Units(lo)) == Units24((hi - lo) * (hi - lo))
  {
    assert Units(hi) - Units(lo) == Units(hi - lo);
    SquareRefines(hi - lo, Units(hi - lo));
    assert Square(Units(hi - lo) - 0.0) == Square(Units(hi) - Units(lo));
    Cancel(Square(Units(hi) - Units(lo)), Units24((hi - lo) * (hi - lo)), S * S);
  }

  lemma ShortageUnits(target: int, lo: int, x: int)
    requires lo <= x
    ensures 0.0 <= MaxReal(Units(target) - Units(x), 0.0) <= Units(Max(target - lo, 0))
  {}

  /** An accepted no-action row is safe for every weighting on the support. */
  lemma CertificateIsSafe(p: Problem, a: Action, ws: seq<real>)
    requires Valid(p) && ValidAction(p, a) && p.kind == Estimated && Weighting(p, ws)
    requires PossibleNets(p, Nets(p, a)) != [] && Certified(p, a, Evaluate(p, a))
    ensures SafeUnder(p, a, ws)
  {
    hide Evaluate, Mean, Weight, Units, Units24, Square, PossibleNets, Largest, Smallest, Valid;
    ReferenceNetTerms(p, a);
    hide ReferenceNets;
    var nets, xs := PossibleNets(p, Nets(p, a)), AllUnits(Nets(p, a));
    var lo, hi := Smallest(nets), Largest(nets);
    CapitalReasons(p, a);
    forall i | 0 <= i < |ws|
      ensures ws[i] > 0.0 ==> Units(lo) <= xs[i] <= Units(hi) && lo <= Nets(p, a)[i]
    {
      if ws[i] > 0.0 { PossibleNetsHold(p, Nets(p, a), i); UnitsOrder(lo, Nets(p, a)[i]); UnitsOrder(Nets(p, a)[i], hi); }
    }
    CertifiedRisk(p, a, ws, lo, hi);
  }

  lemma CapitalReasons(p: Problem, a: Action)
    requires ValidAction(p, a)
    ensures CapitalConstraint in Evaluate(p, a).reasons <==> a.capital > p.balance
    ensures ResourceConstraint in Evaluate(p, a).reasons <==> Overcommitted(p, a)
  {
    hide Exact, BelowFloor, Overcommitted, Support, ValidAction;
  }

  lemma CertifiedRisk(p: Problem, a: Action, ws: seq<real>, lo: int, hi: int)
    requires ValidAction(p, a) && |ws| == |p.scenarios| && Weight(ws) == 1.0
    requires forall i :: 0 <= i < |ws| ==> ws[i] >= 0.0
    requires forall i :: 0 <= i < |ws| ==>
               (ws[i] > 0.0 ==> Units(lo) <= AllUnits(Nets(p, a))[i] <= Units(hi) && lo <= Nets(p, a)[i])
    ensures var xs := AllUnits(Nets(p, a));
            && Mean(ws, Deviations(xs, Mean(ws, xs))) <= Units24((hi - lo) * (hi - lo))
            && Mean(ws, RealShortages(Units(p.risk.target), xs)) <= Units(Max(p.risk.target - lo, 0))
  {
    hide Mean, Weight, Square, Units, Units24;
    var xs := AllUnits(Nets(p, a));
    VarianceWithinSpread(ws, xs, Units(lo), Units(hi));
    SpreadUnits(hi, lo);
    var worst := Units(Max(p.risk.target - lo, 0));
    forall i | 0 <= i < |ws| ensures ws[i] > 0.0 ==> 0.0 <= RealShortages(Units(p.risk.target), xs)[i] <= worst {
      if ws[i] > 0.0 { ShortageUnits(p.risk.target, lo, Nets(p, a)[i]); }
    }
    MeanBetween(ws, RealShortages(Units(p.risk.target), xs), 0.0, worst);
  }

  lemma {:induction false} PositiveExists(ps: seq<int>)
    requires Tally(ps) > 0
    ensures exists i :: 0 <= i < |ps| && ps[i] > 0
  {
    var n := |ps| - 1;
    if ps[n] <= 0 {
      PositiveExists(ps[..n]);
      var i :| 0 <= i < n && ps[..n][i] > 0;
      assert ps[i] > 0;
    }
  }

  /** The declared point weights are one such weighting, and the support is never empty, so the
      certificate's extremes exist. */
  lemma DeclaredWeightsSupported(p: Problem)
    requires Valid(p) && p.kind == Estimated
    ensures Weighting(p, AllUnits(Probabilities(p.scenarios)))
    ensures exists i :: 0 <= i < |p.scenarios| && Possible(p, i)
    ensures forall a :: ValidAction(p, a) ==> PossibleNets(p, Nets(p, a)) != []
  {
    hide Weight, Tally;
    var ps := Probabilities(p.scenarios);
    UnitWeight(p);
    forall i | 0 <= i < |ps| ensures AllUnits(ps)[i] >= 0.0 && (AllUnits(ps)[i] > 0.0 ==> Possible(p, i)) {
      assert ValidScenario(p.scenarios[i], p.kind);
    }
    PositiveExists(ps);
    var i :| 0 <= i < |ps| && ps[i] > 0;
    assert ValidScenario(p.scenarios[i], p.kind) && Possible(p, i);
    forall a | ValidAction(p, a) ensures PossibleNets(p, Nets(p, a)) != [] { PossibleNetsHold(p, Nets(p, a), i); }
  }

  /** All weight on scenario i. */
  function PointMass(n: nat, i: nat): seq<real> { seq(n, k => if k == i then 1.0 else 0.0) }

  lemma {:induction false} PointMassMean(n: nat, i: nat, xs: seq<real>)
    requires |xs| == n
    ensures Weight(PointMass(n, i)) == if i < n then 1.0 else 0.0
    ensures Mean(PointMass(n, i), xs) == if i < n then xs[i] else 0.0
  {
    if n > 0 {
      assert PointMass(n, i)[..n - 1] == PointMass(n - 1, i);
      PointMassMean(n - 1, i, xs[..n - 1]);
    }
  }

  lemma PointShortfall(p: Problem, a: Action, i: nat)
    requires ValidAction(p, a) && i < |p.scenarios|
    ensures Mean(PointMass(|p.scenarios|, i), RealShortages(Units(p.risk.target), AllUnits(Nets(p, a)))) ==
            Units(Max(p.risk.target - Nets(p, a)[i], 0))
  {
    hide Mean, Weight, Nets;
    var xs := AllUnits(Nets(p, a));
    PointMassMean(|p.scenarios|, i, RealShortages(Units(p.risk.target), xs));
    ShortageRefines(p.risk.target, Nets(p, a)[i]);
    Cancel(Units(Max(p.risk.target - Nets(p, a)[i], 0)), MaxReal(Units(p.risk.target) - xs[i], 0.0), S);
  }

  /** Apart from the loose variance bound the certificate is exact: if every point mass on the support is
      safe and no variance ceiling is declared, the no-action row is certified. */
  lemma CertificateIsTight(p: Problem, a: Action)
    requires Valid(p) && ValidAction(p, a) && p.kind == Estimated && a.id == p.noAction
    requires p.risk.maxVariance.None? && PossibleNets(p, Nets(p, a)) != []
    requires forall i :: 0 <= i < |p.scenarios| && Possible(p, i) ==> SafeUnder(p, a, PointMass(|p.scenarios|, i))
    ensures Certified(p, a, Evaluate(p, a))
  {
    hide Evaluate, Mean, Weight, Square, Units, PossibleNets, Largest, Smallest, Valid;
    ReferenceNetTerms(p, a);
    hide ReferenceNets;
    var n := |p.scenarios|;
    var nets, xs := PossibleNets(p, Nets(p, a)), AllUnits(Nets(p, a));
    CapitalReasons(p, a);
    PossibleNetsFrom(p, Nets(p, a), Smallest(nets));
    var i :| 0 <= i < n && Possible(p, i) && Nets(p, a)[i] == Smallest(nets);
    assert SafeUnder(p, a, PointMass(n, i));
    PointShortfall(p, a, i);
    hide RealShortages, Max;
    forall k | 0 <= k < n && Possible(p, k)
      ensures p.risk.floor.Some? ==> Units(p.balance + Nets(p, a)[k]) >= Units(p.risk.floor.value)
    {
      assert SafeUnder(p, a, PointMass(n, k)) && PointMass(n, k)[k] > 0.0;
    }
  }
}
