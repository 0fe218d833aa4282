/** Bounded, resumable enumeration of the declared actions, and what every published result satisfies. */
module AllocationSolver {
  import opened Basics
  import opened Ordering
  import opened AllocationModel
  import opened AllocationMoments
  import opened AllocationForecasts
  import opened AllocationCertificate
  import opened AllocationChoice

  datatype Termination = EnumerationComplete | WorkLimit | DeadlinePassed | CancelRequested | Interrupted | MemoryLimit

  /** What one poll observes: nothing, an elapsed deadline, a cancellation, or a keyboard interrupt. */
  datatype Signal = Clear | Late | Cancel | Break

  function Stop(s: Signal): Option<Termination> {
    match s
    case Clear => None
    case Late => Some(DeadlinePassed)
    case Cancel => Some(CancelRequested)
    case Break => Some(Interrupted)
  }

  /** The shared work counter; signals are the observations of its coming polls, and no signal is clear. */
  class WorkCounter {
    const maxWork: nat
    var used: nat
    var signals: seq<Signal>

    constructor (maxWork: nat, signals: seq<Signal>)
      ensures this.maxWork == maxWork && used == 0 && this.signals == signals
    {
      this.maxWork, used, this.signals := maxWork, 0, signals;
    }

    method Poll() returns (stop: Option<Termination>)
      modifies this`signals
      ensures old(signals) == [] ==> stop == None && signals == []
      ensures old(signals) != [] ==> stop == Stop(old(signals)[0]) && signals == old(signals)[1..]
      ensures stop.Some? ==> stop.value in {DeadlinePassed, CancelRequested, Interrupted}
    {
      stop := None;
      if signals != [] {
        stop := Stop(signals[0]);
        signals := signals[1..];
      }
    }

    /** Consumes one unit of work, or refuses without consuming it. */
    method Step() returns (stop: Option<Termination>)
      modifies this
      ensures stop == None ==> used == old(used) + 1 <= maxWork
      ensures stop != None ==> used == old(used)
      ensures stop == Some(WorkLimit) ==> used >= maxWork
      ensures stop.Some? ==> stop.value in {WorkLimit, DeadlinePassed, CancelRequested, Interrupted}
      ensures old(signals) == [] ==> signals == [] && (stop == None || stop == Some(WorkLimit))
    {
      stop := Poll();
      if stop == None {
        if used >= maxWork { stop := Some(WorkLimit); } else { used := used + 1; }
      }
    }
  }

  lemma DotPush(ps: seq<int>, xs: seq<int>, p: int, x: int)
    requires |ps| == |xs|
    ensures Dot(ps + [p], xs + [x]) == Dot(ps, xs) + p * x
  {
    assert (ps + [p])[..|ps|] == ps && (xs + [x])[..|xs|] == xs;
  }

  lemma NumeratorsPush(target: int, ps: seq<int>, gs: seq<int>, ns: seq<int>, p: int, g: int, n: int)
    requires |ps| == |gs| == |ns|
    ensures var m := NumeratorsOf(ps, gs, ns, Shortages(target, ns)); var d := Max(target - n, 0);
            NumeratorsOf(ps + [p], gs + [g], ns + [n], Shortages(target, ns + [n])) ==
            Numerators(m.gross + p * g, m.net + p * n, m.second + p * (n * n), m.shortfall + p * d,
                       m.shortfallSquare + p * (d * d))
  {
    hide Dot, Max;
    var d := Max(target - n, 0);
    assert Shortages(target, ns + [n]) == Shortages(target, ns) + [d];
    assert Squares(ns + [n]) == Squares(ns) + [n * n];
    assert Squares(Shortages(target, ns) + [d]) == Squares(Shortages(target, ns)) + [d * d];
    DotPush(ps, gs, p, g);
    DotPush(ps, ns, p, n);
    DotPush(ps, Squares(ns), p, n * n);
    DotPush(ps, Shortages(target, ns), p, d);
    DotPush(ps, Squares(Shortages(target, ns)), p, d * d);
  }

  /** The running integer numerators of one forecast, with the scenarios seen so far. */
  class Moments {
    var gross: int
    var net: int
    var second: int
    var shortfall: int
    var shortfallSquare: int
    ghost var probabilities: seq<int>
    ghost var grosses: seq<int>
    ghost var nets: seq<int>

    constructor (target: int)
      ensures Accounts(target) && probabilities == grosses == nets == []
    {
      gross, net, second, shortfall, shortfallSquare := 0, 0, 0, 0, 0;
      probabilities, grosses, nets := [], [], [];
    }

    function Value(): Numerators
      reads this
    {
      Numerators(gross, net, second, shortfall, shortfallSquare)
    }

    /** The numerators are the weighted sums over everything seen. */
    ghost predicate Accounts(target: int)
      reads this
    {
      && |probabilities| == |grosses| == |nets|
      && Value() == NumeratorsOf(probabilities, grosses, nets, Shortages(target, nets))
    }

    /** Accumulates one joint outcome and keeps its signed net: the numerators stay the weighted sums over all
        scenarios seen, now with this one. */
    method Add(p: Problem, s: Scenario, grossValue: int, fee: int) returns (row: Outcome)
      requires Accounts(p.risk.target)
      modifies this
      ensures Accounts(p.risk.target)
      ensures probabilities == old(probabilities) + [s.probability]
      ensures grosses == old(grosses) + [grossValue] && nets == old(nets) + [grossValue - fee]
      ensures row == Outcome(s.id, Units(grossValue - fee), Units(p.balance + (grossValue - fee)))
    {
      hide Dot, Max, Squares, Shortages;
      var probability := s.probability;
      var value := grossValue - fee;
      var shortage := Max(p.risk.target - value, 0);
      NumeratorsPush(p.risk.target, probabilities, grosses, nets, probability, grossValue, value);
      gross := gross + probability * grossValue;
      net := net + probability * value;
      second := second + probability * (value * value);
      shortfall := shortfall + probability * shortage;
      shortfallSquare := shortfallSquare + probability * (shortage * shortage);
      probabilities, grosses, nets := probabilities + [probability], grosses + [grossValue], nets + [value];
      row := Outcome(s.id, Units(value), Units(p.balance + value));
    }
  }

  /** The production pass: every scenario is polled for and accumulated once. A stop yields no forecast. */
  method ForecastAction(p: Problem, a: Action, counter: WorkCounter)
    returns (f: Option<Forecast>, stop: Option<Termination>)
    requires Valid(p) && ValidAction(p, a)
    modifies counter`signals
    ensures f.Some? <==> stop.None?
    ensures f.Some? ==> f.value == Exact(p, a) && f.value == Reference(p, a)
    ensures stop.Some? ==> stop.value in {DeadlinePassed, CancelRequested, Interrupted}
    ensures old(counter.signals) == [] ==> counter.signals == [] && stop.None?
  {
    hide Dot, Reference, Squares, Exact, Valid, ValidAction;
    AllGross(p, a);
    ghost var ps, gs, ns := Probabilities(p.scenarios), Gross(p, a), Nets(p, a);
    var moments := new Moments(p.risk.target);
    var rows: seq<Outcome> := [];
    var i := 0;
    while i < |p.scenarios|
      invariant 0 <= i <= |p.scenarios|
      invariant moments.Accounts(p.risk.target)
      invariant moments.probabilities == ps[..i] && moments.grosses == gs[..i] && moments.nets == ns[..i]
      invariant rows == Outcomes(p, ns)[..i]
      invariant old(counter.signals) == [] ==> counter.signals == []
    {
      stop := counter.Poll();
      if stop.Some? { return None, stop; }
      var row := moments.Add(p, p.scenarios[i], a.gross[p.scenarios[i].id], a.fee);
      rows := rows + [row];
      i := i + 1;
    }
    assert ps[..|ps|] == ps && gs[..|gs|] == gs && ns[..|ns|] == ns;
    var variance := moments.second * SCALE - moments.net * moments.net;
    var utility := moments.net * SCALE * SCALE;
    if p.coefficient.Some? { utility := utility - p.coefficient.value * moments.shortfallSquare; }
    f := Some(Forecast(a.id, rows, Units24(moments.gross), Units24(moments.net), Units48(variance),
                       Units24(moments.shortfall), Units48(utility)));
    stop := None;
    ExactFrom(p, a, moments.Value(), rows, utility);
    ExactIsReference(p, a);
  }

  lemma AllGross(p: Problem, a: Action)
    requires ValidAction(p, a)
    ensures forall i :: 0 <= i < |p.scenarios| ==> p.scenarios[i].id in a.gross
    ensures forall i :: 0 <= i < |p.scenarios| ==> Gross(p, a)[i] == a.gross[p.scenarios[i].id]
    ensures forall i :: 0 <= i < |p.scenarios| ==> Nets(p, a)[i] == Gross(p, a)[i] - a.fee
  {
    forall i | 0 <= i < |p.scenarios| ensures p.scenarios[i].id in a.gross { assert p.scenarios[i].id in Ids(p.scenarios); }
  }

  lemma ExactFrom(p: Problem, a: Action, m: Numerators, rows: seq<Outcome>, utility: int)
    requires ValidAction(p, a) && rows == Outcomes(p, Nets(p, a))[..|p.scenarios|]
    requires var ns := Nets(p, a);
             m == NumeratorsOf(Probabilities(p.scenarios), Gross(p, a), ns, Shortages(p.risk.target, ns))
    requires utility == m.net * SCALE * SCALE - (if p.coefficient.Some? then p.coefficient.value * m.shortfallSquare else 0)
    ensures Exact(p, a) == Forecast(a.id, rows, Units24(m.gross), Units24(m.net),
                                    Units48(m.second * SCALE - m.net * m.net), Units24(m.shortfall), Units48(utility))
  {
    hide Dot;
    assert Outcomes(p, Nets(p, a))[..|p.scenarios|] == Outcomes(p, Nets(p, a));
  }

  /** The independent checks, appended in their fixed order. Given the action's forecast, the reasons are the
      constraints of the rational reference that the action breaks, each once and in declared order. */
  method FeasibilityReasons(p: Problem, a: Action, f: Forecast) returns (reasons: seq<Reason>)
    ensures reasons == Reasons(p, a, f)
    ensures Valid(p) && ValidAction(p, a) && f == Exact(p, a) ==>
              InOrder(reasons) && (forall r :: r in reasons <==> Breaks(p, a, r))
              && (reasons == [] <==> ReferenceFeasible(p, a))
  {
    hide Exact, InOrder, Breaks, ReferenceFeasible, Valid, ValidAction, Overcommitted, BelowFloor;
    reasons := [];
    if a.capital > p.balance { reasons := reasons + [CapitalConstraint]; }
    assert reasons == When(a.capital > p.balance, CapitalConstraint);
    ghost var before := reasons;
    if Overcommitted(p, a) { reasons := reasons + [ResourceConstraint]; }
    assert reasons == before + When(Overcommitted(p, a), ResourceConstraint);
    before := reasons;
    if p.risk.maxVariance.Some? && f.variance > p.risk.maxVariance.value { reasons := reasons + [VarianceConstraint]; }
    assert reasons == before + When(p.risk.maxVariance.Some? && f.variance > p.risk.maxVariance.value, VarianceConstraint);
    before := reasons;
    if p.risk.maxShortfall.Some? && f.shortfall > Units(p.risk.maxShortfall.value) {
      reasons := reasons + [ShortfallConstraint];
    }
    assert reasons == before + When(p.risk.maxShortfall.Some? && f.shortfall > Units(p.risk.maxShortfall.value),
                                    ShortfallConstraint);
    before := reasons;
    if p.risk.floor.Some? && BelowFloor(f.outcomes, Support(p), p.risk.floor.value) {
      reasons := reasons + [BalanceConstraint];
    }
    assert reasons == before + When(p.risk.floor.Some? && BelowFloor(f.outcomes, Support(p), p.risk.floor.value),
                                    BalanceConstraint);
    hide When;
    assert reasons == Reasons(p, a, f);
    if Valid(p) && ValidAction(p, a) && f == Exact(p, a) { ReasonsAreBreaches(p, a); }
  }

  method EvaluateAction(p: Problem, a: Action, counter: WorkCounter)
    returns (e: Option<Evaluation>, stop: Option<Termination>)
    requires Valid(p) && ValidAction(p, a)
    modifies counter`signals
    ensures e.Some? <==> stop.None?
    ensures e.Some? ==> e.value == Evaluate(p, a)
    ensures stop.Some? ==> stop.value in {DeadlinePassed, CancelRequested, Interrupted}
    ensures old(counter.signals) == [] ==> counter.signals == [] && stop.None?
  {
    hide Reasons, Exact, Reference;
    var f;
    f, stop := ForecastAction(p, a, counter);
    if stop.Some? { return None, stop; }
    var reasons := FeasibilityReasons(p, a, f.value);
    e := Some(Evaluation(f.value, reasons == [], reasons));
  }

  // ---------------------------------------------------------------- enumeration

  function Keep(actions: seq<Action>, no: string, same: bool): seq<Action> {
    if actions == [] then []
    else Keep(actions[..|actions| - 1], no, same)
         + if (actions[|actions| - 1].id == no) == same then [actions[|actions| - 1]] else []
  }

  /** No-action first, then the canonical identities. */
  function SearchOrder(p: Problem): seq<Action> { Keep(p.actions, p.noAction, true) + Keep(p.actions, p.noAction, false) }

  lemma {:induction false} KeepMembers(actions: seq<Action>, no: string, same: bool)
    ensures forall a :: a in Keep(actions, no, same) <==> a in actions && ((a.id == no) == same)
  {
    if actions != [] {
      KeepMembers(actions[..|actions| - 1], no, same);
      assert actions == actions[..|actions| - 1] + [actions[|actions| - 1]];
    }
  }

  lemma {:induction false} KeepIncreasing(actions: seq<Action>, no: string, same: bool)
    requires Increasing(actions, ActionId)
    ensures Increasing(Keep(actions, no, same), ActionId)
  {
    if actions != [] {
      var n := |actions| - 1;
      KeepIncreasing(actions[..n], no, same);
      KeepMembers(actions[..n], no, same);
      var kept := Keep(actions[..n], no, same);
      forall i | 0 <= i < |kept| ensures LexLess(ActionId(kept[i]), ActionId(actions[n])) {
        assert kept[i] in kept;
        var k :| 0 <= k < n && actions[..n][k] == kept[i];
      }
    }
  }

  /** The search order lists every action once, sorted by (is not no-action, identity). */
  lemma SearchOrderSorted(p: Problem)
    requires Valid(p)
    ensures forall a :: a in SearchOrder(p) <==> a in p.actions
    ensures var o := SearchOrder(p);
            forall i, j :: 0 <= i < j < |o| ==>
              o[i].id != o[j].id
              && (o[j].id == p.noAction ==> o[i].id == p.noAction)
              && ((o[i].id == p.noAction) == (o[j].id == p.noAction) ==> LexLess(o[i].id, o[j].id))
  {
    hide Keep;
    var first, rest := Keep(p.actions, p.noAction, true), Keep(p.actions, p.noAction, false);
    KeepMembers(p.actions, p.noAction, true);
    KeepMembers(p.actions, p.noAction, false);
    KeepIncreasing(p.actions, p.noAction, true);
    KeepIncreasing(p.actions, p.noAction, false);
    var o := SearchOrder(p);
    forall i, j | 0 <= i < j < |o|
      ensures o[i].id != o[j].id
      ensures o[j].id == p.noAction ==> o[i].id == p.noAction
      ensures (o[i].id == p.noAction) == (o[j].id == p.noAction) ==> LexLess(o[i].id, o[j].id)
    {
      assert o[i] in (if i < |first| then first else rest) && o[j] in (if j < |first| then first else rest);
      LexTrichotomy(o[i].id, o[i].id);
      assert i < |first| && j < |first| ==> LexLess(ActionId(first[i]), ActionId(first[j]));
      assert i >= |first| ==> LexLess(ActionId(rest[i - |first|]), ActionId(rest[j - |first|]));
    }
  }

  lemma RowIdsPush(rows: seq<Evaluation>, e: Evaluation)
    ensures RowIds(rows + [e]) == RowIds(rows) + {RowId(e)}
  {
    var more := rows + [e];
    forall id ensures id in RowIds(more) <==> id in RowIds(rows) + {RowId(e)} {
      if id in RowIds(more) {
        var i :| 0 <= i < |more| && RowId(more[i]) == id;
        if i < |rows| { assert RowId(rows[i]) == id; }
      }
      if id in RowIds(rows) {
        var i :| 0 <= i < |rows| && RowId(rows[i]) == id;
        assert RowId(more[i]) == id;
      }
      if id == RowId(e) { assert RowId(more[|rows|]) == id; }
    }
  }

  lemma VerifiedPush(p: Problem, rows: seq<Evaluation>, i: nat)
    requires Valid(p) && Verified(p, rows) && i < |p.actions| && p.actions[i].id !in RowIds(rows)
    ensures Verified(p, rows + [Evaluate(p, p.actions[i])])
    ensures RowIds(rows + [Evaluate(p, p.actions[i])]) == RowIds(rows) + {p.actions[i].id}
  {
    hide Evaluate, ValidAction;
    RowIdOf(p, p.actions[i]);
    RowIdsPush(rows, Evaluate(p, p.actions[i]));
    var more := rows + [Evaluate(p, p.actions[i])];
    forall a, b | 0 <= a < b < |more| ensures RowId(more[a]) != RowId(more[b]) {
      if b == |rows| { assert RowId(rows[a]) in RowIds(rows); }
    }
    forall k | 0 <= k < |more| ensures exists i :: 0 <= i < |p.actions| && more[k] == Evaluate(p, p.actions[i]) {
      if k < |rows| {
        var m :| 0 <= m < |p.actions| && rows[k] == Evaluate(p, p.actions[m]);
        assert more[k] == Evaluate(p, p.actions[m]);
      }
    }
  }

  /** What one enumeration may report: n new rows, the work used, and why it stopped. */
  predicate Accounted(p: Problem, rows: seq<Evaluation>, added: nat, used: nat, maxWork: nat, reason: Termination) {
    && used <= maxWork && added <= used <= added + 1
    && (reason == EnumerationComplete ==> RowIds(rows) == ActionIds(p) && used == added)
    && (reason == WorkLimit ==> RowIds(rows) != ActionIds(p) && used == maxWork == added)
    && reason != MemoryLimit
  }

  /** Commits whole evaluations in search order; completed rows survive every stop. */
  method Enumerate(p: Problem, completed: seq<Evaluation>, counter: WorkCounter)
    returns (rows: seq<Evaluation>, reason: Termination)
    requires Valid(p) && Verified(p, completed) && counter.used == 0
    modifies counter
    ensures completed <= rows && Verified(p, rows)
    ensures Accounted(p, rows, |rows| - |completed|, counter.used, counter.maxWork, reason)
    ensures old(counter.signals) == [] ==> reason in {EnumerationComplete, WorkLimit}
  {
    hide Evaluate, ValidAction, Verified, SearchOrder, RowIds, ActionIds;
    var order := SearchOrder(p);
    SearchOrderSorted(p);
    var cached := RowIds(completed);
    rows := completed;
    var i := 0;
    while i < |order|
      invariant 0 <= i <= |order| && completed <= rows && Verified(p, rows)
      invariant counter.used == |rows| - |completed| <= counter.maxWork
      invariant old(counter.signals) == [] ==> counter.signals == []
      invariant cached <= RowIds(rows)
      invariant forall k :: 0 <= k < i ==> order[k].id in RowIds(rows)
      invariant forall id :: id in RowIds(rows) ==> id in cached || exists k :: 0 <= k < i && order[k].id == id
    {
      assert order[i] in p.actions;
      var m :| 0 <= m < |p.actions| && p.actions[m] == order[i];
      if order[i].id in cached {
        var stop := counter.Poll();
        if stop.Some? { return rows, stop.value; }
      } else {
        assert order[i].id !in RowIds(rows);
        ListedAction(p, m);
        var stop := counter.Step();
        if stop.Some? { return rows, stop.value; }
        var e;
        ValidAt(p, m);
        e, stop := EvaluateAction(p, order[i], counter);
        if stop.Some? { return rows, stop.value; }
        VerifiedPush(p, rows, m);
        rows := rows + [e.value];
      }
      i := i + 1;
    }
    reason := EnumerationComplete;
    EveryActionListed(p, rows, order);
    var last := counter.Poll();
    if last == Some(Interrupted) { reason := Interrupted; }
  }

  lemma ListedAction(p: Problem, i: nat)
    requires i < |p.actions|
    ensures p.actions[i].id in ActionIds(p)
  {}

  lemma ValidAt(p: Problem, i: nat)
    requires Valid(p) && i < |p.actions|
    ensures ValidAction(p, p.actions[i])
  {}

  lemma EveryActionListed(p: Problem, rows: seq<Evaluation>, order: seq<Action>)
    requires Valid(p) && Verified(p, rows)
    requires forall a :: a in order <==> a in p.actions
    requires forall k :: 0 <= k < |order| ==> order[k].id in RowIds(rows)
    ensures RowIds(rows) == ActionIds(p)
  {
    hide Evaluate, ValidAction;
    forall id ensures id in RowIds(rows) <==> id in ActionIds(p) {
      if id in RowIds(rows) {
        var k :| 0 <= k < |rows| && RowId(rows[k]) == id;
        var i :| 0 <= i < |p.actions| && rows[k] == Evaluate(p, p.actions[i]);
        RowIdOf(p, p.actions[i]);
      }
      if id in ActionIds(p) {
        var i :| 0 <= i < |p.actions| && p.actions[i].id == id;
        assert p.actions[i] in order;
        var k :| 0 <= k < |order| && order[k] == p.actions[i];
      }
    }
  }
}
