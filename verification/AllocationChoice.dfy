/** The choice among completed evaluations, and the reference optimum it must equal. */
module AllocationChoice {
  import opened Basics
  import opened Ordering
  import opened AllocationModel
  import opened AllocationMoments
  import opened AllocationForecasts
  import opened AllocationCertificate

  datatype Status = Optimal | Feasible | Infeasible | Limited | InsufficientEvidence

  datatype Why = FiniteModelOptimum | BestIncumbent | NoFeasibleAction | NoIncumbent | EstimatedWeights | PreflightRefused

  datatype Choice = Choice(selected: Option<string>, status: Status, why: Why, fallback: bool)

  function ActionIds(p: Problem): set<string> { set i | 0 <= i < |p.actions| :: p.actions[i].id }

  function RowIds(rows: seq<Evaluation>): set<string> { set i | 0 <= i < |rows| :: RowId(rows[i]) }

  /** The position of the declared action with this identity. */
  function Find(actions: seq<Action>, id: string): (r: Option<nat>)
    ensures r.Some? ==> r.value < |actions| && actions[r.value].id == id
    ensures r.None? ==> forall i :: 0 <= i < |actions| ==> actions[i].id != id
  {
    if actions == [] then None
    else if actions[|actions| - 1].id == id then Some(|actions| - 1)
    else Find(actions[..|actions| - 1], id)
  }

  /** Every row is the evaluation of a declared action, and no action appears twice. */
  ghost predicate Verified(p: Problem, rows: seq<Evaluation>)
    requires Valid(p)
  {
    && DistinctKeys(rows, RowId)
    && forall k :: 0 <= k < |rows| ==> exists i :: 0 <= i < |p.actions| && rows[k] == Evaluate(p, p.actions[i])
  }

  function FeasibleRows(rows: seq<Evaluation>): seq<Evaluation> {
    if rows == [] then []
    else FeasibleRows(rows[..|rows| - 1]) + if rows[|rows| - 1].feasible then [rows[|rows| - 1]] else []
  }

  function Highest(rows: seq<Evaluation>): real
    requires rows != []
  {
    var u := rows[|rows| - 1].forecast.utility;
    if |rows| == 1 then u else MaxReal(Highest(rows[..|rows| - 1]), u)
  }

  function Ties(rows: seq<Evaluation>, best: real): seq<string> {
    if rows == [] then []
    else Ties(rows[..|rows| - 1], best) + if rows[|rows| - 1].forecast.utility == best then [RowId(rows[|rows| - 1])] else []
  }

  function FirstId(ids: seq<string>): string
    requires ids != []
  {
    if |ids| == 1 then ids[0]
    else var m := FirstId(ids[..|ids| - 1]); if LexLess(ids[|ids| - 1], m) then ids[|ids| - 1] else m
  }

  function RowOf(rows: seq<Evaluation>, id: string): Option<Evaluation> {
    if rows == [] then None else if RowId(rows[0]) == id then Some(rows[0]) else RowOf(rows[1..], id)
  }

  /** The choice the completed rows justify. */
  function Choose(p: Problem, rows: seq<Evaluation>): Choice
    requires Valid(p) && Verified(p, rows)
  {
    if p.kind == Estimated then
      var safe := CertifiedRow(p, rows);
      Choice(if safe then Some(p.noAction) else None, InsufficientEvidence, EstimatedWeights, safe)
    else
      var feasible := FeasibleRows(rows);
      var complete := RowIds(rows) == ActionIds(p);
      if feasible == [] then
        Choice(None, if complete then Infeasible else Limited, if complete then NoFeasibleAction else NoIncumbent, false)
      else
        var ties := Ties(feasible, Highest(feasible));
        var selected := if p.noAction in ties then Some(p.noAction)
                        else if ties == [] then None else Some(FirstId(ties));
        Choice(selected, if complete then Optimal else Feasible, if complete then FiniteModelOptimum else BestIncumbent,
               false)
  }

  /** The no-action row is among the completed ones and carries its certificate. */
  predicate CertifiedRow(p: Problem, rows: seq<Evaluation>)
    requires Valid(p) && Verified(p, rows)
  {
    exists k, i :: 0 <= k < |rows| && 0 <= i < |p.actions| && rows[k] == Evaluate(p, p.actions[i])
      && RowId(rows[k]) == p.noAction
      && PossibleNets(p, Nets(p, p.actions[i])) != [] && Certified(p, p.actions[i], rows[k])
  }

  // ---------------------------------------------------------------- the reference optimum

  /** The key order of the reference: greater utility, then no-action, then smaller identity. */
  predicate Beats(noAction: string, a: Evaluation, b: Evaluation) {
    || a.forecast.utility > b.forecast.utility
    || (&& a.forecast.utility == b.forecast.utility
        && ((RowId(a) == noAction && RowId(b) != noAction)
            || ((RowId(a) == noAction <==> RowId(b) == noAction) && LexLess(RowId(a), RowId(b)))))
  }

  /** The first row no later row beats. */
  function Best(noAction: string, rows: seq<Evaluation>): Option<Evaluation> {
    if rows == [] then None
    else
      match Best(noAction, rows[..|rows| - 1])
      case None => Some(rows[|rows| - 1])
      case Some(b) => if Beats(noAction, rows[|rows| - 1], b) then Some(rows[|rows| - 1]) else Some(b)
  }

  /** The reference's row of each declared action, in declaration order. */
  ghost function ReferenceRows(p: Problem, n: nat): seq<Evaluation>
    requires Valid(p) && n <= |p.actions|
  {
    if n == 0 then []
    else ReferenceRows(p, n - 1)
         + [Evaluation(Reference(p, p.actions[n - 1]), ReferenceFeasible(p, p.actions[n - 1]), [])]
  }

  ghost function ReferenceOptimum(p: Problem): Option<string>
    requires Valid(p)
  {
    match Best(p.noAction, FeasibleRows(ReferenceRows(p, |p.actions|)))
    case None => None
    case Some(row) => Some(RowId(row))
  }

  // ---------------------------------------------------------------- their agreement

  lemma {:induction false} FeasibleMembers(rows: seq<Evaluation>)
    ensures forall r :: r in FeasibleRows(rows) <==> r in rows && r.feasible
  {
    if rows != [] {
      FeasibleMembers(rows[..|rows| - 1]);
      assert rows == rows[..|rows| - 1] + [rows[|rows| - 1]];
    }
  }

  lemma {:induction false} HighestIs(rows: seq<Evaluation>)
    requires rows != []
    ensures forall r :: r in rows ==> r.forecast.utility <= Highest(rows)
    ensures exists r :: r in rows && r.forecast.utility == Highest(rows)
  {
    var n := |rows| - 1;
    assert rows == rows[..n] + [rows[n]];
    if n > 0 {
      HighestIs(rows[..n]);
      var r :| r in rows[..n] && r.forecast.utility == Highest(rows[..n]);
      assert r in rows && rows[n] in rows;
    } else {
      assert rows[0] in rows;
    }
  }

  lemma {:induction false} TiesAre(rows: seq<Evaluation>, best: real)
    ensures forall id :: id in Ties(rows, best) <==> exists r :: r in rows && r.forecast.utility == best && RowId(r) == id
  {
    if rows != [] {
      var n := |rows| - 1;
      TiesAre(rows[..n], best);
      assert rows == rows[..n] + [rows[n]];
      forall id ensures id in Ties(rows, best) <==> exists r :: r in rows && r.forecast.utility == best && RowId(r) == id {
        if id in Ties(rows[..n], best) {
          var r :| r in rows[..n] && r.forecast.utility == best && RowId(r) == id;
          assert r in rows;
        } else if id in Ties(rows, best) {
          assert rows[n] in rows;
        }
      }
    }
  }

  lemma {:induction false} FirstIdIs(ids: seq<string>)
    requires ids != []
    ensures FirstId(ids) in ids && forall x :: x in ids ==> !LexLess(x, FirstId(ids))
  {
    var n := |ids| - 1;
    assert ids == ids[..n] + [ids[n]];
    LexTrichotomy(ids[n], ids[n]);
    if n > 0 {
      FirstIdIs(ids[..n]);
      var m := FirstId(ids[..n]);
      forall x | x in ids ensures !LexLess(x, FirstId(ids)) {
        LexTrichotomy(ids[n], m);
        if x in ids[..n] && LexLess(ids[n], m) && LexLess(x, ids[n]) { LexTransitive(x, ids[n], m); }
      }
    }
  }

  lemma BeatsTransitive(no: string, a: Evaluation, b: Evaluation, c: Evaluation)
    requires Beats(no, a, b) && Beats(no, b, c)
    ensures Beats(no, a, c)
  {
    if LexLess(RowId(a), RowId(b)) && LexLess(RowId(b), RowId(c)) { LexTransitive(RowId(a), RowId(b), RowId(c)); }
  }

  lemma BeatsTotal(no: string, a: Evaluation, b: Evaluation)
    ensures !(Beats(no, a, b) && Beats(no, b, a)) && !Beats(no, a, a)
    ensures RowId(a) != RowId(b) ==> Beats(no, a, b) || Beats(no, b, a)
  {
    LexTrichotomy(RowId(a), RowId(b));
    LexTrichotomy(RowId(a), RowId(a));
  }

  lemma {:induction false} BestIs(no: string, rows: seq<Evaluation>)
    ensures Best(no, rows).None? <==> rows == []
    ensures Best(no, rows).Some? ==>
              Best(no, rows).value in rows && forall r :: r in rows ==> !Beats(no, r, Best(no, rows).value)
  {
    hide Best, Beats;
    if rows == [] {
      BestNone(no);
    } else {
      var n := |rows| - 1;
      var front, last := rows[..n], rows[n];
      assert rows == front + [last];
      BestIs(no, front);
      BestPush(no, front, last);
      BeatsTotal(no, last, last);
      if front != [] {
        var b := Best(no, front).value;
        forall r | r in rows ensures !Beats(no, r, Best(no, rows).value) {
          if r in front && Beats(no, last, b) && Beats(no, r, last) { BeatsTransitive(no, r, last, b); }
        }
      }
    }
  }

  lemma BestNone(no: string)
    ensures Best(no, []) == None
  {}

  lemma BestPush(no: string, front: seq<Evaluation>, last: Evaluation)
    ensures Best(no, front + [last]) ==
            match Best(no, front)
            case None => Some(last)
            case Some(b) => if Beats(no, last, b) then Some(last) else Some(b)
  {
    hide Beats;
    assert (front + [last])[..|front|] == front;
  }

  /** Two-stage choice (maximum, then ties) and keyed minimum pick the same action. */
  lemma TwoStageIsBest(no: string, rows: seq<Evaluation>)
    requires rows != []
    ensures var ties := Ties(rows, Highest(rows));
            && ties != [] && Best(no, rows).Some?
            && (if no in ties then no else FirstId(ties)) == RowId(Best(no, rows).value)
  {
    var top := Highest(rows);
    var ties := Ties(rows, top);
    HighestIs(rows);
    TiesAre(rows, top);
    BestIs(no, rows);
    var best := Best(no, rows).value;
    var u :| u in rows && u.forecast.utility == top;
    assert RowId(u) in ties;
    assert !Beats(no, u, best);
    assert best.forecast.utility == top && RowId(best) in ties;
    FirstIdIs(ties);
    var id := if no in ties then no else FirstId(ties);
    var r :| r in rows && r.forecast.utility == top && RowId(r) == id;
    BeatsTotal(no, r, best);
    LexTrichotomy(RowId(best), id);
    assert !Beats(no, r, best);
  }

  /** Equal identities mean the same row. */
  predicate Functional(rows: seq<Evaluation>) {
    forall a, b :: a in rows && b in rows && RowId(a) == RowId(b) ==> a == b
  }

  ghost predicate SameMembers(a: seq<Evaluation>, b: seq<Evaluation>) { forall r :: r in a <==> r in b }

  lemma BestSame(no: string, a: seq<Evaluation>, b: seq<Evaluation>)
    requires SameMembers(a, b) && Functional(a)
    ensures Best(no, a) == Best(no, b)
  {
    BestIs(no, a);
    BestIs(no, b);
    if a != [] { assert a[0] in a; }
    if b != [] { assert b[0] in b; }
    if a != [] && b != [] { BeatsTotal(no, Best(no, a).value, Best(no, b).value); }
  }

  lemma FeasibleSame(a: seq<Evaluation>, b: seq<Evaluation>)
    requires SameMembers(a, b) && Functional(a)
    ensures SameMembers(FeasibleRows(a), FeasibleRows(b)) && Functional(FeasibleRows(a))
    ensures FeasibleRows(a) == [] <==> FeasibleRows(b) == []
  {
    FeasibleMembers(a);
    FeasibleMembers(b);
    if FeasibleRows(a) != [] { assert FeasibleRows(a)[0] in FeasibleRows(a); }
    if FeasibleRows(b) != [] { assert FeasibleRows(b)[0] in FeasibleRows(b); }
  }

  lemma IdsSame(a: seq<Evaluation>, b: seq<Evaluation>)
    requires SameMembers(a, b)
    ensures RowIds(a) == RowIds(b)
  {
    forall id ensures id in RowIds(a) <==> id in RowIds(b) { IdsWithin(a, b, id); IdsWithin(b, a, id); }
  }

  lemma IdsWithin(a: seq<Evaluation>, b: seq<Evaluation>, id: string)
    requires SameMembers(a, b)
    ensures id in RowIds(a) ==> id in RowIds(b)
  {
    if id in RowIds(a) {
      var i :| 0 <= i < |a| && RowId(a[i]) == id;
      assert a[i] in b;
      var k :| 0 <= k < |b| && b[k] == a[i];
    }
  }

  lemma CertifiedWithin(p: Problem, a: seq<Evaluation>, b: seq<Evaluation>)
    requires Valid(p) && Verified(p, a) && Verified(p, b) && SameMembers(a, b) && CertifiedRow(p, a)
    ensures CertifiedRow(p, b)
  {
    hide Evaluate, Certified;
    var k, i :| 0 <= k < |a| && 0 <= i < |p.actions| && a[k] == Evaluate(p, p.actions[i])
      && RowId(a[k]) == p.noAction
      && PossibleNets(p, Nets(p, p.actions[i])) != [] && Certified(p, p.actions[i], a[k]);
    assert a[k] in b;
    var m :| 0 <= m < |b| && b[m] == a[k];
  }

  /** The choice depends on which rows are complete, not on the order in which they were completed. */
  lemma ChoiceIgnoresOrder(p: Problem, a: seq<Evaluation>, b: seq<Evaluation>)
    requires Valid(p) && Verified(p, a) && Verified(p, b) && SameMembers(a, b)
    ensures Choose(p, a) == Choose(p, b)
  {
    hide Evaluate, Certified, ValidAction, CertifiedRow;
    if p.kind == Estimated {
      if CertifiedRow(p, a) { CertifiedWithin(p, a, b); }
      if CertifiedRow(p, b) { CertifiedWithin(p, b, a); }
    } else {
      IdsSame(a, b);
      FeasibleSame(a, b);
      var fa, fb := FeasibleRows(a), FeasibleRows(b);
      if fa != [] {
        TwoStageIsBest(p.noAction, fa);
        TwoStageIsBest(p.noAction, fb);
        BestSame(p.noAction, fa, fb);
      }
    }
  }

  /** Every declared action has a row. */
  predicate AllEvaluated(p: Problem, rows: seq<Evaluation>) {
    forall i :: 0 <= i < |p.actions| ==> HasRow(rows, p.actions[i].id)
  }

  predicate HasRow(rows: seq<Evaluation>, id: string) { exists k :: 0 <= k < |rows| && RowId(rows[k]) == id }

  /** No feasible row has greater utility, and among those of equal utility the unchanged action comes first,
      then the smallest identity. */
  predicate Unbeaten(noAction: string, r: Evaluation, rows: seq<Evaluation>) {
    forall q :: q in rows && q.feasible ==>
      && q.forecast.utility <= r.forecast.utility
      && (q.forecast.utility == r.forecast.utility && RowId(q) != RowId(r) ==>
            RowId(r) == noAction || (RowId(q) != noAction && LexLess(RowId(r), RowId(q))))
  }

  lemma RowsDeclared(p: Problem, rows: seq<Evaluation>)
    requires Valid(p) && Verified(p, rows)
    ensures RowIds(rows) <= ActionIds(p)
  {
    hide Evaluate, ValidAction;
    forall k | 0 <= k < |rows| ensures RowId(rows[k]) in ActionIds(p) {
      var i :| 0 <= i < |p.actions| && rows[k] == Evaluate(p, p.actions[i]);
      RowIdOf(p, p.actions[i]);
    }
  }

  lemma EvaluatedIds(p: Problem, rows: seq<Evaluation>)
    requires RowIds(rows) <= ActionIds(p)
    ensures AllEvaluated(p, rows) <==> RowIds(rows) == ActionIds(p)
  {
    if AllEvaluated(p, rows) {
      forall id | id in ActionIds(p) ensures id in RowIds(rows) {
        var i :| 0 <= i < |p.actions| && p.actions[i].id == id;
        assert HasRow(rows, p.actions[i].id);
      }
    }
    if RowIds(rows) == ActionIds(p) {
      forall i | 0 <= i < |p.actions| ensures HasRow(rows, p.actions[i].id) { assert p.actions[i].id in ActionIds(p); }
      assert AllEvaluated(p, rows);
    }
  }

  /** What a choice says of its rows, complete or not. Under assumed weights it names a feasible row no other
      feasible row beats, or none exactly when no row is feasible; it claims the optimum, or infeasibility,
      only when every action has a row. Under estimated weights it names at most the unchanged action. */
  lemma ChoiceMeans(p: Problem, rows: seq<Evaluation>)
    requires Valid(p) && Verified(p, rows)
    ensures var c := Choose(p, rows);
            p.kind == Assumed ==>
              && !c.fallback && (c.selected.None? <==> forall r :: r in rows ==> !r.feasible)
              && (c.selected.Some? ==>
                    exists r :: r in rows && r.feasible && RowId(r) == c.selected.value && Unbeaten(p.noAction, r, rows))
              && (c.status == Optimal <==> c.selected.Some? && AllEvaluated(p, rows))
              && (c.status == Feasible <==> c.selected.Some? && !AllEvaluated(p, rows))
              && (c.status == Infeasible <==> c.selected.None? && AllEvaluated(p, rows))
              && (c.status == Limited <==> c.selected.None? && !AllEvaluated(p, rows))
    ensures var c := Choose(p, rows);
            p.kind == Estimated ==>
              && c.status == InsufficientEvidence && c.selected in {None, Some(p.noAction)}
              && (c.fallback <==> c.selected.Some?)
              && (c.selected.Some? ==> exists r :: r in rows && RowId(r) == p.noAction)
  {
    hide Valid, Verified, AllEvaluated, Unbeaten, CertifiedRow, Choose;
    if p.kind == Estimated { EstimatedChoice(p, rows); } else { AssumedChoice(p, rows); }
  }

  lemma EstimatedChoice(p: Problem, rows: seq<Evaluation>)
    requires Valid(p) && Verified(p, rows) && p.kind == Estimated
    ensures var c := Choose(p, rows);
            && c.status == InsufficientEvidence && c.selected in {None, Some(p.noAction)}
            && (c.fallback <==> c.selected.Some?)
            && (c.selected.Some? ==> exists r :: r in rows && RowId(r) == p.noAction)
  {
    if CertifiedRow(p, rows) {
      var k :| 0 <= k < |rows| && RowId(rows[k]) == p.noAction;
      assert rows[k] in rows;
    }
  }

  lemma AssumedChoice(p: Problem, rows: seq<Evaluation>)
    requires Valid(p) && Verified(p, rows) && p.kind == Assumed
    ensures var c := Choose(p, rows);
            && !c.fallback && (c.selected.None? <==> forall r :: r in rows ==> !r.feasible)
            && (c.selected.Some? ==>
                  exists r :: r in rows && r.feasible && RowId(r) == c.selected.value && Unbeaten(p.noAction, r, rows))
            && c.status == if c.selected.Some? then (if AllEvaluated(p, rows) then Optimal else Feasible)
                           else if AllEvaluated(p, rows) then Infeasible else Limited
  {
    RowsDeclared(p, rows);
    EvaluatedIds(p, rows);
    hide Valid, Verified, AllEvaluated, Unbeaten, RowIds, ActionIds, CertifiedRow, FeasibleRows, Highest, Ties, FirstId;
    var feasible := FeasibleRows(rows);
    FeasibleMembers(rows);
    if feasible == [] {
      assert forall r :: r in rows ==> !r.feasible;
    } else {
      assert feasible[0] in feasible;
      TwoStageIsBest(p.noAction, feasible);
      BestIs(p.noAction, feasible);
      var best := Best(p.noAction, feasible).value;
      hide Best, Beats;
      UnbeatenBest(p.noAction, best, feasible, rows);
    }
  }

  lemma UnbeatenBest(no: string, best: Evaluation, feasible: seq<Evaluation>, rows: seq<Evaluation>)
    requires forall r :: r in feasible <==> r in rows && r.feasible
    requires best in feasible && forall r :: r in feasible ==> !Beats(no, r, best)
    ensures Unbeaten(no, best, rows)
  {
    forall q | q in rows && q.feasible
      ensures q.forecast.utility <= best.forecast.utility
      ensures q.forecast.utility == best.forecast.utility && RowId(q) != RowId(best) ==>
                RowId(best) == no || (RowId(q) != no && LexLess(RowId(best), RowId(q)))
    {
      assert !Beats(no, q, best);
      LexTrichotomy(RowId(q), RowId(best));
    }
  }

  /** The evaluation of each declared action, in canonical order. */
  ghost function AllRows(p: Problem, n: nat): seq<Evaluation>
    requires Valid(p) && n <= |p.actions|
  {
    if n == 0 then [] else AllRows(p, n - 1) + [Evaluate(p, p.actions[n - 1])]
  }

  lemma {:induction false} AllRowsAre(p: Problem, n: nat)
    requires Valid(p) && n <= |p.actions|
    ensures |AllRows(p, n)| == n
    ensures forall i :: 0 <= i < n ==> AllRows(p, n)[i] == Evaluate(p, p.actions[i])
  {
    hide Evaluate;
    if n > 0 { AllRowsAre(p, n - 1); }
  }

  lemma RowIdOf(p: Problem, a: Action)
    requires ValidAction(p, a)
    ensures RowId(Evaluate(p, a)) == a.id
  {}

  lemma CanonicalIncreasing(p: Problem)
    requires Valid(p)
    ensures Increasing(AllRows(p, |p.actions|), RowId)
    ensures Verified(p, AllRows(p, |p.actions|))
  {
    hide Evaluate;
    var rows := AllRows(p, |p.actions|);
    AllRowsAre(p, |p.actions|);
    forall i | 0 <= i < |rows| ensures RowId(rows[i]) == p.actions[i].id { RowIdOf(p, p.actions[i]); }
    forall i, j | 0 <= i < j < |rows| ensures LexLess(RowId(rows[i]), RowId(rows[j])) && RowId(rows[i]) != RowId(rows[j]) {
      LexTrichotomy(RowId(rows[i]), RowId(rows[i]));
      assert LexLess(ActionId(p.actions[i]), ActionId(p.actions[j]));
    }
  }

  lemma VerifiedIsCanonical(p: Problem, rows: seq<Evaluation>, r: Evaluation)
    requires Valid(p) && Verified(p, rows) && r in rows
    ensures r in AllRows(p, |p.actions|)
  {
    hide Evaluate, ValidAction;
    AllRowsAre(p, |p.actions|);
    var k :| 0 <= k < |rows| && rows[k] == r;
    var i :| 0 <= i < |p.actions| && rows[k] == Evaluate(p, p.actions[i]);
    assert AllRows(p, |p.actions|)[i] == r;
  }

  lemma CanonicalFunctional(p: Problem)
    requires Valid(p)
    ensures Functional(AllRows(p, |p.actions|))
  {
    hide Evaluate, ValidAction, Valid;
    CanonicalIncreasing(p);
  }

  lemma CompletedAction(p: Problem, rows: seq<Evaluation>, i: nat)
    requires Valid(p) && Verified(p, rows) && i < |p.actions| && p.actions[i].id in RowIds(rows)
    ensures Evaluate(p, p.actions[i]) in rows
  {
    hide Evaluate, ValidAction;
    var all := AllRows(p, |p.actions|);
    AllRowsAre(p, |p.actions|);
    RowIdOf(p, p.actions[i]);
    CanonicalFunctional(p);
    var k :| 0 <= k < |rows| && RowId(rows[k]) == p.actions[i].id;
    VerifiedIsCanonical(p, rows, rows[k]);
    assert all[i] in all;
  }

  /** Complete verified rows are exactly the canonical ones. */
  lemma CompleteMembers(p: Problem, rows: seq<Evaluation>)
    requires Valid(p) && Verified(p, rows) && RowIds(rows) == ActionIds(p)
    ensures SameMembers(rows, AllRows(p, |p.actions|))
  {
    hide Evaluate, ValidAction, Verified;
    var all := AllRows(p, |p.actions|);
    AllRowsAre(p, |p.actions|);
    forall r | r in rows ensures r in all { VerifiedIsCanonical(p, rows, r); }
    forall r | r in all ensures r in rows {
      var i :| 0 <= i < |all| && all[i] == r;
      assert p.actions[i].id in ActionIds(p);
      CompletedAction(p, rows, i);
    }
  }

  lemma FeasiblePush(rows: seq<Evaluation>, e: Evaluation)
    ensures FeasibleRows(rows + [e]) == FeasibleRows(rows) + if e.feasible then [e] else []
  {
    assert (rows + [e])[..|rows|] == rows;
  }

  lemma {:induction false} FeasibleReference(p: Problem, n: nat)
    requires Valid(p) && n <= |p.actions|
    ensures FeasibleRows(ReferenceRows(p, n)) == FeasibleRows(AllRows(p, n))
  {
    hide Evaluate, Reference, ReferenceFeasible, ValidAction, FeasibleRows;
    if n > 0 {
      FeasibleReference(p, n - 1);
      FeasibilityAt(p, n - 1);
      var a := p.actions[n - 1];
      FeasiblePush(AllRows(p, n - 1), Evaluate(p, a));
      FeasiblePush(ReferenceRows(p, n - 1), Evaluation(Reference(p, a), ReferenceFeasible(p, a), []));
    }
  }

  lemma FeasibilityAt(p: Problem, i: nat)
    requires Valid(p) && i < |p.actions|
    ensures ValidAction(p, p.actions[i])
    ensures Evaluate(p, p.actions[i]).feasible <==> ReferenceFeasible(p, p.actions[i])
    ensures Evaluate(p, p.actions[i]).forecast == Reference(p, p.actions[i])
    ensures Evaluate(p, p.actions[i]).feasible ==> Evaluate(p, p.actions[i]).reasons == []
  {
    hide Exact, Reference, Reasons, ReferenceFeasible;
    FeasibilityAgrees(p, p.actions[i]);
  }

  lemma CompleteChoiceOfAll(p: Problem)
    requires Valid(p) && p.kind == Assumed
    requires Verified(p, AllRows(p, |p.actions|)) && RowIds(AllRows(p, |p.actions|)) == ActionIds(p)
    ensures Choose(p, AllRows(p, |p.actions|)).selected == ReferenceOptimum(p)
    ensures Choose(p, AllRows(p, |p.actions|)).status == if ReferenceOptimum(p).Some? then Optimal else Infeasible
  {
    hide Evaluate, Reference, ReferenceFeasible, FeasibleRows, Highest, Ties, FirstId, Best, AllRows, ReferenceRows, Verified;
    var feasible := FeasibleRows(AllRows(p, |p.actions|));
    FeasibleReference(p, |p.actions|);
    BestIs(p.noAction, feasible);
    if feasible != [] { TwoStageIsBest(p.noAction, feasible); }
  }

  /** Complete enumeration under assumed weights selects exactly the reference optimum, or reports that
      none exists exactly when the reference finds none. */
  lemma CompleteChoiceIsOptimal(p: Problem, rows: seq<Evaluation>)
    requires Valid(p) && p.kind == Assumed && Verified(p, rows) && RowIds(rows) == ActionIds(p)
    ensures Choose(p, rows).selected == ReferenceOptimum(p)
    ensures Choose(p, rows).status == if ReferenceOptimum(p).Some? then Optimal else Infeasible
  {
    hide Evaluate, ValidAction, Choose, ReferenceOptimum;
    CompleteMembers(p, rows);
    CanonicalIncreasing(p);
    ChoiceIgnoresOrder(p, rows, AllRows(p, |p.actions|));
    IdsSame(rows, AllRows(p, |p.actions|));
    CompleteChoiceOfAll(p);
  }
}
