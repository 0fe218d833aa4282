/** Published allocation results: their own validators, resuming from checkpoints, and convergence of chunked runs. */
module AllocationResults {
  import opened Basics
  import opened Ordering
  import opened AllocationModel
  import opened AllocationMoments
  import opened AllocationForecasts
  import opened AllocationCertificate
  import opened AllocationChoice
  import opened AllocationSolver

  datatype Limits = Limits(maxWork: nat, maxBytes: nat)

  datatype Result = Result(limits: Limits, bytes: nat, checkpoint: Option<seq<Evaluation>>,
                           completed: seq<Evaluation>, choice: Choice, reason: Termination, used: nat)

  function EstimatedBytes(p: Problem): nat {
    2048 * (|p.actions| * |p.scenarios|) + 1024 * (|p.actions| * (|p.capacities| + p.holdings)) + 4096 * |p.actions|
  }

  /** Every action is charged for its outcome in each scenario, its use of each resource, its holdings and
      itself. */
  lemma BytesPerAction(p: Problem)
    ensures EstimatedBytes(p) == |p.actions| * (2048 * |p.scenarios| + 1024 * |p.capacities| + 1024 * p.holdings + 4096)
  {}

  const PREFLIGHT_CHOICE: Choice := Choice(None, Limited, PreflightRefused, false)

  /** A checkpoint that binds to the problem: canonical order, each row recomputed. */
  ghost predicate Binds(p: Problem, rows: seq<Evaluation>)
    requires Valid(p)
  {
    Increasing(rows, RowId) && Verified(p, rows)
  }

  /** Work accounting and checkpoint preservation. */
  ghost predicate VerifiedWork(p: Problem, r: Result)
    requires Valid(p)
  {
    var cached := if r.checkpoint.Some? then r.checkpoint.value else [];
    && r.used <= r.limits.maxWork
    && (if r.reason == MemoryLimit then r.completed == [] && r.used == 0 && r.bytes > r.limits.maxBytes
        else
          && r.bytes <= r.limits.maxBytes
          && (forall row :: row in cached ==> row in r.completed)
          && |cached| <= |r.completed|
          && Accounted(p, r.completed, |r.completed| - |cached|, r.used, r.limits.maxWork, r.reason))
  }

  /** Everything the result type checks before it accepts a result. */
  ghost predicate ValidResult(p: Problem, r: Result)
    requires Valid(p)
  {
    && r.bytes == EstimatedBytes(p)
    && (r.checkpoint.Some? ==> Binds(p, r.checkpoint.value))
    && Binds(p, r.completed) && VerifiedWork(p, r)
    && r.choice == if r.reason == MemoryLimit then PREFLIGHT_CHOICE else Choose(p, r.completed)
  }

  lemma DistinctActions(actions: seq<Action>)
    requires Increasing(actions, ActionId)
    ensures forall i, j :: 0 <= i < j < |actions| ==> actions[i].id != actions[j].id
  {
    forall i, j | 0 <= i < j < |actions| ensures actions[i].id != actions[j].id {
      LexTrichotomy(ActionId(actions[i]), ActionId(actions[j]));
      LexTrichotomy(ActionId(actions[i]), ActionId(actions[i]));
    }
  }

  lemma SortKeeps(p: Problem, rows: seq<Evaluation>)
    requires Valid(p) && Verified(p, rows)
    ensures Binds(p, Sort(rows, RowId)) && SameMembers(rows, Sort(rows, RowId)) && |Sort(rows, RowId)| == |rows|
  {
    hide Evaluate, ValidAction;
    var sorted := Sort(rows, RowId);
    SortIncreasing(rows, RowId);
    SortMembers(rows, RowId);
    assert |multiset(sorted)| == |multiset(rows)|;
    forall r ensures r in rows <==> r in sorted {
      assert r in rows <==> r in multiset(rows);
      assert r in sorted <==> r in multiset(sorted);
    }
    forall i, j | 0 <= i < j < |sorted| ensures RowId(sorted[i]) != RowId(sorted[j]) {
      LexTrichotomy(RowId(sorted[i]), RowId(sorted[j]));
    }
    forall k | 0 <= k < |sorted| ensures exists i :: 0 <= i < |p.actions| && sorted[k] == Evaluate(p, p.actions[i]) {
      assert sorted[k] in rows;
      var m :| 0 <= m < |rows| && rows[m] == sorted[k];
    }
  }

  /** Recomputes every cached row; a repeated, unknown or altered row is refused. */
  method BindCheckpoint(p: Problem, rows: seq<Evaluation>) returns (r: Option<seq<Evaluation>>)
    requires Valid(p)
    ensures r.Some? <==> Verified(p, rows)
    ensures r.Some? ==> Binds(p, r.value) && SameMembers(rows, r.value) && |r.value| == |rows|
  {
    hide Evaluate, ValidAction;
    if !DistinctKeys(rows, RowId) { return None; }
    var k := 0;
    while k < |rows|
      invariant 0 <= k <= |rows|
      invariant forall m :: 0 <= m < k ==> exists i :: 0 <= i < |p.actions| && rows[m] == Evaluate(p, p.actions[i])
    {
      var at := Find(p.actions, RowId(rows[k]));
      if at.None? {
        Unknown(p, rows, k);
        return None;
      }
      ValidAt(p, at.value);
      if rows[k] != Evaluate(p, p.actions[at.value]) {
        Altered(p, rows, k, at.value);
        return None;
      }
      k := k + 1;
    }
    SortKeeps(p, rows);
    r := Some(Sort(rows, RowId));
  }

  lemma Unknown(p: Problem, rows: seq<Evaluation>, k: nat)
    requires Valid(p) && k < |rows| && Find(p.actions, RowId(rows[k])).None?
    ensures !Verified(p, rows)
  {
    hide Evaluate, ValidAction;
    forall i | 0 <= i < |p.actions| ensures RowId(Evaluate(p, p.actions[i])) == p.actions[i].id {
      RowIdOf(p, p.actions[i]);
    }
  }

  lemma Altered(p: Problem, rows: seq<Evaluation>, k: nat, at: nat)
    requires Valid(p) && k < |rows| && at < |p.actions| && p.actions[at].id == RowId(rows[k])
    requires rows[k] != Evaluate(p, p.actions[at])
    ensures !Verified(p, rows)
  {
    hide Evaluate, ValidAction;
    forall i | 0 <= i < |p.actions| ensures RowId(Evaluate(p, p.actions[i])) == p.actions[i].id {
      RowIdOf(p, p.actions[i]);
    }
    DistinctActions(p.actions);
  }

  /** One bounded call. A checkpoint that does not bind is refused; any other call publishes a result
      that passes every validator, whatever stopped it. */
  method SelectAllocation(p: Problem, limits: Limits, checkpoint: Option<seq<Evaluation>>, signals: seq<Signal>)
    returns (r: Option<Result>)
    requires Valid(p)
    ensures r.Some? <==> (checkpoint.Some? ==> Verified(p, checkpoint.value))
    ensures r.Some? ==> ValidResult(p, r.value) && r.value.limits == limits
    ensures r.Some? ==> (r.value.checkpoint.Some? <==> checkpoint.Some?)
    ensures r.Some? && checkpoint.Some? ==> SameMembers(r.value.checkpoint.value, checkpoint.value)
    ensures r.Some? && signals == [] && EstimatedBytes(p) <= limits.maxBytes ==>
              r.value.reason in {EnumerationComplete, WorkLimit}
  {
    hide Evaluate, ValidAction, Choose, Verified;
    var bound: Option<seq<Evaluation>> := None;
    var cached: seq<Evaluation> := [];
    NothingVerified(p);
    if checkpoint.Some? {
      bound := BindCheckpoint(p, checkpoint.value);
      if bound.None? { return None; }
      cached := bound.value;
    }
    var bytes := EstimatedBytes(p);
    if bytes > limits.maxBytes {
      return Some(Result(limits, bytes, bound, [], PREFLIGHT_CHOICE, MemoryLimit, 0));
    }
    var counter := new WorkCounter(limits.maxWork, signals);
    var rows, reason := Enumerate(p, cached, counter);
    SortKeeps(p, rows);
    ChoiceIgnoresOrder(p, rows, Sort(rows, RowId));
    SortedAccounts(p, rows, |rows| - |cached|, counter.used, limits.maxWork, reason);
    r := Some(Result(limits, bytes, bound, Sort(rows, RowId), Choose(p, rows), reason, counter.used));
    PrefixMembers(cached, rows, Sort(rows, RowId));
  }

  lemma PrefixMembers(cached: seq<Evaluation>, rows: seq<Evaluation>, sorted: seq<Evaluation>)
    requires cached <= rows && SameMembers(rows, sorted)
    ensures forall row :: row in cached ==> row in sorted
  {
    forall row | row in cached ensures row in sorted {
      var k :| 0 <= k < |cached| && cached[k] == row;
      assert rows[k] == row;
    }
  }

  lemma NothingVerified(p: Problem)
    requires Valid(p)
    ensures Verified(p, []) && Binds(p, [])
  {}

  lemma SortedAccounts(p: Problem, rows: seq<Evaluation>, added: nat, used: nat, maxWork: nat, reason: Termination)
    requires Valid(p) && Verified(p, rows) && Accounted(p, rows, added, used, maxWork, reason)
    ensures Accounted(p, Sort(rows, RowId), added, used, maxWork, reason)
  {
    hide Evaluate, ValidAction, Verified;
    SortKeeps(p, rows);
    IdsSame(rows, Sort(rows, RowId));
  }

  // ---------------------------------------------------------------- chunked runs

  /** A complete result is the canonical one: every row, in order, and the choice they justify. */
  lemma CompleteIsCanonical(p: Problem, r: Result)
    requires Valid(p) && ValidResult(p, r) && r.reason == EnumerationComplete
    ensures r.completed == AllRows(p, |p.actions|)
    ensures Verified(p, AllRows(p, |p.actions|)) && r.choice == Choose(p, AllRows(p, |p.actions|))
    ensures p.kind == Assumed ==> r.choice.selected == ReferenceOptimum(p)
  {
    hide Evaluate, ValidAction, Verified, Choose, ReferenceOptimum;
    CompleteMembers(p, r.completed);
    CanonicalIncreasing(p);
    IncreasingUnique(r.completed, AllRows(p, |p.actions|), RowId);
    if p.kind == Assumed { CompleteChoiceIsOptimal(p, r.completed); }
  }

  /** The checkpoint to go on from: a result without rows exports none, so its own input stays in use. */
  function Resume(r: Result): Option<seq<Evaluation>> { if r.completed != [] then Some(r.completed) else r.checkpoint }

  function Rows(checkpoint: Option<seq<Evaluation>>): seq<Evaluation> {
    if checkpoint.Some? then checkpoint.value else []
  }

  /** Successive calls, each resuming from the checkpoint the one before leaves. */
  ghost predicate Chained(p: Problem, rs: seq<Result>)
    requires Valid(p)
  {
    && (forall i :: 0 <= i < |rs| ==> ValidResult(p, rs[i]))
    && (forall i :: 0 <= i < |rs| - 1 ==> rs[i + 1].checkpoint == Resume(rs[i]))
  }

  /** However the work was cut into chunks, a chain that ends complete publishes the rows and the choice
      of one unlimited complete call. */
  lemma ChunksConverge(p: Problem, rs: seq<Result>, whole: Result)
    requires Valid(p) && Chained(p, rs) && rs != [] && rs[|rs| - 1].reason == EnumerationComplete
    requires ValidResult(p, whole) && whole.reason == EnumerationComplete
    ensures rs[|rs| - 1].completed == whole.completed && rs[|rs| - 1].choice == whole.choice
  {
    hide Evaluate, ValidAction, Verified, Choose, ValidResult, ReferenceOptimum;
    assert ValidResult(p, rs[|rs| - 1]);
    CompleteIsCanonical(p, rs[|rs| - 1]);
    CompleteIsCanonical(p, whole);
  }

  /** No row is ever lost along a chain: a later result holds every earlier row, unless a memory limit let it
      hold none, and then the checkpoint still in use holds them. */
  lemma {:induction false} ChunksPreserve(p: Problem, rs: seq<Result>, i: nat, j: nat)
    requires Valid(p) && Chained(p, rs) && i <= j < |rs|
    ensures forall row :: row in Rows(Resume(rs[i])) ==> row in Rows(Resume(rs[j]))
    ensures forall row :: row in rs[i].completed ==> row in Rows(Resume(rs[j]))
    ensures rs[j].reason == MemoryLimit || Resume(rs[j]) == Some(rs[j].completed) || Rows(Resume(rs[j])) == []
    decreases j - i
  {
    hide Evaluate, ValidAction, Verified, Choose, Accounted;
    assert ValidResult(p, rs[j]);
    if i < j {
      assert rs[j].checkpoint == Resume(rs[j - 1]);
      ChunksPreserve(p, rs, i, j - 1);
    }
  }

  lemma {:induction false} IdCount(rows: seq<Evaluation>)
    requires DistinctKeys(rows, RowId)
    ensures |RowIds(rows)| == |rows|
  {
    if rows == [] {
      assert RowIds(rows) == {};
    } else {
      var n := |rows| - 1;
      IdCount(rows[..n]);
      RowIdsPush(rows[..n], rows[n]);
      assert rows == rows[..n] + [rows[n]];
      assert RowId(rows[n]) !in RowIds(rows[..n]);
    }
  }

  lemma CanonicalIds(p: Problem)
    requires Valid(p)
    ensures RowIds(AllRows(p, |p.actions|)) == ActionIds(p)
  {
    hide Evaluate, ValidAction;
    var all := AllRows(p, |p.actions|);
    AllRowsAre(p, |p.actions|);
    forall i | 0 <= i < |p.actions| ensures RowId(all[i]) == p.actions[i].id { RowIdOf(p, p.actions[i]); }
    hide AllRows, Valid;
    forall id ensures id in RowIds(all) <==> id in ActionIds(p) {
      if id in RowIds(all) { var i :| 0 <= i < |all| && RowId(all[i]) == id; assert p.actions[i].id == id; }
      if id in ActionIds(p) { var i :| 0 <= i < |p.actions| && p.actions[i].id == id; assert RowId(all[i]) == id; }
    }
  }

  lemma ActionCount(p: Problem)
    requires Valid(p)
    ensures |ActionIds(p)| == |p.actions|
  {
    hide Evaluate, ValidAction, AllRows;
    AllRowsAre(p, |p.actions|);
    CanonicalIncreasing(p);
    CanonicalIds(p);
    IdCount(AllRows(p, |p.actions|));
  }

  lemma VerifiedIds(p: Problem, rows: seq<Evaluation>)
    requires Valid(p) && Verified(p, rows)
    ensures RowIds(rows) <= ActionIds(p) && |rows| <= |p.actions|
    ensures |rows| == |p.actions| <==> RowIds(rows) == ActionIds(p)
  {
    hide Evaluate, ValidAction;
    forall id | id in RowIds(rows) ensures id in ActionIds(p) {
      var k :| 0 <= k < |rows| && RowId(rows[k]) == id;
      var i :| 0 <= i < |p.actions| && rows[k] == Evaluate(p, p.actions[i]);
      RowIdOf(p, p.actions[i]);
    }
    IdCount(rows);
    ActionCount(p);
    SubsetSize(RowIds(rows), ActionIds(p));
  }

  lemma SubsetSize(a: set<string>, b: set<string>)
    requires a <= b
    ensures |a| <= |b| && (|a| == |b| <==> a == b)
  {
    assert b == a + (b - a);
    assert |b| == |a| + |b - a|;
  }

  /** A call that nothing stops adds exactly its work allowance until every action is evaluated, and is
      complete exactly then. */
  lemma AllowanceCompletes(p: Problem, r: Result)
    requires Valid(p) && ValidResult(p, r) && r.reason in {EnumerationComplete, WorkLimit}
    ensures |r.completed| == Least(|p.actions|, |Rows(r.checkpoint)| + r.limits.maxWork)
    ensures r.reason == EnumerationComplete <==> |Rows(r.checkpoint)| + r.limits.maxWork >= |p.actions|
    ensures |Rows(Resume(r))| == |r.completed|
  {
    hide Evaluate, ValidAction, Choose;
    VerifiedIds(p, r.completed);
    if r.checkpoint.Some? { VerifiedIds(p, r.checkpoint.value); }
  }

  function Least(a: nat, b: nat): nat { if a < b then a else b }

  /** One call of a chain: its limits and what its polls observe. */
  datatype Chunk = Chunk(limits: Limits, signals: seq<Signal>)

  function Allowance(chunks: seq<Chunk>): nat {
    if chunks == [] then 0 else Allowance(chunks[..|chunks| - 1]) + chunks[|chunks| - 1].limits.maxWork
  }

  /** Nothing stops the call but its work limit. */
  predicate Unstopped(p: Problem, c: Chunk) { c.signals == [] && EstimatedBytes(p) <= c.limits.maxBytes }

  lemma SameCheckpoint(p: Problem, a: seq<Evaluation>, b: seq<Evaluation>)
    requires Valid(p) && Binds(p, a) && Binds(p, b) && SameMembers(a, b)
    ensures a == b
  {
    hide Verified;
    IncreasingUnique(a, b, RowId);
  }

  ghost predicate Usable(p: Problem, checkpoint: Option<seq<Evaluation>>)
    requires Valid(p)
  {
    checkpoint.Some? ==> Binds(p, checkpoint.value)
  }

  /** One call of a chain accepts the checkpoint the chain has reached and leaves one it can go on from. */
  method NextCall(p: Problem, c: Chunk, checkpoint: Option<seq<Evaluation>>) returns (r: Result)
    requires Valid(p) && Usable(p, checkpoint)
    ensures ValidResult(p, r) && r.limits == c.limits && r.checkpoint == checkpoint && Usable(p, Resume(r))
    ensures Unstopped(p, c) ==>
              && |Rows(Resume(r))| == Least(|p.actions|, |Rows(checkpoint)| + c.limits.maxWork)
              && (r.reason == EnumerationComplete <==> |Rows(checkpoint)| + c.limits.maxWork >= |p.actions|)
  {
    hide Evaluate, ValidAction, Verified, Choose, ValidResult, EstimatedBytes;
    var called := SelectAllocation(p, c.limits, checkpoint, c.signals);
    r := called.value;
    ResultBinds(p, r);
    if checkpoint.Some? { SameCheckpoint(p, r.checkpoint.value, checkpoint.value); }
    if Unstopped(p, c) { AllowanceCompletes(p, r); }
  }

  lemma AllowancePush(chunks: seq<Chunk>, i: nat)
    requires i < |chunks|
    ensures Allowance(chunks[..i + 1]) == Allowance(chunks[..i]) + chunks[i].limits.maxWork
  {
    assert chunks[..i + 1][..i] == chunks[..i];
  }

  /** Runs a chain of calls. It never gets stuck on its own checkpoints, and every result passes its
      validators. If the last is complete it publishes the canonical rows and the choice they justify; and
      calls that nothing stops complete exactly when their allowances add up to the number of actions. */
  method RunChain(p: Problem, chunks: seq<Chunk>) returns (rs: seq<Result>)
    requires Valid(p) && chunks != []
    ensures |rs| == |chunks| && Chained(p, rs) && forall i :: 0 <= i < |rs| ==> rs[i].limits == chunks[i].limits
    ensures var last := rs[|rs| - 1];
            last.reason == EnumerationComplete ==>
              && last.completed == AllRows(p, |p.actions|) && last.choice == Choose(p, AllRows(p, |p.actions|))
              && (p.kind == Assumed ==> last.choice.selected == ReferenceOptimum(p))
    ensures (forall i :: 0 <= i < |chunks| ==> Unstopped(p, chunks[i])) ==>
              (rs[|rs| - 1].reason == EnumerationComplete <==> Allowance(chunks) >= |p.actions|)
  {
    hide Verified, Choose, ValidResult, ReferenceOptimum, AllRows, Chained, Usable, Unstopped, Resume, Allowance, Valid;
    NoChain(p);
    rs := [];
    var checkpoint: Option<seq<Evaluation>> := None;
    var i := 0;
    while i < |chunks|
      invariant 0 <= i <= |chunks| && |rs| == i && Chained(p, rs) && Usable(p, checkpoint)
      invariant forall k :: 0 <= k < i ==> rs[k].limits == chunks[k].limits
      invariant i > 0 ==> checkpoint == Resume(rs[i - 1])
      invariant i == 0 ==> checkpoint == None
      invariant (forall k :: 0 <= k < i ==> Unstopped(p, chunks[k])) ==>
                  && |Rows(checkpoint)| == Least(|p.actions|, Allowance(chunks[..i]))
                  && (i > 0 ==> (rs[i - 1].reason == EnumerationComplete <==> Allowance(chunks[..i]) >= |p.actions|))
    {
      var r := NextCall(p, chunks[i], checkpoint);
      AllowancePush(chunks, i);
      ChainedPush(p, rs, r);
      rs := rs + [r];
      checkpoint := Resume(r);
      i := i + 1;
    }
    assert chunks[..|chunks|] == chunks;
    LastValid(p, rs);
    if rs[|rs| - 1].reason == EnumerationComplete { CompleteIsCanonical(p, rs[|rs| - 1]); }
  }

  lemma LastValid(p: Problem, rs: seq<Result>)
    requires Valid(p) && Chained(p, rs) && rs != []
    ensures ValidResult(p, rs[|rs| - 1])
  {}

  lemma NoChain(p: Problem)
    requires Valid(p)
    ensures Chained(p, []) && Usable(p, None) && Allowance([]) == 0
  {}

  lemma ChainedPush(p: Problem, rs: seq<Result>, r: Result)
    requires Valid(p) && Chained(p, rs) && ValidResult(p, r)
    requires rs != [] ==> r.checkpoint == Resume(rs[|rs| - 1])
    ensures Chained(p, rs + [r])
  {
    hide ValidResult;
  }

  lemma ResultBinds(p: Problem, r: Result)
    requires Valid(p) && ValidResult(p, r)
    ensures Binds(p, r.completed) && (r.checkpoint.Some? ==> Binds(p, r.checkpoint.value))
  {}

  // ---------------------------------------------------------------- estimated weights

  /** Under estimated weights the only action ever selected is the unchanged one, and it then meets every
      declared limit under every weighting of the declared support. */
  lemma FallbackIsSafe(p: Problem, r: Result, ws: seq<real>)
    requires Valid(p) && p.kind == Estimated && ValidResult(p, r) && Weighting(p, ws) && r.choice.selected.Some?
    ensures r.choice.fallback && r.choice.selected == Some(p.noAction) && r.choice.status == InsufficientEvidence
    ensures exists i :: 0 <= i < |p.actions| && p.actions[i].id == p.noAction && SafeUnder(p, p.actions[i], ws)
  {
    hide Certified, SafeUnder, Reference, Exact;
    var k, i :| 0 <= k < |r.completed| && 0 <= i < |p.actions| && r.completed[k] == Evaluate(p, p.actions[i])
      && RowId(r.completed[k]) == p.noAction
      && PossibleNets(p, Nets(p, p.actions[i])) != [] && Certified(p, p.actions[i], r.completed[k]);
    RowIdOf(p, p.actions[i]);
    CertificateIsSafe(p, p.actions[i], ws);
  }
}
