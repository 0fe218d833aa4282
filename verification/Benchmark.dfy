/** Resumable benchmark execution: bounded chunks of a fixed plan, with every failed attempt retained. */
module Benchmark {
  import opened Basics

  const MAX_FAILURES: nat := 128

  datatype Case = Case(id: nat, methods: seq<nat>, maxWork: nat)

  datatype Suite = Suite(cases: seq<Case>, seeds: seq<nat>)

  /** One declared slot; repeated seeds remain separate slots. */
  datatype Slot = Slot(caseId: nat, solver: nat, seedIndex: nat, seed: nat, maxWork: nat)
  {
    /** Repetitions of one label must reproduce one result. */
    function Label(): (nat, nat, nat) { (caseId, solver, seed) }
  }

  datatype Observation<M> = Observation(slot: Slot, mathematics: M, elapsed: nat)

  datatype Phase = Solver | Verification | Instrumentation | Interruption

  datatype Failure = Failure(slot: Slot, phase: Phase, attempt: nat, finished: nat, work: Option<nat>)

  datatype Status = Complete | Interrupted | Failed

  datatype Report<M> = Report(observations: seq<Observation<M>>, status: Status, priorFailures: seq<Failure>,
                              failure: Option<Failure>, completed: nat)

  datatype Checkpoint<M> = Checkpoint(observations: seq<Observation<M>>, failures: seq<Failure>)

  // ---------------------------------------------------------------- the plan

  function SeedSlots(c: Case, solver: nat, seeds: seq<nat>, n: nat): seq<Slot>
    requires n <= |seeds|
  {
    seq(n, i requires 0 <= i < n => Slot(c.id, solver, i, seeds[i], c.maxWork))
  }

  function CaseSlots(c: Case, n: nat, seeds: seq<nat>): seq<Slot>
    requires n <= |c.methods|
  {
    if n == 0 then [] else CaseSlots(c, n - 1, seeds) + SeedSlots(c, c.methods[n - 1], seeds, |seeds|)
  }

  /** Case by case, method by method, seed by seed. */
  function Plan(s: Suite, n: nat): seq<Slot>
    requires n <= |s.cases|
  {
    if n == 0 then [] else Plan(s, n - 1) + CaseSlots(s.cases[n - 1], |s.cases[n - 1].methods|, s.seeds)
  }

  function WholePlan(s: Suite): seq<Slot> { Plan(s, |s.cases|) }

  predicate DistinctNats(xs: seq<nat>) { forall i, j :: 0 <= i < j < |xs| ==> xs[i] != xs[j] }

  predicate ValidSuite(s: Suite) {
    && (forall i, j :: 0 <= i < j < |s.cases| ==> s.cases[i].id != s.cases[j].id)
    && (forall i :: 0 <= i < |s.cases| ==> DistinctNats(s.cases[i].methods))
  }

  predicate DistinctSlots(plan: seq<Slot>) { forall i, j :: 0 <= i < j < |plan| ==> plan[i] != plan[j] }

  method Invocations(s: Suite) returns (plan: seq<Slot>)
    ensures plan == WholePlan(s)
  {
    plan := [];
    var c := 0;
    while c < |s.cases|
      invariant 0 <= c <= |s.cases| && plan == Plan(s, c)
    {
      var of := s.cases[c];
      var m := 0;
      while m < |of.methods|
        invariant 0 <= m <= |of.methods| && plan == Plan(s, c) + CaseSlots(of, m, s.seeds)
      {
        var k := 0;
        while k < |s.seeds|
          invariant 0 <= k <= |s.seeds|
          invariant plan == Plan(s, c) + (CaseSlots(of, m, s.seeds) + SeedSlots(of, of.methods[m], s.seeds, k))
        {
          var slot := Slot(of.id, of.methods[m], k, s.seeds[k], of.maxWork);
          assert SeedSlots(of, of.methods[m], s.seeds, k + 1) == SeedSlots(of, of.methods[m], s.seeds, k) + [slot];
          plan := plan + [slot];
          k := k + 1;
        }
        m := m + 1;
      }
      c := c + 1;
    }
  }

  lemma {:induction false} CaseSlotsOf(c: Case, n: nat, seeds: seq<nat>)
    requires n <= |c.methods|
    ensures forall x :: x in CaseSlots(c, n, seeds) ==> x.caseId == c.id && x.solver in c.methods[..n]
    ensures DistinctNats(c.methods) ==> DistinctSlots(CaseSlots(c, n, seeds))
  {
    if n > 0 {
      CaseSlotsOf(c, n - 1, seeds);
      var a, b := CaseSlots(c, n - 1, seeds), SeedSlots(c, c.methods[n - 1], seeds, |seeds|);
      forall x: Slot | x in a + b ensures x.caseId == c.id && x.solver in c.methods[..n] {
        if x in a { assert x.solver in c.methods[..n - 1]; } else { assert c.methods[..n][n - 1] == x.solver; }
      }
      if DistinctNats(c.methods) {
        forall i, j | 0 <= i < j < |a + b| ensures (a + b)[i] != (a + b)[j] {
          if i < |a| <= j { assert a[i] in a && a[i].solver in c.methods[..n - 1]; }
        }
      }
    }
  }

  /** No slot of the plan is declared twice. */
  lemma {:induction false} PlanDistinct(s: Suite, n: nat)
    requires ValidSuite(s) && n <= |s.cases|
    ensures DistinctSlots(Plan(s, n))
    ensures forall x :: x in Plan(s, n) ==> exists i :: 0 <= i < n && s.cases[i].id == x.caseId
  {
    if n > 0 {
      PlanDistinct(s, n - 1);
      var c := s.cases[n - 1];
      var a, b := Plan(s, n - 1), CaseSlots(c, |c.methods|, s.seeds);
      CaseSlotsOf(c, |c.methods|, s.seeds);
      forall i, j | 0 <= i < j < |a + b| ensures (a + b)[i] != (a + b)[j] {
        if i < |a| <= j { assert a[i] in a && b[j - |a|] in b; }
      }
      forall x: Slot | x in a + b ensures exists i :: 0 <= i < n && s.cases[i].id == x.caseId {
        if x in a { var i :| 0 <= i < n - 1 && s.cases[i].id == x.caseId; } else { assert s.cases[n - 1].id == x.caseId; }
      }
    }
  }

  // ---------------------------------------------------------------- verifying progress

  /** The same solver on the same case with the same seed, whatever the repetition. */
  predicate SameLabel(a: Slot, b: Slot) { a.caseId == b.caseId && a.solver == b.solver && a.seed == b.seed }

  /** gate is the independent check of one result. */
  predicate VerifiedObservations<M(==)>(plan: seq<Slot>, obs: seq<Observation<M>>, gate: (Slot, M) -> bool) {
    && |obs| <= |plan|
    && (forall i :: 0 <= i < |obs| ==> obs[i].slot == plan[i] && gate(plan[i], obs[i].mathematics))
    && (forall i, j :: 0 <= i < j < |obs| && SameLabel(plan[i], plan[j]) ==> obs[i].mathematics == obs[j].mathematics)
  }

  /** One pass with a table of the results seen for each label. */
  method VerifyObservations<M(==)>(plan: seq<Slot>, obs: seq<Observation<M>>, gate: (Slot, M) -> bool) returns (ok: bool)
    ensures ok <==> VerifiedObservations(plan, obs, gate)
  {
    if |obs| > |plan| { return false; }
    var repeats: map<(nat, nat, nat), M> := map[];
    var i := 0;
    while i < |obs|
      invariant 0 <= i <= |obs| && VerifiedObservations(plan, obs[..i], gate)
      invariant forall k :: 0 <= k < i ==> plan[k].Label() in repeats && repeats[plan[k].Label()] == obs[k].mathematics
      invariant forall l :: l in repeats ==> exists k :: 0 <= k < i && plan[k].Label() == l
    {
      var o := obs[i];
      if o.slot != plan[i] || !gate(plan[i], o.mathematics) { return false; }
      var key := plan[i].Label();
      if key in repeats && repeats[key] != o.mathematics {
        var k :| 0 <= k < i && plan[k].Label() == key;
        return false;
      }
      repeats := repeats[key := o.mathematics];
      i := i + 1;
    }
    assert obs[..|obs|] == obs;
    ok := true;
  }

  function Position(plan: seq<Slot>, slot: Slot): Option<nat> {
    if plan == [] then None
    else if plan[0] == slot then Some(0)
    else match Position(plan[1..], slot) case None => None case Some(i) => Some(i + 1)
  }

  lemma {:induction false} PositionIs(plan: seq<Slot>, i: nat)
    requires DistinctSlots(plan) && i < |plan|
    ensures Position(plan, plan[i]) == Some(i)
  {
    if i > 0 { PositionIs(plan[1..], i - 1); }
  }

  predicate WithinBudget(f: Failure) { f.work.Some? ==> f.work.value <= f.slot.maxWork }

  predicate VerifiedFailure(plan: seq<Slot>, reached: nat, f: Failure, index: nat) {
    && f.attempt == index && (f.work.Some? ==> f.work.value <= f.slot.maxWork)
    && Position(plan, f.slot).Some? && Position(plan, f.slot).value <= reached
  }

  /** Attempts are numbered consecutively and never go back to an earlier slot or skip an unreached one. */
  predicate VerifiedFailures(plan: seq<Slot>, reached: nat, fs: seq<Failure>) {
    && (forall i :: 0 <= i < |fs| ==> VerifiedFailure(plan, reached, fs[i], i))
    && (forall i, j :: 0 <= i < j < |fs| ==> Position(plan, fs[i].slot).value <= Position(plan, fs[j].slot).value)
  }

  lemma FailureAt(plan: seq<Slot>, reached: nat, fs: seq<Failure>, i: nat)
    requires VerifiedFailures(plan, reached, fs) && i < |fs|
    ensures VerifiedFailure(plan, reached, fs[i], i)
    ensures i > 0 ==> Position(plan, fs[i - 1].slot).Some?
    ensures i > 0 ==> Position(plan, fs[i - 1].slot).value <= Position(plan, fs[i].slot).value
  {}

  method VerifyFailures(plan: seq<Slot>, reached: nat, fs: seq<Failure>) returns (ok: bool)
    ensures ok <==> VerifiedFailures(plan, reached, fs)
  {
    var previous, i := -1, 0;
    while i < |fs|
      invariant 0 <= i <= |fs| && VerifiedFailures(plan, reached, fs[..i])
      invariant previous == if i == 0 then -1 else Position(plan, fs[i - 1].slot).value
    {
      var position := Position(plan, fs[i].slot);
      if position.None? || fs[i].attempt != i || position.value < previous || position.value > reached
         || !WithinBudget(fs[i]) {
        if VerifiedFailures(plan, reached, fs) { FailureAt(plan, reached, fs, i); }
        return false;
      }
      ghost var before := fs[..i];
      assert fs[..i + 1] == before + [fs[i]];
      assert forall k :: 0 <= k < i ==> fs[..i][k] == fs[k];
      forall k | 0 <= k < i ensures Position(plan, fs[k].slot).value <= position.value {
        if k < i - 1 { assert Position(plan, before[k].slot).value <= Position(plan, before[i - 1].slot).value; }
      }
      assert forall k :: 0 <= k < i ==> VerifiedFailure(plan, reached, before[k], k);
      previous := position.value;
      i := i + 1;
    }
    assert fs[..|fs|] == fs;
    ok := true;
  }

  /** Everything a report checks about itself. */
  predicate VerifiedReport<M(==)>(plan: seq<Slot>, r: Report<M>, gate: (Slot, M) -> bool) {
    && VerifiedObservations(plan, r.observations, gate)
    && VerifiedFailures(plan, |r.observations|, r.priorFailures) && |r.priorFailures| <= MAX_FAILURES
    && (r.status == Complete ==> |r.observations| == |plan|)
    && (r.status == Failed ==> r.failure.Some?)
    && (r.failure.Some? ==>
          && r.status != Complete && |r.observations| < |plan| && r.failure.value.slot == plan[|r.observations|]
          && |r.priorFailures| < MAX_FAILURES && r.failure.value.attempt == |r.priorFailures|
          && (r.failure.value.work.Some? ==> r.failure.value.work.value <= r.failure.value.slot.maxWork)
          && (r.failure.value.phase == Interruption <==> r.status == Interrupted)
          && r.failure.value.finished <= r.completed)
    && (forall i :: 0 <= i < |r.priorFailures| ==> r.priorFailures[i].finished <= r.completed)
  }

  function Export<M>(r: Report<M>): Checkpoint<M> {
    Checkpoint(r.observations, r.priorFailures + if r.failure.Some? then [r.failure.value] else [])
  }

  // ---------------------------------------------------------------- running a chunk

  /** What the process observes around the next slot: a cancellation before the call, an instrumentation or
      solver error, a native abort with its counter, an interrupt of the call or of its verification, or a
      return with whatever result the adapter produced. */
  datatype Call<M> = Cancelled | Broken | Raises | Aborts(work: nat) | Interrupts | Returns(mathematics: M, elapsed: nat)

  datatype Outcome<M> = Refused | Emitted(report: Report<M>)

  /** The deterministic results of the plan's first n slots. */
  function Mathematics<M>(plan: seq<Slot>, solve: Slot -> M, n: nat): seq<M>
    requires n <= |plan|
  {
    seq(n, i requires 0 <= i < n => solve(plan[i]))
  }

  function Stream<M>(obs: seq<Observation<M>>): seq<M> {
    seq(|obs|, i requires 0 <= i < |obs| => obs[i].mathematics)
  }

  /** Every retained result is the solver's. */
  predicate Genuine<M(==)>(plan: seq<Slot>, solve: Slot -> M, obs: seq<Observation<M>>) {
    |obs| <= |plan| && Stream(obs) == Mathematics(plan, solve, |obs|)
  }

  /** A checkpoint that binds: verified, within bounds and from the past. */
  predicate Binds<M(==)>(plan: seq<Slot>, c: Checkpoint<M>, gate: (Slot, M) -> bool, now: nat) {
    && VerifiedObservations(plan, c.observations, gate) && VerifiedFailures(plan, |c.observations|, c.failures)
    && |c.failures| <= MAX_FAILURES && forall i :: 0 <= i < |c.failures| ==> c.failures[i].finished <= now
  }

  lemma Longer(plan: seq<Slot>, reached: nat, more: nat, fs: seq<Failure>)
    requires VerifiedFailures(plan, reached, fs) && reached <= more
    ensures VerifiedFailures(plan, more, fs)
  {
    forall i | 0 <= i < |fs| ensures VerifiedFailure(plan, more, fs[i], i) { FailureAt(plan, reached, fs, i); }
  }

  /** Every observation from position cached on is what the call made for its slot returned. */
  predicate From<M(==)>(plan: seq<Slot>, calls: seq<Call<M>>, cached: nat, obs: seq<Observation<M>>) {
    && |obs| <= |plan|
    && forall k :: cached <= k < |obs| ==>
         k < |calls| && calls[k].Returns? && obs[k] == Observation(plan[k], calls[k].mathematics, calls[k].elapsed)
  }

  /** Every call returns. */
  predicate AllReturn<M>(plan: seq<Slot>, calls: seq<Call<M>>) {
    |calls| >= |plan| && forall k :: 0 <= k < |calls| ==> calls[k].Returns?
  }

  /** The observations completed by what the calls return. */
  function Filled<M>(plan: seq<Slot>, obs: seq<Observation<M>>, calls: seq<Call<M>>): seq<Observation<M>>
    requires |obs| <= |plan| && AllReturn(plan, calls)
  {
    seq(|plan|, k requires 0 <= k < |plan| =>
      if k < |obs| then obs[k] else Observation(plan[k], calls[k].mathematics, calls[k].elapsed))
  }

  lemma VerifiedPrefix<M>(plan: seq<Slot>, obs: seq<Observation<M>>, gate: (Slot, M) -> bool, n: nat)
    requires VerifiedObservations(plan, obs, gate) && n <= |obs|
    ensures VerifiedObservations(plan, obs[..n], gate)
  {}

  /** While nothing but returns happens, the next observation verifies if the filled plan does. */
  lemma NextVerifies<M>(plan: seq<Slot>, cached: seq<Observation<M>>, calls: seq<Call<M>>, obs: seq<Observation<M>>,
                        gate: (Slot, M) -> bool)
    requires cached <= obs && |obs| < |plan| && AllReturn(plan, calls) && From(plan, calls, |cached|, obs)
    requires VerifiedObservations(plan, Filled(plan, cached, calls), gate)
    ensures VerifiedObservations(plan, obs + [Observation(plan[|obs|], calls[|obs|].mathematics, calls[|obs|].elapsed)], gate)
  {
    var full := Filled(plan, cached, calls);
    assert obs + [Observation(plan[|obs|], calls[|obs|].mathematics, calls[|obs|].elapsed)] == full[..|obs| + 1];
    VerifiedPrefix(plan, full, gate, |obs| + 1);
  }

  lemma FilledWhole<M>(plan: seq<Slot>, cached: seq<Observation<M>>, calls: seq<Call<M>>, obs: seq<Observation<M>>)
    requires cached <= obs && |obs| == |plan| && AllReturn(plan, calls) && From(plan, calls, |cached|, obs)
    ensures obs == Filled(plan, cached, calls)
  {}

  lemma FailedReport<M>(plan: seq<Slot>, gate: (Slot, M) -> bool, obs: seq<Observation<M>>, fs: seq<Failure>,
                        phase: Phase, work: Option<nat>, finished: nat, completed: nat)
    requires DistinctSlots(plan) && VerifiedObservations(plan, obs, gate) && |obs| < |plan|
    requires VerifiedFailures(plan, |obs|, fs) && |fs| < MAX_FAILURES && finished <= completed
    requires forall i :: 0 <= i < |fs| ==> fs[i].finished <= completed
    requires work.Some? ==> work.value <= plan[|obs|].maxWork
    ensures var status := if phase == Interruption then Interrupted else Failed;
            var f := Failure(plan[|obs|], phase, |fs|, finished, work);
            var r := Report(obs, status, fs, Some(f), completed);
            VerifiedReport(plan, r, gate) && Binds(plan, Export(r), gate, completed)
  {
    var f := Failure(plan[|obs|], phase, |fs|, finished, work);
    var all := fs + [f];
    PositionIs(plan, |obs|);
    forall i | 0 <= i < |all| ensures VerifiedFailure(plan, |obs|, all[i], i) {
      if i < |fs| { FailureAt(plan, |obs|, fs, i); }
    }
    forall i, j | 0 <= i < j < |all| ensures Position(plan, all[i].slot).value <= Position(plan, all[j].slot).value {
      if j == |fs| { FailureAt(plan, |obs|, fs, i); }
    }
  }

  /** How one call fails, and the work it is known to have used; no phase means it succeeded. */
  function PhaseOf<M>(call: Call<M>, slot: Slot, accepted: bool): (r: (Option<Phase>, Option<nat>))
    requires !call.Cancelled?
    ensures r.1.Some? ==> r.1.value <= slot.maxWork
    ensures r.0.None? ==> call.Returns? && accepted
  {
    match call
    case Broken => (Some(Instrumentation), Some(0))
    case Raises => (Some(Solver), None)
    case Interrupts => (Some(Interruption), None)
    case Aborts(work) => if work <= slot.maxWork then (Some(Interruption), Some(work)) else (Some(Verification), None)
    case Returns(_, _) => (if accepted then None else Some(Verification), None)
  }

  function Later(a: nat, b: nat): nat { if a < b then b else a }

  lemma NothingYet<M>(plan: seq<Slot>, gate: (Slot, M) -> bool)
    ensures VerifiedObservations<M>(plan, [], gate) && VerifiedFailures(plan, 0, [])
  {}

  /** Results of a deterministic solver extend a genuine prefix. */
  lemma StillGenuine<M>(plan: seq<Slot>, solve: Slot -> M, calls: seq<Call<M>>, cached: seq<Observation<M>>,
                        obs: seq<Observation<M>>)
    requires cached <= obs && Genuine(plan, solve, cached) && From(plan, calls, |cached|, obs)
    requires Solved(plan, solve, calls)
    ensures Genuine(plan, solve, obs)
  {
    forall k | 0 <= k < |obs| ensures obs[k].mathematics == solve(plan[k]) {
      if k < |cached| {
        assert obs[k] == cached[k] && Stream(cached)[k] == Mathematics(plan, solve, |cached|)[k];
      }
    }
    assert Stream(obs) == Mathematics(plan, solve, |obs|);
  }

  /** Whatever the calls return is the solver's result for its slot. */
  predicate Solved<M(==)>(plan: seq<Slot>, solve: Slot -> M, calls: seq<Call<M>>) {
    forall k :: 0 <= k < |calls| && k < |plan| && calls[k].Returns? ==> calls[k].mathematics == solve(plan[k])
  }

  function Cached<M>(checkpoint: Option<Checkpoint<M>>): seq<Observation<M>> {
    if checkpoint.Some? then checkpoint.value.observations else []
  }

  function Attempted<M>(checkpoint: Option<Checkpoint<M>>): seq<Failure> {
    if checkpoint.Some? then checkpoint.value.failures else []
  }

  lemma Unfailed<M>(plan: seq<Slot>, gate: (Slot, M) -> bool, obs: seq<Observation<M>>, status: Status,
                    fs: seq<Failure>, clock: nat)
    requires VerifiedObservations(plan, obs, gate) && VerifiedFailures(plan, |obs|, fs) && |fs| <= MAX_FAILURES
    requires status != Failed && (status == Complete ==> |obs| == |plan|)
    requires forall i :: 0 <= i < |fs| ==> fs[i].finished <= clock
    ensures var r := Report(obs, status, fs, None, clock);
            VerifiedReport(plan, r, gate) && Binds(plan, Export(r), gate, clock)
  {
    assert fs + [] == fs;
  }

  /** One call for the next slot: a row that verifies together with the progress so far, or a report of the
      failed attempt. A result is turned down only when it does not verify. */
  method One<M(==)>(plan: seq<Slot>, gate: (Slot, M) -> bool, call: Call<M>, obs: seq<Observation<M>>,
                    failures: seq<Failure>, clock: nat)
    returns (row: Option<Observation<M>>, report: Option<Report<M>>)
    requires !call.Cancelled? && DistinctSlots(plan) && |obs| < |plan| && VerifiedObservations(plan, obs, gate)
    requires VerifiedFailures(plan, |obs|, failures) && |failures| < MAX_FAILURES
    requires forall i :: 0 <= i < |failures| ==> failures[i].finished <= clock
    ensures row.Some? <==> report.None?
    ensures row.Some? ==>
              && call.Returns? && row.value == Observation(plan[|obs|], call.mathematics, call.elapsed)
              && VerifiedObservations(plan, obs + [row.value], gate)
    ensures row.None? && call.Returns? ==>
              !VerifiedObservations(plan, obs + [Observation(plan[|obs|], call.mathematics, call.elapsed)], gate)
    ensures report.Some? ==>
              var r := report.value;
              && r.observations == obs && r.priorFailures == failures && r.status != Complete && r.completed == clock + 1
              && VerifiedReport(plan, r, gate) && Binds(plan, Export(r), gate, r.completed)
    ensures report.Some? ==>
              && report.value.failure.Some?
              && var f := report.value.failure.value;
                 f.slot == plan[|obs|] && f.finished == clock
                 && match call
                    case Broken => f.phase == Instrumentation && f.work == Some(0)
                    case Raises => f.phase == Solver && f.work.None?
                    case Interrupts => f.phase == Interruption && f.work.None?
                    case Aborts(work) =>
                      if work <= plan[|obs|].maxWork then f.phase == Interruption && f.work == Some(work)
                      else f.phase == Verification && f.work.None?
                    case _ => f.phase == Verification && f.work.None?
  {
    hide VerifiedFailures, VerifiedObservations, VerifiedReport, Export, Binds, DistinctSlots;
    var slot, accepted := plan[|obs|], false;
    row, report := None, None;
    if call.Returns? {
      row := Some(Observation(slot, call.mathematics, call.elapsed));
      accepted := VerifyObservations(plan, obs + [row.value], gate);
    }
    var (phase, work) := PhaseOf(call, slot, accepted);
    if phase.Some? {
      FailedReport(plan, gate, obs, failures, phase.value, work, clock, clock + 1);
      row := None;
      report := Some(Report(obs, if phase.value == Interruption then Interrupted else Failed, failures,
                            Some(Failure(slot, phase.value, |failures|, clock, work)), clock + 1));
    }
  }

  /** Runs at most cap new calls, of an adapter that may return anything. Whatever stops it, the report it
      emits passes its own verification, keeps the checkpoint's observations and attempts, adds only what the
      calls returned, and exports a checkpoint that binds again. When every call returns, it completes exactly
      when all results together verify. */
  method RunBenchmarks<M(==)>(suite: Suite, gate: (Slot, M) -> bool, cap: nat, checkpoint: Option<Checkpoint<M>>,
                              calls: seq<Call<M>>, now: nat)
    returns (r: Outcome<M>)
    requires ValidSuite(suite)
    ensures checkpoint.Some? && !Binds(WholePlan(suite), checkpoint.value, gate, now) ==> r == Refused
    ensures r == Refused ==>
              checkpoint.Some? && (!Binds(WholePlan(suite), checkpoint.value, gate, now)
                                   || |checkpoint.value.failures| == MAX_FAILURES)
    ensures r.Emitted? ==>
              && VerifiedReport(WholePlan(suite), r.report, gate)
              && Binds(WholePlan(suite), Export(r.report), gate, r.report.completed) && now <= r.report.completed
    ensures r.Emitted? ==>
              && Cached(checkpoint) <= r.report.observations && r.report.priorFailures == Attempted(checkpoint)
              && From(WholePlan(suite), calls, |Cached(checkpoint)|, r.report.observations)
              && |r.report.observations| <= |Cached(checkpoint)| + cap
    ensures r.Emitted? && AllReturn(WholePlan(suite), calls) && |Cached(checkpoint)| + cap >= |WholePlan(suite)| ==>
              (r.report.status == Complete
               <==> VerifiedObservations(WholePlan(suite), Filled(WholePlan(suite), Cached(checkpoint), calls), gate))
  {
    hide VerifiedFailures, VerifiedObservations, VerifiedReport, From, Filled, Plan, Export;
    var plan := Invocations(suite);
    PlanDistinct(suite, |suite.cases|);
    var obs: seq<Observation<M>>, failures: seq<Failure> := [], [];
    NothingYet(plan, gate);
    if checkpoint.Some? {
      var c := checkpoint.value;
      var sound := VerifyObservations(plan, c.observations, gate);
      if !sound { return Refused; }
      sound := VerifyFailures(plan, |c.observations|, c.failures);
      if !sound || |c.failures| > MAX_FAILURES || exists i :: 0 <= i < |c.failures| && c.failures[i].finished > now {
        return Refused;
      }
      obs, failures := c.observations, c.failures;
    }
    VerifiedLength(plan, obs, gate);
    FromStart(plan, calls, obs);
    ghost var resumed := obs;
    var cached, clock, index := |obs|, now, 0;
    while index < |plan|
      invariant 0 <= index <= |plan| && cached <= |obs| <= |plan| && |obs| == Later(cached, index)
      invariant |obs| <= cached + cap && resumed == Cached(checkpoint) <= obs && failures == Attempted(checkpoint)
      invariant VerifiedObservations(plan, obs, gate) && From(plan, calls, cached, obs)
      invariant VerifiedFailures(plan, |obs|, failures) && |failures| <= MAX_FAILURES
      invariant forall i :: 0 <= i < |failures| ==> failures[i].finished <= clock
      invariant now <= clock
    {
      var call := if index < |calls| then calls[index] else Cancelled;
      clock := clock + 1;
      Unfailed(plan, gate, obs, Interrupted, failures, clock);
      if call.Cancelled? { return Emitted(Report(obs, Interrupted, failures, None, clock)); }
      if index >= cached {
        if |obs| - cached >= cap { return Emitted(Report(obs, Interrupted, failures, None, clock)); }
        if |failures| >= MAX_FAILURES { return Refused; }
        var row, failed := One(plan, gate, call, obs, failures, clock);
        if failed.Some? {
          if AllReturn(plan, calls) && VerifiedObservations(plan, Filled(plan, resumed, calls), gate) {
            NextVerifies(plan, resumed, calls, obs, gate);
            assert false;
          }
          return Emitted(failed.value);
        }
        Longer(plan, |obs|, |obs| + 1, failures);
        FromNext(plan, calls, cached, obs);
        obs := obs + [row.value];
      }
      index := index + 1;
    }
    Unfailed(plan, gate, obs, Complete, failures, clock);
    if AllReturn(plan, calls) { FilledWhole(plan, resumed, calls, obs); }
    r := Emitted(Report(obs, Complete, failures, None, clock));
  }

  lemma VerifiedLength<M>(plan: seq<Slot>, obs: seq<Observation<M>>, gate: (Slot, M) -> bool)
    requires VerifiedObservations(plan, obs, gate)
    ensures |obs| <= |plan|
  {}

  lemma FromStart<M>(plan: seq<Slot>, calls: seq<Call<M>>, obs: seq<Observation<M>>)
    requires |obs| <= |plan|
    ensures From(plan, calls, |obs|, obs)
  {}

  lemma FromNext<M>(plan: seq<Slot>, calls: seq<Call<M>>, cached: nat, obs: seq<Observation<M>>)
    requires From(plan, calls, cached, obs) && |obs| < |plan| && |obs| < |calls| && calls[|obs|].Returns?
    ensures From(plan, calls, cached, obs + [Observation(plan[|obs|], calls[|obs|].mathematics, calls[|obs|].elapsed)])
  {}

  /** A chain of chunks, each resuming from the checkpoint the last one exported. Failed and interrupted
      chunks are retried by the next. With a deterministic solver, a chain that ends complete has the stream
      of results of the whole plan, as one uninterrupted run produces it. */
  method RunChunks<M(==)>(suite: Suite, ghost solve: Slot -> M, gate: (Slot, M) -> bool,
                          chunks: seq<(nat, seq<Call<M>>)>)
    returns (r: Outcome<M>)
    requires ValidSuite(suite) && chunks != []
    requires forall i :: 0 <= i < |chunks| ==> Solved(WholePlan(suite), solve, chunks[i].1)
    ensures r.Emitted? ==> VerifiedReport(WholePlan(suite), r.report, gate)
    ensures r.Emitted? && r.report.status == Complete ==>
              Stream(r.report.observations) == Mathematics(WholePlan(suite), solve, |WholePlan(suite)|)
  {
    hide VerifiedObservations, VerifiedFailures, From;
    ghost var plan := WholePlan(suite);
    NoneGenuine(plan, solve);
    r := RunBenchmarks(suite, gate, chunks[0].0, None, chunks[0].1, 0);
    if r.Emitted? { StillGenuine(plan, solve, chunks[0].1, [], r.report.observations); }
    var i := 1;
    while i < |chunks| && r.Emitted?
      invariant 1 <= i <= |chunks|
      invariant r.Emitted? ==>
                  && VerifiedReport(plan, r.report, gate) && Genuine(plan, solve, r.report.observations)
                  && Binds(plan, Export(r.report), gate, r.report.completed)
    {
      ghost var before := r.report.observations;
      r := RunBenchmarks(suite, gate, chunks[i].0, Some(Export(r.report)), chunks[i].1, r.report.completed);
      if r.Emitted? { StillGenuine(plan, solve, chunks[i].1, before, r.report.observations); }
      i := i + 1;
    }
  }

  lemma NoneGenuine<M>(plan: seq<Slot>, solve: Slot -> M)
    ensures Genuine<M>(plan, solve, [])
  {
    var none: seq<Observation<M>> := [];
    assert Stream(none) == Mathematics(plan, solve, 0);
  }
}
