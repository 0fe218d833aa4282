/** The independent readers of a job's physical attempts, and why every reachable job passes them. */
module WorkflowValidation {
  import opened Basics
  import opened WorkflowModel
  import opened WorkflowInvariant
  import opened WorkflowTheorems

  /** One retained reservation file: the number in its name, the trial it names, whether its plan
      fingerprint matches, and the event itself. */
  datatype Stored = Stored(name: nat, trial: TrialId, bound: bool, event: Attempt)

  /** One attempt of a report. */
  datatype Physical = Physical(trial: TrialId, event: Attempt)

  predicate Consecutive(plan: Plan, trial: TrialId, files: seq<Stored>) {
    && |files| <= plan.maxAttempts
    && forall i :: 0 <= i < |files| ==>
         files[i].name == i + 1 == files[i].event.ordinal && files[i].trial == trial && files[i].bound
  }

  function Events(files: seq<Stored>): seq<Attempt> {
    seq(|files|, i requires 0 <= i < |files| => files[i].event)
  }

  /** Reads one trial's files in name order, refusing a gap, an excess or a foreign binding. */
  method ReadTrialAttempts(plan: Plan, trial: TrialId, files: seq<Stored>) returns (events: Option<seq<Attempt>>)
    ensures events.Some? <==> Consecutive(plan, trial, files)
    ensures events.Some? ==> events.value == Events(files)
  {
    if |files| > plan.maxAttempts { return None; }
    var read: seq<Attempt> := [];
    var i := 0;
    while i < |files|
      invariant 0 <= i <= |files| && read == Events(files)[..i]
      invariant Consecutive(plan, trial, files[..i])
    {
      var f := files[i];
      if f.event.ordinal != i + 1 || f.trial != trial || !f.bound || f.name != i + 1 { return None; }
      read := read + [f.event];
      i := i + 1;
    }
    assert files[..|files|] == files;
    events := Some(read);
  }

  function Numbered(n: nat): seq<nat> { seq(n, i => i + 1) }

  /** The ordinals retained for one trial, in report order. */
  function Ordinals(events: seq<Physical>, t: TrialId): seq<nat> {
    if events == [] then []
    else Ordinals(events[..|events| - 1], t)
         + if events[|events| - 1].trial == t then [events[|events| - 1].event.ordinal] else []
  }

  predicate EventAllowed(plan: Plan, e: Attempt) {
    e.ordinal <= e.invocation <= plan.maxAttempts && StageFits(plan, e.stage)
  }

  /** Within each trial the ordinals are exactly one to n, in some order. */
  predicate Contiguous(ordinals: seq<nat>) { multiset(ordinals) == multiset(Numbered(|ordinals|)) }

  ghost predicate WithinLimits(plan: Plan, events: seq<Physical>) {
    && (forall i :: 0 <= i < |events| ==>
          && events[i].event.ordinal <= events[i].event.invocation <= plan.maxAttempts
          && events[i].event.stage in (if plan.isProtected then {Tuning, Evaluation} else {Descriptive}))
    && (forall t :: TrialFine(events, t))
  }

  function Group(grouped: map<TrialId, seq<nat>>, t: TrialId): seq<nat> { if t in grouped then grouped[t] else [] }

  ghost predicate Groups(grouped: map<TrialId, seq<nat>>, events: seq<Physical>) {
    forall t :: Group(grouped, t) == Ordinals(events, t)
  }

  lemma GroupPush(grouped: map<TrialId, seq<nat>>, events: seq<Physical>, e: Physical)
    requires Groups(grouped, events)
    ensures Groups(grouped[e.trial := Group(grouped, e.trial) + [e.event.ordinal]], events + [e])
  {
    assert (events + [e])[..|events|] == events;
    var more := grouped[e.trial := Group(grouped, e.trial) + [e.event.ordinal]];
    forall t ensures Group(more, t) == Ordinals(events + [e], t) {
      assert Group(grouped, t) == Ordinals(events, t);
      if t != e.trial { assert Ordinals(events, t) + [] == Ordinals(events, t); }
    }
  }

  lemma OneGroup(grouped: map<TrialId, seq<nat>>, events: seq<Physical>, t: TrialId)
    requires Groups(grouped, events)
    ensures Contiguous(Ordinals(events, t)) <==> (t in grouped ==> Contiguous(grouped[t]))
  {
    assert Group(grouped, t) == Ordinals(events, t);
    hide Ordinals, Groups;
    if t !in grouped { NoneContiguous(); }
  }

  predicate GroupFine(grouped: map<TrialId, seq<nat>>, t: TrialId) { t in grouped ==> Contiguous(grouped[t]) }

  ghost predicate TrialFine(events: seq<Physical>, t: TrialId) { Contiguous(Ordinals(events, t)) }

  lemma GroupsDecide(grouped: map<TrialId, seq<nat>>, events: seq<Physical>)
    requires Groups(grouped, events)
    ensures (forall t :: t in grouped ==> GroupFine(grouped, t)) <==> forall t :: TrialFine(events, t)
  {
    forall t ensures GroupFine(grouped, t) <==> TrialFine(events, t) { OneGroup(grouped, events, t); }
    hide TrialFine;
  }

  /** Groups the ordinals by trial in one pass, then looks at each group. */
  method AttemptLimits(plan: Plan, events: seq<Physical>) returns (ok: bool)
    ensures ok <==> WithinLimits(plan, events)
  {
    LimitsMean(plan, events);
    hide EventAllowed, WithinLimits, TrialFine, Groups;
    var grouped: map<TrialId, seq<nat>> := map[];
    NoGroups();
    var i := 0;
    while i < |events|
      invariant 0 <= i <= |events| && Groups(grouped, events[..i])
      invariant forall k :: 0 <= k < i ==> EventAllowed(plan, events[k].event)
    {
      if !EventAllowed(plan, events[i].event) { return false; }
      GroupPush(grouped, events[..i], events[i]);
      assert events[..i] + [events[i]] == events[..i + 1];
      grouped := grouped[events[i].trial := Group(grouped, events[i].trial) + [events[i].event.ordinal]];
      i := i + 1;
    }
    assert events[..|events|] == events;
    assert forall k :: 0 <= k < |events| ==> EventAllowed(plan, events[k].event);
    GroupsDecide(grouped, events);
    ok := forall t :: t in grouped ==> GroupFine(grouped, t);
  }

  lemma LimitsMean(plan: Plan, events: seq<Physical>)
    ensures WithinLimits(plan, events) <==>
            (forall i :: 0 <= i < |events| ==> EventAllowed(plan, events[i].event)) && forall t :: TrialFine(events, t)
  {
    hide TrialFine;
    forall i | 0 <= i < |events|
      ensures EventAllowed(plan, events[i].event) <==>
              && events[i].event.ordinal <= events[i].event.invocation <= plan.maxAttempts
              && events[i].event.stage in (if plan.isProtected then {Tuning, Evaluation} else {Descriptive})
    {}
  }

  lemma NoGroups()
    ensures Groups(map[], [])
  {}

  lemma NoneContiguous()
    ensures Contiguous([])
  {}

  function Tagged(t: TrialId, events: seq<Attempt>): seq<Physical> {
    seq(|events|, i requires 0 <= i < |events| => Physical(t, events[i]))
  }

  /** A report's attempts: every trial of the plan in turn. */
  function Retained(trials: seq<TrialId>, f: Folder): seq<Physical> {
    if trials == [] then []
    else Retained(trials[..|trials| - 1], f) + Tagged(trials[|trials| - 1], f.Events(trials[|trials| - 1]))
  }

  lemma {:induction false} OrdinalsAppend(a: seq<Physical>, b: seq<Physical>, t: TrialId)
    ensures Ordinals(a + b, t) == Ordinals(a, t) + Ordinals(b, t)
    decreases |b|
  {
    if b == [] {
      assert a + b == a;
    } else {
      assert (a + b)[..|a + b| - 1] == a + b[..|b| - 1];
      OrdinalsAppend(a, b[..|b| - 1], t);
    }
  }

  lemma {:induction false} OrdinalsTagged(u: TrialId, events: seq<Attempt>, t: TrialId)
    requires forall i :: 0 <= i < |events| ==> events[i].ordinal == i + 1
    ensures Ordinals(Tagged(u, events), t) == if u == t then Numbered(|events|) else []
  {
    if events != [] {
      var n := |events| - 1;
      assert Tagged(u, events)[..n] == Tagged(u, events[..n]);
      OrdinalsTagged(u, events[..n], t);
      assert Numbered(n + 1) == Numbered(n) + [n + 1];
    }
  }

  lemma DistinctFront(trials: seq<TrialId>, n: nat, t: TrialId)
    requires Distinct(trials) && |trials| == n + 1
    ensures Distinct(trials[..n]) && (t in trials <==> t in trials[..n] || t == trials[n]) && trials[n] !in trials[..n]
  {}

  lemma {:induction false} OrdinalsRetained(trials: seq<TrialId>, f: Folder, t: TrialId)
    requires Distinct(trials) && forall u, i :: 0 <= i < |f.Events(u)| ==> f.Events(u)[i].ordinal == i + 1
    ensures Ordinals(Retained(trials, f), t) == if t in trials then Numbered(|f.Events(t)|) else []
  {
    hide Ordinals, Tagged, Numbered, Retained, Distinct;
    if trials == [] {
      NoneRetained(f, t);
    } else {
      var n := |trials| - 1;
      var u := trials[n];
      LastRetained(trials, n, f);
      DistinctFront(trials, n, t);
      OrdinalsRetained(trials[..n], f, t);
      OrdinalsTagged(u, f.Events(u), t);
      OrdinalsAppend(Retained(trials[..n], f), Tagged(u, f.Events(u)), t);
    }
  }

  lemma NoneRetained(f: Folder, t: TrialId)
    ensures Ordinals(Retained([], f), t) == []
  {}

  lemma LastRetained(trials: seq<TrialId>, n: nat, f: Folder)
    requires |trials| == n + 1
    ensures Retained(trials, f) == Retained(trials[..n], f) + Tagged(trials[n], f.Events(trials[n]))
  {
    hide Tagged;
  }

  lemma {:induction false} AllowedRetained(trials: seq<TrialId>, f: Folder, plan: Plan)
    requires forall u, i :: 0 <= i < |f.Events(u)| ==> EventAllowed(plan, f.Events(u)[i])
    ensures forall k :: 0 <= k < |Retained(trials, f)| ==> EventAllowed(plan, Retained(trials, f)[k].event)
  {
    if trials != [] { AllowedRetained(trials[..|trials| - 1], f, plan); }
  }

  /** Across all crashes and resumes, what a worker leaves behind passes the independent validator. */
  lemma ReachableAttemptsPass(s0: System, es: seq<Event>, s: System, j: nat)
    requires Initial(s0) && Runs(s0, es, s) && j < |s.jobs|
    ensures |s.folders| == |s.jobs| && WithinLimits(s.jobs[j].plan, Retained(s.jobs[j].plan.trials, s.folders[j]))
  {
    InvariantOverRuns(s0, es, s);
    var plan, f := s.jobs[j].plan, s.folders[j];
    assert Distinct(plan.trials);
    forall u, i | 0 <= i < |f.Events(u)|
      ensures f.Events(u)[i].ordinal == i + 1 && EventAllowed(plan, f.Events(u)[i])
    {
      AttemptsAlwaysValid(s0, es, s, j, u);
    }
    hide Inv, Initial, Runs, EventAllowed, WithinLimits, TrialFine, Retained;
    LimitsMean(plan, Retained(plan.trials, f));
    AllowedRetained(plan.trials, f, plan);
    forall t ensures TrialFine(Retained(plan.trials, f), t) { OrdinalsRetained(plan.trials, f, t); }
  }
}
