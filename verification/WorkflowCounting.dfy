/** How often one scheduling transaction counts a job against its caps. */
module WorkflowCounting {
  import opened Basics
  import opened WorkflowModel
  import opened WorkflowInvariant
  import opened WorkflowScheduling
  import opened WorkflowTheorems
  import opened WorkflowSupervisor
  import opened WorkflowRun

  /** The transaction open in s has claimed job j, which waited when it began in state b. */
  predicate ClaimedSince(b: System, s: System, j: nat)
    requires s.txn.Some? && j < |b.jobs| && j < |s.txn.value.draft|
  {
    b.jobs[j].state == Queued && s.txn.value.draft[j].state == Running
  }

  ghost predicate Counted(b: System, s: System) {
    && s.txn.Some? && s.jobs == b.jobs && |b.locks| == |b.jobs| == |s.txn.value.draft|
    && forall j :: 0 <= j < |b.jobs| ==>
         multiset(s.txn.value.active)[j] == OneIf(b.locks[j] != {}) + OneIf(ClaimedSince(b, s, j))
  }

  /** es leads from s to s', and one transaction is open all the way. */
  ghost predicate StaysOpen(s: System, es: seq<Event>, s': System)
    decreases |es|
  {
    if es == [] then s == s'
    else Enabled(s, es[0]) && Apply(s, es[0]).txn.Some? && StaysOpen(Apply(s, es[0]), es[1..], s')
  }

  lemma {:induction false} MembersCount(n: nat, A: set<nat>, x: nat)
    ensures multiset(Members(n, A))[x] == OneIf(x < n && x in A)
  {
    if n > 0 {
      MembersCount(n - 1, A, x);
      var front := Members(n - 1, A);
      assert Members(n, A) == if n - 1 in A then front + [n - 1] else front;
      hide Members;
      CountPush(front, n - 1, x);
    }
  }

  lemma CountPush(list: seq<nat>, last: nat, x: nat)
    ensures multiset(list + [last])[x] == multiset(list)[x] + OneIf(x == last)
  {}

  lemma CountedBegin(b: System, c: Pid)
    requires Shape(b) && CanBegin(b, c)
    ensures Counted(b, DoBegin(b, c))
  {
    hide Members;
    forall j: nat ensures multiset(Members(|b.jobs|, Busy(b)))[j] == OneIf(j < |b.jobs| && j in Busy(b)) {
      MembersCount(|b.jobs|, Busy(b), j);
    }
  }

  lemma CountedSpawn(b: System, s: System, c: Pid)
    requires Shape(s) && Scheduling(s) && Counted(b, s) && CanSpawn(s, c)
    ensures Counted(b, DoSpawn(s, c))
  {
    var t := s.txn.value;
    assert t.draft[t.cursor] == s.jobs[t.cursor] && s.jobs[t.cursor].state == Queued;
    hide Shape, Scheduling;
    assert multiset(t.active + [t.cursor]) == multiset(t.active) + multiset{t.cursor};
  }

  lemma CountedExhaust(b: System, s: System, c: Pid)
    requires Shape(s) && Scheduling(s) && Counted(b, s) && CanExhaust(s, c)
    ensures Counted(b, DoExhaust(s, c))
  {
    var t := s.txn.value;
    assert t.draft[t.cursor] == s.jobs[t.cursor] && s.jobs[t.cursor].state == Queued;
    hide Shape, Scheduling;
  }

  lemma CountedCoordinator(b: System, s: System, c: Pid, m: CoordinatorStep)
    requires Shape(s) && Scheduling(s) && Counted(b, s) && CoordinatorCan(s, c, m) && CoordinatorDo(s, c, m).txn.Some?
    ensures Counted(b, CoordinatorDo(s, c, m))
  {
    hide Shape, Scheduling;
    match m
    case Spawn => CountedSpawn(b, s, c);
    case Exhaust => CountedExhaust(b, s, c);
    case _ =>
  }

  lemma ClientsWait(s: System, a: ClientStep)
    requires ClientCan(s, a) && s.txn.Some?
    ensures ClientDo(s, a).jobs == s.jobs
  {
    hide QueueHasRoom;
  }

  /** While the transaction is open nothing but its owner's claims changes what it counts. */
  lemma CountedStep(b: System, s: System, e: Event)
    requires Inv(s) && Counted(b, s) && Enabled(s, e) && Apply(s, e).txn.Some?
    ensures Counted(b, Apply(s, e))
  {
    hide Counted;
    match e
    case Tick(_) => SameCounts(b, s, Apply(s, e));
    case ByClient(a) =>
      ClientFrame(s, a);
      ClientsWait(s, a);
      SameCounts(b, s, Apply(s, e));
    case ByCoordinator(c, m) => CountedCoordinator(b, s, c, m);
    case ByWorker(w, k) =>
      WorkerFrame(s, w, k);
      OwnedStep(s, w, k);
      SameCounts(b, s, Apply(s, e));
  }

  lemma SameCounts(b: System, s: System, s': System)
    requires Counted(b, s) && s'.txn == s.txn && s'.jobs == s.jobs
    ensures Counted(b, s')
  {}

  lemma {:induction false} CountedRun(b: System, s: System, es: seq<Event>, s': System)
    requires Inv(s) && Counted(b, s) && StaysOpen(s, es, s')
    ensures Counted(b, s')
    decreases |es|
  {
    hide Inv, Counted, Enabled, Apply;
    if es != [] {
      CountedStep(b, s, es[0]);
      StepKeeps(s, es[0]);
      CountedRun(b, Apply(s, es[0]), es[1..], s');
    }
  }

  /** One transaction, whatever other processes do meanwhile, counts a job once for a lock that was busy when
      it was probed and once for a claim. So it counts a job twice exactly when it claims one whose lock was
      busy at the probe, and never more often. */
  lemma DoubleCounting(b: System, c: Pid, es: seq<Event>, s: System, j: nat)
    requires Inv(b) && CanBegin(b, c) && StaysOpen(DoBegin(b, c), es, s) && j < |b.jobs|
    ensures s.txn.Some? && |s.txn.value.draft| == |b.jobs| == |b.locks|
    ensures multiset(s.txn.value.active)[j] == OneIf(b.locks[j] != {}) + OneIf(ClaimedSince(b, s, j))
    ensures multiset(s.txn.value.active)[j] >= 2 <==> b.locks[j] != {} && ClaimedSince(b, s, j)
  {
    hide Inv, Shape, Scheduling, StaysOpen, CanBegin, DoBegin;
    InvShape(b);
    CountedBegin(b, c);
    CoordinatorKeeps(b, c, BeginSchedule);
    CountedRun(b, CoordinatorDo(b, c, BeginSchedule), es, s);
  }

  // ---------------------------------------------------------------- a run that counts a job twice

  lemma CoordinatorOnward(s0: System, es: seq<Event>, s: System, c: Pid, m: CoordinatorStep)
    requires Runs(s0, es, s) && CoordinatorCan(s, c, m)
    ensures Runs(s0, es + [ByCoordinator(c, m)], CoordinatorDo(s, c, m))
  {
    RunsOnward(s0, es, s, ByCoordinator(c, m));
    assert Apply(s, ByCoordinator(c, m)) == CoordinatorDo(s, c, m);
  }

  /** One waiting job, its lock held by the processes given. */
  predicate OneWaiting(s: System, c: Pid, holders: set<Pid>) {
    && |s.jobs| == |s.locks| == |s.seen| == |s.folders| == 1 && s.jobs[0].state == Queued && s.locks[0] == holders
    && s.jobs[0].invocations < s.jobs[0].plan.maxAttempts && c in s.coordinators && s.coordinators[c] == Live
    && s.policy.maxRunning >= 2 && 2 * s.jobs[0].plan.memory <= s.policy.maxMemory
  }

  /** A spawn is rolled back while its worker lives on. */
  lemma RolledBackSpawn(s0: System, es: seq<Event>, s: System, c: Pid) returns (es': seq<Event>, s': System)
    requires Runs(s0, es, s) && OneWaiting(s, c, {}) && s.txn.None? && c != s.next
    ensures Runs(s0, es', s') && OneWaiting(s', c, {s.next}) && s'.txn.None?
    ensures IsWorker(s', s.next) && s'.workers[s.next].job == 0
  {
    hide Runs;
    assert Members(1, Busy(s)) == [] by { assert Members(0, Busy(s)) == []; }
    CoordinatorOnward(s0, es, s, c, BeginSchedule);
    var s1, e1 := DoBegin(s, c), es + [ByCoordinator(c, BeginSchedule)];
    assert Total(Memories(s.jobs), []) == 0;
    CoordinatorOnward(s0, e1, s1, c, Acquire);
    var s2, e2 := DoAcquire(s1, c), e1 + [ByCoordinator(c, Acquire)];
    CoordinatorOnward(s0, e2, s2, c, Spawn);
    var s3, e3 := DoSpawn(s2, c), e2 + [ByCoordinator(c, Spawn)];
    CoordinatorOnward(s0, e3, s3, c, AbortSchedule);
    s', es' := DoAbort(s3, c), e3 + [ByCoordinator(c, AbortSchedule)];
  }

  /** The open pass has counted the job as busy and has not reached it; by now its lock is free. */
  predicate ProbedBusy(s: System, c: Pid) {
    && OneWaiting(s, c, {}) && s.txn.Some? && s.txn.value.owner == c && |s.txn.value.draft| == 1
    && s.txn.value.active == [0] && s.txn.value.cursor == 0 && !s.txn.value.holding
  }

  /** The next pass finds the lock busy, and the worker dies. */
  lemma Probed(s0: System, es: seq<Event>, s: System, c: Pid, w: Pid) returns (es': seq<Event>, s': System)
    requires Runs(s0, es, s) && OneWaiting(s, c, {w}) && s.txn.None? && c != w
    requires IsWorker(s, w) && s.workers[w].job == 0
    ensures Runs(s0, es', s') && ProbedBusy(s', c)
  {
    hide Runs, Total, Memories;
    assert Members(1, Busy(s)) == [0] by { assert Members(0, Busy(s)) == []; }
    hide Members;
    CoordinatorOnward(s0, es, s, c, BeginSchedule);
    var s1, e1 := DoBegin(s, c), es + [ByCoordinator(c, BeginSchedule)];
    RunsOnward(s0, e1, s1, ByWorker(w, WorkerGone));
    s', es' := DoWorkerGone(s1, w), e1 + [ByWorker(w, WorkerGone)];
  }

  /** The pass claims the job it has counted already. */
  lemma ClaimedAgain(s0: System, es: seq<Event>, s: System, c: Pid) returns (es': seq<Event>, s': System)
    requires Runs(s0, es, s) && ProbedBusy(s, c)
    ensures Runs(s0, es', s') && s'.txn.Some? && s'.txn.value.active == [0, 0]
  {
    hide Runs;
    assert [0][..0] == [] && Total(Memories(s.jobs), [0]) == Total(Memories(s.jobs), []) + s.jobs[0].plan.memory;
    hide Total, Memories;
    CoordinatorOnward(s0, es, s, c, Acquire);
    var s1, e1 := DoAcquire(s, c), es + [ByCoordinator(c, Acquire)];
    CoordinatorOnward(s0, e1, s1, c, Spawn);
    s', es' := DoSpawn(s1, c), e1 + [ByCoordinator(c, Spawn)];
  }

  /** From an empty workspace: a plan is admitted and a coordinator started. */
  lemma FirstAdmitted(s0: System, plan: Plan) returns (es: seq<Event>, s: System)
    requires Initial(s0) && Distinct(plan.trials) && plan.maxAttempts > 0 && s0.policy.maxJobs > 0
    requires plan.output <= s0.policy.maxRetained && s0.policy.maxRunning >= 2 && 2 * plan.memory <= s0.policy.maxMemory
    ensures Runs(s0, es, s) && OneWaiting(s, s0.next + 1, {}) && s.txn.None? && s.next == s0.next + 2
  {
    hide Runs;
    NoSteps(s0);
    RunsOnward(s0, [], s0, ByClient(Admit(plan)));
    var s1 := DoAdmit(s0, plan);
    assert s1.jobs[0].state == Queued;
    RunsOnward(s0, [] + [ByClient(Admit(plan))], s1, ByClient(Request));
    var s2 := DoRequest(s1);
    RunsOnward(s0, [] + [ByClient(Admit(plan))] + [ByClient(Request)], s2, ByClient(StartCoordinator(s0.next)));
    s := DoStartCoordinator(s2, s0.next);
    es := [] + [ByClient(Admit(plan))] + [ByClient(Request)] + [ByClient(StartCoordinator(s0.next))];
  }

  /** A pass can count a job twice. */
  lemma DoubleCountingHappens(s0: System, plan: Plan)
    requires Initial(s0) && Distinct(plan.trials) && plan.maxAttempts > 0 && s0.policy.maxJobs > 0
    requires plan.output <= s0.policy.maxRetained && s0.policy.maxRunning >= 2 && 2 * plan.memory <= s0.policy.maxMemory
    ensures exists es, s :: Runs(s0, es, s) && s.txn.Some? && s.txn.value.active == [0, 0]
  {
    hide Runs;
    var es, s := FirstAdmitted(s0, plan);
    var c, w := s0.next + 1, s.next;
    es, s := RolledBackSpawn(s0, es, s, c);
    es, s := Probed(s0, es, s, c, w);
    es, s := ClaimedAgain(s0, es, s, c);
  }
}
