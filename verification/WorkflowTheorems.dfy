/** What the workflow protocol guarantees in every interleaving with crashes. */
module WorkflowTheorems {
  import opened Basics
  import opened WorkflowModel
  import opened WorkflowInvariant
  import opened WorkflowSteps
  import opened WorkflowWorkers
  import opened WorkflowScheduling

  lemma StepKeeps(s: System, e: Event)
    requires Inv(s) && Enabled(s, e)
    ensures Inv(Apply(s, e))
  {
    hide Inv;
    match e
    case Tick(d) => TickKeeps(s, d);
    case ByClient(a) => ClientKeeps(s, a);
    case ByCoordinator(c, m) => CoordinatorKeeps(s, c, m);
    case ByWorker(w, k) => WorkerKeeps(s, w, k);
  }

  lemma TickKeeps(s: System, elapsed: nat)
    requires Inv(s)
    ensures Inv(s.(clock := s.clock + elapsed))
  {
    hide Locks, Claims, Capacity, Reservations, Results, Snapshots, Advancing, Handshake;
    var s' := s.(clock := s.clock + elapsed);
    TablesUntouched(s, s');
    SchedulingUntouched(s, s');
    HandshakeUntouched(s, s');
    CoordinationUntouched(s, s');
  }

  lemma {:induction false} RunKeeps(s: System, es: seq<Event>, s': System)
    requires Inv(s) && Runs(s, es, s')
    ensures Inv(s')
    decreases |es|
  {
    hide Inv, Enabled, Apply;
    if es != [] {
      StepKeeps(s, es[0]);
      RunKeeps(Apply(s, es[0]), es[1..], s');
    }
  }

  /** The invariant holds in every state any run can reach from an empty workspace. */
  lemma InvariantOverRuns(s0: System, es: seq<Event>, s: System)
    requires Initial(s0) && Runs(s0, es, s)
    ensures Inv(s)
  {
    hide Inv, Initial;
    EmptyWorkspace(s0);
    RunKeeps(s0, es, s);
  }

  lemma EmptyWorkspace(s: System)
    requires Initial(s)
    ensures Inv(s)
  {
    assert Held(s) == {};
  }

  // ---------------------------------------------------------------- one owner, no ABA

  /** At most one worker of a job is live; it holds the job's lock, so nobody can claim or resume the job. */
  lemma OneOwner(s0: System, es: seq<Event>, s: System, w: Pid)
    requires Initial(s0) && Runs(s0, es, s) && w in s.workers
    ensures IsWorker(s, w) && w in s.locks[s.workers[w].job]
    ensures forall v :: v in s.workers && s.workers[v].job == s.workers[w].job ==> v == w
    ensures forall c :: CanAcquire(s, c) ==> s.txn.value.cursor != s.workers[w].job
    ensures s.jobs[s.workers[w].job].state in {Interrupted, Failed, Cancelled} ==> !CanResume(s, s.workers[w].job)
    ensures !CanExpire(s, s.workers[w].job) && s.jobs[s.workers[w].job].state != Expired
  {
    InvariantOverRuns(s0, es, s);
  }

  /** Everything in a folder but the native engine's own markers. */
  predicate SameEvidence(f: Folder, f': Folder) {
    f'.present == f.present && f'.attempts == f.attempts && f'.complete == f.complete
  }

  /** Nothing durable changed but job j's row and folder, and those only under the owning invocation. */
  ghost predicate OwnedChange(s: System, w: Pid, s': System)
    requires IsWorker(s, w)
  {
    var j := s.workers[w].job;
    && |s'.jobs| == |s.jobs| && |s'.folders| == |s.folders|
    && (s'.folders[j] != s.folders[j] || s'.jobs[j] != s.jobs[j] ==> s.jobs[j].invocations == s.workers[w].claimed)
    && (s'.jobs[j] != s.jobs[j] || !SameEvidence(s.folders[j], s'.folders[j]) ==> s.jobs[j].state == Running)
    && (s'.jobs != s.jobs ==> s.txn.None?)
    && (forall i :: 0 <= i < |s.jobs| && i != j ==> s'.jobs[i] == s.jobs[i] && s'.folders[i] == s.folders[i])
    && s'.jobs[j].invocations == s.jobs[j].invocations
  }

  /** A worker changes durable state only while its row is running and names its own invocation. */
  lemma WritesAreOwned(s0: System, es: seq<Event>, s: System, w: Pid, k: WorkerStep)
    requires Initial(s0) && Runs(s0, es, s) && WorkerCan(s, w, k)
    ensures OwnedChange(s, w, WorkerDo(s, w, k))
  {
    InvariantOverRuns(s0, es, s);
    OwnedStep(s, w, k);
  }

  lemma OwnedReserve(s: System, w: Pid, durable: bool)
    requires Shape(s) && Claims(s) && CanReserve(s, w)
    ensures OwnedChange(s, w, DoReserve(s, w, durable))
  {}

  lemma OwnedPublish(s: System, w: Pid, d: Digest, durable: bool)
    requires Shape(s) && Claims(s) && CanPublish(s, w)
    ensures OwnedChange(s, w, DoPublish(s, w, d, durable))
  {}

  lemma OwnedTransition(s: System, w: Pid, row: Job)
    requires Shape(s) && Claims(s) && InTransaction(s, w) && row.invocations == Row(s, w).invocations
    ensures OwnedChange(s, w, Transition(s, w, row))
  {}

  lemma OwnedStep(s: System, w: Pid, k: WorkerStep)
    requires Shape(s) && Claims(s) && WorkerCan(s, w, k)
    ensures OwnedChange(s, w, WorkerDo(s, w, k))
  {
    hide TrialQueue, StartStep, Refused, DoReserve, DoPublish, Transition;
    match k
    case Reserve(durable) => OwnedReserve(s, w, durable);
    case Publish(d, durable) => OwnedPublish(s, w, d, durable);
    case SyncAttempts =>
      OwnedTransition(s, w, Row(s, w).(attempts := CountEvents(Row(s, w).plan.trials, s.folders[s.workers[w].job])));
    case ReportProgress =>
      OwnedTransition(s, w, Row(s, w).(checkpoint := s.folders[s.workers[w].job].Frontier(s.workers[w].queue[0])));
    case _ =>
  }

  /** What a worker event leaves alone besides tables. */
  ghost predicate PrivateChange(s: System, w: Pid, s': System) {
    && s'.txn == s.txn && s'.next == s.next && s'.workers.Keys <= s.workers.Keys
    && s'.coordinators == s.coordinators && |s'.locks| == |s.locks|
    && (forall v :: v in s'.workers ==> s'.workers[v].job == s.workers[v].job)
    && (forall v :: v in s'.workers && v != w ==> s'.workers[v] == s.workers[v])
  }

  lemma PrivateReserve(s: System, w: Pid, durable: bool)
    requires CanReserve(s, w)
    ensures PrivateChange(s, w, DoReserve(s, w, durable))
  {}

  lemma PrivatePublish(s: System, w: Pid, d: Digest, durable: bool)
    requires CanPublish(s, w)
    ensures PrivateChange(s, w, DoPublish(s, w, d, durable))
  {}

  lemma PrivateTransition(s: System, w: Pid, row: Job)
    requires InTransaction(s, w)
    ensures PrivateChange(s, w, Transition(s, w, row))
  {}

  lemma WorkerFrame(s: System, w: Pid, k: WorkerStep)
    requires WorkerCan(s, w, k)
    ensures PrivateChange(s, w, WorkerDo(s, w, k))
  {
    hide TrialQueue, StartStep, Refused, DoReserve, DoPublish, Transition;
    match k
    case Reserve(durable) => PrivateReserve(s, w, durable);
    case Publish(d, durable) => PrivatePublish(s, w, d, durable);
    case SyncAttempts =>
      PrivateTransition(s, w, Row(s, w).(attempts := CountEvents(Row(s, w).plan.trials, s.folders[s.workers[w].job])));
    case ReportProgress =>
      PrivateTransition(s, w, Row(s, w).(checkpoint := s.folders[s.workers[w].job].Frontier(s.workers[w].queue[0])));
    case _ =>
  }

  lemma ClientFrame(s: System, a: ClientStep)
    requires Shape(s) && ClientCan(s, a)
    ensures ClientDo(s, a).workers == s.workers && s.next <= ClientDo(s, a).next && ClientDo(s, a).txn == s.txn
    ensures forall c :: c in ClientDo(s, a).coordinators ==>
              ClientDo(s, a).coordinators[c] == if c in s.coordinators && c != s.next then s.coordinators[c] else Live
  {
    assert s.next !in s.coordinators;
    hide Shape, CanAdmit, CanResume, CanExpire, Outputs, ActiveJobs;
  }

  lemma CoordinatorFrame(s: System, c: Pid, m: CoordinatorStep)
    requires Shape(s) && CoordinatorCan(s, c, m)
    ensures s.next <= CoordinatorDo(s, c, m).next
    ensures forall w :: w in CoordinatorDo(s, c, m).workers && w != s.next ==>
              w in s.workers && CoordinatorDo(s, c, m).workers[w] == s.workers[w]
    ensures m != CommitSchedule ==> CoordinatorDo(s, c, m).jobs == s.jobs
    ensures CoordinatorDo(s, c, m).folders == s.folders
    ensures forall d :: d in CoordinatorDo(s, c, m).coordinators && (m != CommitSchedule || d != c) ==>
              CoordinatorDo(s, c, m).coordinators[d] == Retired ==>
                d in s.coordinators && s.coordinators[d] == Retired
  {}

  /** The job of live worker w is not running, and no open transaction is about to make it so. */
  ghost predicate Disowned(s: System, w: Pid) {
    && IsWorker(s, w) && Row(s, w).state != Running
    && (s.txn.Some? ==> |s.txn.value.draft| == |s.jobs| && s.txn.value.draft[s.workers[w].job].state != Running)
  }

  lemma DisownedByClient(s: System, w: Pid, a: ClientStep)
    requires Shape(s) && Locks(s) && ClientCan(s, a) && Disowned(s, w)
    ensures Disowned(ClientDo(s, a), w)
  {
    assert w in s.locks[s.workers[w].job];
    hide Shape, Locks, QueueHasRoom;
  }

  lemma DisownedByCoordinator(s: System, w: Pid, c: Pid, m: CoordinatorStep)
    requires Shape(s) && Locks(s) && Scheduling(s) && CoordinatorCan(s, c, m) && Disowned(s, w)
    ensures Disowned(CoordinatorDo(s, c, m), w)
  {
    assert w in s.locks[s.workers[w].job];
  }

  lemma DisownedByWorker(s: System, w: Pid, v: Pid, k: WorkerStep)
    requires Shape(s) && Claims(s) && WorkerCan(s, v, k) && Disowned(s, w) && w in WorkerDo(s, v, k).workers
    ensures Disowned(WorkerDo(s, v, k), w)
  {
    hide Claims, WorkerDo;
    OwnedStep(s, v, k);
    WorkerFrame(s, v, k);
  }

  lemma DisownedStep(s: System, w: Pid, e: Event)
    requires Inv(s) && Enabled(s, e) && Disowned(s, w) && w in Apply(s, e).workers
    ensures Disowned(Apply(s, e), w)
  {
    match e
    case Tick(_) =>
    case ByClient(a) => DisownedByClient(s, w, a);
    case ByCoordinator(c, m) => DisownedByCoordinator(s, w, c, m);
    case ByWorker(v, k) => DisownedByWorker(s, w, v, k);
  }

  lemma KnownWorker(s: System, w: Pid)
    requires Inv(s) && w in s.workers
    ensures w < s.next
  {
    hide Locks, Claims, Scheduling, Capacity, Reservations, Results, Snapshots, Advancing, Coordination, Handshake;
  }

  lemma AliveStep(s: System, e: Event, w: Pid)
    requires Inv(s) && Enabled(s, e) && w < s.next
    ensures w < Apply(s, e).next && (w in Apply(s, e).workers ==> w in s.workers)
  {
    match e
    case Tick(_) =>
    case ByClient(a) => ClientFrame(s, a);
    case ByCoordinator(c, m) => CoordinatorFrame(s, c, m);
    case ByWorker(v, k) => WorkerFrame(s, v, k);
  }

  /** A dead process identity never comes back. */
  lemma {:induction false} AliveThroughout(s: System, es: seq<Event>, s': System, w: Pid)
    requires Inv(s) && Runs(s, es, s') && w < s.next && w in s'.workers
    ensures w in s.workers
    decreases |es|
  {
    hide Inv, Enabled, Apply;
    if es != [] {
      StepKeeps(s, es[0]);
      AliveStep(s, es[0], w);
      AliveThroughout(Apply(s, es[0]), es[1..], s', w);
    }
  }

  /** Once disowned, a worker stays disowned until it dies, whatever else happens: cancelling and then
      resuming the job cannot hand the row back to it. */
  lemma {:induction false} DisownedForLife(s: System, es: seq<Event>, s': System, w: Pid)
    requires Inv(s) && Runs(s, es, s') && Disowned(s, w) && w in s'.workers
    ensures Disowned(s', w)
    decreases |es|
  {
    hide Inv, Enabled, Apply;
    if es != [] {
      StepKeeps(s, es[0]);
      KnownWorker(s, w);
      AliveStep(s, es[0], w);
      AliveThroughout(Apply(s, es[0]), es[1..], s', w);
      DisownedStep(s, w, es[0]);
      DisownedForLife(Apply(s, es[0]), es[1..], s', w);
    }
  }

  /** No row changes, and no folder beyond its markers. */
  ghost predicate Harmless(s: System, s': System) {
    && s'.jobs == s.jobs && |s'.folders| == |s.folders|
    && forall j :: 0 <= j < |s.folders| ==> SameEvidence(s.folders[j], s'.folders[j])
  }

  /** No step of a disowned worker changes any row, reservation or report. */
  lemma DisownedIsHarmless(s: System, w: Pid, k: WorkerStep)
    requires Shape(s) && Claims(s) && WorkerCan(s, w, k) && Disowned(s, w)
    ensures Harmless(s, WorkerDo(s, w, k))
  {
    OwnedStep(s, w, k);
  }

  lemma AllHarmless(s: System, w: Pid)
    requires Inv(s) && Disowned(s, w)
    ensures forall k :: WorkerCan(s, w, k) ==> Harmless(s, WorkerDo(s, w, k))
  {
    hide Locks, Claims, Scheduling, Capacity, Reservations, Results, Snapshots, Advancing, Coordination, Handshake;
    hide WorkerDo, WorkerCan;
    forall k | WorkerCan(s, w, k) ensures Harmless(s, WorkerDo(s, w, k)) { DisownedIsHarmless(s, w, k); }
  }

  lemma BegunIsDisowned(s: System, w: Pid)
    requires Shape(s) && Claims(s) && Scheduling(s) && IsWorker(s, w)
    requires s.workers[w].phase in {Working, Unwinding} && Row(s, w).state != Running
    ensures Disowned(s, w)
  {
    if s.txn.Some? { assert DraftRow(s, s.txn.value, s.workers[w].job); }
  }

  /** A worker that has begun work is disowned as soon as its row stops running, in particular when a
      cancellation commits, and from then on it commits nothing, in any continuation. */
  lemma CancelledWorkerCommitsNothing(s0: System, es: seq<Event>, s: System, w: Pid,
                                      more: seq<Event>, s': System, k: WorkerStep)
    requires Initial(s0) && Runs(s0, es, s) && IsWorker(s, w) && s.workers[w].phase in {Working, Unwinding}
    requires Row(s, w).state != Running
    requires Runs(s, more, s') && WorkerCan(s', w, k)
    ensures Harmless(s', WorkerDo(s', w, k))
  {
    hide Locks, Capacity, Reservations, Results, Snapshots, Advancing, Coordination, Handshake;
    InvariantOverRuns(s0, es, s);
    BegunIsDisowned(s, w);
    RunKeeps(s, more, s');
    DisownedForLife(s, more, s', w);
    DisownedIsHarmless(s', w, k);
  }

  /** Cancelling an active job takes effect at once and for good: its row stops running, and no worker then
      alive for it, at work or still starting, commits anything more, in any continuation. */
  lemma CancellationWins(s0: System, es: seq<Event>, s: System, w: Pid, more: seq<Event>, s': System, k: WorkerStep)
    requires Initial(s0) && Runs(s0, es, s) && s.txn.None? && IsWorker(s, w)
    requires Active(Row(s, w).state)
    requires Runs(ClientDo(s, Cancel(s.workers[w].job)), more, s') && WorkerCan(s', w, k)
    ensures ClientDo(s, Cancel(s.workers[w].job)).jobs[s.workers[w].job].state == Cancelled
    ensures Harmless(s', WorkerDo(s', w, k))
  {
    hide Locks, Capacity, Reservations, Results, Snapshots, Advancing, Coordination, Handshake;
    InvariantOverRuns(s0, es, s);
    var after := ClientDo(s, Cancel(s.workers[w].job));
    StepKeeps(s, ByClient(Cancel(s.workers[w].job)));
    RunKeeps(after, more, s');
    DisownedForLife(after, more, s', w);
    DisownedIsHarmless(s', w, k);
  }

  /** A worker whose spawning transaction is rolled back, by an error or by the coordinator's death,
      never begins native work and commits nothing. */
  lemma RolledBackWorkerDoesNothing(s0: System, es: seq<Event>, s: System, c: Pid, m: CoordinatorStep, w: Pid,
                                    more: seq<Event>, s': System)
    requires Initial(s0) && Runs(s0, es, s)
    requires s.txn.Some? && s.txn.value.owner == c && m in {AbortSchedule, CoordinatorGone}
    requires CoordinatorCan(s, c, m) && IsWorker(s, w) && s.workers[w].claimed == Row(s, w).invocations + 1
    requires Runs(CoordinatorDo(s, c, m), more, s') && w in s'.workers
    ensures IsWorker(s', w) && s'.workers[w].phase in {Starting, AtBarrier, Stopping}
    ensures forall k :: WorkerCan(s', w, k) ==> Harmless(s', WorkerDo(s', w, k))
  {
    hide Inv;
    InvariantOverRuns(s0, es, s);
    var mid := CoordinatorDo(s, c, m);
    CoordinatorKeeps(s, c, m);
    RollbackDisowns(s, c, m, w);
    RunKeeps(mid, more, s');
    DisownedForLife(mid, more, s', w);
    IdleForLife(mid, more, s', w);
    AllHarmless(s', w);
  }

  lemma RollbackDisowns(s: System, c: Pid, m: CoordinatorStep, w: Pid)
    requires Inv(s) && CoordinatorCan(s, c, m) && m in {AbortSchedule, CoordinatorGone}
    requires s.txn.Some? && s.txn.value.owner == c
    requires IsWorker(s, w) && s.workers[w].claimed == Row(s, w).invocations + 1
    ensures Disowned(CoordinatorDo(s, c, m), w)
    ensures CoordinatorDo(s, c, m).workers[w].phase in {Starting, AtBarrier, Stopping}
  {
    hide Locks, Scheduling, Capacity, Reservations, Results, Snapshots, Advancing, Coordination, Handshake;
  }

  lemma IdleStep(s: System, e: Event, w: Pid)
    requires Inv(s) && w < s.next && Enabled(s, e) && Disowned(s, w) && w in Apply(s, e).workers
    requires s.workers[w].phase in {Starting, AtBarrier, Stopping}
    ensures Apply(s, e).workers[w].phase in {Starting, AtBarrier, Stopping}
  {
    match e
    case Tick(_) =>
    case ByClient(a) => ClientFrame(s, a);
    case ByCoordinator(c, m) => CoordinatorFrame(s, c, m);
    case ByWorker(v, k) => WorkerFrame(s, v, k); if v == w { IdleWorker(s, w, k); }
  }

  lemma IdleWorker(s: System, w: Pid, k: WorkerStep)
    requires Shape(s) && WorkerCan(s, w, k) && Row(s, w).state != Running && w in WorkerDo(s, w, k).workers
    requires s.workers[w].phase in {Starting, AtBarrier, Stopping}
    ensures WorkerDo(s, w, k).workers[w].phase in {AtBarrier, Stopping}
  {}

  lemma {:induction false} IdleForLife(s: System, es: seq<Event>, s': System, w: Pid)
    requires Inv(s) && Runs(s, es, s') && Disowned(s, w) && w in s'.workers
    requires s.workers[w].phase in {Starting, AtBarrier, Stopping}
    ensures s'.workers[w].phase in {Starting, AtBarrier, Stopping}
    decreases |es|
  {
    hide Inv, Enabled, Apply;
    if es != [] {
      StepKeeps(s, es[0]);
      KnownWorker(s, w);
      AliveStep(s, es[0], w);
      AliveThroughout(Apply(s, es[0]), es[1..], s', w);
      DisownedStep(s, w, es[0]);
      IdleStep(s, es[0], w);
      IdleForLife(Apply(s, es[0]), es[1..], s', w);
    }
  }

  // ---------------------------------------------------------------- capacity

  lemma {:induction false} SumOnes(n: nat, A: set<nat>)
    requires forall x :: x in A ==> x < n
    ensures Sum(Ones(n), A) == |A|
  {
    if n == 0 {
      assert A == {};
    } else {
      assert Ones(n)[..n - 1] == Ones(n - 1);
      SumSame(Ones(n - 1), A, A - {n - 1});
      SumOnes(n - 1, A - {n - 1});
    }
  }

  /** The workspace caps hold in every reachable state, counting every live process that holds a lock,
      with its row running or not, and every expired folder that still exists. */
  lemma CapacityOverRuns(s0: System, es: seq<Event>, s: System)
    requires Initial(s0) && Runs(s0, es, s)
    ensures |s.folders| == |s.jobs| <= s.policy.maxJobs
    ensures |set w | w in s.workers :: s.workers[w].job| <= s.policy.maxRunning
    ensures Sum(seq(|s.jobs|, i requires 0 <= i < |s.jobs| => s.jobs[i].plan.memory),
                set w | w in s.workers :: s.workers[w].job) <= s.policy.maxMemory
    ensures |set j | 0 <= j < |s.jobs| && s.jobs[j].state in {Queued, Running}| <= s.policy.maxRunning + s.policy.maxQueued
    ensures Sum(seq(|s.jobs|, i requires 0 <= i < |s.jobs| => s.jobs[i].plan.output),
                set j | 0 <= j < |s.jobs| && (s.jobs[j].state != Expired || s.folders[j].present)) <= s.policy.maxRetained
  {
    InvariantOverRuns(s0, es, s);
    hide Locks, Claims, Scheduling, Reservations, Results, Snapshots, Advancing, Coordination, Handshake;
    assert Shape(s) && Capacity(s);
    SumOnes(|s.jobs|, Held(s));
    SumOnes(|s.jobs|, ActiveJobs(s.jobs));
    assert Held(s) == set w | w in s.workers :: s.workers[w].job;
    assert ActiveJobs(s.jobs) == set j | 0 <= j < |s.jobs| && s.jobs[j].state in {Queued, Running};
    assert Retained(s.jobs, s.folders) == set j | 0 <= j < |s.jobs| && (s.jobs[j].state != Expired || s.folders[j].present);
    assert Memories(s.jobs) == seq(|s.jobs|, i requires 0 <= i < |s.jobs| => s.jobs[i].plan.memory);
    assert Outputs(s.jobs) == seq(|s.jobs|, i requires 0 <= i < |s.jobs| => s.jobs[i].plan.output);
  }

  // ---------------------------------------------------------------- reservations

  /** The checks a reader and the independent validator make on one trial's reservation files. */
  predicate ValidAttempts(plan: Plan, events: seq<Attempt>) {
    && |events| <= plan.maxAttempts
    && forall i :: 0 <= i < |events| ==>
         && events[i].ordinal == i + 1
         && events[i].ordinal <= events[i].invocation <= plan.maxAttempts
         && events[i].stage in (if plan.isProtected then {Tuning, Evaluation} else {Descriptive})
  }

  lemma {:induction false} ChainIsLate(row: Job, events: seq<Attempt>, i: nat)
    requires Chain(row, events) && i < |events|
    ensures events[i].invocation >= i + 1
  {
    if i > 0 { ChainIsLate(row, events, i - 1); }
  }

  lemma ChainIsValid(row: Job, events: seq<Attempt>)
    requires Chain(row, events) && row.invocations <= row.plan.maxAttempts
    ensures ValidAttempts(row.plan, events)
    ensures |events| > 0 ==> events[|events| - 1].invocation >= |events|
  {
    forall i | 0 <= i < |events| ensures events[i].invocation >= i + 1 { ChainIsLate(row, events, i); }
    if |events| > 0 { ChainIsLate(row, events, |events| - 1); }
  }

  /** Across all crashes and resumes the reservation files of every trial pass the validator. */
  lemma AttemptsAlwaysValid(s0: System, es: seq<Event>, s: System, j: nat, t: TrialId)
    requires Initial(s0) && Runs(s0, es, s) && j < |s.jobs|
    ensures |s.folders| == |s.jobs| && ValidAttempts(s.jobs[j].plan, s.folders[j].Events(t))
    ensures s.jobs[j].invocations <= s.jobs[j].plan.maxAttempts
  {
    InvariantOverRuns(s0, es, s);
    ChainIsValid(s.jobs[j], s.folders[j].Events(t));
  }

  /** A running worker's reservation is never refused: there is room below the cap, and a continued trial
      has a native marker at least as far as the step its row acknowledged. */
  lemma ReservationNeverRefused(s0: System, es: seq<Event>, s: System, w: Pid)
    requires Initial(s0) && Runs(s0, es, s) && CanReserve(s, w) && Row(s, w).state == Running
    ensures var wk, f, t := s.workers[w], s.folders[s.workers[w].job], s.workers[w].queue[0];
            && |f.Events(t)| < Row(s, w).plan.maxAttempts
            && (wk.snapshot.Some? && wk.snapshot.value.currentTrial == Some(t) && wk.snapshot.value.checkpoint > 0 ==>
                  t in f.markers && wk.snapshot.value.checkpoint <= f.markers[t])
  {
    hide Locks, Claims, Scheduling, Capacity, Results, Snapshots, Coordination, Handshake;
    InvariantOverRuns(s0, es, s);
    NotRefused(s, w);
  }

  lemma NotRefused(s: System, w: Pid)
    requires Inv(s) && CanReserve(s, w) && Row(s, w).state == Running
    ensures var wk, f, t := s.workers[w], s.folders[s.workers[w].job], s.workers[w].queue[0];
            !Refused(Row(s, w), wk, f, t) && StartStep(wk, t) <= f.Frontier(t)
  {
    ReservationChain(s, w);
    var wk, f, t := s.workers[w], s.folders[s.workers[w].job], s.workers[w].queue[0];
    ChainIsValid(Row(s, w), f.Events(t) + [Attempt(|f.Events(t)| + 1, Row(s, w).invocations, Row(s, w).stage)]);
    assert WorkerProgress(Row(s, w), wk, f);
  }

  lemma {:induction false} CountBound(ts: seq<TrialId>, f: Folder, cap: nat)
    requires forall t :: |f.Events(t)| <= cap
    ensures CountEvents(ts, f) <= |ts| * cap
  {
    if ts != [] { CountBound(ts[1..], f, cap); }
  }

  /** The counters of a retained row are backed by files on disk, so they respect the plan's caps. */
  lemma CountersAreBacked(s0: System, es: seq<Event>, s: System, j: nat)
    requires Initial(s0) && Runs(s0, es, s) && j < |s.jobs| && s.jobs[j].state != Expired
    ensures |s.folders| == |s.jobs|
    ensures s.jobs[j].attempts <= CountEvents(s.jobs[j].plan.trials, s.folders[j])
    ensures s.jobs[j].attempts <= |s.jobs[j].plan.trials| * s.jobs[j].plan.maxAttempts
    ensures s.jobs[j].currentTrial.Some? ==> s.jobs[j].checkpoint <= s.folders[j].Frontier(s.jobs[j].currentTrial.value)
  {
    hide Locks, Claims, Scheduling, Capacity, Reservations, Results, Snapshots, Coordination, Handshake;
    InvariantOverRuns(s0, es, s);
    assert RowProgress(s.jobs[j], s.folders[j]);
    hide Inv, Advancing;
    forall t ensures |s.folders[j].Events(t)| <= s.jobs[j].plan.maxAttempts {
      AttemptsAlwaysValid(s0, es, s, j, t);
    }
    CountBound(s.jobs[j].plan.trials, s.folders[j], s.jobs[j].plan.maxAttempts);
  }

  // ---------------------------------------------------------------- completion

  /** The report of job j was once published with digest d. */
  ghost predicate PublishedAs(s: System, j: nat, d: Digest) {
    j < |s.jobs| == |s.folders| && (s.folders[j].complete == Some(d) || s.jobs[j].state == Expired)
  }

  lemma PublishedByClient(s: System, a: ClientStep, j: nat, d: Digest)
    requires Shape(s) && ClientCan(s, a) && PublishedAs(s, j, d)
    ensures PublishedAs(ClientDo(s, a), j, d)
  {}

  lemma PublishedByCoordinator(s: System, c: Pid, m: CoordinatorStep, j: nat, d: Digest)
    requires Shape(s) && Scheduling(s) && CoordinatorCan(s, c, m) && PublishedAs(s, j, d)
    ensures PublishedAs(CoordinatorDo(s, c, m), j, d)
  {
    CoordinatorFrame(s, c, m);
    if m == CommitSchedule {
      Committed(s, c);
      assert DraftRow(s, s.txn.value, j);
    }
  }

  lemma PublishedByWorker(s: System, w: Pid, k: WorkerStep, j: nat, d: Digest)
    requires Shape(s) && Claims(s) && WorkerCan(s, w, k) && PublishedAs(s, j, d)
    ensures PublishedAs(WorkerDo(s, w, k), j, d)
  {
    OwnedStep(s, w, k);
  }

  lemma PublishedStep(s: System, e: Event, j: nat, d: Digest)
    requires Inv(s) && Enabled(s, e) && PublishedAs(s, j, d)
    ensures PublishedAs(Apply(s, e), j, d)
  {
    match e
    case Tick(_) =>
    case ByClient(a) => PublishedByClient(s, a, j, d);
    case ByCoordinator(c, m) => PublishedByCoordinator(s, c, m, j, d);
    case ByWorker(w, k) => PublishedByWorker(s, w, k, j, d);
  }

  lemma {:induction false} PublishedForGood(s: System, es: seq<Event>, s': System, j: nat, d: Digest)
    requires Inv(s) && Runs(s, es, s') && PublishedAs(s, j, d)
    ensures PublishedAs(s', j, d) && (s'.jobs[j].state == Completed ==> s'.jobs[j].digest == Some(d))
    decreases |es|
  {
    if es == [] {
    } else {
      StepKeeps(s, es[0]);
      PublishedStep(s, es[0], j, d);
      PublishedForGood(Apply(s, es[0]), es[1..], s', j, d);
    }
  }

  /** Once complete.json exists, even if the transaction that wrote it was lost, every later
      completion of that job carries its digest. */
  lemma LaterCompletionsAgree(s0: System, es: seq<Event>, s: System, more: seq<Event>, s': System, j: nat, d: Digest)
    requires Initial(s0) && Runs(s0, es, s) && Runs(s, more, s')
    requires j < |s.jobs| == |s.folders| && s.folders[j].complete == Some(d)
    ensures j < |s'.jobs| == |s'.folders|
    ensures s'.jobs[j].state == Completed ==> s'.jobs[j].digest == Some(d) == s'.folders[j].complete
  {
    InvariantOverRuns(s0, es, s);
    RunKeeps(s, more, s');
    PublishedForGood(s, more, s', j, d);
  }

  /** What may follow a completed or an expired row. */
  predicate FinalRow(before: Job, after: Job, clock: nat) {
    && (before.state == Completed ==> after == before || after == before.(state := Expired, changed := clock))
    && (before.state == Expired ==> after == before)
  }

  lemma FinalByClient(s: System, a: ClientStep, j: nat)
    requires Shape(s) && ClientCan(s, a) && j < |s.jobs|
    ensures j < |ClientDo(s, a).jobs| && FinalRow(s.jobs[j], ClientDo(s, a).jobs[j], s.clock)
  {}

  lemma FinalStep(s: System, e: Event, j: nat)
    requires Inv(s) && Enabled(s, e) && j < |s.jobs|
    ensures j < |Apply(s, e).jobs| && FinalRow(s.jobs[j], Apply(s, e).jobs[j], s.clock)
  {
    match e
    case Tick(_) =>
    case ByClient(a) => FinalByClient(s, a, j);
    case ByCoordinator(c, m) => FinalByCoordinator(s, c, m, j);
    case ByWorker(w, k) => OwnedStep(s, w, k);
  }

  /** A completed row can only expire, and an expired row is final. */
  lemma {:induction false} CompletionIsStable(s: System, es: seq<Event>, s': System, j: nat)
    requires Inv(s) && Runs(s, es, s') && j < |s.jobs|
    ensures j < |s'.jobs|
    ensures s.jobs[j].state == Completed ==>
              s'.jobs[j] == s.jobs[j] || s'.jobs[j] == s.jobs[j].(state := Expired, changed := s'.jobs[j].changed)
    ensures s.jobs[j].state == Expired ==> s'.jobs[j] == s.jobs[j]
    decreases |es|
  {
    hide Inv, Enabled, Apply;
    if es == [] {
    } else {
      StepKeeps(s, es[0]);
      FinalStep(s, es[0], j);
      CompletionIsStable(Apply(s, es[0]), es[1..], s', j);
    }
  }

  lemma FinalByCoordinator(s: System, c: Pid, m: CoordinatorStep, j: nat)
    requires Shape(s) && Scheduling(s) && CoordinatorCan(s, c, m) && j < |s.jobs|
    ensures j < |CoordinatorDo(s, c, m).jobs| && FinalRow(s.jobs[j], CoordinatorDo(s, c, m).jobs[j], s.clock)
  {
    CoordinatorFrame(s, c, m);
    if m == CommitSchedule {
      Committed(s, c);
      assert DraftRow(s, s.txn.value, j);
    }
  }

  // ---------------------------------------------------------------- no stranded queue

  /** Job j is still in the queue entry it was in when client p made its request. */
  predicate StillWaiting(s: System, p: Pid, j: nat) {
    && p in s.clients && j in s.clients[p].queued && j < |s.jobs| && j < |s.seen|
    && s.jobs[j].state == Queued && s.seen[j].episode == s.clients[p].queued[j]
  }

  /** When a client's generation is acknowledged, some coordinator committed a scheduling transaction
      after the request, and every one that did has read each job still waiting in the queue entry the
      client asked about and has not retired. */
  lemma NoStrandedQueue(s0: System, es: seq<Event>, s: System, p: Pid)
    requires Initial(s0) && Runs(s0, es, s) && ClientCan(s, Acknowledged(p))
    ensures |s.seen| == |s.jobs|
    ensures s.clients[p].answers != {}
    ensures forall j: nat, c :: StillWaiting(s, p, j) && c in s.clients[p].answers ==>
              c in s.seen[j].readers && c in s.coordinators && s.coordinators[c] != Retired
  {
    hide Locks, Claims, Scheduling, Capacity, Reservations, Results, Snapshots, Advancing, Coordination, Handshake;
    InvariantOverRuns(s0, es, s);
    Answered(s, p);
    forall j: nat, c | StillWaiting(s, p, j) && c in s.clients[p].answers
      ensures c in s.seen[j].readers && c in s.coordinators && s.coordinators[c] != Retired
    {
      AnswerReads(s, p, j, c);
    }
  }

  lemma Answered(s: System, p: Pid)
    requires Shape(s) && Handshake(s) && p in s.clients && s.progress.observed >= s.clients[p].generation
    ensures s.clients[p].answers != {}
  {
    assert s.clients[p].queued.Keys != {};
    var j :| j in s.clients[p].queued;
    assert Informed(s, s.clients[p], j);
  }

  lemma AnswerReads(s: System, p: Pid, j: nat, c: Pid)
    requires Shape(s) && Coordination(s) && Handshake(s) && StillWaiting(s, p, j) && c in s.clients[p].answers
    ensures c in s.seen[j].readers && c in s.coordinators && s.coordinators[c] != Retired
  {
    assert Informed(s, s.clients[p], j);
  }

  lemma RetiringCommit(s: System, e: Event, c: Pid)
    requires Shape(s) && Enabled(s, e)
    requires c in Apply(s, e).coordinators && Apply(s, e).coordinators[c] == Retired
    requires !(c in s.coordinators && s.coordinators[c] == Retired)
    ensures e == ByCoordinator(c, CommitSchedule) && !Pending(s, s.txn.value)
  {
    match e
    case Tick(_) =>
    case ByClient(a) => ClientFrame(s, a);
    case ByCoordinator(d, m) => CoordinatorFrame(s, d, m);
    case ByWorker(w, k) => WorkerFrame(s, w, k);
  }

  lemma WorkersAreHeld(s: System)
    ensures s.workers != map[] ==> Held(s) != {}
  {
    if s.workers.Keys != {} {
      var w :| w in s.workers;
      assert s.workers[w].job in Held(s);
    }
  }

  lemma IdleCommit(s: System, c: Pid)
    requires Shape(s) && Scheduling(s) && CanCommit(s, c) && !Pending(s, s.txn.value)
    ensures var s' := DoCommit(s, c);
            && ActiveJobs(s'.jobs) == {} && s'.workers == map[]
            && s'.progress.observed == s'.progress.requested && s'.txn.None?
            && c !in s'.supervisor
  {
    var t, s' := s.txn.value, DoCommit(s, c);
    Committed(s, c);
    WorkersAreHeld(s);
    forall j | 0 <= j < |s.jobs| ensures !Active(s'.jobs[j].state) { assert DraftRow(s, t, j); }
  }

  /** A coordinator retires only by committing a state with nothing queued, nothing running and no live
      worker, in which every requested generation has been observed. */
  lemma RetiresOnlyWhenIdle(s0: System, es: seq<Event>, s: System, e: Event, c: Pid)
    requires Initial(s0) && Runs(s0, es, s) && Enabled(s, e)
    requires c in Apply(s, e).coordinators && Apply(s, e).coordinators[c] == Retired
    requires !(c in s.coordinators && s.coordinators[c] == Retired)
    ensures var s' := Apply(s, e);
            && ActiveJobs(s'.jobs) == {} && s'.workers == map[]
            && s'.progress.observed == s'.progress.requested && s'.txn.None?
            && c !in s'.supervisor
  {
    InvariantOverRuns(s0, es, s);
    RetiringCommit(s, e, c);
    IdleCommit(s, c);
  }

  /** Observation never runs ahead of requests, and two coordinators are never live together. */
  lemma OneCoordinator(s0: System, es: seq<Event>, s: System)
    requires Initial(s0) && Runs(s0, es, s)
    ensures s.progress.observed <= s.progress.requested
    ensures forall c, d ::
              c in s.coordinators && d in s.coordinators && s.coordinators[c] == Live && s.coordinators[d] == Live
              ==> c == d
    ensures s.supervisor == {} ==> forall c :: c in s.coordinators ==> s.coordinators[c] != Live
  {
    InvariantOverRuns(s0, es, s);
  }
}
