/**
 The durable workflow protocol as a labelled transition system. Clients, one coordinator and
 detached workers share a transactional job table and kernel locks. A lock is the set of live
 processes that still hold a copy of its descriptor; it is free when that set is empty. One event
 is one committed transaction, one descriptor operation, one process start or one process death,
 except that the coordinator's scheduling transaction stays open over several events, because
 workers are spawned inside it and may read the committed table before it ends.
 */
module WorkflowModel {
  import opened Basics

  type Pid = nat
  type TrialId = nat
  type Digest = nat

  const MAX_GENERATION: nat := 0x7FFF_FFFF_FFFF_FFFF

  datatype JobState =
    | Queued | Running | AwaitingEvaluation | Interrupted | Failed | Cancelled | Completed | Expired

  datatype Stage = Descriptive | Tuning | Evaluation

  datatype Plan = Plan(isProtected: bool, maxAttempts: nat, memory: nat, output: nat, trials: seq<TrialId>)

  datatype Policy = Policy(maxRunning: nat, maxQueued: nat, maxJobs: nat,
                           maxRetained: nat, maxMemory: nat, retention: nat)

  /** One durable job row. Rows are never removed, so a job is named by its position. */
  datatype Job = Job(plan: Plan, state: JobState, stage: Stage, changed: nat,
                     invocations: nat, attempts: nat, currentTrial: Option<TrialId>, checkpoint: nat,
                     completedTrials: nat, totalTrials: nat, digest: Option<Digest>)

  /** One immutable reservation file below attempts/<trial>/. */
  datatype Attempt = Attempt(ordinal: nat, invocation: nat, stage: Stage)

  /** The part of jobs/<id>/ the protocol depends on: the reservation files, the step named by each
      trial's native progress marker, and the published report. */
  datatype Folder = Folder(present: bool, attempts: map<TrialId, seq<Attempt>>, markers: map<TrialId, nat>,
                           complete: Option<Digest>)
  {
    function Events(t: TrialId): seq<Attempt> { if t in attempts then attempts[t] else [] }

    function Frontier(t: TrialId): nat { if t in markers then markers[t] else 0 }
  }

  /** Stopping workers make no further change; unwinding ones may still record their failure. */
  datatype Phase = Starting | AtBarrier | Working | Unwinding | Stopping

  /** claimed is the invocation number written by the transaction that spawned the worker. The
      process does not know it: it reads its own number from the table. */
  datatype Worker = Worker(job: nat, claimed: nat, phase: Phase, snapshot: Option<Job>,
                           queue: seq<TrialId>, executing: bool, done: nat)

  datatype Life = Live | Retired | Crashed

  datatype Progress = Progress(requested: nat, observed: nat)

  /** A client inside ensure_supervisor. queued remembers which episodes of which jobs were queued
      when its generation was committed, and answers which coordinators have committed a scheduling
      transaction since then. */
  datatype Client = Client(generation: nat, queued: map<nat, nat>, answers: set<Pid>)

  /** The open scheduling transaction: the uncommitted table, the jobs counted as active, and the
      position of the loop. active is a list, as in the loop. holding means the lock of the job at cursor is open here. */
  datatype Txn = Txn(owner: Pid, draft: seq<Job>, active: seq<nat>, cursor: nat, holding: bool, spawned: bool)

  /** Bookkeeping: how often the job entered the queue, and which coordinators have committed a
      scheduling transaction that read the current entry. */
  datatype Sighting = Sighting(episode: nat, readers: set<Pid>)

  datatype System = System(
    policy: Policy, clock: nat, next: Pid,
    jobs: seq<Job>, folders: seq<Folder>, locks: seq<set<Pid>>, seen: seq<Sighting>,
    progress: Progress, supervisor: set<Pid>,
    coordinators: map<Pid, Life>, clients: map<Pid, Client>, workers: map<Pid, Worker>,
    txn: Option<Txn>)

  // ---------------------------------------------------------------- derived quantities

  predicate Active(state: JobState) { state == Queued || state == Running }

  function Memories(jobs: seq<Job>): seq<nat> { seq(|jobs|, i requires 0 <= i < |jobs| => jobs[i].plan.memory) }

  function Outputs(jobs: seq<Job>): seq<nat> { seq(|jobs|, i requires 0 <= i < |jobs| => jobs[i].plan.output) }

  function ActiveJobs(jobs: seq<Job>): set<nat> { set j | 0 <= j < |jobs| && Active(jobs[j].state) }

  /** Jobs whose reserved bytes still count. */
  function Retained(jobs: seq<Job>, folders: seq<Folder>): set<nat>
    requires |jobs| == |folders|
  {
    set j | 0 <= j < |jobs| && (jobs[j].state != Expired || folders[j].present)
  }

  /** Jobs whose lock some live worker holds. */
  function Held(s: System): set<nat> { set w | w in s.workers :: s.workers[w].job }

  function Busy(s: System): set<nat> { set j | 0 <= j < |s.locks| && s.locks[j] != {} }

  predicate Distinct(ts: seq<TrialId>) { forall i, j :: 0 <= i < j < |ts| ==> ts[i] != ts[j] }

  function Chosen(ts: seq<TrialId>, keep: set<TrialId>): seq<TrialId> {
    if ts == [] then [] else (if ts[0] in keep then [ts[0]] else []) + Chosen(ts[1..], keep)
  }

  function CountEvents(ts: seq<TrialId>, f: Folder): nat {
    if ts == [] then 0 else |f.Events(ts[0])| + CountEvents(ts[1..], f)
  }

  // ---------------------------------------------------------------- events

  /** One client operation, or one step of ensure_supervisor by the client named. */
  datatype ClientStep =
    | Admit(plan: Plan)
    | Status(job: nat)
    | Cancel(job: nat)
    | Resume(job: nat)
    | Evaluate(job: nat, total: nat)
    | Expire(job: nat)
    | Delete(job: nat)
    | Request
    | StartCoordinator(client: Pid)
    | CloseParent(client: Pid)
    | Acknowledged(client: Pid)
    | ClientGone(client: Pid)

  datatype CoordinatorStep =
    | BeginSchedule
    | PassOver
    | Acquire
    | Exhaust
    | Spawn
    | Release
    | CommitSchedule
    | AbortSchedule
    | CoordinatorGone

  datatype WorkerStep =
    | ReadRow(keep: set<TrialId>)
    | PassBarrier(keep: set<TrialId>)
    | SyncAttempts
    | Reserve(durable: bool)
    | NativeCommit(step: nat)
    | ReportProgress
    | FinishTrial
    | FinishTuning
    | Publish(digest: Digest, durable: bool)
    | Stumble
    | RecordFailure(interrupted: bool)
    | WorkerGone

  datatype Event =
    | Tick(elapsed: nat)
    | ByClient(action: ClientStep)
    | ByCoordinator(coordinator: Pid, move: CoordinatorStep)
    | ByWorker(worker: Pid, work: WorkerStep)

  // ---------------------------------------------------------------- row helpers

  function WithRow(s: System, j: nat, row: Job): System
    requires j < |s.jobs|
  {
    s.(jobs := s.jobs[j := row.(changed := s.clock)])
  }

  /** A row that enters the queue starts a new episode that no coordinator has read. */
  function Enqueue(s: System, j: nat, row: Job): System
    requires j < |s.jobs| && j < |s.seen|
  {
    WithRow(s, j, row.(state := Queued)).(seen := s.seen[j := Sighting(s.seen[j].episode + 1, {})])
  }

  predicate QueueHasRoom(s: System) {
    Sum(Ones(|s.jobs|), ActiveJobs(s.jobs)) < s.policy.maxRunning + s.policy.maxQueued
  }

  // ---------------------------------------------------------------- clients

  predicate CanAdmit(s: System, plan: Plan) {
    && |s.folders| == |s.jobs|
    && s.txn.None? && Distinct(plan.trials)
    && |s.jobs| < s.policy.maxJobs && QueueHasRoom(s)
    && Sum(Outputs(s.jobs), Retained(s.jobs, s.folders)) + plan.output <= s.policy.maxRetained
  }

  function DoAdmit(s: System, plan: Plan): System {
    var stage := if plan.isProtected then Tuning else Descriptive;
    var row := Job(plan, Queued, stage, s.clock, 0, 0, None, 0, 0, |plan.trials|, None);
    s.(jobs := s.jobs + [row], folders := s.folders + [Folder(false, map[], map[], None)],
       locks := s.locks + [{}], seen := s.seen + [Sighting(0, {})])
  }

  function DoStatus(s: System, j: nat): System
    requires j < |s.jobs| && j < |s.locks|
  {
    if s.jobs[j].state == Running && s.locks[j] == {} then WithRow(s, j, s.jobs[j].(state := Interrupted)) else s
  }

  function DoCancel(s: System, j: nat): System
    requires j < |s.jobs|
  {
    if Active(s.jobs[j].state) then WithRow(s, j, s.jobs[j].(state := Cancelled)) else s
  }

  predicate CanResume(s: System, j: nat) {
    && s.txn.None? && j < |s.jobs| && j < |s.locks| && j < |s.seen|
    && (s.jobs[j].state in {Interrupted, Failed, Cancelled, Expired} ==>
          && s.jobs[j].state != Expired && s.locks[j] == {}
          && s.jobs[j].invocations < s.jobs[j].plan.maxAttempts && QueueHasRoom(s))
  }

  function DoResume(s: System, j: nat): System
    requires CanResume(s, j)
  {
    if s.jobs[j].state in {Interrupted, Failed, Cancelled, Expired} then Enqueue(s, j, s.jobs[j]) else s
  }

  predicate CanEvaluate(s: System, j: nat) {
    && s.txn.None? && j < |s.jobs| && j < |s.seen| && s.jobs[j].plan.isProtected
    && (s.jobs[j].state != Completed && s.jobs[j].stage != Evaluation ==>
          && s.jobs[j].state == AwaitingEvaluation
          && s.jobs[j].invocations < s.jobs[j].plan.maxAttempts && QueueHasRoom(s))
  }

  function DoEvaluate(s: System, j: nat, total: nat): System
    requires CanEvaluate(s, j)
  {
    if s.jobs[j].state != Completed && s.jobs[j].stage != Evaluation then
      Enqueue(s, j, s.jobs[j].(stage := Evaluation, completedTrials := 0, totalTrials := total,
                               checkpoint := 0, currentTrial := None))
    else s
  }

  predicate CanExpire(s: System, j: nat) {
    && s.txn.None? && j < |s.jobs| && j < |s.locks|
    && !Active(s.jobs[j].state) && s.jobs[j].state != Expired
    && s.clock - s.jobs[j].changed >= s.policy.retention && s.locks[j] == {}
  }

  function DoDelete(s: System, j: nat): System
    requires j < |s.folders|
  {
    s.(folders := s.folders[j := Folder(false, map[], map[], None)])
  }

  // ---------------------------------------------------------------- coordinator generations

  function QueuedEpisodes(s: System): map<nat, nat> {
    map j | 0 <= j < |s.jobs| && j < |s.seen| && s.jobs[j].state == Queued :: s.seen[j].episode
  }

  predicate CanRequest(s: System) {
    && s.txn.None? && s.progress.requested < MAX_GENERATION
    && exists j :: 0 <= j < |s.jobs| && s.jobs[j].state == Queued
  }

  function DoRequest(s: System): System {
    s.(progress := s.progress.(requested := s.progress.requested + 1), next := s.next + 1,
       clients := s.clients[s.next := Client(s.progress.requested + 1, QueuedEpisodes(s), {})])
  }

  function DoStartCoordinator(s: System, p: Pid): System {
    s.(supervisor := {p, s.next}, next := s.next + 1, coordinators := s.coordinators[s.next := Live])
  }

  // ---------------------------------------------------------------- scheduling transaction

  predicate Owns(s: System, c: Pid) {
    && s.txn.Some? && s.txn.value.owner == c
    && |s.txn.value.draft| == |s.jobs| == |s.locks| == |s.seen|
    && s.txn.value.cursor <= |s.jobs|
    && Below(s.txn.value.active, |s.jobs|)
  }

  /** Running rows whose lock was free when it was probed lose their owner. */
  function Reconciled(s: System): seq<Job> {
    seq(|s.jobs|, i requires 0 <= i < |s.jobs| =>
      ReconciledRow(s.jobs[i], if i < |s.locks| then s.locks[i] else {}, s.clock))
  }

  function ReconciledRow(row: Job, holders: set<Pid>, now: nat): Job {
    if row.state == Running && holders == {} then row.(state := Interrupted, changed := now) else row
  }

  predicate CanBegin(s: System, c: Pid) {
    s.txn.None? && c in s.coordinators && s.coordinators[c] == Live
  }

  function DoBegin(s: System, c: Pid): System {
    s.(txn := Some(Txn(c, Reconciled(s), Members(|s.jobs|, Busy(s)), 0, false, false)))
  }

  /** The loop reads the snapshot taken before reconciliation, so it tests s.jobs. A job whose lock was
      busy when it was probed but free when it is claimed is counted twice from then on. */
  predicate Fits(s: System, t: Txn)
    requires t.cursor < |s.jobs| && Below(t.active, |s.jobs|)
  {
    && s.jobs[t.cursor].state == Queued
    && |t.active| < s.policy.maxRunning
    && Total(Memories(s.jobs), t.active) + s.jobs[t.cursor].plan.memory <= s.policy.maxMemory
  }

  predicate AtCursor(s: System, c: Pid) {
    Owns(s, c) && s.txn.value.cursor < |s.jobs|
  }

  predicate CanPassOver(s: System, c: Pid) {
    && AtCursor(s, c) && !s.txn.value.holding
    && (!Fits(s, s.txn.value) || s.locks[s.txn.value.cursor] != {})
  }

  predicate CanAcquire(s: System, c: Pid) {
    AtCursor(s, c) && !s.txn.value.holding && Fits(s, s.txn.value) && s.locks[s.txn.value.cursor] == {}
  }

  function DoAcquire(s: System, c: Pid): System
    requires AtCursor(s, c)
  {
    var t := s.txn.value;
    s.(locks := s.locks[t.cursor := {c}], txn := Some(t.(holding := true, spawned := false)))
  }

  predicate CanExhaust(s: System, c: Pid) {
    && AtCursor(s, c) && s.txn.value.holding && !s.txn.value.spawned
    && s.jobs[s.txn.value.cursor].invocations >= s.jobs[s.txn.value.cursor].plan.maxAttempts
  }

  function DoExhaust(s: System, c: Pid): System
    requires AtCursor(s, c)
  {
    var t := s.txn.value;
    s.(locks := s.locks[t.cursor := s.locks[t.cursor] - {c}],
       txn := Some(t.(draft := t.draft[t.cursor := s.jobs[t.cursor].(state := Failed, changed := s.clock)],
                      cursor := t.cursor + 1, holding := false)))
  }

  predicate CanSpawn(s: System, c: Pid) {
    && AtCursor(s, c) && s.txn.value.holding && !s.txn.value.spawned
    && s.jobs[s.txn.value.cursor].invocations < s.jobs[s.txn.value.cursor].plan.maxAttempts
  }

  function Claimed(s: System, j: nat): Job
    requires j < |s.jobs|
  {
    s.jobs[j].(state := Running, changed := s.clock, invocations := s.jobs[j].invocations + 1)
  }

  /** The child inherits a copy of the descriptor that the parent still holds. */
  function DoSpawn(s: System, c: Pid): System
    requires AtCursor(s, c)
  {
    var t := s.txn.value;
    var child := Worker(t.cursor, s.jobs[t.cursor].invocations + 1, Starting, None, [], false, 0);
    s.(locks := s.locks[t.cursor := s.locks[t.cursor] + {s.next}], next := s.next + 1,
       workers := s.workers[s.next := child],
       txn := Some(t.(draft := t.draft[t.cursor := Claimed(s, t.cursor)],
                      active := t.active + [t.cursor], spawned := true)))
  }

  predicate CanRelease(s: System, c: Pid) {
    AtCursor(s, c) && s.txn.value.holding && s.txn.value.spawned
  }

  function DoRelease(s: System, c: Pid): System
    requires AtCursor(s, c)
  {
    var t := s.txn.value;
    s.(locks := s.locks[t.cursor := s.locks[t.cursor] - {c}],
       txn := Some(t.(cursor := t.cursor + 1, holding := false, spawned := false)))
  }

  predicate CanCommit(s: System, c: Pid) {
    Owns(s, c) && s.txn.value.cursor == |s.jobs| && !s.txn.value.holding
  }

  predicate Pending(s: System, t: Txn) {
    t.active != [] || exists j :: 0 <= j < |s.jobs| && s.jobs[j].state == Queued
  }

  function Sighted(s: System, c: Pid): seq<Sighting>
    requires |s.seen| == |s.jobs|
  {
    seq(|s.seen|, i requires 0 <= i < |s.seen| =>
      if s.jobs[i].state == Queued then s.seen[i].(readers := s.seen[i].readers + {c}) else s.seen[i])
  }

  function Answering(s: System, c: Pid): map<Pid, Client> {
    map p | p in s.clients :: s.clients[p].(answers := s.clients[p].answers + {c})
  }

  /** Closing the coordinator's descriptor and committing are one step. */
  function DoCommit(s: System, c: Pid): System
    requires Owns(s, c)
  {
    var t := s.txn.value;
    var done := s.(jobs := t.draft, seen := Sighted(s, c), clients := Answering(s, c), txn := None,
                   progress := s.progress.(observed := s.progress.requested));
    if Pending(s, t) then done
    else done.(supervisor := s.supervisor - {c}, coordinators := s.coordinators[c := Retired])
  }

  /** Rollback: the table keeps its committed rows, and the parent's copy of a held lock closes. */
  function DoAbort(s: System, c: Pid): System
    requires Owns(s, c)
  {
    var t := s.txn.value;
    var locks := if t.holding && t.cursor < |s.locks| then s.locks[t.cursor := s.locks[t.cursor] - {c}] else s.locks;
    s.(txn := None, locks := locks)
  }

  function DoCoordinatorGone(s: System, c: Pid): System
    requires s.txn.Some? && s.txn.value.owner == c ==> Owns(s, c)
  {
    var rolled := if s.txn.Some? && s.txn.value.owner == c then DoAbort(s, c) else s;
    rolled.(supervisor := s.supervisor - {c}, coordinators := s.coordinators[c := Crashed])
  }

  // ---------------------------------------------------------------- workers

  predicate IsWorker(s: System, w: Pid) {
    && w in s.workers && s.workers[w].job < |s.jobs|
    && |s.jobs| == |s.folders| == |s.locks|
  }

  function Row(s: System, w: Pid): Job
    requires IsWorker(s, w)
  {
    s.jobs[s.workers[w].job]
  }

  function WithPhase(s: System, w: Pid, phase: Phase): System
    requires w in s.workers
  {
    s.(workers := s.workers[w := s.workers[w].(phase := phase)])
  }

  function TrialQueue(row: Job, f: Folder, keep: set<TrialId>): seq<TrialId> {
    if f.complete.Some? then []
    else if row.stage == Evaluation then Chosen(row.plan.trials, keep) else row.plan.trials
  }

  function BeginWork(s: System, w: Pid, keep: set<TrialId>): System
    requires IsWorker(s, w)
  {
    var wk := s.workers[w];
    var f := s.folders[wk.job];
    s.(folders := s.folders[wk.job := f.(present := true)],
       workers := s.workers[w := wk.(phase := Working, snapshot := Some(Row(s, w)), executing := false, done := 0,
                                     queue := TrialQueue(Row(s, w), f, keep))])
  }

  /** The first read needs no write lock, so it can see the table while the spawning transaction is open. */
  function DoReadRow(s: System, w: Pid, keep: set<TrialId>): System
    requires IsWorker(s, w)
  {
    if Row(s, w).state == Queued then WithPhase(s, w, AtBarrier)
    else if Row(s, w).state == Running then BeginWork(s, w, keep)
    else WithPhase(s, w, Stopping)
  }

  function DoPassBarrier(s: System, w: Pid, keep: set<TrialId>): System
    requires IsWorker(s, w)
  {
    if Row(s, w).state == Running then BeginWork(s, w, keep) else WithPhase(s, w, Stopping)
  }

  predicate InTransaction(s: System, w: Pid) {
    IsWorker(s, w) && s.txn.None? && s.workers[w].phase == Working && s.workers[w].snapshot.Some?
  }

  /** Every worker transition first rereads the row and gives up unless it is still running. */
  function Transition(s: System, w: Pid, row: Job): System
    requires IsWorker(s, w)
  {
    if Row(s, w).state == Running then WithRow(s, s.workers[w].job, row) else WithPhase(s, w, Unwinding)
  }

  function DoSyncAttempts(s: System, w: Pid): System
    requires IsWorker(s, w)
  {
    var row := Row(s, w);
    Transition(s, w, row.(attempts := CountEvents(row.plan.trials, s.folders[s.workers[w].job])))
  }

  predicate CanReserve(s: System, w: Pid) {
    InTransaction(s, w) && !s.workers[w].executing && |s.workers[w].queue| > 0
  }

  /** The acknowledged step a continued trial starts from. */
  function StartStep(wk: Worker, t: TrialId): nat {
    if wk.snapshot.Some? && wk.snapshot.value.currentTrial == Some(t) then wk.snapshot.value.checkpoint else 0
  }

  /** The row a committed reservation leaves. */
  function ReservedRow(row: Job, wk: Worker, t: TrialId): Job {
    row.(attempts := row.attempts + 1, currentTrial := Some(t), checkpoint := StartStep(wk, t))
  }

  /** A continued trial needs its native marker, and a reservation needs room below the cap. */
  predicate Refused(row: Job, wk: Worker, f: Folder, t: TrialId) {
    (StartStep(wk, t) > 0 && t !in f.markers) || |f.Events(t)| >= row.plan.maxAttempts
  }

  /** The reservation file is published before the row; durable is false when the commit is lost. */
  function DoReserve(s: System, w: Pid, durable: bool): System
    requires CanReserve(s, w)
  {
    var wk := s.workers[w];
    var row := Row(s, w);
    var t := wk.queue[0];
    var f := s.folders[wk.job];
    if row.state != Running || Refused(row, wk, f, t) then WithPhase(s, w, Unwinding)
    else
      var event := Attempt(|f.Events(t)| + 1, row.invocations, row.stage);
      var written := s.(folders := s.folders[wk.job := f.(attempts := f.attempts[t := f.Events(t) + [event]])]);
      if !durable then WithPhase(written, w, Unwinding)
      else WithRow(written, wk.job, ReservedRow(row, wk, t)).(workers := s.workers[w := wk.(executing := true)])
  }

  predicate CanReport(s: System, w: Pid) {
    InTransaction(s, w) && s.workers[w].executing && |s.workers[w].queue| > 0
  }

  /** The native engine replaces the trial's marker outside any transaction; markers only advance. */
  predicate CanCommitNative(s: System, w: Pid, step: nat) {
    && IsWorker(s, w) && s.workers[w].phase == Working && s.workers[w].executing && |s.workers[w].queue| > 0
    && step > s.folders[s.workers[w].job].Frontier(s.workers[w].queue[0])
  }

  function DoCommitNative(s: System, w: Pid, step: nat): System
    requires CanCommitNative(s, w, step)
  {
    var j := s.workers[w].job;
    var f := s.folders[j];
    s.(folders := s.folders[j := f.(markers := f.markers[s.workers[w].queue[0] := step])])
  }

  /** The callback after a native commit acknowledges the committed step. */
  function DoReport(s: System, w: Pid): System
    requires CanReport(s, w)
  {
    Transition(s, w, Row(s, w).(checkpoint := s.folders[s.workers[w].job].Frontier(s.workers[w].queue[0])))
  }

  predicate CanFinishTrial(s: System, w: Pid) { InTransaction(s, w) && |s.workers[w].queue| > 0 }

  function TrialDone(row: Job, wk: Worker): Job {
    row.(completedTrials := if row.completedTrials < wk.done + 1 then wk.done + 1 else row.completedTrials,
         currentTrial := None)
  }

  function NextTrial(wk: Worker): Worker
    requires |wk.queue| > 0
  {
    wk.(queue := wk.queue[1..], executing := false, done := wk.done + 1)
  }

  /** Either the native run of the first queued trial ended, or its receipt already existed. */
  function DoFinishTrial(s: System, w: Pid): System
    requires CanFinishTrial(s, w)
  {
    var wk := s.workers[w];
    if Row(s, w).state != Running then WithPhase(s, w, Unwinding)
    else WithRow(s, wk.job, TrialDone(Row(s, w), wk)).(workers := s.workers[w := NextTrial(wk)])
  }

  predicate CanFinishTuning(s: System, w: Pid) {
    InTransaction(s, w) && s.workers[w].queue == [] && s.workers[w].snapshot.value.stage == Tuning
  }

  function DoFinishTuning(s: System, w: Pid): System
    requires CanFinishTuning(s, w)
  {
    if Row(s, w).state != Running then WithPhase(s, w, Unwinding)
    else WithPhase(WithRow(s, s.workers[w].job, Row(s, w).(state := AwaitingEvaluation)), w, Stopping)
  }

  predicate CanPublish(s: System, w: Pid) {
    InTransaction(s, w) && s.workers[w].queue == [] && s.workers[w].snapshot.value.stage != Tuning
  }

  /** Immutable publication refuses different bytes; durable is false when the commit is lost. */
  function DoPublish(s: System, w: Pid, digest: Digest, durable: bool): System
    requires CanPublish(s, w)
  {
    var j := s.workers[w].job;
    var f := s.folders[j];
    if Row(s, w).state != Running || (f.complete.Some? && f.complete.value != digest) then WithPhase(s, w, Unwinding)
    else
      var written := s.(folders := s.folders[j := f.(complete := Some(digest))]);
      if !durable then WithPhase(written, w, Unwinding)
      else WithPhase(WithRow(written, j, Row(s, w).(state := Completed, digest := Some(digest))), w, Stopping)
  }

  function DoRecordFailure(s: System, w: Pid, interrupted: bool): System
    requires IsWorker(s, w)
  {
    var row := Row(s, w);
    var after := if row.state == Running
                 then WithRow(s, s.workers[w].job, row.(state := if interrupted then Interrupted else Failed))
                 else s;
    WithPhase(after, w, Stopping)
  }

  function DoWorkerGone(s: System, w: Pid): System
    requires IsWorker(s, w)
  {
    var j := s.workers[w].job;
    s.(workers := s.workers - {w}, locks := s.locks[j := s.locks[j] - {w}])
  }

  // ---------------------------------------------------------------- the transition system

  /** An operation that raises before changing anything is an event that is not enabled. */
  predicate ClientCan(s: System, a: ClientStep) {
    match a
    case Admit(plan) => CanAdmit(s, plan)
    case Status(j) => s.txn.None? && j < |s.jobs| && j < |s.locks|
    case Cancel(j) => s.txn.None? && j < |s.jobs|
    case Resume(j) => CanResume(s, j)
    case Evaluate(j, _) => CanEvaluate(s, j)
    case Expire(j) => CanExpire(s, j)
    case Delete(j) => j < |s.jobs| && j < |s.folders| && s.jobs[j].state == Expired
    case Request => CanRequest(s)
    case StartCoordinator(p) => p in s.clients && s.supervisor == {}
    case CloseParent(p) => p in s.clients
    case Acknowledged(p) => p in s.clients && p !in s.supervisor && s.progress.observed >= s.clients[p].generation
    case ClientGone(p) => p in s.clients
  }

  function ClientDo(s: System, a: ClientStep): System
    requires ClientCan(s, a)
  {
    match a
    case Admit(plan) => DoAdmit(s, plan)
    case Status(j) => DoStatus(s, j)
    case Cancel(j) => DoCancel(s, j)
    case Resume(j) => DoResume(s, j)
    case Evaluate(j, total) => DoEvaluate(s, j, total)
    case Expire(j) => WithRow(s, j, s.jobs[j].(state := Expired))
    case Delete(j) => DoDelete(s, j)
    case Request => DoRequest(s)
    case StartCoordinator(p) => DoStartCoordinator(s, p)
    case CloseParent(p) => s.(supervisor := s.supervisor - {p})
    case Acknowledged(p) => s.(clients := s.clients - {p})
    case ClientGone(p) => s.(clients := s.clients - {p}, supervisor := s.supervisor - {p})
  }

  predicate CoordinatorCan(s: System, c: Pid, m: CoordinatorStep) {
    match m
    case BeginSchedule => CanBegin(s, c)
    case PassOver => CanPassOver(s, c)
    case Acquire => CanAcquire(s, c)
    case Exhaust => CanExhaust(s, c)
    case Spawn => CanSpawn(s, c)
    case Release => CanRelease(s, c)
    case CommitSchedule => CanCommit(s, c)
    case AbortSchedule => Owns(s, c)
    case CoordinatorGone =>
      && c in s.coordinators && s.coordinators[c] == Live
      && (s.txn.Some? && s.txn.value.owner == c ==> Owns(s, c))
  }

  function CoordinatorDo(s: System, c: Pid, m: CoordinatorStep): System
    requires CoordinatorCan(s, c, m)
  {
    match m
    case BeginSchedule => DoBegin(s, c)
    case PassOver => s.(txn := Some(s.txn.value.(cursor := s.txn.value.cursor + 1)))
    case Acquire => DoAcquire(s, c)
    case Exhaust => DoExhaust(s, c)
    case Spawn => DoSpawn(s, c)
    case Release => DoRelease(s, c)
    case CommitSchedule => DoCommit(s, c)
    case AbortSchedule => DoAbort(s, c)
    case CoordinatorGone => DoCoordinatorGone(s, c)
  }

  predicate WorkerCan(s: System, w: Pid, k: WorkerStep) {
    && IsWorker(s, w)
    && match k
       case ReadRow(_) => s.workers[w].phase == Starting
       case PassBarrier(_) => s.workers[w].phase == AtBarrier && s.txn.None?
       case SyncAttempts => InTransaction(s, w)
       case Reserve(_) => CanReserve(s, w)
       case NativeCommit(step) => CanCommitNative(s, w, step)
       case ReportProgress => CanReport(s, w)
       case FinishTrial => CanFinishTrial(s, w)
       case FinishTuning => CanFinishTuning(s, w)
       case Publish(_, _) => CanPublish(s, w)
       case Stumble => s.workers[w].phase == Working
       case RecordFailure(_) => s.txn.None? && s.workers[w].phase in {Working, Unwinding}
       case WorkerGone => true
  }

  function WorkerDo(s: System, w: Pid, k: WorkerStep): System
    requires WorkerCan(s, w, k)
  {
    match k
    case ReadRow(keep) => DoReadRow(s, w, keep)
    case PassBarrier(keep) => DoPassBarrier(s, w, keep)
    case SyncAttempts => DoSyncAttempts(s, w)
    case Reserve(durable) => DoReserve(s, w, durable)
    case NativeCommit(step) => DoCommitNative(s, w, step)
    case ReportProgress => DoReport(s, w)
    case FinishTrial => DoFinishTrial(s, w)
    case FinishTuning => DoFinishTuning(s, w)
    case Publish(digest, durable) => DoPublish(s, w, digest, durable)
    case Stumble => WithPhase(s, w, Unwinding)
    case RecordFailure(interrupted) => DoRecordFailure(s, w, interrupted)
    case WorkerGone => DoWorkerGone(s, w)
  }

  predicate Enabled(s: System, e: Event) {
    match e
    case Tick(_) => true
    case ByClient(a) => ClientCan(s, a)
    case ByCoordinator(c, m) => CoordinatorCan(s, c, m)
    case ByWorker(w, k) => WorkerCan(s, w, k)
  }

  function Apply(s: System, e: Event): System
    requires Enabled(s, e)
  {
    match e
    case Tick(d) => s.(clock := s.clock + d)
    case ByClient(a) => ClientDo(s, a)
    case ByCoordinator(c, m) => CoordinatorDo(s, c, m)
    case ByWorker(w, k) => WorkerDo(s, w, k)
  }

  predicate Initial(s: System) {
    && s.jobs == [] && s.folders == [] && s.locks == [] && s.seen == []
    && s.progress == Progress(0, 0) && s.supervisor == {}
    && s.coordinators == map[] && s.clients == map[] && s.workers == map[] && s.txn == None
  }

  /** es leads from s to s'. */
  ghost predicate Runs(s: System, es: seq<Event>, s': System)
    decreases |es|
  {
    if es == [] then s == s'
    else Enabled(s, es[0]) && Runs(Apply(s, es[0]), es[1..], s')
  }
}
