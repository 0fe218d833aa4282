/** What clients do about jobs that stopped: resuming after a failure or a crash, and evaluating after tuning. */
module WorkflowRecovery {
  import opened Basics
  import opened WorkflowModel
  import opened WorkflowInvariant
  import opened WorkflowTheorems
  import opened WorkflowSupervisor
  import opened WorkflowRun

  /** Nothing but the row, the lock and the workers of job j has changed. */
  predicate OnlyJob(s: System, d: System, j: nat) {
    && j < |s.jobs| == |d.jobs| && j < |s.locks| == |d.locks| && |s.jobs| == |s.locks| == |s.folders|
    && d.txn.None? && d.folders == s.folders && d.policy == s.policy && d.coordinators == s.coordinators
    && d.jobs == s.jobs[j := d.jobs[j]] && d.locks == s.locks[j := d.locks[j]]
    && d.jobs[j].plan == s.jobs[j].plan && d.jobs[j].invocations == s.jobs[j].invocations
  }

  lemma SoleHolder(s: System, w: Pid)
    requires Inv(s) && s.txn.None? && IsWorker(s, w)
    ensures s.locks[s.workers[w].job] == {w}
  {
    hide Claims, Scheduling, Capacity, Reservations, Results, Snapshots, Advancing, Coordination, Handshake;
    var j := s.workers[w].job;
    assert w in s.locks[j];
    forall p | p in s.locks[j] ensures p == w { assert !Opened(s, j, p); }
  }

  method Work(ws: Workspace, w: Pid, k: WorkerStep, ghost s0: System, ghost taken: seq<Event>)
    returns (ghost steps: seq<Event>)
    requires Inv(ws.world) && Runs(s0, taken, ws.world) && WorkerCan(ws.world, w, k)
    modifies ws
    ensures Inv(ws.world) && Runs(s0, steps, ws.world) && ws.world == WorkerDo(old(ws.world), w, k)
  {
    hide Inv, Runs, WorkerCan, WorkerDo;
    StepKeeps(ws.world, ByWorker(w, k));
    RunsOnward(s0, taken, ws.world, ByWorker(w, k));
    assert Apply(ws.world, ByWorker(w, k)) == WorkerDo(ws.world, w, k);
    steps := taken + [ByWorker(w, k)];
    ws.world := WorkerDo(ws.world, w, k);
  }

  method Ask(ws: Workspace, a: ClientStep, ghost s0: System, ghost taken: seq<Event>) returns (ghost steps: seq<Event>)
    requires Inv(ws.world) && Runs(s0, taken, ws.world) && ClientCan(ws.world, a)
    modifies ws
    ensures Inv(ws.world) && Runs(s0, steps, ws.world) && ws.world == ClientDo(old(ws.world), a)
  {
    hide Inv, Runs, ClientCan, ClientDo;
    ClientOnward(s0, taken, ws.world, a);
    steps := taken + [ByClient(a)];
    ws.world := ClientDo(ws.world, a);
  }

  /** A working worker is lost: it dies and a status request records it, or its work raises, the row records
      the failure, and the process ends. */
  method Lose(ws: Workspace, w: Pid, crashed: bool) returns (ghost steps: seq<Event>)
    requires Inv(ws.world) && ws.world.txn.None? && IsWorker(ws.world, w) && ws.world.workers[w].phase == Working
    requires Row(ws.world, w).state == Running
    modifies ws
    ensures Inv(ws.world) && Runs(old(ws.world), steps, ws.world)
    ensures var j := old(ws.world).workers[w].job;
            && OnlyJob(old(ws.world), ws.world, j) && ws.world.locks[j] == {}
            && ws.world.jobs[j].stage == old(ws.world).jobs[j].stage
            && ws.world.jobs[j].state == if crashed then Interrupted else Failed
  {
    hide Inv, Runs;
    SoleHolder(ws.world, w);
    NoSteps(ws.world);
    steps := [];
    ghost var s0 := ws.world;
    var j := ws.world.workers[w].job;
    if crashed {
      steps := Work(ws, w, WorkerGone, s0, steps);
      steps := Ask(ws, Status(j), s0, steps);
    } else {
      steps := Work(ws, w, Stumble, s0, steps);
      steps := Work(ws, w, RecordFailure(false), s0, steps);
      steps := Work(ws, w, WorkerGone, s0, steps);
    }
  }

  /** A job that stops being active leaves room in the queue. */
  lemma RoomAgain(s: System, d: System, j: nat)
    requires Inv(s) && OnlyJob(s, d, j) && s.jobs[j].state == Running && d.jobs[j].state in {Interrupted, Failed}
    ensures QueueHasRoom(d)
  {
    hide Locks, Claims, Scheduling, Reservations, Results, Snapshots, Advancing, Coordination, Handshake;
    assert ActiveJobs(s.jobs) == ActiveJobs(d.jobs) + {j};
    SumInsert(Ones(|s.jobs|), ActiveJobs(d.jobs), j);
  }

  lemma SameRoom(s: System, d: System, j: nat)
    requires OnlyJob(s, d, j) && Roomy(s) && s.locks[j] != {} && d.jobs[j].state == Queued
    ensures Roomy(d)
  {
    assert Memories(d.jobs) == Memories(s.jobs);
    assert Wanting(d) == Wanting(s);
  }

  /** A failure or a crash of the worker loses the job nothing but the attempt: the row says what happened, a
      client can resume it at once, and the next pass and worker carry the stage to its end. */
  method Retry(ws: Workspace, c: Pid, w: Pid, crashed: bool, keep: set<TrialId>, receipts: set<TrialId>, digest: Digest)
    returns (ghost steps: seq<Event>)
    requires Inv(ws.world) && CanBegin(ws.world, c) && Roomy(ws.world)
    requires IsWorker(ws.world, w) && ws.world.workers[w].phase == Working && Row(ws.world, w).state == Running
    requires Row(ws.world, w).invocations < Row(ws.world, w).plan.maxAttempts
    requires Home(ws.world, w).complete in {None, Some(digest)}
    modifies ws
    ensures Inv(ws.world) && Runs(old(ws.world), steps, ws.world)
    ensures var j := old(ws.world).workers[w].job;
            && j < |ws.world.jobs| == |ws.world.folders|
            && Delivered(old(ws.world).jobs[j], old(ws.world).folders[j], ws.world.jobs[j], ws.world.folders[j],
                         keep, receipts, digest)
  {
    hide Inv, Runs, QueueHasRoom, Delivered, Roomy;
    ghost var s0 := ws.world;
    var j := ws.world.workers[w].job;
    SoleHolder(s0, w);
    steps := Lose(ws, w, crashed);
    RoomAgain(s0, ws.world, j);
    Tables(ws.world);
    SeenTable(ws.world);
    steps := Ask(ws, Resume(j), s0, steps);
    SameRoom(s0, ws.world, j);
    ghost var queued := ws.world;
    ghost var more := Deliver(ws, c, j, keep, receipts, digest);
    Concatenated(s0, steps, queued, more, ws.world);
    steps := steps + more;
    DeliveredFrom(s0.jobs[j], queued.jobs[j], s0.folders[j], ws.world.jobs[j], ws.world.folders[j], keep, receipts, digest);
  }

  lemma SeenTable(s: System)
    requires Inv(s)
    ensures |s.seen| == |s.jobs|
  {}

  lemma DeliveredFrom(was: Job, queued: Job, before: Folder, row: Job, after: Folder, keep: set<TrialId>,
                      receipts: set<TrialId>, digest: Digest)
    requires Delivered(queued, before, row, after, keep, receipts, digest)
    requires queued.plan == was.plan && queued.stage == was.stage && queued.invocations == was.invocations
    ensures Delivered(was, before, row, after, keep, receipts, digest)
  {
    hide Ran, Concluded;
  }

  /** There is room in the queue, and under the caps beside everything that runs or waits, for job j. */
  predicate RoomFor(s: System, j: nat) {
    && |set i | 0 <= i < |s.jobs| && s.jobs[i].state in {Queued, Running}| < s.policy.maxRunning + s.policy.maxQueued
    && Sum(Ones(|s.jobs|), Wanting(s) + {j}) <= s.policy.maxRunning
    && Sum(Memories(s.jobs), Wanting(s) + {j}) <= s.policy.maxMemory
  }

  lemma HasRoom(s: System, j: nat)
    requires RoomFor(s, j)
    ensures QueueHasRoom(s)
  {
    assert ActiveJobs(s.jobs) == set i | 0 <= i < |s.jobs| && s.jobs[i].state in {Queued, Running};
    SumOnes(|s.jobs|, ActiveJobs(s.jobs));
  }

  lemma RoomTaken(s: System, d: System, j: nat)
    requires OnlyJob(s, d, j) && RoomFor(s, j) && d.jobs[j].state == Queued && d.locks == s.locks
    requires s.jobs[j].state == AwaitingEvaluation
    ensures Roomy(d)
  {
    assert Memories(d.jobs) == Memories(s.jobs);
    assert Wanting(d) == Wanting(s) + {j};
  }

  /** A tuned job that a client sends to evaluation is carried to its result: the chosen trials run once more,
      in the evaluation stage, and the published report completes the job. */
  method EvaluateTuned(ws: Workspace, c: Pid, j: nat, total: nat, keep: set<TrialId>, receipts: set<TrialId>,
                       digest: Digest)
    returns (ghost steps: seq<Event>)
    requires Inv(ws.world) && CanBegin(ws.world, c) && RoomFor(ws.world, j)
    requires j < |ws.world.jobs| == |ws.world.folders| == |ws.world.locks| && ws.world.locks[j] == {}
    requires ws.world.jobs[j].state == AwaitingEvaluation && ws.world.jobs[j].plan.isProtected
    requires ws.world.jobs[j].stage == Tuning && ws.world.jobs[j].invocations < ws.world.jobs[j].plan.maxAttempts
    requires ws.world.folders[j].complete in {None, Some(digest)}
    modifies ws
    ensures Inv(ws.world) && Runs(old(ws.world), steps, ws.world)
    ensures j < |ws.world.jobs| == |ws.world.folders| && ws.world.jobs[j].state == Completed
    ensures Delivered(old(ws.world).jobs[j].(stage := Evaluation), old(ws.world).folders[j],
                      ws.world.jobs[j], ws.world.folders[j], keep, receipts, digest)
  {
    hide Inv, Runs, QueueHasRoom, Roomy, Ran, RoomFor;
    ghost var s0 := ws.world;
    NoSteps(s0);
    SeenTable(s0);
    HasRoom(s0, j);
    steps := Ask(ws, Evaluate(j, total), s0, []);
    RoomTaken(s0, ws.world, j);
    ghost var queued := ws.world;
    ghost var more := Deliver(ws, c, j, keep, receipts, digest);
    Concatenated(s0, steps, queued, more, ws.world);
    steps := steps + more;
  }
}
