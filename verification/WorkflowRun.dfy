/** Sequential loops over the shared workspace: one worker carrying a job to its end, and one cleanup. */
module WorkflowRun {
  import opened Basics
  import opened WorkflowModel
  import opened WorkflowInvariant
  import opened WorkflowFrames
  import opened WorkflowTheorems
  import opened WorkflowSupervisor

  /** Every event of es is a step of worker w. */
  predicate WorkedBy(w: Pid, es: seq<Event>) {
    forall i :: 0 <= i < |es| ==> es[i].ByWorker? && es[i].worker == w
  }

  lemma WorkOnward(s0: System, es: seq<Event>, s: System, w: Pid, k: WorkerStep)
    requires Inv(s) && WorkedBy(w, es) && Runs(s0, es, s) && WorkerCan(s, w, k)
    ensures Inv(WorkerDo(s, w, k)) && WorkedBy(w, es + [ByWorker(w, k)])
    ensures Runs(s0, es + [ByWorker(w, k)], WorkerDo(s, w, k))
  {
    hide Inv;
    StepKeeps(s, ByWorker(w, k));
    RunsOnward(s0, es, s, ByWorker(w, k));
    assert Apply(s, ByWorker(w, k)) == WorkerDo(s, w, k);
  }

  /** Worker w is at work on its running row and nobody holds a write transaction. */
  predicate AtWork(s: System, w: Pid) {
    && IsWorker(s, w) && s.txn.None? && s.workers[w].phase == Working && s.workers[w].snapshot.Some?
    && Row(s, w).state == Running
  }

  /** The directory of the worker's job. */
  function Home(s: System, w: Pid): Folder
    requires IsWorker(s, w)
  {
    s.folders[s.workers[w].job]
  }

  /** What one reservation adds to the events of the worker's folder. */
  predicate ReservedOnce(before: Folder, after: Folder, t: TrialId, invocation: nat, stage: Stage) {
    after.Events(t) == before.Events(t) + [Attempt(|before.Events(t)| + 1, invocation, stage)]
  }

  predicate SameClaim(row: Job, next: Job) {
    next.plan == row.plan && next.invocations == row.invocations && next.stage == row.stage
  }

  /** A step that keeps the worker at work on the same invocation and stage of the same job. */
  predicate Onward(s: System, d: System, w: Pid) {
    && AtWork(s, w) && AtWork(d, w) && |d.folders| == |s.folders| && d.workers[w].job == s.workers[w].job
    && d.workers[w].snapshot == s.workers[w].snapshot
    && SameClaim(Row(s, w), Row(d, w))
  }

  /** Between the two states trial t was reserved once, by the invocation and for the stage of the first. */
  predicate Reserved(s: System, d: System, w: Pid, t: TrialId)
    requires IsWorker(s, w) && IsWorker(d, w)
  {
    ReservedOnce(Home(s, w), Home(d, w), t, Row(s, w).invocations, Row(s, w).stage)
  }

  lemma ReserveStep(s: System, w: Pid)
    requires AtWork(s, w) && s.workers[w].queue != [] && !s.workers[w].executing
    requires !Refused(Row(s, w), s.workers[w], s.folders[s.workers[w].job], s.workers[w].queue[0])
    ensures WorkerCan(s, w, Reserve(true))
    ensures var d := WorkerDo(s, w, Reserve(true));
            var f, t := s.folders[s.workers[w].job], s.workers[w].queue[0];
            && Onward(s, d, w) && d.workers[w].queue == s.workers[w].queue && d.workers[w].executing
            && d.folders[s.workers[w].job] ==
               f.(attempts := f.attempts[
                    t := f.Events(t) + [Attempt(|f.Events(t)| + 1, Row(s, w).invocations, Row(s, w).stage)]])
            && d.workers[w].done == s.workers[w].done && Row(d, w).attempts == Row(s, w).attempts + 1
            && Row(d, w).completedTrials == Row(s, w).completedTrials
  {
    hide Refused, StartStep;
  }

  lemma NativeStep(s: System, w: Pid, step: nat)
    requires AtWork(s, w) && s.workers[w].queue != [] && s.workers[w].executing
    requires step > s.folders[s.workers[w].job].Frontier(s.workers[w].queue[0])
    ensures WorkerCan(s, w, NativeCommit(step))
    ensures var d := WorkerDo(s, w, NativeCommit(step));
            var f := s.folders[s.workers[w].job];
            && Onward(s, d, w) && d.workers[w] == s.workers[w]
            && d.folders[s.workers[w].job] == f.(markers := f.markers[s.workers[w].queue[0] := step]) && d.jobs == s.jobs
  {}

  lemma ReportStep(s: System, w: Pid)
    requires AtWork(s, w) && s.workers[w].queue != [] && s.workers[w].executing
    ensures WorkerCan(s, w, ReportProgress)
    ensures var d := WorkerDo(s, w, ReportProgress);
            && Onward(s, d, w) && d.workers[w] == s.workers[w] && d.folders == s.folders
            && Row(d, w).attempts == Row(s, w).attempts && Row(d, w).completedTrials == Row(s, w).completedTrials
            && Row(d, w).checkpoint == Home(s, w).Frontier(s.workers[w].queue[0])
  {}

  lemma FinishStep(s: System, w: Pid)
    requires AtWork(s, w) && s.workers[w].queue != []
    ensures WorkerCan(s, w, FinishTrial)
    ensures var d := WorkerDo(s, w, FinishTrial);
            && Onward(s, d, w) && d.folders == s.folders
            && d.workers[w].queue == s.workers[w].queue[1..] && !d.workers[w].executing
            && d.workers[w].done == s.workers[w].done + 1 && Row(d, w).currentTrial.None?
            && Row(d, w).completedTrials >= d.workers[w].done && Row(d, w).completedTrials >= Row(s, w).completedTrials
            && Row(d, w).attempts == Row(s, w).attempts && Row(d, w).checkpoint == Row(s, w).checkpoint
  {}

  lemma SyncStep(s: System, w: Pid)
    requires AtWork(s, w)
    ensures WorkerCan(s, w, SyncAttempts)
    ensures var d := WorkerDo(s, w, SyncAttempts);
            && Onward(s, d, w) && d.workers[w] == s.workers[w] && d.folders == s.folders
            && Row(d, w).attempts == CountEvents(Row(s, w).plan.trials, Home(s, w))
  {}

  /** A trial of a plan that lists it once counts one file more. */
  lemma {:induction false} CountOne(ts: seq<TrialId>, f: Folder, f': Folder, t: TrialId)
    requires Distinct(ts) && |f'.Events(t)| == |f.Events(t)| + 1
    requires forall u :: u != t ==> f'.Events(u) == f.Events(u)
    ensures CountEvents(ts, f') == CountEvents(ts, f) + if t in ts then 1 else 0
  {
    if ts != [] {
      assert Distinct(ts[1..]);
      CountOne(ts[1..], f, f', t);
      assert t in ts <==> t == ts[0] || t in ts[1..];
      if t == ts[0] { assert t !in ts[1..]; }
    }
  }

  lemma CountSame(ts: seq<TrialId>, f: Folder, f': Folder)
    requires f'.attempts == f.attempts
    ensures CountEvents(ts, f') == CountEvents(ts, f)
  {
    CountGrows(ts, f, f');
    CountGrows(ts, f', f);
  }

  /** One trial: reserve, commit native progress, acknowledge it, finish. */
  function AfterTrial(f: Folder, t: TrialId, invocation: nat, stage: Stage): Folder {
    f.(attempts := f.attempts[t := f.Events(t) + [Attempt(|f.Events(t)| + 1, invocation, stage)]],
       markers := f.markers[t := f.Frontier(t) + 1])
  }

  /** Job j is over, its retention has run out, and nobody holds its lock. */
  predicate Released(s: System, j: nat)
    requires j < |s.jobs| && j < |s.locks|
  {
    && s.jobs[j].state !in {Queued, Running, Expired} && s.locks[j] == {}
    && s.clock - s.jobs[j].changed >= s.policy.retention
  }

  /** Job j is expired already, or released, and nobody holds its lock. */
  predicate Due(s: System, j: nat)
    requires j < |s.jobs| && j < |s.locks|
  {
    (s.jobs[j].state == Expired && s.locks[j] == {}) || Released(s, j)
  }

  function ExpiredRow(s: System, j: nat): Job
    requires j < |s.jobs| && j < |s.locks|
  {
    if Released(s, j) then s.jobs[j].(state := Expired, changed := s.clock) else s.jobs[j]
  }

  /** What a cleanup does not touch. */
  predicate Sweeping(s: System, d: System) {
    && d.txn.None? && d.clock == s.clock && d.policy == s.policy && d.locks == s.locks
    && |d.jobs| == |s.jobs| == |d.folders| == |s.folders| == |s.locks|
  }

  lemma Tables(s: System)
    requires Inv(s)
    ensures |s.jobs| == |s.folders| == |s.locks|
  {}

  /** One more trial of the stage is done and recorded. */
  predicate Counted(s: System, d: System, w: Pid)
    requires IsWorker(s, w) && IsWorker(d, w)
  {
    && d.workers[w].done == s.workers[w].done + 1 && Row(d, w).currentTrial.None?
    && Row(d, w).completedTrials >= d.workers[w].done
  }

  lemma NoSteps(s: System)
    ensures Runs(s, [], s)
  {}

  method OneTrial(ws: Workspace, w: Pid, ghost s0: System, ghost taken: seq<Event>)
    returns (t: TrialId, ghost steps: seq<Event>)
    requires Inv(ws.world) && AtWork(ws.world, w) && ws.world.workers[w].queue != [] && !ws.world.workers[w].executing
    requires Runs(s0, taken, ws.world) && WorkedBy(w, taken)
    modifies ws
    ensures Inv(ws.world) && Runs(s0, steps, ws.world) && WorkedBy(w, steps) && Onward(old(ws.world), ws.world, w)
    ensures t == old(ws.world).workers[w].queue[0] && ws.world.workers[w].queue == old(ws.world).workers[w].queue[1..]
    ensures !ws.world.workers[w].executing
    ensures Home(ws.world, w) ==
            AfterTrial(Home(old(ws.world), w), t, Row(old(ws.world), w).invocations, Row(old(ws.world), w).stage)
    ensures Counted(old(ws.world), ws.world, w) && Row(ws.world, w).attempts == Row(old(ws.world), w).attempts + 1
    ensures Row(ws.world, w).checkpoint == Home(ws.world, w).Frontier(t)
  {
    hide Inv, Runs, WorkerCan, WorkerDo, Refused, WorkedBy;
    t := ws.world.workers[w].queue[0];
    var step := Home(ws.world, w).Frontier(t) + 1;
    NotRefused(ws.world, w);
    ReserveStep(ws.world, w);
    WorkOnward(s0, taken, ws.world, w, Reserve(true));
    steps := taken + [ByWorker(w, Reserve(true))];
    ws.world := WorkerDo(ws.world, w, Reserve(true));
    NativeStep(ws.world, w, step);
    WorkOnward(s0, steps, ws.world, w, NativeCommit(step));
    steps := steps + [ByWorker(w, NativeCommit(step))];
    ws.world := WorkerDo(ws.world, w, NativeCommit(step));
    ReportStep(ws.world, w);
    WorkOnward(s0, steps, ws.world, w, ReportProgress);
    steps := steps + [ByWorker(w, ReportProgress)];
    ws.world := WorkerDo(ws.world, w, ReportProgress);
    FinishStep(ws.world, w);
    WorkOnward(s0, steps, ws.world, w, FinishTrial);
    steps := steps + [ByWorker(w, FinishTrial)];
    ws.world := WorkerDo(ws.world, w, FinishTrial);
  }

  /** A trial whose receipt exists is only recorded. */
  method KnownTrial(ws: Workspace, w: Pid, ghost s0: System, ghost taken: seq<Event>) returns (ghost steps: seq<Event>)
    requires Inv(ws.world) && AtWork(ws.world, w) && ws.world.workers[w].queue != [] && !ws.world.workers[w].executing
    requires Runs(s0, taken, ws.world) && WorkedBy(w, taken)
    modifies ws
    ensures Inv(ws.world) && Runs(s0, steps, ws.world) && WorkedBy(w, steps) && Onward(old(ws.world), ws.world, w)
    ensures ws.world.workers[w].queue == old(ws.world).workers[w].queue[1..] && !ws.world.workers[w].executing
    ensures ws.world.folders == old(ws.world).folders && Counted(old(ws.world), ws.world, w)
    ensures Row(ws.world, w).attempts == Row(old(ws.world), w).attempts
  {
    hide Inv, Runs, WorkerCan, WorkerDo, WorkedBy;
    FinishStep(ws.world, w);
    WorkOnward(s0, taken, ws.world, w, FinishTrial);
    steps := taken + [ByWorker(w, FinishTrial)];
    ws.world := WorkerDo(ws.world, w, FinishTrial);
  }

  /** The worker's counters: every listed trial so far is recorded, and the row counts the files on disk. */
  predicate InStep(s: System, w: Pid, done: nat) {
    && IsWorker(s, w) && s.workers[w].done == done && Row(s, w).completedTrials >= done
    && Row(s, w).attempts == CountEvents(Row(s, w).plan.trials, Home(s, w))
  }

  /** The first listed trial: run if it has no receipt, and recorded. */
  method NextTrial(ws: Workspace, w: Pid, receipts: set<TrialId>, ghost done: nat, ghost s0: System,
                   ghost taken: seq<Event>)
    returns (t: TrialId, ghost steps: seq<Event>)
    requires Inv(ws.world) && AtWork(ws.world, w) && ws.world.workers[w].queue != [] && !ws.world.workers[w].executing
    requires Runs(s0, taken, ws.world) && WorkedBy(w, taken) && InStep(ws.world, w, done)
    requires Distinct(Row(ws.world, w).plan.trials) && ws.world.workers[w].queue[0] in Row(ws.world, w).plan.trials
    modifies ws
    ensures Inv(ws.world) && Runs(s0, steps, ws.world) && WorkedBy(w, steps) && Onward(old(ws.world), ws.world, w)
    ensures t == old(ws.world).workers[w].queue[0] && ws.world.workers[w].queue == old(ws.world).workers[w].queue[1..]
    ensures !ws.world.workers[w].executing && InStep(ws.world, w, done + 1)
    ensures t !in receipts ==> Reserved(old(ws.world), ws.world, w, t)
    ensures forall u :: u != t || t in receipts ==> Home(ws.world, w).Events(u) == Home(old(ws.world), w).Events(u)
    ensures Home(ws.world, w).complete == Home(old(ws.world), w).complete
  {
    hide Inv, Runs, WorkerCan, WorkerDo, WorkedBy, CountEvents, Distinct;
    ghost var before := ws.world;
    t := ws.world.workers[w].queue[0];
    if t in receipts {
      steps := KnownTrial(ws, w, s0, taken);
      CountSame(Row(before, w).plan.trials, Home(before, w), Home(ws.world, w));
    } else {
      t, steps := OneTrial(ws, w, s0, taken);
      CountOne(Row(before, w).plan.trials, Home(before, w), Home(ws.world, w), t);
    }
  }

  /** The trials of one stage in turn. Left alone, a working worker reserves each remaining trial without a
      receipt exactly once, in its own invocation, no other trial at all, and never stumbles; it records every
      trial, and the row counts exactly the reservation files. */
  method Trials(ws: Workspace, w: Pid, receipts: set<TrialId>) returns (ghost steps: seq<Event>)
    requires Inv(ws.world) && AtWork(ws.world, w) && !ws.world.workers[w].executing && InStep(ws.world, w, 0)
    requires Distinct(ws.world.workers[w].queue) && Distinct(Row(ws.world, w).plan.trials)
    requires forall t :: t in ws.world.workers[w].queue ==> t in Row(ws.world, w).plan.trials
    modifies ws
    ensures Inv(ws.world) && Runs(old(ws.world), steps, ws.world) && WorkedBy(w, steps)
    ensures Onward(old(ws.world), ws.world, w) && ws.world.workers[w].queue == []
    ensures forall t :: t in old(ws.world).workers[w].queue && t !in receipts ==> Reserved(old(ws.world), ws.world, w, t)
    ensures forall t :: t !in old(ws.world).workers[w].queue || t in receipts ==>
              Home(ws.world, w).Events(t) == Home(old(ws.world), w).Events(t)
    ensures Home(ws.world, w).complete == Home(old(ws.world), w).complete
    ensures InStep(ws.world, w, |old(ws.world).workers[w].queue|)
  {
    hide Inv, Runs, WorkerCan, WorkerDo, CountEvents, WorkedBy, InStep;
    steps := [];
    Standing(ws.world, w);
    ghost var queue, j := ws.world.workers[w].queue, ws.world.workers[w].job;
    ghost var i := 0;
    while ws.world.workers[w].queue != []
      invariant Onward(old(ws.world), ws.world, w) && ws.world.workers[w].job == j && !ws.world.workers[w].executing
      invariant Inv(ws.world) && Runs(old(ws.world), steps, ws.world) && WorkedBy(w, steps)
      invariant 0 <= i <= |queue| && ws.world.workers[w].queue == queue[i..]
      invariant forall k :: 0 <= k < i && queue[k] !in receipts ==> Reserved(old(ws.world), ws.world, w, queue[k])
      invariant forall t :: t !in queue[..i] || t in receipts ==>
                  ws.world.folders[j].Events(t) == old(ws.world).folders[j].Events(t)
      invariant ws.world.folders[j].complete == old(ws.world).folders[j].complete
      invariant InStep(ws.world, w, i)
      decreases |ws.world.workers[w].queue|
    {
      var t;
      t, steps := NextTrial(ws, w, receipts, i, old(ws.world), steps);
      assert queue[i..][1..] == queue[i + 1..] && queue[..i + 1] == queue[..i] + [t];
      NotYet(queue, i);
      i := i + 1;
    }
    assert queue[..|queue|] == queue;
    forall t | t in queue && t !in receipts ensures Reserved(old(ws.world), ws.world, w, t) {
      var k :| 0 <= k < |queue| && queue[k] == t;
    }
  }

  /** Expires what retention has released and nobody holds, in one transaction, then removes the directories
      of everything expired. Exactly those jobs are reported; no other row or directory changes. */
  method Cleanup(ws: Workspace) returns (expired: seq<nat>, ghost steps: seq<Event>)
    requires Inv(ws.world) && ws.world.txn.None?
    modifies ws
    ensures Inv(ws.world) && Runs(old(ws.world), steps, ws.world)
    ensures |ws.world.jobs| == |ws.world.folders| == |old(ws.world).jobs| == |old(ws.world).folders| == |old(ws.world).locks|
    ensures forall j :: 0 <= j < |ws.world.jobs| ==> (j in expired <==> Due(old(ws.world), j))
    ensures forall j :: 0 <= j < |ws.world.jobs| ==> ws.world.jobs[j] == ExpiredRow(old(ws.world), j)
    ensures forall j :: 0 <= j < |ws.world.jobs| ==>
              ws.world.folders[j] == if Due(old(ws.world), j) && old(ws.world).folders[j].present
                                  then Folder(false, map[], map[], None) else old(ws.world).folders[j]
  {
    hide Inv, Runs;
    expired, steps := [], [];
    Tables(ws.world);
    NoSteps(ws.world);
    var jobs := ws.world.jobs;
    var i := 0;
    while i < |jobs|
      invariant 0 <= i <= |jobs| && Inv(ws.world) && Runs(old(ws.world), steps, ws.world)
      invariant Sweeping(old(ws.world), ws.world)
      invariant ws.world.folders == old(ws.world).folders
      invariant forall k :: 0 <= k < |jobs| ==> ws.world.jobs[k] == if k < i then ExpiredRow(old(ws.world), k) else jobs[k]
      invariant forall k :: k in expired <==> 0 <= k < i && Due(old(ws.world), k)
    {
      if jobs[i].state == Expired && ws.world.locks[i] == {} {
        expired := expired + [i];
      } else if CanExpire(ws.world, i) {
        StepKeeps(ws.world, ByClient(Expire(i)));
        RunsOnward(old(ws.world), steps, ws.world, ByClient(Expire(i)));
        steps := steps + [ByClient(Expire(i))];
        ws.world := WithRow(ws.world, i, ws.world.jobs[i].(state := Expired));
        expired := expired + [i];
      }
      i := i + 1;
    }
    steps := Remove(ws, expired, old(ws.world), steps);
  }

  /** Removes the directories of the expired jobs, outside any transaction. */
  method Remove(ws: Workspace, expired: seq<nat>, ghost s0: System, ghost taken: seq<Event>)
    returns (ghost steps: seq<Event>)
    requires Inv(ws.world) && Runs(s0, taken, ws.world) && Sweeping(s0, ws.world) && ws.world.folders == s0.folders
    requires forall j :: j in expired ==> 0 <= j < |ws.world.jobs| && ws.world.jobs[j].state == Expired
    modifies ws
    ensures Inv(ws.world) && Runs(s0, steps, ws.world) && Sweeping(s0, ws.world) && ws.world.jobs == old(ws.world).jobs
    ensures forall k :: 0 <= k < |ws.world.jobs| ==>
              ws.world.folders[k] == if k in expired && s0.folders[k].present
                                  then Folder(false, map[], map[], None) else s0.folders[k]
  {
    hide Inv, Runs;
    steps := taken;
    var i := 0;
    while i < |expired|
      invariant 0 <= i <= |expired| && Inv(ws.world) && Runs(s0, steps, ws.world) && Sweeping(s0, ws.world)
      invariant ws.world.jobs == old(ws.world).jobs
      invariant forall k :: 0 <= k < |ws.world.jobs| ==>
                  ws.world.folders[k] == if k in expired[..i] && s0.folders[k].present
                                      then Folder(false, map[], map[], None) else s0.folders[k]
    {
      var j := expired[i];
      assert j in expired;
      if ws.world.folders[j].present {
        StepKeeps(ws.world, ByClient(Delete(j)));
        RunsOnward(s0, steps, ws.world, ByClient(Delete(j)));
        steps := steps + [ByClient(Delete(j))];
        ws.world := DoDelete(ws.world, j);
      }
      assert expired[..i + 1] == expired[..i] + [j];
      i := i + 1;
    }
    assert expired[..|expired|] == expired;
  }

  /** What running a stage adds to a job's reservations. With no report yet, every trial of the plan without a
      receipt for the stage is reserved once more, in an evaluation only the chosen ones; with a report
      already published nothing is run. No other trial gains an event. */
  ghost predicate Ran(before: Folder, after: Folder, plan: Plan, stage: Stage, invocation: nat, keep: set<TrialId>,
                      receipts: set<TrialId>) {
    forall t ::
      if before.complete.None? && t in plan.trials && (stage == Evaluation ==> t in keep) && t !in receipts
      then ReservedOnce(before, after, t, invocation, stage)
      else after.Events(t) == before.Events(t)
  }

  /** How a stage that ran undisturbed ends. */
  predicate Concluded(row: Job, f: Folder, stage: Stage, digest: Digest) {
    if stage == Tuning then row.state == AwaitingEvaluation
    else row.state == Completed && row.digest == Some(digest) && f.complete == Some(digest)
  }

  lemma {:induction false} ChosenMeans(ts: seq<TrialId>, keep: set<TrialId>, t: TrialId)
    ensures t in Chosen(ts, keep) <==> t in ts && t in keep
  {
    if ts != [] { ChosenMeans(ts[1..], keep, t); }
  }

  /** The worker's list holds the trials the stage has to look at, and outside an evaluation all of them. */
  lemma QueueMeans(row: Job, f: Folder, keep: set<TrialId>)
    ensures forall t :: t in TrialQueue(row, f, keep) <==>
              f.complete.None? && t in row.plan.trials && (row.stage == Evaluation ==> t in keep)
    ensures f.complete.None? && row.stage != Evaluation ==> |TrialQueue(row, f, keep)| == |row.plan.trials|
  {
    forall t ensures t in Chosen(row.plan.trials, keep) <==> t in row.plan.trials && t in keep {
      ChosenMeans(row.plan.trials, keep, t);
    }
  }

  /** A committed claim carried to its end: the row is read, its attempts are counted, the trials run, and the
      stage concludes. receipts are the trials whose receipt for the stage exists already. A tuning stage
      awaits evaluation; any other stage completes with the published digest. */
  method RunJob(ws: Workspace, w: Pid, keep: set<TrialId>, receipts: set<TrialId>, digest: Digest)
    returns (ghost steps: seq<Event>)
    requires Inv(ws.world) && ws.world.txn.None? && IsWorker(ws.world, w) && ws.world.workers[w].phase == Starting
    requires Row(ws.world, w).state == Running
    requires Home(ws.world, w).complete in {None, Some(digest)}
    modifies ws
    ensures Inv(ws.world) && Runs(old(ws.world), steps, ws.world) && WorkedBy(w, steps)
    ensures IsWorker(ws.world, w) && ws.world.workers[w].phase == Stopping
    ensures ws.world.workers[w].job == old(ws.world).workers[w].job
    ensures |ws.world.folders| == |old(ws.world).folders| && SameClaim(Row(old(ws.world), w), Row(ws.world, w))
    ensures Concluded(Row(ws.world, w), Home(ws.world, w), Row(old(ws.world), w).stage, digest)
    ensures Ran(Home(old(ws.world), w), Home(ws.world, w), Row(old(ws.world), w).plan, Row(old(ws.world), w).stage,
                Row(old(ws.world), w).invocations, keep, receipts)
    ensures Row(ws.world, w).attempts == CountEvents(Row(ws.world, w).plan.trials, Home(ws.world, w))
    ensures Home(old(ws.world), w).complete.None? && Row(old(ws.world), w).stage != Evaluation ==>
              Row(ws.world, w).completedTrials >= |Row(ws.world, w).plan.trials|
  {
    hide Inv, Runs, WorkedBy, Ran, TrialQueue, CountEvents;
    ghost var start := ws.world;
    steps := Begin(ws, w, keep);
    ghost var before := ws.world;
    QueueMeans(Row(start, w), Home(start, w), keep);
    ghost var more := Trials(ws, w, receipts);
    Joined(start, steps, before, more, ws.world, w);
    steps := steps + more;
    ghost var mid := ws.world;
    TrialsRan(start, before, mid, w, keep, receipts);
    steps := Conclude(ws, w, digest, start, steps);
    CountSame(Row(mid, w).plan.trials, Home(mid, w), Home(ws.world, w));
    RanSame(Home(start, w), Home(mid, w), Home(ws.world, w), Row(start, w), keep, receipts);
  }

  /** The worker reads its committed row and recounts the reservation files. */
  method Begin(ws: Workspace, w: Pid, keep: set<TrialId>) returns (ghost steps: seq<Event>)
    requires Inv(ws.world) && ws.world.txn.None? && IsWorker(ws.world, w) && ws.world.workers[w].phase == Starting
    requires Row(ws.world, w).state == Running
    modifies ws
    ensures Inv(ws.world) && Runs(old(ws.world), steps, ws.world) && WorkedBy(w, steps)
    ensures AtWork(ws.world, w) && !ws.world.workers[w].executing && InStep(ws.world, w, 0)
    ensures ws.world.workers[w].job == old(ws.world).workers[w].job && |ws.world.folders| == |old(ws.world).folders|
    ensures SameClaim(Row(old(ws.world), w), Row(ws.world, w))
    ensures ws.world.workers[w].snapshot.value.stage == Row(ws.world, w).stage
    ensures Home(ws.world, w) == Home(old(ws.world), w).(present := true)
    ensures ws.world.workers[w].queue == TrialQueue(Row(old(ws.world), w), Home(old(ws.world), w), keep)
    ensures Distinct(ws.world.workers[w].queue) && Distinct(Row(ws.world, w).plan.trials)
  {
    hide Inv, Runs, WorkedBy, TrialQueue, CountEvents;
    Standing(ws.world, w);
    WorkOnward(ws.world, [], ws.world, w, ReadRow(keep));
    steps := [] + [ByWorker(w, ReadRow(keep))];
    ws.world := DoReadRow(ws.world, w, keep);
    SyncStep(ws.world, w);
    WorkOnward(old(ws.world), steps, ws.world, w, SyncAttempts);
    steps := steps + [ByWorker(w, SyncAttempts)];
    ws.world := DoSyncAttempts(ws.world, w);
    QueueDistinct(ws.world, w);
  }

  lemma TrialsRan(start: System, before: System, mid: System, w: Pid, keep: set<TrialId>, receipts: set<TrialId>)
    requires IsWorker(start, w) && IsWorker(before, w) && IsWorker(mid, w)
    requires Home(before, w) == Home(start, w).(present := true) && SameClaim(Row(start, w), Row(before, w))
    requires before.workers[w].queue == TrialQueue(Row(start, w), Home(start, w), keep)
    requires forall t :: t in before.workers[w].queue && t !in receipts ==> Reserved(before, mid, w, t)
    requires forall t :: t !in before.workers[w].queue || t in receipts ==>
               Home(mid, w).Events(t) == Home(before, w).Events(t)
    ensures Ran(Home(start, w), Home(mid, w), Row(start, w).plan, Row(start, w).stage, Row(start, w).invocations,
                keep, receipts)
  {
    hide TrialQueue;
    QueueMeans(Row(start, w), Home(start, w), keep);
    forall t: TrialId ensures Home(before, w).Events(t) == Home(start, w).Events(t) {}
    forall t | t in before.workers[w].queue && t !in receipts
      ensures ReservedOnce(Home(start, w), Home(mid, w), t, Row(start, w).invocations, Row(start, w).stage)
    {
      assert Reserved(before, mid, w, t);
    }
  }

  lemma RanSame(before: Folder, mid: Folder, after: Folder, row: Job, keep: set<TrialId>, receipts: set<TrialId>)
    requires Ran(before, mid, row.plan, row.stage, row.invocations, keep, receipts) && after.attempts == mid.attempts
    ensures Ran(before, after, row.plan, row.stage, row.invocations, keep, receipts)
  {
    forall t: TrialId ensures after.Events(t) == mid.Events(t) {}
  }

  /** The last transition of a stage whose trials are done. */
  method Conclude(ws: Workspace, w: Pid, digest: Digest, ghost s0: System, ghost taken: seq<Event>)
    returns (ghost steps: seq<Event>)
    requires Inv(ws.world) && AtWork(ws.world, w) && ws.world.workers[w].queue == []
    requires Runs(s0, taken, ws.world) && WorkedBy(w, taken)
    requires ws.world.workers[w].snapshot.value.stage == Row(ws.world, w).stage
    requires Home(ws.world, w).complete in {None, Some(digest)}
    modifies ws
    ensures Inv(ws.world) && Runs(s0, steps, ws.world) && WorkedBy(w, steps)
    ensures IsWorker(ws.world, w) && ws.world.workers[w].phase == Stopping
    ensures ws.world.workers[w].job == old(ws.world).workers[w].job
    ensures |ws.world.folders| == |old(ws.world).folders| && SameClaim(Row(old(ws.world), w), Row(ws.world, w))
    ensures Home(ws.world, w).attempts == Home(old(ws.world), w).attempts
    ensures Concluded(Row(ws.world, w), Home(ws.world, w), Row(old(ws.world), w).stage, digest)
    ensures Row(ws.world, w).attempts == Row(old(ws.world), w).attempts
    ensures Row(ws.world, w).completedTrials == Row(old(ws.world), w).completedTrials
  {
    hide Inv, Runs, WorkedBy;
    if ws.world.workers[w].snapshot.value.stage == Tuning {
      WorkOnward(s0, taken, ws.world, w, FinishTuning);
      steps := taken + [ByWorker(w, FinishTuning)];
      ws.world := DoFinishTuning(ws.world, w);
    } else {
      WorkOnward(s0, taken, ws.world, w, Publish(digest, true));
      steps := taken + [ByWorker(w, Publish(digest, true))];
      ws.world := DoPublish(ws.world, w, digest, true);
    }
  }

  lemma Standing(s: System, w: Pid)
    ensures Runs(s, [], s) && WorkedBy(w, [])
  {}

  lemma NotYet(queue: seq<TrialId>, i: nat)
    requires i < |queue| && Distinct(queue)
    ensures queue[i] !in queue[..i]
  {}

  lemma QueueDistinct(s: System, w: Pid)
    requires Inv(s) && IsWorker(s, w)
    ensures Distinct(s.workers[w].queue) && Distinct(Row(s, w).plan.trials)
  {}

  lemma {:induction false} Joined(s0: System, es: seq<Event>, s: System, more: seq<Event>, s': System, w: Pid)
    requires Runs(s0, es, s) && Runs(s, more, s') && WorkedBy(w, es) && WorkedBy(w, more)
    ensures Runs(s0, es + more, s') && WorkedBy(w, es + more)
    decreases |es|
  {
    hide Enabled, Apply;
    if es == [] {
      assert es + more == more;
    } else {
      Joined(Apply(s0, es[0]), es[1..], s, more, s', w);
      assert (es + more)[1..] == es[1..] + more;
    }
  }

  // ---------------------------------------------------------------- from admission to completion

  /** The workspace has a job, a place among the active jobs and output bytes left for the plan. */
  predicate Grants(s: System, plan: Plan) {
    && |s.folders| == |s.jobs| < s.policy.maxJobs && Distinct(plan.trials)
    && |set i | 0 <= i < |s.jobs| && s.jobs[i].state in {Queued, Running}| < s.policy.maxRunning + s.policy.maxQueued
    && Sum(seq(|s.jobs|, i requires 0 <= i < |s.jobs| => s.jobs[i].plan.output),
           set i | 0 <= i < |s.jobs| && (s.jobs[i].state != Expired || s.folders[i].present))
       + plan.output <= s.policy.maxRetained
  }

  lemma GrantsAdmit(s: System, plan: Plan)
    requires Grants(s, plan) && s.txn.None?
    ensures CanAdmit(s, plan)
  {
    assert ActiveJobs(s.jobs) == set i | 0 <= i < |s.jobs| && s.jobs[i].state in {Queued, Running};
    assert Retained(s.jobs, s.folders) == set i | 0 <= i < |s.jobs| && (s.jobs[i].state != Expired || s.folders[i].present);
    assert Outputs(s.jobs) == seq(|s.jobs|, i requires 0 <= i < |s.jobs| => s.jobs[i].plan.output);
    SumOnes(|s.jobs|, ActiveJobs(s.jobs));
  }

  /** The client's part when no coordinator holds the lock: admission, a generation request, and a coordinator
      that inherits the lock. */
  method Submit(ws: Workspace, plan: Plan) returns (coordinator: Pid, ghost steps: seq<Event>)
    requires Inv(ws.world) && ws.world.txn.None? && Grants(ws.world, plan) && ws.world.supervisor == {}
    requires ws.world.progress.requested < MAX_GENERATION
    modifies ws
    ensures Inv(ws.world) && Runs(old(ws.world), steps, ws.world) && CanBegin(ws.world, coordinator)
    ensures ws.world.policy == old(ws.world).policy && ws.world.workers == old(ws.world).workers
    ensures ws.world.locks == old(ws.world).locks + [{}] && |ws.world.jobs| == |ws.world.locks|
    ensures |ws.world.jobs| == |old(ws.world).jobs| + 1 && ws.world.jobs[..|old(ws.world).jobs|] == old(ws.world).jobs
    ensures ws.world.folders == old(ws.world).folders + [Folder(false, map[], map[], None)]
    ensures var row := ws.world.jobs[|old(ws.world).jobs|];
            row.plan == plan && row.state == Queued && row.invocations == 0
            && row.stage == if plan.isProtected then Tuning else Descriptive
  {
    GrantsAdmit(ws.world, plan);
    hide Inv, Runs, Grants, CanAdmit, CanBegin;
    coordinator, steps := AdmitAndStart(ws, plan);
  }

  method AdmitAndStart(ws: Workspace, plan: Plan) returns (coordinator: Pid, ghost steps: seq<Event>)
    requires Inv(ws.world) && CanAdmit(ws.world, plan) && ws.world.supervisor == {}
    requires ws.world.progress.requested < MAX_GENERATION
    modifies ws
    ensures Inv(ws.world) && Runs(old(ws.world), steps, ws.world) && CanBegin(ws.world, coordinator)
    ensures ws.world.policy == old(ws.world).policy && ws.world.workers == old(ws.world).workers
    ensures ws.world.locks == old(ws.world).locks + [{}] && |ws.world.jobs| == |ws.world.locks|
    ensures |ws.world.jobs| == |old(ws.world).jobs| + 1 && ws.world.jobs[..|old(ws.world).jobs|] == old(ws.world).jobs
    ensures ws.world.folders == old(ws.world).folders + [Folder(false, map[], map[], None)]
    ensures var row := ws.world.jobs[|old(ws.world).jobs|];
            row.plan == plan && row.state == Queued && row.invocations == 0
            && row.stage == if plan.isProtected then Tuning else Descriptive
  {
    hide Inv, Runs, QueueHasRoom, Retained, Outputs, QueuedEpisodes, CanResume, CanEvaluate, CanExpire;
    ghost var s0 := ws.world;
    Tables(s0);
    NoSteps(s0);
    ClientOnward(s0, [], s0, Admit(plan));
    steps := [] + [ByClient(Admit(plan))];
    ws.world := DoAdmit(ws.world, plan);
    assert ws.world.jobs[|s0.jobs|].state == Queued;
    ClientOnward(s0, steps, ws.world, Request);
    steps := steps + [ByClient(Request)];
    var client := ws.world.next;
    ws.world := DoRequest(ws.world);
    ClientOnward(s0, steps, ws.world, StartCoordinator(client));
    steps := steps + [ByClient(StartCoordinator(client))];
    coordinator := ws.world.next;
    ws.world := DoStartCoordinator(ws.world, client);
  }

  lemma ClientOnward(s0: System, es: seq<Event>, s: System, a: ClientStep)
    requires Inv(s) && Runs(s0, es, s) && ClientCan(s, a)
    ensures Inv(ClientDo(s, a)) && Runs(s0, es + [ByClient(a)], ClientDo(s, a))
  {
    hide Inv, ClientCan, ClientDo;
    StepKeeps(s, ByClient(a));
    RunsOnward(s0, es, s, ByClient(a));
    assert Apply(s, ByClient(a)) == ClientDo(s, a);
  }

  /** The jobs whose lock is taken and the jobs that wait. */
  function Wanting(s: System): set<nat> {
    Busy(s) + set j | 0 <= j < |s.jobs| && s.jobs[j].state == Queued
  }

  /** The caps have room for everything that runs or waits. */
  predicate Roomy(s: System) {
    && Sum(Ones(|s.jobs|), Wanting(s)) <= s.policy.maxRunning
    && Sum(Memories(s.jobs), Wanting(s)) <= s.policy.maxMemory
  }

  /** A list without repetitions of jobs that run or wait leaves room for one more of them. */
  lemma RoomForOneMore(s: System, active: seq<nat>, j: nat)
    requires Roomy(s) && Below(active, |s.jobs|) && Distinct(active) && j < |s.jobs| && j in Wanting(s) && j !in active
    requires forall i :: 0 <= i < |active| ==> active[i] in Wanting(s)
    ensures |active| < s.policy.maxRunning
    ensures Total(Memories(s.jobs), active) + s.jobs[j].plan.memory <= s.policy.maxMemory
  {
    var list := active + [j];
    TotalWithin(Ones(|s.jobs|), Wanting(s), list);
    TotalWithin(Memories(s.jobs), Wanting(s), list);
    TotalOnes(|s.jobs|, list);
    TotalGrows(Memories(s.jobs), active, j);
  }

  lemma SamePlans(s0: System, s: System, active: seq<nat>)
    requires |s0.jobs| == |s0.locks| == |s.jobs| == |s.locks| && Below(active, |s.jobs|)
    requires forall i :: 0 <= i < |s.jobs| ==> Outcome(s0, s, active, i)
    ensures Memories(s.jobs) == Memories(s0.jobs)
  {
    forall i | 0 <= i < |s.jobs| ensures s.jobs[i].plan == s0.jobs[i].plan { assert Outcome(s0, s, active, i); }
  }

  /** A pass starts every free waiting job that has invocations left, when the caps have room. */
  lemma MustStart(s0: System, s: System, active: seq<nat>, j: nat)
    requires |s0.jobs| == |s0.locks| == |s.jobs| == |s.locks| && Below(active, |s.jobs|) && j < |s.jobs|
    requires s0.jobs[j].state == Queued && s0.locks[j] == {} && s0.jobs[j].invocations < s0.jobs[j].plan.maxAttempts
    requires s.policy == s0.policy && Roomy(s0) && Distinct(active)
    requires forall i :: 0 <= i < |s.jobs| ==> Outcome(s0, s, active, i)
    requires s.jobs[j].state != Running ==> s.locks[j] == {}
    requires forall i :: i in active ==> s0.locks[i] != {} || (s0.jobs[i].state == Queued && s.jobs[i].state == Running)
    ensures s.jobs[j].state == Running && Started(s, j)
    ensures s.jobs[j] == s0.jobs[j].(state := Running, changed := s.jobs[j].changed,
                                     invocations := s0.jobs[j].invocations + 1)
  {
    hide Started;
    assert Outcome(s0, s, active, j);
    if s.jobs[j].state == Queued {
      SamePlans(s0, s, active);
      forall i | 0 <= i < |active| ensures active[i] in Wanting(s0) { assert active[i] in active; }
      RoomForOneMore(s0, active, j);
    }
  }

  lemma {:induction false} Concatenated(s0: System, es: seq<Event>, s: System, more: seq<Event>, s': System)
    requires Runs(s0, es, s) && Runs(s, more, s')
    ensures Runs(s0, es + more, s')
    decreases |es|
  {
    hide Enabled, Apply;
    if es == [] {
      assert es + more == more;
    } else {
      Concatenated(Apply(s0, es[0]), es[1..], s, more, s');
      assert (es + more)[1..] == es[1..] + more;
    }
  }

  /** The worker a pass has just started. */
  method FreshWorker(ws: Workspace, j: nat) returns (w: Pid)
    requires j < |ws.world.jobs| == |ws.world.folders| == |ws.world.locks| && Started(ws.world, j)
    ensures IsWorker(ws.world, w) && ws.world.workers[w].job == j && ws.world.workers[w].phase == Starting
  {
    w :| w in ws.world.workers && ws.world.workers[w].job == j && ws.world.workers[w].phase == Starting;
  }

  /** The stage the row stood at has run in one more invocation and concluded. */
  ghost predicate Delivered(was: Job, before: Folder, row: Job, after: Folder, keep: set<TrialId>,
                            receipts: set<TrialId>, digest: Digest) {
    && row.plan == was.plan && row.stage == was.stage && row.invocations == was.invocations + 1
    && Concluded(row, after, was.stage, digest)
    && Ran(before, after, was.plan, was.stage, was.invocations + 1, keep, receipts)
    && row.attempts == CountEvents(was.plan.trials, after)
    && (before.complete.None? && was.stage != Evaluation ==> row.completedTrials >= |was.plan.trials|)
  }

  /** Nothing in the protocol blocks progress. In any state the protocol can reach, between transactions and
      with a live coordinator, a waiting job whose lock is free, with invocations left and room under the caps,
      is started by one pass and, undisturbed, carried by its worker to the end of its stage: one more
      invocation, one more reservation of every trial still to run, and the published report as its result. */
  method Deliver(ws: Workspace, c: Pid, j: nat, keep: set<TrialId>, receipts: set<TrialId>, digest: Digest)
    returns (ghost steps: seq<Event>)
    requires Inv(ws.world) && CanBegin(ws.world, c) && Roomy(ws.world)
    requires j < |ws.world.jobs| == |ws.world.folders| == |ws.world.locks|
    requires ws.world.jobs[j].state == Queued && ws.world.locks[j] == {}
    requires ws.world.jobs[j].invocations < ws.world.jobs[j].plan.maxAttempts
    requires ws.world.folders[j].complete in {None, Some(digest)}
    modifies ws
    ensures Inv(ws.world) && Runs(old(ws.world), steps, ws.world)
    ensures j < |ws.world.jobs| == |ws.world.folders|
    ensures Delivered(old(ws.world).jobs[j], old(ws.world).folders[j], ws.world.jobs[j], ws.world.folders[j],
                      keep, receipts, digest)
  {
    hide Inv, Runs, Outcome, Started, CanBegin, Roomy, Ran, Concluded, CountEvents;
    ghost var s0 := ws.world;
    ghost var active;
    var pending;
    pending, steps, active := ws.Schedule(c);
    MustStart(s0, ws.world, active, j);
    var w := FreshWorker(ws, j);
    ghost var started := ws.world;
    ghost var work := RunJob(ws, w, keep, receipts, digest);
    Concatenated(s0, steps, started, work, ws.world);
    steps := steps + work;
  }
}
