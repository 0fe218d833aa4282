/**
 The four ways an event changes one place of the state (a row, a queue entry, a worker, a folder),
 and why each keeps the invariant.
 */
module WorkflowFrames {
  import opened Basics
  import opened WorkflowModel
  import opened WorkflowInvariant

  // ---------------------------------------------------------------- one row changes

  /** A row may change in any way that neither claims, re-queues nor revives the job. */
  ghost predicate RowOk(s: System, j: nat, row: Job) {
    && Shape(s) && j < |s.jobs| && s.txn.None?
    && row.plan == s.jobs[j].plan && row.invocations == s.jobs[j].invocations
    && row.stage == s.jobs[j].stage
    && (row.state == Running ==> s.jobs[j].state == Running)
    && (row.state == Queued ==> s.jobs[j].state == Queued)
    && (s.jobs[j].state == Expired ==> row.state == Expired)
    && (row.state == Expired ==> s.locks[j] == {})
    && (row.state == Completed ==> row.digest.Some? && s.folders[j].complete == row.digest)
    && RowProgress(row, s.folders[j])
    && (forall w :: w in s.workers && s.workers[w].job == j ==> WorkerProgress(row, s.workers[w], s.folders[j]))
  }

  lemma RowCapacity(s: System, j: nat, row: Job)
    requires RowOk(s, j, row) && Capacity(s)
    ensures Capacity(WithRow(s, j, row))
  {
    var s' := WithRow(s, j, row);
    assert Memories(s'.jobs) == Memories(s.jobs);
    assert Outputs(s'.jobs) == Outputs(s.jobs);
    SumMonotone(Ones(|s.jobs|), ActiveJobs(s'.jobs), ActiveJobs(s.jobs));
    SumMonotone(Outputs(s.jobs), Retained(s'.jobs, s'.folders), Retained(s.jobs, s.folders));
  }

  lemma RowReservations(s: System, j: nat, row: Job)
    requires RowOk(s, j, row) && Reservations(s)
    ensures Reservations(WithRow(s, j, row))
  {
    var s' := WithRow(s, j, row);
    forall i, t | 0 <= i < |s'.jobs| ensures Chain(s'.jobs[i], s'.folders[i].Events(t)) {
      assert Chain(s.jobs[i], s.folders[i].Events(t));
    }
  }

  lemma RowHandshake(s: System, j: nat, row: Job)
    requires RowOk(s, j, row) && Handshake(s)
    ensures Handshake(WithRow(s, j, row))
  {
    var s' := WithRow(s, j, row);
    forall p, i | p in s'.clients && i in s'.clients[p].queued ensures Informed(s', s'.clients[p], i) {
      assert Informed(s, s.clients[p], i);
    }
  }

  lemma RowOwnership(s: System, j: nat, row: Job)
    requires RowOk(s, j, row) && Locks(s) && Claims(s)
    ensures Shape(WithRow(s, j, row)) && Locks(WithRow(s, j, row)) && Claims(WithRow(s, j, row))
  {}

  lemma RowRest(s: System, j: nat, row: Job)
    requires RowOk(s, j, row) && Shape(WithRow(s, j, row))
    requires Results(s) && Snapshots(s) && Advancing(s) && Coordination(s)
    ensures Results(WithRow(s, j, row)) && Snapshots(WithRow(s, j, row)) && Advancing(WithRow(s, j, row))
    ensures Coordination(WithRow(s, j, row))
  {
    hide WorkerProgress, RowProgress;
    var s' := WithRow(s, j, row);
    forall i | 0 <= i < |s'.jobs| ensures RowProgress(s'.jobs[i], s'.folders[i]) {
      if i == j { ProgressIgnoresChange(s, j, row); } else { assert RowProgress(s.jobs[i], s.folders[i]); }
    }
    forall w | w in s'.workers
      ensures WorkerProgress(s'.jobs[s'.workers[w].job], s'.workers[w], s'.folders[s'.workers[w].job])
    {
      assert WorkerProgress(s.jobs[s.workers[w].job], s.workers[w], s.folders[s.workers[w].job]);
      if s.workers[w].job == j { ProgressIgnoresChange(s, j, row); }
    }
  }

  /** The time of the last change says nothing about progress. */
  lemma ProgressIgnoresChange(s: System, j: nat, row: Job)
    requires j < |s.folders|
    ensures RowProgress(row, s.folders[j]) ==> RowProgress(row.(changed := s.clock), s.folders[j])
    ensures forall wk :: WorkerProgress(row, wk, s.folders[j]) ==>
              WorkerProgress(row.(changed := s.clock), wk, s.folders[j])
  {}

  lemma RowUpdate(s: System, j: nat, row: Job)
    requires Inv(s) && RowOk(s, j, row)
    ensures Inv(WithRow(s, j, row))
  {
    RowOwnership(s, j, row);
    RowRest(s, j, row);
    RowCapacity(s, j, row);
    RowReservations(s, j, row);
    RowHandshake(s, j, row);
  }

  // ---------------------------------------------------------------- one job is queued again

  ghost predicate EnqueueOk(s: System, j: nat, row: Job) {
    && Shape(s) && j < |s.jobs| && s.txn.None? && QueueHasRoom(s)
    && row.plan == s.jobs[j].plan && row.invocations == s.jobs[j].invocations
    && StageFits(row.plan, row.stage) && RowProgress(row.(state := Queued), s.folders[j])
    && s.jobs[j].state in {Interrupted, Failed, Cancelled, AwaitingEvaluation}
  }

  lemma EnqueueCapacity(s: System, j: nat, row: Job)
    requires EnqueueOk(s, j, row) && Capacity(s)
    ensures Capacity(Enqueue(s, j, row))
  {
    var s' := Enqueue(s, j, row);
    assert Memories(s'.jobs) == Memories(s.jobs);
    assert Outputs(s'.jobs) == Outputs(s.jobs);
    assert ActiveJobs(s'.jobs) == ActiveJobs(s.jobs) + {j};
    SumInsert(Ones(|s.jobs|), ActiveJobs(s.jobs), j);
    assert Retained(s'.jobs, s'.folders) == Retained(s.jobs, s.folders);
  }

  lemma EnqueueReservations(s: System, j: nat, row: Job)
    requires EnqueueOk(s, j, row) && Reservations(s)
    ensures Reservations(Enqueue(s, j, row))
  {
    var s' := Enqueue(s, j, row);
    forall i, t | 0 <= i < |s'.jobs| ensures Chain(s'.jobs[i], s'.folders[i].Events(t)) {
      assert Chain(s.jobs[i], s.folders[i].Events(t));
    }
  }

  lemma EnqueueHandshake(s: System, j: nat, row: Job)
    requires EnqueueOk(s, j, row) && Handshake(s)
    ensures Handshake(Enqueue(s, j, row))
  {
    var s' := Enqueue(s, j, row);
    forall p, i | p in s'.clients && i in s'.clients[p].queued ensures Informed(s', s'.clients[p], i) {
      assert Informed(s, s.clients[p], i);
    }
  }

  lemma EnqueueOwnership(s: System, j: nat, row: Job)
    requires EnqueueOk(s, j, row) && Locks(s) && Claims(s)
    ensures Shape(Enqueue(s, j, row)) && Locks(Enqueue(s, j, row)) && Claims(Enqueue(s, j, row))
  {}

  lemma EnqueueRest(s: System, j: nat, row: Job)
    requires EnqueueOk(s, j, row) && Shape(Enqueue(s, j, row))
    requires Results(s) && Snapshots(s) && Advancing(s) && Coordination(s)
    ensures Results(Enqueue(s, j, row)) && Snapshots(Enqueue(s, j, row)) && Advancing(Enqueue(s, j, row))
    ensures Coordination(Enqueue(s, j, row))
  {}

  lemma EnqueueUpdate(s: System, j: nat, row: Job)
    requires Inv(s) && EnqueueOk(s, j, row)
    ensures Inv(Enqueue(s, j, row))
  {
    EnqueueOwnership(s, j, row);
    EnqueueRest(s, j, row);
    EnqueueCapacity(s, j, row);
    EnqueueReservations(s, j, row);
    EnqueueHandshake(s, j, row);
  }

  // ---------------------------------------------------------------- one worker changes

  function WithWorker(s: System, w: Pid, wk: Worker): System
    requires w in s.workers
  {
    s.(workers := s.workers[w := wk])
  }

  ghost predicate WorkerOk(s: System, w: Pid, wk: Worker) {
    && Shape(s) && w in s.workers
    && var before, row := s.workers[w], s.jobs[s.workers[w].job];
    && wk.job == before.job && wk.claimed == before.claimed
    && (wk.phase in {Working, Unwinding} ==> wk.claimed == row.invocations)
    && (forall t :: Unreserved(wk, t) ==> Unreserved(before, t))
    && Distinct(wk.queue) && (wk.executing ==> |wk.queue| > 0)
    && (wk.phase == Working ==>
          wk.snapshot.Some? && (row.state == Running ==> wk.snapshot.value.stage == row.stage))
    && WorkerProgress(row, wk, s.folders[wk.job])
  }

  lemma WorkerHeld(s: System, w: Pid, wk: Worker)
    requires WorkerOk(s, w, wk)
    ensures Held(WithWorker(s, w, wk)) == Held(s)
  {
    var s' := WithWorker(s, w, wk);
    assert forall v :: v in s.workers <==> v in s'.workers;
    assert forall v :: v in s.workers ==> s.workers[v].job == s'.workers[v].job;
    forall j | j in Held(s) ensures j in Held(s') {
      var v :| v in s.workers && s.workers[v].job == j;
      assert s'.workers[v].job == j;
    }
  }

  lemma WorkerShape(s: System, w: Pid, wk: Worker)
    requires WorkerOk(s, w, wk) && Locks(s)
    ensures Shape(WithWorker(s, w, wk)) && Locks(WithWorker(s, w, wk))
  {
    hide WorkerProgress, Unreserved, Distinct;
  }

  lemma WorkerClaims(s: System, w: Pid, wk: Worker)
    requires WorkerOk(s, w, wk) && Claims(s) && Shape(WithWorker(s, w, wk))
    ensures Claims(WithWorker(s, w, wk))
  {
    hide WorkerProgress, Distinct;
  }

  lemma WorkerScheduling(s: System, w: Pid, wk: Worker)
    requires WorkerOk(s, w, wk) && Shape(WithWorker(s, w, wk)) && Scheduling(s)
    ensures Scheduling(WithWorker(s, w, wk))
  {
    WorkerHeld(s, w, wk);
    var s' := WithWorker(s, w, wk);
    if s.txn.Some? {
      forall j | 0 <= j < |s.jobs| ensures DraftRow(s', s'.txn.value, j) {
        assert DraftRow(s, s.txn.value, j);
      }
    }
  }

  lemma WorkerReservations(s: System, w: Pid, wk: Worker)
    requires WorkerOk(s, w, wk) && Shape(WithWorker(s, w, wk)) && Reservations(s)
    ensures Reservations(WithWorker(s, w, wk))
  {}

  lemma WorkerRest(s: System, w: Pid, wk: Worker)
    requires WorkerOk(s, w, wk) && Shape(WithWorker(s, w, wk))
    requires Results(s) && Snapshots(s) && Advancing(s) && Coordination(s) && Handshake(s)
    ensures Results(WithWorker(s, w, wk)) && Snapshots(WithWorker(s, w, wk)) && Advancing(WithWorker(s, w, wk))
    ensures Coordination(WithWorker(s, w, wk)) && Handshake(WithWorker(s, w, wk))
  {
    var s' := WithWorker(s, w, wk);
    forall p, i | p in s'.clients && i in s'.clients[p].queued ensures Informed(s', s'.clients[p], i) {
      assert Informed(s, s.clients[p], i);
    }
  }

  lemma WorkerUpdate(s: System, w: Pid, wk: Worker)
    requires Inv(s) && WorkerOk(s, w, wk)
    ensures Inv(WithWorker(s, w, wk))
  {
    WorkerHeld(s, w, wk);
    WorkerShape(s, w, wk);
    WorkerClaims(s, w, wk);
    WorkerScheduling(s, w, wk);
    WorkerReservations(s, w, wk);
    WorkerRest(s, w, wk);
  }

  // ---------------------------------------------------------------- one folder changes

  function WithFolder(s: System, j: nat, f: Folder): System
    requires j < |s.folders|
  {
    s.(folders := s.folders[j := f])
  }

  ghost predicate FolderOk(s: System, j: nat, f: Folder) {
    && Shape(s) && j < |s.jobs|
    && (s.jobs[j].state == Expired ==> !f.present)
    && (s.jobs[j].state == Completed ==> f.complete == s.folders[j].complete)
    && (forall t :: Chain(s.jobs[j], f.Events(t)))
    && (forall w, t :: w in s.workers && s.workers[w].job == j && Unreserved(s.workers[w], t) ==>
          Before(f.Events(t), s.workers[w].claimed))
    && (s.jobs[j].state != Expired ==> forall t ::
          |s.folders[j].Events(t)| <= |f.Events(t)| && s.folders[j].Frontier(t) <= f.Frontier(t))
  }

  lemma {:induction false} CountGrows(ts: seq<TrialId>, f: Folder, f': Folder)
    requires forall t :: |f.Events(t)| <= |f'.Events(t)|
    ensures CountEvents(ts, f) <= CountEvents(ts, f')
  {
    if ts != [] { CountGrows(ts[1..], f, f'); }
  }

  lemma FolderAdvancing(s: System, j: nat, f: Folder)
    requires FolderOk(s, j, f) && Advancing(s) && Results(s) && Locks(s)
    ensures Advancing(WithFolder(s, j, f))
  {
    var s' := WithFolder(s, j, f);
    if s.jobs[j].state != Expired { CountGrows(s.jobs[j].plan.trials, s.folders[j], f); }
    forall w | w in s'.workers
      ensures WorkerProgress(s'.jobs[s'.workers[w].job], s'.workers[w], s'.folders[s'.workers[w].job])
    {
      var wk := s.workers[w];
      assert WorkerProgress(s.jobs[wk.job], wk, s.folders[wk.job]);
    }
  }

  lemma FolderCapacity(s: System, j: nat, f: Folder)
    requires FolderOk(s, j, f) && Capacity(s)
    ensures Capacity(WithFolder(s, j, f))
  {
    SumMonotone(Outputs(s.jobs), Retained(s.jobs, s.folders[j := f]), Retained(s.jobs, s.folders));
  }

  lemma FolderScheduling(s: System, j: nat, f: Folder)
    requires FolderOk(s, j, f) && Scheduling(s)
    ensures Scheduling(WithFolder(s, j, f))
  {
    var s' := WithFolder(s, j, f);
    if s.txn.Some? {
      forall i | 0 <= i < |s.jobs| ensures DraftRow(s', s'.txn.value, i) {
        assert DraftRow(s, s.txn.value, i);
      }
    }
  }

  lemma FolderReservations(s: System, j: nat, f: Folder)
    requires FolderOk(s, j, f) && Reservations(s)
    ensures Reservations(WithFolder(s, j, f))
  {}

  lemma FolderHandshake(s: System, j: nat, f: Folder)
    requires FolderOk(s, j, f) && Handshake(s)
    ensures Handshake(WithFolder(s, j, f))
  {
    var s' := WithFolder(s, j, f);
    forall p, i | p in s'.clients && i in s'.clients[p].queued ensures Informed(s', s'.clients[p], i) {
      assert Informed(s, s.clients[p], i);
    }
  }

  lemma FolderRest(s: System, j: nat, f: Folder)
    requires FolderOk(s, j, f) && Shape(WithFolder(s, j, f)) && Results(s) && Snapshots(s) && Coordination(s)
    ensures Results(WithFolder(s, j, f)) && Snapshots(WithFolder(s, j, f)) && Coordination(WithFolder(s, j, f))
  {
    hide Chain, Before, Unreserved;
  }

  lemma FolderOwnership(s: System, j: nat, f: Folder)
    requires FolderOk(s, j, f) && Locks(s) && Claims(s)
    ensures Shape(WithFolder(s, j, f)) && Locks(WithFolder(s, j, f)) && Claims(WithFolder(s, j, f))
  {
    hide Chain, Before, Unreserved;
  }

  lemma FolderUpdate(s: System, j: nat, f: Folder)
    requires Inv(s) && FolderOk(s, j, f)
    ensures Inv(WithFolder(s, j, f))
  {
    FolderOwnership(s, j, f);
    FolderRest(s, j, f);
    FolderAdvancing(s, j, f);
    FolderCapacity(s, j, f);
    FolderScheduling(s, j, f);
    FolderReservations(s, j, f);
    FolderHandshake(s, j, f);
  }
}
