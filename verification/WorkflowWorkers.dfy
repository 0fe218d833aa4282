/** Every worker event keeps the invariant, as a composition of single-place changes. */
module WorkflowWorkers {
  import opened Basics
  import opened WorkflowModel
  import opened WorkflowInvariant
  import opened WorkflowFrames
  import opened WorkflowSteps

  lemma {:induction false} ChosenSubset(ts: seq<TrialId>, keep: set<TrialId>, i: nat) returns (k: nat)
    requires i < |Chosen(ts, keep)|
    ensures k < |ts| && ts[k] == Chosen(ts, keep)[i]
  {
    var head := if ts[0] in keep then 1 else 0;
    if i < head { k := 0; } else { k := ChosenSubset(ts[1..], keep, i - head); k := k + 1; }
  }

  lemma {:induction false} ChosenDistinct(ts: seq<TrialId>, keep: set<TrialId>)
    requires Distinct(ts)
    ensures Distinct(Chosen(ts, keep))
  {
    if ts != [] {
      ChosenDistinct(ts[1..], keep);
      forall i, j | 0 <= i < j < |Chosen(ts, keep)| ensures Chosen(ts, keep)[i] != Chosen(ts, keep)[j] {
        var head := if ts[0] in keep then 1 else 0;
        var k := ChosenSubset(ts[1..], keep, j - head);
        if i >= head { assert Chosen(ts, keep)[i] == Chosen(ts[1..], keep)[i - head]; }
      }
    }
  }

  lemma PhaseKeeps(s: System, w: Pid, phase: Phase)
    requires Inv(s) && w in s.workers
    requires phase == Stopping || (phase == Unwinding && s.workers[w].phase == Working)
          || (phase == AtBarrier && s.workers[w].phase == Starting)
    ensures Inv(WithPhase(s, w, phase))
  {
    hide Locks, Scheduling, Capacity, Results, Coordination, Handshake, Chain;
    WorkerUpdate(s, w, s.workers[w].(phase := phase));
  }

  function Begun(s: System, w: Pid, keep: set<TrialId>): Worker
    requires IsWorker(s, w)
  {
    var wk := s.workers[w];
    wk.(phase := Working, snapshot := Some(Row(s, w)), executing := false, done := 0,
        queue := TrialQueue(Row(s, w), s.folders[wk.job], keep))
  }

  lemma BegunOk(s: System, w: Pid, keep: set<TrialId>)
    requires Shape(s) && Claims(s) && Reservations(s) && Advancing(s)
    requires IsWorker(s, w) && Row(s, w).state == Running && s.workers[w].phase in {Starting, AtBarrier}
    ensures WorkerOk(s, w, Begun(s, w, keep))
  {
    var wk := Begun(s, w, keep);
    ChosenDistinct(Row(s, w).plan.trials, keep);
    forall i | 0 <= i < |wk.queue| ensures wk.queue[i] in Row(s, w).plan.trials {
      if Row(s, w).stage == Evaluation { var k := ChosenSubset(Row(s, w).plan.trials, keep, i); }
    }
    assert RowProgress(Row(s, w), s.folders[wk.job]);
  }

  lemma PresentKeeps(s: System, j: nat)
    requires Inv(s) && j < |s.jobs| && s.jobs[j].state == Running
    ensures Inv(WithFolder(s, j, s.folders[j].(present := true)))
  {
    hide Locks, Claims, Scheduling, Capacity, Results, Snapshots, Advancing, Coordination, Handshake;
    var f := s.folders[j];
    forall t ensures Chain(s.jobs[j], f.(present := true).Events(t)) { assert Chain(s.jobs[j], f.Events(t)); }
    forall v, t | v in s.workers && s.workers[v].job == j && Unreserved(s.workers[v], t)
      ensures Before(f.(present := true).Events(t), s.workers[v].claimed)
    {
      assert Before(f.Events(t), s.workers[v].claimed);
    }
    FolderUpdate(s, j, f.(present := true));
  }

  lemma BeginWorkKeeps(s: System, w: Pid, keep: set<TrialId>)
    requires Inv(s) && IsWorker(s, w) && Row(s, w).state == Running
    requires s.workers[w].phase in {Starting, AtBarrier}
    ensures Inv(BeginWork(s, w, keep))
  {
    BegunOk(s, w, keep);
    WorkerUpdate(s, w, Begun(s, w, keep));
    PresentKeeps(WithWorker(s, w, Begun(s, w, keep)), s.workers[w].job);
  }

  lemma ReadKeeps(s: System, w: Pid, keep: set<TrialId>)
    requires Inv(s) && WorkerCan(s, w, ReadRow(keep))
    ensures Inv(DoReadRow(s, w, keep))
  {
    match Row(s, w).state
    case Queued => PhaseKeeps(s, w, AtBarrier);
    case Running => BeginWorkKeeps(s, w, keep);
    case _ => PhaseKeeps(s, w, Stopping);
  }

  lemma BarrierKeeps(s: System, w: Pid, keep: set<TrialId>)
    requires Inv(s) && WorkerCan(s, w, PassBarrier(keep))
    ensures Inv(DoPassBarrier(s, w, keep))
  {
    match Row(s, w).state
    case Running => BeginWorkKeeps(s, w, keep);
    case _ => PhaseKeeps(s, w, Stopping);
  }

  lemma TransitionKeeps(s: System, w: Pid, row: Job)
    requires Inv(s) && InTransaction(s, w)
    requires Row(s, w).state == Running ==> RowOk(s, s.workers[w].job, row)
    ensures Inv(Transition(s, w, row))
  {
    if Row(s, w).state == Running { RowUpdate(s, s.workers[w].job, row); } else { PhaseKeeps(s, w, Unwinding); }
  }

  /** A reservation extends its trial's chain by the invocation that owns the row. */
  lemma ReservationChain(s: System, w: Pid)
    requires Shape(s) && Claims(s) && Reservations(s) && CanReserve(s, w)
    ensures var j, t := s.workers[w].job, s.workers[w].queue[0];
            var events := s.folders[j].Events(t);
            && Before(events, s.jobs[j].invocations)
            && Chain(s.jobs[j], events + [Attempt(|events| + 1, s.jobs[j].invocations, s.jobs[j].stage)])
  {
    var wk := s.workers[w];
    var t := wk.queue[0];
    assert Unreserved(wk, t);
    assert Chain(s.jobs[wk.job], s.folders[wk.job].Events(t));
    assert wk.claimed == s.jobs[wk.job].invocations;
  }

  /** Once the worker counts its first trial as reserved, or gives up, it no longer claims it. */
  lemma ReservedWorker(s: System, w: Pid, wk: Worker)
    requires Inv(s) && CanReserve(s, w)
    requires wk == s.workers[w].(executing := true) || wk == s.workers[w].(phase := Unwinding)
    requires wk.phase == Working && Row(s, w).state == Running ==> Row(s, w).currentTrial == Some(wk.queue[0])
    ensures Inv(WithWorker(s, w, wk)) && !Unreserved(wk, wk.queue[0])
  {
    ReservedWorkerOk(s, w, wk);
    WorkerUpdate(s, w, wk);
  }

  lemma ReservedWorkerOk(s: System, w: Pid, wk: Worker)
    requires Shape(s) && Claims(s) && Reservations(s) && Snapshots(s) && Advancing(s) && CanReserve(s, w)
    requires wk == s.workers[w].(executing := true) || wk == s.workers[w].(phase := Unwinding)
    requires wk.phase == Working && Row(s, w).state == Running ==> Row(s, w).currentTrial == Some(wk.queue[0])
    ensures WorkerOk(s, w, wk) && !Unreserved(wk, wk.queue[0])
  {
    forall u | Unreserved(wk, u) ensures Unreserved(s.workers[w], u) {
      var i :| 1 <= i < |wk.queue| && wk.queue[i] == u;
    }
    assert WorkerProgress(Row(s, w), s.workers[w], s.folders[wk.job]);
  }

  /** Publishing the reservation file itself. */
  lemma WrittenKeeps(s: System, w: Pid, t: TrialId, event: Attempt)
    requires Inv(s) && IsWorker(s, w) && Row(s, w).state == Running && !Unreserved(s.workers[w], t)
    requires Chain(Row(s, w), s.folders[s.workers[w].job].Events(t) + [event])
    ensures var f := s.folders[s.workers[w].job];
            Inv(WithFolder(s, s.workers[w].job, f.(attempts := f.attempts[t := f.Events(t) + [event]])))
  {
    var f := s.folders[s.workers[w].job];
    WrittenOk(s, w, t, event);
    FolderUpdate(s, s.workers[w].job, f.(attempts := f.attempts[t := f.Events(t) + [event]]));
  }

  lemma WrittenOk(s: System, w: Pid, t: TrialId, event: Attempt)
    requires Shape(s) && Locks(s) && Reservations(s)
    requires IsWorker(s, w) && Row(s, w).state == Running && !Unreserved(s.workers[w], t)
    requires Chain(Row(s, w), s.folders[s.workers[w].job].Events(t) + [event])
    ensures var f := s.folders[s.workers[w].job];
            FolderOk(s, s.workers[w].job, f.(attempts := f.attempts[t := f.Events(t) + [event]]))
  {
    var j := s.workers[w].job;
    var f := s.folders[j];
    var f' := f.(attempts := f.attempts[t := f.Events(t) + [event]]);
    forall u ensures Chain(s.jobs[j], f'.Events(u)) {
      if u != t {
        assert f'.Events(u) == f.Events(u);
        assert Chain(s.jobs[j], s.folders[j].Events(u));
      }
    }
    forall v, u | v in s.workers && s.workers[v].job == j && Unreserved(s.workers[v], u)
      ensures Before(f'.Events(u), s.workers[v].claimed)
    {
      assert v == w && f'.Events(u) == f.Events(u);
      assert Before(s.folders[j].Events(u), s.workers[v].claimed);
    }
  }

  /** A trial is listed once, so one more file of it counts once. */
  lemma {:induction false} CountOneMore(ts: seq<TrialId>, f: Folder, t: TrialId, event: Attempt)
    requires t in ts
    ensures CountEvents(ts, f.(attempts := f.attempts[t := f.Events(t) + [event]])) >= CountEvents(ts, f) + 1
  {
    var f' := f.(attempts := f.attempts[t := f.Events(t) + [event]]);
    CountGrows(ts[1..], f, f');
    if ts[0] != t { CountOneMore(ts[1..], f, t, event); }
  }

  function NextEvent(s: System, w: Pid): Attempt
    requires CanReserve(s, w)
  {
    var wk := s.workers[w];
    Attempt(|s.folders[wk.job].Events(wk.queue[0])| + 1, Row(s, w).invocations, Row(s, w).stage)
  }

  /** The state after the reservation file is published. */
  function Written(s: System, w: Pid, wk: Worker): System
    requires CanReserve(s, w) && wk.job == s.workers[w].job && wk.queue == s.workers[w].queue
  {
    var f, t := s.folders[wk.job], wk.queue[0];
    WithFolder(WithWorker(s, w, wk), wk.job, f.(attempts := f.attempts[t := f.Events(t) + [NextEvent(s, w)]]))
  }

  lemma ReserveWrites(s: System, w: Pid, wk: Worker)
    requires Inv(s) && CanReserve(s, w) && Row(s, w).state == Running
    requires wk == s.workers[w].(executing := true) || wk == s.workers[w].(phase := Unwinding)
    requires wk.phase == Working ==> Row(s, w).currentTrial == Some(wk.queue[0])
    ensures Inv(Written(s, w, wk))
  {
    hide Shape, Locks, Claims, Scheduling, Capacity, Reservations, Results, Snapshots, Advancing, Coordination;
    hide Handshake, WorkerOk;
    ReservationChain(s, w);
    ReservedWorker(s, w, wk);
    WrittenKeeps(WithWorker(s, w, wk), w, wk.queue[0], NextEvent(s, w));
  }

  /** The row first names the trial, then counts its new file. */
  function NamedRow(s: System, w: Pid): Job
    requires CanReserve(s, w)
  {
    var t := s.workers[w].queue[0];
    Row(s, w).(currentTrial := Some(t), checkpoint := StartStep(s.workers[w], t))
  }

  lemma NamedKeeps(s: System, w: Pid)
    requires Inv(s) && CanReserve(s, w) && Row(s, w).state == Running
    ensures Inv(WithRow(s, s.workers[w].job, NamedRow(s, w)))
  {
    NamedOk(s, w);
    RowUpdate(s, s.workers[w].job, NamedRow(s, w));
  }

  lemma NamedOk(s: System, w: Pid)
    requires Shape(s) && Locks(s) && Advancing(s) && Reservations(s) && CanReserve(s, w) && Row(s, w).state == Running
    ensures RowOk(s, s.workers[w].job, NamedRow(s, w))
  {
    var wk, f := s.workers[w], s.folders[s.workers[w].job];
    assert RowProgress(Row(s, w), f);
    assert WorkerProgress(Row(s, w), wk, f);
  }

  lemma ReserveDurable(s: System, w: Pid)
    requires Inv(s) && CanReserve(s, w) && Row(s, w).state == Running
    requires !Refused(Row(s, w), s.workers[w], s.folders[s.workers[w].job], s.workers[w].queue[0])
    ensures Inv(DoReserve(s, w, true))
  {
    var wk := s.workers[w];
    var named := WithRow(s, wk.job, NamedRow(s, w));
    NamedKeeps(s, w);
    ReserveWrites(named, w, wk.(executing := true));
    CountedKeeps(s, Written(named, w, wk.(executing := true)), w);
    ReserveInSteps(s, w);
  }

  /** A committed reservation is those four changes together. */
  lemma ReserveInSteps(s: System, w: Pid)
    requires CanReserve(s, w) && Row(s, w).state == Running
    requires !Refused(Row(s, w), s.workers[w], s.folders[s.workers[w].job], s.workers[w].queue[0])
    requires CanReserve(WithRow(s, s.workers[w].job, NamedRow(s, w)), w)
    ensures var wk := s.workers[w];
            DoReserve(s, w, true) == WithRow(Written(WithRow(s, wk.job, NamedRow(s, w)), w, wk.(executing := true)),
                                             wk.job, ReservedRow(Row(s, w), wk, wk.queue[0]))
  {
    var wk := s.workers[w];
    var last := ReservedRow(Row(s, w), wk, wk.queue[0]).(changed := s.clock);
    var first := NamedRow(s, w).(changed := s.clock);
    assert s.jobs[wk.job := first][wk.job := last] == s.jobs[wk.job := last];
  }

  lemma CountedKeeps(s: System, written: System, w: Pid)
    requires Inv(s) && CanReserve(s, w) && Row(s, w).state == Running
    requires Inv(written)
    requires written == Written(WithRow(s, s.workers[w].job, NamedRow(s, w)), w, s.workers[w].(executing := true))
    ensures Inv(WithRow(written, s.workers[w].job, ReservedRow(Row(s, w), s.workers[w], s.workers[w].queue[0])))
  {
    var wk := s.workers[w];
    CountedOk(s, written, w);
    RowUpdate(written, wk.job, ReservedRow(Row(s, w), wk, wk.queue[0]));
  }

  lemma CountedOk(s: System, written: System, w: Pid)
    requires Shape(s) && Advancing(s) && CanReserve(s, w) && Row(s, w).state == Running
    requires Shape(written) && Locks(written) && Advancing(written)
    requires written == Written(WithRow(s, s.workers[w].job, NamedRow(s, w)), w, s.workers[w].(executing := true))
    ensures RowOk(written, s.workers[w].job, ReservedRow(Row(s, w), s.workers[w], s.workers[w].queue[0]))
  {
    var wk := s.workers[w];
    var f := s.folders[wk.job];
    assert RowProgress(Row(s, w), f);
    assert WorkerProgress(Row(s, w), wk, f);
    CountOneMore(Row(s, w).plan.trials, f, wk.queue[0], NextEvent(s, w));
    assert WorkerProgress(written.jobs[wk.job], written.workers[w], written.folders[wk.job]);
  }

  lemma ReserveKeeps(s: System, w: Pid, durable: bool)
    requires Inv(s) && CanReserve(s, w)
    ensures Inv(DoReserve(s, w, durable))
  {
    var wk := s.workers[w];
    if Row(s, w).state != Running || Refused(Row(s, w), wk, s.folders[wk.job], wk.queue[0]) {
      PhaseKeeps(s, w, Unwinding);
    } else if durable {
      ReserveDurable(s, w);
    } else {
      ReserveWrites(s, w, wk.(phase := Unwinding));
      assert DoReserve(s, w, false) == Written(s, w, wk.(phase := Unwinding));
    }
  }

  // ---------------------------------------------------------------- native progress

  lemma NativeCommitKeeps(s: System, w: Pid, step: nat)
    requires Inv(s) && CanCommitNative(s, w, step)
    ensures Inv(DoCommitNative(s, w, step))
  {
    NativeCommitOk(s, w, step);
    FolderUpdate(s, s.workers[w].job, DoCommitNative(s, w, step).folders[s.workers[w].job]);
  }

  lemma NativeCommitOk(s: System, w: Pid, step: nat)
    requires Shape(s) && Locks(s) && Reservations(s) && Results(s) && CanCommitNative(s, w, step)
    ensures FolderOk(s, s.workers[w].job, DoCommitNative(s, w, step).folders[s.workers[w].job])
  {
    var j := s.workers[w].job;
    var f' := DoCommitNative(s, w, step).folders[j];
    forall t ensures Chain(s.jobs[j], f'.Events(t)) { assert Chain(s.jobs[j], s.folders[j].Events(t)); }
    forall v, t | v in s.workers && s.workers[v].job == j && Unreserved(s.workers[v], t)
      ensures Before(f'.Events(t), s.workers[v].claimed)
    {
      assert Before(s.folders[j].Events(t), s.workers[v].claimed);
    }
  }

  lemma ReportOk(s: System, w: Pid)
    requires Shape(s) && Locks(s) && Advancing(s) && Reservations(s) && CanReport(s, w) && Row(s, w).state == Running
    ensures var j := s.workers[w].job;
            RowOk(s, j, s.jobs[j].(checkpoint := s.folders[j].Frontier(s.workers[w].queue[0])))
  {
    var j := s.workers[w].job;
    assert RowProgress(s.jobs[j], s.folders[j]);
    assert WorkerProgress(s.jobs[j], s.workers[w], s.folders[j]);
  }

  lemma ReportKeeps(s: System, w: Pid)
    requires Inv(s) && CanReport(s, w)
    ensures Inv(DoReport(s, w))
  {
    if Row(s, w).state == Running { ReportOk(s, w); }
    TransitionKeeps(s, w, Row(s, w).(checkpoint := s.folders[s.workers[w].job].Frontier(s.workers[w].queue[0])));
  }

  lemma NextTrialOk(s: System, w: Pid)
    requires Shape(s) && Claims(s) && Reservations(s) && Snapshots(s) && Advancing(s)
    requires InTransaction(s, w) && |s.workers[w].queue| > 0
    ensures WorkerOk(s, w, NextTrial(s.workers[w]))
  {
    var wk := s.workers[w];
    forall u | Unreserved(NextTrial(wk), u) ensures Unreserved(wk, u) {
      var i :| 0 <= i < |NextTrial(wk).queue| && NextTrial(wk).queue[i] == u;
      assert wk.queue[i + 1] == u;
    }
    assert WorkerProgress(Row(s, w), wk, s.folders[wk.job]);
  }

  /** The row of a worker that executes nothing may change its progress within what is on disk. */
  lemma IdleRowOk(s: System, w: Pid, row: Job)
    requires Shape(s) && Locks(s) && Advancing(s) && Reservations(s) && InTransaction(s, w)
    requires Row(s, w).state == Running && !s.workers[w].executing
    requires row == Row(s, w).(completedTrials := row.completedTrials, currentTrial := None)
    ensures RowOk(s, s.workers[w].job, row)
  {
    assert RowProgress(Row(s, w), s.folders[s.workers[w].job]);
    assert WorkerProgress(Row(s, w), s.workers[w], s.folders[s.workers[w].job]);
  }

  lemma FinishTrialKeeps(s: System, w: Pid)
    requires Inv(s) && CanFinishTrial(s, w)
    ensures Inv(DoFinishTrial(s, w))
  {
    if Row(s, w).state != Running {
      PhaseKeeps(s, w, Unwinding);
    } else {
      var wk := s.workers[w];
      NextTrialOk(s, w);
      WorkerUpdate(s, w, NextTrial(wk));
      FinishedRowKeeps(WithWorker(s, w, NextTrial(wk)), w, TrialDone(Row(s, w), wk));
    }
  }

  lemma FinishedRowKeeps(s: System, w: Pid, row: Job)
    requires Inv(s) && InTransaction(s, w)
    requires Row(s, w).state == Running && !s.workers[w].executing
    requires row == Row(s, w).(completedTrials := row.completedTrials, currentTrial := None)
    ensures Inv(WithRow(s, s.workers[w].job, row))
  {
    IdleRowOk(s, w, row);
    RowUpdate(s, s.workers[w].job, row);
  }

  lemma FinishTuningKeeps(s: System, w: Pid)
    requires Inv(s) && CanFinishTuning(s, w)
    ensures Inv(DoFinishTuning(s, w))
  {
    if Row(s, w).state != Running {
      PhaseKeeps(s, w, Unwinding);
    } else {
      RowUpdate(s, s.workers[w].job, Row(s, w).(state := AwaitingEvaluation));
      PhaseKeeps(WithRow(s, s.workers[w].job, Row(s, w).(state := AwaitingEvaluation)), w, Stopping);
    }
  }

  lemma CompleteFileOk(s: System, j: nat, digest: Digest)
    requires Shape(s) && Reservations(s) && j < |s.jobs| && s.jobs[j].state == Running
    ensures FolderOk(s, j, s.folders[j].(complete := Some(digest)))
  {
    var f' := s.folders[j].(complete := Some(digest));
    forall t ensures Chain(s.jobs[j], f'.Events(t)) { assert Chain(s.jobs[j], s.folders[j].Events(t)); }
    forall v, t | v in s.workers && s.workers[v].job == j && Unreserved(s.workers[v], t)
      ensures Before(f'.Events(t), s.workers[v].claimed)
    {
      assert Before(s.folders[j].Events(t), s.workers[v].claimed);
    }
    hide Chain, Before, Unreserved;
  }

  lemma CompleteFileKeeps(s: System, w: Pid, digest: Digest)
    requires Inv(s) && CanPublish(s, w) && Row(s, w).state == Running
    ensures Inv(WithFolder(s, s.workers[w].job, s.folders[s.workers[w].job].(complete := Some(digest))))
  {
    hide Shape, Locks, Claims, Scheduling, Capacity, Reservations, Results, Snapshots, Advancing, Coordination;
    hide Handshake, FolderOk;
    CompleteFileOk(s, s.workers[w].job, digest);
    FolderUpdate(s, s.workers[w].job, s.folders[s.workers[w].job].(complete := Some(digest)));
  }

  lemma CompletedKeeps(s: System, w: Pid, digest: Digest)
    requires Inv(s) && CanPublish(s, w) && Row(s, w).state == Running
    requires s.folders[s.workers[w].job].complete == Some(digest)
    ensures Inv(WithPhase(WithRow(s, s.workers[w].job, Row(s, w).(state := Completed, digest := Some(digest))), w, Stopping))
  {
    var row := Row(s, w).(state := Completed, digest := Some(digest));
    assert RowProgress(Row(s, w), s.folders[s.workers[w].job]);
    RowUpdate(s, s.workers[w].job, row);
    PhaseKeeps(WithRow(s, s.workers[w].job, row), w, Stopping);
  }

  lemma PublishKeeps(s: System, w: Pid, digest: Digest, durable: bool)
    requires Inv(s) && CanPublish(s, w)
    ensures Inv(DoPublish(s, w, digest, durable))
  {
    var j := s.workers[w].job;
    var f := s.folders[j];
    if Row(s, w).state != Running || (f.complete.Some? && f.complete.value != digest) {
      PhaseKeeps(s, w, Unwinding);
    } else {
      CompleteFileKeeps(s, w, digest);
      var mid := WithFolder(s, j, f.(complete := Some(digest)));
      if durable { CompletedKeeps(mid, w, digest); } else { PhaseKeeps(mid, w, Unwinding); }
    }
  }

  lemma RecordFailureKeeps(s: System, w: Pid, interrupted: bool)
    requires Inv(s) && WorkerCan(s, w, RecordFailure(interrupted))
    ensures Inv(DoRecordFailure(s, w, interrupted))
  {
    hide Inv, RowOk;
    if Row(s, w).state == Running {
      var state := if interrupted then Interrupted else Failed;
      StateKeeps(s, s.workers[w].job, state);
      PhaseKeeps(WithRow(s, s.workers[w].job, Row(s, w).(state := state)), w, Stopping);
    } else {
      PhaseKeeps(s, w, Stopping);
    }
  }

  // ---------------------------------------------------------------- a worker dies

  lemma GoneHeld(s: System, w: Pid)
    requires Shape(s) && WorkerCan(s, w, WorkerGone)
    ensures Held(DoWorkerGone(s, w)) <= Held(s)
  {
    var s' := DoWorkerGone(s, w);
    forall j | j in Held(s') ensures j in Held(s) {
      var v :| v in s'.workers && s'.workers[v].job == j;
      assert v in s.workers && s.workers[v].job == j;
    }
  }

  lemma GoneOwnership(s: System, w: Pid)
    requires Shape(s) && Locks(s) && WorkerCan(s, w, WorkerGone)
    ensures Shape(DoWorkerGone(s, w)) && Locks(DoWorkerGone(s, w))
  {}

  lemma GoneResults(s: System, w: Pid)
    requires Shape(s) && Claims(s) && Results(s) && WorkerCan(s, w, WorkerGone) && Shape(DoWorkerGone(s, w))
    ensures Claims(DoWorkerGone(s, w)) && Results(DoWorkerGone(s, w))
  {}

  lemma GoneScheduling(s: System, w: Pid)
    requires Shape(s) && Locks(s) && Scheduling(s) && WorkerCan(s, w, WorkerGone)
    requires Shape(DoWorkerGone(s, w))
    ensures Scheduling(DoWorkerGone(s, w))
  {
    var s' := DoWorkerGone(s, w);
    GoneHeld(s, w);
    if s.txn.Some? {
      forall j | 0 <= j < |s.jobs| ensures DraftRow(s', s'.txn.value, j) { assert DraftRow(s, s.txn.value, j); }
    }
  }

  lemma GoneRest(s: System, w: Pid)
    requires Shape(s) && Capacity(s) && Reservations(s) && Snapshots(s) && Advancing(s)
    requires Coordination(s) && Handshake(s) && WorkerCan(s, w, WorkerGone) && Shape(DoWorkerGone(s, w))
    ensures Capacity(DoWorkerGone(s, w)) && Reservations(DoWorkerGone(s, w)) && Snapshots(DoWorkerGone(s, w))
    ensures Advancing(DoWorkerGone(s, w)) && Coordination(DoWorkerGone(s, w)) && Handshake(DoWorkerGone(s, w))
  {
    hide Handshake, Capacity, Chain, WorkerProgress, RowProgress;
    GoneCapacity(s, w);
    HandshakeUntouched(s, DoWorkerGone(s, w));
  }

  lemma GoneCapacity(s: System, w: Pid)
    requires Shape(s) && Capacity(s) && WorkerCan(s, w, WorkerGone) && Shape(DoWorkerGone(s, w))
    ensures Capacity(DoWorkerGone(s, w))
  {
    GoneHeld(s, w);
    SumMonotone(Ones(|s.jobs|), Held(DoWorkerGone(s, w)), Held(s));
    SumMonotone(Memories(s.jobs), Held(DoWorkerGone(s, w)), Held(s));
  }

  lemma GoneKeeps(s: System, w: Pid)
    requires Inv(s) && WorkerCan(s, w, WorkerGone)
    ensures Inv(DoWorkerGone(s, w))
  {
    GoneOwnership(s, w);
    GoneResults(s, w);
    GoneScheduling(s, w);
    GoneRest(s, w);
  }

  lemma SyncKeeps(s: System, w: Pid)
    requires Inv(s) && InTransaction(s, w)
    ensures Inv(DoSyncAttempts(s, w))
  {
    hide Locks, Claims, Scheduling, Capacity, Reservations, Results, Snapshots, Coordination, Handshake;
    var row, f := Row(s, w), s.folders[s.workers[w].job];
    assert RowProgress(row, f);
    TransitionKeeps(s, w, row.(attempts := CountEvents(row.plan.trials, f)));
  }

  lemma WorkerKeeps(s: System, w: Pid, k: WorkerStep)
    requires Inv(s) && WorkerCan(s, w, k)
    ensures Inv(WorkerDo(s, w, k))
  {
    hide Inv, DoReadRow, DoPassBarrier, DoSyncAttempts, DoReserve, DoCommitNative, DoReport, DoFinishTrial;
    hide DoFinishTuning, DoPublish, DoRecordFailure, DoWorkerGone, WithPhase;
    match k
    case ReadRow(keep) => ReadKeeps(s, w, keep);
    case PassBarrier(keep) => BarrierKeeps(s, w, keep);
    case SyncAttempts => SyncKeeps(s, w);
    case Reserve(durable) => ReserveKeeps(s, w, durable);
    case NativeCommit(step) => NativeCommitKeeps(s, w, step);
    case ReportProgress => ReportKeeps(s, w);
    case FinishTrial => FinishTrialKeeps(s, w);
    case FinishTuning => FinishTuningKeeps(s, w);
    case Publish(digest, durable) => PublishKeeps(s, w, digest, durable);
    case Stumble => PhaseKeeps(s, w, Unwinding);
    case RecordFailure(interrupted) => RecordFailureKeeps(s, w, interrupted);
    case WorkerGone => GoneKeeps(s, w);
  }
}
