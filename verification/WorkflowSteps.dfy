/** Every event of the workflow protocol keeps the invariant. */
module WorkflowSteps {
  import opened Basics
  import opened WorkflowModel
  import opened WorkflowInvariant
  import opened WorkflowFrames

  // ---------------------------------------------------------------- clients

  lemma AdmitKeeps(s: System, plan: Plan)
    requires Inv(s) && CanAdmit(s, plan)
    ensures Inv(DoAdmit(s, plan))
  {
    var s' := DoAdmit(s, plan);
    AdmitCapacity(s, plan);
    AdmitReservations(s, plan);
    AdmitOwnership(s, plan);
    AdmitProgress(s, plan);
    AdmitRest(s, plan);
  }

  lemma AdmitCapacity(s: System, plan: Plan)
    requires Shape(s) && Capacity(s) && CanAdmit(s, plan)
    ensures Shape(DoAdmit(s, plan)) && Capacity(DoAdmit(s, plan))
  {
    var s' := DoAdmit(s, plan);
    var n := |s.jobs|;
    assert Ones(n + 1) == Ones(n) + [1];
    assert Memories(s'.jobs) == Memories(s.jobs) + [plan.memory];
    assert Outputs(s'.jobs) == Outputs(s.jobs) + [plan.output];
    assert n !in Held(s);
    SumAppend(Ones(n), 1, Held(s'));
    SumAppend(Memories(s.jobs), plan.memory, Held(s'));
    SumAppend(Ones(n), 1, ActiveJobs(s'.jobs));
    SumSame(Ones(n), ActiveJobs(s'.jobs), ActiveJobs(s.jobs));
    SumAppend(Outputs(s.jobs), plan.output, Retained(s'.jobs, s'.folders));
    SumSame(Outputs(s.jobs), Retained(s'.jobs, s'.folders), Retained(s.jobs, s.folders));
  }

  lemma AdmitReservations(s: System, plan: Plan)
    requires Shape(s) && Reservations(s) && CanAdmit(s, plan)
    ensures Shape(DoAdmit(s, plan)) && Reservations(DoAdmit(s, plan))
  {
    var s' := DoAdmit(s, plan);
    forall i, t | 0 <= i < |s'.jobs| ensures Chain(s'.jobs[i], s'.folders[i].Events(t)) {
      if i < |s.jobs| { assert Chain(s.jobs[i], s.folders[i].Events(t)); }
    }
  }

  lemma AdmitOwnership(s: System, plan: Plan)
    requires Shape(s) && Locks(s) && Claims(s) && Results(s) && CanAdmit(s, plan) && Shape(DoAdmit(s, plan))
    ensures Locks(DoAdmit(s, plan)) && Claims(DoAdmit(s, plan)) && Results(DoAdmit(s, plan))
  {}

  lemma AdmitProgress(s: System, plan: Plan)
    requires Shape(s) && Snapshots(s) && Advancing(s) && CanAdmit(s, plan) && Shape(DoAdmit(s, plan))
    ensures Snapshots(DoAdmit(s, plan)) && Advancing(DoAdmit(s, plan))
  {
    hide CanAdmit;
  }

  lemma AdmitRest(s: System, plan: Plan)
    requires Shape(s) && Coordination(s) && Handshake(s) && CanAdmit(s, plan) && Shape(DoAdmit(s, plan))
    ensures Coordination(DoAdmit(s, plan)) && Handshake(DoAdmit(s, plan))
  {
    hide CanAdmit;
    var s' := DoAdmit(s, plan);
    forall p, i | p in s'.clients && i in s'.clients[p].queued ensures Informed(s', s'.clients[p], i) {
      assert Informed(s, s.clients[p], i);
    }
  }

  lemma ResumeKeeps(s: System, j: nat)
    requires Inv(s) && CanResume(s, j)
    ensures Inv(DoResume(s, j))
  {
    if s.jobs[j].state in {Interrupted, Failed, Cancelled} {
      assert RowProgress(s.jobs[j], s.folders[j]);
      EnqueueUpdate(s, j, s.jobs[j]);
    }
  }

  lemma EvaluateKeeps(s: System, j: nat, total: nat)
    requires Inv(s) && CanEvaluate(s, j)
    ensures Inv(DoEvaluate(s, j, total))
  {
    if s.jobs[j].state == AwaitingEvaluation && s.jobs[j].stage != Evaluation {
      assert RowProgress(s.jobs[j], s.folders[j]);
      EnqueueUpdate(s, j, s.jobs[j].(stage := Evaluation, completedTrials := 0, totalTrials := total,
                                     checkpoint := 0, currentTrial := None));
    }
  }

  lemma DeleteKeeps(s: System, j: nat)
    requires Inv(s) && ClientCan(s, Delete(j))
    ensures Inv(DoDelete(s, j))
  {
    FolderUpdate(s, j, Folder(false, map[], map[], None));
  }

  lemma RequestCoordination(s: System)
    requires Shape(s) && Coordination(s) && CanRequest(s)
    ensures Shape(DoRequest(s)) && Coordination(DoRequest(s))
  {}

  lemma RequestHandshake(s: System)
    requires Shape(s) && Handshake(s) && CanRequest(s) && Shape(DoRequest(s)) && s.progress.observed <= s.progress.requested
    ensures Handshake(DoRequest(s))
  {
    var s' := DoRequest(s);
    var first :| 0 <= first < |s.jobs| && s.jobs[first].state == Queued;
    assert first in QueuedEpisodes(s);
    forall p, i | p in s'.clients && i in s'.clients[p].queued ensures Informed(s', s'.clients[p], i) {
      if p != s.next { assert Informed(s, s.clients[p], i); }
    }
  }

  lemma RequestKeeps(s: System)
    requires Inv(s) && CanRequest(s)
    ensures Inv(DoRequest(s))
  {
    hide CanRequest;
    RequestCoordination(s);
    RequestHandshake(s);
    TablesUntouched(s, DoRequest(s));
    SchedulingUntouched(s, DoRequest(s));
  }

  lemma StartCoordinatorKeeps(s: System, p: Pid)
    requires Inv(s) && ClientCan(s, StartCoordinator(p))
    ensures Inv(DoStartCoordinator(s, p))
  {
    var s' := DoStartCoordinator(s, p);
    StartCoordination(s, p);
    TablesUntouched(s, s');
    SchedulingUntouched(s, s');
    HandshakeUntouched(s, s');
  }

  lemma StartCoordination(s: System, p: Pid)
    requires Shape(s) && Coordination(s) && ClientCan(s, StartCoordinator(p))
    ensures Shape(DoStartCoordinator(s, p)) && Coordination(DoStartCoordinator(s, p))
  {}

  lemma RowsUntouched(s: System, s': System)
    requires Shape(s) && Claims(s) && Capacity(s) && Reservations(s) && Snapshots(s) && Advancing(s)
    requires Shape(s') && s'.policy == s.policy && s'.jobs == s.jobs && s'.folders == s.folders
    requires s'.workers == s.workers
    ensures Claims(s') && Capacity(s') && Reservations(s') && Snapshots(s') && Advancing(s')
  {
    hide Chain, WorkerProgress, RowProgress, Unreserved, Before, Sum;
    assert Held(s') == Held(s);
  }

  /** Everything but coordination reads only these parts of the state. */
  lemma TablesUntouched(s: System, s': System)
    requires Shape(s) && Locks(s) && Claims(s) && Capacity(s) && Reservations(s) && Results(s) && Snapshots(s)
    requires Advancing(s)
    requires Shape(s') && s'.policy == s.policy && s'.jobs == s.jobs && s'.folders == s.folders
    requires s'.locks == s.locks && s'.workers == s.workers
    requires forall j, p :: Opened(s, j, p) ==> Opened(s', j, p)
    ensures Locks(s') && Claims(s') && Capacity(s') && Reservations(s') && Results(s') && Snapshots(s')
    ensures Advancing(s')
  {
    hide Claims, Capacity, Reservations, Snapshots, Advancing;
    RowsUntouched(s, s');
  }

  /** Scheduling reads nothing but the tables, the locks, the workers and the transaction's owner. */
  lemma SchedulingUntouched(s: System, s': System)
    requires Shape(s) && Shape(s') && Scheduling(s)
    requires s'.policy == s.policy && s'.jobs == s.jobs && s'.locks == s.locks && s'.seen == s.seen
    requires s'.workers == s.workers && s'.txn == s.txn
    requires s.txn.Some? ==>
               s.txn.value.owner in s'.coordinators && s'.coordinators[s.txn.value.owner] == Live
    ensures Scheduling(s')
  {
    assert Held(s') == Held(s);
    if s.txn.Some? {
      forall j | 0 <= j < |s.jobs| ensures DraftRow(s', s'.txn.value, j) { assert DraftRow(s, s.txn.value, j); }
    }
  }

  lemma HandshakeUntouched(s: System, s': System)
    requires Shape(s) && Shape(s') && Handshake(s)
    requires s'.jobs == s.jobs && s'.seen == s.seen && s'.progress == s.progress
    requires forall p :: p in s'.clients ==> p in s.clients && s'.clients[p] == s.clients[p]
    ensures Handshake(s')
  {
    forall p, i | p in s'.clients && i in s'.clients[p].queued ensures Informed(s', s'.clients[p], i) {
      assert Informed(s, s.clients[p], i);
    }
  }

  lemma LeaveCoordination(s: System, clients: map<Pid, Client>, supervisor: set<Pid>)
    requires Shape(s) && Coordination(s)
    requires forall p :: p in clients ==> p in s.clients && clients[p] == s.clients[p]
    requires supervisor <= s.supervisor
    requires forall p :: p in s.supervisor && p !in supervisor ==> p in s.clients
    requires forall p :: p in supervisor && p in s.clients ==> p in clients
    ensures Shape(s.(clients := clients, supervisor := supervisor))
    ensures Coordination(s.(clients := clients, supervisor := supervisor))
  {}

  lemma LeaveKeeps(s: System, clients: map<Pid, Client>, supervisor: set<Pid>)
    requires Inv(s)
    requires forall p :: p in clients ==> p in s.clients && clients[p] == s.clients[p]
    requires supervisor <= s.supervisor
    requires forall p :: p in s.supervisor && p !in supervisor ==> p in s.clients
    requires forall p :: p in supervisor && p in s.clients ==> p in clients
    ensures Inv(s.(clients := clients, supervisor := supervisor))
  {
    var s' := s.(clients := clients, supervisor := supervisor);
    LeaveCoordination(s, clients, supervisor);
    TablesUntouched(s, s');
    SchedulingUntouched(s, s');
    HandshakeUntouched(s, s');
  }

  lemma ParentKeeps(s: System, p: Pid)
    requires Inv(s) && p in s.clients
    ensures Inv(s.(supervisor := s.supervisor - {p}))
    ensures p !in s.supervisor ==> Inv(s.(clients := s.clients - {p}))
    ensures Inv(s.(clients := s.clients - {p}, supervisor := s.supervisor - {p}))
  {
    hide Inv;
    LeaveKeeps(s, s.clients, s.supervisor - {p});
    LeaveKeeps(s, s.clients - {p}, s.supervisor - {p});
    if p !in s.supervisor { assert s.supervisor - {p} == s.supervisor; }
  }

  lemma StateKeeps(s: System, j: nat, state: JobState)
    requires Inv(s) && j < |s.jobs| && s.txn.None? && s.jobs[j].state != Expired
    requires state in {Interrupted, Failed, Cancelled} || (state == Expired && s.locks[j] == {})
    ensures Inv(WithRow(s, j, s.jobs[j].(state := state)))
  {
    assert RowProgress(s.jobs[j], s.folders[j]);
    RowUpdate(s, j, s.jobs[j].(state := state));
  }

  lemma ClientKeeps(s: System, a: ClientStep)
    requires Inv(s) && ClientCan(s, a)
    ensures Inv(ClientDo(s, a))
  {
    hide Inv, DoAdmit, DoResume, DoEvaluate, DoDelete, DoRequest, DoStartCoordinator;
    match a
    case Admit(plan) => AdmitKeeps(s, plan);
    case Status(j) => if s.jobs[j].state == Running { StateKeeps(s, j, Interrupted); }
    case Cancel(j) => if Active(s.jobs[j].state) { StateKeeps(s, j, Cancelled); }
    case Resume(j) => ResumeKeeps(s, j);
    case Evaluate(j, total) => EvaluateKeeps(s, j, total);
    case Expire(j) => StateKeeps(s, j, Expired);
    case Delete(j) => DeleteKeeps(s, j);
    case Request => RequestKeeps(s);
    case StartCoordinator(p) => StartCoordinatorKeeps(s, p);
    case CloseParent(p) => ParentKeeps(s, p);
    case Acknowledged(p) => ParentKeeps(s, p);
    case ClientGone(p) => ParentKeeps(s, p);
  }
}
