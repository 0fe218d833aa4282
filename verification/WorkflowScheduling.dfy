/** Every step of the scheduling transaction, and every way it can end, keeps the invariant. */
module WorkflowScheduling {
  import opened Basics
  import opened WorkflowModel
  import opened WorkflowInvariant
  import opened WorkflowSteps

  lemma BeginKeeps(s: System, c: Pid)
    requires Inv(s) && CanBegin(s, c)
    ensures Inv(DoBegin(s, c))
  {
    var s' := DoBegin(s, c);
    BeginScheduling(s, c);
    TablesUntouched(s, s');
    HandshakeUntouched(s, s');
    CoordinationUntouched(s, s');
  }

  lemma CoordinationUntouched(s: System, s': System)
    requires Shape(s) && Shape(s') && Coordination(s)
    requires s'.jobs == s.jobs && s'.seen == s.seen && s'.progress == s.progress
    requires s'.supervisor == s.supervisor && s'.coordinators == s.coordinators && s'.clients == s.clients
    ensures Coordination(s')
  {}

  lemma HeldIsBusy(s: System)
    requires Shape(s) && Locks(s)
    ensures Held(s) <= Busy(s)
    ensures s.txn.None? ==> Held(s) == Busy(s)
  {
    forall j | j in Held(s) ensures j in Busy(s) {
      var w :| w in s.workers && s.workers[w].job == j;
      assert w in s.locks[j];
    }
    if s.txn.None? {
      forall j | j in Busy(s) ensures j in Held(s) {
        var w :| w in s.locks[j];
        assert w in s.workers && s.workers[w].job == j;
      }
    }
  }

  /** The probe's list covers every live worker and weighs what they hold. */
  lemma BeginActive(s: System)
    requires Shape(s) && Locks(s) && Capacity(s) && s.txn.None?
    ensures var active := Members(|s.jobs|, Busy(s));
            && Below(active, |s.jobs|) && (forall j :: j in active <==> j in Busy(s))
            && (forall j :: j in Held(s) ==> j in active)
            && |active| <= s.policy.maxRunning && Total(Memories(s.jobs), active) <= s.policy.maxMemory
  {
    var active := Members(|s.jobs|, Busy(s));
    HeldIsBusy(s);
    MembersBelow(|s.jobs|, Busy(s));
    forall j: nat ensures j in active <==> j in Busy(s) { MembersOf(|s.jobs|, Busy(s), j); }
    TotalMembers(Ones(|s.jobs|), Busy(s));
    TotalMembers(Memories(s.jobs), Busy(s));
    TotalOnes(|s.jobs|, active);
  }

  lemma BeginDraft(s: System, s': System)
    requires Shape(s) && Shape(s') && s'.jobs == s.jobs && s'.workers == s.workers
    requires s'.txn.Some? && s'.txn.value.draft == Reconciled(s)
    requires forall j :: j in Busy(s) ==> j in s'.txn.value.active
    ensures forall j :: 0 <= j < |s.jobs| ==> DraftRow(s', s'.txn.value, j)
    ensures forall j :: 0 <= j < |s.jobs| && s.jobs[j].state == Running && s'.txn.value.draft[j].state == Running
              ==> j in s'.txn.value.active
    ensures forall j :: 0 <= j < |s.jobs| && s.jobs[j].state == Queued ==> s'.txn.value.draft[j] == s.jobs[j]
  {}

  lemma BeginScheduling(s: System, c: Pid)
    requires Shape(s) && Locks(s) && Capacity(s) && CanBegin(s, c)
    ensures Shape(DoBegin(s, c)) && Scheduling(DoBegin(s, c))
  {
    var s' := DoBegin(s, c);
    BeginActive(s);
    BeginDraft(s, s');
    assert Held(s') == Held(s);
  }

  // ---------------------------------------------------------------- moving along the loop

  lemma PassOverKeeps(s: System, c: Pid)
    requires Inv(s) && CanPassOver(s, c)
    ensures Inv(CoordinatorDo(s, c, PassOver))
  {
    var s' := CoordinatorDo(s, c, PassOver);
    PassOverScheduling(s, c);
    TablesUntouched(s, s');
    HandshakeUntouched(s, s');
    CoordinationUntouched(s, s');
  }

  lemma DraftUntouched(s: System, t: Txn, s': System, t': Txn)
    requires Shape(s) && Shape(s') && |t.draft| == |s.jobs| && s'.jobs == s.jobs && s'.workers == s.workers
    requires t'.draft == t.draft && forall j :: j in t.active ==> j in t'.active
    requires forall j :: 0 <= j < |s.jobs| ==> DraftRow(s, t, j)
    ensures forall j :: 0 <= j < |s'.jobs| ==> DraftRow(s', t', j)
  {
    forall j | 0 <= j < |s'.jobs| ensures DraftRow(s', t', j) { assert DraftRow(s, t, j); }
  }

  lemma PassOverScheduling(s: System, c: Pid)
    requires Shape(s) && Scheduling(s) && CanPassOver(s, c)
    ensures Shape(CoordinatorDo(s, c, PassOver)) && Scheduling(CoordinatorDo(s, c, PassOver))
  {
    var s' := CoordinatorDo(s, c, PassOver);
    assert Held(s') == Held(s);
    DraftUntouched(s, s.txn.value, s', s'.txn.value);
  }

  lemma AcquireKeeps(s: System, c: Pid)
    requires Inv(s) && CanAcquire(s, c)
    ensures Inv(DoAcquire(s, c))
  {
    var s' := DoAcquire(s, c);
    AcquireScheduling(s, c);
    AcquireOwnership(s, c);
    LocksOnly(s, s');
  }

  /** Nothing else reads the locks of jobs that are not expired. */
  lemma LocksOnly(s: System, s': System)
    requires Shape(s) && Claims(s) && Capacity(s) && Reservations(s) && Snapshots(s)
    requires Advancing(s) && Coordination(s) && Handshake(s)
    requires Shape(s') && s'.policy == s.policy && s'.jobs == s.jobs && s'.folders == s.folders
    requires s'.workers == s.workers && s'.seen == s.seen && s'.progress == s.progress
    requires s'.supervisor == s.supervisor && s'.coordinators == s.coordinators && s'.clients == s.clients
    ensures Claims(s') && Capacity(s') && Reservations(s') && Snapshots(s')
    ensures Advancing(s') && Coordination(s') && Handshake(s')
  {
    hide Claims, Capacity, Reservations, Snapshots, Advancing, Coordination, Handshake;
    RowsUntouched(s, s');
    HandshakeUntouched(s, s');
    CoordinationUntouched(s, s');
  }

  lemma AcquireOwnership(s: System, c: Pid)
    requires Shape(s) && Locks(s) && Results(s) && Scheduling(s) && CanAcquire(s, c)
    ensures Shape(DoAcquire(s, c)) && Locks(DoAcquire(s, c)) && Results(DoAcquire(s, c))
  {}

  lemma AcquireScheduling(s: System, c: Pid)
    requires Shape(s) && Locks(s) && Scheduling(s) && CanAcquire(s, c)
    ensures Shape(DoAcquire(s, c)) && Scheduling(DoAcquire(s, c))
  {
    var s' := DoAcquire(s, c);
    assert Held(s') == Held(s);
    DraftUntouched(s, s.txn.value, s', s'.txn.value);
  }

  lemma ExhaustKeeps(s: System, c: Pid)
    requires Inv(s) && CanExhaust(s, c)
    ensures Inv(DoExhaust(s, c))
  {
    var s' := DoExhaust(s, c);
    ExhaustScheduling(s, c);
    ExhaustOwnership(s, c);
    LocksOnly(s, s');
  }

  lemma ExhaustOwnership(s: System, c: Pid)
    requires Shape(s) && Locks(s) && Results(s) && Scheduling(s) && CanExhaust(s, c)
    ensures Shape(DoExhaust(s, c)) && Locks(DoExhaust(s, c)) && Results(DoExhaust(s, c))
  {}

  lemma ExhaustScheduling(s: System, c: Pid)
    requires Shape(s) && Scheduling(s) && CanExhaust(s, c)
    ensures Shape(DoExhaust(s, c)) && Scheduling(DoExhaust(s, c))
  {
    var s' := DoExhaust(s, c);
    assert Held(s') == Held(s);
    forall j | 0 <= j < |s.jobs| ensures DraftRow(s', s'.txn.value, j) { assert DraftRow(s, s.txn.value, j); }
  }

  lemma ReleaseKeeps(s: System, c: Pid)
    requires Inv(s) && CanRelease(s, c)
    ensures Inv(DoRelease(s, c))
  {
    var s' := DoRelease(s, c);
    ReleaseScheduling(s, c);
    ReleaseOwnership(s, c);
    LocksOnly(s, s');
  }

  lemma ReleaseOwnership(s: System, c: Pid)
    requires Shape(s) && Locks(s) && Results(s) && Scheduling(s) && CanRelease(s, c)
    ensures Shape(DoRelease(s, c)) && Locks(DoRelease(s, c)) && Results(DoRelease(s, c))
  {
    assert c !in s.workers;
    hide Scheduling;
  }

  lemma ReleaseScheduling(s: System, c: Pid)
    requires Shape(s) && Scheduling(s) && CanRelease(s, c)
    ensures Shape(DoRelease(s, c)) && Scheduling(DoRelease(s, c))
  {
    var s' := DoRelease(s, c);
    assert Held(s') == Held(s);
    DraftUntouched(s, s.txn.value, s', s'.txn.value);
  }

  // ---------------------------------------------------------------- spawning inside the transaction

  lemma SpawnHeld(s: System, c: Pid)
    requires Shape(s) && CanSpawn(s, c)
    ensures Held(DoSpawn(s, c)) == Held(s) + {s.txn.value.cursor}
  {
    var s' := DoSpawn(s, c);
    forall j ensures j in Held(s') <==> j in Held(s) + {s.txn.value.cursor} {
      if j in Held(s) {
        var w :| w in s.workers && s.workers[w].job == j;
        assert w in s'.workers && s'.workers[w].job == j;
      }
      if j in Held(s') {
        var w :| w in s'.workers && s'.workers[w].job == j;
        assert w == s.next || (w in s.workers && s.workers[w].job == j);
      }
      assert s'.workers[s.next].job == s.txn.value.cursor;
    }
  }

  lemma SpawnCapacity(s: System, c: Pid)
    requires Shape(s) && Locks(s) && Scheduling(s) && Capacity(s) && CanSpawn(s, c)
    ensures Shape(DoSpawn(s, c)) && Capacity(DoSpawn(s, c))
  {
    var t := s.txn.value;
    var s' := DoSpawn(s, c);
    SpawnHeld(s, c);
    var list := t.active + [t.cursor];
    assert list[..|t.active|] == t.active;
    TotalOnes(|s.jobs|, list);
    TotalCovers(Ones(|s.jobs|), Held(s'), list);
    TotalCovers(Memories(s.jobs), Held(s'), list);
  }

  lemma SpawnLocks(s: System, c: Pid)
    requires Shape(s) && Locks(s) && Scheduling(s) && CanSpawn(s, c) && Shape(DoSpawn(s, c))
    ensures Locks(DoSpawn(s, c))
  {}

  lemma SpawnClaims(s: System, c: Pid)
    requires Shape(s) && Claims(s) && Results(s) && Scheduling(s) && CanSpawn(s, c) && Shape(DoSpawn(s, c))
    ensures Claims(DoSpawn(s, c)) && Results(DoSpawn(s, c))
  {}

  lemma SpawnScheduling(s: System, c: Pid)
    requires Shape(s) && Locks(s) && Scheduling(s) && CanSpawn(s, c) && Shape(DoSpawn(s, c))
    ensures Scheduling(DoSpawn(s, c))
  {
    var t := s.txn.value;
    var s' := DoSpawn(s, c);
    SpawnHeld(s, c);
    assert (t.active + [t.cursor])[..|t.active|] == t.active;
    assert forall w :: w in s.workers ==> s.workers[w].job != t.cursor;
    hide Locks, Held, Claimed;
    forall j | 0 <= j < |s.jobs| ensures DraftRow(s', s'.txn.value, j) { assert DraftRow(s, t, j); }
  }

  lemma SpawnReservations(s: System, c: Pid)
    requires Shape(s) && Locks(s) && Reservations(s) && Scheduling(s) && CanSpawn(s, c) && Shape(DoSpawn(s, c))
    ensures Reservations(DoSpawn(s, c))
  {
    var s' := DoSpawn(s, c);
    var j := s.txn.value.cursor;
    forall t ensures Before(s'.folders[j].Events(t), s'.workers[s.next].claimed) {
      assert Chain(s.jobs[j], s.folders[j].Events(t));
    }
  }

  lemma NewcomerProgress(row: Job, wk: Worker, f: Folder)
    requires wk.phase == Starting
    ensures WorkerProgress(row, wk, f)
  {}

  lemma SpawnProgress(s: System, c: Pid)
    requires Shape(s) && Snapshots(s) && Advancing(s) && CanSpawn(s, c) && Shape(DoSpawn(s, c))
    ensures Snapshots(DoSpawn(s, c)) && Advancing(DoSpawn(s, c))
  {
    hide RowProgress, WorkerProgress;
    var s' := DoSpawn(s, c);
    forall w | w in s'.workers
      ensures WorkerProgress(s'.jobs[s'.workers[w].job], s'.workers[w], s'.folders[s'.workers[w].job])
    {
      if w == s.next {
        NewcomerProgress(s'.jobs[s'.workers[w].job], s'.workers[w], s'.folders[s'.workers[w].job]);
      } else {
        assert WorkerProgress(s.jobs[s.workers[w].job], s.workers[w], s.folders[s.workers[w].job]);
      }
    }
  }

  lemma SpawnRest(s: System, c: Pid)
    requires Shape(s) && Coordination(s) && Handshake(s) && CanSpawn(s, c) && Shape(DoSpawn(s, c))
    ensures Coordination(DoSpawn(s, c)) && Handshake(DoSpawn(s, c))
  {
    hide Coordination, Handshake;
    HandshakeUntouched(s, DoSpawn(s, c));
    CoordinationUntouched(s, DoSpawn(s, c));
  }

  lemma SpawnKeeps(s: System, c: Pid)
    requires Inv(s) && CanSpawn(s, c)
    ensures Inv(DoSpawn(s, c))
  {
    SpawnCapacity(s, c);
    SpawnLocks(s, c);
    SpawnClaims(s, c);
    SpawnScheduling(s, c);
    SpawnReservations(s, c);
    SpawnProgress(s, c);
    SpawnRest(s, c);
  }

  // ---------------------------------------------------------------- commit

  /** A commit publishes the draft and touches no table but the jobs. */
  predicate Publishes(s: System, s': System) {
    && s.txn.Some? && s'.jobs == s.txn.value.draft && |s'.jobs| == |s.jobs| && s'.txn.None?
    && s'.policy == s.policy && s'.folders == s.folders && s'.locks == s.locks && s'.workers == s.workers
  }

  /** What a commit makes of one row. */
  lemma Committed(s: System, c: Pid)
    requires Shape(s) && Scheduling(s) && CanCommit(s, c)
    ensures Shape(DoCommit(s, c)) && Publishes(s, DoCommit(s, c)) && !s.txn.value.holding
    ensures forall j :: 0 <= j < |s.jobs| ==>
              DoCommit(s, c).jobs[j] == s.txn.value.draft[j] && DraftRow(s, s.txn.value, j)
  {}

  lemma CommitLocks(s: System, s': System)
    requires Shape(s) && Locks(s) && Publishes(s, s') && !s.txn.value.holding && Shape(s')
    ensures Locks(s') && Scheduling(s')
  {}

  lemma CommitClaims(s: System, c: Pid)
    requires Shape(s) && Claims(s) && Scheduling(s) && CanCommit(s, c) && Shape(DoCommit(s, c))
    ensures Claims(DoCommit(s, c))
  {
    Committed(s, c);
    hide DoCommit, CanCommit, Scheduling;
  }

  lemma CommitResults(s: System, c: Pid)
    requires Shape(s) && Claims(s) && Results(s) && Snapshots(s) && Scheduling(s) && CanCommit(s, c)
    requires Shape(DoCommit(s, c))
    ensures Results(DoCommit(s, c)) && Snapshots(DoCommit(s, c))
  {
    Committed(s, c);
    hide DoCommit, CanCommit, Scheduling;
  }

  lemma CommitAdvancing(s: System, c: Pid)
    requires Shape(s) && Claims(s) && Advancing(s) && Scheduling(s) && CanCommit(s, c) && Shape(DoCommit(s, c))
    ensures Advancing(DoCommit(s, c))
  {
    Committed(s, c);
    hide DoCommit, CanCommit, Scheduling, WorkerProgress, RowProgress;
    var s' := DoCommit(s, c);
    forall j | 0 <= j < |s'.jobs| ensures RowProgress(s'.jobs[j], s'.folders[j]) {
      assert RowProgress(s.jobs[j], s.folders[j]);
      DraftProgress(s, j);
    }
    forall w | w in s'.workers
      ensures WorkerProgress(s'.jobs[s'.workers[w].job], s'.workers[w], s'.folders[s'.workers[w].job])
    {
      assert WorkerProgress(s.jobs[s.workers[w].job], s.workers[w], s.folders[s.workers[w].job]);
      DraftWorkerProgress(s, w);
    }
  }

  /** The draft of a row keeps its progress. */
  lemma DraftProgress(s: System, j: nat)
    requires Shape(s) && s.txn.Some? && |s.txn.value.draft| == |s.jobs| && j < |s.jobs| && DraftRow(s, s.txn.value, j)
    requires RowProgress(s.jobs[j], s.folders[j])
    ensures RowProgress(s.txn.value.draft[j], s.folders[j])
  {
    hide Shape;
  }

  lemma DraftWorkerProgress(s: System, w: Pid)
    requires Shape(s) && Claims(s) && s.txn.Some? && |s.txn.value.draft| == |s.jobs| && w in s.workers
    requires DraftRow(s, s.txn.value, s.workers[w].job)
    requires WorkerProgress(s.jobs[s.workers[w].job], s.workers[w], s.folders[s.workers[w].job])
    ensures WorkerProgress(s.txn.value.draft[s.workers[w].job], s.workers[w], s.folders[s.workers[w].job])
  {}

  lemma CommitCapacity(s: System, c: Pid)
    requires Shape(s) && Capacity(s) && Scheduling(s) && CanCommit(s, c) && Shape(DoCommit(s, c))
    ensures Capacity(DoCommit(s, c))
  {
    var s' := DoCommit(s, c);
    Committed(s, c);
    hide Scheduling, DoCommit, CanCommit;
    assert Held(s') == Held(s);
    assert Memories(s'.jobs) == Memories(s.jobs);
    assert Outputs(s'.jobs) == Outputs(s.jobs);
    SumMonotone(Ones(|s.jobs|), ActiveJobs(s'.jobs), ActiveJobs(s.jobs));
    assert Retained(s'.jobs, s'.folders) == Retained(s.jobs, s.folders);
  }

  lemma CommitReservations(s: System, c: Pid)
    requires Shape(s) && Reservations(s) && Scheduling(s) && CanCommit(s, c) && Shape(DoCommit(s, c))
    ensures Reservations(DoCommit(s, c))
  {
    var s' := DoCommit(s, c);
    Committed(s, c);
    hide Scheduling, DoCommit, CanCommit;
    forall j, t | 0 <= j < |s'.jobs| ensures Chain(s'.jobs[j], s'.folders[j].Events(t)) {
      assert Chain(s.jobs[j], s.folders[j].Events(t));
    }
  }

  lemma CommitCoordination(s: System, c: Pid)
    requires Shape(s) && Coordination(s) && Scheduling(s) && CanCommit(s, c) && Shape(DoCommit(s, c))
    ensures Coordination(DoCommit(s, c))
  {
    var s' := DoCommit(s, c);
    forall j | 0 <= j < |s.jobs| ensures s'.jobs[j].state == Queued ==> s.jobs[j].state == Queued {
      assert DraftRow(s, s.txn.value, j);
    }
    assert s.txn.value.owner in s.coordinators;
    hide Scheduling, CanCommit;
  }

  lemma CommitHandshake(s: System, c: Pid)
    requires Shape(s) && Handshake(s) && Scheduling(s) && CanCommit(s, c) && Shape(DoCommit(s, c))
    ensures Handshake(DoCommit(s, c))
  {
    var s' := DoCommit(s, c);
    forall p, i | p in s'.clients && i in s'.clients[p].queued ensures Informed(s', s'.clients[p], i) {
      assert Informed(s, s.clients[p], i);
      assert DraftRow(s, s.txn.value, i);
    }
  }

  lemma CommitKeeps(s: System, c: Pid)
    requires Inv(s) && CanCommit(s, c)
    ensures Inv(DoCommit(s, c))
  {
    hide DoCommit, Locks, Claims, Scheduling, Capacity, Reservations, Results, Snapshots, Advancing;
    hide Coordination, Handshake;
    Committed(s, c);
    CommitLocks(s, DoCommit(s, c));
    CommitClaims(s, c);
    CommitResults(s, c);
    CommitAdvancing(s, c);
    CommitCapacity(s, c);
    CommitReservations(s, c);
    CommitCoordination(s, c);
    CommitHandshake(s, c);
  }

  // ---------------------------------------------------------------- rollback and death

  lemma AbortOwnership(s: System, c: Pid)
    requires Shape(s) && Locks(s) && Results(s) && Scheduling(s) && Owns(s, c)
    ensures Shape(DoAbort(s, c)) && Locks(DoAbort(s, c)) && Results(DoAbort(s, c))
  {
    assert c !in s.workers;
    hide Scheduling;
  }

  lemma AbortKeeps(s: System, c: Pid)
    requires Inv(s) && Owns(s, c)
    ensures Inv(DoAbort(s, c))
  {
    AbortOwnership(s, c);
    LocksOnly(s, DoAbort(s, c));
  }

  function Dead(s: System, c: Pid): System {
    s.(supervisor := s.supervisor - {c}, coordinators := s.coordinators[c := Crashed])
  }

  lemma DeadCoordination(s: System, c: Pid)
    requires Shape(s) && Coordination(s) && c in s.coordinators
    ensures Shape(Dead(s, c)) && Coordination(Dead(s, c))
  {}

  lemma DeadKeeps(s: System, c: Pid)
    requires Inv(s) && c in s.coordinators && (s.txn.Some? ==> s.txn.value.owner != c)
    ensures Inv(Dead(s, c))
  {
    DeadCoordination(s, c);
    TablesUntouched(s, Dead(s, c));
    SchedulingUntouched(s, Dead(s, c));
    HandshakeUntouched(s, Dead(s, c));
  }

  lemma CoordinatorGoneKeeps(s: System, c: Pid)
    requires Inv(s) && CoordinatorCan(s, c, CoordinatorGone)
    ensures Inv(DoCoordinatorGone(s, c))
  {
    if s.txn.Some? && s.txn.value.owner == c {
      AbortKeeps(s, c);
      DeadKeeps(DoAbort(s, c), c);
    } else {
      DeadKeeps(s, c);
    }
  }

  lemma CoordinatorKeeps(s: System, c: Pid, m: CoordinatorStep)
    requires Inv(s) && CoordinatorCan(s, c, m)
    ensures Inv(CoordinatorDo(s, c, m))
  {
    hide Inv;
    match m
    case BeginSchedule => BeginKeeps(s, c);
    case PassOver => PassOverKeeps(s, c);
    case Acquire => AcquireKeeps(s, c);
    case Exhaust => ExhaustKeeps(s, c);
    case Spawn => SpawnKeeps(s, c);
    case Release => ReleaseKeeps(s, c);
    case CommitSchedule => CommitKeeps(s, c);
    case AbortSchedule => AbortKeeps(s, c);
    case CoordinatorGone => CoordinatorGoneKeeps(s, c);
  }
}
