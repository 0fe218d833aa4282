/** The coordinator's scheduling pass as the loop it is, refining the protocol's coordinator steps. */
module WorkflowSupervisor {
  import opened Basics
  import opened WorkflowModel
  import opened WorkflowInvariant
  import opened WorkflowSteps
  import opened WorkflowScheduling
  import opened WorkflowTheorems

  lemma {:induction false} RunsOnward(s: System, es: seq<Event>, mid: System, e: Event)
    requires Runs(s, es, mid) && Enabled(mid, e)
    ensures Runs(s, es + [e], Apply(mid, e))
    decreases |es|
  {
    hide Enabled, Apply;
    if es == [] {
      assert Runs(Apply(s, e), [], Apply(s, e));
      assert (es + [e])[1..] == [];
    } else {
      RunsOnward(Apply(s, es[0]), es[1..], mid, e);
      assert (es + [e])[1..] == es[1..] + [e];
    }
  }

  /** Every event of es is a step of coordinator c. */
  predicate OnlyBy(c: Pid, es: seq<Event>) {
    forall i :: 0 <= i < |es| ==> es[i].ByCoordinator? && es[i].coordinator == c
  }

  /** Job j cannot be claimed: its lock is taken, or a cap leaves no room for it. */
  predicate Blocked(s: System, active: seq<nat>, j: nat)
    requires j < |s.jobs| && j < |s.locks| && Below(active, |s.jobs|)
  {
    || s.locks[j] != {}
    || |active| >= s.policy.maxRunning
    || Total(Memories(s.jobs), active) + s.jobs[j].plan.memory > s.policy.maxMemory
  }

  lemma TotalGrows(ws: seq<nat>, list: seq<nat>, j: nat)
    requires Below(list, |ws|) && j < |ws|
    ensures Below(list + [j], |ws|) && Total(ws, list + [j]) == Total(ws, list) + ws[j]
  {
    assert (list + [j])[..|list|] == list;
  }

  /** The open transaction of c between two positions of the loop. */
  ghost predicate Midway(s0: System, s: System, c: Pid, steps: seq<Event>)
  {
    && Inv(s) && OnlyBy(c, steps) && Runs(s0, steps, s)
    && s.txn.Some? && s.txn.value.owner == c && !s.txn.value.holding && Owns(s, c)
    && s.jobs == s0.jobs && s.policy == s0.policy && s.progress == s0.progress
    && |s.locks| == |s0.locks| && s.folders == s0.folders
  }

  /** A worker of job j has been started and has not looked at its row yet. */
  ghost predicate Started(s: System, j: nat) {
    exists w :: w in s.workers && s.workers[w].job == j && s.workers[w].phase == Starting
  }

  /** A job counts as active because its lock was busy at the start of the pass or the pass started it. */
  ghost predicate Backed(s0: System, s: System, j: nat)
    requires s.txn.Some? && j < |s0.jobs| && j < |s0.locks| && j < |s.txn.value.draft|
  {
    s0.locks[j] != {} || (s0.jobs[j].state == Queued && s.txn.value.draft[j].state == Running)
  }

  ghost predicate AllBacked(s0: System, s: System) {
    && s.txn.Some? && |s.txn.value.draft| == |s0.jobs| == |s0.locks| && Below(s.txn.value.active, |s0.jobs|)
    && Distinct(s.txn.value.active)
    && forall k :: 0 <= k < |s.txn.value.active| ==> Backed(s0, s, s.txn.value.active[k])
  }

  /** What the loop has settled for the jobs it has passed. */
  ghost predicate Settled(s: System, j: nat)
    requires s.txn.Some? && Owns(s, s.txn.value.owner) && j < |s.jobs|
  {
    s.jobs[j].state == Queued ==>
      var draft := s.txn.value.draft[j];
      && (draft.state == Queued ==> Blocked(s, s.txn.value.active, j))
      && (draft.state == Running ==> Started(s, j))
      && (draft.state == Failed ==> s.jobs[j].invocations >= s.jobs[j].plan.maxAttempts)
      && draft.state in {Queued, Running, Failed}
  }

  ghost predicate SettledBelow(s: System, n: nat)
    requires s.txn.Some? && Owns(s, s.txn.value.owner) && n <= |s.jobs|
  {
    forall j :: 0 <= j < n ==> Settled(s, j)
  }

  lemma StepOnward(s0: System, s: System, c: Pid, steps: seq<Event>, m: CoordinatorStep)
    requires Inv(s) && OnlyBy(c, steps) && Runs(s0, steps, s) && CoordinatorCan(s, c, m)
    ensures Inv(CoordinatorDo(s, c, m)) && OnlyBy(c, steps + [ByCoordinator(c, m)])
    ensures Runs(s0, steps + [ByCoordinator(c, m)], CoordinatorDo(s, c, m))
  {
    hide Inv;
    CoordinatorKeeps(s, c, m);
    RunsOnward(s0, steps, s, ByCoordinator(c, m));
    assert Apply(s, ByCoordinator(c, m)) == CoordinatorDo(s, c, m);
  }

  /** Passing position j leaves what is settled before it. */
  lemma PassSettles(s: System, c: Pid)
    requires Shape(s) && Scheduling(s) && CanPassOver(s, c) && SettledBelow(s, s.txn.value.cursor)
    ensures var s' := CoordinatorDo(s, c, PassOver); Owns(s', c) && SettledBelow(s', s'.txn.value.cursor)
  {
    var s' := CoordinatorDo(s, c, PassOver);
    var j := s.txn.value.cursor;
    assert s'.workers == s.workers;
    assert DraftRow(s, s.txn.value, j);
    forall i | 0 <= i < s'.txn.value.cursor ensures Settled(s', i) {
      if i < j { assert Settled(s, i); }
    }
  }

  /** A failed claim: the invocation limit is spent. */
  lemma ExhaustSettles(s: System, c: Pid)
    requires Shape(s) && Scheduling(s) && CanExhaust(s, c) && SettledBelow(s, s.txn.value.cursor)
    ensures var s' := DoExhaust(s, c); Owns(s', c) && SettledBelow(s', s'.txn.value.cursor)
  {
    var s' := DoExhaust(s, c);
    assert s'.workers == s.workers;
    forall i | 0 <= i < s'.txn.value.cursor ensures Settled(s', i) {
      if i < s.txn.value.cursor { assert Settled(s, i); }
    }
  }

  lemma AcquireSettles(s: System, c: Pid)
    requires Shape(s) && Scheduling(s) && CanAcquire(s, c) && SettledBelow(s, s.txn.value.cursor)
    ensures var s' := DoAcquire(s, c); Owns(s', c) && SettledBelow(s', s'.txn.value.cursor)
  {
    var s' := DoAcquire(s, c);
    assert s'.workers == s.workers;
    forall i | 0 <= i < s'.txn.value.cursor ensures Settled(s', i) { assert Settled(s, i); }
  }

  lemma SpawnSettles(s: System, c: Pid)
    requires Shape(s) && Scheduling(s) && CanSpawn(s, c) && SettledBelow(s, s.txn.value.cursor)
    ensures var s' := DoSpawn(s, c); Owns(s', c) && SettledBelow(s', s'.txn.value.cursor)
    ensures Settled(DoSpawn(s, c), s.txn.value.cursor)
  {
    var s' := DoSpawn(s, c);
    var t := s.txn.value;
    assert s'.workers[s.next].job == t.cursor && s'.workers[s.next].phase == Starting;
    forall j | Started(s, j) ensures Started(s', j) {
      var w :| w in s.workers && s.workers[w].job == j && s.workers[w].phase == Starting;
      assert s'.workers[w] == s.workers[w];
    }
    TotalGrows(Memories(s.jobs), t.active, t.cursor);
    forall i | 0 <= i < t.cursor ensures Settled(s', i) { assert Settled(s, i); }
  }

  lemma ReleaseSettles(s: System, c: Pid)
    requires Shape(s) && Scheduling(s) && CanRelease(s, c) && SettledBelow(s, s.txn.value.cursor)
    requires Settled(s, s.txn.value.cursor)
    requires s.txn.value.draft[s.txn.value.cursor].state == Running
    ensures var s' := DoRelease(s, c); Owns(s', c) && SettledBelow(s', s'.txn.value.cursor)
  {
    var s' := DoRelease(s, c);
    assert s'.workers == s.workers;
    forall i | 0 <= i < s'.txn.value.cursor ensures Settled(s', i) { assert Settled(s, i); }
  }

  /** Rows that were running keep what reconciliation decided about them. */
  ghost predicate KeepsReconciled(s0: System, s: System) {
    && s.txn.Some? && |s.txn.value.draft| == |s0.jobs|
    && forall j :: 0 <= j < |s0.jobs| && s0.jobs[j].state == Running ==> s.txn.value.draft[j] == Reconciled(s0)[j]
  }

  /** What a finished pass tells about row j. */
  ghost predicate Outcome(s0: System, s: System, active: seq<nat>, j: nat)
    requires j < |s0.jobs| && j < |s0.locks| && j < |s.jobs| && j < |s.locks| && Below(active, |s.jobs|)
  {
    && s.jobs[j].plan == s0.jobs[j].plan
    && (s0.jobs[j].state == Queued ==>
          && (s.jobs[j].state == Queued ==> Blocked(s, active, j))
          && (s.jobs[j].state == Running ==>
                Started(s, j) && s.jobs[j] == s0.jobs[j].(state := Running, changed := s.jobs[j].changed,
                                                          invocations := s0.jobs[j].invocations + 1))
          && (s.jobs[j].state == Failed ==> s0.jobs[j].invocations >= s0.jobs[j].plan.maxAttempts)
          && s.jobs[j].state in {Queued, Running, Failed})
    && (s0.jobs[j].state == Running ==>
          s.jobs[j].state == if s0.locks[j] == {} then Interrupted else Running)
  }

  lemma DraftPlans(s: System, c: Pid)
    requires Shape(s) && Scheduling(s) && CanCommit(s, c)
    ensures |s.txn.value.draft| == |s.jobs| && Memories(s.txn.value.draft) == Memories(s.jobs)
    ensures forall j :: 0 <= j < |s.jobs| ==> s.txn.value.draft[j].plan == s.jobs[j].plan
    ensures forall j :: 0 <= j < |s.jobs| && s.jobs[j].state == Queued && s.txn.value.draft[j].state == Failed ==>
              s.txn.value.draft[j].invocations == s.jobs[j].invocations
    ensures forall j :: 0 <= j < |s.jobs| && s.jobs[j].state == Queued && s.txn.value.draft[j].state == Running ==>
              s.txn.value.draft[j] == s.jobs[j].(state := Running, changed := s.txn.value.draft[j].changed,
                                                 invocations := s.jobs[j].invocations + 1)
  {
    forall j | 0 <= j < |s.jobs|
      ensures s.txn.value.draft[j].plan == s.jobs[j].plan
      ensures s.jobs[j].state == Queued && s.txn.value.draft[j].state == Failed ==>
                s.txn.value.draft[j].invocations == s.jobs[j].invocations
      ensures s.jobs[j].state == Queued && s.txn.value.draft[j].state == Running ==>
                s.txn.value.draft[j] == s.jobs[j].(state := Running, changed := s.txn.value.draft[j].changed,
                                                   invocations := s.jobs[j].invocations + 1)
    {
      assert DraftRow(s, s.txn.value, j);
    }
  }

  lemma CommitOutcome(s0: System, s: System, c: Pid)
    requires Shape(s0) && Shape(s) && Scheduling(s) && CanCommit(s, c) && s.jobs == s0.jobs
    requires |s.locks| == |s0.locks| && SettledBelow(s, |s.jobs|) && KeepsReconciled(s0, s)
    ensures var s' := DoCommit(s, c);
            && |s'.jobs| == |s'.locks| == |s0.jobs| && Below(s.txn.value.active, |s'.jobs|)
            && forall j :: 0 <= j < |s0.jobs| ==> Outcome(s0, s', s.txn.value.active, j)
  {
    DraftPlans(s, c);
    hide Scheduling;
    var s' := DoCommit(s, c);
    assert s'.workers == s.workers;
    forall j | 0 <= j < |s.jobs| ensures Outcome(s0, s', s.txn.value.active, j) { assert Settled(s, j); }
  }

  lemma CommitLife(s: System, c: Pid)
    requires Shape(s) && Scheduling(s) && CanCommit(s, c)
    requires c in s.coordinators && s.coordinators[c] == Live
    ensures Pending(s, s.txn.value) <==> DoCommit(s, c).coordinators[c] == Live
    ensures !Pending(s, s.txn.value) ==>
              ActiveJobs(DoCommit(s, c).jobs) == {} && DoCommit(s, c).workers == map[] && c !in DoCommit(s, c).supervisor
  {
    if !Pending(s, s.txn.value) { IdleCommit(s, c); }
  }

  /** Only the locks of the jobs the pass started have changed hands, and those were free before it. */
  ghost predicate LocksKept(s0: System, s: System) {
    && s.txn.Some? && |s.txn.value.draft| == |s0.jobs| == |s0.locks| == |s.locks|
    && (forall j :: 0 <= j < |s0.locks| && (s0.locks[j] != {} || s.txn.value.draft[j].state != Running) ==>
          s.locks[j] == s0.locks[j])
    && forall j :: 0 <= j < |s0.jobs| && s0.jobs[j].state == Queued && s.txn.value.draft[j].state == Running ==>
         s0.locks[j] == {}
  }

  /** Coordinator c's open transaction between two positions of the loop. */
  ghost predicate Passing(s0: System, s: System, c: Pid, steps: seq<Event>) {
    && Midway(s0, s, c, steps) && Shape(s0)
    && SettledBelow(s, s.txn.value.cursor) && KeepsReconciled(s0, s) && AllBacked(s0, s)
    && LocksKept(s0, s) && c in s.coordinators && s.coordinators[c] == Live
  }

  predicate Between(s: System, c: Pid, cursor: nat, active: seq<nat>) {
    && Owns(s, c) && !s.txn.value.holding && !s.txn.value.spawned
    && s.txn.value.cursor == cursor && s.txn.value.active == active
  }

  lemma MemoryGrows(jobs: seq<Job>, active: seq<nat>, i: nat)
    requires Below(active, |jobs|) && i < |jobs|
    ensures Below(active + [i], |jobs|)
    ensures Total(Memories(jobs), active + [i]) == Total(Memories(jobs), active) + jobs[i].plan.memory
  {
    TotalGrows(Memories(jobs), active, i);
  }

  /** The loop's guards are the protocol's. */
  lemma Guards(s: System, c: Pid, i: nat, active: seq<nat>, memory: nat)
    requires Between(s, c, i, active) && i < |s.jobs| && memory == Total(Memories(s.jobs), active)
    ensures i < |s.locks| && AtCursor(s, c) && s.txn.value.cursor == i && s.txn.value.active == active
    ensures Below(active, |s.jobs|)
    ensures var skip := s.jobs[i].state != Queued || |active| >= s.policy.maxRunning
                        || memory + s.jobs[i].plan.memory > s.policy.maxMemory || s.locks[i] != {};
            (skip <==> CanPassOver(s, c)) && (!skip <==> CanAcquire(s, c))
  {}

  lemma InvShape(s: System)
    requires Inv(s)
    ensures Shape(s) && Scheduling(s)
  {}

  lemma OpeningBacked(s: System, c: Pid)
    requires Shape(s) && CanBegin(s, c)
    ensures AllBacked(s, DoBegin(s, c)) && LocksKept(s, DoBegin(s, c))
  {
    MembersBelow(|s.jobs|, Busy(s));
    MembersOnce(|s.jobs|, Busy(s));
    forall k | 0 <= k < |Members(|s.jobs|, Busy(s))| ensures s.locks[Members(|s.jobs|, Busy(s))[k]] != {} {
      MembersOf(|s.jobs|, Busy(s), Members(|s.jobs|, Busy(s))[k]);
    }
  }

  lemma DraftBacked(s0: System, s: System, s': System, j: nat, row: Job)
    requires AllBacked(s0, s) && j < |s0.jobs| && s'.txn.Some?
    requires s.txn.value.draft[j].state != Running || row.state == Running
    requires s'.txn.value.draft == s.txn.value.draft[j := row]
    requires s'.txn.value.active == s.txn.value.active
             || (s'.txn.value.active == s.txn.value.active + [j] && s0.jobs[j].state == Queued && row.state == Running
                 && s0.locks[j] == {} && s.txn.value.draft[j].state != Running)
    ensures AllBacked(s0, s')
  {
    forall k | 0 <= k < |s'.txn.value.active| ensures Backed(s0, s', s'.txn.value.active[k]) {
      if k < |s.txn.value.active| { assert Backed(s0, s, s.txn.value.active[k]); }
    }
    forall k | 0 <= k < |s.txn.value.active| && s'.txn.value.active != s.txn.value.active
      ensures s.txn.value.active[k] != j
    {
      assert Backed(s0, s, s.txn.value.active[k]);
    }
  }

  /** The cursor's draft is still the queued row when its lock is open and nothing is spawned. */
  lemma CursorQueued(s: System, c: Pid)
    requires Shape(s) && Scheduling(s) && CanAcquire(s, c)
    ensures s.jobs[s.txn.value.cursor].state == Queued && s.txn.value.draft[s.txn.value.cursor].state == Queued
  {}

  lemma PassBacked(s0: System, s: System, c: Pid)
    requires AllBacked(s0, s) && LocksKept(s0, s) && CanPassOver(s, c)
    ensures AllBacked(s0, CoordinatorDo(s, c, PassOver)) && LocksKept(s0, CoordinatorDo(s, c, PassOver))
  {
    var s' := CoordinatorDo(s, c, PassOver);
    forall k | 0 <= k < |s'.txn.value.active| ensures Backed(s0, s', s'.txn.value.active[k]) {
      assert Backed(s0, s, s.txn.value.active[k]);
    }
  }

  lemma ExhaustBacked(s0: System, s: System, c: Pid)
    requires Shape(s) && Scheduling(s) && AllBacked(s0, s) && LocksKept(s0, s) && CanAcquire(s, c) && s.jobs == s0.jobs
    requires AtCursor(DoAcquire(s, c), c)
    ensures AllBacked(s0, DoExhaust(DoAcquire(s, c), c)) && LocksKept(s0, DoExhaust(DoAcquire(s, c), c))
  {
    CursorQueued(s, c);
    hide Scheduling, Shape;
    var j := s.txn.value.cursor;
    DraftBacked(s0, s, DoExhaust(DoAcquire(s, c), c), j, s.jobs[j].(state := Failed, changed := s.clock));
  }

  lemma SpawnBacked(s0: System, s: System, c: Pid)
    requires Shape(s) && Scheduling(s) && AllBacked(s0, s) && LocksKept(s0, s) && CanAcquire(s, c) && s.jobs == s0.jobs
    requires AtCursor(DoAcquire(s, c), c) && AtCursor(DoSpawn(DoAcquire(s, c), c), c)
    ensures AllBacked(s0, DoRelease(DoSpawn(DoAcquire(s, c), c), c))
    ensures LocksKept(s0, DoRelease(DoSpawn(DoAcquire(s, c), c), c))
  {
    CursorQueued(s, c);
    hide Scheduling, Shape;
    DraftBacked(s0, s, DoRelease(DoSpawn(DoAcquire(s, c), c), c), s.txn.value.cursor, Claimed(s, s.txn.value.cursor));
  }

  lemma Opening(s: System, c: Pid)
    requires Inv(s) && CanBegin(s, c)
    ensures Passing(s, DoBegin(s, c), c, [ByCoordinator(c, BeginSchedule)])
    ensures Between(DoBegin(s, c), c, 0, Members(|s.jobs|, Busy(s)))
  {
    hide Locks, Claims, Scheduling, Capacity, Reservations, Results, Snapshots, Advancing, Coordination, Handshake;
    StepOnward(s, s, c, [], BeginSchedule);
    OpeningBacked(s, c);
    assert [] + [ByCoordinator(c, BeginSchedule)] == [ByCoordinator(c, BeginSchedule)];
  }

  lemma PassingOver(s0: System, s: System, c: Pid, steps: seq<Event>)
    requires Passing(s0, s, c, steps) && CanPassOver(s, c) && Between(s, c, s.txn.value.cursor, s.txn.value.active)
    ensures var s' := CoordinatorDo(s, c, PassOver);
            && Passing(s0, s', c, steps + [ByCoordinator(c, PassOver)]) && s'.jobs == s.jobs
            && Between(s', c, s.txn.value.cursor + 1, s.txn.value.active)
  {
    hide Locks, Claims, Scheduling, Capacity, Reservations, Results, Snapshots, Advancing, Coordination, Handshake;
    hide Settled, AllBacked, LocksKept;
    PassSettles(s, c);
    PassBacked(s0, s, c);
    StepOnward(s0, s, c, steps, PassOver);
  }

  lemma PassingExhausted(s0: System, s: System, c: Pid, steps: seq<Event>)
    requires Passing(s0, s, c, steps) && Between(s, c, s.txn.value.cursor, s.txn.value.active)
    requires CanAcquire(s, c) && s.jobs[s.txn.value.cursor].invocations >= s.jobs[s.txn.value.cursor].plan.maxAttempts
    ensures AtCursor(DoAcquire(s, c), c)
    ensures var s' := DoExhaust(DoAcquire(s, c), c);
            && Passing(s0, s', c, steps + [ByCoordinator(c, Acquire)] + [ByCoordinator(c, Exhaust)]) && s'.jobs == s.jobs
            && Between(s', c, s.txn.value.cursor + 1, s.txn.value.active)
  {
    hide Locks, Claims, Scheduling, Capacity, Reservations, Results, Snapshots, Advancing, Coordination, Handshake;
    hide Settled, AllBacked, LocksKept;
    AcquireSettles(s, c);
    StepOnward(s0, s, c, steps, Acquire);
    var t := DoAcquire(s, c);
    ExhaustSettles(t, c);
    StepOnward(s0, t, c, steps + [ByCoordinator(c, Acquire)], Exhaust);
    ExhaustBacked(s0, s, c);
  }

  lemma PassingSpawn(s0: System, s: System, c: Pid, steps: seq<Event>)
    requires Passing(s0, s, c, steps) && Between(s, c, s.txn.value.cursor, s.txn.value.active)
    requires CanAcquire(s, c) && s.jobs[s.txn.value.cursor].invocations < s.jobs[s.txn.value.cursor].plan.maxAttempts
    ensures AtCursor(DoAcquire(s, c), c) && AtCursor(DoSpawn(DoAcquire(s, c), c), c)
    ensures var s' := DoRelease(DoSpawn(DoAcquire(s, c), c), c);
            && Passing(s0, s', c, steps + [ByCoordinator(c, Acquire)] + [ByCoordinator(c, Spawn)]
                                  + [ByCoordinator(c, Release)]) && s'.jobs == s.jobs
            && Between(s', c, s.txn.value.cursor + 1, s.txn.value.active + [s.txn.value.cursor])
  {
    hide Inv, Scheduling, Settled, AllBacked, LocksKept, OnlyBy, Runs;
    InvShape(s);
    AcquireSettles(s, c);
    StepOnward(s0, s, c, steps, Acquire);
    var t := DoAcquire(s, c);
    InvShape(t);
    SpawnSettles(t, c);
    SpawnBacked(s0, s, c);
    StepOnward(s0, t, c, steps + [ByCoordinator(c, Acquire)], Spawn);
    var u := DoSpawn(t, c);
    InvShape(u);
    ReleaseSettles(u, c);
    StepOnward(s0, u, c, steps + [ByCoordinator(c, Acquire)] + [ByCoordinator(c, Spawn)], Release);
  }

  lemma BackedCommit(s0: System, s: System)
    requires AllBacked(s0, s)
    ensures forall j :: j in s.txn.value.active ==>
              s0.locks[j] != {} || (s0.jobs[j].state == Queued && s.txn.value.draft[j].state == Running)
  {
    forall j | j in s.txn.value.active ensures Backed(s0, s, j) {
      var k :| 0 <= k < |s.txn.value.active| && s.txn.value.active[k] == j;
    }
  }

  lemma Closing(s0: System, s: System, c: Pid, steps: seq<Event>)
    requires Passing(s0, s, c, steps) && CanCommit(s, c)
    ensures var s' := DoCommit(s, c);
            && Inv(s') && Runs(s0, steps + [ByCoordinator(c, CommitSchedule)], s')
            && OnlyBy(c, steps + [ByCoordinator(c, CommitSchedule)]) && s'.txn.None?
            && |s0.locks| == |s0.jobs| && |s'.jobs| == |s'.locks| == |s0.jobs| && Below(s.txn.value.active, |s'.jobs|)
            && s'.progress == s0.progress.(observed := s0.progress.requested)
            && (forall j :: 0 <= j < |s0.jobs| ==> Outcome(s0, s', s.txn.value.active, j))
            && s'.folders == s0.folders && s'.policy == s0.policy
            && Distinct(s.txn.value.active)
            && (forall j :: j in s.txn.value.active ==>
                  s0.locks[j] != {} || (s0.jobs[j].state == Queued && s'.jobs[j].state == Running))
            && (forall j :: 0 <= j < |s0.jobs| && s0.jobs[j].state == Queued && s'.jobs[j].state == Running ==>
                  s0.locks[j] == {})
            && (forall j :: 0 <= j < |s0.jobs| && (s0.locks[j] != {} || s'.jobs[j].state != Running) ==>
                  s'.locks[j] == s0.locks[j])
            && c in s'.coordinators && (Pending(s, s.txn.value) <==> s'.coordinators[c] == Live)
            && (!Pending(s, s.txn.value) ==> ActiveJobs(s'.jobs) == {} && s'.workers == map[] && c !in s'.supervisor)
  {
    hide Locks, Claims, Scheduling, Capacity, Reservations, Results, Snapshots, Advancing, Coordination, Handshake;
    hide Settled;
    CommitOutcome(s0, s, c);
    CommitLife(s, c);
    StepOnward(s0, s, c, steps, CommitSchedule);
    BackedCommit(s0, s);
  }

  /** The workspace as its processes share it. */
  class Workspace {
    var world: System

    constructor (policy: Policy, clock: nat, next: Pid)
      ensures Inv(world) && Initial(world) && world.policy == policy
    {
      world := System(policy, clock, next, [], [], [], [], Progress(0, 0), {}, map[], map[], map[], None);
      new;
      assert Held(world) == {};
    }

    /** Probes every lock; a probe that finds it busy counts the job as active. */
    method Probe() returns (busy: seq<nat>)
      requires Shape(world)
      ensures busy == Members(|world.jobs|, Busy(world)) && Below(busy, |world.jobs|)
    {
      busy := [];
      var i := 0;
      while i < |world.jobs|
        invariant 0 <= i <= |world.jobs|
        invariant busy == Members(i, Busy(world))
      {
        if world.locks[i] != {} { busy := busy + [i]; }
        i := i + 1;
      }
      MembersBelow(|world.jobs|, Busy(world));
    }

    /** Records lost ownership for the running rows nobody holds. */
    method Reconcile() returns (draft: seq<Job>)
      requires |world.locks| == |world.jobs|
      ensures draft == Reconciled(world)
    {
      draft := [];
      var i := 0;
      while i < |world.jobs|
        invariant 0 <= i <= |world.jobs| == |world.locks|
        invariant draft == Reconciled(world)[..i]
      {
        draft := draft + [ReconciledRow(world.jobs[i], world.locks[i], world.clock)];
        i := i + 1;
      }
    }

    /** The memory of the jobs counted as active. */
    method ActiveMemory(busy: seq<nat>) returns (memory: nat)
      requires Below(busy, |world.jobs|)
      ensures memory == Total(Memories(world.jobs), busy)
    {
      memory := 0;
      var i := 0;
      while i < |busy|
        invariant 0 <= i <= |busy| && Below(busy[..i], |world.jobs|)
        invariant memory == Total(Memories(world.jobs), busy[..i])
      {
        TotalGrows(Memories(world.jobs), busy[..i], busy[i]);
        assert busy[..i + 1] == busy[..i] + [busy[i]];
        memory := memory + world.jobs[busy[i]].plan.memory;
        i := i + 1;
      }
      assert busy[..|busy|] == busy;
    }

    /** The job is not queued, does not fit, or its lock is busy. */
    method SkipJob(c: Pid, i: nat, ghost active: seq<nat>, ghost s0: System, ghost taken: seq<Event>)
      returns (ghost steps: seq<Event>)
      requires Passing(s0, world, c, taken) && Between(world, c, i, active) && CanPassOver(world, c)
      modifies this
      ensures Passing(s0, world, c, steps) && world.jobs == old(world).jobs && Between(world, c, i + 1, active)
    {
      hide Passing;
      PassingOver(s0, world, c, taken);
      steps := taken + [ByCoordinator(c, PassOver)];
      world := CoordinatorDo(world, c, PassOver);
    }

    /** The invocation limit is spent: the job fails under its lock. */
    method FailJob(c: Pid, i: nat, ghost active: seq<nat>, ghost s0: System, ghost taken: seq<Event>)
      returns (ghost steps: seq<Event>)
      requires Passing(s0, world, c, taken) && Between(world, c, i, active)
      requires CanAcquire(world, c) && i < |world.jobs|
      requires world.jobs[i].invocations >= world.jobs[i].plan.maxAttempts
      modifies this
      ensures Passing(s0, world, c, steps) && world.jobs == old(world).jobs
      ensures Between(world, c, i + 1, active)
    {
      hide Passing, DoAcquire, DoExhaust, CanAcquire;
      PassingExhausted(s0, world, c, taken);
      steps := taken + [ByCoordinator(c, Acquire)] + [ByCoordinator(c, Exhaust)];
      world := DoAcquire(world, c);
      world := DoExhaust(world, c);
    }

    /** Claims the job, spawns its worker under the lock, and lets go of the parent's copy. */
    method StartJob(c: Pid, i: nat, ghost active: seq<nat>, ghost s0: System, ghost taken: seq<Event>)
      returns (ghost steps: seq<Event>)
      requires Passing(s0, world, c, taken) && Between(world, c, i, active)
      requires CanAcquire(world, c) && i < |world.jobs|
      requires world.jobs[i].invocations < world.jobs[i].plan.maxAttempts
      modifies this
      ensures Passing(s0, world, c, steps) && world.jobs == old(world).jobs
      ensures Between(world, c, i + 1, active + [i])
    {
      hide Passing, DoAcquire, DoSpawn, DoRelease, CanAcquire;
      PassingSpawn(s0, world, c, taken);
      steps := taken + [ByCoordinator(c, Acquire)] + [ByCoordinator(c, Spawn)] + [ByCoordinator(c, Release)];
      world := DoAcquire(world, c);
      world := DoSpawn(world, c);
      world := DoRelease(world, c);
    }

    /** The body of the loop for the job at position i. */
    method Consider(c: Pid, i: nat, active: seq<nat>, memory: nat, ghost s0: System, ghost taken: seq<Event>)
      returns (live: seq<nat>, used: nat, ghost steps: seq<Event>)
      requires Passing(s0, world, c, taken) && Between(world, c, i, active) && i < |world.jobs|
      requires memory == Total(Memories(world.jobs), active)
      modifies this
      ensures Passing(s0, world, c, steps) && Between(world, c, i + 1, live) && world.jobs == old(world).jobs
      ensures Below(live, |world.jobs|) && used == Total(Memories(world.jobs), live)
    {
      hide Passing;
      Guards(world, c, i, active, memory);
      hide CanPassOver, CanAcquire, Total, Memories, Below, Between;
      var job := world.jobs[i];
      live, used := active, memory;
      if job.state != Queued || |active| >= world.policy.maxRunning
         || memory + job.plan.memory > world.policy.maxMemory || world.locks[i] != {} {
        steps := SkipJob(c, i, active, s0, taken);
      } else if job.invocations >= job.plan.maxAttempts {
        steps := FailJob(c, i, active, s0, taken);
      } else {
        MemoryGrows(world.jobs, active, i);
        steps := StartJob(c, i, active, s0, taken);
        live, used := active + [i], memory + job.plan.memory;
      }
    }

    /** One scheduling pass of coordinator c while no other process moves. Every job it leaves queued is
        blocked by its lock or by a cap; every job it marks running had a free lock and has a fresh worker;
        only jobs out of invocations fail; no job is counted twice; the pass is pending unless the workspace
        is idle. */
    method Schedule(c: Pid) returns (pending: bool, ghost steps: seq<Event>, ghost active: seq<nat>)
      requires Inv(world) && CanBegin(world, c)
      modifies this
      ensures Inv(world) && OnlyBy(c, steps) && Runs(old(world), steps, world)
      ensures world.txn.None? && |world.jobs| == |world.locks| == |old(world).jobs| && Below(active, |world.jobs|)
      ensures |old(world).locks| == |old(world).jobs|
      ensures world.progress == old(world).progress.(observed := old(world).progress.requested)
      ensures forall j :: 0 <= j < |world.jobs| ==> Outcome(old(world), world, active, j)
      ensures world.folders == old(world).folders && world.policy == old(world).policy
      ensures forall j :: 0 <= j < |world.jobs| && (old(world).locks[j] != {} || world.jobs[j].state != Running) ==>
                world.locks[j] == old(world).locks[j]
      ensures Distinct(active)
      ensures forall j :: 0 <= j < |world.jobs| && old(world).jobs[j].state == Queued && world.jobs[j].state == Running ==>
                old(world).locks[j] == {}
      ensures forall j :: j in active ==>
                old(world).locks[j] != {} || (old(world).jobs[j].state == Queued && world.jobs[j].state == Running)
      ensures c in world.coordinators && (pending <==> world.coordinators[c] == Live)
      ensures !pending ==> ActiveJobs(world.jobs) == {} && world.workers == map[] && c !in world.supervisor
    {
      hide Inv, Locks, Claims, Scheduling, Capacity, Reservations, Results, Snapshots, Advancing, Coordination, Handshake;
      hide Settled, Pending, DoCommit, Passing;
      InvShape(world);
      var busy := Probe();
      var draft := Reconcile();
      var memory := ActiveMemory(busy);
      Opening(world, c);
      var jobs, live, i := world.jobs, busy, 0;
      steps := [ByCoordinator(c, BeginSchedule)];
      world := world.(txn := Some(Txn(c, draft, live, 0, false, false)));
      while i < |jobs|
        invariant 0 <= i <= |jobs| && jobs == old(world).jobs == world.jobs
        invariant Passing(old(world), world, c, steps) && Between(world, c, i, live)
        invariant memory == Total(Memories(jobs), live)
      {
        live, memory, steps := Consider(c, i, live, memory, old(world), steps);
        i := i + 1;
      }
      pending := Pending(world, world.txn.value);
      Closing(old(world), world, c, steps);
      steps := steps + [ByCoordinator(c, CommitSchedule)];
      active := live;
      world := DoCommit(world, c);
    }
  }
}
