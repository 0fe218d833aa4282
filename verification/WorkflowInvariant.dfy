/** What every reachable state of the workflow protocol satisfies, clause by clause. */
module WorkflowInvariant {
  import opened Basics
  import opened WorkflowModel

  /** Tables have one entry per job, and process identities are never reused. */
  ghost predicate Shape(s: System) {
    && |s.folders| == |s.locks| == |s.seen| == |s.jobs|
    && (forall w :: w in s.workers ==> w < s.next && s.workers[w].job < |s.jobs|)
    && (forall c :: c in s.coordinators ==> c < s.next && c !in s.workers && c !in s.clients)
    && (forall p :: p in s.clients ==> p < s.next && p !in s.workers)
    && (forall p :: p in s.supervisor ==> p < s.next)
  }

  ghost predicate Opened(s: System, j: nat, p: Pid) {
    s.txn.Some? && s.txn.value.owner == p && s.txn.value.holding && s.txn.value.cursor == j
  }

  /** A lock is held by the one live worker of its job, or is open in the scheduling transaction. */
  ghost predicate Locks(s: System)
    requires Shape(s)
  {
    && (forall w :: w in s.workers ==> w in s.locks[s.workers[w].job])
    && (forall j, p :: 0 <= j < |s.locks| && p in s.locks[j] ==>
          (p in s.workers && s.workers[p].job == j) || Opened(s, j, p))
    && (forall v, w :: v in s.workers && w in s.workers && s.workers[v].job == s.workers[w].job ==> v == w)
  }

  /** A live worker's claim is the row's invocation, unless the row has not taken the claim. */
  ghost predicate Claims(s: System)
    requires Shape(s)
  {
    forall w :: w in s.workers ==>
      var wk, row := s.workers[w], s.jobs[s.workers[w].job];
      || wk.claimed == row.invocations
      || (wk.claimed == row.invocations + 1 && row.state != Running && wk.phase in {Starting, AtBarrier, Stopping})
  }

  /** What the open transaction may have written for job j. */
  ghost predicate DraftRow(s: System, t: Txn, j: nat)
    requires Shape(s) && |t.draft| == |s.jobs| && j < |s.jobs|
  {
    var row, draft := s.jobs[j], t.draft[j];
    || draft == row
    || (row.state == Running && draft == row.(state := Interrupted, changed := draft.changed))
    || (row.state == Queued && draft == row.(state := Failed, changed := draft.changed))
    || (&& row.state == Queued && row.invocations < row.plan.maxAttempts && j in t.active
        && draft == row.(state := Running, changed := draft.changed, invocations := row.invocations + 1)
        && forall w :: w in s.workers && s.workers[w].job == j ==> s.workers[w].claimed == draft.invocations)
  }

  ghost predicate Scheduling(s: System)
    requires Shape(s)
  {
    s.txn.Some? ==>
      var t := s.txn.value;
      && Owns(s, t.owner)
      && t.owner in s.coordinators && s.coordinators[t.owner] == Live
      && (forall j :: 0 <= j < |s.jobs| ==> DraftRow(s, t, j))
      && (forall j :: 0 <= j < |s.jobs| && s.jobs[j].state == Running && t.draft[j].state == Running ==> j in t.active)
      && (forall j :: t.cursor <= j < |s.jobs| && s.jobs[j].state == Queued && !(t.spawned && j == t.cursor)
            ==> t.draft[j] == s.jobs[j])
      && (t.spawned ==> t.holding)
      && (t.holding ==> t.cursor < |s.jobs| && s.jobs[t.cursor].state == Queued && t.owner in s.locks[t.cursor])
      && (t.holding && !t.spawned ==>
            && Fits(s, t) && s.locks[t.cursor] == {t.owner})
      && (forall j :: j in Held(s) ==> j in t.active)
      && |t.active| <= s.policy.maxRunning
      && Total(Memories(s.jobs), t.active) <= s.policy.maxMemory
  }

  /** The workspace reservations, counting every process that really holds a lock. */
  ghost predicate Capacity(s: System)
    requires Shape(s)
  {
    && |s.jobs| <= s.policy.maxJobs
    && Sum(Ones(|s.jobs|), Held(s)) <= s.policy.maxRunning
    && Sum(Memories(s.jobs), Held(s)) <= s.policy.maxMemory
    && Sum(Ones(|s.jobs|), ActiveJobs(s.jobs)) <= s.policy.maxRunning + s.policy.maxQueued
    && Sum(Outputs(s.jobs), Retained(s.jobs, s.folders)) <= s.policy.maxRetained
  }

  predicate StageFits(plan: Plan, stage: Stage) {
    if plan.isProtected then stage != Descriptive else stage == Descriptive
  }

  /** Reservations are numbered from one, by ever later invocations of the job. */
  ghost predicate Chain(row: Job, events: seq<Attempt>) {
    && (forall i :: 0 <= i < |events| ==>
          && events[i].ordinal == i + 1
          && 1 <= events[i].invocation <= row.invocations
          && StageFits(row.plan, events[i].stage))
    && (forall i, k :: 0 <= i < k < |events| ==> events[i].invocation < events[k].invocation)
  }

  /** The trials a worker may still reserve. */
  ghost predicate Unreserved(wk: Worker, t: TrialId) {
    || wk.phase == Starting || wk.phase == AtBarrier
    || (wk.phase == Working && exists i :: (if wk.executing then 1 else 0) <= i < |wk.queue| && wk.queue[i] == t)
  }

  ghost predicate Before(events: seq<Attempt>, bound: nat) {
    forall i :: 0 <= i < |events| ==> events[i].invocation < bound
  }

  ghost predicate Reservations(s: System)
    requires Shape(s)
  {
    && (forall j, t :: 0 <= j < |s.jobs| ==> Chain(s.jobs[j], s.folders[j].Events(t)))
    && (forall j :: 0 <= j < |s.jobs| ==>
          && s.jobs[j].invocations <= s.jobs[j].plan.maxAttempts
          && StageFits(s.jobs[j].plan, s.jobs[j].stage) && Distinct(s.jobs[j].plan.trials))
    && (forall w, t :: w in s.workers && Unreserved(s.workers[w], t) ==>
          Before(s.folders[s.workers[w].job].Events(t), s.workers[w].claimed))
    && (forall w :: w in s.workers ==>
          && Distinct(s.workers[w].queue) && s.workers[w].claimed >= 1
          && (s.workers[w].executing ==> |s.workers[w].queue| > 0))
  }

  /** Completion always carries the digest of the published report, and expiry has no live worker. */
  ghost predicate Results(s: System)
    requires Shape(s)
  {
    forall j :: 0 <= j < |s.jobs| ==>
      && (s.jobs[j].state == Completed ==> s.jobs[j].digest.Some? && s.folders[j].complete == s.jobs[j].digest)
      && (s.jobs[j].state == Expired ==> s.locks[j] == {})
  }

  /** The row a working worker read when it started still names the stage it works on. */
  ghost predicate Snapshots(s: System)
    requires Shape(s)
  {
    forall w :: w in s.workers && s.workers[w].phase == Working ==>
      && s.workers[w].snapshot.Some?
      && (s.jobs[s.workers[w].job].state == Running ==>
            s.workers[w].snapshot.value.stage == s.jobs[s.workers[w].job].stage)
  }

  /** The row counts no more reservations than there are files, and acknowledges no step of its current
      trial that the native marker has not reached. */
  ghost predicate RowProgress(row: Job, f: Folder) {
    row.state != Expired ==>
      && row.attempts <= CountEvents(row.plan.trials, f)
      && (row.currentTrial.Some? ==> row.checkpoint <= f.Frontier(row.currentTrial.value))
  }

  /** A worker works through the plan's trials and continues none past its marker. */
  ghost predicate WorkerProgress(row: Job, wk: Worker, f: Folder) {
    wk.phase == Working && row.state == Running ==>
      && (wk.executing && |wk.queue| > 0 ==> row.currentTrial == Some(wk.queue[0]))
      && (forall i :: 0 <= i < |wk.queue| ==>
            wk.queue[i] in row.plan.trials && StartStep(wk, wk.queue[i]) <= f.Frontier(wk.queue[i]))
  }

  ghost predicate Advancing(s: System)
    requires Shape(s)
  {
    && (forall j :: 0 <= j < |s.jobs| ==> RowProgress(s.jobs[j], s.folders[j]))
    && (forall w :: w in s.workers ==>
          WorkerProgress(s.jobs[s.workers[w].job], s.workers[w], s.folders[s.workers[w].job]))
  }

  ghost predicate Coordination(s: System)
    requires Shape(s)
  {
    && s.progress.observed <= s.progress.requested <= MAX_GENERATION
    && (forall c :: c in s.coordinators && s.coordinators[c] == Live ==> c in s.supervisor)
    && (forall p :: p in s.supervisor ==> p in s.clients || (p in s.coordinators && s.coordinators[p] == Live))
    && (forall c, d ::
          c in s.coordinators && d in s.coordinators && s.coordinators[c] == Live && s.coordinators[d] == Live
          ==> c == d)
    && (forall j, c :: 0 <= j < |s.seen| && c in s.seen[j].readers ==> c in s.coordinators)
    && (forall j, c :: 0 <= j < |s.jobs| && s.jobs[j].state == Queued && c in s.seen[j].readers ==>
          s.coordinators[c] != Retired)
  }

  /** What the client's generation promises about a job that was queued at its request: once it is
      observed, some coordinator has answered, and every one that answered has read the entry. */
  ghost predicate Informed(s: System, client: Client, j: nat)
    requires Shape(s) && j in client.queued
  {
    && client.generation <= s.progress.requested
    && j < |s.seen| && client.queued[j] <= s.seen[j].episode
    && (s.progress.observed >= client.generation ==> client.answers != {})
    && (s.seen[j].episode == client.queued[j] && s.jobs[j].state == Queued ==> client.answers <= s.seen[j].readers)
  }

  /** Every client had something queued when it made its request, and what it was promised holds. */
  ghost predicate Handshake(s: System)
    requires Shape(s)
  {
    && (forall p :: p in s.clients ==> s.clients[p].queued != map[])
    && (forall p, j :: p in s.clients && j in s.clients[p].queued ==> Informed(s, s.clients[p], j))
  }

  ghost predicate Inv(s: System) {
    && Shape(s) && Locks(s) && Claims(s) && Scheduling(s) && Capacity(s)
    && Reservations(s) && Results(s) && Snapshots(s) && Advancing(s)
    && Coordination(s) && Handshake(s)
  }
}
