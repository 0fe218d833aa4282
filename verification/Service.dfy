/** The in-process job scheduler: admission, reservation, greedy start, expiry and first-terminal-wins. */
module Service {
  import opened Basics

  datatype State = Queued | Running | Completed | Failed | Cancelled | Expired

  /** One job of the session. checked is the clock reading of the deadline test that let an executed job
      complete; imported evidence has none. */
  datatype Job = Job(owner: nat, digest: nat, state: State, memory: nat, output: nat, deadline: nat, admitted: nat,
                     process: bool, finished: Option<nat>, receipt: Option<nat>, checked: Option<nat>)

  datatype Policy = Policy(maxRunning: nat, maxQueued: nat, maxJobs: nat, maxRetained: nat, maxActiveMemory: nat,
                           retention: nat, capMemory: nat, capOutput: nat, capDeadline: nat)

  predicate Terminal(s: State) { s != Queued && s != Running }

  /** The total of a measure over the jobs. */
  function Tally(jobs: seq<Job>, measure: Job -> nat): nat {
    if jobs == [] then 0 else Tally(jobs[..|jobs| - 1], measure) + measure(jobs[|jobs| - 1])
  }

  function Slot(j: Job): nat { OneIf(j.state == Running) }

  function Pending(j: Job): nat { OneIf(j.state == Queued) }

  function ActiveMemory(j: Job): nat { if j.state == Running then j.memory else 0 }

  function Retained(j: Job): nat { if j.state == Expired then 0 else j.output }

  lemma {:induction false} TallyUpdate(jobs: seq<Job>, i: nat, j: Job, measure: Job -> nat)
    requires i < |jobs|
    ensures Tally(jobs[i := j], measure) + measure(jobs[i]) == Tally(jobs, measure) + measure(j)
  {
    var n := |jobs| - 1;
    if i < n {
      TallyUpdate(jobs[..n], i, j, measure);
      assert jobs[i := j][..n] == jobs[..n][i := j];
    } else {
      assert jobs[i := j][..n] == jobs[..n];
    }
  }

  lemma TallyAppend(jobs: seq<Job>, j: Job, measure: Job -> nat)
    ensures Tally(jobs + [j], measure) == Tally(jobs, measure) + measure(j)
  {
    assert (jobs + [j])[..|jobs|] == jobs;
  }

  /** What every job record satisfies. A completed executed job passed its deadline test in time. */
  predicate Consistent(j: Job, p: Policy) {
    && (j.finished.Some? <==> Terminal(j.state))
    && (j.process ==> j.state == Running)
    && (j.state == Completed ==> j.receipt.Some?)
    && (j.state in {Queued, Running} ==> j.memory <= p.maxActiveMemory && j.receipt.None?)
    && (j.checked.Some? ==> j.checked.value < j.admitted + j.deadline)
  }

  /** A job only moves forward: the first terminal state wins, except that retention ends in expiry. What
      completes between two clock readings passed its deadline test, and recorded its finish, between them. */
  predicate Evolves(a: Job, from: nat, b: Job, to: nat) {
    && b.owner == a.owner && b.digest == a.digest && b.memory == a.memory && b.output == a.output
    && b.deadline == a.deadline && b.admitted == a.admitted
    && (a.state == Running ==> b.state != Queued)
    && (Terminal(a.state) ==>
          b == a || (b.state == Expired != a.state && b.checked == a.checked
                     && (a.state == Completed ==> b.receipt == a.receipt)))
    && (!Terminal(a.state) && b.state == Completed ==>
          b.checked.Some? && b.finished.Some? && from <= b.checked.value <= b.finished.value <= to)
  }

  predicate AllEvolve(a: seq<Job>, from: nat, b: seq<Job>, to: nat) {
    && |a| <= |b| && from <= to
    && forall i :: 0 <= i < |a| ==> Evolves(a[i], from, b[i], to)
  }

  lemma EvolvesOnward(a: seq<Job>, from: nat, b: seq<Job>, mid: nat, c: seq<Job>, to: nat)
    requires AllEvolve(a, from, b, mid) && AllEvolve(b, mid, c, to)
    ensures AllEvolve(a, from, c, to) && from <= mid <= to && |a| <= |b| <= |c|
  {
    forall i | 0 <= i < |a| ensures Evolves(a[i], from, c[i], to) {
      assert Evolves(a[i], from, b[i], mid) && Evolves(b[i], mid, c[i], to);
    }
  }

  predicate CanStart(p: Policy, slots: nat, memory: nat, wanted: nat) {
    slots < p.maxRunning && memory + wanted <= p.maxActiveMemory
  }

  /** There is a running slot and active memory for j beside the running jobs. */
  predicate Fits(p: Policy, jobs: seq<Job>, j: Job) { Room(p, jobs, j.memory) }

  predicate Room(p: Policy, jobs: seq<Job>, memory: nat) {
    Tally(jobs, Slot) < p.maxRunning && Tally(jobs, ActiveMemory) + memory <= p.maxActiveMemory
  }

  /** The session has a job and output bytes to give and, for work to be executed, memory, and either a free
      slot or a free place in the queue. */
  predicate Granted(p: Policy, jobs: seq<Job>, memory: nat, output: nat, execution: bool) {
    && |jobs| < p.maxJobs && Tally(jobs, Retained) + output <= p.maxRetained
    && (execution ==> memory <= p.maxActiveMemory && (Room(p, jobs, memory) || Tally(jobs, Pending) < p.maxQueued))
  }

  /** The aggregate reservations. */
  predicate Reserved(p: Policy, jobs: seq<Job>) {
    && Tally(jobs, Slot) <= p.maxRunning && Tally(jobs, ActiveMemory) <= p.maxActiveMemory
    && Tally(jobs, Retained) <= p.maxRetained && |jobs| <= p.maxJobs
  }

  /** No queued job fits beside the running ones. */
  predicate Saturated(p: Policy, jobs: seq<Job>) {
    forall i :: 0 <= i < |jobs| && jobs[i].state == Queued ==> !Fits(p, jobs, jobs[i])
  }

  /** The tallies after one record changes. */
  lemma TallyAll(jobs: seq<Job>, i: nat, j: Job)
    requires i < |jobs|
    ensures Tally(jobs[i := j], Slot) + Slot(jobs[i]) == Tally(jobs, Slot) + Slot(j)
    ensures Tally(jobs[i := j], Pending) + Pending(jobs[i]) == Tally(jobs, Pending) + Pending(j)
    ensures Tally(jobs[i := j], ActiveMemory) + ActiveMemory(jobs[i]) == Tally(jobs, ActiveMemory) + ActiveMemory(j)
    ensures Tally(jobs[i := j], Retained) + Retained(jobs[i]) == Tally(jobs, Retained) + Retained(j)
  {
    TallyUpdate(jobs, i, j, Slot);
    TallyUpdate(jobs, i, j, Pending);
    TallyUpdate(jobs, i, j, ActiveMemory);
    TallyUpdate(jobs, i, j, Retained);
  }

  lemma TallyPush(jobs: seq<Job>, j: Job)
    ensures Tally(jobs + [j], Slot) == Tally(jobs, Slot) + Slot(j)
    ensures Tally(jobs + [j], Pending) == Tally(jobs, Pending) + Pending(j)
    ensures Tally(jobs + [j], ActiveMemory) == Tally(jobs, ActiveMemory) + ActiveMemory(j)
    ensures Tally(jobs + [j], Retained) == Tally(jobs, Retained) + Retained(j)
  {
    TallyAppend(jobs, j, Slot);
    TallyAppend(jobs, j, Pending);
    TallyAppend(jobs, j, ActiveMemory);
    TallyAppend(jobs, j, Retained);
  }

  function InState(jobs: seq<Job>, state: State): set<nat> { set i | 0 <= i < |jobs| && jobs[i].state == state }

  function Unexpired(jobs: seq<Job>): set<nat> { set i | 0 <= i < |jobs| && jobs[i].state != Expired }

  function Memories(jobs: seq<Job>): seq<nat> { seq(|jobs|, i requires 0 <= i < |jobs| => jobs[i].memory) }

  function Outputs(jobs: seq<Job>): seq<nat> { seq(|jobs|, i requires 0 <= i < |jobs| => jobs[i].output) }

  /** The reservations in plain sums: over the running jobs, the queued ones, and those not expired. */
  lemma ReservationsMean(jobs: seq<Job>)
    ensures Tally(jobs, Slot) == Sum(Ones(|jobs|), InState(jobs, Running))
    ensures Tally(jobs, Pending) == Sum(Ones(|jobs|), InState(jobs, Queued))
    ensures Tally(jobs, ActiveMemory) == Sum(Memories(jobs), InState(jobs, Running))
    ensures Tally(jobs, Retained) == Sum(Outputs(jobs), Unexpired(jobs))
  {
    TallyIsSum(jobs, Slot, Ones(|jobs|), InState(jobs, Running));
    TallyIsSum(jobs, Pending, Ones(|jobs|), InState(jobs, Queued));
    TallyIsSum(jobs, ActiveMemory, Memories(jobs), InState(jobs, Running));
    TallyIsSum(jobs, Retained, Outputs(jobs), Unexpired(jobs));
  }

  lemma {:induction false} TallyIsSum(jobs: seq<Job>, measure: Job -> nat, ws: seq<nat>, A: set<nat>)
    requires |ws| == |jobs| && forall i :: 0 <= i < |jobs| ==> measure(jobs[i]) == if i in A then ws[i] else 0
    ensures Tally(jobs, measure) == Sum(ws, A)
  {
    if jobs != [] { TallyIsSum(jobs[..|jobs| - 1], measure, ws[..|jobs| - 1], A); }
  }

  /** The record a finish writes. */
  function Ended(job: Job, state: State, handle: Option<nat>, checked: Option<nat>, t: nat): Job {
    var receipt := if state == Completed then handle else if state == Expired then job.receipt else None;
    job.(state := state, process := false, receipt := receipt, checked := checked, finished := Some(t))
  }

  lemma EndedWell(p: Policy, job: Job, state: State, handle: Option<nat>, checked: Option<nat>, from: nat, t: nat)
    requires Consistent(job, p) && Terminal(state)
    requires Terminal(job.state) ==> job.state != Expired && state == Expired && checked == job.checked
    requires state == Completed ==> handle.Some? && checked.Some? && job.state == Running && from <= checked.value <= t
    requires checked != job.checked ==> checked.Some? && checked.value < job.admitted + job.deadline
    ensures Consistent(Ended(job, state, handle, checked, t), p)
    ensures Evolves(job, from, Ended(job, state, handle, checked, t), t)
  {}

  lemma Reaped(p: Policy, job: Job)
    requires Consistent(job, p) && job.state == Running
    ensures Consistent(job.(process := false), p)
    ensures forall from, to :: from <= to ==> Evolves(job, from, job.(process := false), to)
  {}

  lemma EvolveReflexive(jobs: seq<Job>)
    ensures forall i, from, to :: 0 <= i < |jobs| && from <= to ==> Evolves(jobs[i], from, jobs[i], to)
  {}

  /** A record that reserves no more than before keeps every reservation. */
  lemma Lighter(p: Policy, jobs: seq<Job>, i: nat, j: Job)
    requires i < |jobs| && Reserved(p, jobs) && (jobs[i].state != Running ==> j.state != Running)
    requires j.memory == jobs[i].memory && j.output == jobs[i].output
    requires j.state == jobs[i].state || Terminal(j.state)
    requires jobs[i].state == Expired ==> j.state == Expired
    ensures Reserved(p, jobs[i := j]) && Tally(jobs[i := j], Pending) <= Tally(jobs, Pending)
    ensures jobs[i].state != Running ==>
              Tally(jobs[i := j], Slot) == Tally(jobs, Slot) && Tally(jobs[i := j], ActiveMemory) == Tally(jobs, ActiveMemory)
  {
    hide Tally;
    TallyAll(jobs, i, j);
  }

  /** Nothing but the last job could start. */
  predicate OnlyLastFits(p: Policy, jobs: seq<Job>) {
    && jobs != [] && jobs[|jobs| - 1].state == Queued && Fits(p, jobs, jobs[|jobs| - 1])
    && Saturated(p, jobs[..|jobs| - 1]) && Tally(jobs[..|jobs| - 1], Slot) == Tally(jobs, Slot)
    && Tally(jobs[..|jobs| - 1], ActiveMemory) == Tally(jobs, ActiveMemory)
  }

  lemma OthersWait(p: Policy, jobs: seq<Job>)
    ensures OnlyLastFits(p, jobs) ==>
              forall i :: 0 <= i < |jobs| - 1 && jobs[i].state == Queued ==> !Fits(p, jobs, jobs[i])
  {
    hide Tally;
    if OnlyLastFits(p, jobs) {
      var front := jobs[..|jobs| - 1];
      forall i | 0 <= i < |jobs| - 1 && jobs[i].state == Queued ensures !Fits(p, jobs, jobs[i]) {
        assert front[i] == jobs[i] && !Fits(p, front, front[i]);
      }
    }
  }

  /** A queued record that starts. */
  lemma Started(p: Policy, jobs: seq<Job>, i: nat)
    requires i < |jobs| && Reserved(p, jobs) && Consistent(jobs[i], p)
    requires jobs[i].state == Queued && Fits(p, jobs, jobs[i])
    ensures var j := jobs[i].(state := Running, process := true);
            && Reserved(p, jobs[i := j]) && Consistent(j, p)
            && (forall from, to :: from <= to ==> Evolves(jobs[i], from, j, to))
            && Tally(jobs[i := j], Pending) + 1 == Tally(jobs, Pending)
            && Tally(jobs[i := j], Slot) == Tally(jobs, Slot) + 1
            && Tally(jobs[i := j], ActiveMemory) == Tally(jobs, ActiveMemory) + j.memory
  {
    TallyAll(jobs, i, jobs[i].(state := Running, process := true));
    hide Tally;
  }

  /** The job's deadline has passed at time t. */
  predicate Overdue(job: Job, t: nat) { t - job.admitted >= job.deadline }

  /** Retention of the finished job has run out at time t. */
  predicate Due(job: Job, p: Policy, t: nat) {
    job.finished.Some? && job.state != Expired && t - job.finished.value >= p.retention
  }

  /** A sweep of retention at time t expires the record if it is due and changes nothing else. */
  predicate Swept(a: Job, b: Job, p: Policy, t: nat) {
    if a.finished.Some? && a.state != Expired && t - a.finished.value >= p.retention then b.state == Expired else b == a
  }

  /** Between two tables exactly the jobs due at time t have expired; nothing else has changed. */
  predicate AllSwept(a: seq<Job>, b: seq<Job>, p: Policy, t: nat) {
    |b| == |a| && forall i :: 0 <= i < |a| ==> Swept(a[i], b[i], p, t)
  }

  lemma Waiting(a: seq<Job>, from: nat, b: seq<Job>, to: nat, later: nat)
    requires AllEvolve(a, from, b, to) && to <= later
    ensures AllEvolve(a, from, b, later)
  {
    forall i | 0 <= i < |a| ensures Evolves(a[i], from, b[i], later) { assert Evolves(a[i], from, b[i], to); }
  }

  lemma EvolvesAlways(jobs: seq<Job>, now: nat)
    ensures AllEvolve(jobs, now, jobs, now)
  {
    EvolveReflexive(jobs);
  }

  lemma EvolvesAt(jobs: seq<Job>, i: nat, j: Job, from: nat, to: nat)
    requires i < |jobs| && from <= to && Evolves(jobs[i], from, j, to)
    ensures AllEvolve(jobs, from, jobs[i := j], to)
  {
    EvolveReflexive(jobs);
  }

  /** What a pass makes of a live worker that is not overdue: a stopped one is collected. */
  predicate Polled(was: Job, now: Job, poll: Option<(int, Option<nat>)>, reliable: bool) {
    match poll
    case None => now.state == Running
    case Some((code, bundle)) =>
      if code != 0 || bundle.None? then now.state == Failed
      else if reliable then now.state == Completed && now.receipt == bundle
      else now.state in {Completed, Failed}
  }

  lemma MemoryStays(a: seq<Job>, from: nat, b: seq<Job>, to: nat, i: nat)
    requires AllEvolve(a, from, b, to) && i < |a|
    ensures b[i].memory == a[i].memory
  {
    assert Evolves(a[i], from, b[i], to);
  }

  lemma LiveProcesses(jobs: seq<Job>, p: Policy)
    requires forall i :: 0 <= i < |jobs| ==> Consistent(jobs[i], p)
    ensures forall i :: 0 <= i < |jobs| && jobs[i].process ==> jobs[i].state == Running
  {}

  lemma FirstLive(a: seq<Job>, from: nat, b: seq<Job>, to: nat, i: nat)
    requires AllEvolve(a, from, b, to) && i < |a| && !Terminal(b[i].state)
    ensures !Terminal(a[i].state)
  {
    assert Evolves(a[i], from, b[i], to);
  }

  /** Of the first n jobs that waited, one that now runs while an earlier one still waits needs less memory. */
  predicate Fair(first: seq<Job>, jobs: seq<Job>, n: nat) {
    && n <= |first| == |jobs|
    && forall i, j ::
         0 <= i < j < n && first[i].state == Queued && first[j].state == Queued
         && jobs[i].state == Queued && jobs[j].state == Running
         ==> jobs[j].memory < jobs[i].memory
  }

  lemma FairNext(first: seq<Job>, jobs: seq<Job>, i: nat, j: Job)
    requires Fair(first, jobs, i) && i < |jobs|
    requires first[i].state != Queued || j.state != Running
             || forall k :: 0 <= k < i && jobs[k].state == Queued ==> j.memory < jobs[k].memory
    ensures Fair(first, jobs[i := j], i + 1)
  {}

  lemma FairStart(first: seq<Job>, jobs: seq<Job>)
    requires |first| == |jobs|
    ensures Fair(first, jobs, 0)
  {}

  function Smaller(a: nat, b: nat): nat { if a < b then a else b }

  /** The part of a record that never changes: whose it is, what it asks for, and when it was admitted. */
  predicate SameRequest(a: Job, b: Job) {
    && b.owner == a.owner && b.digest == a.digest && b.memory == a.memory && b.output == a.output
    && b.deadline == a.deadline && b.admitted == a.admitted
  }

  lemma KeepOwners(a: seq<Job>, from: nat, b: seq<Job>, to: nat)
    requires AllEvolve(a, from, b, to)
    ensures forall i :: 0 <= i < |a| ==> SameRequest(a[i], b[i])
  {
    forall i | 0 <= i < |a| ensures SameRequest(a[i], b[i]) {
      assert Evolves(a[i], from, b[i], to);
    }
  }

  /** Admission of one more queued record. */
  lemma NewJob(p: Policy, jobs: seq<Job>, job: Job)
    requires Reserved(p, jobs) && |jobs| < p.maxJobs && Tally(jobs, Retained) + job.output <= p.maxRetained
    requires job.state == Queued && !job.process && job.finished.None? && job.receipt.None? && job.checked.None?
    requires job.memory <= p.maxActiveMemory
    ensures Consistent(job, p)
    ensures Reserved(p, jobs + [job]) && Tally(jobs + [job], Pending) == Tally(jobs, Pending) + 1
    ensures Saturated(p, jobs) && Fits(p, jobs, job) ==> OnlyLastFits(p, jobs + [job])
  {
    hide Tally;
    TallyPush(jobs, job);
    assert (jobs + [job])[..|jobs|] == jobs;
  }

  lemma AppendEvolves(a: seq<Job>, job: Job, from: nat, b: seq<Job>, to: nat)
    requires AllEvolve(a + [job], from, b, to)
    ensures AllEvolve(a, from, b, to) && |b| > |a| && SameRequest(job, b[|a|])
  {
    forall i | 0 <= i < |a| ensures Evolves(a[i], from, b[i], to) { assert Evolves((a + [job])[i], from, b[i], to); }
    assert Evolves((a + [job])[|a|], from, b[|a|], to);
  }

  /** No record enters the queue by evolving. */
  lemma {:induction false} PendingFalls(a: seq<Job>, from: nat, b: seq<Job>, to: nat)
    requires |a| == |b| && AllEvolve(a, from, b, to)
    ensures Tally(b, Pending) <= Tally(a, Pending)
  {
    if a != [] {
      var n := |a| - 1;
      assert Evolves(a[n], from, b[n], to);
      forall i | 0 <= i < n ensures Evolves(a[..n][i], from, b[..n][i], to) { assert Evolves(a[i], from, b[i], to); }
      PendingFalls(a[..n], from, b[..n], to);
    }
  }

  /** The queue bound after one admission: either there was room, or the newcomer started. */
  lemma QueueBound(p: Policy, a: seq<Job>, job: Job, from: nat, b: seq<Job>, to: nat)
    requires |b| == |a| + 1 && AllEvolve(a + [job], from, b, to) && job.state == Queued
    requires Tally(a, Pending) <= p.maxQueued
    requires Tally(a, Pending) < p.maxQueued || b[|a|].state != Queued
    ensures Tally(b, Pending) <= p.maxQueued
  {
    TallyAppend(a, job, Pending);
    TallyAppend(b[..|a|], b[|a|], Pending);
    assert b == b[..|a|] + [b[|a|]];
    forall i | 0 <= i < |a| ensures Evolves(a[i], from, b[..|a|][i], to) {
      assert Evolves((a + [job])[i], from, b[i], to);
    }
    PendingFalls(a, from, b[..|a|], to);
  }

  /** Retention moves no live record. */
  lemma {:induction false} SlotsStay(a: seq<Job>, from: nat, b: seq<Job>, to: nat)
    requires |a| == |b| && AllEvolve(a, from, b, to)
    requires forall i :: 0 <= i < |a| && !Terminal(a[i].state) ==> b[i] == a[i]
    ensures Tally(b, Slot) == Tally(a, Slot)
  {
    if a != [] {
      var n := |a| - 1;
      assert Evolves(a[n], from, b[n], to);
      forall i | 0 <= i < n ensures Evolves(a[..n][i], from, b[..n][i], to) { assert Evolves(a[i], from, b[i], to); }
      SlotsStay(a[..n], from, b[..n], to);
    }
  }

  lemma FinishedIsTerminal(job: Job, p: Policy)
    requires Consistent(job, p)
    ensures job.finished.Some? <==> Terminal(job.state)
  {}

  lemma RunningProcess(jobs: seq<Job>, p: Policy, i: nat)
    requires i < |jobs| && Consistent(jobs[i], p) && jobs[i].process
    ensures jobs[i].state == Running
  {}

  lemma Imported(p: Policy, jobs: seq<Job>, job: Job)
    requires Reserved(p, jobs) && |jobs| < p.maxJobs && Tally(jobs, Retained) + job.output <= p.maxRetained
    requires job.state == Completed && !job.process && job.finished.Some? && job.receipt.Some? && job.checked.None?
    ensures Consistent(job, p) && Reserved(p, jobs + [job])
    ensures Tally(jobs + [job], Pending) == Tally(jobs, Pending) && Tally(jobs + [job], Slot) == Tally(jobs, Slot)
  {
    hide Tally;
    TallyPush(jobs, job);
  }

  /** The table and the clock between two operations of a session. */
  datatype Moment = Moment(jobs: seq<Job>, now: nat)

  /** A session seen between its operations, each of which evolves every job. */
  predicate History(h: seq<Moment>, p: Policy) {
    && (forall k, i :: 0 <= k < |h| && 0 <= i < |h[k].jobs| ==> Consistent(h[k].jobs[i], p))
    && (forall k :: 0 < k < |h| ==> AllEvolve(h[k - 1].jobs, h[k - 1].now, h[k].jobs, h[k].now))
  }

  lemma {:induction false} HistoryEvolves(h: seq<Moment>, p: Policy, m: nat, n: nat)
    requires History(h, p) && m <= n < |h|
    ensures AllEvolve(h[m].jobs, h[m].now, h[n].jobs, h[n].now)
  {
    if m == n {
      EvolvesAlways(h[m].jobs, h[m].now);
    } else {
      HistoryEvolves(h, p, m, n - 1);
      EvolvesOnward(h[m].jobs, h[m].now, h[n - 1].jobs, h[n - 1].now, h[n].jobs, h[n].now);
    }
  }

  /** In any session, a job live at one moment and completed at a later one was tested against its deadline
      in time, at a clock reading between the two. So a job overdue while it is live never completes. */
  lemma CompletedInTime(h: seq<Moment>, p: Policy, m: nat, n: nat, i: nat)
    requires History(h, p) && m <= n < |h| && i < |h[m].jobs| && !Terminal(h[m].jobs[i].state)
    ensures i < |h[n].jobs|
    ensures var was, job := h[m].jobs[i], h[n].jobs[i];
            job.state == Completed ==>
              && job.checked.Some? && h[m].now <= job.checked.value <= h[n].now
              && job.checked.value < was.admitted + was.deadline
              && job.finished.Some? && job.checked.value <= job.finished.value <= h[n].now
    ensures h[m].now - h[m].jobs[i].admitted >= h[m].jobs[i].deadline ==> h[n].jobs[i].state != Completed
  {
    HistoryEvolves(h, p, m, n);
    assert Evolves(h[m].jobs[i], h[m].now, h[n].jobs[i], h[n].now) && Consistent(h[n].jobs[i], p);
  }

  /** In any session the first terminal state wins: later the record is unchanged or has expired, and what
      completed keeps its receipt. */
  lemma FirstTerminalWins(h: seq<Moment>, p: Policy, m: nat, n: nat, i: nat)
    requires History(h, p) && m <= n < |h| && i < |h[m].jobs| && Terminal(h[m].jobs[i].state)
    ensures i < |h[n].jobs|
    ensures h[n].jobs[i] == h[m].jobs[i] || h[n].jobs[i].state == Expired
    ensures h[m].jobs[i].state == Completed ==> h[n].jobs[i].receipt == h[m].jobs[i].receipt && h[n].jobs[i].receipt.Some?
  {
    HistoryEvolves(h, p, m, n);
    assert Evolves(h[m].jobs[i], h[m].now, h[n].jobs[i], h[n].now) && Consistent(h[m].jobs[i], p);
  }

  /** What a completion that is not stopped by an error leaves, when its deadline test reads t and its finish
      is recorded at u. */
  function Completing(job: Job, handle: Option<nat>, t: nat, u: nat): Job {
    if Overdue(job, t) then Ended(job, Expired, handle, job.checked, u)
    else Ended(job, Completed, handle, Some(t), u)
  }

  /** The clock is read again after the deadline test, so the recorded finish of a completed job can lie at or
      past its deadline: exactly when the deadline falls after the first reading and not after the second. */
  lemma LateFinish(job: Job, handle: Option<nat>, t: nat, u: nat)
    requires job.state == Running && t <= u
    ensures var end := Completing(job, handle, t, u);
            end.state == Completed && Overdue(end, end.finished.value) <==> !Overdue(job, t) && Overdue(job, u)
  {}

  /** A run that does so: admitted at 0 with deadline 10, tested at 9, recorded at 10. */
  lemma LateFinishHappens()
    ensures var job := Job(0, 0, Running, 1, 1, 10, 0, true, None, None, None);
            var end := Completing(job, Some(7), 9, 10);
            && (forall p: Policy :: p.maxActiveMemory >= 1 ==> Consistent(job, p) && Consistent(end, p))
            && Evolves(job, 0, end, 10) && end.state == Completed && end.finished == Some(end.admitted + end.deadline)
  {}

  class ApplicationService {
    const policy: Policy
    var jobs: seq<Job>
    /** Which job each caller's request identity is bound to. */
    var requests: map<(nat, nat), nat>
    var closed: bool
    var now: nat
    /** The host starts every process and removes every file it is asked to. */
    const reliable: bool

    ghost predicate Valid()
      reads this
    {
      && Reserved(policy, jobs) && Tally(jobs, Pending) <= policy.maxQueued
      && (forall i :: 0 <= i < |jobs| ==> Consistent(jobs[i], policy))
      && (forall key :: key in requests ==> requests[key] < |jobs| && jobs[requests[key]].owner == key.0)
    }

    /** Everything but the queue bound, which admission exceeds for a moment. */
    ghost predicate Sound()
      reads this
    {
      Reserved(policy, jobs) && forall i :: 0 <= i < |jobs| ==> Consistent(jobs[i], policy)
    }

    constructor (policy: Policy, now: nat, reliable: bool)
      ensures Valid() && this.policy == policy && jobs == [] && !closed && this.reliable == reliable
    {
      this.policy, this.now, this.reliable := policy, now, reliable;
      jobs, requests, closed := [], map[], false;
    }

    method Monotonic() returns (t: nat)
      modifies this`now
      ensures old(now) <= now && t == now
    {
      var elapsed: int := *;
      if elapsed > 0 { now := now + elapsed; }
      t := now;
    }

    /** Reaps the worker, then commits a terminal state. Completion rereads the clock and turns into
        expiry when the deadline has passed; its cleanup can fail, leaving the job running without a process. */
    method Finish(i: nat, state: State, handle: Option<nat>) returns (ok: bool)
      requires Sound() && i < |jobs| && Terminal(state)
      requires state == Completed ==> handle.Some? && jobs[i].state == Running
      requires Terminal(jobs[i].state) ==> state == Expired && jobs[i].state != Expired
      modifies this`jobs, this`now
      ensures Sound() && |jobs| == |old(jobs)| && jobs == old(jobs)[i := jobs[i]] && AllEvolve(old(jobs), old(now), jobs, now)
      ensures state != Completed ==> ok && jobs[i].state == state
      ensures ok ==> jobs[i].state in {state, Expired}
      ensures ok ==> jobs[i].finished == Some(now)
      ensures ok && state == Completed ==>
                exists t: nat :: old(now) <= t <= now && jobs[i] == Completing(old(jobs)[i], handle, t, now)
      ensures ok && state == Completed && jobs[i].state == Completed ==>
                jobs[i].checked.Some? && old(now) <= jobs[i].checked.value <= jobs[i].finished.value <= now
      ensures ok && state == Completed && Overdue(old(jobs)[i], old(now)) ==> jobs[i].state == Expired
      ensures ok && state == Completed && !Overdue(old(jobs)[i], now) ==> jobs[i].state == Completed
      ensures ok && jobs[i].state == Completed ==> jobs[i].receipt == handle
      ensures !ok ==> jobs[i] == old(jobs)[i].(process := false) && !reliable
      ensures Tally(jobs, Pending) <= Tally(old(jobs), Pending)
      ensures old(jobs)[i].state != Running ==>
                Tally(jobs, Slot) == Tally(old(jobs), Slot) && Tally(jobs, ActiveMemory) == Tally(old(jobs), ActiveMemory)
    {
      hide Tally, Reserved, Evolves, Consistent;
      var job := jobs[i];
      ok := true;
      var final, checked := state, job.checked;
      ghost var tested := now;
      if state == Completed {
        var fails: bool := *;
        ok := reliable || !fails;
        if ok {
          var t := Monotonic();
          tested := t;
          if Overdue(job, t) { final := Expired; } else { checked := Some(t); }
        }
      }
      var ended := job.(process := false);
      if ok {
        var t := Monotonic();
        ended := Ended(job, final, handle, checked, t);
        EndedWell(policy, job, final, handle, checked, old(now), t);
        assert state == Completed ==> ended == Completing(job, handle, tested, t);
      } else {
        Reaped(policy, job);
      }
      Lighter(policy, jobs, i, ended);
      EvolveReflexive(jobs);
      jobs := jobs[i := ended];
    }

    /** Ends retention; tombstones stay. */
    method Expire()
      requires Sound()
      modifies this`jobs, this`now
      ensures Sound() && AllEvolve(old(jobs), old(now), jobs, now) && |jobs| == |old(jobs)|
      ensures Tally(jobs, Pending) <= Tally(old(jobs), Pending)
      ensures forall i :: 0 <= i < |jobs| && !Terminal(old(jobs)[i].state) ==> jobs[i] == old(jobs)[i]
      ensures exists t: nat :: old(now) <= t <= now && AllSwept(old(jobs), jobs, policy, t)
    {
      hide Tally, Reserved, Consistent, Evolves;
      EvolveReflexive(jobs);
      var t := Monotonic();
      var i := 0;
      while i < |jobs|
        invariant 0 <= i <= |jobs| == |old(jobs)| && Sound() && AllEvolve(old(jobs), old(now), jobs, now) && t <= now
        invariant Tally(jobs, Pending) <= Tally(old(jobs), Pending)
        invariant forall k :: 0 <= k < |jobs| && !Terminal(old(jobs)[k].state) ==> jobs[k] == old(jobs)[k]
        invariant forall k :: 0 <= k < i ==> Swept(old(jobs)[k], jobs[k], policy, t)
        invariant forall k :: i <= k < |jobs| ==> jobs[k] == old(jobs)[k]
      {
        var job := jobs[i];
        FinishedIsTerminal(job, policy);
        if Due(job, policy, t) {
          ghost var before, mid := jobs, now;
          var ok := Finish(i, Expired, None);
          EvolvesOnward(old(jobs), old(now), before, mid, jobs, now);
        }
        i := i + 1;
      }
      assert AllSwept(old(jobs), jobs, policy, t);
    }

    /** Spawns the worker of a queued job that fits; a job whose spawn fails has failed. */
    method Launch(i: nat) returns (started: bool)
      requires Sound() && i < |jobs| && jobs[i].state == Queued && Fits(policy, jobs, jobs[i])
      modifies this`jobs, this`now
      ensures Sound() && |jobs| == |old(jobs)| && jobs == old(jobs)[i := jobs[i]]
      ensures AllEvolve(old(jobs), old(now), jobs, now)
      ensures jobs[i].state == if started then Running else Failed
      ensures (reliable ==> started) && jobs[i].memory == old(jobs)[i].memory
      ensures Tally(jobs, Pending) <= Tally(old(jobs), Pending)
      ensures Tally(jobs, Slot) == Tally(old(jobs), Slot) + OneIf(started)
      ensures Tally(jobs, ActiveMemory) == Tally(old(jobs), ActiveMemory) + if started then old(jobs)[i].memory else 0
    {
      hide Tally, Reserved, Consistent, Evolves, Fits;
      var job := jobs[i];
      var fails: bool := *;
      started := reliable || !fails;
      if started {
        Started(policy, jobs, i);
        EvolvesAt(jobs, i, job.(state := Running, process := true), now, now);
        jobs := jobs[i := job.(state := Running, process := true)];
      } else {
        var ok := Finish(i, Failed, None);
        MemoryStays(old(jobs), old(now), jobs, now, i);
      }
    }

    /** One job of the scan: a queued job expires if it is overdue, and is launched if it fits. */
    method StartOne(i: nat, slots: nat, memory: nat) returns (running: nat, used: nat)
      requires Sound() && i < |jobs| && slots == Tally(jobs, Slot) && memory == Tally(jobs, ActiveMemory)
      modifies this`jobs, this`now
      ensures Sound() && |jobs| == |old(jobs)| && jobs == old(jobs)[i := jobs[i]]
      ensures AllEvolve(old(jobs), old(now), jobs, now) && old(now) <= now
      ensures running == Tally(jobs, Slot) && used == Tally(jobs, ActiveMemory) && slots <= running && memory <= used
      ensures Tally(jobs, Pending) <= Tally(old(jobs), Pending)
      ensures jobs[i].state != Running || old(jobs)[i].state == Running ==> running == slots && used == memory
      ensures old(jobs)[i].state != Queued ==> jobs[i] == old(jobs)[i]
      ensures old(jobs)[i].state == Queued ==>
                && (jobs[i].state == Expired ==> Overdue(old(jobs)[i], now))
                && (Overdue(old(jobs)[i], old(now)) ==> jobs[i].state == Expired)
                && (reliable ==> jobs[i].state in {Queued, Running, Expired})
                && (jobs[i].state == Queued ==>
                      jobs[i] == old(jobs)[i] && !CanStart(policy, slots, memory, old(jobs)[i].memory))
                && (jobs[i].state == Running ==>
                      CanStart(policy, slots, memory, old(jobs)[i].memory) && jobs[i].memory == old(jobs)[i].memory)
    {
      hide Tally, Reserved, Consistent, Evolves, AllEvolve;
      EvolvesAlways(jobs, now);
      running, used := slots, memory;
      var job := jobs[i];
      if job.state != Queued { return; }
      ghost var before, mid := jobs, now;
      var t := Monotonic();
      Waiting(before, mid, before, mid, now);
      mid := now;
      if Overdue(job, t) {
        var ok := Finish(i, Expired, None);
        EvolvesOnward(before, old(now), before, mid, jobs, now);
      } else if CanStart(policy, slots, memory, job.memory) {
        var started := Launch(i);
        if started { running, used := slots + 1, memory + job.memory; }
        EvolvesOnward(before, old(now), before, mid, jobs, now);
      }
    }

    /** Starts every queued job that fits, in admission order. Afterwards no queued job fits beside the
        running ones, a job overtakes an earlier one only if it needs less memory, and a newcomer that alone
        could start has left the queue. */
    method StartReady()
      requires Sound()
      modifies this`jobs, this`now
      ensures Sound() && AllEvolve(old(jobs), old(now), jobs, now) && |jobs| == |old(jobs)| && Saturated(policy, jobs)
      ensures Tally(jobs, Pending) <= Tally(old(jobs), Pending)
      ensures OnlyLastFits(policy, old(jobs)) ==> jobs[|jobs| - 1].state != Queued
      ensures forall i :: 0 <= i < |jobs| && old(jobs)[i].state != Queued ==> jobs[i] == old(jobs)[i]
      ensures forall i :: 0 <= i < |jobs| && old(jobs)[i].state == Queued ==>
                && (jobs[i].state == Expired ==> now - old(jobs)[i].admitted >= old(jobs)[i].deadline)
                && (old(now) - old(jobs)[i].admitted >= old(jobs)[i].deadline ==> jobs[i].state == Expired)
                && (reliable ==> jobs[i].state in {Queued, Running, Expired})
      ensures Fair(old(jobs), jobs, |jobs|)
    {
      hide Tally, Reserved, Consistent, Evolves, AllEvolve, Fair;
      EvolvesAlways(jobs, now);
      FairStart(jobs, jobs);
      OthersWait(policy, jobs);
      var slots, memory := Tally(jobs, Slot), Tally(jobs, ActiveMemory);
      var i := 0;
      while i < |jobs|
        invariant 0 <= i <= |jobs| == |old(jobs)| && Sound() && AllEvolve(old(jobs), old(now), jobs, now)
        invariant slots == Tally(jobs, Slot) && memory == Tally(jobs, ActiveMemory)
        invariant Tally(jobs, Pending) <= Tally(old(jobs), Pending)
        invariant forall k :: 0 <= k < i && jobs[k].state == Queued ==> !CanStart(policy, slots, memory, jobs[k].memory)
        invariant forall k :: i <= k < |jobs| ==> jobs[k] == old(jobs)[k]
        invariant forall k :: 0 <= k < |jobs| && old(jobs)[k].state != Queued ==> jobs[k] == old(jobs)[k]
        invariant forall k :: 0 <= k < |jobs| && old(jobs)[k].state == Queued && jobs[k].state == Expired ==>
                    Overdue(old(jobs)[k], now)
        invariant forall k :: 0 <= k < i && old(jobs)[k].state == Queued ==>
                    && (Overdue(old(jobs)[k], old(now)) ==> jobs[k].state == Expired)
                    && (reliable ==> jobs[k].state in {Queued, Running, Expired})
        invariant Fair(old(jobs), jobs, i)
        invariant OnlyLastFits(policy, old(jobs)) && i < |jobs| ==>
                    slots == Tally(old(jobs), Slot) && memory == Tally(old(jobs), ActiveMemory)
        invariant OnlyLastFits(policy, old(jobs)) && i == |jobs| ==> jobs[|jobs| - 1].state != Queued
      {
        ghost var before, mid := jobs, now;
        slots, memory := StartOne(i, slots, memory);
        EvolvesOnward(old(jobs), old(now), before, mid, jobs, now);
        FairNext(old(jobs), before, i, jobs[i]);
        i := i + 1;
      }
    }

    /** Whether one more job may be reserved. For work to be executed, ready jobs start first and a full
        queue refuses only a job that could not start at once. */
    method Admission(memory: nat, output: nat, execution: bool) returns (ok: bool)
      requires Valid()
      modifies this`jobs, this`now
      ensures Valid() && AllEvolve(old(jobs), old(now), jobs, now) && |jobs| == |old(jobs)|
      ensures if execution then Saturated(policy, jobs) else jobs == old(jobs)
      ensures ok <==> Granted(policy, jobs, memory, output, execution)
    {
      hide Tally, Consistent;
      EvolveReflexive(jobs);
      if execution { StartReady(); }
      var full := execution && !CanStart(policy, Tally(jobs, Slot), Tally(jobs, ActiveMemory), memory)
                  && Tally(jobs, Pending) >= policy.maxQueued;
      KeepOwners(old(jobs), old(now), jobs, now);
      ok := !(|jobs| >= policy.maxJobs || full || Tally(jobs, Retained) + output > policy.maxRetained
              || (execution && memory > policy.maxActiveMemory));
    }

    /** Admits a command once, with each requested limit cut to the session's cap for it. An identical retry
        finds its job and leaves its limits as they are; a changed one is refused. A new command whose request
        file can be stored is refused only when the session has nothing to grant it. The queue bound holds
        afterwards although a job that can start at once bypasses a full queue. */
    method Submit(subject: nat, request: nat, digest: nat, memory: nat, output: nat, deadline: nat, stored: bool)
      returns (id: Option<nat>)
      requires Valid()
      modifies this
      ensures Valid() && AllEvolve(old(jobs), old(now), jobs, now) && closed == old(closed)
      ensures old(closed) ==> id.None?
      ensures forall i :: 0 <= i < |old(jobs)| ==> SameRequest(old(jobs)[i], jobs[i])
      ensures (subject, request) in old(requests) ==> |jobs| == |old(jobs)| && requests == old(requests)
      ensures (subject, request) in old(requests) && !old(closed) ==>
                (id.Some? <==> old(jobs)[old(requests)[(subject, request)]].digest == digest)
      ensures (subject, request) in old(requests) && id.Some? ==> id.value == old(requests)[(subject, request)]
      ensures (subject, request) !in old(requests) && id.Some? ==>
                && |jobs| == |old(jobs)| + 1 && id.value == |old(jobs)| && Saturated(policy, jobs)
                && requests == old(requests)[(subject, request) := id.value]
                && jobs[id.value].owner == subject && jobs[id.value].digest == digest
                && jobs[id.value].memory == (if memory <= policy.capMemory then memory else policy.capMemory)
                && jobs[id.value].output == (if output <= policy.capOutput then output else policy.capOutput)
                && jobs[id.value].deadline == (if deadline <= policy.capDeadline then deadline else policy.capDeadline)
                && old(now) <= jobs[id.value].admitted <= now
      ensures id.None? ==> |jobs| == |old(jobs)| && requests == old(requests)
      ensures (subject, request) !in old(requests) && id.None? && stored && !old(closed) ==>
                !Granted(policy, jobs, if memory <= policy.capMemory then memory else policy.capMemory,
                         if output <= policy.capOutput then output else policy.capOutput, true)
    {
      hide Tally, Reserved, Saturated, Consistent, Granted;
      EvolveReflexive(jobs);
      if closed { return None; }
      Expire();
      KeepOwners(old(jobs), old(now), jobs, now);
      var key := (subject, request);
      if key in requests {
        id := if jobs[requests[key]].digest == digest then Some(requests[key]) else None;
        return;
      }
      ghost var expired, mid := jobs, now;
      id := Enqueue(subject, digest, Smaller(memory, policy.capMemory), Smaller(output, policy.capOutput),
                    Smaller(deadline, policy.capDeadline), stored);
      EvolvesOnward(old(jobs), old(now), expired, mid, jobs, now);
      KeepOwners(expired, mid, jobs, now);
      if id.Some? { requests := requests[key := id.value]; }
    }

    /** Reserves, publishes and queues one new job, then starts what can start. */
    method Enqueue(subject: nat, digest: nat, memory: nat, output: nat, deadline: nat, stored: bool)
      returns (id: Option<nat>)
      requires Valid()
      modifies this`jobs, this`now
      ensures Sound() && Tally(jobs, Pending) <= policy.maxQueued && AllEvolve(old(jobs), old(now), jobs, now)
      ensures id.None? ==> |jobs| == |old(jobs)| && (stored ==> !Granted(policy, jobs, memory, output, true))
      ensures id.Some? ==>
                && |jobs| == |old(jobs)| + 1 && id.value == |old(jobs)| && Saturated(policy, jobs)
                && jobs[id.value].owner == subject && jobs[id.value].digest == digest
                && jobs[id.value].memory == memory && jobs[id.value].output == output
                && jobs[id.value].deadline == deadline && old(now) <= jobs[id.value].admitted <= now
    {
      hide Tally, Reserved, Saturated, Consistent;
      EvolveReflexive(jobs);
      var ok := Admission(memory, output, true);
      if !ok || !stored { return None; }
      ghost var admitted, mid := jobs, now;
      var t := Monotonic();
      var job := Job(subject, digest, Queued, memory, output, deadline, t, false, None, None, None);
      NewJob(policy, jobs, job);
      jobs := jobs + [job];
      StartReady();
      AppendEvolves(admitted, job, t, jobs, now);
      EvolvesOnward(old(jobs), old(now), admitted, mid, jobs, now);
      QueueBound(policy, admitted, job, t, jobs, now);
      id := Some(|jobs| - 1);
    }

    /** Cancels live work; a terminal job keeps the state that won. */
    method Cancel(i: nat)
      requires Valid() && i < |jobs|
      modifies this`jobs, this`now
      ensures Valid() && AllEvolve(old(jobs), old(now), jobs, now) && |jobs| == |old(jobs)|
      ensures old(closed) ==> jobs == old(jobs)
      ensures !old(closed) ==> Terminal(jobs[i].state)
      ensures !old(closed) && !Terminal(old(jobs)[i].state) ==> jobs[i].state == Cancelled
    {
      hide Tally, Reserved, Consistent;
      EvolveReflexive(jobs);
      if closed { return; }
      Expire();
      ghost var expired, mid := jobs, now;
      if !Terminal(jobs[i].state) {
        var ok := Finish(i, Cancelled, None);
        EvolvesOnward(old(jobs), old(now), expired, mid, jobs, now);
      } else {
        assert Evolves(old(jobs)[i], old(now), jobs[i], now);
      }
      KeepOwners(old(jobs), old(now), jobs, now);
    }

    /** A stopped worker: a bad exit or an unusable bundle fails the job, a late one expires it, and a
        receipt is issued only after a second look at the clock. */
    method Collect(i: nat, code: int, bundle: Option<nat>)
      requires Sound() && i < |jobs| && jobs[i].state == Running
      modifies this`jobs, this`now
      ensures Sound() && AllEvolve(old(jobs), old(now), jobs, now) && |jobs| == |old(jobs)|
      ensures Tally(jobs, Pending) <= Tally(old(jobs), Pending)
      ensures jobs[i].state in {Failed, Expired, Completed} && (code != 0 || bundle.None? ==> jobs[i].state == Failed)
      ensures code == 0 && bundle.Some? && Overdue(old(jobs)[i], old(now)) ==> jobs[i].state == Expired
      ensures jobs[i].state == Expired ==> Overdue(old(jobs)[i], now)
      ensures reliable && code == 0 && bundle.Some? && !Overdue(old(jobs)[i], now) ==> jobs[i].state == Completed
      ensures jobs[i].state == Completed ==> code == 0 && jobs[i].receipt == bundle
      ensures forall k :: 0 <= k < |jobs| && k != i ==> jobs[k] == old(jobs)[k]
    {
      hide Tally, Reserved;
      var job := jobs[i];
      if code != 0 || bundle.None? {
        var ok := Finish(i, Failed, None);
        return;
      }
      var t := Monotonic();
      if Overdue(job, t) {
        var ok := Finish(i, Expired, None);
        return;
      }
      var ok := Finish(i, Completed, bundle);
      if !ok {
        ghost var before, mid := jobs, now;
        ok := Finish(i, Failed, None);
        EvolvesOnward(old(jobs), old(now), before, mid, jobs, now);
      }
    }

    /** One supervisor pass: retention, deadlines, finished workers, then ready jobs. polls gives what polling
        each job's process would find: still running, or an exit code with its bundle, if usable. Every live
        job overdue when the pass starts expires in it; a live job expires only if it is overdue when the pass
        ends; and every stopped worker is collected, a usable bundle in time as a completion. */
    method Advance(polls: nat -> Option<(int, Option<nat>)>)
      requires Valid()
      modifies this`jobs, this`now
      ensures Valid() && AllEvolve(old(jobs), old(now), jobs, now) && |jobs| == |old(jobs)| && Saturated(policy, jobs)
      ensures forall i :: 0 <= i < |jobs| && !Terminal(old(jobs)[i].state) ==>
                && (old(now) - old(jobs)[i].admitted >= old(jobs)[i].deadline ==> jobs[i].state == Expired)
                && (jobs[i].state == Expired ==> now - old(jobs)[i].admitted >= old(jobs)[i].deadline)
      ensures forall i :: 0 <= i < |jobs| && old(jobs)[i].process && !Overdue(old(jobs)[i], now) ==>
                Polled(old(jobs)[i], jobs[i], polls(i), reliable)
    {
      hide Tally, Reserved, Saturated, Consistent;
      LiveProcesses(jobs, policy);
      Expire();
      var i := 0;
      while i < |jobs|
        invariant 0 <= i <= |jobs| == |old(jobs)| && Sound() && AllEvolve(old(jobs), old(now), jobs, now)
        invariant Tally(jobs, Pending) <= Tally(old(jobs), Pending)
        invariant forall k :: i <= k < |jobs| && !Terminal(old(jobs)[k].state) ==> jobs[k] == old(jobs)[k]
        invariant forall k :: 0 <= k < i && !Terminal(old(jobs)[k].state) ==>
                    && (Overdue(old(jobs)[k], old(now)) ==> jobs[k].state == Expired)
                    && (jobs[k].state == Expired ==> Overdue(old(jobs)[k], now))
        invariant forall k :: 0 <= k < i && old(jobs)[k].process && !Overdue(old(jobs)[k], now) ==>
                    Polled(old(jobs)[k], jobs[k], polls(k), reliable)
      {
        Observe(i, polls(i), old(jobs), old(now));
        i := i + 1;
      }
      ghost var polled, mid := jobs, now;
      StartReady();
      EvolvesOnward(old(jobs), old(now), polled, mid, jobs, now);
      KeepOwners(old(jobs), old(now), jobs, now);
    }

    /** One job of the pass. */
    method Observe(i: nat, poll: Option<(int, Option<nat>)>, ghost first: seq<Job>, ghost from: nat)
      requires Sound() && i < |jobs| == |first| && AllEvolve(first, from, jobs, now)
      requires !Terminal(first[i].state) ==> jobs[i] == first[i]
      modifies this`jobs, this`now
      ensures Sound() && |jobs| == |first| && AllEvolve(first, from, jobs, now) && old(now) <= now
      ensures Tally(jobs, Pending) <= Tally(old(jobs), Pending)
      ensures forall k :: 0 <= k < |jobs| && k != i ==> jobs[k] == old(jobs)[k]
      ensures !Terminal(first[i].state) ==>
                && (Overdue(first[i], old(now)) ==> jobs[i].state == Expired)
                && (jobs[i].state == Expired ==> Overdue(first[i], now))
      ensures !Terminal(first[i].state) && first[i].process && !Overdue(first[i], now) ==>
                Polled(first[i], jobs[i], poll, reliable)
    {
      hide Tally, Reserved, Consistent, AllEvolve, Evolves;
      var job := jobs[i];
      ghost var before, mid := jobs, now;
      if Terminal(job.state) { return; }
      if job.process { RunningProcess(jobs, policy, i); }
      FirstLive(first, from, jobs, now, i);
      var t := Monotonic();
      Waiting(first, from, before, mid, now);
      mid := now;
      if Overdue(job, t) {
        var ok := Finish(i, Expired, None);
        EvolvesOnward(first, from, before, mid, jobs, now);
      } else if job.process && poll.Some? {
        Collect(i, poll.value.0, poll.value.1);
        EvolvesOnward(first, from, before, mid, jobs, now);
      }
    }

    /** Imported evidence is admitted as completed work without a worker or a queue slot. It reserves the
        session's caps, and is refused only when the session has no job or output bytes left. */
    method ImportResult(subject: nat, digest: nat, stored: bool) returns (id: Option<nat>)
      requires Valid()
      modifies this
      ensures Valid() && AllEvolve(old(jobs), old(now), jobs, now) && closed == old(closed) && requests == old(requests)
      ensures old(closed) ==> id.None?
      ensures id.None? ==> |jobs| == |old(jobs)|
      ensures id.None? && stored && !old(closed) ==>
                |jobs| >= policy.maxJobs || Tally(jobs, Retained) + policy.capOutput > policy.maxRetained
      ensures id.Some? ==> |jobs| == |old(jobs)| + 1 && id.value == |old(jobs)|
      ensures id.Some? ==>
                && jobs[id.value].state == Completed && jobs[id.value].receipt == Some(digest)
                && jobs[id.value].owner == subject && jobs[id.value].output == policy.capOutput
                && jobs[id.value].memory == policy.capMemory && jobs[id.value].finished == Some(jobs[id.value].admitted)
                && old(now) <= jobs[id.value].admitted <= now
      ensures Tally(jobs, Slot) == Tally(old(jobs), Slot) && Tally(jobs, Pending) <= Tally(old(jobs), Pending)
    {
      hide Tally, Reserved, Consistent;
      EvolveReflexive(jobs);
      if closed { return None; }
      Expire();
      SlotsStay(old(jobs), old(now), jobs, now);
      ghost var expired, mid := jobs, now;
      var ok := Admission(policy.capMemory, policy.capOutput, false);
      EvolvesOnward(old(jobs), old(now), expired, mid, jobs, now);
      KeepOwners(old(jobs), old(now), jobs, now);
      if !ok || !stored { return None; }
      var t := Monotonic();
      var job := Job(subject, digest, Completed, policy.capMemory, policy.capOutput, policy.capDeadline, t, false,
                     Some(t), Some(digest), None);
      Imported(policy, jobs, job);
      EvolveReflexive(jobs);
      jobs := jobs + [job];
      id := Some(|jobs| - 1);
    }

    /** Stops admission and cancels everything live. */
    method Close()
      requires Valid()
      modifies this
      ensures Valid() && AllEvolve(old(jobs), old(now), jobs, now) && |jobs| == |old(jobs)| && closed
      ensures forall i :: 0 <= i < |jobs| ==> Terminal(jobs[i].state)
    {
      hide Tally, Reserved, Consistent;
      EvolveReflexive(jobs);
      closed := true;
      var i := 0;
      while i < |jobs|
        invariant 0 <= i <= |jobs| == |old(jobs)| && Sound() && AllEvolve(old(jobs), old(now), jobs, now)
        invariant Tally(jobs, Pending) <= Tally(old(jobs), Pending)
        invariant forall k :: 0 <= k < i ==> Terminal(jobs[k].state)
        invariant closed && requests == old(requests)
      {
        ghost var before, mid := jobs, now;
        if !Terminal(jobs[i].state) {
          var ok := Finish(i, Cancelled, None);
          EvolvesOnward(old(jobs), old(now), before, mid, jobs, now);
        }
        i := i + 1;
      }
      KeepOwners(old(jobs), old(now), jobs, now);
    }
  }
}
