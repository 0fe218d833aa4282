/** The native process as it runs: restore, replay, flush, commit, and die after any durable step. */
module ReplayProcess {
  import opened Basics
  import opened Replay

  datatype Outcome<S> = Died | Refused | Done(state: S)

  datatype Restored<S> = Lost | Fresh | From(step: nat, state: S)

  /** How many builds a restored run has behind it, and the learner's state after them. */
  function Resumption<S, V>(l: Learner<S, V>, r: Restored<S>): (nat, S) {
    match r
    case From(step, state) => (step, state)
    case _ => (0, l.initial)
  }

  /** Rows written so far, published or buffered, make up t whole builds and the first n rows of the next. */
  ghost predicate Ahead<S, V>(l: Learner<S, V>, d: Disk<S, V>, buffer: seq<Row<V>>, t: nat, n: nat) {
    && Sound(l, d) && d.Frontier() <= t && n <= l.parts
    && (forall i :: 0 <= i < |buffer| ==> buffer[i].step > d.Frontier() && buffer[i].part < l.parts)
    && multiset(d.Rows()) + multiset(buffer) == RowsUpto(l, t) + multiset(BuildRows(l, StateAt(l, t), t + 1, n))
  }

  function Published<S, V>(d: Disk<S, V>, shard: seq<Row<V>>): Disk<S, V> { d.(shards := d.shards + [shard]) }

  lemma PublishedSound<S, V>(l: Learner<S, V>, d: Disk<S, V>, buffer: seq<Row<V>>, part: nat)
    requires Sound(l, d) && forall i :: 0 <= i < |buffer| ==> buffer[i].step > d.Frontier()
    ensures Sound(l, Published(d, Shard(buffer, part)))
    ensures Published(d, Shard(buffer, part)).Rows() == d.Rows() + Shard(buffer, part)
  {
    FlattenPush(d.shards, Shard(buffer, part));
    KeptAfterShard(d.Rows(), buffer, part, d.Frontier());
  }

  /** Sound reads the committed payload, the frontier, the rows and the acknowledgement, and nothing else. */
  lemma SoundSame<S, V>(l: Learner<S, V>, d: Disk<S, V>, d': Disk<S, V>)
    requires Sound(l, d) && d'.marker == d.marker && d'.Committed() == d.Committed()
    requires d'.shards == d.shards && d'.acknowledged <= d.Frontier()
    ensures Sound(l, d')
  {
    hide RowsUpto, StateAt, Kept, Flatten;
    assert d'.Rows() == d.Rows();
  }

  lemma SaveBegun<S, V>(l: Learner<S, V>, d: Disk<S, V>, t: nat)
    requires Sound(l, d) && d.Frontier() < t
    ensures Sound(l, Truncated(d, t)) && Truncated(d, t).Committed() == d.Committed()
    ensures Sound(l, Written(Truncated(d, t), t, StateAt(l, t)))
    ensures Written(Truncated(d, t), t, StateAt(l, t)).Committed() == d.Committed()
  {
    hide RowsUpto, StateAt, Kept, Flatten;
    SoundSame(l, d, Truncated(d, t));
    SoundSame(l, d, Written(Truncated(d, t), t, StateAt(l, t)));
  }

  lemma SaveEnded<S, V>(l: Learner<S, V>, d: Disk<S, V>, t: nat)
    requires Sound(l, d) && d.Frontier() < t && multiset(d.Rows()) == RowsUpto(l, t)
    ensures var d' := Marked(Written(Truncated(d, t), t, StateAt(l, t)), t);
            && Sound(l, d') && Sound(l, d'.(acknowledged := t)) && d'.Rows() == d.Rows()
  {
    hide RowsUpto, StateAt, Kept, Flatten, Sound;
    WholeRunKept(l, d.Rows(), t);
    var d' := Marked(Written(Truncated(d, t), t, StateAt(l, t)), t);
    SoundBounds(l, d);
    SoundAt(l, d', t);
    SoundAt(l, d'.(acknowledged := t), t);
  }

  lemma SoundBounds<S, V>(l: Learner<S, V>, d: Disk<S, V>)
    requires Sound(l, d)
    ensures d.acknowledged <= d.Frontier()
  {
    hide RowsUpto, StateAt, Kept, Flatten;
  }

  /** A disk whose marker names the whole payload of a build that all its rows lead up to. */
  lemma SoundAt<S, V>(l: Learner<S, V>, d: Disk<S, V>, t: nat)
    requires d.marker == Some(t) && t > 0 && t in d.payloads && d.payloads[t] == Whole(t, StateAt(l, t))
    requires d.acknowledged <= t && multiset(Kept(d.Rows(), t)) == RowsUpto(l, t)
    ensures Sound(l, d)
  {
    hide RowsUpto, StateAt, Kept, Flatten;
  }

  lemma AheadWhole<S, V>(l: Learner<S, V>, d: Disk<S, V>, t: nat)
    requires Ahead(l, d, [], t, 0)
    ensures multiset(d.Rows()) == RowsUpto(l, t)
  {
    hide RowsUpto, StateAt, Kept, Flatten, Sound;
    var none: seq<Row<V>> := [];
    assert BuildRows(l, StateAt(l, t), t + 1, 0) == none;
    assert multiset(d.Rows()) + multiset(none) == RowsUpto(l, t) + multiset(none);
    assert multiset(d.Rows()) + multiset(none) == multiset(d.Rows());
    assert RowsUpto(l, t) + multiset(none) == RowsUpto(l, t);
  }

  lemma AheadFrom<S, V>(l: Learner<S, V>, d: Disk<S, V>, t: nat)
    requires Sound(l, d) && d.Frontier() <= t && multiset(d.Rows()) == RowsUpto(l, t)
    ensures Ahead(l, d, [], t, 0)
  {
    hide RowsUpto, StateAt, Kept, Flatten, Sound;
  }

  lemma AheadNext<S, V>(l: Learner<S, V>, d: Disk<S, V>, buffer: seq<Row<V>>, t: nat)
    requires Ahead(l, d, buffer, t, l.parts)
    ensures Ahead(l, d, buffer, t + 1, 0)
  {
    hide Kept, Flatten, Sound;
    assert RowsUpto(l, t + 1) == RowsUpto(l, t) + multiset(BuildRows(l, StateAt(l, t), t + 1, l.parts));
    assert BuildRows(l, StateAt(l, t + 1), t + 2, 0) == [];
  }

  lemma AheadPush<S, V>(l: Learner<S, V>, d: Disk<S, V>, buffer: seq<Row<V>>, t: nat, row: Row<V>)
    requires row.part < l.parts && Ahead(l, d, buffer, t, row.part)
    requires row == Row(t + 1, row.part, (l.value)(StateAt(l, t), t + 1, row.part))
    ensures Ahead(l, d, buffer + [row], t, row.part + 1)
  {
    hide RowsUpto, StateAt, Kept, Flatten, Sound;
    var s := StateAt(l, t);
    assert BuildRows(l, s, t + 1, row.part + 1) == BuildRows(l, s, t + 1, row.part) + [row];
    assert multiset(d.Rows()) + multiset(buffer + [row]) == (multiset(d.Rows()) + multiset(buffer)) + multiset{row};
  }

  /** Publishing all of the buffer. */
  lemma AheadFlushed<S, V>(l: Learner<S, V>, d: Disk<S, V>, d': Disk<S, V>, buffer: seq<Row<V>>, t: nat, n: nat)
    requires Ahead(l, d, buffer, t, n) && Sound(l, d') && d'.Frontier() == d.Frontier()
    requires multiset(d'.Rows()) == multiset(d.Rows()) + multiset(Shards(buffer, l.parts))
    ensures Ahead(l, d', [], t, n)
  {
    hide RowsUpto, StateAt, Kept, Flatten, Sound, BuildRows;
    ShardsAll(buffer, l.parts);
  }

  /** No published row belongs to a build after t. */
  predicate Within<S, V(==)>(d: Disk<S, V>, t: nat) { forall i :: 0 <= i < |d.Rows()| ==> d.Rows()[i].step <= t }

  predicate BufferWithin<V(==)>(buffer: seq<Row<V>>, t: nat) { forall i :: 0 <= i < |buffer| ==> buffer[i].step <= t }

  lemma AheadWithin<S, V>(l: Learner<S, V>, d: Disk<S, V>, buffer: seq<Row<V>>, t: nat, n: nat)
    requires Ahead(l, d, buffer, t, n)
    ensures Within(d, t + 1) && BufferWithin(buffer, t + 1)
    ensures n == 0 ==> Within(d, t) && BufferWithin(buffer, t)
  {
    hide RowsUpto, StateAt, Kept, Flatten, Sound, BuildRows;
    var builds := BuildRows(l, StateAt(l, t), t + 1, n);
    RowsUptoAtMost(l, t);
    BuildRowsAt(l, StateAt(l, t), t + 1, n);
    forall r | r in multiset(d.Rows()) + multiset(buffer) ensures r.step <= if n == 0 then t else t + 1 {
      assert r in RowsUpto(l, t) + multiset(builds);
      if r in multiset(builds) { var i :| 0 <= i < |builds| && builds[i] == r; }
    }
    forall i | 0 <= i < |d.Rows()| ensures d.Rows()[i].step <= if n == 0 then t else t + 1 {
      assert d.Rows()[i] in multiset(d.Rows()) + multiset(buffer);
    }
    forall i | 0 <= i < |buffer| ensures buffer[i].step <= if n == 0 then t else t + 1 {
      assert buffer[i] in multiset(d.Rows()) + multiset(buffer);
    }
  }

  lemma FlushWithin<S, V>(before: Disk<S, V>, d: Disk<S, V>, buffer: seq<Row<V>>, part: nat, t: nat)
    requires multiset(d.Rows()) == multiset(before.Rows()) + multiset(Shards(buffer, part))
    requires Within(before, t) && BufferWithin(buffer, t)
    ensures Within(d, t)
  {
    hide Flatten, Shards;
    forall i | 0 <= i < |d.Rows()| ensures d.Rows()[i].step <= t {
      var r := d.Rows()[i];
      assert r in multiset(d.Rows());
      if r in multiset(before.Rows()) { assert r in before.Rows(); } else { ShardsMembers(buffer, part, r); }
    }
  }

  lemma TrimWithin<S, V>(d: Disk<S, V>, i: nat, kept: nat, t: nat)
    requires i < |d.shards| && Within(d, t)
    ensures Within(d.(shards := d.shards[i := Kept(d.shards[i], kept)]), t)
  {
    hide Flatten, Kept;
    var d' := d.(shards := d.shards[i := Kept(d.shards[i], kept)]);
    forall k | 0 <= k < |d'.Rows()| ensures d'.Rows()[k].step <= t {
      TrimMembers(d.shards, i, kept, d'.Rows()[k]);
      var m :| 0 <= m < |d.Rows()| && d.Rows()[m] == d'.Rows()[k];
    }
  }

  lemma SameWithin<S, V>(d: Disk<S, V>, d': Disk<S, V>, t: nat)
    requires Within(d, t) && d'.shards == d.shards
    ensures Within(d', t)
  {
    assert d'.Rows() == d.Rows();
  }

  lemma StillWithin<S, V>(d: Disk<S, V>, t: nat, later: nat)
    requires Within(d, t) && t <= later
    ensures Within(d, later)
  {}

  /** Fewer rows wait in memory than a batch holds. */
  predicate Short<V(==)>(buffer: seq<Row<V>>, batch: nat) { buffer == [] || |buffer| < batch }

  /** The last step up to t at which a checkpoint falls due. */
  function LastDue(t: nat, interval: nat): nat
    requires interval > 0
  {
    t - t % interval
  }

  lemma DueBefore(t: nat, interval: nat)
    requires interval > 0
    ensures LastDue(t, interval) <= t && (t % interval == 0 ==> LastDue(t, interval) == t)
  {}

  /** Build t falls within one interval of the last checkpoint due before it. */
  lemma DueSoon(t: nat, interval: nat)
    requires interval > 0 && t > 0
    ensures t <= LastDue(t - 1, interval) + interval && (t % interval == 0 ==> LastDue(t, interval) == t)
  {}

  lemma EveryStep(t: nat)
    ensures t % 1 == 0
  {}

  lemma DueStays(t: nat, interval: nat)
    requires interval > 0 && t % interval != 0
    ensures t > 0 && LastDue(t, interval) == LastDue(t - 1, interval)
  {
    var q, r := t / interval, t % interval;
    assert t - 1 == q * interval + (r - 1);
    ModuloOf(q, r - 1, interval);
  }

  lemma ModuloOf(q: nat, r: nat, n: nat)
    requires r < n
    ensures (q * n + r) % n == r
  {
    var t := q * n + r;
    var k := q - t / n;
    assert t == (t / n) * n + t % n;
    assert k * n == q * n - (t / n) * n == t % n - r;
    MultipleGrows(k, n);
  }

  lemma MultipleGrows(k: int, n: int)
    requires n >= 0
    ensures (k >= 1 ==> k * n >= n) && (k <= -1 ==> k * n <= -n)
  {
    if k >= 1 { assert (k - 1) * n >= 0; }
    if k <= -1 { assert (-k - 1) * n >= 0; }
  }

  function Later(a: nat, b: nat): nat { if a < b then b else a }

  function Earlier(a: nat, b: nat): nat { if a < b then a else b }

  lemma NextState<S, V>(l: Learner<S, V>, t: nat)
    requires t > 0
    ensures StateAt(l, t) == (l.next)(StateAt(l, t - 1), t)
  {}

  class Native<S, V(==)> {
    const l: Learner<S, V>
    /** The checkpoint interval, the number of builds in the dataset, and the rows buffered before a flush. */
    const interval: nat
    /** Whether each build is acknowledged to a durable job record; such runs commit every build. */
    const acknowledges: bool
    const builds: nat
    const batch: nat
    var disk: Disk<S, V>
    var buffer: seq<Row<V>>
    /** How many more durable steps this process survives; None means it is never interrupted. */
    var fuel: Option<nat>

    constructor (l: Learner<S, V>, interval: nat, acknowledges: bool, builds: nat, batch: nat)
      requires interval > 0 && (acknowledges ==> interval == 1)
      ensures this.l == l && this.interval == interval && this.acknowledges == acknowledges
      ensures this.builds == builds && this.batch == batch
      ensures disk == Disk(map[], None, [], 0) && Finished(l, disk, 0)
    {
      this.l, this.interval, this.acknowledges, this.builds, this.batch := l, interval, acknowledges, builds, batch;
      disk, buffer, fuel := Disk(map[], None, [], 0), [], None;
    }

    method Durable() returns (alive: bool)
      modifies this`fuel
      ensures old(fuel).None? ==> alive && fuel.None?
    {
      alive := fuel != Some(0);
      if fuel.Some? && alive { fuel := Some(fuel.value - 1); }
    }

    /** Publishes the buffer shard by shard; a process that dies here leaves some complete shards. */
    method Flush(ghost t: nat, ghost n: nat) returns (alive: bool)
      requires Ahead(l, disk, buffer, t, n)
      modifies this
      ensures Sound(l, disk) && disk.Frontier() == old(disk).Frontier()
      ensures disk.payloads == old(disk).payloads && disk.marker == old(disk).marker
      ensures disk.acknowledged == old(disk).acknowledged
      ensures alive ==> buffer == [] && Ahead(l, disk, buffer, t, n)
      ensures alive && old(buffer) == [] ==> disk == old(disk)
      ensures Within(disk, if n == 0 then t else t + 1)
      ensures old(fuel).None? ==> alive && fuel.None?
    {
      hide RowsUpto, StateAt, Kept, Flatten, Sound, BuildRows, Shard, Shards, Within;
      AheadWithin(l, disk, buffer, t, n);
      NoShards(buffer);
      if buffer == [] { return true; }
      var part := 0;
      ghost var before := disk;
      while part < l.parts
        invariant 0 <= part <= l.parts && Sound(l, disk) && buffer == old(buffer)
        invariant disk.payloads == before.payloads && disk.marker == before.marker
        invariant disk.acknowledged == before.acknowledged
        invariant multiset(disk.Rows()) == multiset(before.Rows()) + multiset(Shards(buffer, part))
        invariant Within(disk, if n == 0 then t else t + 1)
        invariant old(fuel).None? ==> fuel.None?
      {
        alive := Durable();
        if !alive { return; }
        assert disk.Frontier() == before.Frontier();
        PublishedSound(l, disk, buffer, part);
        ShardsLast(buffer, part + 1);
        FlushWithin(before, Published(disk, Shard(buffer, part)), buffer, part + 1, if n == 0 then t else t + 1);
        disk := Published(disk, Shard(buffer, part));
        part := part + 1;
      }
      AheadFlushed(l, before, disk, buffer, t, n);
      buffer := [];
      alive := true;
    }

    /** Build t: one row per partition from the state before it. */
    method Build(t: nat, state: S) returns (alive: bool)
      requires t > 0 && Ahead(l, disk, buffer, t - 1, 0) && state == StateAt(l, t - 1)
      modifies this
      ensures Sound(l, disk) && disk.Frontier() == old(disk).Frontier() && disk.acknowledged == old(disk).acknowledged
      ensures alive ==> Ahead(l, disk, buffer, t, 0)
      ensures Within(disk, t) && (alive && Short(old(buffer), batch) ==> Short(buffer, batch))
      ensures old(fuel).None? ==> alive && fuel.None?
    {
      hide RowsUpto, StateAt, Kept, Flatten, BuildRows, Sound, Within;
      AheadWithin(l, disk, buffer, t - 1, 0);
      alive := true;
      var part := 0;
      while part < l.parts
        invariant 0 <= part <= l.parts && Ahead(l, disk, buffer, t - 1, part)
        invariant disk.Frontier() == old(disk).Frontier() && disk.acknowledged == old(disk).acknowledged
        invariant Within(disk, t) && (Short(old(buffer), batch) ==> Short(buffer, batch))
        invariant old(fuel).None? ==> fuel.None?
        invariant alive
      {
        alive := WriteRow(t - 1, Row(t, part, (l.value)(state, t, part)));
        if !alive { return; }
        part := part + 1;
      }
      AheadNext(l, disk, buffer, t - 1);
    }

    /** Buffers one row; a full batch is flushed. */

    method WriteRow(ghost t: nat, row: Row<V>) returns (alive: bool)
      requires row.part < l.parts && Ahead(l, disk, buffer, t, row.part)
      requires row == Row(t + 1, row.part, (l.value)(StateAt(l, t), t + 1, row.part))
      modifies this
      ensures Sound(l, disk) && disk.Frontier() == old(disk).Frontier() && disk.acknowledged == old(disk).acknowledged
      ensures alive ==> Ahead(l, disk, buffer, t, row.part + 1) && Short(buffer, batch)
      ensures Within(disk, t + 1)
      ensures old(fuel).None? ==> alive && fuel.None?
    {
      hide Sound, RowsUpto, StateAt, BuildRows, Flatten, Within;
      AheadPush(l, disk, buffer, t, row);
      buffer := buffer + [row];
      AheadWithin(l, disk, buffer, t, row.part + 1);
      alive := true;
      if |buffer| >= batch { alive := Flush(t, row.part + 1); }
    }

    /** Flush, then payload, then marker. */
    method Save(t: nat, state: S) returns (alive: bool)
      requires Ahead(l, disk, buffer, t, 0) && disk.Frontier() < t && state == StateAt(l, t)
      modifies this
      ensures Sound(l, disk) && disk.Frontier() in {old(disk).Frontier(), t}
      ensures disk.Committed() in {old(disk).Committed(), Some(Whole(t, state))}
      ensures alive ==> buffer == [] && Ahead(l, disk, buffer, t, 0) && disk.Frontier() == t && Finished(l, disk, t)
      ensures Within(disk, t) && disk.acknowledged == old(disk).acknowledged
      ensures old(fuel).None? ==> alive && fuel.None?
    {
      hide RowsUpto, StateAt, Kept, Flatten, BuildRows, Sound, Within;
      alive := Flush(t, 0);
      if !alive { return; }
      ghost var d := disk;
      AheadWhole(l, d, t);
      SaveBegun(l, d, t);
      SaveEnded(l, d, t);
      alive := Durable();
      if !alive { return; }
      disk := Truncated(disk, t);
      SameWithin(d, disk, t);
      alive := Durable();
      if !alive { return; }
      disk := Written(disk, t, state);
      SameWithin(d, disk, t);
      alive := Durable();
      if !alive { return; }
      disk := Marked(disk, t);
      SameWithin(d, disk, t);
      assert disk.Rows() == d.Rows();
      AheadFrom(l, disk, t);
    }

    /** The workflow's progress callback: the job record acknowledges the step just committed. */
    method Acknowledge(t: nat) returns (alive: bool)
      requires Ahead(l, disk, buffer, t, 0) && disk.Frontier() == t && buffer == []
      modifies this`disk, this`fuel
      ensures Sound(l, disk) && disk.Frontier() == t && buffer == []
      ensures alive ==> Ahead(l, disk, buffer, t, 0) && Finished(l, disk, t)
      ensures Within(disk, t) && disk.acknowledged == if alive then t else old(disk).acknowledged
      ensures old(fuel).None? ==> alive && fuel.None?
    {
      hide RowsUpto, StateAt, Kept, Flatten, BuildRows, Within;
      AheadWithin(l, disk, buffer, t, 0);
      alive := Durable();
      if !alive { return; }
      AheadWhole(l, disk, t);
      ghost var before := disk;
      disk := disk.(acknowledged := t);
      SameWithin(before, disk, t);
      assert disk.Rows() == before.Rows();
      AheadFrom(l, disk, t);
    }

    /** Loads the payload the marker names. What it restores is whole and reaches every acknowledged step; a
        missing, torn or too old payload is refused, never replaced by a fresh start. A sound disk is never
        refused, and gives back the uninterrupted run's state at its frontier. */
    method Load() returns (r: Restored<S>)
      ensures Sound(l, disk) ==>
                !r.Lost? && Resumption(l, r) == (disk.Frontier(), StateAt(l, disk.Frontier()))
      ensures r == Lost <==> disk.acknowledged > disk.Frontier() || (disk.marker.Some? && disk.Committed().None?)
      ensures r.Fresh? ==> disk.marker.None? && disk.acknowledged == 0
      ensures r.From? ==>
                && disk.marker == Some(r.step) && disk.acknowledged <= r.step
                && r.step in disk.payloads && disk.payloads[r.step] == Whole(r.step, r.state)
    {
      hide RowsUpto, Kept, Flatten;
      if disk.marker.None? {
        return if disk.acknowledged > 0 then Lost else Fresh;
      }
      if disk.marker.value < disk.acknowledged || disk.Committed().None? { return Lost; }
      r := From(disk.marker.value, disk.Committed().value.state);
    }

    /** Drops rows beyond step t, file by file. */
    method Recover(t: nat) returns (alive: bool)
      requires Sound(l, disk) && disk.Frontier() == t
      modifies this
      ensures Sound(l, disk) && disk == old(disk).(shards := disk.shards) && buffer == []
      ensures alive ==> multiset(disk.Rows()) == RowsUpto(l, t)
      ensures multiset(old(disk).Rows()) == RowsUpto(l, t) ==> disk == old(disk)
      ensures forall n: nat :: Within(old(disk), n) ==> Within(disk, n)
      ensures old(fuel).None? ==> alive && fuel.None?
    {
      hide RowsUpto, StateAt, Kept, Flatten, Within;
      buffer := [];
      var i := 0;
      ghost var before := disk;
      while i < |disk.shards|
        invariant 0 <= i <= |disk.shards| && disk == before.(shards := disk.shards)
        invariant Kept(disk.Rows(), t) == Kept(before.Rows(), t)
        invariant forall k :: 0 <= k < i ==> Kept(disk.shards[k], t) == disk.shards[k]
        invariant multiset(before.Rows()) == RowsUpto(l, t) ==> disk == before
        invariant forall n: nat :: Within(before, n) ==> Within(disk, n)
        invariant old(fuel).None? ==> fuel.None?
        invariant buffer == []
        decreases |disk.shards| - i
      {
        var kept := Kept(disk.shards[i], t);
        if kept != disk.shards[i] {
          alive := Durable();
          if !alive { return; }
          WholeMeansKept(l, disk, i, t);
          KeptReplace(disk.shards, i, t);
          KeptIdempotent(disk.shards[i], t);
          forall n: nat | Within(before, n) ensures Within(disk.(shards := disk.shards[i := kept]), n) {
            TrimWithin(disk, i, t, n);
          }
          disk := disk.(shards := disk.shards[i := kept]);
        }
        i := i + 1;
      }
      FlattenSteps(disk.shards, t);
      alive := true;
      assert Kept(disk.Rows(), t) == disk.Rows();
    }

    /** Takes up the restored state, or the initial one, and reconciles the rows with its step. */
    method Restart(loaded: Restored<S>) returns (alive: bool, restoreStep: nat, state: S)
      requires Sound(l, disk) && Resumption(l, loaded) == (disk.Frontier(), StateAt(l, disk.Frontier()))
      modifies this
      ensures Sound(l, disk) && disk == old(disk).(shards := disk.shards) && buffer == []
      ensures alive ==>
                && restoreStep == disk.Frontier() + 1 && state == StateAt(l, disk.Frontier())
                && Ahead(l, disk, buffer, disk.Frontier(), 0) && Finished(l, disk, disk.Frontier())
      ensures Within(old(disk), old(disk).Frontier() + interval) || alive ==> Within(disk, disk.Frontier() + interval)
      ensures Finished(l, old(disk), old(disk).Frontier()) ==> disk == old(disk)
      ensures old(fuel).None? ==> alive && fuel.None?
    {
      hide RowsUpto, Kept, Flatten, BuildRows, Ahead, Sound, StateAt, Within;
      restoreStep, state := 1, l.initial;
      match loaded {
        case From(step, s) => restoreStep, state := step + 1, s;
        case _ =>
      }
      alive := Recover(restoreStep - 1);
      if !alive { return; }
      AheadFrom(l, disk, restoreStep - 1);
      AheadWithin(l, disk, buffer, restoreStep - 1, 0);
      StillWithin(disk, disk.Frontier(), disk.Frontier() + interval);
    }

    /** Build t, its checkpoint when one is due, and its acknowledgement. */
    method Advance(t: nat, before: S) returns (alive: bool, state: S)
      requires interval > 0 && (acknowledges ==> interval == 1) && t > 0
      requires Ahead(l, disk, buffer, t - 1, 0) && before == StateAt(l, t - 1)
      requires LastDue(t - 1, interval) <= disk.Frontier() <= t - 1
      modifies this
      ensures Sound(l, disk) && old(disk).Frontier() <= disk.Frontier() <= t
      ensures Within(disk, disk.Frontier() + interval)
      ensures alive ==> Ahead(l, disk, buffer, t, 0) && state == StateAt(l, t)
      ensures alive ==> if t % interval == 0 then disk.Frontier() == t && Finished(l, disk, t)
                        else disk.Frontier() == old(disk).Frontier()
      ensures alive ==> LastDue(t, interval) <= disk.Frontier()
      ensures alive && Short(old(buffer), batch) ==> Short(buffer, batch)
      ensures disk.acknowledged == if alive && acknowledges then t else old(disk).acknowledged
      ensures old(fuel).None? ==> alive && fuel.None?
    {
      hide RowsUpto, Kept, Flatten, BuildRows, Ahead, Sound, StateAt, Within, LastDue;
      DueSoon(t, interval);
      state := before;
      alive := Build(t, before);
      StillWithin(disk, t, disk.Frontier() + interval);
      if !alive { return; }
      state := (l.next)(state, t);
      NextState(l, t);
      if t % interval == 0 {
        alive := Save(t, state);
        StillWithin(disk, t, disk.Frontier() + interval);
        if !alive { return; }
      } else {
        DueStays(t, interval);
      }
      if acknowledges {
        EveryStep(t);
        alive := Acknowledge(t);
        StillWithin(disk, t, disk.Frontier() + interval);
      }
    }

    /** A run that ends between checkpoints commits its last build. */
    method CommitFinal(step: nat, state: S) returns (alive: bool)
      requires interval > 0 && step > 0 && Ahead(l, disk, buffer, step, 0) && state == StateAt(l, step)
      requires LastDue(step, interval) <= disk.Frontier() && Within(disk, disk.Frontier() + interval)
      requires if step % interval == 0 then disk.Frontier() == step && Finished(l, disk, step) else disk.Frontier() < step
      modifies this
      ensures Sound(l, disk) && disk.Frontier() in {old(disk).Frontier(), step}
      ensures Within(disk, disk.Frontier() + interval) && disk.acknowledged == old(disk).acknowledged
      ensures alive ==> Finished(l, disk, step)
      ensures old(fuel).None? ==> alive && fuel.None?
    {
      hide RowsUpto, Kept, Flatten, BuildRows, Ahead, Sound, StateAt, Within, LastDue;
      DueSoon(step + 1, interval);
      alive := true;
      if step % interval != 0 {
        alive := Save(step, state);
        StillWithin(disk, step, disk.Frontier() + interval);
      }
    }

    /** One attempt to carry the experiment to its first trials builds. Whatever it survives, the disk stays
        sound and only advances, and nothing is ever refused; no published row is more than one interval ahead
        of the checkpoint, and of the builds an attempt commits at most the last is not acknowledged. An
        attempt that is not interrupted ends in the state and with the rows of the uninterrupted run, and on a
        finished disk it changes nothing. */
    method RunSingle(trials: nat) returns (outcome: Outcome<S>)
      requires interval > 0 && (acknowledges ==> interval == 1) && Sound(l, disk)
      modifies this
      ensures Sound(l, disk) && outcome != Refused
      ensures old(disk).Frontier() <= disk.Frontier() <= Later(old(disk).Frontier(), Earlier(trials, builds))
      ensures outcome.Done? ==>
                var n := Later(old(disk).Frontier(), Earlier(trials, builds));
                outcome.state == StateAt(l, n) && Finished(l, disk, n)
      ensures Finished(l, old(disk), old(disk).Frontier()) && old(disk).Frontier() >= Earlier(trials, builds) ==>
                disk == old(disk)
      ensures Within(old(disk), old(disk).Frontier() + interval) ==> Within(disk, disk.Frontier() + interval)
      ensures acknowledges && disk.Frontier() > old(disk).Frontier() + 1 ==> disk.Frontier() <= disk.acknowledged + 1
      ensures acknowledges && disk.Frontier() > old(disk).Frontier() && outcome.Done? ==>
                disk.acknowledged == disk.Frontier()
      ensures !acknowledges ==> disk.acknowledged == old(disk).acknowledged
      ensures old(fuel).None? ==> outcome.Done?
    {
      hide RowsUpto, Kept, Flatten, BuildRows, Ahead, Sound, StateAt, Within, LastDue, Finished, Resumption;
      var loaded := Load();
      if loaded.Lost? { return Refused; }
      var alive, restoreStep, state := Restart(loaded);
      if !alive { return Died; }
      DueBefore(restoreStep - 1, interval);
      var t, lastStep := restoreStep, 0;
      ghost var frontier := disk.Frontier();
      ghost var recovered := disk;
      while t <= trials && t <= builds
        invariant restoreStep <= t && (t == restoreStep || t - 1 <= Earlier(trials, builds))
        invariant lastStep == if t == restoreStep then 0 else t - 1
        invariant Ahead(l, disk, buffer, t - 1, 0) && state == StateAt(l, t - 1)
        invariant frontier <= disk.Frontier() <= t - 1
        invariant t == restoreStep ==> disk == recovered && buffer == []
        invariant t > restoreStep && (t - 1) % interval == 0 ==> disk.Frontier() == t - 1 && Finished(l, disk, t - 1)
        invariant t > restoreStep && (t - 1) % interval != 0 ==> disk.Frontier() < t - 1
        invariant LastDue(t - 1, interval) <= disk.Frontier() && Sound(l, disk)
        invariant Within(disk, disk.Frontier() + interval) && Short(buffer, batch)
        invariant acknowledges && t > restoreStep ==> disk.acknowledged == disk.Frontier()
        invariant t == restoreStep || !acknowledges ==> disk.acknowledged == old(disk).acknowledged
        invariant old(fuel).None? ==> fuel.None?
      {
        alive, state := Advance(t, state);
        if !alive { return Died; }
        lastStep := t;
        t := t + 1;
      }
      if lastStep > 0 {
        alive := CommitFinal(lastStep, state);
        if !alive { return Died; }
      }
      outcome := Done(state);
    }

    /** Any number of attempts, each killed after as many durable steps as the schedule grants it, followed
        by one that survives: the outcome is that of the uninterrupted run. */
    method Campaign(schedule: seq<nat>, trials: nat) returns (state: S)
      requires interval > 0 && (acknowledges ==> interval == 1) && Sound(l, disk)
      modifies this
      ensures var n := Later(old(disk).Frontier(), Earlier(trials, builds));
              state == StateAt(l, n) && Finished(l, disk, n)
    {
      hide Sound, Finished, StateAt;
      var i := 0;
      while i < |schedule|
        invariant 0 <= i <= |schedule| && Sound(l, disk)
        invariant old(disk).Frontier() <= disk.Frontier() <= Later(old(disk).Frontier(), Earlier(trials, builds))
      {
        fuel := Some(schedule[i]);
        var attempt := RunSingle(trials);
        i := i + 1;
      }
      fuel := None;
      var outcome := RunSingle(trials);
      state := outcome.state;
    }

    /** A tuning prefix and its continuation, each with its own crashes, equal one run of the longer length. */
    method Staged(tuning: seq<nat>, prefix: nat, evaluation: seq<nat>, trials: nat) returns (state: S)
      requires interval > 0 && (acknowledges ==> interval == 1) && Finished(l, disk, 0) && prefix <= trials
      modifies this
      ensures state == StateAt(l, Earlier(trials, builds)) && Finished(l, disk, Earlier(trials, builds))
    {
      var first := Campaign(tuning, prefix);
      state := Campaign(evaluation, trials);
    }
  }

  /** A finished disk has no file to trim. */
  lemma WholeMeansKept<S, V>(l: Learner<S, V>, d: Disk<S, V>, i: nat, t: nat)
    requires i < |d.shards|
    ensures multiset(d.Rows()) == RowsUpto(l, t) ==> Kept(d.shards[i], t) == d.shards[i]
  {
    if multiset(d.Rows()) == RowsUpto(l, t) {
      RowsUptoAtMost(l, t);
      FlattenAt(d.shards, i, d.shards[i]);
      assert d.shards[i := d.shards[i]] == d.shards;
      forall k | 0 <= k < |d.shards[i]| ensures d.shards[i][k].step <= t {
        assert d.shards[i][k] in d.Rows();
        assert d.shards[i][k] in multiset(d.Rows());
      }
      KeptAll(d.shards[i], t);
    }
  }
}