/**
 A resumable learning loop over files that survive a crash. Result shards and the checkpoint payload are
 written before the progress marker is replaced, and a restart reconciles both. Every crash schedule ends
 where one uninterrupted run ends.
 */
module Replay {
  import opened Basics

  /** One result row; part is its output partition (one file per partition and flush). */
  datatype Row<V> = Row(step: nat, part: nat, value: V)

  /** Everything the next build depends on: agents and bandit, and the process-global random generator. */
  datatype World<A, R> = World(agents: A, generator: R)

  /** A checkpoint payload file is torn between truncation and the end of its write. */
  datatype File<S> = Torn | Whole(step: nat, state: S)

  /** What survives a crash: payload files by step, the progress marker, published result shards, and the
      step the job record has acknowledged. */
  datatype Disk<S, V> = Disk(payloads: map<nat, File<S>>, marker: Option<nat>, shards: seq<seq<Row<V>>>,
                             acknowledged: nat)
  {
    function Rows(): seq<Row<V>> { Flatten(shards) }

    function Frontier(): nat { if marker.Some? then marker.value else 0 }

    /** The payload the marker names, when it can be read back whole. */
    function Committed(): Option<File<S>> {
      if marker.Some? && marker.value in payloads && payloads[marker.value].Whole?
         && payloads[marker.value].step == marker.value
      then Some(payloads[marker.value]) else None
    }
  }

  function Flatten<V>(files: seq<seq<Row<V>>>): seq<Row<V>> {
    if files == [] then [] else Flatten(files[..|files| - 1]) + files[|files| - 1]
  }

  // ---------------------------------------------------------------- writing one checkpoint

  function Truncated<S, V>(d: Disk<S, V>, t: nat): Disk<S, V> { d.(payloads := d.payloads[t := Torn]) }

  function Written<S, V>(d: Disk<S, V>, t: nat, s: S): Disk<S, V> { d.(payloads := d.payloads[t := Whole(t, s)]) }

  function Marked<S, V>(d: Disk<S, V>, t: nat): Disk<S, V> { d.(marker := Some(t)) }

  /** The disk after the first k durable steps of saving state s at step t. */
  function SavePrefix<S, V>(d: Disk<S, V>, t: nat, s: S, k: nat): Disk<S, V> {
    if k == 0 then d
    else if k == 1 then Truncated(d, t)
    else if k == 2 then Written(Truncated(d, t), t, s)
    else Marked(Written(Truncated(d, t), t, s), t)
  }

  /** A reader finds the whole previous payload or the whole new one at every point of a save exactly when
      the save does not reuse the step the marker already names. */
  lemma SaveAtomicIffFresh<S, V>(d: Disk<S, V>, t: nat, s: S)
    requires d.marker.Some? ==> d.Committed().Some?
    ensures (forall k: nat :: SavePrefix(d, t, s, k).Committed() in {d.Committed(), Some(Whole(t, s))})
            <==> d.marker != Some(t)
  {
    if d.marker == Some(t) {
      assert SavePrefix(d, t, s, 1).Committed() == None;
    } else {
      forall k: nat ensures SavePrefix(d, t, s, k).Committed() in {d.Committed(), Some(Whole(t, s))} {
        assert SavePrefix(d, t, s, k).Committed() == if k < 3 then d.Committed() else Some(Whole(t, s));
      }
    }
  }

  // ---------------------------------------------------------------- the uninterrupted run

  /** A deterministic learner: parts is the number of output partitions, each build writes one row in each. */
  datatype Learner<!S, !V> = Learner(initial: S, next: (S, nat) -> S, value: (S, nat, nat) -> V, parts: nat)

  function StateAt<S, V>(l: Learner<S, V>, t: nat): S {
    if t == 0 then l.initial else (l.next)(StateAt(l, t - 1), t)
  }

  /** The first n rows of build t when it starts from state s. */
  function BuildRows<S, V>(l: Learner<S, V>, s: S, t: nat, n: nat): seq<Row<V>> {
    if n == 0 then [] else BuildRows(l, s, t, n - 1) + [Row(t, n - 1, (l.value)(s, t, n - 1))]
  }

  /** The rows of builds 1 to t. */
  ghost function RowsUpto<S, V>(l: Learner<S, V>, t: nat): multiset<Row<V>> {
    if t == 0 then multiset{} else RowsUpto(l, t - 1) + multiset(BuildRows(l, StateAt(l, t - 1), t, l.parts))
  }

  ghost predicate AtMost<V>(rows: multiset<Row<V>>, t: nat) { forall r :: r in rows ==> r.step <= t }

  lemma {:induction false} BuildRowsAt<S, V>(l: Learner<S, V>, s: S, t: nat, n: nat)
    ensures |BuildRows(l, s, t, n)| == n
    ensures forall i :: 0 <= i < n ==> BuildRows(l, s, t, n)[i] == Row(t, i, (l.value)(s, t, i))
  {
    if n > 0 { BuildRowsAt(l, s, t, n - 1); }
  }

  lemma BuildOnly<S, V>(l: Learner<S, V>, s: S, t: nat, r: Row<V>)
    ensures r.step != t ==> multiset(BuildRows(l, s, t, l.parts))[r] == 0
  {
    BuildRowsAt(l, s, t, l.parts);
  }

  lemma {:induction false} LaterAbsent<S, V>(l: Learner<S, V>, t: nat, r: Row<V>)
    ensures r.step > t ==> RowsUpto(l, t)[r] == 0
  {
    hide BuildRows, StateAt;
    if t > 0 {
      LaterAbsent(l, t - 1, r);
      BuildOnly(l, StateAt(l, t - 1), t, r);
    }
  }

  lemma RowsUptoAtMost<S, V>(l: Learner<S, V>, t: nat)
    ensures AtMost(RowsUpto(l, t), t)
  {
    hide RowsUpto;
    forall r | r in RowsUpto(l, t) ensures r.step <= t { LaterAbsent(l, t, r); }
  }

  lemma BuildOnce<S, V>(l: Learner<S, V>, s: S, t: nat, part: nat)
    requires part < l.parts
    ensures multiset(BuildRows(l, s, t, l.parts))[Row(t, part, (l.value)(s, t, part))] == 1
    ensures forall v :: Row(t, part, v) in BuildRows(l, s, t, l.parts) ==> v == (l.value)(s, t, part)
  {
    BuildRowsAt(l, s, t, l.parts);
    OnceIn(BuildRows(l, s, t, l.parts), part);
  }

  /** Each build has exactly one row in each partition: the run's rows hold no duplicate and no gap. */
  lemma {:induction false} OneRowEach<S, V>(l: Learner<S, V>, t: nat, k: nat, part: nat, v: V)
    requires 1 <= k <= t && part < l.parts
    ensures RowsUpto(l, t)[Row(k, part, v)] == if v == (l.value)(StateAt(l, k - 1), k, part) then 1 else 0
  {
    hide BuildRows, StateAt;
    if k < t {
      OneRowEach(l, t - 1, k, part, v);
      BuildOnly(l, StateAt(l, t - 1), t, Row(k, part, v));
    } else {
      LaterAbsent(l, t - 1, Row(k, part, v));
      BuildOnce(l, StateAt(l, t - 1), t, part);
    }
  }

  lemma OnceIn<V>(rows: seq<Row<V>>, i: nat)
    requires i < |rows| && forall k :: 0 <= k < |rows| ==> rows[k].part == k
    ensures multiset(rows)[rows[i]] == 1
  {
    assert rows == rows[..i] + [rows[i]] + rows[i + 1..];
    assert rows[i] !in rows[..i] && rows[i] !in rows[i + 1..];
  }

  /** Reconciliation: the rows of steps up to t. */
  function Kept<V>(rows: seq<Row<V>>, t: nat): seq<Row<V>> {
    if rows == [] then [] else Kept(rows[..|rows| - 1], t) + if rows[|rows| - 1].step <= t then [rows[|rows| - 1]] else []
  }

  /** What every crash leaves behind: a whole payload of the uninterrupted run at the marker, exactly that
      run's rows up to it, and a job record that has acknowledged no later step. */
  ghost predicate Sound<S, V>(l: Learner<S, V>, d: Disk<S, V>) {
    && (d.marker.Some? ==> d.marker.value > 0 && d.Committed() == Some(Whole(d.Frontier(), StateAt(l, d.Frontier()))))
    && d.acknowledged <= d.Frontier()
    && multiset(Kept(d.Rows(), d.Frontier())) == RowsUpto(l, d.Frontier())
  }

  /** The disk after a finished run of n builds. */
  ghost predicate Finished<S, V>(l: Learner<S, V>, d: Disk<S, V>, n: nat) {
    Sound(l, d) && d.Frontier() == n && multiset(d.Rows()) == RowsUpto(l, n)
  }

  lemma {:induction false} KeptAppend<V>(rows: seq<Row<V>>, more: seq<Row<V>>, t: nat)
    ensures Kept(rows + more, t) == Kept(rows, t) + Kept(more, t)
  {
    if more == [] {
      assert rows + more == rows;
    } else {
      var n := |more| - 1;
      assert (rows + more)[..|rows + more| - 1] == rows + more[..n];
      KeptAppend(rows, more[..n], t);
    }
  }

  lemma {:induction false} KeptNone<V>(rows: seq<Row<V>>, t: nat)
    requires forall i :: 0 <= i < |rows| ==> rows[i].step > t
    ensures Kept(rows, t) == []
  {
    if rows != [] { KeptNone(rows[..|rows| - 1], t); }
  }

  lemma {:induction false} KeptAll<V>(rows: seq<Row<V>>, t: nat)
    requires forall i :: 0 <= i < |rows| ==> rows[i].step <= t
    ensures Kept(rows, t) == rows
  {
    if rows != [] {
      KeptAll(rows[..|rows| - 1], t);
      assert rows == rows[..|rows| - 1] + [rows[|rows| - 1]];
    }
  }

  lemma {:induction false} KeptBelow<V>(rows: seq<Row<V>>, t: nat)
    ensures forall i :: 0 <= i < |Kept(rows, t)| ==> Kept(rows, t)[i].step <= t
  {
    if rows != [] { KeptBelow(rows[..|rows| - 1], t); }
  }

  lemma KeptIdempotent<V>(rows: seq<Row<V>>, t: nat)
    ensures Kept(Kept(rows, t), t) == Kept(rows, t)
  {
    KeptBelow(rows, t);
    KeptAll(Kept(rows, t), t);
  }

  /** Rows that make up a whole run are all kept at its last step. */
  lemma WholeRunKept<S, V>(l: Learner<S, V>, rows: seq<Row<V>>, t: nat)
    requires multiset(rows) == RowsUpto(l, t)
    ensures Kept(rows, t) == rows
  {
    RowsUptoAtMost(l, t);
    forall i | 0 <= i < |rows| ensures rows[i].step <= t { assert rows[i] in multiset(rows); }
    KeptAll(rows, t);
  }

  /** The rows of one partition, in the order they were buffered. */
  function Shard<V>(rows: seq<Row<V>>, part: nat): seq<Row<V>> {
    if rows == [] then []
    else Shard(rows[..|rows| - 1], part) + if rows[|rows| - 1].part == part then [rows[|rows| - 1]] else []
  }

  /** The first n shards of a flush, in partition order. */
  function Shards<V>(rows: seq<Row<V>>, n: nat): seq<Row<V>> {
    if n == 0 then [] else Shards(rows, n - 1) + Shard(rows, n - 1)
  }

  lemma ShardPush<V>(rows: seq<Row<V>>, r: Row<V>, part: nat)
    ensures Shard(rows + [r], part) == Shard(rows, part) + if r.part == part then [r] else []
  {
    assert (rows + [r])[..|rows|] == rows;
  }

  lemma Merge<T>(more: seq<T>, front: seq<T>, single: multiset<T>, shard: seq<T>, extra: seq<T>)
    requires multiset(more) == multiset(front) + single
    ensures multiset(more + (shard + extra)) == multiset(front + shard) + (single + multiset(extra))
  {}

  ghost function Single<V>(r: Row<V>, n: nat): multiset<Row<V>> { if r.part < n then multiset{r} else multiset{} }

  lemma SinglePush<V>(r: Row<V>, n: nat)
    ensures Single(r, n + 1) == Single(r, n) + multiset(if r.part == n then [r] else [])
  {}

  lemma ShardsLast<V>(rows: seq<Row<V>>, n: nat)
    requires n > 0
    ensures Shards(rows, n) == Shards(rows, n - 1) + Shard(rows, n - 1)
  {}

  lemma {:induction false} ShardsPush<V>(rows: seq<Row<V>>, r: Row<V>, n: nat)
    ensures multiset(Shards(rows + [r], n)) == multiset(Shards(rows, n)) + Single(r, n)
  {
    hide Shard, Shards, Single;
    if n > 0 {
      var extra := if r.part == n - 1 then [r] else [];
      ShardPush(rows, r, n - 1);
      ShardsLast(rows + [r], n);
      ShardsLast(rows, n);
      ShardsPush(rows, r, n - 1);
      SinglePush(r, n - 1);
      Merge(Shards(rows + [r], n - 1), Shards(rows, n - 1), Single(r, n - 1), Shard(rows, n - 1), extra);
    } else {
      NoShard(rows, r);
    }
  }

  lemma NoShard<V>(rows: seq<Row<V>>, r: Row<V>)
    ensures multiset(Shards(rows + [r], 0)) == multiset(Shards(rows, 0)) + Single(r, 0)
  {}

  lemma NoShards<V>(rows: seq<Row<V>>)
    ensures Shards(rows, 0) == []
  {}

  lemma {:induction false} ShardsEmpty<V>(n: nat)
    ensures Shards<V>([], n) == []
  {
    if n > 0 { ShardsEmpty<V>(n - 1); }
  }

  /** A flush publishes every buffered row once. */
  lemma {:induction false} ShardsAll<V>(rows: seq<Row<V>>, parts: nat)
    requires forall i :: 0 <= i < |rows| ==> rows[i].part < parts
    ensures multiset(Shards(rows, parts)) == multiset(rows)
  {
    if rows == [] {
      ShardsEmpty<V>(parts);
    } else {
      var n := |rows| - 1;
      assert rows == rows[..n] + [rows[n]];
      ShardsAll(rows[..n], parts);
      ShardsPush(rows[..n], rows[n], parts);
    }
  }

  lemma {:induction false} ShardMembers<V>(rows: seq<Row<V>>, part: nat, r: Row<V>)
    ensures r in Shard(rows, part) ==> r in rows
  {
    if rows != [] { ShardMembers(rows[..|rows| - 1], part, r); }
  }

  /** A flush cut short, and the rows of steps after t, leave what is kept at t alone. */
  lemma KeptAfterShard<V>(disk: seq<Row<V>>, buffer: seq<Row<V>>, part: nat, t: nat)
    requires forall i :: 0 <= i < |buffer| ==> buffer[i].step > t
    ensures Kept(disk + Shard(buffer, part), t) == Kept(disk, t)
  {
    var shard := Shard(buffer, part);
    forall i | 0 <= i < |shard| ensures shard[i].step > t { ShardMembers(buffer, part, shard[i]); }
    KeptNone(shard, t);
    KeptAppend(disk, shard, t);
  }

  lemma FlattenPush<V>(files: seq<seq<Row<V>>>, f: seq<Row<V>>)
    ensures Flatten(files + [f]) == Flatten(files) + f
  {
    assert (files + [f])[..|files|] == files;
  }

  lemma {:induction false} FlattenAppend<V>(a: seq<seq<Row<V>>>, b: seq<seq<Row<V>>>)
    ensures Flatten(a + b) == Flatten(a) + Flatten(b)
  {
    if b == [] {
      assert a + b == a;
    } else {
      var n := |b| - 1;
      FlattenAppend(a, b[..n]);
      FlattenPush(a + b[..n], b[n]);
      assert a + b == (a + b[..n]) + [b[n]];
    }
  }

  lemma FlattenAt<V>(files: seq<seq<Row<V>>>, i: nat, f: seq<Row<V>>)
    requires i < |files|
    ensures Flatten(files[i := f]) == Flatten(files[..i]) + f + Flatten(files[i + 1..])
  {
    FlattenPush(files[..i], f);
    FlattenAppend(files[..i] + [f], files[i + 1..]);
    assert files[i := f] == (files[..i] + [f]) + files[i + 1..];
  }

  /** Replacing one file by its retained rows keeps what is kept. */
  lemma KeptReplace<V>(files: seq<seq<Row<V>>>, i: nat, t: nat)
    requires i < |files|
    ensures Kept(Flatten(files[i := Kept(files[i], t)]), t) == Kept(Flatten(files), t)
  {
    var a, b := Flatten(files[..i]), Flatten(files[i + 1..]);
    FlattenAt(files, i, Kept(files[i], t));
    FlattenAt(files, i, files[i]);
    assert files[i := files[i]] == files;
    KeptAppend(a, Kept(files[i], t), t);
    KeptAppend(a + Kept(files[i], t), b, t);
    KeptAppend(a, files[i], t);
    KeptAppend(a + files[i], b, t);
    KeptIdempotent(files[i], t);
  }

  lemma {:induction false} FlattenSteps<V>(files: seq<seq<Row<V>>>, t: nat)
    requires forall k :: 0 <= k < |files| ==> Kept(files[k], t) == files[k]
    ensures Kept(Flatten(files), t) == Flatten(files)
  {
    if files != [] {
      var n := |files| - 1;
      FlattenSteps(files[..n], t);
      KeptAppend(Flatten(files[..n]), files[n], t);
    }
  }

  lemma {:induction false} KeptMembers<V>(rows: seq<Row<V>>, t: nat, r: Row<V>)
    ensures r in Kept(rows, t) ==> r in rows
  {
    if rows != [] { KeptMembers(rows[..|rows| - 1], t, r); }
  }

  lemma {:induction false} ShardsMembers<V>(rows: seq<Row<V>>, n: nat, r: Row<V>)
    ensures r in Shards(rows, n) ==> r in rows
  {
    hide Shard;
    if n > 0 {
      ShardsMembers(rows, n - 1, r);
      ShardMembers(rows, n - 1, r);
    }
  }

  /** Trimming a file adds no row. */
  lemma TrimMembers<V>(files: seq<seq<Row<V>>>, i: nat, t: nat, r: Row<V>)
    requires i < |files| && r in Flatten(files[i := Kept(files[i], t)])
    ensures r in Flatten(files)
  {
    hide Kept, Flatten;
    KeptMembers(files[i], t, r);
    FlattenAt(files, i, Kept(files[i], t));
    FlattenAt(files, i, files[i]);
    assert files[i := files[i]] == files;
  }

  // ---------------------------------------------------------------- why the generator is saved

  /** Builds k + 1 to n from state s. */
  function Resumed<S, V>(l: Learner<S, V>, s: S, k: nat, n: nat): S
    requires k <= n
  {
    if n == k then s else (l.next)(Resumed(l, s, k, n - 1), n)
  }

  lemma {:induction false} ResumesExactly<S, V>(l: Learner<S, V>, k: nat, n: nat)
    requires k <= n
    ensures Resumed(l, StateAt(l, k), k, n) == StateAt(l, n)
  {
    if k < n { ResumesExactly(l, k, n - 1); }
  }

  /** A learner that draws from its generator at every build. */
  function Drawing(): Learner<World<int, int>, int> {
    Learner(World(0, 0), (w: World<int, int>, t: nat) => World(w.agents + w.generator, w.generator + 1),
            (w: World<int, int>, t: nat, part: nat) => w.agents, 1)
  }

  /** A checkpoint of the agents alone, resumed with a fresh generator, leaves the uninterrupted run. */
  lemma GeneratorMatters()
    ensures var l := Drawing();
            Resumed(l, World(StateAt(l, 1).agents, l.initial.generator), 1, 2) != StateAt(l, 2)
  {
    var l := Drawing();
    assert StateAt(l, 0) == World(0, 0);
    assert StateAt(l, 1) == World(0, 1);
    assert StateAt(l, 2) == World(1, 2);
    assert Resumed(l, World(0, 0), 1, 1) == World(0, 0);
  }
}
