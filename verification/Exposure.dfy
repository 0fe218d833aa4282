/**
 Source-exposure accounting: importers and descriptive replays leave durable markers before they read
 outcomes, and a protected comparison copies every earlier marker into its audit log before it loads.
 */
module Exposure {
  import opened Basics

  type Pid = nat
  type SourceId = nat
  type Holdout = nat

  const MAX_ATTEMPTS: nat := 1024
  const MAX_MARKERS: nat := 1024
  const MAX_ACCESSES: nat := 512

  /** One marker file: a job or import-attempt identity and its invocation. */
  datatype Marker = Marker(identity: nat, invocation: nat)

  /** An access receipt names its position, from one, in a holdout's audit log. */
  datatype Receipt = Receipt(holdout: Holdout, sequence: nat)

  /** The log entry of a development access; source and marker say which exposure it was recorded for. */
  datatype Access = Development(source: SourceId, marker: Marker) | Protected

  datatype Source = Source(lock: Option<Pid>, markers: set<Marker>, maps: map<Marker, Receipt>)

  datatype ReaderPhase = Waiting | Locked | Marked | Cleared

  datatype Process =
    | Importer(source: SourceId, marker: Marker)
    | Reader(source: SourceId, marker: Marker, phase: ReaderPhase)
    | Evaluator(source: SourceId, holdout: Holdout, todo: seq<Marker>, seen: nat, pending: Option<Receipt>, loading: bool)

  /** accessed remembers which outcomes were read under which marker. */
  datatype System = System(sources: map<SourceId, Source>, logs: map<Holdout, seq<Access>>, attempts: set<nat>,
                           processes: map<Pid, Process>, accessed: set<(SourceId, Marker)>)
  {
    function Of(s: SourceId): Source { if s in sources then sources[s] else Source(None, {}, map[]) }

    function Log(h: Holdout): seq<Access> { if h in logs then logs[h] else [] }

    function With(s: SourceId, source: Source): System { this.(sources := sources[s := source]) }

    function Now(p: Pid, q: Process): System { this.(processes := processes[p := q]) }

    function Recorded(h: Holdout, a: Access): System { this.(logs := logs[h := Log(h) + [a]]) }

    /** The process ends; the kernel releases its source lock. */
    function Gone(p: Pid): System {
      if p !in processes then this
      else
        var s := processes[p].source;
        var freed := if Of(s).lock == Some(p) then With(s, Of(s).(lock := None)) else this;
        freed.(processes := processes - {p})
    }
  }

  datatype Step =
    | StartImport(p: Pid, source: SourceId, identity: nat)
    | ReserveAttempt(p: Pid)
    | StartReplay(p: Pid, source: SourceId, job: nat, invocation: nat)
    | TakeLock(p: Pid)
    | Mark(p: Pid)
    | ReleaseLock(p: Pid)
    | ReadOutcomes(p: Pid)
    | StartEvaluation(p: Pid, source: SourceId, holdout: Holdout, order: seq<Marker>)
    | CheckMap(p: Pid)
    | RecordAccess(p: Pid)
    | WriteMap(p: Pid)
    | Load(p: Pid)
    | Leave(p: Pid)

  predicate IsReader(s: System, p: Pid, phase: ReaderPhase) {
    p in s.processes && s.processes[p].Reader? && s.processes[p].phase == phase
  }

  predicate IsEvaluator(s: System, p: Pid) {
    p in s.processes && s.processes[p].Evaluator? && !s.processes[p].loading
  }

  predicate Listed(order: seq<Marker>, markers: set<Marker>) {
    && (forall m :: m in markers ==> m in order) && (forall i :: 0 <= i < |order| ==> order[i] in markers)
    && (forall i, j :: 0 <= i < j < |order| ==> order[i] != order[j])
  }

  predicate Can(s: System, e: Step) {
    match e
    case StartImport(p, _, _) => p !in s.processes
    case ReserveAttempt(p) => p in s.processes && s.processes[p].Importer?
    case StartReplay(p, _, _, _) => p !in s.processes
    case TakeLock(p) => IsReader(s, p, Waiting) && s.Of(s.processes[p].source).lock.None?
    case Mark(p) => IsReader(s, p, Locked)
    case ReleaseLock(p) => IsReader(s, p, Marked)
    case ReadOutcomes(p) => IsReader(s, p, Cleared)
    case StartEvaluation(p, source, _, order) =>
      p !in s.processes && s.Of(source).lock.None? && Listed(order, s.Of(source).markers)
      && |s.Of(source).markers| <= MAX_MARKERS
    case CheckMap(p) =>
      && IsEvaluator(s, p) && s.processes[p].todo != [] && s.processes[p].pending.None?
      && s.processes[p].todo[0] in s.Of(s.processes[p].source).maps
    case RecordAccess(p) =>
      && IsEvaluator(s, p) && s.processes[p].todo != [] && s.processes[p].pending.None?
      && s.processes[p].todo[0] !in s.Of(s.processes[p].source).maps
    case WriteMap(p) => IsEvaluator(s, p) && s.processes[p].todo != [] && s.processes[p].pending.Some?
    case Load(p) => IsEvaluator(s, p) && s.processes[p].todo == [] && s.processes[p].pending.None?
    case Leave(p) => p in s.processes
  }

  /** A receipt that an existing map names must stand in the audit history read at the start. */
  predicate InHistory(s: System, q: Process, r: Receipt)
    requires q.Evaluator?
  {
    r.holdout == q.holdout && 1 <= r.sequence <= q.seen && q.seen <= |s.Log(q.holdout)|
    && s.Log(q.holdout)[r.sequence - 1].Development?
  }

  function Do(s: System, e: Step): System
    requires Can(s, e)
  {
    match e
    case StartImport(p, source, identity) => s.Now(p, Importer(source, Marker(identity, 1)))
    case ReserveAttempt(p) =>
      var q := s.processes[p];
      if q.marker.identity !in s.attempts && |s.attempts| >= MAX_ATTEMPTS then s.Gone(p)
      else s.(attempts := s.attempts + {q.marker.identity}).Now(p, Reader(q.source, q.marker, Waiting))
    case StartReplay(p, source, job, invocation) => s.Now(p, Reader(source, Marker(job, invocation), Waiting))
    case TakeLock(p) =>
      var q := s.processes[p];
      s.With(q.source, s.Of(q.source).(lock := Some(p))).Now(p, q.(phase := Locked))
    case Mark(p) =>
      var q := s.processes[p];
      var scope := s.Of(q.source);
      if q.marker in scope.markers then s.Now(p, q.(phase := Marked))
      else if |scope.markers| >= MAX_MARKERS then s.Gone(p)
      else s.With(q.source, scope.(markers := scope.markers + {q.marker})).Now(p, q.(phase := Marked))
    case ReleaseLock(p) =>
      var q := s.processes[p];
      s.With(q.source, s.Of(q.source).(lock := None)).Now(p, q.(phase := Cleared))
    case ReadOutcomes(p) => s.(accessed := s.accessed + {(s.processes[p].source, s.processes[p].marker)})
    case StartEvaluation(p, source, holdout, order) =>
      s.With(source, s.Of(source).(lock := Some(p)))
       .Now(p, Evaluator(source, holdout, order, |s.Log(holdout)|, None, false))
    case CheckMap(p) =>
      var q := s.processes[p];
      if InHistory(s, q, s.Of(q.source).maps[q.todo[0]]) then s.Now(p, q.(todo := q.todo[1..])) else s.Gone(p)
    case RecordAccess(p) =>
      var q := s.processes[p];
      if |s.Log(q.holdout)| >= MAX_ACCESSES then s.Gone(p)
      else s.Recorded(q.holdout, Development(q.source, q.todo[0]))
            .Now(p, q.(pending := Some(Receipt(q.holdout, |s.Log(q.holdout)| + 1))))
    case WriteMap(p) =>
      var q := s.processes[p];
      var scope := s.Of(q.source);
      s.With(q.source, scope.(maps := scope.maps[q.todo[0] := q.pending.value]))
       .Now(p, q.(todo := q.todo[1..], pending := None))
    case Load(p) => s.Recorded(s.processes[p].holdout, Protected).Now(p, s.processes[p].(loading := true))
    case Leave(p) => s.Gone(p)
  }

  function Actor(e: Step): Pid {
    match e
    case StartImport(p, _, _) => p
    case ReserveAttempt(p) => p
    case StartReplay(p, _, _, _) => p
    case TakeLock(p) => p
    case Mark(p) => p
    case ReleaseLock(p) => p
    case ReadOutcomes(p) => p
    case StartEvaluation(p, _, _, _) => p
    case CheckMap(p) => p
    case RecordAccess(p) => p
    case WriteMap(p) => p
    case Load(p) => p
    case Leave(p) => p
  }

  // ---------------------------------------------------------------- the invariant

  predicate Holds(q: Process) { q.Evaluator? || (q.Reader? && q.phase in {Locked, Marked}) }

  /** The receipt names the access recorded for this marker of this source. */
  predicate Logged(s: System, r: Receipt, c: SourceId, m: Marker) {
    1 <= r.sequence <= |s.Log(r.holdout)| && s.Log(r.holdout)[r.sequence - 1] == Development(c, m)
  }

  ghost predicate Mapped(s: System, c: SourceId) {
    forall m :: m in s.Of(c).maps ==> Logged(s, s.Of(c).maps[m], c, m)
  }

  /** An evaluator has mapped into its holdout every marker it is not still going to look at. */
  ghost predicate Evaluating(s: System, q: Process)
    requires q.Evaluator?
  {
    && (forall m :: m in s.Of(q.source).markers ==>
          m in q.todo || (m in s.Of(q.source).maps && s.Of(q.source).maps[m].holdout == q.holdout))
    && (q.loading ==> q.todo == [] && q.pending.None?) && q.seen <= |s.Log(q.holdout)|
    && (forall i, j :: 0 <= i < j < |q.todo| ==> q.todo[i] != q.todo[j])
    && (q.pending.Some? ==>
          q.todo != [] && q.pending.value.holdout == q.holdout && Logged(s, q.pending.value, q.source, q.todo[0]))
  }

  /** A process holds its source's lock where it should, and marked before it cleared. */
  ghost predicate Working(s: System, p: Pid)
    requires p in s.processes
  {
    var q := s.processes[p];
    && (Holds(q) ==> s.Of(q.source).lock == Some(p))
    && (q.Reader? && q.phase in {Marked, Cleared} ==> q.marker in s.Of(q.source).markers)
    && (q.Evaluator? ==> Evaluating(s, q))
  }

  /** Every map entry names the access recorded for it, and every read outcome was marked. */
  ghost predicate Books(s: System) {
    && (forall c :: c in s.sources ==> Mapped(s, c))
    && (forall a :: a in s.accessed ==> a.1 in s.Of(a.0).markers)
  }

  ghost predicate Inv(s: System) {
    Books(s) && forall p :: p in s.processes ==> Working(s, p)
  }

  /** What one step leaves alone: other processes, sources it does not hold, and everything already logged. */
  ghost predicate Frame(s: System, a: Pid, s': System) {
    && (forall p :: p in s'.processes && p != a ==> p in s.processes && s'.processes[p] == s.processes[p])
    && (forall c :: s'.Of(c) == s.Of(c) || s.Of(c).lock in {None, Some(a)})
    && (forall c :: s.Of(c).markers <= s'.Of(c).markers)
    && (forall h :: s.Log(h) <= s'.Log(h))
  }

  lemma MappedStays(s: System, s': System, c: SourceId)
    requires Mapped(s, c) && s'.Of(c).maps == s.Of(c).maps && forall h :: s.Log(h) <= s'.Log(h)
    ensures Mapped(s', c)
  {
    forall m | m in s'.Of(c).maps ensures Logged(s', s'.Of(c).maps[m], c, m) {
      assert Logged(s, s.Of(c).maps[m], c, m);
      assert s.Log(s.Of(c).maps[m].holdout) <= s'.Log(s.Of(c).maps[m].holdout);
    }
  }

  lemma GoneFrame(s: System, a: Pid)
    requires Books(s)
    ensures Frame(s, a, s.Gone(a)) && Books(s.Gone(a))
  {
    forall c | c in s.Gone(a).sources ensures Mapped(s.Gone(a), c) {
      if c in s.sources { MappedStays(s, s.Gone(a), c); }
    }
  }

  lemma NowFrame(s: System, a: Pid, q: Process)
    requires Books(s)
    ensures Frame(s, a, s.Now(a, q)) && Books(s.Now(a, q))
  {
    forall c | c in s.sources ensures Mapped(s.Now(a, q), c) { MappedStays(s, s.Now(a, q), c); }
  }

  lemma SourceFrame(s: System, a: Pid, c: SourceId, source: Source, q: Process)
    requires Books(s) && s.Of(c).lock in {None, Some(a)} && s.Of(c).markers <= source.markers
    requires forall m :: m in source.maps ==> Logged(s, source.maps[m], c, m)
    ensures Frame(s, a, s.With(c, source).Now(a, q)) && Books(s.With(c, source).Now(a, q))
  {
    var s' := s.With(c, source).Now(a, q);
    forall d | d in s'.sources ensures Mapped(s', d) {
      if d != c {
        MappedStays(s, s', d);
      } else {
        forall m | m in source.maps ensures Logged(s', source.maps[m], c, m) { assert Logged(s, source.maps[m], c, m); }
      }
    }
  }

  lemma LogFrame(s: System, a: Pid, h: Holdout, x: Access, q: Process)
    requires Books(s)
    ensures Frame(s, a, s.Recorded(h, x).Now(a, q)) && Books(s.Recorded(h, x).Now(a, q))
  {
    var s' := s.Recorded(h, x).Now(a, q);
    forall d | d in s'.sources ensures Mapped(s', d) { MappedStays(s, s', d); }
  }

  lemma OfMapped(s: System, c: SourceId)
    requires Books(s)
    ensures Mapped(s, c)
  {
    if c !in s.sources {}
  }

  lemma StepFrame(s: System, e: Step)
    requires Inv(s) && Can(s, e)
    ensures Frame(s, Actor(e), Do(s, e)) && Books(Do(s, e))
  {
    hide Frame, Books, Evaluating;
    var a := Actor(e);
    GoneFrame(s, a);
    if a in s.processes { assert Working(s, a); OfMapped(s, s.processes[a].source); }
    match e
    case StartImport(p, source, identity) => NowFrame(s, a, Importer(source, Marker(identity, 1)));
    case ReserveAttempt(p) => AttemptFrame(s, p);
    case StartReplay(p, source, job, invocation) => NowFrame(s, a, Reader(source, Marker(job, invocation), Waiting));
    case TakeLock(p) =>
      var q := s.processes[p];
      SourceFrame(s, a, q.source, s.Of(q.source).(lock := Some(p)), q.(phase := Locked));
    case Mark(p) =>
      var q := s.processes[p];
      var scope := s.Of(q.source);
      NowFrame(s, a, q.(phase := Marked));
      SourceFrame(s, a, q.source, scope.(markers := scope.markers + {q.marker}), q.(phase := Marked));
    case ReleaseLock(p) =>
      var q := s.processes[p];
      SourceFrame(s, a, q.source, s.Of(q.source).(lock := None), q.(phase := Cleared));
    case ReadOutcomes(p) => ReadFrame(s, p);
    case StartEvaluation(p, source, holdout, order) =>
      OfMapped(s, source);
      SourceFrame(s, a, source, s.Of(source).(lock := Some(p)),
                  Evaluator(source, holdout, order, |s.Log(holdout)|, None, false));
    case CheckMap(p) => NowFrame(s, a, s.processes[p].(todo := s.processes[p].todo[1..]));
    case RecordAccess(p) =>
      var q := s.processes[p];
      LogFrame(s, a, q.holdout, Development(q.source, q.todo[0]),
               q.(pending := Some(Receipt(q.holdout, |s.Log(q.holdout)| + 1))));
    case WriteMap(p) => MapFrame(s, p);
    case Load(p) => LogFrame(s, a, s.processes[p].holdout, Protected, s.processes[p].(loading := true));
    case Leave(p) =>
  }

  lemma AttemptFrame(s: System, p: Pid)
    requires Books(s) && Can(s, ReserveAttempt(p))
    ensures Frame(s, p, Do(s, ReserveAttempt(p))) && Books(Do(s, ReserveAttempt(p)))
  {
    var s' := Do(s, ReserveAttempt(p));
    GoneFrame(s, p);
    if s' != s.Gone(p) { forall c | c in s'.sources ensures Mapped(s', c) { MappedStays(s, s', c); } }
  }

  lemma ReadFrame(s: System, p: Pid)
    requires Books(s) && Can(s, ReadOutcomes(p)) && Working(s, p)
    ensures Frame(s, p, Do(s, ReadOutcomes(p))) && Books(Do(s, ReadOutcomes(p)))
  {
    var s' := Do(s, ReadOutcomes(p));
    forall c | c in s'.sources ensures Mapped(s', c) { MappedStays(s, s', c); }
  }

  lemma MapFrame(s: System, p: Pid)
    requires Books(s) && Can(s, WriteMap(p)) && Working(s, p)
    ensures Frame(s, p, Do(s, WriteMap(p))) && Books(Do(s, WriteMap(p)))
  {
    hide Frame, Books;
    var q := s.processes[p];
    var scope := s.Of(q.source);
    OfMapped(s, q.source);
    SourceFrame(s, p, q.source, scope.(maps := scope.maps[q.todo[0] := q.pending.value]),
                q.(todo := q.todo[1..], pending := None));
  }

  lemma OthersWork(s: System, a: Pid, s': System, p: Pid)
    requires Frame(s, a, s') && p in s'.processes && p != a && Working(s, p)
    ensures Working(s', p)
  {}

  lemma RecordWorks(s: System, p: Pid)
    requires Can(s, RecordAccess(p)) && Working(s, p) && p in Do(s, RecordAccess(p)).processes
    ensures Working(Do(s, RecordAccess(p)), p)
  {
    var q, s' := s.processes[p], Do(s, RecordAccess(p));
    assert s'.Of(q.source) == s.Of(q.source);
  }

  lemma MapWorks(s: System, p: Pid)
    requires Can(s, WriteMap(p)) && Working(s, p)
    ensures Working(Do(s, WriteMap(p)), p)
  {
    var q, s' := s.processes[p], Do(s, WriteMap(p));
    assert q.todo == [q.todo[0]] + q.todo[1..];
    assert s'.Of(q.source).maps == s.Of(q.source).maps[q.todo[0] := q.pending.value];
  }

  lemma CheckWorks(s: System, p: Pid)
    requires Can(s, CheckMap(p)) && Working(s, p) && p in Do(s, CheckMap(p)).processes
    ensures Working(Do(s, CheckMap(p)), p)
  {
    var q, s' := s.processes[p], Do(s, CheckMap(p));
    assert q.todo == [q.todo[0]] + q.todo[1..];
    assert s'.Of(q.source) == s.Of(q.source);
  }

  lemma ActorWorks(s: System, e: Step)
    requires Inv(s) && Can(s, e) && Actor(e) in Do(s, e).processes
    ensures Working(Do(s, e), Actor(e))
  {
    if Actor(e) in s.processes { assert Working(s, Actor(e)); }
    match e
    case CheckMap(p) => CheckWorks(s, p);
    case RecordAccess(p) => RecordWorks(s, p);
    case WriteMap(p) => MapWorks(s, p);
    case _ =>
  }

  lemma StepKeeps(s: System, e: Step)
    requires Inv(s) && Can(s, e)
    ensures Inv(Do(s, e))
  {
    hide Books, Working, Do, Can;
    StepFrame(s, e);
    forall p | p in Do(s, e).processes ensures Working(Do(s, e), p) {
      if p == Actor(e) { ActorWorks(s, e); } else { OthersWork(s, Actor(e), Do(s, e), p); }
    }
  }

  ghost predicate Runs(s: System, es: seq<Step>, s': System)
    decreases |es|
  {
    if es == [] then s == s' else Can(s, es[0]) && Runs(Do(s, es[0]), es[1..], s')
  }

  predicate Initial(s: System) { s == System(map[], map[], {}, map[], {}) }

  lemma {:induction false} RunKeeps(s: System, es: seq<Step>, s': System)
    requires Inv(s) && Runs(s, es, s')
    ensures Inv(s')
    decreases |es|
  {
    hide Inv, Do, Can;
    if es != [] {
      StepKeeps(s, es[0]);
      RunKeeps(Do(s, es[0]), es[1..], s');
    }
  }

  // ---------------------------------------------------------------- what is promised

  /** In every run with crashes, an imported or replayed outcome is read only under a marker that is already
      durable. */
  lemma ReadsAreMarked(s0: System, es: seq<Step>, s: System, p: Pid)
    requires Initial(s0) && Runs(s0, es, s)
    ensures Can(s, ReadOutcomes(p)) ==> s.processes[p].marker in s.Of(s.processes[p].source).markers
    ensures forall a :: a in s.accessed ==> a.1 in s.Of(a.0).markers
  {
    hide Evaluating, Mapped;
    RunKeeps(s0, es, s);
    if Can(s, ReadOutcomes(p)) { assert Working(s, p); }
  }

  /** Markers, maps and audit entries are never lost. */
  lemma {:induction false} NothingForgotten(s: System, es: seq<Step>, s': System, c: SourceId, h: Holdout)
    requires Inv(s) && Runs(s, es, s')
    ensures s.Of(c).markers <= s'.Of(c).markers && s.Log(h) <= s'.Log(h)
    decreases |es|
  {
    hide Mapped, Working, Do, Can;
    if es != [] {
      StepFrame(s, es[0]);
      StepKeeps(s, es[0]);
      NothingForgotten(Do(s, es[0]), es[1..], s', c, h);
    }
  }

  /** Each marker of source c has its own entry in holdout h's log. */
  ghost predicate Counted(s: System, c: SourceId, h: Holdout) {
    forall m :: m in s.Of(c).markers ==>
      && m in s.Of(c).maps && s.Of(c).maps[m].holdout == h && Logged(s, s.Of(c).maps[m], c, m)
      && forall n :: n in s.Of(c).markers && n in s.Of(c).maps && n != m ==>
           s.Of(c).maps[n].sequence != s.Of(c).maps[m].sequence
  }

  /** When protected loading starts, under the source lock, the holdout's log already holds a distinct
      development access for every marker of the source, however many earlier evaluators died midway. */
  lemma LoadCountsExposure(s0: System, es: seq<Step>, s: System, p: Pid)
    requires Initial(s0) && Runs(s0, es, s) && Can(s, Load(p))
    ensures s.Of(s.processes[p].source).lock == Some(p)
    ensures Counted(s, s.processes[p].source, s.processes[p].holdout)
    ensures |s.Of(s.processes[p].source).markers| <= |s.Log(s.processes[p].holdout)|
  {
    RunKeeps(s0, es, s);
    assert Working(s, p);
    var c, h := s.processes[p].source, s.processes[p].holdout;
    AllCounted(s, c, h);
    CountMarkers(s, c, h, s.Of(c).markers, {});
  }

  lemma AllCounted(s: System, c: SourceId, h: Holdout)
    requires Inv(s)
    requires forall m :: m in s.Of(c).markers ==> m in s.Of(c).maps && s.Of(c).maps[m].holdout == h
    ensures Counted(s, c, h)
  {
    hide Working;
    if c in s.sources { assert Mapped(s, c); }
    forall m | m in s.Of(c).markers ensures Logged(s, s.Of(c).maps[m], c, m) {}
  }

  lemma {:induction false} CountMarkers(s: System, c: SourceId, h: Holdout, rest: set<Marker>, used: set<nat>)
    requires Counted(s, c, h) && rest <= s.Of(c).markers
    requires forall x :: x in used ==> 1 <= x <= |s.Log(h)|
    requires forall m :: m in rest ==> s.Of(c).maps[m].sequence !in used
    ensures |rest| + |used| <= |s.Log(h)|
    decreases |rest|
  {
    if rest == {} {
      UpperBound(used, |s.Log(h)|);
    } else {
      var m :| m in rest;
      CountMarkers(s, c, h, rest - {m}, used + {s.Of(c).maps[m].sequence});
    }
  }

  lemma {:induction false} UpperBound(used: set<nat>, n: nat)
    requires forall x :: x in used ==> 1 <= x <= n
    ensures |used| <= n
    decreases n
  {
    if n == 0 {
      assert used == {};
    } else {
      UpperBound(used - {n}, n - 1);
    }
  }

  /** At most 1024 import attempts are ever reserved, and each keeps its slot. */
  lemma {:induction false} AttemptsBounded(s: System, es: seq<Step>, s': System)
    requires |s.attempts| <= MAX_ATTEMPTS && Runs(s, es, s')
    ensures |s'.attempts| <= MAX_ATTEMPTS && s.attempts <= s'.attempts
    decreases |es|
  {
    if es != [] {
      AttemptStep(s, es[0]);
      AttemptsBounded(Do(s, es[0]), es[1..], s');
    }
  }

  lemma AttemptStep(s: System, e: Step)
    requires |s.attempts| <= MAX_ATTEMPTS && Can(s, e)
    ensures |Do(s, e).attempts| <= MAX_ATTEMPTS && s.attempts <= Do(s, e).attempts
  {
    if e.ReserveAttempt? && s.processes[e.p].marker.identity in s.attempts {
      assert s.attempts + {s.processes[e.p].marker.identity} == s.attempts;
    }
  }

  /** Marking does not stop a reader: when the source lock is free and the source has room for its marker, a
      replay can go on to read the outcomes, under its own marker and with the lock free again. */
  lemma ReplayProceeds(s: System, p: Pid, source: SourceId, job: nat, invocation: nat) returns (es: seq<Step>, d: System)
    requires p !in s.processes && s.Of(source).lock.None?
    requires Marker(job, invocation) in s.Of(source).markers || |s.Of(source).markers| < 1024
    ensures Runs(s, es, d) && (source, Marker(job, invocation)) in d.accessed
    ensures d.Of(source).lock.None? && d.Of(source).markers == s.Of(source).markers + {Marker(job, invocation)}
  {
    hide Do, Can, Runs;
    Standing(s);
    Waits(s, p, source, job, invocation);
    es, d := [] + [StartReplay(p, source, job, invocation)], Do(s, StartReplay(p, source, job, invocation));
    RunsOnward(s, [], s, StartReplay(p, source, job, invocation));
    Marks(d, p);
    RunsOnward(s, es, d, TakeLock(p));
    es, d := es + [TakeLock(p)], Do(d, TakeLock(p));
    RunsOnward(s, es, d, Mark(p));
    es, d := es + [Mark(p)], Do(d, Mark(p));
    RunsOnward(s, es, d, ReleaseLock(p));
    es, d := es + [ReleaseLock(p)], Do(d, ReleaseLock(p));
    RunsOnward(s, es, d, ReadOutcomes(p));
    es, d := es + [ReadOutcomes(p)], Do(d, ReadOutcomes(p));
  }

  lemma Waits(s: System, p: Pid, source: SourceId, job: nat, invocation: nat)
    requires p !in s.processes
    ensures Can(s, StartReplay(p, source, job, invocation))
    ensures var d := Do(s, StartReplay(p, source, job, invocation));
            && IsReader(d, p, Waiting) && d.processes[p].source == source
            && d.processes[p].marker == Marker(job, invocation) && d.Of(source) == s.Of(source)
  {}

  /** A waiting reader with room for its marker takes the lock, marks, lets go and reads. */
  lemma Marks(s: System, p: Pid)
    requires IsReader(s, p, Waiting) && s.Of(s.processes[p].source).lock.None?
    requires s.processes[p].marker in s.Of(s.processes[p].source).markers
             || |s.Of(s.processes[p].source).markers| < 1024
    ensures Can(s, TakeLock(p)) && Can(Do(s, TakeLock(p)), Mark(p))
    ensures var s2 := Do(Do(s, TakeLock(p)), Mark(p));
            && Can(s2, ReleaseLock(p)) && Can(Do(s2, ReleaseLock(p)), ReadOutcomes(p))
            && var d := Do(Do(s2, ReleaseLock(p)), ReadOutcomes(p));
            && (s.processes[p].source, s.processes[p].marker) in d.accessed
            && d.Of(s.processes[p].source).lock.None?
            && d.Of(s.processes[p].source).markers == s.Of(s.processes[p].source).markers + {s.processes[p].marker}
  {}

  // ---------------------------------------------------------------- the synchronising loop

  lemma {:induction false} RunsOnward(s: System, es: seq<Step>, mid: System, e: Step)
    requires Runs(s, es, mid) && Can(mid, e)
    ensures Runs(s, es + [e], Do(mid, e))
    decreases |es|
  {
    hide Can, Do;
    if es == [] {
      assert Runs(Do(s, e), [], Do(s, e));
      assert (es + [e])[1..] == [];
    } else {
      RunsOnward(Do(s, es[0]), es[1..], mid, e);
      assert (es + [e])[1..] == es[1..] + [e];
    }
  }

  class Workspace {
    var world: System

    constructor ()
      ensures Initial(world) && Inv(world)
    {
      world := System(map[], map[], {}, map[], {});
    }

    /** Copies every exposure of the source into the holdout's audit, one map file at a time. It succeeds
        exactly when every existing map names an access of this audit and the audit has room for the others,
        and then the audit has gained one development access for each marker without a map, in order, and
        protected loading may start. Otherwise the evaluator ends. */
    method Synchronize(p: Pid) returns (ok: bool, ghost steps: seq<Step>)
      requires Inv(world) && IsEvaluator(world, p) && world.processes[p].pending.None?
      modifies this
      ensures Inv(world) && Runs(old(world), steps, world)
      ensures ok <==> Admissible(old(world), old(world).processes[p])
      ensures ok ==> Can(world, Load(p)) && world.processes[p].holdout == old(world).processes[p].holdout
      ensures ok ==> Counted(world, world.processes[p].source, world.processes[p].holdout)
      ensures ok ==>
                var q := old(world).processes[p];
                world.Log(q.holdout) == old(world).Log(q.holdout)
                                        + Accesses(q.source, Unmapped(q.todo, old(world).Of(q.source).maps))
      ensures !ok ==> p !in world.processes
    {
      hide Inv, Runs, Counted, Can, Do, InHistory, Accesses, Unmapped;
      steps := [];
      Standing(world);
      ghost var s0, q0 := world, world.processes[p];
      ghost var k := 0;
      Starting(s0, p);
      while world.processes[p].todo != []
        invariant Inv(world) && Runs(s0, steps, world) && Copied(s0, world, p, k)
        decreases |world.processes[p].todo|
      {
        ghost var before := world;
        if world.processes[p].todo[0] in world.Of(world.processes[p].source).maps {
          Checked(s0, world, p, k);
          StepKeeps(world, CheckMap(p));
          RunsOnward(s0, steps, world, CheckMap(p));
          steps := steps + [CheckMap(p)];
          world := Do(world, CheckMap(p));
          if p !in world.processes { return false, steps; }
        } else {
          Written(s0, world, p, k);
          StepKeeps(world, RecordAccess(p));
          RunsOnward(s0, steps, world, RecordAccess(p));
          steps := steps + [RecordAccess(p)];
          world := Do(world, RecordAccess(p));
          if p !in world.processes { return false, steps; }
          StepKeeps(world, WriteMap(p));
          RunsOnward(s0, steps, world, WriteMap(p));
          steps := steps + [WriteMap(p)];
          world := Do(world, WriteMap(p));
        }
        k := k + 1;
      }
      ok := true;
      AllCopied(s0, world, p, k);
      Synchronized(world, p);
    }
  }

  /** The markers that have no map yet, in order. */
  function Unmapped(todo: seq<Marker>, maps: map<Marker, Receipt>): seq<Marker> {
    if todo == [] then []
    else Unmapped(todo[..|todo| - 1], maps)
         + if todo[|todo| - 1] in maps then [] else [todo[|todo| - 1]]
  }

  function Accesses(source: SourceId, markers: seq<Marker>): seq<Access> {
    seq(|markers|, i requires 0 <= i < |markers| => Development(source, markers[i]))
  }

  /** An access receipt of the audit that the evaluator read when it started. */
  predicate OfThisAudit(s: System, q: Process, r: Receipt)
    requires q.Evaluator?
  {
    && r.holdout == q.holdout && 1 <= r.sequence <= q.seen <= |s.Log(q.holdout)|
    && s.Log(q.holdout)[r.sequence - 1].Development?
  }

  /** Every marker that has a map is mapped into this audit, and the others fit into its 512 accesses. */
  predicate Admissible(s: System, q: Process)
    requires q.Evaluator?
  {
    && (forall i :: 0 <= i < |q.todo| && q.todo[i] in s.Of(q.source).maps ==>
          OfThisAudit(s, q, s.Of(q.source).maps[q.todo[i]]))
    && (Unmapped(q.todo, s.Of(q.source).maps) == []
        || |s.Log(q.holdout)| + |Unmapped(q.todo, s.Of(q.source).maps)| <= 512)
  }

  /** Of the markers process p set out with in state s0, the first k have been looked at and copied. */
  ghost predicate Copied(s0: System, s: System, p: Pid, k: nat) {
    && IsEvaluator(s0, p) && IsEvaluator(s, p) && s.processes[p].pending.None?
    && var q0, q := s0.processes[p], s.processes[p];
    && q.source == q0.source && q.holdout == q0.holdout && q.seen == q0.seen <= |s0.Log(q0.holdout)|
    && k <= |q0.todo| && q.todo == q0.todo[k..]
    && (forall i, j :: 0 <= i < j < |q0.todo| ==> q0.todo[i] != q0.todo[j])
    && (forall i :: k <= i < |q0.todo| ==>
          && (q0.todo[i] in s.Of(q.source).maps <==> q0.todo[i] in s0.Of(q.source).maps)
          && (q0.todo[i] in s0.Of(q.source).maps ==>
                s.Of(q.source).maps[q0.todo[i]] == s0.Of(q.source).maps[q0.todo[i]]))
    && (forall i :: 0 <= i < k && q0.todo[i] in s0.Of(q.source).maps ==>
          OfThisAudit(s0, q0, s0.Of(q.source).maps[q0.todo[i]]))
    && s.Log(q.holdout) == s0.Log(q.holdout) + Accesses(q.source, Unmapped(q0.todo[..k], s0.Of(q.source).maps))
    && |s.Log(q.holdout)| <= Most(512, |s0.Log(q.holdout)|)
  }

  function Most(a: nat, b: nat): nat { if a < b then b else a }

  lemma Starting(s: System, p: Pid)
    requires Inv(s) && IsEvaluator(s, p) && s.processes[p].pending.None?
    ensures Copied(s, s, p, 0)
  {
    assert Working(s, p);
    assert s.processes[p].todo[..0] == [] && s.processes[p].todo[0..] == s.processes[p].todo;
  }

  lemma UnmappedNext(todo: seq<Marker>, maps: map<Marker, Receipt>, k: nat)
    requires k < |todo|
    ensures Unmapped(todo[..k + 1], maps) == Unmapped(todo[..k], maps) + if todo[k] in maps then [] else [todo[k]]
  {
    assert todo[..k + 1][..k] == todo[..k];
  }

  lemma {:induction false} UnmappedGrows(todo: seq<Marker>, maps: map<Marker, Receipt>, k: nat)
    requires k <= |todo|
    ensures |Unmapped(todo[..k], maps)| <= |Unmapped(todo, maps)|
  {
    if k < |todo| {
      var n := |todo| - 1;
      assert todo[..n][..k] == todo[..k];
      UnmappedGrows(todo[..n], maps, k);
    } else {
      assert todo[..k] == todo;
    }
  }

  lemma Checked(s0: System, s: System, p: Pid, k: nat)
    requires Copied(s0, s, p, k) && s.processes[p].todo != []
    requires s.processes[p].todo[0] in s.Of(s.processes[p].source).maps
    ensures Can(s, CheckMap(p))
    ensures var s' := Do(s, CheckMap(p));
            if p in s'.processes then Copied(s0, s', p, k + 1) else !Admissible(s0, s0.processes[p])
  {
    hide Unmapped, Accesses;
    var q0, q := s0.processes[p], s.processes[p];
    var r := s.Of(q.source).maps[q.todo[0]];
    assert q.todo[0] == q0.todo[k] && r == s0.Of(q.source).maps[q0.todo[k]];
    assert InHistory(s, q, r) <==> OfThisAudit(s0, q0, r);
    UnmappedNext(q0.todo, s0.Of(q.source).maps, k);
    assert q0.todo[k..][1..] == q0.todo[k + 1..];
    assert Unmapped(q0.todo[..k + 1], s0.Of(q.source).maps) == Unmapped(q0.todo[..k], s0.Of(q.source).maps);
  }

  /** Recording an access and writing its map, when the audit has room. */
  lemma Recording(s: System, p: Pid)
    requires Can(s, RecordAccess(p))
    ensures var q, s' := s.processes[p], Do(s, RecordAccess(p));
            if |s.Log(q.holdout)| >= 512 then p !in s'.processes
            else
              && Can(s', WriteMap(p))
              && var s2 := Do(s', WriteMap(p));
              && s2.processes[p] == q.(todo := q.todo[1..], pending := None) && p in s2.processes
              && s2.Of(q.source).maps == s.Of(q.source).maps[q.todo[0] := Receipt(q.holdout, |s.Log(q.holdout)| + 1)]
              && s2.Log(q.holdout) == s.Log(q.holdout) + [Development(q.source, q.todo[0])]
  {}

  lemma Written(s0: System, s: System, p: Pid, k: nat)
    requires Copied(s0, s, p, k) && s.processes[p].todo != []
    requires s.processes[p].todo[0] !in s.Of(s.processes[p].source).maps
    ensures Can(s, RecordAccess(p))
    ensures var s' := Do(s, RecordAccess(p));
            if p in s'.processes then Can(s', WriteMap(p)) && Copied(s0, Do(s', WriteMap(p)), p, k + 1)
            else !Admissible(s0, s0.processes[p])
  {
    Recording(s, p);
    hide Do, Unmapped, Accesses;
    if |s.Log(s.processes[p].holdout)| >= 512 {
      NoRoom(s0, s, p, k);
    } else {
      var q := s.processes[p];
      CopiedNext(s0, s, Do(Do(s, RecordAccess(p)), WriteMap(p)), p, k, Receipt(q.holdout, |s.Log(q.holdout)| + 1));
    }
  }

  lemma NoRoom(s0: System, s: System, p: Pid, k: nat)
    requires Copied(s0, s, p, k) && s.processes[p].todo != []
    requires s.processes[p].todo[0] !in s.Of(s.processes[p].source).maps && |s.Log(s.processes[p].holdout)| >= 512
    ensures !Admissible(s0, s0.processes[p])
  {
    var q0 := s0.processes[p];
    var maps0 := s0.Of(q0.source).maps;
    assert s.processes[p].todo[0] == q0.todo[k] && q0.todo[k] !in maps0;
    UnmappedNext(q0.todo, maps0, k);
    UnmappedGrows(q0.todo, maps0, k + 1);
    hide Unmapped;
    AccessPush(q0.source, Unmapped(q0.todo[..k], maps0), q0.todo[k]);
    hide Accesses;
  }

  lemma CopiedNext(s0: System, s: System, s2: System, p: Pid, k: nat, r: Receipt)
    requires Copied(s0, s, p, k) && s.processes[p].todo != [] && p in s2.processes
    requires s.processes[p].todo[0] !in s.Of(s.processes[p].source).maps && |s.Log(s.processes[p].holdout)| < 512
    requires s2.processes[p] == s.processes[p].(todo := s.processes[p].todo[1..], pending := None)
    requires var q := s.processes[p];
             && s2.Of(q.source).maps == s.Of(q.source).maps[q.todo[0] := r]
             && s2.Log(q.holdout) == s.Log(q.holdout) + [Development(q.source, q.todo[0])]
    ensures Copied(s0, s2, p, k + 1)
  {
    var q0, q := s0.processes[p], s.processes[p];
    var maps0 := s0.Of(q.source).maps;
    assert q.todo[0] == q0.todo[k] && q0.todo[k] !in maps0;
    UnmappedNext(q0.todo, maps0, k);
    hide Unmapped, OfThisAudit;
    assert q0.todo[k..][1..] == q0.todo[k + 1..];
    var done := Unmapped(q0.todo[..k], maps0);
    AccessPush(q.source, done, q0.todo[k]);
    hide Accesses;
    Regroup(s0.Log(q.holdout), Accesses(q.source, done), [Development(q.source, q0.todo[k])]);
  }

  lemma Regroup(a: seq<Access>, b: seq<Access>, c: seq<Access>)
    ensures a + b + c == a + (b + c)
  {}

  lemma AccessPush(source: SourceId, done: seq<Marker>, m: Marker)
    ensures Accesses(source, done + [m]) == Accesses(source, done) + [Development(source, m)]
    ensures |Accesses(source, done)| == |done|
  {}

  lemma AllCopied(s0: System, s: System, p: Pid, k: nat)
    requires Copied(s0, s, p, k) && s.processes[p].todo == []
    ensures Admissible(s0, s0.processes[p]) && Can(s, Load(p))
    ensures var q := s0.processes[p];
            s.Log(q.holdout) == s0.Log(q.holdout) + Accesses(q.source, Unmapped(q.todo, s0.Of(q.source).maps))
  {
    var q0 := s0.processes[p];
    assert k == |q0.todo| && q0.todo[..k] == q0.todo;
  }

  lemma Standing(s: System)
    ensures Runs(s, [], s)
  {}

  lemma Synchronized(s: System, p: Pid)
    requires Inv(s) && Can(s, Load(p))
    ensures Counted(s, s.processes[p].source, s.processes[p].holdout)
  {
    assert Working(s, p);
    AllCounted(s, s.processes[p].source, s.processes[p].holdout);
  }
}
