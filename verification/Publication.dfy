/** Immutable publication: any number of writers race to link complete bytes to one final path. */
module Publication {
  import opened Basics

  type Bytes = seq<bv8>

  const CHUNK: nat := 65536

  // ---------------------------------------------------------------- comparing files in chunks

  function Upto(s: Bytes, n: nat): Bytes { if n < |s| then s[..n] else s }

  /** What one read of at most CHUNK bytes at this offset returns. */
  function ReadAt(s: Bytes, offset: nat): Bytes {
    var rest := if offset < |s| then s[offset..] else [];
    Upto(rest, CHUNK)
  }

  lemma ReadExtends(s: Bytes, t: Bytes, offset: nat)
    requires Upto(s, offset) == Upto(t, offset) && ReadAt(s, offset) == ReadAt(t, offset)
    ensures Upto(s, offset + CHUNK) == Upto(t, offset + CHUNK)
    ensures ReadAt(s, offset) == [] ==> s == t
  {
    assert Upto(s, offset + CHUNK) == Upto(s, offset) + ReadAt(s, offset);
    assert Upto(t, offset + CHUNK) == Upto(t, offset) + ReadAt(t, offset);
  }

  lemma ReadDiffers(s: Bytes, t: Bytes, offset: nat)
    ensures ReadAt(s, offset) != ReadAt(t, offset) ==> s != t
  {}

  /** The chunked loop decides equality of the complete contents. */
  method SameFileBytes(left: Bytes, right: Bytes) returns (same: bool)
    ensures same <==> left == right
  {
    var offset := 0;
    while true
      invariant Upto(left, offset) == Upto(right, offset)
      decreases |left| + CHUNK - offset
    {
      var chunk := ReadAt(left, offset);
      if chunk != ReadAt(right, offset) {
        ReadDiffers(left, right, offset);
        return false;
      }
      ReadExtends(left, right, offset);
      if chunk == [] { return true; }
      offset := offset + CHUNK;
    }
  }

  // ---------------------------------------------------------------- one writer

  datatype Published = Written(bytes: Bytes) | OverLimit | Conflicting

  function Concat(chunks: seq<Bytes>): Bytes {
    if chunks == [] then [] else Concat(chunks[..|chunks| - 1]) + chunks[|chunks| - 1]
  }

  /** The final path of one artifact, seen by one writer at a time. */
  class FinalPath {
    var bytes: Option<Bytes>

    constructor ()
      ensures bytes == None
    {
      bytes := None;
    }

    /** Streams the chunks into a temporary file, then links it or compares it with what is there. */
    method WriteImmutableStream(chunks: seq<Bytes>, maximum: nat) returns (r: Published)
      modifies this
      ensures r == (if |Concat(chunks)| > maximum then OverLimit
                    else if old(bytes) in {None, Some(Concat(chunks))} then Written(Concat(chunks)) else Conflicting)
      ensures bytes == if r.Written? then Some(Concat(chunks)) else old(bytes)
    {
      var temporary: Bytes := [];
      var total, i := 0, 0;
      while i < |chunks|
        invariant 0 <= i <= |chunks| && temporary == Concat(chunks[..i])
        invariant total == |temporary| <= maximum && bytes == old(bytes)
      {
        assert chunks[..i + 1][..i] == chunks[..i];
        Growing(chunks, i + 1);
        total := total + |chunks[i]|;
        if total > maximum { return OverLimit; }
        temporary := temporary + chunks[i];
        i := i + 1;
      }
      assert chunks[..|chunks|] == chunks;
      if bytes.None? {
        bytes := Some(temporary);
        return Written(temporary);
      }
      var same := SameFileBytes(bytes.value, temporary);
      r := if same then Written(temporary) else Conflicting;
    }
  }

  lemma {:induction false} Growing(chunks: seq<Bytes>, i: nat)
    requires i <= |chunks|
    ensures |Concat(chunks[..i])| <= |Concat(chunks)|
    decreases |chunks|
  {
    if i < |chunks| {
      var n := |chunks| - 1;
      assert chunks[..n][..i] == chunks[..i];
      Growing(chunks[..n], i);
    } else {
      assert chunks[..i] == chunks;
    }
  }

  // ---------------------------------------------------------------- concurrent writers

  /** A writer streams its content into its own temporary file, then links or compares. */
  datatype Phase = Streaming | Synced | Comparing(offset: nat) | Returned | Raised

  datatype Writer = Writer(content: Bytes, maximum: nat, temporary: Bytes, phase: Phase)

  datatype Directory = Directory(final: Option<Bytes>, writers: map<nat, Writer>)

  /** Stray names an abrupt death: the temporary file stays, the process is gone. */
  datatype Step = Open(w: nat, content: Bytes, maximum: nat) | Append(w: nat, size: nat) | Sync(w: nat) | Link(w: nat)
                | Compare(w: nat) | Stray(w: nat)

  function Put(d: Directory, w: nat, phase: Phase): Directory
    requires w in d.writers
  {
    d.(writers := d.writers[w := d.writers[w].(phase := phase)])
  }

  predicate Can(d: Directory, e: Step) {
    match e
    case Open(w, _, _) => w !in d.writers
    case Append(w, size) =>
      && w in d.writers && d.writers[w].phase == Streaming && size > 0
      && |d.writers[w].temporary| + size <= |d.writers[w].content|
    case Sync(w) => w in d.writers && d.writers[w].phase == Streaming && d.writers[w].temporary == d.writers[w].content
    case Link(w) => w in d.writers && d.writers[w].phase == Synced
    case Compare(w) => w in d.writers && d.writers[w].phase.Comparing? && d.final.Some?
    case Stray(w) => w in d.writers
  }

  function Do(d: Directory, e: Step): Directory
    requires Can(d, e)
  {
    match e
    case Open(w, content, maximum) => d.(writers := d.writers[w := Writer(content, maximum, [], Streaming)])
    case Append(w, size) =>
      var r := d.writers[w];
      var total := |r.temporary| + size;
      if total > r.maximum then Put(d, w, Raised)
      else d.(writers := d.writers[w := r.(temporary := r.content[..total])])
    case Sync(w) => Put(d, w, Synced)
    case Link(w) =>
      if d.final.None? then Put(d, w, Returned).(final := Some(d.writers[w].temporary)) else Put(d, w, Comparing(0))
    case Compare(w) =>
      var r := d.writers[w];
      var chunk := ReadAt(d.final.value, r.phase.offset);
      if chunk != ReadAt(r.temporary, r.phase.offset) then Put(d, w, Raised)
      else if chunk == [] then Put(d, w, Returned)
      else Put(d, w, Comparing(r.phase.offset + CHUNK))
    case Stray(w) => d.(writers := d.writers - {w})
  }

  /** What each writer has established. */
  predicate WriterSound(d: Directory, r: Writer) {
    && r.temporary <= r.content && |r.temporary| <= r.maximum
    && (r.phase in {Synced, Returned} || r.phase.Comparing? ==> r.temporary == r.content)
    && (r.phase == Returned ==> d.final == Some(r.content))
    && (r.phase.Comparing? ==> d.final.Some? && Upto(d.final.value, r.phase.offset) == Upto(r.content, r.phase.offset))
  }

  ghost predicate Sound(d: Directory) { forall w :: w in d.writers ==> WriterSound(d, d.writers[w]) }

  ghost predicate Runs(d: Directory, es: seq<Step>, d': Directory)
    decreases |es|
  {
    if es == [] then d == d' else Can(d, es[0]) && Runs(Do(d, es[0]), es[1..], d')
  }

  predicate Empty(d: Directory) { d == Directory(None, map[]) }

  lemma StepSound(d: Directory, e: Step)
    requires Sound(d) && Can(d, e)
    ensures Sound(Do(d, e)) && (d.final.Some? ==> Do(d, e).final == d.final)
  {
    var d' := Do(d, e);
    if e.Compare? {
      var r := d.writers[e.w];
      if ReadAt(d.final.value, r.phase.offset) == ReadAt(r.temporary, r.phase.offset) {
        ReadExtends(d.final.value, r.temporary, r.phase.offset);
      }
    }
    forall w | w in d'.writers ensures WriterSound(d', d'.writers[w]) {
      if w in d.writers { assert WriterSound(d, d.writers[w]); }
    }
  }

  lemma {:induction false} RunSound(d: Directory, es: seq<Step>, d': Directory)
    requires Sound(d) && Runs(d, es, d')
    ensures Sound(d') && (d.final.Some? ==> d'.final == d.final)
    decreases |es|
  {
    if es != [] {
      StepSound(d, es[0]);
      RunSound(Do(d, es[0]), es[1..], d');
    }
  }

  /** Once linked, the final bytes never change, whatever later writers and crashes do. */
  lemma FinalNeverChanges(d0: Directory, es: seq<Step>, d: Directory, more: seq<Step>, d': Directory)
    requires Empty(d0) && Runs(d0, es, d) && Runs(d, more, d') && d.final.Some?
    ensures d'.final == d.final
  {
    RunSound(d0, es, d);
    RunSound(d, more, d');
  }

  /** Every writer that returned normally supplied exactly the final bytes. */
  lemma ReturnedWritersAgree(d0: Directory, es: seq<Step>, d: Directory, w: nat)
    requires Empty(d0) && Runs(d0, es, d) && w in d.writers && d.writers[w].phase == Returned
    ensures d.final == Some(d.writers[w].content)
    ensures forall v :: v in d.writers && d.writers[v].phase == Returned ==> d.writers[v].content == d.writers[w].content
  {
    RunSound(d0, es, d);
    assert WriterSound(d, d.writers[w]);
    forall v | v in d.writers && d.writers[v].phase == Returned ensures d.writers[v].content == d.writers[w].content {
      assert WriterSound(d, d.writers[v]);
    }
  }

  /** Some writer of the run was opened with this content and this limit. */
  ghost predicate Opened(es: seq<Step>, content: Bytes, maximum: nat) {
    exists i :: 0 <= i < |es| && es[i].Open? && es[i].content == content && es[i].maximum == maximum
  }

  /** The content some writer of the run was opened with, within its own limit. */
  ghost predicate Offered(es: seq<Step>, content: Bytes) {
    exists maximum :: |content| <= maximum && Opened(es, content, maximum)
  }

  ghost predicate AllOffered(d: Directory, es: seq<Step>) {
    && (forall w :: w in d.writers ==> Opened(es, d.writers[w].content, d.writers[w].maximum))
    && (d.final.Some? ==> Offered(es, d.final.value))
  }

  lemma OfferedStep(d: Directory, done: seq<Step>, e: Step)
    requires Sound(d) && Can(d, e) && AllOffered(d, done)
    ensures AllOffered(Do(d, e), done + [e])
  {
    var d' := Do(d, e);
    forall c, n | Opened(done, c, n) ensures Opened(done + [e], c, n) {
      var i :| 0 <= i < |done| && done[i].Open? && done[i].content == c && done[i].maximum == n;
      assert (done + [e])[i] == done[i];
    }
    if e.Open? { assert (done + [e])[|done|] == e; }
    if e.Link? { assert WriterSound(d, d.writers[e.w]); }
  }

  lemma {:induction false} OfferedRun(d: Directory, done: seq<Step>, es: seq<Step>, d': Directory)
    requires Sound(d) && AllOffered(d, done) && Runs(d, es, d')
    ensures AllOffered(d', done + es)
    decreases |es|
  {
    if es == [] {
      assert done + es == done;
    } else {
      StepSound(d, es[0]);
      OfferedStep(d, done, es[0]);
      OfferedRun(Do(d, es[0]), done + [es[0]], es[1..], d');
      assert (done + [es[0]]) + es[1..] == done + es;
    }
  }

  /** A reader finds nothing, or the complete bytes of one writer, within that writer's limit and never a part
      of them. */
  lemma FinalIsWhole(d0: Directory, es: seq<Step>, d: Directory)
    requires Empty(d0) && Runs(d0, es, d)
    ensures d.final.Some? ==> Offered(es, d.final.value)
  {
    OfferedRun(d0, [], es, d);
    assert [] + es == es;
  }

  /** A synced writer is never stuck: alone, finitely many of its own steps return it exactly when the path
      was free or already held its bytes. */
  lemma {:induction false} ComparingDecides(d: Directory, w: nat, offset: nat)
    requires Sound(d) && w in d.writers && d.final.Some? && d.writers[w].phase == Comparing(offset)
    ensures exists es, d' :: Runs(d, es, d') && w in d'.writers &&
              d'.writers[w].phase == (if d.final == Some(d.writers[w].content) then Returned else Raised)
    decreases |d.final.value| + CHUNK - offset
  {
    var d1 := Do(d, Compare(w));
    assert WriterSound(d, d.writers[w]);
    StepSound(d, Compare(w));
    ReadDiffers(d.final.value, d.writers[w].temporary, offset);
    if ReadAt(d.final.value, offset) == ReadAt(d.writers[w].temporary, offset) {
      ReadExtends(d.final.value, d.writers[w].temporary, offset);
    }
    if d1.writers[w].phase.Comparing? {
      ComparingDecides(d1, w, offset + CHUNK);
      var es, d' :| Runs(d1, es, d') && w in d'.writers &&
        d'.writers[w].phase == (if d1.final == Some(d1.writers[w].content) then Returned else Raised);
      assert ([Compare(w)] + es)[1..] == es;
      assert Runs(d, [Compare(w)] + es, d');
    } else {
      assert Runs(d1, [], d1);
      assert [Compare(w)][1..] == [];
      assert Runs(d, [Compare(w)], d1);
    }
  }
}
