/** The scanner accepts and projects every RFC 8259 object over the known members, and nothing it skips matters. */
module HeaderProjection {
  import opened Basics
  import opened HeaderScanner
  import opened HeaderGrammar

  type Decoder = string -> Option<string>

  function Decoded(name: string, decode: Decoder): string {
    var d := decode(Quote(name));
    if d.Some? then d.value else ""
  }

  predicate Usable(name: string, seen: set<string>, decode: Decoder) {
    decode(Quote(name)).Some? && Known(Decoded(name, decode)) && Decoded(name, decode) !in seen
  }

  /** The text of a field, right-nested. */
  function FieldText(name: string, gap: string, lead: string, value: string, tail: string): string {
    Quote(name) + (gap + (":" + (lead + (value + tail))))
  }

  function Span(name: string, gap: string, value: string): string { Quote(name) + gap + ":" + value }

  /** What the scanner makes of the text after a field's value. */
  function Continue(here: seq<string>, tail: string, seen: set<string>, decode: Decoder): Option<Projected> {
    var next := Space(tail);
    if next == "" then None
    else if next[0] == '}' then Some(Projected(here, next[1..]))
    else if next[0] != ',' then None
    else Prepended(here, ScanMembers(Space(next[1..]), seen, decode))
  }

  lemma NameScanned(name: string, gap: string, after: string, seen: set<string>, decode: Decoder)
    requires Body(name) && Blank(gap) && after != "" && after[0] == ':'
    ensures MemberName(Quote(name) + (gap + after), seen, decode) ==
            if Usable(name, seen, decode) then Some(Named(Decoded(name, decode), after)) else None
  {
    hide Suffix, Known, Space, Body, Blank;
    var s := Quote(name) + (gap + after);
    assert s[0] == '"' && s[1..] == name + "\"" + (gap + after);
    StringEnds(name, gap + after);
    assert s[..|s| - |gap + after|] == Quote(name);
    SpaceSkips(gap, after);
  }

  /** One field whose value is passed over: its span is kept exactly when its name is a header. The value
      may be any text at all. */
  lemma FieldScanned(name: string, gap: string, lead: string, value: string, tail: string,
                     seen: set<string>, decode: Decoder)
    requires Body(name) && Blank(gap) && Blank(lead) && value != "" && !IsSpace(value[0])
    requires ValueRest(value + tail) in {None, Some(tail)}
    ensures ScanMembers(FieldText(name, gap, lead, value, tail), seen, decode) ==
            if !Usable(name, seen, decode) || ValueRest(value + tail).None? then None
            else Continue(if Decoded(name, decode) in {"schema_version", "contract", "artifact_type", "plan"}
                          then [Span(name, gap, value)] else [],
                          tail, seen + {Decoded(name, decode)}, decode)
  {
    assert IsHeader(Decoded(name, decode)) <==>
           Decoded(name, decode) in {"schema_version", "contract", "artifact_type", "plan"};
    hide Suffix, Known, IsHeader, Space, ValueRest, ScanMembers, MemberName, Body, Blank, Usable;
    var s := FieldText(name, gap, lead, value, tail);
    var colon := ":" + (lead + (value + tail));
    NameScanned(name, gap, colon, seen, decode);
    MemberStep(s, seen, decode);
    assert colon[1..] == lead + (value + tail);
    SpaceSkips(lead, value + tail);
    SpanIsPiece(name, gap, lead, value, tail);
  }

  lemma SpanIsPiece(name: string, gap: string, lead: string, value: string, tail: string)
    ensures Piece(FieldText(name, gap, lead, value, tail), ":" + (lead + (value + tail)), value + tail, tail) ==
            Span(name, gap, value)
  {
    hide Quote;
    var s, colon := FieldText(name, gap, lead, value, tail), ":" + (lead + (value + tail));
    assert s == (Quote(name) + gap) + colon;
    assert s[..|s| - |colon|] == Quote(name) + gap;
    assert (value + tail)[..|value + tail| - |tail|] == value;
  }

  /** Opaque bodies do not interfere: exchanging the value of a report or files member for any other text
      the scanner passes over, well formed or not, changes neither acceptance nor output. */
  lemma OpaqueBodyIgnored(name: string, gap: string, lead: string, value: string, other: string, tail: string,
                          seen: set<string>, decode: Decoder)
    requires Body(name) && Blank(gap) && Blank(lead) && Decoded(name, decode) in {"report", "files"}
    requires value != "" && !IsSpace(value[0]) && ValueRest(value + tail) == Some(tail)
    requires other != "" && !IsSpace(other[0]) && ValueRest(other + tail) == Some(tail)
    ensures ScanMembers(FieldText(name, gap, lead, value, tail), seen, decode) ==
            ScanMembers(FieldText(name, gap, lead, other, tail), seen, decode)
  {
    hide ScanMembers, ValueRest, Body, Blank;
    FieldScanned(name, gap, lead, value, tail, seen, decode);
    FieldScanned(name, gap, lead, other, tail, seen, decode);
  }

  // ---------------------------------------------------------------- whole objects

  /** Known names, none twice, and no value nested deeper than 128 containers. */
  predicate Accepted(f: Fields, seen: set<string>, decode: Decoder) {
    && Usable(f.name, seen, decode) && Depth(f.value) <= MAX_CONTAINERS
    && (f.MoreFields? ==> Accepted(f.rest, seen + {Decoded(f.name, decode)}, decode))
  }

  function Spans(f: Fields, decode: Decoder): seq<string> {
    (if IsHeader(Decoded(f.name, decode)) then [Span(f.name, f.gap, Render(f.value))] else [])
    + if f.MoreFields? then Spans(f.rest, decode) else []
  }

  lemma RenderStarts(v: Json)
    requires WellFormed(v)
    ensures Render(v) != "" && !IsSpace(Render(v)[0])
  {}

  lemma BareFields(f: Fields, t: string)
    requires Blank(f.before)
    ensures Space(RenderFields(f) + t) ==
            FieldText(f.name, f.gap, f.lead, Render(f.value), f.after + Following(f, t))
  {
    hide Render, RenderFields, Suffix, Space, Following;
    FieldsText(f, t);
    SpaceSkips(f.before, FieldText(f.name, f.gap, f.lead, Render(f.value), f.after + Following(f, t)));
  }

  lemma FollowingDelimits(f: Fields, t: string)
    requires Blank(f.after) && t != "" && t[0] == '}'
    ensures var tail := f.after + Following(f, t);
            tail != "" && Delimits(tail[0]) && Space(tail) == Following(f, t)
  {
    hide RenderFields;
    SpaceSkips(f.after, Following(f, t));
  }

  lemma {:induction false} FieldsScanned(f: Fields, t: string, seen: set<string>, decode: Decoder)
    requires WellFormedFields(f)
    ensures ScanMembers(FieldText(f.name, f.gap, f.lead, Render(f.value), f.after + Following(f, "}" + t)), seen, decode) ==
            if Accepted(f, seen, decode) then Some(Projected(Spans(f, decode), t)) else None
    decreases f
  {
    var name := Decoded(f.name, decode);
    assert IsHeader(name) <==> name in {"schema_version", "contract", "artifact_type", "plan"};
    hide ScanMembers, ValueRest, Usable, IsHeader, Render, RenderFields, FieldText, Space, Suffix;
    var rest := "}" + t;
    var tail := f.after + Following(f, rest);
    RenderStarts(f.value);
    FollowingDelimits(f, rest);
    ValueEnds(f.value, tail);
    FieldScanned(f.name, f.gap, f.lead, Render(f.value), tail, seen, decode);
    assert rest[1..] == t;
    if f.MoreFields? {
      assert Following(f, rest)[1..] == RenderFields(f.rest) + rest;
      BareFields(f.rest, rest);
      FieldsScanned(f.rest, t, seen + {Decoded(f.name, decode)}, decode);
    } else {
      var here := if IsHeader(Decoded(f.name, decode)) then [Span(f.name, f.gap, Render(f.value))] else [];
      assert here + [] == here;
    }
  }

  predicate AcceptedPayload(p: Payload, decode: Decoder) {
    Size(RenderPayload(p)) <= MAX_BYTES && (p.Fielded? ==> Accepted(p.fields, {}, decode))
  }

  /** The fields that carry header members, stripped of the whitespace around them. */
  function Kept(f: Fields, decode: Decoder): Option<Fields> {
    var rest := if f.MoreFields? then Kept(f.rest, decode) else None;
    if !IsHeader(Decoded(f.name, decode)) then rest
    else match rest
         case None => Some(LastField("", f.name, f.gap, "", f.value, ""))
         case Some(more) => Some(MoreFields("", f.name, f.gap, "", f.value, "", more))
  }

  /** The object restricted to its header members. */
  function Projection(p: Payload, decode: Decoder): Payload {
    match p
    case NoFields(_, _, _) => NoFields("", "", "")
    case Fielded(_, f, _) =>
      match Kept(f, decode)
      case None => NoFields("", "", "")
      case Some(kept) => Fielded("", kept, "")
  }

  lemma {:induction false} JoinFront(piece: string, pieces: seq<string>)
    requires pieces != []
    ensures Join([piece] + pieces) == piece + "," + Join(pieces)
  {
    var n := |pieces| - 1;
    var all := [piece] + pieces;
    assert all[..|all| - 1] == [piece] + pieces[..n];
    if n > 0 {
      JoinFront(piece, pieces[..n]);
    } else {
      assert [piece] + pieces[..n] == [piece];
    }
  }

  lemma {:induction false} KeptRenders(f: Fields, decode: Decoder)
    ensures Kept(f, decode).None? <==> Spans(f, decode) == []
    ensures Kept(f, decode).Some? ==> RenderFields(Kept(f, decode).value) == Join(Spans(f, decode))
    decreases f
  {
    hide Render, Quote, IsHeader, Join;
    if f.MoreFields? { KeptRenders(f.rest, decode); }
    var rest := if f.MoreFields? then Spans(f.rest, decode) else [];
    var piece := Span(f.name, f.gap, Render(f.value));
    if IsHeader(Decoded(f.name, decode)) {
      assert Spans(f, decode) == [piece] + rest;
      BareText(f.name, f.gap, Render(f.value));
      if rest != [] { JoinFront(piece, rest); } else { JoinOne(piece); assert [piece] + rest == [piece]; }
    } else {
      assert Spans(f, decode) == rest;
    }
  }

  lemma JoinOne(piece: string)
    ensures Join([piece]) == piece
  {}

  lemma BareText(name: string, gap: string, value: string)
    ensures "" + Field(name, gap, "", value) + "" == Span(name, gap, value)
  {}

  lemma PayloadStarts(p: Payload)
    requires WellFormedPayload(p)
    ensures Space(RenderPayload(p)) != "" && Space(RenderPayload(p))[0] == '{'
    ensures p.Fielded? ==> Space(RenderPayload(p))[1..] == RenderFields(p.fields) + ("}" + p.after)
    ensures p.NoFields? ==> Space(RenderPayload(p))[1..] == p.inside + ("}" + p.after)
  {
    hide RenderFields, Suffix;
    var inner := if p.Fielded? then RenderFields(p.fields) + ("}" + p.after) else p.inside + ("}" + p.after);
    assert RenderPayload(p) == p.before + ("{" + inner);
    SpaceSkips(p.before, "{" + inner);
    assert ("{" + inner)[1..] == inner;
  }

  /** Every RFC 8259 object over any members is accepted exactly when its names decode to distinct known
      members, no member value opens more than 128 containers at once and the text is at most 2 MiB; the
      output then is the text of the object restricted to its header members. */
  lemma HeaderProjects(p: Payload, decode: Decoder)
    requires WellFormedPayload(p)
    ensures Header(RenderPayload(p), decode) ==
            if AcceptedPayload(p, decode) then Some(RenderPayload(Projection(p, decode))) else None
  {
    hide RenderFields, Suffix, Size, ScanMembers, Accepted, WellFormedFields, Kept, Join;
    PayloadStarts(p);
    if p.NoFields? {
      SpaceSkips(p.inside, "}" + p.after);
      assert ("}" + p.after)[1..] == p.after;
      Trailing(p.after);
      NothingKept();
    } else {
      HeaderFields(p.fields, p.after, decode);
      Trailing(p.after);
      KeptRenders(p.fields, decode);
      if Kept(p.fields, decode).None? { NothingKept(); } else { Wrapped(RenderFields(Kept(p.fields, decode).value)); }
    }
  }

  lemma Trailing(w: string)
    requires Blank(w)
    ensures Space(w) == ""
  {
    hide Space, Suffix, Blank;
    SpaceSkips(w, "");
    assert w + "" == w;
  }

  lemma NothingKept()
    ensures "{" + Join([]) + "}" == RenderPayload(NoFields("", "", ""))
  {}

  lemma Wrapped(text: string)
    ensures "" + "{" + text + "}" + "" == "{" + text + "}"
  {}

  lemma HeaderFields(f: Fields, after: string, decode: Decoder)
    requires WellFormedFields(f)
    ensures var first := Space(RenderFields(f) + ("}" + after));
            && first != "" && first[0] == '"'
            && ScanMembers(first, {}, decode) ==
               if Accepted(f, {}, decode) then Some(Projected(Spans(f, decode), after)) else None
  {
    hide RenderFields, Render, ScanMembers, Accepted, Spans, Suffix, Space;
    BareFields(f, "}" + after);
    FieldsScanned(f, after, {}, decode);
  }

  // ---------------------------------------------------------------- meaning

  /** An object's members by decoded name. */
  function Entries(f: Fields, decode: Decoder): seq<(string, Json)> {
    [(Decoded(f.name, decode), f.value)] + if f.MoreFields? then Entries(f.rest, decode) else []
  }

  function PayloadEntries(p: Payload, decode: Decoder): seq<(string, Json)> {
    if p.NoFields? then [] else Entries(p.fields, decode)
  }

  /** The members with one of the given names, in order. */
  function Restricted(entries: seq<(string, Json)>, names: set<string>): seq<(string, Json)> {
    if entries == [] then []
    else (if entries[0].0 in names then [entries[0]] else []) + Restricted(entries[1..], names)
  }

  lemma {:induction false} KeptEntries(f: Fields, names: set<string>, decode: Decoder)
    requires forall name :: IsHeader(name) <==> name in names
    ensures (if Kept(f, decode).Some? then Entries(Kept(f, decode).value, decode) else []) ==
            Restricted(Entries(f, decode), names)
    decreases f
  {
    hide IsHeader, Decoded;
    var rest := if f.MoreFields? then Entries(f.rest, decode) else [];
    assert Entries(f, decode)[1..] == rest;
    if f.MoreFields? { KeptEntries(f.rest, names, decode); }
  }

  lemma {:induction false} KeptWellFormed(f: Fields, decode: Decoder)
    requires WellFormedFields(f)
    ensures Kept(f, decode).Some? ==> WellFormedFields(Kept(f, decode).value)
    decreases f
  {
    if f.MoreFields? { KeptWellFormed(f.rest, decode); }
  }

  /** The output's tree is an RFC 8259 object whose members are exactly the members of the input named
      schema_version, contract, artifact_type or plan, with their values, in order. */
  lemma ProjectionMeans(p: Payload, decode: Decoder)
    requires WellFormedPayload(p)
    ensures WellFormedPayload(Projection(p, decode))
    ensures PayloadEntries(Projection(p, decode), decode) ==
            Restricted(PayloadEntries(p, decode), {"schema_version", "contract", "artifact_type", "plan"})
  {
    if p.Fielded? {
      KeptEntries(p.fields, {"schema_version", "contract", "artifact_type", "plan"}, decode);
      KeptWellFormed(p.fields, decode);
    }
  }

  lemma {:induction false} RestrictedNames(entries: seq<(string, Json)>, names: set<string>)
    ensures forall i :: 0 <= i < |Restricted(entries, names)| ==> Restricted(entries, names)[i].0 in names
    ensures forall i :: 0 <= i < |entries| && entries[i].0 in names ==> entries[i] in Restricted(entries, names)
  {
    if entries != [] {
      RestrictedNames(entries[1..], names);
      assert forall i :: 0 < i < |entries| ==> entries[i] == entries[1..][i - 1];
    }
  }

  /** The raw member names of an object, in order. */
  function Names(f: Fields): seq<string> { [f.name] + if f.MoreFields? then Names(f.rest) else [] }

  function Values(f: Fields): seq<Json> { [f.value] + if f.MoreFields? then Values(f.rest) else [] }

  /** A name that decodes to a member of the evidence format that is not in seen. */
  predicate Nameable(name: string, seen: set<string>, decode: Decoder) {
    && decode(Quote(name)).Some?
    && decode(Quote(name)).value in {"schema_version", "contract", "artifact_type", "plan", "report", "files"}
    && decode(Quote(name)).value !in seen
  }

  /** The names decode to members of the evidence format, none twice, and no value nests deeper than 128. */
  predicate Admissible(names: seq<string>, values: seq<Json>, seen: set<string>, decode: Decoder) {
    && (forall i :: 0 <= i < |names| ==> Nameable(names[i], seen, decode))
    && (forall i, j :: 0 <= i < j < |names| ==> decode(Quote(names[i])) != decode(Quote(names[j])))
    && (forall i :: 0 <= i < |values| ==> Depth(values[i]) <= 128)
  }

  lemma AdmissibleSplits(n: string, v: Json, ns: seq<string>, vs: seq<Json>, seen: set<string>, decode: Decoder)
    ensures Admissible([n] + ns, [v] + vs, seen, decode) <==>
            Nameable(n, seen, decode) && Depth(v) <= 128 && Admissible(ns, vs, seen + {Decoded(n, decode)}, decode)
  {
    hide Depth, Quote;
    var names, values := [n] + ns, [v] + vs;
    assert names[0] == n && values[0] == v;
    assert forall i :: 0 <= i < |ns| ==> names[i + 1] == ns[i];
    assert forall i :: 0 <= i < |vs| ==> values[i + 1] == vs[i];
    if Admissible(names, values, seen, decode) {
      forall i | 0 <= i < |ns| ensures Nameable(ns[i], seen + {Decoded(n, decode)}, decode) {
        assert Nameable(names[i + 1], seen, decode) && decode(Quote(names[0])) != decode(Quote(names[i + 1]));
      }
    }
    if Nameable(n, seen, decode) && Depth(v) <= 128 && Admissible(ns, vs, seen + {Decoded(n, decode)}, decode) {
      forall i | 0 <= i < |names| ensures Nameable(names[i], seen, decode) {
        if i > 0 { assert Nameable(ns[i - 1], seen + {Decoded(n, decode)}, decode); }
      }
      forall i, j | 0 <= i < j < |names| ensures decode(Quote(names[i])) != decode(Quote(names[j])) {
        assert Nameable(ns[j - 1], seen + {Decoded(n, decode)}, decode);
      }
    }
  }

  lemma {:induction false} AcceptedMeans(f: Fields, seen: set<string>, decode: Decoder)
    ensures Accepted(f, seen, decode) <==> Admissible(Names(f), Values(f), seen, decode)
    decreases f
  {
    var ns := if f.MoreFields? then Names(f.rest) else [];
    var vs := if f.MoreFields? then Values(f.rest) else [];
    assert Usable(f.name, seen, decode) <==> Nameable(f.name, seen, decode);
    AdmissibleSplits(f.name, f.value, ns, vs, seen, decode);
    hide Usable, Nameable, Depth, Decoded, Admissible;
    if f.MoreFields? { AcceptedMeans(f.rest, seen + {Decoded(f.name, decode)}, decode); } else { NoneAdmissible(decode); }
  }

  lemma NoneAdmissible(decode: Decoder)
    ensures forall seen: set<string> :: Admissible([], [], seen, decode)
  {}

  /** In the format's own names. An object is accepted exactly when its member names decode to distinct names
      among schema_version, contract, artifact_type, plan, report and files, no member value opens more than
      128 containers at once and the text is at most 2 MiB. The output is then an object that holds every
      member named schema_version, contract, artifact_type or plan, in order, and no other. */
  lemma HeaderMeans(p: Payload, decode: Decoder)
    requires WellFormedPayload(p)
    ensures Header(RenderPayload(p), decode).Some? <==>
            Size(RenderPayload(p)) <= 2_097_152
            && (p.Fielded? ==> Admissible(Names(p.fields), Values(p.fields), {}, decode))
    ensures Header(RenderPayload(p), decode).Some? ==>
              exists q :: WellFormedPayload(q) && Header(RenderPayload(p), decode) == Some(RenderPayload(q))
                && PayloadEntries(q, decode) ==
                   Restricted(PayloadEntries(p, decode), {"schema_version", "contract", "artifact_type", "plan"})
  {
    hide Header, WellFormedPayload, Accepted, Admissible, PayloadEntries, Restricted, Size;
    HeaderProjects(p, decode);
    ProjectionMeans(p, decode);
    if p.Fielded? { AcceptedMeans(p.fields, {}, decode); }
  }

  /** No member of an output is named report or files, and no header member is dropped. */
  lemma BodyStaysOut(p: Payload, decode: Decoder)
    requires WellFormedPayload(p) && Header(RenderPayload(p), decode).Some?
    ensures exists q :: WellFormedPayload(q) && Header(RenderPayload(p), decode) == Some(RenderPayload(q))
              && (forall e :: e in PayloadEntries(q, decode) ==> e.0 !in {"report", "files"})
              && (forall e :: e in PayloadEntries(p, decode)
                              && e.0 in {"schema_version", "contract", "artifact_type", "plan"} ==>
                    e in PayloadEntries(q, decode))
  {
    hide Header, WellFormedPayload, PayloadEntries, Restricted;
    HeaderMeans(p, decode);
    var q :| WellFormedPayload(q) && Header(RenderPayload(p), decode) == Some(RenderPayload(q))
      && PayloadEntries(q, decode) ==
         Restricted(PayloadEntries(p, decode), {"schema_version", "contract", "artifact_type", "plan"});
    RestrictedNames(PayloadEntries(p, decode), {"schema_version", "contract", "artifact_type", "plan"});
  }

  /** The members that do not decode to report or files, as written: raw name, whitespace before the colon,
      value. */
  function OutsideBody(f: Fields, decode: Decoder): seq<(string, string, Json)> {
    (if Decoded(f.name, decode) !in {"report", "files"} then [(f.name, f.gap, f.value)] else [])
    + if f.MoreFields? then OutsideBody(f.rest, decode) else []
  }

  function PayloadOutside(p: Payload, decode: Decoder): seq<(string, string, Json)> {
    if p.NoFields? then [] else OutsideBody(p.fields, decode)
  }

  function SpansOf(raw: seq<(string, string, Json)>): seq<string> {
    if raw == [] then [] else [Span(raw[0].0, raw[0].1, Render(raw[0].2))] + SpansOf(raw[1..])
  }

  lemma {:induction false} SpansOutsideBody(f: Fields, seen: set<string>, decode: Decoder)
    requires Accepted(f, seen, decode)
    ensures Spans(f, decode) == SpansOf(OutsideBody(f, decode))
    decreases f
  {
    var name := Decoded(f.name, decode);
    assert IsHeader(name) <==> name !in {"report", "files"};
    hide IsHeader, Render, Span, Known;
    if f.MoreFields? { SpansOutsideBody(f.rest, seen + {name}, decode); }
    var rest := if f.MoreFields? then OutsideBody(f.rest, decode) else [];
    assert OutsideBody(f, decode)[|OutsideBody(f, decode)| - |rest|..] == rest;
  }

  lemma HeaderText(p: Payload, decode: Decoder)
    requires WellFormedPayload(p) && Header(RenderPayload(p), decode).Some?
    ensures Header(RenderPayload(p), decode) == Some("{" + Join(SpansOf(PayloadOutside(p, decode))) + "}")
  {
    hide Header, WellFormedFields, Accepted, Size, RenderFields, Spans, Kept, OutsideBody, Join, Span;
    HeaderProjects(p, decode);
    if p.Fielded? {
      SpansOutsideBody(p.fields, {}, decode);
      KeptRenders(p.fields, decode);
      if Kept(p.fields, decode).None? { NothingKept(); } else { Wrapped(RenderFields(Kept(p.fields, decode).value)); }
    } else {
      NothingKept();
    }
  }

  /** Two accepted objects that agree on every member but those named report and files have the same output,
      whatever those hold and wherever they stand. */
  lemma BodyDoesNotInterfere(p: Payload, q: Payload, decode: Decoder)
    requires WellFormedPayload(p) && WellFormedPayload(q)
    requires Header(RenderPayload(p), decode).Some? && Header(RenderPayload(q), decode).Some?
    requires PayloadOutside(p, decode) == PayloadOutside(q, decode)
    ensures Header(RenderPayload(p), decode) == Header(RenderPayload(q), decode)
  {
    hide Header, WellFormedPayload, PayloadOutside;
    HeaderText(p, decode);
    HeaderText(q, decode);
  }

  // ---------------------------------------------------------------- projecting again

  /** The characters of code point n or above. */
  function AtLeast(s: string, n: int): nat {
    if s == "" then 0 else AtLeast(s[..|s| - 1], n) + OneIf(s[|s| - 1] as int >= n)
  }

  /** The size is that of UTF-8: one byte a character, and one more from each of three code points on. */
  lemma {:induction false} SizeIsUtf8(s: string)
    ensures Size(s) == |s| + AtLeast(s, 0x80) + AtLeast(s, 0x800) + AtLeast(s, 0x1_0000)
  {
    if s != "" { SizeIsUtf8(s[..|s| - 1]); }
  }

  lemma {:induction false} SizeAdds(a: string, b: string)
    ensures Size(a + b) == Size(a) + Size(b)
    decreases |b|
  {
    hide Bytes;
    if b == "" {
      assert a + b == a;
    } else {
      assert (a + b)[..|a + b| - 1] == a + b[..|b| - 1];
      SizeAdds(a, b[..|b| - 1]);
    }
  }

  lemma FieldSize(b: string, n: string, g: string, l: string, v: string, a: string)
    ensures Size("" + Field(n, g, "", v) + "") <= Size(b + Field(n, g, l, v) + a)
  {
    hide Size, Quote;
    SizeAdds(b + Field(n, g, l, v), a);
    SizeAdds(b, Field(n, g, l, v));
    SizeAdds(Quote(n) + g + ":" + l, v);
    SizeAdds(Quote(n) + g + ":", l);
    SizeAdds(Quote(n) + g + ":", v);
    assert "" + Field(n, g, "", v) + "" == Quote(n) + g + ":" + v;
  }

  lemma {:induction false} KeptSize(f: Fields, decode: Decoder)
    ensures Kept(f, decode).Some? ==> Size(RenderFields(Kept(f, decode).value)) <= Size(RenderFields(f))
    decreases f
  {
    hide Size, Field, Render, IsHeader, Decoded;
    var v := Render(f.value);
    var own := f.before + Field(f.name, f.gap, f.lead, v) + f.after;
    var bare := "" + Field(f.name, f.gap, "", v) + "";
    FieldSize(f.before, f.name, f.gap, f.lead, v, f.after);
    if f.MoreFields? {
      KeptSize(f.rest, decode);
      SizeAdds(own + ",", RenderFields(f.rest));
      SizeAdds(own, ",");
      if Kept(f.rest, decode).Some? {
        SizeAdds(bare + ",", RenderFields(Kept(f.rest, decode).value));
        SizeAdds(bare, ",");
      }
    }
  }

  lemma {:induction false} KeptAgain(f: Fields, seen: set<string>, fewer: set<string>, decode: Decoder)
    requires Accepted(f, seen, decode) && fewer <= seen && Kept(f, decode).Some?
    ensures Accepted(Kept(f, decode).value, fewer, decode) && Kept(Kept(f, decode).value, decode) == Kept(f, decode)
    decreases f
  {
    hide IsHeader, Decoded, Known, Depth;
    if f.MoreFields? {
      var name := Decoded(f.name, decode);
      if Kept(f.rest, decode).Some? {
        KeptAgain(f.rest, seen + {name}, if IsHeader(name) then fewer + {name} else fewer, decode);
      }
    }
  }

  /** Projecting the output changes nothing. */
  lemma HeaderIdempotent(p: Payload, decode: Decoder)
    requires WellFormedPayload(p) && AcceptedPayload(p, decode)
    ensures Header(RenderPayload(p), decode).Some?
    ensures Header(Header(RenderPayload(p), decode).value, decode) == Header(RenderPayload(p), decode)
  {
    hide Header, WellFormedPayload, Kept, RenderFields, Size, Accepted, PayloadEntries;
    var q := Projection(p, decode);
    HeaderProjects(p, decode);
    ProjectionMeans(p, decode);
    HeaderProjects(q, decode);
    PayloadSmaller(p, decode);
    if p.Fielded? && Kept(p.fields, decode).Some? { KeptAgain(p.fields, {}, {}, decode); }
  }

  lemma PayloadSmaller(p: Payload, decode: Decoder)
    ensures Size(RenderPayload(Projection(p, decode))) <= Size(RenderPayload(p))
  {
    hide Kept, RenderFields, Size;
    var inner := match p case NoFields(_, w, _) => w case Fielded(_, f, _) => RenderFields(f);
    var kept := if p.Fielded? && Kept(p.fields, decode).Some? then RenderFields(Kept(p.fields, decode).value) else "";
    if p.Fielded? { KeptSize(p.fields, decode); }
    Empty();
    Braced(p.before, inner, p.after);
    Braced("", kept, "");
  }

  lemma Empty()
    ensures Size("") == 0
  {}

  lemma Braced(b: string, inner: string, a: string)
    ensures Size(b + "{" + inner + "}" + a) == Size(b) + Size("{") + Size(inner) + Size("}") + Size(a)
  {
    hide Size;
    SizeAdds(b + "{" + inner + "}", a);
    SizeAdds(b + "{" + inner, "}");
    SizeAdds(b + "{", inner);
    SizeAdds(b, "{");
  }
}
