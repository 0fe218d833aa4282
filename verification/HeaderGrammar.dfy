/**
 RFC 8259 text (section 2 structure and whitespace, section 4 objects, section 5 arrays, section 7 strings) as
 syntax trees that keep every character, and what the header scanner makes of every such object.
 */
module HeaderGrammar {
  import opened Basics
  import opened HeaderScanner

  /** text is a literal name or number; body is what stands between the quotes of a string. */
  datatype Json =
    | Scalar(text: string)
    | Str(body: string)
    | EmptyArray(inside: string)
    | Array(items: Items)
    | EmptyObject(inside: string)
    | Object(fields: Fields)

  datatype Items =
    | LastItem(before: string, value: Json, after: string)
    | MoreItems(before: string, value: Json, after: string, rest: Items)

  datatype Fields =
    | LastField(before: string, name: string, gap: string, lead: string, value: Json, after: string)
    | MoreFields(before: string, name: string, gap: string, lead: string, value: Json, after: string, rest: Fields)

  /** A whole payload: the top-level object between its surrounding whitespace. */
  datatype Payload = NoFields(before: string, inside: string, after: string)
                   | Fielded(before: string, fields: Fields, after: string)

  // ---------------------------------------------------------------- rendering

  function Quote(body: string): string { "\"" + body + "\"" }

  function Render(v: Json): string {
    match v
    case Scalar(text) => text
    case Str(body) => Quote(body)
    case EmptyArray(w) => "[" + w + "]"
    case Array(items) => "[" + RenderItems(items) + "]"
    case EmptyObject(w) => "{" + w + "}"
    case Object(fields) => "{" + RenderFields(fields) + "}"
  }

  function RenderItems(i: Items): string {
    match i
    case LastItem(b, v, a) => b + Render(v) + a
    case MoreItems(b, v, a, rest) => b + Render(v) + a + "," + RenderItems(rest)
  }

  /** A field without the whitespace before its name. */
  function Field(name: string, gap: string, lead: string, value: string): string { Quote(name) + gap + ":" + lead + value }

  function RenderFields(f: Fields): string {
    match f
    case LastField(b, n, g, l, v, a) => b + Field(n, g, l, Render(v)) + a
    case MoreFields(b, n, g, l, v, a, rest) => b + Field(n, g, l, Render(v)) + a + "," + RenderFields(rest)
  }

  function RenderPayload(p: Payload): string {
    match p
    case NoFields(b, w, a) => b + "{" + w + "}" + a
    case Fielded(b, f, a) => b + "{" + RenderFields(f) + "}" + a
  }

  // ---------------------------------------------------------------- well-formedness

  predicate Blank(w: string) { forall i :: 0 <= i < |w| ==> w[i] in {' ', '\t', '\r', '\n'} }

  /** The characters of literal names and numbers. */
  predicate ScalarChar(c: char) {
    'a' <= c <= 'z' || 'A' <= c <= 'Z' || '0' <= c <= '9' || c == '-' || c == '+' || c == '.'
  }

  predicate Hex(c: char) { '0' <= c <= '9' || 'a' <= c <= 'f' || 'A' <= c <= 'F' }

  /** Unescaped characters, and the escapes of section 7. */
  predicate Body(s: string)
    decreases |s|
  {
    if s == "" then true
    else if s[0] != '\\' then s[0] != '"' && s[0] >= ' ' && Body(s[1..])
    else if |s| < 2 then false
    else if s[1] == 'u' then |s| >= 6 && (forall i :: 2 <= i < 6 ==> Hex(s[i])) && Body(s[2..])
    else s[1] in {'"', '\\', '/', 'b', 'f', 'n', 'r', 't'} && Body(s[2..])
  }

  predicate WellFormed(v: Json) {
    match v
    case Scalar(text) => text != "" && forall i :: 0 <= i < |text| ==> ScalarChar(text[i])
    case Str(body) => Body(body)
    case EmptyArray(w) => Blank(w)
    case Array(items) => WellFormedItems(items)
    case EmptyObject(w) => Blank(w)
    case Object(fields) => WellFormedFields(fields)
  }

  predicate WellFormedItems(i: Items) {
    match i
    case LastItem(b, v, a) => Blank(b) && WellFormed(v) && Blank(a)
    case MoreItems(b, v, a, rest) => Blank(b) && WellFormed(v) && Blank(a) && WellFormedItems(rest)
  }

  predicate WellFormedFields(f: Fields) {
    match f
    case LastField(b, n, g, l, v, a) => Blank(b) && Body(n) && Blank(g) && Blank(l) && WellFormed(v) && Blank(a)
    case MoreFields(b, n, g, l, v, a, rest) =>
      Blank(b) && Body(n) && Blank(g) && Blank(l) && WellFormed(v) && Blank(a) && WellFormedFields(rest)
  }

  predicate WellFormedPayload(p: Payload) {
    match p
    case NoFields(b, w, a) => Blank(b) && Blank(w) && Blank(a)
    case Fielded(b, f, a) => Blank(b) && WellFormedFields(f) && Blank(a)
  }

  // ---------------------------------------------------------------- nesting

  function Most(a: nat, b: nat): nat { if a < b then b else a }

  /** How many containers are open at the deepest point. */
  function Depth(v: Json): nat {
    match v
    case Scalar(_) => 0
    case Str(_) => 0
    case EmptyArray(_) => 1
    case Array(items) => 1 + ItemsDepth(items)
    case EmptyObject(_) => 1
    case Object(fields) => 1 + FieldsDepth(fields)
  }

  function ItemsDepth(i: Items): nat {
    match i
    case LastItem(_, v, _) => Depth(v)
    case MoreItems(_, v, _, rest) => Most(Depth(v), ItemsDepth(rest))
  }

  function FieldsDepth(f: Fields): nat {
    match f
    case LastField(_, _, _, _, v, _) => Depth(v)
    case MoreFields(_, _, _, _, v, _, rest) => Most(Depth(v), FieldsDepth(rest))
  }

  // ---------------------------------------------------------------- scanning pieces of text

  lemma {:induction false} SpaceSkips(w: string, t: string)
    requires Blank(w) && (t == "" || !IsSpace(t[0]))
    ensures Space(w + t) == t
    decreases |w|
  {
    if w == "" {
      assert w + t == t;
    } else {
      assert (w + t)[1..] == w[1..] + t;
      SpaceSkips(w[1..], t);
    }
  }

  /** A string ends at its own closing quote, whatever it escapes. */
  lemma {:induction false} StringEnds(body: string, t: string)
    requires Body(body)
    ensures StringRest(body + "\"" + t) == Some(t)
    decreases |body|
  {
    hide Suffix;
    var s := body + "\"" + t;
    if body == "" {
      assert s == "\"" + t && s[1..] == t;
    } else if body[0] != '\\' {
      assert s[1..] == body[1..] + "\"" + t;
      StringEnds(body[1..], t);
    } else {
      assert s[2..] == body[2..] + "\"" + t;
      StringEnds(body[2..], t);
    }
  }

  predicate Plain(s: string) {
    forall i :: 0 <= i < |s| ==> s[i] != '"' && !Opens(s[i]) && !Closes(s[i])
  }

  /** Whitespace, punctuation and scalars do not move the container stack. */
  lemma {:induction false} SkipPlain(w: string, t: string, expected: seq<char>)
    requires Plain(w) && expected != []
    ensures Skip(w + t, expected) == Skip(t, expected)
    decreases |w|
  {
    hide Suffix;
    if w == "" {
      assert w + t == t;
    } else {
      assert (w + t)[1..] == w[1..] + t && (w + t)[0] == w[0];
      SkipPlain(w[1..], t, expected);
    }
  }

  lemma SkipString(body: string, t: string, expected: seq<char>)
    requires Body(body) && expected != []
    ensures Skip(Quote(body) + t, expected) == Skip(t, expected)
  {
    hide Suffix;
    var s := Quote(body) + t;
    assert s[0] == '"' && s[1..] == body + "\"" + t;
    StringEnds(body, t);
  }

  lemma SkipOpen(open: char, t: string, expected: seq<char>)
    requires Opens(open) && expected != []
    ensures Skip([open] + t, expected) ==
            if |expected| + 1 > MAX_CONTAINERS then None else Skip(t, expected + [Closing(open)])
  {
    hide Suffix;
    assert ([open] + t)[1..] == t;
  }

  lemma SkipClose(open: char, t: string, expected: seq<char>)
    requires Opens(open)
    ensures Skip([Closing(open)] + t, expected + [Closing(open)]) == Skip(t, expected)
  {
    hide Suffix;
    assert ([Closing(open)] + t)[1..] == t;
    assert (expected + [Closing(open)])[..|expected|] == expected;
  }

  /** Scanning over a value inside containers: it is passed, stack unchanged, exactly when the nesting fits. */
  lemma {:induction false} SkipValue(v: Json, t: string, expected: seq<char>)
    requires WellFormed(v) && expected != []
    ensures Skip(Render(v) + t, expected) ==
            if Depth(v) == 0 || |expected| + Depth(v) <= MAX_CONTAINERS then Skip(t, expected) else None
    decreases v
  {
    hide Skip, RenderItems, RenderFields, ItemsDepth, FieldsDepth, Body;
    match v
    case Scalar(text) => SkipPlain(text, t, expected);
    case Str(body) => SkipString(body, t, expected);
    case EmptyArray(w) => SkipEmpty('[', w, t, expected);
    case EmptyObject(w) => SkipEmpty('{', w, t, expected);
    case Array(items) =>
      SkipItems(items, "]" + t, expected + [']']);
      SkipWrapped('[', RenderItems(items), ItemsDepth(items), t, expected);
    case Object(fields) =>
      SkipFields(fields, "}" + t, expected + ['}']);
      SkipWrapped('{', RenderFields(fields), FieldsDepth(fields), t, expected);
  }

  /** A container around text whose scanning is known. */
  lemma SkipWrapped(open: char, inner: string, depth: nat, t: string, expected: seq<char>)
    requires Opens(open) && expected != []
    requires Skip(inner + ([Closing(open)] + t), expected + [Closing(open)]) ==
             if depth == 0 || |expected| + 1 + depth <= MAX_CONTAINERS
             then Skip([Closing(open)] + t, expected + [Closing(open)]) else None
    ensures Skip([open] + inner + [Closing(open)] + t, expected) ==
            if |expected| + 1 + depth <= MAX_CONTAINERS then Skip(t, expected) else None
  {
    hide Skip;
    var closed := [Closing(open)] + t;
    assert [open] + inner + [Closing(open)] + t == [open] + (inner + closed);
    SkipOpen(open, inner + closed, expected);
    SkipClose(open, t, expected);
  }

  lemma SkipEmpty(open: char, w: string, t: string, expected: seq<char>)
    requires Opens(open) && Blank(w) && expected != []
    ensures Skip([open] + w + [Closing(open)] + t, expected) ==
            if |expected| + 1 <= MAX_CONTAINERS then Skip(t, expected) else None
  {
    hide Skip;
    var closed := [Closing(open)] + t;
    assert [open] + w + [Closing(open)] + t == [open] + (w + closed);
    SkipOpen(open, w + closed, expected);
    SkipPlain(w, closed, expected + [Closing(open)]);
    SkipClose(open, t, expected);
  }

  lemma {:induction false} SkipItems(i: Items, t: string, expected: seq<char>)
    requires WellFormedItems(i) && expected != []
    ensures Skip(RenderItems(i) + t, expected) ==
            if ItemsDepth(i) == 0 || |expected| + ItemsDepth(i) <= MAX_CONTAINERS then Skip(t, expected) else None
    decreases i
  {
    hide Skip;
    var tail := if i.LastItem? then t else "," + RenderItems(i.rest) + t;
    assert RenderItems(i) + t == i.before + (Render(i.value) + (i.after + tail));
    SkipPlain(i.before, Render(i.value) + (i.after + tail), expected);
    SkipValue(i.value, i.after + tail, expected);
    SkipPlain(i.after, tail, expected);
    if i.MoreItems? {
      assert tail == "," + (RenderItems(i.rest) + t);
      SkipPlain(",", RenderItems(i.rest) + t, expected);
      SkipItems(i.rest, t, expected);
    }
  }

  /** What follows a field, up to and including the comma and the fields after it. */
  function Following(f: Fields, t: string): string {
    if f.LastField? then t else "," + (RenderFields(f.rest) + t)
  }

  lemma FieldsText(f: Fields, t: string)
    ensures RenderFields(f) + t ==
            f.before + (Quote(f.name) + (f.gap + (":" + (f.lead + (Render(f.value) + (f.after + Following(f, t)))))))
  {
    var more := if f.LastField? then "" else "," + RenderFields(f.rest);
    var field := Field(f.name, f.gap, f.lead, Render(f.value));
    FieldsRendered(f, more, field);
    FollowingText(f, t, more);
    FieldText(f.name, f.gap, f.lead, Render(f.value), f.after + Following(f, t));
    hide Render, RenderFields, Following, Quote, Field;
    Regroup(f.before, field, f.after, more, t);
  }

  lemma FieldsRendered(f: Fields, more: string, field: string)
    requires more == (if f.LastField? then "" else "," + RenderFields(f.rest))
    requires field == Field(f.name, f.gap, f.lead, Render(f.value))
    ensures RenderFields(f) == f.before + field + f.after + more
  {
    hide Render, Field;
    if f.MoreFields? { Assoc(f.before + field + f.after, ",", RenderFields(f.rest)); }
  }

  lemma FollowingText(f: Fields, t: string, more: string)
    requires more == (if f.LastField? then "" else "," + RenderFields(f.rest))
    ensures more + t == Following(f, t)
  {
    hide RenderFields;
    if f.MoreFields? { Assoc(",", RenderFields(f.rest), t); }
  }

  lemma FieldText(name: string, gap: string, lead: string, value: string, t: string)
    ensures Field(name, gap, lead, value) + t == Quote(name) + (gap + (":" + (lead + (value + t))))
  {
    hide Quote;
    Regroup(Quote(name) + gap, ":", lead, value, t);
    Assoc(Quote(name), gap, ":" + (lead + (value + t)));
  }

  lemma Assoc(a: string, b: string, c: string)
    ensures a + b + c == a + (b + c)
  {}

  lemma Regroup(a: string, b: string, c: string, d: string, e: string)
    ensures a + b + c + d + e == a + (b + (c + (d + e)))
  {
    Assoc(a + b + c, d, e);
    Assoc(a + b, c, d + e);
    Assoc(a, b, c + (d + e));
  }

  lemma {:induction false} SkipFields(f: Fields, t: string, expected: seq<char>)
    requires WellFormedFields(f) && expected != []
    ensures Skip(RenderFields(f) + t, expected) ==
            if FieldsDepth(f) == 0 || |expected| + FieldsDepth(f) <= MAX_CONTAINERS then Skip(t, expected) else None
    decreases f
  {
    hide Skip, RenderFields, Render, Quote;
    var tail := Following(f, t);
    var valued := Render(f.value) + (f.after + tail);
    FieldsText(f, t);
    SkipPlain(f.before, Quote(f.name) + (f.gap + (":" + (f.lead + valued))), expected);
    SkipString(f.name, f.gap + (":" + (f.lead + valued)), expected);
    SkipPlain(f.gap, ":" + (f.lead + valued), expected);
    SkipPlain(":", f.lead + valued, expected);
    SkipPlain(f.lead, valued, expected);
    SkipValue(f.value, f.after + tail, expected);
    SkipPlain(f.after, tail, expected);
    if f.MoreFields? {
      SkipPlain(",", RenderFields(f.rest) + t, expected);
      SkipFields(f.rest, t, expected);
    }
  }

  lemma {:induction false} ScalarEnds(text: string, t: string)
    requires (forall i :: 0 <= i < |text| ==> ScalarChar(text[i])) && t != "" && Delimits(t[0])
    ensures Undelimited(text + t) == t
    decreases |text|
  {
    hide Suffix;
    if text == "" {
      assert text + t == t;
    } else {
      assert (text + t)[1..] == text[1..] + t && (text + t)[0] == text[0];
      ScalarEnds(text[1..], t);
    }
  }

  /** A value before a delimiter is passed exactly when at most 128 containers are open within it. */
  lemma ValueEnds(v: Json, t: string)
    requires WellFormed(v) && t != "" && Delimits(t[0])
    ensures ValueRest(Render(v) + t) == if Depth(v) <= MAX_CONTAINERS then Some(t) else None
  {
    hide Suffix, Skip;
    var s := Render(v) + t;
    match v
    case Scalar(text) =>
      ScalarEnds(text, t);
      assert s[0] == text[0];
    case Str(body) =>
      assert s[1..] == body + "\"" + t;
      StringEnds(body, t);
    case EmptyArray(w) =>
      assert s[1..] == w + ("]" + t);
      SkipPlain(w, "]" + t, [']']);
      SkipDone('[', t);
    case EmptyObject(w) =>
      assert s[1..] == w + ("}" + t);
      SkipPlain(w, "}" + t, ['}']);
      SkipDone('{', t);
    case Array(items) =>
      assert s[1..] == RenderItems(items) + ("]" + t);
      SkipItems(items, "]" + t, [']']);
      SkipDone('[', t);
    case Object(fields) =>
      assert s[1..] == RenderFields(fields) + ("}" + t);
      SkipFields(fields, "}" + t, ['}']);
      SkipDone('{', t);
  }

  lemma SkipDone(open: char, t: string)
    requires Opens(open)
    ensures Skip([Closing(open)] + t, [Closing(open)]) == Some(t)
  {
    SkipClose(open, t, []);
    assert [] + [Closing(open)] == [Closing(open)];
  }
}
