/**
 The opaque header scanner: a projection of portable evidence text to its header members that never decodes
 the body. Functions below read a suffix of the text; the index loops of the scanner are proved equal to them.
 */
module HeaderScanner {
  import opened Basics

  predicate IsHeader(name: string) {
    name == "schema_version" || name == "contract" || name == "artifact_type" || name == "plan"
  }

  predicate Known(name: string) { IsHeader(name) || name == "report" || name == "files" }

  const MAX_CONTAINERS: nat := 128
  const MAX_BYTES: nat := 2_097_152

  predicate IsSpace(c: char) { c == ' ' || c == '\t' || c == '\r' || c == '\n' }

  predicate Delimits(c: char) { IsSpace(c) || c == ',' || c == '}' || c == ']' }

  predicate Opens(c: char) { c == '{' || c == '[' }

  predicate Closes(c: char) { c == '}' || c == ']' }

  function Closing(c: char): char { if c == '{' then '}' else ']' }

  // ---------------------------------------------------------------- what the scanner computes

  predicate Suffix(r: string, s: string) { |r| <= |s| && r == s[|s| - |r|..] }

  lemma SuffixTransitive(a: string, b: string, c: string)
    requires Suffix(a, b) && Suffix(b, c)
    ensures Suffix(a, c)
  {
    assert b[|b| - |a|..] == c[|c| - |a|..];
  }

  /** The text after leading JSON whitespace. */
  function Space(s: string): (r: string)
    ensures |r| <= |s| && (r != "" ==> !IsSpace(r[0]))
    decreases |s|
  {
    if s != "" && IsSpace(s[0]) then Space(s[1..]) else s
  }

  lemma {:induction false} SpaceSuffix(s: string)
    ensures Suffix(Space(s), s)
    decreases |s|
  {
    if s != "" && IsSpace(s[0]) { SpaceSuffix(s[1..]); }
  }

  /** The text after the closing quote of a string whose opening quote precedes s. */
  function StringRest(s: string): (r: Option<string>)
    ensures r.Some? ==> |r.value| < |s| && Suffix(r.value, s)
    decreases |s|
  {
    if s == "" then None
    else if s[0] == '"' then Some(s[1..])
    else if s[0] != '\\' then StringRest(s[1..])
    else if |s| < 2 then None
    else StringRest(s[2..])
  }

  /** The text after the containers whose closing characters are stacked in expected. */
  function Skip(s: string, expected: seq<char>): (r: Option<string>)
    ensures r.Some? ==> Suffix(r.value, s)
    decreases |s|
  {
    if expected == [] then Some(s)
    else if s == "" then None
    else if s[0] == '"' then
      match StringRest(s[1..])
      case None => None
      case Some(rest) => Skip(rest, expected)
    else if Opens(s[0]) then
      if |expected| + 1 > MAX_CONTAINERS then None else Skip(s[1..], expected + [Closing(s[0])])
    else if Closes(s[0]) then
      if s[0] != expected[|expected| - 1] then None else Skip(s[1..], expected[..|expected| - 1])
    else Skip(s[1..], expected)
  }

  /** The text from the first delimiter on. */
  function Undelimited(s: string): (r: string)
    ensures Suffix(r, s)
    decreases |s|
  {
    if s != "" && !Delimits(s[0]) then Undelimited(s[1..]) else s
  }

  /** The text after one opaque value. */
  function ValueRest(s: string): (r: Option<string>)
    ensures r.Some? ==> |r.value| < |s| && Suffix(r.value, s)
  {
    if s == "" then None
    else if s[0] == '"' then StringRest(s[1..])
    else if Opens(s[0]) then Skip(s[1..], [Closing(s[0])])
    else if Undelimited(s) == s then None
    else Some(Undelimited(s))
  }

  datatype Named = Named(name: string, colon: string)

  /** The decoded known name of the member that starts s, and the text from its colon on. */
  function MemberName(s: string, seen: set<string>, decode: string -> Option<string>): (r: Option<Named>)
    ensures r.Some? ==> Known(r.value.name) && r.value.name !in seen
    ensures r.Some? ==> 0 < |r.value.colon| < |s| && Suffix(r.value.colon, s) && r.value.colon[0] == ':'
  {
    if s == "" || s[0] != '"' then None
    else
      match StringRest(s[1..])
      case None => None
      case Some(rest) =>
        SuffixTransitive(rest, s[1..], s);
        match decode(s[..|s| - |rest|])
        case None => None
        case Some(name) =>
          if !Known(name) || name in seen then None
          else
            var colon := Space(rest);
            SpaceSuffix(rest);
            SuffixTransitive(colon, rest, s);
            if colon == "" || colon[0] != ':' then None else Some(Named(name, colon))
  }

  /** The raw span of a header member: its name as written up to the colon, and its value. */
  function Piece(s: string, colon: string, start: string, rest: string): string
    requires |colon| <= |s| && |rest| <= |start|
  {
    s[..|s| - |colon|] + ":" + start[..|start| - |rest|]
  }

  datatype Projected = Projected(pieces: seq<string>, rest: string)

  /** The header spans of the members that start s, and the text after the closing brace. */
  function ScanMembers(s: string, seen: set<string>, decode: string -> Option<string>): (r: Option<Projected>)
    decreases |s|
  {
    match MemberName(s, seen, decode)
    case None => None
    case Some(named) =>
      var start := Space(named.colon[1..]);
      match ValueRest(start)
      case None => None
      case Some(rest) =>
        var here := if IsHeader(named.name) then [Piece(s, named.colon, start, rest)] else [];
        var next := Space(rest);
        if next == "" then None
        else if next[0] == '}' then Some(Projected(here, next[1..]))
        else if next[0] != ',' then None
        else
          match ScanMembers(Space(next[1..]), seen + {named.name}, decode)
          case None => None
          case Some(more) => Some(Projected(here + more.pieces, more.rest))
  }

  function Join(pieces: seq<string>): string {
    if pieces == [] then ""
    else if |pieces| == 1 then pieces[0]
    else Join(pieces[..|pieces| - 1]) + "," + pieces[|pieces| - 1]
  }

  function Bytes(c: char): nat {
    var n := c as int;
    if n < 0x80 then 1 else if n < 0x800 then 2 else if n < 0x1_0000 then 3 else 4
  }

  /** The size of the text in UTF-8. */
  function Size(s: string): nat { if s == "" then 0 else Size(s[..|s| - 1]) + Bytes(s[|s| - 1]) }

  /** The projected header, or None where the scanner raises. */
  function Header(s: string, decode: string -> Option<string>): Option<string> {
    var open := Space(s);
    if Size(s) > MAX_BYTES || open == "" || open[0] != '{' then None
    else
      var first := Space(open[1..]);
      var scanned := if first != "" && first[0] == '}' then Some(Projected([], first[1..]))
                     else ScanMembers(first, {}, decode);
      match scanned
      case None => None
      case Some(p) => if Space(p.rest) != "" then None else Some("{" + Join(p.pieces) + "}")
  }

  // ---------------------------------------------------------------- the scanner's loops

  method SpaceIndex(payload: string, from: nat) returns (index: nat)
    requires from <= |payload|
    ensures from <= index <= |payload| && payload[index..] == Space(payload[from..])
  {
    index := from;
    while index < |payload| && IsSpace(payload[index])
      invariant from <= index <= |payload| && Space(payload[index..]) == Space(payload[from..])
    {
      assert payload[index..][1..] == payload[index + 1..];
      index := index + 1;
    }
  }

  method StringEnd(payload: string, from: nat) returns (end: Option<nat>)
    requires from < |payload|
    ensures end.Some? <==> StringRest(payload[from + 1..]).Some?
    ensures end.Some? ==> from + 1 < end.value <= |payload| && payload[end.value..] == StringRest(payload[from + 1..]).value
  {
    hide Suffix;
    var index := from + 1;
    while index < |payload|
      invariant from + 1 <= index <= |payload| + 1
      invariant index <= |payload| ==> StringRest(payload[index..]) == StringRest(payload[from + 1..])
      invariant index == |payload| + 1 ==> StringRest(payload[from + 1..]).None?
    {
      var tail := payload[index..];
      assert tail[0] == payload[index] && tail[1..] == payload[index + 1..];
      if payload[index] == '"' { return Some(index + 1); }
      if payload[index] == '\\' {
        if index + 2 <= |payload| { assert tail[2..] == payload[index + 2..]; }
        index := index + 2;
      } else {
        index := index + 1;
      }
    }
    end := None;
  }

  method ContainerEnd(payload: string, from: nat) returns (end: Option<nat>)
    requires from < |payload| && Opens(payload[from])
    ensures end.Some? <==> Skip(payload[from + 1..], [Closing(payload[from])]).Some?
    ensures end.Some? ==> from < end.value <= |payload|
    ensures end.Some? ==> payload[end.value..] == Skip(payload[from + 1..], [Closing(payload[from])]).value
  {
    var expected := [Closing(payload[from])];
    var index := from + 1;
    while expected != [] && index < |payload|
      invariant from + 1 <= index <= |payload|
      invariant Skip(payload[index..], expected) == Skip(payload[from + 1..], [Closing(payload[from])])
      decreases |payload| - index
    {
      var character := payload[index];
      var tail := payload[index..];
      assert tail[0] == character && tail[1..] == payload[index + 1..];
      if character == '"' {
        var after := StringEnd(payload, index);
        if after.None? { return None; }
        index := after.value;
      } else {
        if Opens(character) {
          expected := expected + [Closing(character)];
          if |expected| > MAX_CONTAINERS { return None; }
        } else if Closes(character) {
          if character != expected[|expected| - 1] { return None; }
          expected := expected[..|expected| - 1];
        }
        index := index + 1;
      }
    }
    if expected != [] { return None; }
    end := Some(index);
  }

  method ValueEnd(payload: string, from: nat) returns (end: Option<nat>)
    requires from <= |payload|
    ensures end.Some? <==> ValueRest(payload[from..]).Some?
    ensures end.Some? ==> from < end.value <= |payload| && payload[end.value..] == ValueRest(payload[from..]).value
  {
    if from >= |payload| { return None; }
    var tail := payload[from..];
    assert tail[0] == payload[from] && tail[1..] == payload[from + 1..];
    if payload[from] == '"' {
      end := StringEnd(payload, from);
      return;
    }
    if !Opens(payload[from]) {
      var index := from;
      while index < |payload| && !Delimits(payload[index])
        invariant from <= index <= |payload| && Undelimited(payload[index..]) == Undelimited(tail)
      {
        assert payload[index..][1..] == payload[index + 1..];
        index := index + 1;
      }
      if index == from { return None; }
      return Some(index);
    }
    end := ContainerEnd(payload, from);
  }

  method MemberNameEnd(payload: string, from: nat, seen: set<string>, decode: string -> Option<string>)
    returns (name: string, separator: Option<nat>)
    requires from < |payload|
    ensures separator.Some? <==> MemberName(payload[from..], seen, decode).Some?
    ensures separator.Some? ==> from < separator.value < |payload|
    ensures separator.Some? ==> MemberName(payload[from..], seen, decode) == Some(Named(name, payload[separator.value..]))
  {
    hide Known, IsHeader, StringRest, Space, Suffix;
    name, separator := "", None;
    var tail := payload[from..];
    assert tail[0] == payload[from] && tail[1..] == payload[from + 1..];
    if payload[from] != '"' { return; }
    var end := StringEnd(payload, from);
    if end.None? { return; }
    assert payload[from..end.value] == tail[..|tail| - |payload[end.value..]|];
    var decoded := decode(payload[from..end.value]);
    if decoded.None? || !Known(decoded.value) || decoded.value in seen { return; }
    var at := SpaceIndex(payload, end.value);
    if at >= |payload| || payload[at] != ':' { return; }
    name, separator := decoded.value, Some(at);
  }

  method MembersFrom(payload: string, from: nat, decode: string -> Option<string>)
    returns (pieces: seq<string>, end: Option<nat>)
    requires from <= |payload|
    ensures end.Some? <==> ScanMembers(payload[from..], {}, decode).Some?
    ensures end.Some? ==> end.value <= |payload|
    ensures end.Some? ==> ScanMembers(payload[from..], {}, decode) == Some(Projected(pieces, payload[end.value..]))
  {
    hide Known, IsHeader, StringRest, Space, MemberName, ValueRest, Piece, ScanMembers, Suffix;
    pieces, end := [], None;
    var seen: set<string> := {};
    var index := from;
    ghost var whole := ScanMembers(payload[from..], {}, decode);
    PrependNothing(whole);
    while index < |payload|
      invariant from <= index <= |payload|
      invariant whole == Prepended(pieces, ScanMembers(payload[index..], seen, decode))
      decreases |payload| - index
    {
      ghost var s := payload[index..];
      var name, separator := MemberNameEnd(payload, index, seen, decode);
      MemberStep(s, seen, decode);
      if separator.None? { return; }
      assert payload[separator.value..][1..] == payload[separator.value + 1..];
      var start := SpaceIndex(payload, separator.value + 1);
      var stop := ValueEnd(payload, start);
      if stop.None? { return; }
      PieceAt(payload, index, separator.value, start, stop.value);
      ghost var here := if IsHeader(name) then [Piece(s, payload[separator.value..], payload[start..], payload[stop.value..])]
                        else [];
      ghost var before := pieces;
      if IsHeader(name) {
        pieces := pieces + [payload[index..separator.value] + ":" + payload[start..stop.value]];
      }
      assert pieces == before + here;
      seen := seen + {name};
      index := SpaceIndex(payload, stop.value);
      if index < |payload| && payload[index] == '}' {
        assert payload[index..][1..] == payload[index + 1..];
        return pieces, Some(index + 1);
      }
      if index >= |payload| || payload[index] != ',' { return; }
      assert payload[index..][1..] == payload[index + 1..];
      index := SpaceIndex(payload, index + 1);
      PrependTwice(before, here, ScanMembers(payload[index..], seen, decode));
    }
    MemberStep(payload[index..], seen, decode);
  }

  function Prepended(pieces: seq<string>, r: Option<Projected>): Option<Projected> {
    if r.None? then None else Some(Projected(pieces + r.value.pieces, r.value.rest))
  }

  lemma PrependNothing(r: Option<Projected>)
    ensures Prepended([], r) == r
  {
    if r.Some? { assert [] + r.value.pieces == r.value.pieces; }
  }

  lemma PrependTwice(a: seq<string>, b: seq<string>, r: Option<Projected>)
    ensures Prepended(a, Prepended(b, r)) == Prepended(a + b, r)
  {
    if r.Some? { assert a + (b + r.value.pieces) == (a + b) + r.value.pieces; }
  }

  /** One unfolding of ScanMembers. */
  lemma MemberStep(s: string, seen: set<string>, decode: string -> Option<string>)
    ensures s == "" ==> ScanMembers(s, seen, decode).None?
    ensures MemberName(s, seen, decode).None? ==> ScanMembers(s, seen, decode).None?
    ensures MemberName(s, seen, decode).Some? ==>
              var named := MemberName(s, seen, decode).value;
              var start := Space(named.colon[1..]);
              && (ValueRest(start).None? ==> ScanMembers(s, seen, decode).None?)
              && (ValueRest(start).Some? ==>
                    var here := if IsHeader(named.name) then [Piece(s, named.colon, start, ValueRest(start).value)] else [];
                    var next := Space(ValueRest(start).value);
                    ScanMembers(s, seen, decode) ==
                    if next == "" then None
                    else if next[0] == '}' then Some(Projected(here, next[1..]))
                    else if next[0] != ',' then None
                    else Prepended(here, ScanMembers(Space(next[1..]), seen + {named.name}, decode)))
  {
    hide Known, IsHeader, StringRest, Space, MemberName, ValueRest, Piece, Suffix;
    if s == "" { NoName(seen, decode); }
  }

  lemma NoName(seen: set<string>, decode: string -> Option<string>)
    ensures MemberName("", seen, decode) == None
  {}

  lemma PieceAt(payload: string, index: nat, separator: nat, start: nat, stop: nat)
    requires index <= separator <= |payload| && start <= stop <= |payload|
    ensures Piece(payload[index..], payload[separator..], payload[start..], payload[stop..]) ==
            payload[index..separator] + ":" + payload[start..stop]
  {
    assert payload[index..][..separator - index] == payload[index..separator];
    assert payload[start..][..stop - start] == payload[start..stop];
  }

  method SourceHeader(payload: string, decode: string -> Option<string>) returns (header: Option<string>)
    ensures header == Header(payload, decode)
  {
    hide Space, ScanMembers, Join, Suffix, Size;
    if Size(payload) > MAX_BYTES { return None; }
    assert payload[0..] == payload;
    var index := SpaceIndex(payload, 0);
    if index >= |payload| || payload[index] != '{' { return None; }
    assert payload[index..][1..] == payload[index + 1..];
    index := SpaceIndex(payload, index + 1);
    var pieces: seq<string>, end: Option<nat>;
    if index < |payload| && payload[index] == '}' {
      assert payload[index..][1..] == payload[index + 1..];
      pieces, end := [], Some(index + 1);
    } else {
      pieces, end := MembersFrom(payload, index, decode);
      if end.None? { return None; }
    }
    var last := SpaceIndex(payload, end.value);
    if last != |payload| { return None; }
    header := Some("{" + Join(pieces) + "}");
  }
}
