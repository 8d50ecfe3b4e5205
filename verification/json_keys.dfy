/**
 The pass that rejects JSON texts with repeated member names (section 4 of RFC 8259), on UTF-16
 code units as JavaScript sees them.
*/
module JsonKeys {

  import opened Faults

  type Unit = u: int | 0 <= u < 0x1_0000
  type Text = seq<Unit>

  const QUOTE: Unit := 0x22
  const BACKSLASH: Unit := 0x5C
  const COLON: Unit := 0x3A
  const COMMA: Unit := 0x2C
  const LBRACE: Unit := 0x7B
  const RBRACE: Unit := 0x7D
  const LBRACKET: Unit := 0x5B
  const RBRACKET: Unit := 0x5D

  predicate IsBracket(u: Unit) {
    u == LBRACE || u == RBRACE || u == LBRACKET || u == RBRACKET
  }

  // `\s` of a JavaScript regular expression.
  predicate IsSpace(u: Unit) {
    0x09 <= u <= 0x0D || u == 0x20 || u == 0xA0 || u == 0x1680 || 0x2000 <= u <= 0x200A ||
    u == 0x2028 || u == 0x2029 || u == 0x202F || u == 0x205F || u == 0x3000 || u == 0xFEFF
  }

  // What `.` does not match.
  predicate IsLineTerminator(u: Unit) {
    u == 0x0A || u == 0x0D || u == 0x2028 || u == 0x2029
  }

  // ---- The scanner ----

  // `/^\s*:/`
  predicate ColonFollows(t: Text) {
    t != [] && (t[0] == COLON || (IsSpace(t[0]) && ColonFollows(t[1..])))
  }

  // The length of the shortest match of `(?:[^"\\]|\\.)*"` at the start of `t`; no other exists.
  function StringLength(t: Text): (n: Option<nat>)
    ensures n.Some? ==> 0 < n.value <= |t|
  {
    if t == [] then None
    else if t[0] == QUOTE then Some(1)
    else
      var step := if t[0] == BACKSLASH then 2 else 1;
      if step > |t| || (step == 2 && IsLineTerminator(t[1])) then None
      else
        match StringLength(t[step..])
        case None => None
        case Some(n) => Some(step + n)
  }

  function Hex(u: Unit): Option<nat> {
    if 0x30 <= u <= 0x39 then Some(u - 0x30)
    else if 0x41 <= u <= 0x46 then Some(u - 0x41 + 10)
    else if 0x61 <= u <= 0x66 then Some(u - 0x61 + 10)
    else None
  }

  function Unescape(u: Unit): Option<Unit> {
    if u == QUOTE || u == BACKSLASH || u == 0x2F then Some(u)
    else if u == 0x62 then Some(0x08)
    else if u == 0x66 then Some(0x0C)
    else if u == 0x6E then Some(0x0A)
    else if u == 0x72 then Some(0x0D)
    else if u == 0x74 then Some(0x09)
    else None
  }

  function FourHex(t: Text): Option<Unit>
    requires |t| >= 4
  {
    match (Hex(t[0]), Hex(t[1]), Hex(t[2]), Hex(t[3]))
    case (Some(a), Some(b), Some(c), Some(d)) =>
      if a < 16 && b < 16 && c < 16 && d < 16 then Some(((a * 16 + b) * 16 + c) * 16 + d) else None
    case _ => None
  }

  // `JSON.parse` of a string token, given what stands between its quotes.
  function Decode(t: Text): Option<Text> {
    if t == [] then Some([])
    else if t[0] == QUOTE || t[0] < 0x20 then None
    else if t[0] != BACKSLASH then
      match Decode(t[1..])
      case None => None
      case Some(r) => Some([t[0]] + r)
    else if |t| >= 6 && t[1] == 0x75 then
      match (FourHex(t[2..6]), Decode(t[6..]))
      case (Some(u), Some(r)) => Some([u] + r)
      case _ => None
    else if |t| >= 2 then
      match (Unescape(t[1]), Decode(t[2..]))
      case (Some(u), Some(r)) => Some([u] + r)
      case _ => None
    else None
  }

  // One entry per open bracket: the member names seen in an object, nothing for an array.
  type Stack = seq<Option<set<Text>>>

  function Pop(s: Stack): Stack {
    if s == [] then [] else s[..|s| - 1]
  }

  // A string followed by a colon: accepted unless its name was seen in the innermost object.
  function Note(s: Stack, token: Text): Option<Stack> {
    if s == [] || s[|s| - 1].None? then None
    else
      match Decode(token)
      case None => None
      case Some(name) =>
        if name in s[|s| - 1].value then None else Some(s[|s| - 1 := Some(s[|s| - 1].value + {name})])
  }

  // Whether the rest of the text passes.
  predicate Passes(t: Text, s: Stack) {
    if t == [] then true
    else if t[0] == LBRACE then Passes(t[1..], s + [Some({})])
    else if t[0] == LBRACKET then Passes(t[1..], s + [None])
    else if t[0] == RBRACE || t[0] == RBRACKET then Passes(t[1..], Pop(s))
    else if t[0] == QUOTE && StringLength(t[1..]).Some? then
      var n := StringLength(t[1..]).value;
      if ColonFollows(t[1 + n..]) then
        var noted := Note(s, t[1..n]);
        noted.Some? && Passes(t[1 + n..], noted.value)
      else Passes(t[1 + n..], s)
    else Passes(t[1..], s)
  }

  // The loop of `parseJson` over the matches of its expression.
  method Scan(text: Text) returns (ok: bool)
    ensures ok == Passes(text, [])
  {
    var objects: Stack := [];
    var i := 0;
    while i < |text|
      invariant 0 <= i <= |text|
      invariant Passes(text, []) == Passes(text[i..], objects)
    {
      var u := text[i];
      assert text[i..][1..] == text[i + 1..];
      i := i + 1;
      if u == LBRACE {
        objects := objects + [Some({})];
      } else if u == LBRACKET {
        objects := objects + [None];
      } else if u == RBRACE || u == RBRACKET {
        objects := Pop(objects);
      } else if u == QUOTE {
        var length := StringLength(text[i..]);
        if length.Some? {
          var end := i + length.value;
          assert text[i - 1..][1 + length.value..] == text[end..];
          assert text[i - 1..][1..length.value] == text[i..end - 1];
          if ColonFollows(text[end..]) {
            var noted := Note(objects, text[i..end - 1]);
            if noted.None? { return false; }
            objects := noted.value;
          }
          i := end;
        }
      }
    }
    return true;
  }

  // ---- JSON texts ----

  // One character of a string, as it may be written.
  datatype Piece = Plain(u: Unit) | Escaped(c: Unit) | Code(h0: Unit, h1: Unit, h2: Unit, h3: Unit)

  // A value with all its white space. `inside` is the white space of an empty array or object.
  datatype Value =
    | Literal(text: Text)
    | Str(pieces: seq<Piece>)
    | Array(inside: Text, items: Items)
    | Object(inside: Text, members: Members)
  datatype Items = NoItems | Item(before: Text, value: Value, after: Text, rest: Items)
  datatype Members =
    | NoMembers
    | Member(before: Text, name: seq<Piece>, beforeColon: Text, afterColon: Text, value: Value, after: Text,
             rest: Members)

  // White space of RFC 8259.
  predicate IsBlank(u: Unit) {
    u == 0x20 || u == 0x09 || u == 0x0A || u == 0x0D
  }

  ghost predicate Blank(t: Text) {
    forall i :: 0 <= i < |t| ==> IsBlank(t[i])
  }

  ghost predicate ValidPiece(p: Piece) {
    match p
    case Plain(u) => u >= 0x20 && u != QUOTE && u != BACKSLASH
    case Escaped(c) => Unescape(c).Some?
    case Code(a, b, c, d) => Hex(a).Some? && Hex(b).Some? && Hex(c).Some? && Hex(d).Some?
  }

  ghost predicate ValidName(ps: seq<Piece>) {
    forall i :: 0 <= i < |ps| ==> ValidPiece(ps[i])
  }

  // A number or one of the three names: nothing a scanner could take for structure.
  ghost predicate ValidLiteral(t: Text) {
    t != [] && forall i :: 0 <= i < |t| ==>
      !IsBracket(t[i]) && t[i] !in {QUOTE, BACKSLASH, COLON, COMMA} && !IsSpace(t[i])
  }

  ghost predicate Valid(v: Value) {
    match v
    case Literal(t) => ValidLiteral(t)
    case Str(ps) => ValidName(ps)
    case Array(inside, items) => Blank(inside) && ValidItems(items)
    case Object(inside, members) => Blank(inside) && ValidMembers(members)
  }

  ghost predicate ValidItems(items: Items) {
    match items
    case NoItems => true
    case Item(before, v, after, rest) => Blank(before) && Valid(v) && Blank(after) && ValidItems(rest)
  }

  ghost predicate ValidMembers(ms: Members) {
    match ms
    case NoMembers => true
    case Member(before, name, bc, ac, v, after, rest) =>
      Blank(before) && ValidName(name) && Blank(bc) && Blank(ac) && Valid(v) && Blank(after) && ValidMembers(rest)
  }

  function PieceText(p: Piece): Text {
    match p
    case Plain(u) => [u]
    case Escaped(c) => [BACKSLASH, c]
    case Code(a, b, c, d) => [BACKSLASH, 0x75, a, b, c, d]
  }

  function NameText(ps: seq<Piece>): Text {
    if ps == [] then [] else PieceText(ps[0]) + NameText(ps[1..])
  }

  function Render(v: Value): Text {
    match v
    case Literal(t) => t
    case Str(ps) => [QUOTE] + NameText(ps) + [QUOTE]
    case Array(inside, items) => [LBRACKET] + (if items.NoItems? then inside else RenderItems(items)) + [RBRACKET]
    case Object(inside, members) =>
      [LBRACE] + (if members.NoMembers? then inside else RenderMembers(members)) + [RBRACE]
  }

  function RenderItems(items: Items): Text {
    match items
    case NoItems => []
    case Item(before, v, after, rest) =>
      before + Render(v) + after + (if rest.NoItems? then [] else [COMMA] + RenderItems(rest))
  }

  function RenderMembers(ms: Members): Text {
    match ms
    case NoMembers => []
    case Member(before, name, bc, ac, v, after, rest) =>
      before + [QUOTE] + NameText(name) + [QUOTE] + bc + [COLON] + ac + Render(v) + after +
      (if rest.NoMembers? then [] else [COMMA] + RenderMembers(rest))
  }

  // ---- What a text means ----

  function PieceUnit(p: Piece): Unit
    requires ValidPiece(p)
  {
    match p
    case Plain(u) => u
    case Escaped(c) => Unescape(c).value
    case Code(a, b, c, d) => ((Digit(a) * 16 + Digit(b)) * 16 + Digit(c)) * 16 + Digit(d)
  }

  function Digit(u: Unit): (d: nat)
    requires Hex(u).Some?
    ensures d < 16
  {
    Hex(u).value
  }

  // The name a string stands for.
  function Name(ps: seq<Piece>): Text
    requires ValidName(ps)
  {
    if ps == [] then [] else [PieceUnit(ps[0])] + Name(ps[1..])
  }

  function Names(ms: Members): seq<Text>
    requires ValidMembers(ms)
  {
    if ms.NoMembers? then [] else [Name(ms.name)] + Names(ms.rest)
  }

  ghost predicate Distinct(names: seq<Text>) {
    forall i, j :: 0 <= i < j < |names| ==> names[i] != names[j]
  }

  // No object at any depth has two members of the same name.
  ghost predicate NoRepeats(v: Value)
    requires Valid(v)
  {
    match v
    case Literal(_) => true
    case Str(_) => true
    case Array(_, items) => NoRepeatsInItems(items)
    case Object(_, members) => Distinct(Names(members)) && NoRepeatsInMembers(members)
  }

  ghost predicate NoRepeatsInItems(items: Items)
    requires ValidItems(items)
  {
    items.NoItems? || (NoRepeats(items.value) && NoRepeatsInItems(items.rest))
  }

  ghost predicate NoRepeatsInMembers(ms: Members)
    requires ValidMembers(ms)
  {
    ms.NoMembers? || (NoRepeats(ms.value) && NoRepeatsInMembers(ms.rest))
  }

  // ---- The scanner reads a text as the grammar does ----

  lemma {:induction false} Skip(t: Text, rest: Text, s: Stack)
    requires forall i :: 0 <= i < |t| ==> !IsBracket(t[i]) && t[i] != QUOTE
    ensures Passes(t + rest, s) == Passes(rest, s)
  {
    if t == [] {
      assert t + rest == rest;
    } else {
      assert (t + rest)[1..] == t[1..] + rest;
      Skip(t[1..], rest, s);
    }
  }

  lemma {:induction false} StringLengthStep(t: Text, u: Unit)
    requires u != QUOTE && u != BACKSLASH
    ensures StringLength([u] + t) == match StringLength(t) case None => None case Some(n) => Some(1 + n)
  {
  }

  lemma {:induction false} StringLengthEscape(t: Text, u: Unit)
    requires !IsLineTerminator(u)
    ensures StringLength([BACKSLASH, u] + t) == match StringLength(t) case None => None case Some(n) => Some(2 + n)
  {
  }

  lemma {:induction false} StringLengthPiece(p: Piece, t: Text)
    requires ValidPiece(p)
    ensures StringLength(PieceText(p) + t) ==
            match StringLength(t) case None => None case Some(n) => Some(|PieceText(p)| + n)
  {
    match p
    case Plain(u) => StringLengthStep(t, u);
    case Escaped(c) => StringLengthEscape(t, c);
    case Code(a, b, c, d) =>
      var t3 := [d] + t;
      var t2 := [c] + t3;
      var t1 := [b] + t2;
      var t0 := [a] + t1;
      assert PieceText(p) + t == [BACKSLASH, 0x75] + t0;
      StringLengthEscape(t0, 0x75);
      StringLengthStep(t1, a);
      StringLengthStep(t2, b);
      StringLengthStep(t3, c);
      StringLengthStep(t, d);
  }

  lemma {:induction false} StringEndsAtItsQuote(ps: seq<Piece>, rest: Text)
    requires ValidName(ps)
    ensures StringLength(NameText(ps) + [QUOTE] + rest) == Some(|NameText(ps)| + 1)
  {
    if ps == [] {
      assert NameText(ps) + [QUOTE] + rest == [QUOTE] + rest;
    } else {
      StringEndsAtItsQuote(ps[1..], rest);
      StringLengthPiece(ps[0], NameText(ps[1..]) + [QUOTE] + rest);
      assert NameText(ps) + [QUOTE] + rest == PieceText(ps[0]) + (NameText(ps[1..]) + [QUOTE] + rest);
    }
  }

  lemma {:induction false} DecodePiece(p: Piece, t: Text)
    requires ValidPiece(p)
    ensures Decode(PieceText(p) + t) == match Decode(t) case None => None case Some(r) => Some([PieceUnit(p)] + r)
  {
  }

  // Two spellings of a name decode to the same name.
  lemma {:induction false} DecodeIsName(ps: seq<Piece>)
    requires ValidName(ps)
    ensures Decode(NameText(ps)) == Some(Name(ps))
  {
    if ps != [] {
      DecodeIsName(ps[1..]);
      DecodePiece(ps[0], NameText(ps[1..]));
    }
  }

  lemma {:induction false} ColonAfterBlank(t: Text, rest: Text)
    requires Blank(t)
    ensures ColonFollows(t + rest) == ColonFollows(rest)
  {
    if t == [] {
      assert t + rest == rest;
    } else {
      assert (t + rest)[1..] == t[1..] + rest;
      ColonAfterBlank(t[1..], rest);
    }
  }

  // What a string token does to the stack.
  lemma {:induction false} PassString(ps: seq<Piece>, rest: Text, s: Stack)
    requires ValidName(ps)
    ensures !ColonFollows(rest) ==> Passes([QUOTE] + NameText(ps) + [QUOTE] + rest, s) == Passes(rest, s)
    ensures ColonFollows(rest) && s != [] && s[|s| - 1].Some? ==>
              Passes([QUOTE] + NameText(ps) + [QUOTE] + rest, s) ==
              (Name(ps) !in s[|s| - 1].value &&
               Passes(rest, s[|s| - 1 := Some(s[|s| - 1].value + {Name(ps)})]))
  {
    var t := [QUOTE] + NameText(ps) + [QUOTE] + rest;
    assert t[1..] == NameText(ps) + [QUOTE] + rest;
    StringEndsAtItsQuote(ps, rest);
    var n := |NameText(ps)| + 1;
    assert t[1 + n..] == rest;
    assert t[1..n] == NameText(ps);
    DecodeIsName(ps);
  }

  lemma {:induction false} PassValue(v: Value, rest: Text, s: Stack)
    requires Valid(v) && !ColonFollows(rest)
    ensures Passes(Render(v) + rest, s) == (NoRepeats(v) && Passes(rest, s))
    decreases v, 1
  {
    match v
    case Literal(t) => Skip(t, rest, s);
    case Str(ps) => PassString(ps, rest, s);
    case Array(inside, items) =>
      PassBrackets(LBRACKET, if items.NoItems? then inside else RenderItems(items), RBRACKET, rest, s);
      if items.NoItems? {
        Skip(inside, [RBRACKET] + rest, s + [None]);
      } else {
        PassItems(items, [RBRACKET] + rest, s + [None]);
      }
    case Object(inside, members) =>
      PassBrackets(LBRACE, if members.NoMembers? then inside else RenderMembers(members), RBRACE, rest, s);
      if members.NoMembers? {
        Skip(inside, [RBRACE] + rest, s + [Some({})]);
      } else {
        PassMembers(members, rest, s, {});
      }
  }

  // Opening pushes, closing pops whatever is on top.
  lemma PassBrackets(open: Unit, inner: Text, close: Unit, rest: Text, s: Stack)
    requires (open == LBRACE && close == RBRACE) || (open == LBRACKET && close == RBRACKET)
    ensures Passes([open] + inner + [close] + rest, s) ==
            Passes(inner + ([close] + rest), s + [if open == LBRACE then Some({}) else None])
    ensures forall top :: Passes([close] + rest, s + [top]) == Passes(rest, s)
  {
    assert ([open] + inner + [close] + rest)[1..] == inner + ([close] + rest);
    assert ([close] + rest)[1..] == rest;
    assert forall top :: Pop(s + [top]) == s;
  }

  lemma {:induction false} PassItems(items: Items, rest: Text, s: Stack)
    requires ValidItems(items) && items.Item? && !ColonFollows(rest)
    ensures Passes(RenderItems(items) + rest, s) == (NoRepeatsInItems(items) && Passes(rest, s))
    decreases items
  {
    var more := if items.rest.NoItems? then rest else [COMMA] + (RenderItems(items.rest) + rest);
    var tail := items.after + more;
    ItemsText(items, rest);
    ColonAfterBlank(items.after, more);
    Skip(items.before, Render(items.value) + tail, s);
    PassValue(items.value, tail, s);
    Skip(items.after, more, s);
    if items.rest.Item? {
      Skip([COMMA], RenderItems(items.rest) + rest, s);
      PassItems(items.rest, rest, s);
    }
  }

  lemma ItemsText(items: Items, rest: Text)
    requires items.Item?
    ensures RenderItems(items) + rest ==
            items.before + (Render(items.value) + (items.after +
              (if items.rest.NoItems? then rest else [COMMA] + (RenderItems(items.rest) + rest))))
  {
  }

  lemma MembersText(ms: Members, rest: Text)
    requires ms.Member?
    ensures RenderMembers(ms) + rest ==
            KeyText(ms) + (Render(ms.value) + (ms.after +
              (if ms.rest.NoMembers? then rest else [COMMA] + (RenderMembers(ms.rest) + rest))))
  {
  }

  // `seen`: the names of this object met before these members.
  lemma {:induction false} PassMembers(ms: Members, rest: Text, s: Stack, seen: set<Text>)
    requires ValidMembers(ms) && ms.Member?
    ensures Passes(RenderMembers(ms) + ([RBRACE] + rest), s + [Some(seen)]) ==
            (Distinct(Names(ms)) && (forall n :: n in Names(ms) ==> n !in seen) &&
             NoRepeatsInMembers(ms) && Passes(rest, s))
    decreases ms
  {
    var close := [RBRACE] + rest;
    var more := if ms.rest.NoMembers? then close else [COMMA] + (RenderMembers(ms.rest) + close);
    var name := Name(ms.name);
    MembersText(ms, close);
    PassKey(ms, Render(ms.value) + (ms.after + more), s, seen);
    ColonAfterBlank(ms.after, more);
    PassValue(ms.value, ms.after + more, s + [Some(seen + {name})]);
    Skip(ms.after, more, s + [Some(seen + {name})]);
    DistinctCons(name, Names(ms.rest), seen);
    if ms.rest.Member? {
      Skip([COMMA], RenderMembers(ms.rest) + close, s + [Some(seen + {name})]);
      PassMembers(ms.rest, rest, s, seen + {name});
    } else {
      PassBrackets(LBRACE, [], RBRACE, rest, s);
    }
  }

  // A member up to its value.
  function KeyText(m: Members): Text
    requires m.Member?
  {
    m.before + [QUOTE] + NameText(m.name) + [QUOTE] + m.beforeColon + [COLON] + m.afterColon
  }

  lemma {:induction false} PassKey(m: Members, rest: Text, s: Stack, seen: set<Text>)
    requires ValidMembers(m) && m.Member?
    ensures Passes(KeyText(m) + rest, s + [Some(seen)]) ==
            (Name(m.name) !in seen && Passes(rest, s + [Some(seen + {Name(m.name)})]))
  {
    var open := s + [Some(seen)];
    var open' := s + [Some(seen + {Name(m.name)})];
    var colon := [COLON] + m.afterColon;
    var key := [QUOTE] + NameText(m.name) + [QUOTE] + (m.beforeColon + (colon + rest));
    assert KeyText(m) + rest == m.before + key;
    Skip(m.before, key, open);
    ColonAfterBlank(m.beforeColon, colon + rest);
    PassString(m.name, m.beforeColon + (colon + rest), open);
    assert open[|open| - 1 := Some(seen + {Name(m.name)})] == open';
    Skip(m.beforeColon, colon + rest, open');
    Skip(colon, rest, open');
  }

  lemma DistinctCons(name: Text, names: seq<Text>, seen: set<Text>)
    ensures (Distinct([name] + names) && forall n :: n in [name] + names ==> n !in seen) <==>
            (name !in seen && Distinct(names) && forall n :: n in names ==> n !in seen + {name})
  {
    var all := [name] + names;
    assert forall i :: 0 <= i < |names| ==> names[i] == all[i + 1];
    if Distinct(all) {
      forall i | 0 <= i < |names| ensures names[i] != name {
        assert all[0] != all[i + 1];
      }
    }
    if name !in seen && Distinct(names) && (forall n :: n in names ==> n !in seen + {name}) {
      forall i, j | 0 <= i < j < |all| ensures all[i] != all[j] {
        assert all[j] == names[j - 1];
      }
    }
  }

  // The scan accepts the text of a value exactly when no object in it repeats a name.
  lemma {:induction false} ScanIsExact(before: Text, v: Value, after: Text)
    requires Blank(before) && Valid(v) && Blank(after)
    ensures Passes(before + Render(v) + after, []) <==> NoRepeats(v)
  {
    assert before + Render(v) + after == before + (Render(v) + after);
    Skip(before, Render(v) + after, []);
    ColonAfterBlank(after, []);
    assert after + [] == after;
    PassValue(v, after, []);
    Skip(after, [], []);
  }
}
