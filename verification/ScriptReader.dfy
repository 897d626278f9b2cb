/** The browser's side of the inline script: a reader of JSON text, and what it gets back. */
module ScriptReader {
  import opened Options
  import opened InlineScript

  predicate IsSpace(c: char) { c == ' ' || c == '\t' || c == '\n' || c == '\r' }

  function Skip(t: string): (rest: string)
    ensures |rest| <= |t|
    ensures t != "" && !IsSpace(t[0]) ==> rest == t
  {
    if t != "" && IsSpace(t[0]) then Skip(t[1..]) else t
  }

  function HexValue(c: char): (v: Option<int>)
    ensures v.Some? ==> 0 <= v.value < 16
  {
    if '0' <= c <= '9' then Some(c as int - '0' as int)
    else if 'a' <= c <= 'f' then Some(c as int - 'a' as int + 10)
    else if 'A' <= c <= 'F' then Some(c as int - 'A' as int + 10)
    else None
  }

  function Hex4(t: string): (u: Option<Unit>)
    requires |t| >= 4
  {
    var a, b, c, d := HexValue(t[0]), HexValue(t[1]), HexValue(t[2]), HexValue(t[3]);
    if a.Some? && b.Some? && c.Some? && d.Some?
    then Some(4096 * a.value + 256 * b.value + 16 * c.value + d.value)
    else None
  }

  /** The unit a two-character escape stands for. */
  function ShortEscape(c: char): Option<Unit> {
    match c
    case '"' => Some(0x22)
    case '\\' => Some(0x5c)
    case '/' => Some(0x2f)
    case 'b' => Some(0x08)
    case 'f' => Some(0x0c)
    case 'n' => Some(0x0a)
    case 'r' => Some(0x0d)
    case 't' => Some(0x09)
    case _ => None
  }

  datatype Chars = Chars(units: seq<Unit>, rest: string)

  function Prepend(units: seq<Unit>, r: Option<Chars>): Option<Chars> {
    if r.None? then None else Some(Chars(units + r.value.units, r.value.rest))
  }

  /** The rest of a string literal, after its opening quote. */
  function ReadChars(t: string): (r: Option<Chars>)
    ensures r.Some? ==> |r.value.rest| < |t|
  {
    if t == "" then None
    else if t[0] == '"' then Some(Chars([], t[1..]))
    else if t[0] == '\\' then
      if |t| < 2 then None
      else if t[1] == 'u' then
        if |t| >= 6 && Hex4(t[2..6]).Some? then Prepend([Hex4(t[2..6]).value], ReadChars(t[6..])) else None
      else if ShortEscape(t[1]).Some? then Prepend([ShortEscape(t[1]).value], ReadChars(t[2..]))
      else None
    else if t[0] < ' ' then None
    else Prepend(Utf16Of(t[0] as int), ReadChars(t[1..]))
  }

  function AtomEnd(t: string): (n: nat)
    ensures n <= |t| && forall c | c in t[..n] :: AtomChar(c)
  {
    if t != "" && AtomChar(t[0]) then 1 + AtomEnd(t[1..]) else 0
  }

  datatype Parsed<+T> = Bad | Good(value: T, rest: string)

  function Parse(t: string): (r: Parsed<Doc>)
    ensures r.Good? ==> |r.rest| < |t|
    decreases |t|, 1
  {
    ParseValue(Skip(t))
  }

  function ParseValue(s: string): (r: Parsed<Doc>)
    ensures r.Good? ==> |r.rest| < |s|
    decreases |s|, 0
  {
    if s == "" then Bad
    else if s[0] == '"' then
      match ReadChars(s[1..])
      case None => Bad
      case Some(chars) => Good(DText(chars.units), chars.rest)
    else if s[0] == '[' then
      var u := Skip(s[1..]);
      if u != "" && u[0] == ']' then Good(DList([]), u[1..])
      else match ParseItems(u)
        case Bad => Bad
        case Good(items, rest) => Good(DList(items), rest)
    else if s[0] == '{' then
      var u := Skip(s[1..]);
      if u != "" && u[0] == '}' then Good(DDict([]), u[1..])
      else match ParseMembers(u)
        case Bad => Bad
        case Good(members, rest) => Good(DDict(members), rest)
    else
      var n := AtomEnd(s);
      if n == 0 then Bad else Good(DAtom(s[..n]), s[n..])
  }

  function ParseItems(t: string): (r: Parsed<seq<Doc>>)
    ensures r.Good? ==> |r.rest| < |t|
    decreases |t|, 2
  {
    match Parse(t)
    case Bad => Bad
    case Good(first, rest) =>
      var s := Skip(rest);
      if s == "" then Bad
      else if s[0] == ']' then Good([first], s[1..])
      else if s[0] != ',' then Bad
      else match ParseItems(s[1..])
        case Bad => Bad
        case Good(others, end) => Good([first] + others, end)
  }

  function ParseMembers(t: string): (r: Parsed<seq<Member>>)
    ensures r.Good? ==> |r.rest| < |t|
    decreases |t|, 2
  {
    match ParseMember(Skip(t))
    case Bad => Bad
    case Good(first, rest) =>
      var s := Skip(rest);
      if s == "" then Bad
      else if s[0] == '}' then Good([first], s[1..])
      else if s[0] != ',' then Bad
      else match ParseMembers(s[1..])
        case Bad => Bad
        case Good(others, end) => Good([first] + others, end)
  }

  function ParseMember(s: string): (r: Parsed<Member>)
    ensures r.Good? ==> |r.rest| < |s|
    decreases |s|, 1
  {
    if s == "" || s[0] != '"' || ReadChars(s[1..]).None? then Bad
    else
      var key := ReadChars(s[1..]).value;
      var u := Skip(key.rest);
      if u == "" || u[0] != ':' then Bad
      else match Parse(u[1..])
        case Bad => Bad
        case Good(value, rest) => Good(Member(key.units, value), rest)
  }

  // ---------------------------------------------------------------- strings

  lemma HexOfDigit(d: int)
    requires 0 <= d < 16
    ensures HexValue(HexDigit(d)) == Some(d)
  {
  }

  lemma Hex4OfDigits(a: int, b: int, c: int, d: int)
    requires 0 <= a < 16 && 0 <= b < 16 && 0 <= c < 16 && 0 <= d < 16
    requires 4096 * a + 256 * b + 16 * c + d < 0x10000
    ensures Hex4([HexDigit(a), HexDigit(b), HexDigit(c), HexDigit(d)]) == Some(4096 * a + 256 * b + 16 * c + d)
  {
    HexOfDigit(a);
    HexOfDigit(b);
    HexOfDigit(c);
    HexOfDigit(d);
  }

  lemma HexDigits(u: Unit)
    ensures 4096 * (u / 4096) + 256 * (u / 256 % 16) + 16 * (u / 16 % 16) + u % 16 == u
  {
    assert u / 256 == u / 16 / 16 && u / 4096 == u / 256 / 16;
  }

  lemma Hex4OfUEscape(u: Unit)
    ensures Hex4(UEscape(u)[2..]) == Some(u)
  {
    HexDigits(u);
    Hex4OfDigits(u / 4096, u / 256 % 16, u / 16 % 16, u % 16);
    assert UEscape(u)[2..] == [HexDigit(u / 4096), HexDigit(u / 256 % 16), HexDigit(u / 16 % 16), HexDigit(u % 16)];
  }

  lemma ReadUEscape(u: Unit, rest: string)
    ensures ReadChars(UEscape(u) + rest) == Prepend([u], ReadChars(rest))
  {
    var t := UEscape(u) + rest;
    Hex4OfUEscape(u);
    assert t[2..6] == UEscape(u)[2..] && t[6..] == rest;
  }

  lemma ReadSafeChar(c: CodePoint, rest: string)
    ensures ReadChars(SafeChar(c) + rest) == Prepend(Utf16Of(c), ReadChars(rest))
  {
    var t := SafeChar(c) + rest;
    if c == 0x3c || c == 0x3e || c == 0x26 {
      ReadUEscape(c, rest);
    } else if c == 0x22 || c == 0x5c || c == 0x0a || c == 0x0d || c == 0x09 || c == 0x0c || c == 0x08 {
      assert |SafeChar(c)| == 2 && t[0] == '\\' && t[1] == SafeChar(c)[1] && t[2..] == rest;
    } else if 0x20 <= c <= 0x7e {
      assert t[0] == c as char && t[1..] == rest;
    } else if c < 0x10000 {
      assert UEscapes([c]) == UEscape(c) + UEscapes([]);
      assert SafeChar(c) == UEscape(c);
      ReadUEscape(c, rest);
    } else {
      ReadPair(Utf16Of(c)[0], Utf16Of(c)[1], rest);
    }
  }

  lemma ReadPair(u: Unit, v: Unit, rest: string)
    ensures ReadChars(UEscapes([u, v]) + rest) == Prepend([u, v], ReadChars(rest))
  {
    assert [u, v][1..] == [v] && [v][1..] == [];
    assert UEscapes([v]) == UEscape(v) + "" == UEscape(v);
    assert UEscapes([u, v]) == UEscape(u) + UEscape(v);
    assert UEscapes([u, v]) + rest == UEscape(u) + (UEscape(v) + rest);
    ReadUEscape(u, UEscape(v) + rest);
    ReadUEscape(v, rest);
    PrependTwice(u, v, ReadChars(rest));
  }

  lemma PrependTwice(u: Unit, v: Unit, r: Option<Chars>)
    ensures Prepend([u], Prepend([v], r)) == Prepend([u, v], r)
  {
    if r.Some? {
      assert [u] + ([v] + r.value.units) == [u, v] + r.value.units;
    }
  }

  lemma {:induction false} ReadSafeString(s: seq<CodePoint>, rest: string)
    ensures ReadChars(EncodeAll(SafeChar, s) + "\"" + rest) == Some(Chars(Utf16(s), rest))
  {
    if s == [] {
      assert (EncodeAll(SafeChar, s) + "\"" + rest)[1..] == rest;
    } else {
      var tail := EncodeAll(SafeChar, s[1..]) + "\"" + rest;
      assert EncodeAll(SafeChar, s) + "\"" + rest == SafeChar(s[0]) + tail;
      ReadSafeChar(s[0], tail);
      ReadSafeString(s[1..], rest);
    }
  }

  lemma ReadQuoted(s: seq<CodePoint>, rest: string)
    ensures var t := Quoted(SafeChar, s) + rest;
            t[0] == '"' && ReadChars(t[1..]) == Some(Chars(Utf16(s), rest))
  {
    var t := Quoted(SafeChar, s) + rest;
    assert t[1..] == EncodeAll(SafeChar, s) + "\"" + rest;
    ReadSafeString(s, rest);
  }

  // ---------------------------------------------------------------- whole payloads

  /** A value is followed by nothing that could continue an atom. */
  predicate Ends(rest: string) { rest == "" || !AtomChar(rest[0]) }

  lemma {:induction false} AtomEndOf(token: string, rest: string)
    requires (forall c | c in token :: AtomChar(c)) && Ends(rest)
    ensures AtomEnd(token + rest) == |token|
  {
    if token == "" {
      assert token + rest == rest;
    } else {
      assert (token + rest)[1..] == token[1..] + rest;
      AtomEndOf(token[1..], rest);
    }
  }

  predicate Starts(t: string) { t != "" && (AtomChar(t[0]) || t[0] == '"' || t[0] == '[' || t[0] == '{') }

  lemma DumpsStarts(p: Payload)
    ensures Starts(Dumps(SafeChar, p))
  {
    match p
    case Atom(token) => assert token[0] in token;
    case _ =>
  }

  /** Whatever the payload, the browser gets it back: strings as their UTF-16, the rest as it was. */
  lemma {:induction false} ReadsBack(p: Payload, rest: string)
    requires Ends(rest)
    ensures Parse(Dumps(SafeChar, p) + rest) == Good(Meaning(p), rest)
    decreases p
  {
    var t := Dumps(SafeChar, p) + rest;
    DumpsStarts(p);
    assert Skip(t) == t;
    match p
    case Atom(token) =>
      AtomEndOf(token, rest);
      assert token[0] in token;
      assert t[..|token|] == token && t[|token|..] == rest;
    case Text(s) =>
      ReadQuoted(s, rest);
    case List(items) =>
      if items == [] {
        assert t[1..] == "]" + rest;
        assert Skip(t[1..]) == t[1..] && t[1..][1..] == rest;
      } else {
        ReadsBackList(items, rest);
      }
    case Dict(fields) =>
      if fields == [] {
        assert t[1..] == "}" + rest;
        assert Skip(t[1..]) == t[1..] && t[1..][1..] == rest;
      } else {
        ReadsBackDict(fields, rest);
      }
  }

  lemma {:induction false} ReadsBackList(items: seq<Payload>, rest: string)
    requires items != []
    ensures Parse("[" + DumpsItems(SafeChar, items) + "]" + rest) == Good(DList(MeaningItems(items)), rest)
    decreases items, 2
  {
    var t := "[" + DumpsItems(SafeChar, items) + "]" + rest;
    var u := DumpsItems(SafeChar, items) + "]" + rest;
    assert t[1..] == u;
    DumpsStarts(items[0]);
    assert Skip(u) == u;
    ReadsBackItems(items, rest);
  }

  lemma LastItem(t: string, first: Doc, rest: string)
    requires Parse(t) == Good(first, "]" + rest)
    ensures ParseItems(t) == Good([first], rest)
  {
    assert ("]" + rest)[1..] == rest;
  }

  lemma EarlierItem(t: string, first: Doc, tail: string, others: seq<Doc>, rest: string)
    requires Parse(t) == Good(first, ", " + tail)
    requires ParseItems(tail) == Good(others, rest)
    ensures ParseItems(t) == Good([first] + others, rest)
  {
    ItemsAfterComma(t, first, tail);
    SpaceBeforeItems(tail);
  }

  lemma ItemsAfterComma(t: string, first: Doc, tail: string)
    requires Parse(t) == Good(first, ", " + tail) && ParseItems(" " + tail).Good?
    ensures var others := ParseItems(" " + tail);
            ParseItems(t) == Good([first] + others.value, others.rest)
  {
    var after := ", " + tail;
    assert after[1..] == " " + tail && Skip(after) == after;
  }

  lemma Regroup(first: string, others: string, close: string, rest: string)
    ensures first + (", " + others) + close + rest == first + (", " + (others + close + rest))
  {
  }

  lemma SpaceBefore(tail: string)
    ensures Skip(" " + tail) == Skip(tail)
    ensures Parse(" " + tail) == Parse(tail)
  {
    assert (" " + tail)[1..] == tail;
  }

  lemma SpaceBeforeItems(tail: string)
    ensures ParseItems(" " + tail) == ParseItems(tail)
  {
    SpaceBefore(tail);
  }

  lemma LastItemText(p: Payload, rest: string)
    ensures DumpsItems(SafeChar, [p]) + "]" + rest == Dumps(SafeChar, p) + ("]" + rest)
    ensures MeaningItems([p]) == [Meaning(p)]
  {
    assert DumpsItems(SafeChar, [p]) == Dumps(SafeChar, p) + "" == Dumps(SafeChar, p);
    assert [p][1..] == [];
    assert MeaningItems([p]) == [Meaning(p)] + MeaningItems([]);
  }

  lemma EarlierItemText(items: seq<Payload>, rest: string)
    requires |items| > 1
    ensures var tail := DumpsItems(SafeChar, items[1..]) + "]" + rest;
            DumpsItems(SafeChar, items) + "]" + rest == Dumps(SafeChar, items[0]) + (", " + tail)
  {
    Regroup(Dumps(SafeChar, items[0]), DumpsItems(SafeChar, items[1..]), "]", rest);
  }

  lemma {:induction false} ReadsBackItems(items: seq<Payload>, rest: string)
    requires items != []
    ensures ParseItems(DumpsItems(SafeChar, items) + "]" + rest) == Good(MeaningItems(items), rest)
    decreases items, 1
  {
    var t := DumpsItems(SafeChar, items) + "]" + rest;
    if |items| == 1 {
      assert items == [items[0]];
      LastItemText(items[0], rest);
      ReadsBack(items[0], "]" + rest);
      LastItem(t, Meaning(items[0]), rest);
    } else {
      var tail := DumpsItems(SafeChar, items[1..]) + "]" + rest;
      EarlierItemText(items, rest);
      ReadsBack(items[0], ", " + tail);
      ReadsBackItems(items[1..], rest);
      EarlierItem(t, Meaning(items[0]), tail, MeaningItems(items[1..]), rest);
    }
  }

  lemma {:induction false} ReadsBackDict(fields: seq<Field>, rest: string)
    requires fields != []
    ensures Parse("{" + DumpsFields(SafeChar, fields) + "}" + rest) == Good(DDict(MeaningFields(fields)), rest)
    decreases fields, 2
  {
    var t := "{" + DumpsFields(SafeChar, fields) + "}" + rest;
    var u := DumpsFields(SafeChar, fields) + "}" + rest;
    assert t[1..] == u;
    assert u[0] == '"' && Skip(u) == u;
    ReadsBackFields(fields, rest);
  }

  lemma LastMember(t: string, first: Member, rest: string)
    requires ParseMember(Skip(t)) == Good(first, "}" + rest)
    ensures ParseMembers(t) == Good([first], rest)
  {
    assert ("}" + rest)[1..] == rest;
  }

  lemma EarlierMember(t: string, first: Member, tail: string, others: seq<Member>, rest: string)
    requires ParseMember(Skip(t)) == Good(first, ", " + tail)
    requires ParseMembers(tail) == Good(others, rest)
    ensures ParseMembers(t) == Good([first] + others, rest)
  {
    MembersAfterComma(t, first, tail);
    SpaceBeforeMembers(tail);
  }

  lemma MembersAfterComma(t: string, first: Member, tail: string)
    requires ParseMember(Skip(t)) == Good(first, ", " + tail) && ParseMembers(" " + tail).Good?
    ensures var others := ParseMembers(" " + tail);
            ParseMembers(t) == Good([first] + others.value, others.rest)
  {
    var after := ", " + tail;
    assert after[1..] == " " + tail && Skip(after) == after;
  }

  lemma SpaceBeforeMembers(tail: string)
    ensures ParseMembers(" " + tail) == ParseMembers(tail)
  {
    SpaceBefore(tail);
  }

  function MeaningField(f: Field): Member { Member(Utf16(f.key), Meaning(f.value)) }

  function FieldText(f: Field): string { Quoted(SafeChar, f.key) + ": " + Dumps(SafeChar, f.value) }

  lemma LastFieldText(f: Field, rest: string)
    ensures DumpsFields(SafeChar, [f]) + "}" + rest == FieldText(f) + ("}" + rest)
    ensures MeaningFields([f]) == [MeaningField(f)]
  {
    assert DumpsFields(SafeChar, [f]) == FieldText(f) + "" == FieldText(f);
    assert [f][1..] == [];
    assert MeaningFields([f]) == [MeaningField(f)] + MeaningFields([]);
  }

  lemma EarlierFieldText(fields: seq<Field>, rest: string)
    requires |fields| > 1
    ensures var tail := DumpsFields(SafeChar, fields[1..]) + "}" + rest;
            DumpsFields(SafeChar, fields) + "}" + rest == FieldText(fields[0]) + (", " + tail)
  {
    Regroup(FieldText(fields[0]), DumpsFields(SafeChar, fields[1..]), "}", rest);
  }

  lemma {:induction false} ReadsBackFields(fields: seq<Field>, rest: string)
    requires fields != []
    ensures ParseMembers(DumpsFields(SafeChar, fields) + "}" + rest) == Good(MeaningFields(fields), rest)
    decreases fields, 1
  {
    var t := DumpsFields(SafeChar, fields) + "}" + rest;
    var f := fields[0];
    if |fields| == 1 {
      assert fields == [f];
      LastFieldText(f, rest);
      ReadsBack(f.value, "}" + rest);
      ReadField(f, "}" + rest);
      LastMember(t, MeaningField(f), rest);
    } else {
      var tail := DumpsFields(SafeChar, fields[1..]) + "}" + rest;
      EarlierFieldText(fields, rest);
      ReadsBack(f.value, ", " + tail);
      ReadField(f, ", " + tail);
      ReadsBackFields(fields[1..], rest);
      EarlierMember(t, MeaningField(f), tail, MeaningFields(fields[1..]), rest);
    }
  }

  lemma ReadField(f: Field, after: string)
    requires Parse(Dumps(SafeChar, f.value) + after) == Good(Meaning(f.value), after)
    ensures ParseMember(Skip(FieldText(f) + after)) == Good(MeaningField(f), after)
  {
    var value := Dumps(SafeChar, f.value) + after;
    RegroupField(Quoted(SafeChar, f.key), Dumps(SafeChar, f.value), after);
    ReadKeyAndValue(f.key, value, Meaning(f.value), after);
  }

  lemma RegroupField(key: string, value: string, after: string)
    ensures key + ": " + value + after == key + (": " + (value + after))
  {
  }

  /** A key, the colon and the text of a value. */
  lemma ReadKeyAndValue(key: seq<CodePoint>, value: string, meaning: Doc, after: string)
    requires Parse(value) == Good(meaning, after)
    ensures ParseMember(Skip(Quoted(SafeChar, key) + (": " + value))) == Good(Member(Utf16(key), meaning), after)
  {
    var t := Quoted(SafeChar, key) + (": " + value);
    ReadQuoted(key, ": " + value);
    SpaceBefore(value);
    assert Skip(t) == t;
    KeyThenValue(t, Utf16(key), value);
  }

  lemma KeyThenValue(t: string, key: seq<Unit>, value: string)
    requires t != "" && t[0] == '"' && ReadChars(t[1..]) == Some(Chars(key, ": " + value))
    requires Parse(" " + value).Good?
    ensures ParseMember(t) == Good(Member(key, Parse(" " + value).value), Parse(" " + value).rest)
  {
    assert (": " + value)[1..] == " " + value;
  }

  /** The script holds no `<`, `>` or `&`, and the browser reads the payload back from it. */
  lemma InlineScriptReadsBack(p: Payload)
    ensures forall c | c in JsonForInlineScript(p) :: c != '<' && c != '>' && c != '&'
    ensures Parse(JsonForInlineScript(p)) == Good(Meaning(p), "")
  {
    EscapedDumps(p);
    ReadsBack(p, "");
    assert Dumps(SafeChar, p) + "" == Dumps(SafeChar, p);
  }

  // ---------------------------------------------------------------- back to code points

  predicate High(u: int) { 0xd800 <= u < 0xdc00 }

  predicate Low(u: int) { 0xdc00 <= u < 0xe000 }

  /** Python's reading of the units: a high and a low surrogate together are one character. */
  function CodePoints(units: seq<Unit>): seq<CodePoint> {
    if units == [] then []
    else if |units| >= 2 && High(units[0]) && Low(units[1]) then
      [0x10000 + (units[0] - 0xd800) * 0x400 + (units[1] - 0xdc00)] + CodePoints(units[2..])
    else [units[0]] + CodePoints(units[1..])
  }

  /** Some lone high surrogate stands right before a lone low one. */
  predicate Splices(s: seq<CodePoint>) { exists i :: 0 <= i < |s| - 1 && High(s[i]) && Low(s[i + 1]) }

  lemma PairIsOneCharacter(c: CodePoint, rest: seq<Unit>)
    requires c >= 0x10000
    ensures CodePoints(Utf16Of(c) + rest) == [c] + CodePoints(rest)
  {
    var n := c - 0x10000;
    var units := Utf16Of(c) + rest;
    assert n == n / 0x400 * 0x400 + n % 0x400;
    assert units[0] == 0xd800 + n / 0x400 && units[1] == 0xdc00 + n % 0x400;
    assert High(units[0]) && Low(units[1]);
    assert units[2..] == rest;
  }

  lemma PlainCharacter(c: CodePoint, rest: seq<Unit>)
    requires c < 0x10000 && (rest == [] || !High(c) || !Low(rest[0]))
    ensures CodePoints(Utf16Of(c) + rest) == [c] + CodePoints(rest)
  {
    var units := Utf16Of(c) + rest;
    assert units[1..] == rest;
  }

  lemma FirstUnit(s: seq<CodePoint>)
    requires s != []
    ensures Utf16(s) != [] && (Low(Utf16(s)[0]) <==> Low(s[0]))
  {
  }

  /** A string comes back code point for code point exactly when it splices no surrogates. */
  lemma {:induction false} CodePointsBackIff(s: seq<CodePoint>)
    ensures CodePoints(Utf16(s)) == s <==> !Splices(s)
    decreases |s|
  {
    if s == [] {
      return;
    }
    CodePointsBackIff(s[1..]);
    assert s == [s[0]] + s[1..];
    if s[0] >= 0x10000 {
      PairIsOneCharacter(s[0], Utf16(s[1..]));
      SplicesLater(s);
    } else if |s| == 1 || !High(s[0]) || !Low(s[1]) {
      if |s| > 1 { FirstUnit(s[1..]); }
      PlainCharacter(s[0], Utf16(s[1..]));
      SplicesLater(s);
    } else {
      assert Splices(s);
      var units := Utf16(s);
      assert s[1] < 0x10000;
      assert units == [s[0]] + ([s[1]] + Utf16(s[1..][1..]));
      assert units[0] == s[0] && units[1] == s[1];
      assert CodePoints(units)[0] >= 0x10000;
    }
  }

  /** The shortest such string: Python decodes it to one character where there were two. */
  lemma SplicedPair()
    ensures Splices([0xd800, 0xdc00]) && CodePoints(Utf16([0xd800, 0xdc00])) == [0x10000]
  {
    var s: seq<CodePoint> := [0xd800, 0xdc00];
    assert High(s[0]) && Low(s[1]);
    assert s[1..] == [0xdc00] && s[1..][1..] == [];
    assert Utf16(s[1..]) == [0xdc00];
    var units: seq<Unit> := Utf16(s);
    assert units == [0xd800, 0xdc00] && units[2..] == [];
  }

  predicate PayloadSplices(p: Payload)
    decreases p
  {
    match p
    case Atom(_) => false
    case Text(s) => Splices(s)
    case List(items) => ItemsSplice(items)
    case Dict(fields) => FieldsSplice(fields)
  }

  predicate ItemsSplice(items: seq<Payload>)
    decreases items
  {
    items != [] && (PayloadSplices(items[0]) || ItemsSplice(items[1..]))
  }

  predicate FieldsSplice(fields: seq<Field>)
    decreases fields
  {
    fields != [] && (Splices(fields[0].key) || PayloadSplices(fields[0].value) || FieldsSplice(fields[1..]))
  }

  /** Python's reading of the browser's value. */
  function Payloads(d: Doc): Payload
    decreases d
  {
    match d
    case DAtom(token) => Atom(token)
    case DText(units) => Text(CodePoints(units))
    case DList(items) => List(PayloadItems(items))
    case DDict(members) => Dict(PayloadFields(members))
  }

  function PayloadItems(items: seq<Doc>): seq<Payload>
    decreases items
  {
    if items == [] then [] else [Payloads(items[0])] + PayloadItems(items[1..])
  }

  function PayloadFields(members: seq<Member>): seq<Field>
    decreases members
  {
    if members == [] then []
    else [Field(CodePoints(members[0].key), Payloads(members[0].value))] + PayloadFields(members[1..])
  }

  /** Decoding the script gives the payload back exactly when no string in it splices surrogates. */
  lemma ScriptRoundTripIff(p: Payload)
    ensures var r := Parse(JsonForInlineScript(p));
            r.Good? && r.rest == "" && (Payloads(r.value) == p <==> !PayloadSplices(p))
  {
    InlineScriptReadsBack(p);
    PayloadBackIff(p);
  }

  lemma {:induction false} PayloadBackIff(p: Payload)
    ensures Payloads(Meaning(p)) == p <==> !PayloadSplices(p)
    decreases p
  {
    match p
    case Atom(_) =>
    case Text(s) => CodePointsBackIff(s);
    case List(items) => ItemsBackIff(items);
    case Dict(fields) => FieldsBackIff(fields);
  }

  lemma ConsEqual<T>(a: T, x: seq<T>, b: T, y: seq<T>)
    ensures [a] + x == [b] + y <==> a == b && x == y
  {
    assert ([a] + x)[0] == a && ([a] + x)[1..] == x;
    assert ([b] + y)[0] == b && ([b] + y)[1..] == y;
  }

  lemma {:induction false} ItemsBackIff(items: seq<Payload>)
    ensures PayloadItems(MeaningItems(items)) == items <==> !ItemsSplice(items)
    decreases items
  {
    if items != [] {
      PayloadBackIff(items[0]);
      ItemsBackIff(items[1..]);
      assert MeaningItems(items)[1..] == MeaningItems(items[1..]);
      assert items == [items[0]] + items[1..];
      ConsEqual(Payloads(Meaning(items[0])), PayloadItems(MeaningItems(items[1..])), items[0], items[1..]);
    }
  }

  function FieldBack(f: Field): Field { Field(CodePoints(Utf16(f.key)), Payloads(Meaning(f.value))) }

  lemma {:induction false} FieldBackIff(f: Field)
    ensures FieldBack(f) == f <==> !Splices(f.key) && !PayloadSplices(f.value)
    decreases f
  {
    CodePointsBackIff(f.key);
    PayloadBackIff(f.value);
  }

  lemma FirstFieldBack(fields: seq<Field>)
    requires fields != []
    ensures PayloadFields(MeaningFields(fields)) == [FieldBack(fields[0])] + PayloadFields(MeaningFields(fields[1..]))
  {
    assert MeaningFields(fields)[1..] == MeaningFields(fields[1..]);
  }

  lemma {:induction false} FieldsBackIff(fields: seq<Field>)
    ensures PayloadFields(MeaningFields(fields)) == fields <==> !FieldsSplice(fields)
    decreases fields
  {
    if fields != [] {
      FieldBackIff(fields[0]);
      FieldsBackIff(fields[1..]);
      FirstFieldBack(fields);
      assert fields == [fields[0]] + fields[1..];
      ConsEqual(FieldBack(fields[0]), PayloadFields(MeaningFields(fields[1..])), fields[0], fields[1..]);
    }
  }

  lemma SplicesLater(s: seq<CodePoint>)
    requires s != [] && !(|s| > 1 && High(s[0]) && Low(s[1]))
    ensures Splices(s) <==> Splices(s[1..])
  {
    if i :| 0 <= i < |s| - 1 && High(s[i]) && Low(s[i + 1]) {
      assert High(s[1..][i - 1]) && Low(s[1..][i]);
    }
    if i :| 0 <= i < |s| - 2 && High(s[1..][i]) && Low(s[1..][i + 1]) {
      assert High(s[i + 1]) && Low(s[i + 2]);
    }
  }
}
