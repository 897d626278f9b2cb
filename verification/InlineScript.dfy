/** JSON inside an inline script: `_json_for_inline_script` of backend/app/api/bigquery_oauth.py.

    A Python string is a sequence of code points, lone surrogates included; the browser reads
    the script's JSON into UTF-16 code units (RFC 8259, section 7).
 */
module InlineScript {
  import opened Options

  type CodePoint = c: int | 0 <= c < 0x110000
  type Unit = u: int | 0 <= u < 0x10000

  predicate AtomChar(c: char) { 'a' <= c <= 'z' || 'A' <= c <= 'Z' || '0' <= c <= '9' || c == '+' || c == '-' || c == '.' }

  /** A number, `true`, `false` or `null` as `json.dumps` writes it. */
  type Token = t: string | t != "" && forall c | c in t :: AtomChar(c) witness "0"

  datatype Payload = Atom(token: Token) | Text(s: seq<CodePoint>) | List(items: seq<Payload>) | Dict(fields: seq<Field>)
  datatype Field = Field(key: seq<CodePoint>, value: Payload)

  /** What the browser holds. */
  datatype Doc = DAtom(token: Token) | DText(units: seq<Unit>) | DList(items: seq<Doc>) | DDict(members: seq<Member>)
  datatype Member = Member(key: seq<Unit>, value: Doc)

  // ---------------------------------------------------------------- UTF-16

  function Utf16Of(c: CodePoint): seq<Unit> {
    if c < 0x10000 then [c]
    else [0xd800 + (c - 0x10000) / 0x400, 0xdc00 + (c - 0x10000) % 0x400]
  }

  function Utf16(s: seq<CodePoint>): seq<Unit> { if s == [] then [] else Utf16Of(s[0]) + Utf16(s[1..]) }

  /** The browser's value of a payload. */
  function Meaning(p: Payload): Doc
    decreases p
  {
    match p
    case Atom(token) => DAtom(token)
    case Text(s) => DText(Utf16(s))
    case List(items) => DList(MeaningItems(items))
    case Dict(fields) => DDict(MeaningFields(fields))
  }

  function MeaningItems(items: seq<Payload>): seq<Doc>
    decreases items
  {
    if items == [] then [] else [Meaning(items[0])] + MeaningItems(items[1..])
  }

  function MeaningFields(fields: seq<Field>): seq<Member>
    decreases fields
  {
    if fields == [] then []
    else [Member(Utf16(fields[0].key), Meaning(fields[0].value))] + MeaningFields(fields[1..])
  }

  // ---------------------------------------------------------------- json.dumps

  function HexDigit(d: int): char
    requires 0 <= d < 16
  {
    if d < 10 then '0' + d as char else 'a' + (d - 10) as char
  }

  function UEscape(u: Unit): string {
    ['\\', 'u', HexDigit(u / 4096), HexDigit(u / 256 % 16), HexDigit(u / 16 % 16), HexDigit(u % 16)]
  }

  function UEscapes(units: seq<Unit>): string {
    if units == [] then "" else UEscape(units[0]) + UEscapes(units[1..])
  }

  /** One character inside a string literal, ASCII only. */
  function EncodeChar(c: CodePoint): string {
    if c == 0x22 then "\\\""
    else if c == 0x5c then "\\\\"
    else if c == 0x0a then "\\n"
    else if c == 0x0d then "\\r"
    else if c == 0x09 then "\\t"
    else if c == 0x0c then "\\f"
    else if c == 0x08 then "\\b"
    else if 0x20 <= c <= 0x7e then [c as char]
    else UEscapes(Utf16Of(c))
  }

  type Encoder = CodePoint -> string

  function EncodeAll(enc: Encoder, s: seq<CodePoint>): string { if s == [] then "" else enc(s[0]) + EncodeAll(enc, s[1..]) }

  function Quoted(enc: Encoder, s: seq<CodePoint>): string { "\"" + EncodeAll(enc, s) + "\"" }

  function Dumps(enc: Encoder, p: Payload): string
    decreases p
  {
    match p
    case Atom(token) => token
    case Text(s) => Quoted(enc, s)
    case List(items) => if items == [] then "[]" else "[" + DumpsItems(enc, items) + "]"
    case Dict(fields) => if fields == [] then "{}" else "{" + DumpsFields(enc, fields) + "}"
  }

  function DumpsItems(enc: Encoder, items: seq<Payload>): string
    requires items != []
    decreases items
  {
    Dumps(enc, items[0]) + if |items| == 1 then "" else ", " + DumpsItems(enc, items[1..])
  }

  function DumpsFields(enc: Encoder, fields: seq<Field>): string
    requires fields != []
    decreases fields
  {
    Quoted(enc, fields[0].key) + ": " + Dumps(enc, fields[0].value)
    + if |fields| == 1 then "" else ", " + DumpsFields(enc, fields[1..])
  }

  // ---------------------------------------------------------------- the replacements

  function Replace(t: string, c: char, sub: string): string {
    if t == "" then "" else (if t[0] == c then sub else [t[0]]) + Replace(t[1..], c, sub)
  }

  function Escaped(t: string): string {
    Replace(Replace(Replace(Replace(Replace(t, '<', "\\u003c"), '>', "\\u003e"), '&', "\\u0026"),
                    '\U{2028}', "\\u2028"), '\U{2029}', "\\u2029")
  }

  function JsonForInlineScript(p: Payload): string { Escaped(Dumps(EncodeChar, p)) }

  predicate Special(c: char) { c == '<' || c == '>' || c == '&' || c == '\U{2028}' || c == '\U{2029}' }

  predicate Clean(t: string) { forall c | c in t :: !Special(c) }

  /** A character as it ends up in the script. */
  function SafeChar(c: CodePoint): string {
    if c == 0x3c || c == 0x3e || c == 0x26 then UEscape(c) else EncodeChar(c)
  }

  lemma {:induction false} ReplaceAppend(a: string, b: string, c: char, sub: string)
    ensures Replace(a + b, c, sub) == Replace(a, c, sub) + Replace(b, c, sub)
  {
    if a == "" {
      assert a + b == b;
    } else {
      assert (a + b)[1..] == a[1..] + b;
      ReplaceAppend(a[1..], b, c, sub);
    }
  }

  lemma {:induction false} ReplaceNothing(t: string, c: char, sub: string)
    requires c !in t
    ensures Replace(t, c, sub) == t
  {
    if t != "" { ReplaceNothing(t[1..], c, sub); }
  }

  lemma EscapedAppend(a: string, b: string)
    ensures Escaped(a + b) == Escaped(a) + Escaped(b)
  {
    ReplaceAppend(a, b, '<', "\\u003c");
    var a1, b1 := Replace(a, '<', "\\u003c"), Replace(b, '<', "\\u003c");
    ReplaceAppend(a1, b1, '>', "\\u003e");
    var a2, b2 := Replace(a1, '>', "\\u003e"), Replace(b1, '>', "\\u003e");
    ReplaceAppend(a2, b2, '&', "\\u0026");
    var a3, b3 := Replace(a2, '&', "\\u0026"), Replace(b2, '&', "\\u0026");
    ReplaceAppend(a3, b3, '\U{2028}', "\\u2028");
    ReplaceAppend(Replace(a3, '\U{2028}', "\\u2028"), Replace(b3, '\U{2028}', "\\u2028"), '\U{2029}', "\\u2029");
  }

  lemma EscapedClean(t: string)
    requires Clean(t)
    ensures Escaped(t) == t
  {
    ReplaceNothing(t, '<', "\\u003c");
    ReplaceNothing(t, '>', "\\u003e");
    ReplaceNothing(t, '&', "\\u0026");
    ReplaceNothing(t, '\U{2028}', "\\u2028");
    ReplaceNothing(t, '\U{2029}', "\\u2029");
  }

  lemma {:induction false} UEscapesClean(units: seq<Unit>)
    ensures Clean(UEscapes(units))
  {
    if units != [] { UEscapesClean(units[1..]); }
  }

  lemma SafeCharIsClean(c: CodePoint)
    ensures Clean(SafeChar(c))
  {
    UEscapesClean(Utf16Of(c));
  }

  lemma ReplaceOne(c: char, sub: string)
    ensures Replace([c], c, sub) == sub
  {
    assert [c][1..] == "";
  }

  lemma EscapedChar(c: CodePoint)
    ensures Escaped(EncodeChar(c)) == SafeChar(c)
  {
    SafeCharIsClean(c);
    if c == 0x3c {
      ReplaceOne('<', "\\u003c");
      assert EncodeChar(c) == "<" && SafeChar(c) == "\\u003c";
      EscapedClean("\\u003c");
      ReplaceNothing("\\u003c", '<', "\\u003c");
    } else if c == 0x3e {
      ReplaceOne('>', "\\u003e");
      assert EncodeChar(c) == ">" && SafeChar(c) == "\\u003e";
      ReplaceNothing(">", '<', "\\u003c");
      EscapedClean("\\u003e");
      ReplaceNothing("\\u003e", '<', "\\u003c");
      ReplaceNothing("\\u003e", '>', "\\u003e");
    } else if c == 0x26 {
      ReplaceOne('&', "\\u0026");
      assert EncodeChar(c) == "&" && SafeChar(c) == "\\u0026";
      ReplaceNothing("&", '<', "\\u003c");
      ReplaceNothing("&", '>', "\\u003e");
      EscapedClean("\\u0026");
      ReplaceNothing("\\u0026", '<', "\\u003c");
      ReplaceNothing("\\u0026", '>', "\\u003e");
      ReplaceNothing("\\u0026", '&', "\\u0026");
    } else {
      EscapedClean(EncodeChar(c));
    }
  }

  lemma {:induction false} EscapedAll(s: seq<CodePoint>)
    ensures Escaped(EncodeAll(EncodeChar, s)) == EncodeAll(SafeChar, s)
    ensures Clean(EncodeAll(SafeChar, s))
  {
    if s == [] {
      EscapedClean("");
    } else {
      EscapedChar(s[0]);
      SafeCharIsClean(s[0]);
      EscapedAll(s[1..]);
      EscapedAppend(EncodeChar(s[0]), EncodeAll(EncodeChar, s[1..]));
    }
  }

  lemma EscapedQuoted(s: seq<CodePoint>)
    ensures Escaped(Quoted(EncodeChar, s)) == Quoted(SafeChar, s)
    ensures Clean(Quoted(SafeChar, s))
  {
    EscapedAll(s);
    EscapedClean("\"");
    EscapedAppend("\"" + EncodeAll(EncodeChar, s), "\"");
    EscapedAppend("\"", EncodeAll(EncodeChar, s));
  }

  lemma EscapedThree(a: string, b: string, c: string)
    requires Clean(a) && Clean(c) && Clean(Escaped(b))
    ensures Escaped(a + b + c) == a + Escaped(b) + c && Clean(a + Escaped(b) + c)
  {
    EscapedAppend(a + b, c);
    EscapedAppend(a, b);
    EscapedClean(a);
    EscapedClean(c);
  }

  /** The replacements touch nothing but characters inside string literals. */
  lemma {:induction false} EscapedDumps(p: Payload)
    ensures Escaped(Dumps(EncodeChar, p)) == Dumps(SafeChar, p)
    ensures Clean(Dumps(SafeChar, p))
    decreases p
  {
    match p
    case Atom(token) => EscapedClean(token);
    case Text(s) => EscapedQuoted(s);
    case List(items) =>
      if items == [] {
        EscapedClean("[]");
      } else {
        EscapedItems(items);
        EscapedThree("[", DumpsItems(EncodeChar, items), "]");
      }
    case Dict(fields) =>
      if fields == [] {
        EscapedClean("{}");
      } else {
        EscapedFields(fields);
        EscapedThree("{", DumpsFields(EncodeChar, fields), "}");
      }
  }

  lemma {:induction false} EscapedItems(items: seq<Payload>)
    requires items != []
    ensures Escaped(DumpsItems(EncodeChar, items)) == DumpsItems(SafeChar, items)
    ensures Clean(DumpsItems(SafeChar, items))
    decreases items
  {
    EscapedDumps(items[0]);
    var first := Dumps(EncodeChar, items[0]);
    if |items| == 1 {
      assert first + "" == first;
    } else {
      EscapedItems(items[1..]);
      EscapedThree(", ", DumpsItems(EncodeChar, items[1..]), "");
      var rest := ", " + DumpsItems(EncodeChar, items[1..]);
      assert rest + "" == rest;
      EscapedAppend(first, rest);
    }
  }

  lemma {:induction false} EscapedFields(fields: seq<Field>)
    requires fields != []
    ensures Escaped(DumpsFields(EncodeChar, fields)) == DumpsFields(SafeChar, fields)
    ensures Clean(DumpsFields(SafeChar, fields))
    decreases fields
  {
    EscapedField(fields[0]);
    var first := Quoted(EncodeChar, fields[0].key) + ": " + Dumps(EncodeChar, fields[0].value);
    if |fields| == 1 {
      assert first + "" == first;
    } else {
      EscapedFields(fields[1..]);
      EscapedThree(", ", DumpsFields(EncodeChar, fields[1..]), "");
      var rest := ", " + DumpsFields(EncodeChar, fields[1..]);
      assert rest + "" == rest;
      EscapedAppend(first, rest);
    }
  }

  lemma {:induction false} EscapedField(f: Field)
    ensures Escaped(Quoted(EncodeChar, f.key) + ": " + Dumps(EncodeChar, f.value))
         == Quoted(SafeChar, f.key) + ": " + Dumps(SafeChar, f.value)
    ensures Clean(Quoted(SafeChar, f.key) + ": " + Dumps(SafeChar, f.value))
    decreases f
  {
    EscapedQuoted(f.key);
    EscapedDumps(f.value);
    EscapedClean(": ");
    EscapedAppend(Quoted(EncodeChar, f.key) + ": ", Dumps(EncodeChar, f.value));
    EscapedAppend(Quoted(EncodeChar, f.key), ": ");
  }
}
