/**
 The compact JSON text of a canonical payload, and a parser that inverts it.

 The printer is `json.dumps(..., sort_keys=True, separators=(",", ":"), ensure_ascii=False)`
 on values that hold no numbers: canonicalisation has turned every number into a string.
 Objects carry their fields in order, because the payload reaches the printer sorted.
 Escapes follow section 7 of RFC 8259.
 */
module Json {
  import opened Basics

  datatype Field = Field(key: string, value: Json)

  datatype Json =
    | Null
    | Bool(b: bool)
    | Str(s: string)
    | Arr(items: seq<Json>)
    | Obj(fields: seq<Field>)

  // ---------------------------------------------------------------- printing

  function HexDigit(n: nat): char
    requires n < 16
  {
    if n < 10 then '0' + n as char else 'a' + (n - 10) as char
  }

  function EscapeChar(c: char): string {
    var n := c as int;
    if c == '\"' then "\\\""
    else if c == '\\' then "\\\\"
    else if n == 8 then "\\b"
    else if n == 9 then "\\t"
    else if n == 10 then "\\n"
    else if n == 12 then "\\f"
    else if n == 13 then "\\r"
    else if n < 32 then "\\u00" + [HexDigit(n / 16), HexDigit(n % 16)]
    else [c]
  }

  function Escape(s: string): string {
    if s == "" then "" else EscapeChar(s[0]) + Escape(s[1..])
  }

  function PrintString(s: string): string {
    "\"" + (Escape(s) + "\"")
  }

  function Print(v: Json): string
    decreases v, 1
  {
    match v
    case Null => "null"
    case Bool(b) => if b then "true" else "false"
    case Str(s) => PrintString(s)
    case Arr(items) => "[" + PrintArray(items)
    case Obj(fields) => "{" + PrintObject(fields)
  }

  /** The items of an array and its closing bracket. */
  function PrintArray(items: seq<Json>): string
    decreases items, 2
  {
    if items == [] then "]" else Print(items[0]) + PrintItems(items[1..])
  }

  /** The fields of an object and its closing brace. */
  function PrintObject(fields: seq<Field>): string
    decreases fields, 3
  {
    if fields == [] then "}" else PrintField(fields[0]) + PrintFields(fields[1..])
  }

  function PrintField(f: Field): string
    decreases f, 2
  {
    PrintString(f.key) + (":" + Print(f.value))
  }

  /** The remaining items of an array and its closing bracket. */
  function PrintItems(items: seq<Json>): string
    decreases items, 0
  {
    if items == [] then "]" else "," + (Print(items[0]) + PrintItems(items[1..]))
  }

  /** The remaining fields of an object and its closing brace. */
  function PrintFields(fields: seq<Field>): string
    decreases fields, 0
  {
    if fields == [] then "}" else "," + (PrintField(fields[0]) + PrintFields(fields[1..]))
  }

  // ----------------------------------------------------------------- parsing

  /** What was read and the text that is left. */
  datatype Parsed<+T> = Fail | Got(value: T, rest: string)

  /** The value of a lower-case hexadecimal digit, or 16 for any other character. */
  function HexValue(c: char): nat {
    if '0' <= c <= '9' then c as int - '0' as int
    else if 'a' <= c <= 'f' then c as int - 'a' as int + 10
    else 16
  }

  /** One character of a string body, which must be escaped just as the printer escapes it. */
  function ParseChar(s: string): (r: Parsed<char>)
    ensures r.Got? ==> |r.rest| < |s|
  {
    if s == "" || s[0] == '\"' || s[0] as int < 32 then Fail
    else if s[0] != '\\' then Got(s[0], s[1..])
    else if |s| < 2 then Fail
    else if s[1] == '\"' || s[1] == '\\' then Got(s[1], s[2..])
    else if s[1] == 'b' then Got(8 as char, s[2..])
    else if s[1] == 't' then Got(9 as char, s[2..])
    else if s[1] == 'n' then Got(10 as char, s[2..])
    else if s[1] == 'f' then Got(12 as char, s[2..])
    else if s[1] == 'r' then Got(13 as char, s[2..])
    else if |s| < 6 || s[..4] != "\\u00" || HexValue(s[4]) > 1 || HexValue(s[5]) > 15 then Fail
    else
      var n := HexValue(s[4]) * 16 + HexValue(s[5]);
      if n in {8, 9, 10, 12, 13} then Fail else Got(n as char, s[6..])
  }

  /** A string body and its closing quote. */
  function ParseBody(s: string): (r: Parsed<string>)
    ensures r.Got? ==> |r.rest| < |s|
    decreases |s|
  {
    if s != "" && s[0] == '\"' then Got("", s[1..])
    else
      match ParseChar(s)
      case Fail => Fail
      case Got(c, t) =>
        match ParseBody(t)
        case Fail => Fail
        case Got(cs, u) => Got([c] + cs, u)
  }

  function ParseString(s: string): (r: Parsed<string>)
    ensures r.Got? ==> |r.rest| < |s|
  {
    if s == "" || s[0] != '\"' then Fail else ParseBody(s[1..])
  }

  function ParseLiteral(s: string, literal: string, v: Json): (r: Parsed<Json>)
    ensures r.Got? ==> |r.rest| + |literal| == |s|
  {
    if |literal| <= |s| && s[..|literal|] == literal then Got(v, s[|literal|..]) else Fail
  }

  function Parse(s: string): (r: Parsed<Json>)
    ensures r.Got? ==> |r.rest| < |s|
    decreases |s|, 1
  {
    if s == "" then Fail
    else if s[0] == 'n' then ParseLiteral(s, "null", Null)
    else if s[0] == 't' then ParseLiteral(s, "true", Bool(true))
    else if s[0] == 'f' then ParseLiteral(s, "false", Bool(false))
    else if s[0] == '\"' then
      match ParseString(s)
      case Fail => Fail
      case Got(x, t) => Got(Str(x), t)
    else if s[0] == '[' then
      match ParseArray(s[1..])
      case Fail => Fail
      case Got(vs, t) => Got(Arr(vs), t)
    else if s[0] == '{' then
      match ParseObject(s[1..])
      case Fail => Fail
      case Got(fs, t) => Got(Obj(fs), t)
    else Fail
  }

  function ParseField(s: string): (r: Parsed<Field>)
    ensures r.Got? ==> |r.rest| < |s|
    decreases |s|, 2
  {
    match ParseString(s)
    case Fail => Fail
    case Got(k, t) =>
      if t == "" || t[0] != ':' then Fail
      else
        match Parse(t[1..])
        case Fail => Fail
        case Got(v, u) => Got(Field(k, v), u)
  }

  function ParseArray(s: string): (r: Parsed<seq<Json>>)
    ensures r.Got? ==> |r.rest| < |s|
    decreases |s|, 3
  {
    if s != "" && s[0] == ']' then Got([], s[1..])
    else
      match Parse(s)
      case Fail => Fail
      case Got(v, t) =>
        match ParseItems(t)
        case Fail => Fail
        case Got(vs, u) => Got([v] + vs, u)
  }

  function ParseItems(s: string): (r: Parsed<seq<Json>>)
    ensures r.Got? ==> |r.rest| < |s|
    decreases |s|, 0
  {
    if s == "" then Fail
    else if s[0] == ']' then Got([], s[1..])
    else if s[0] != ',' then Fail
    else
      match Parse(s[1..])
      case Fail => Fail
      case Got(v, t) =>
        match ParseItems(t)
        case Fail => Fail
        case Got(vs, u) => Got([v] + vs, u)
  }

  function ParseObject(s: string): (r: Parsed<seq<Field>>)
    ensures r.Got? ==> |r.rest| < |s|
    decreases |s|, 3
  {
    if s != "" && s[0] == '}' then Got([], s[1..])
    else
      match ParseField(s)
      case Fail => Fail
      case Got(f, t) =>
        match ParseFields(t)
        case Fail => Fail
        case Got(fs, u) => Got([f] + fs, u)
  }

  function ParseFields(s: string): (r: Parsed<seq<Field>>)
    ensures r.Got? ==> |r.rest| < |s|
    decreases |s|, 0
  {
    if s == "" then Fail
    else if s[0] == '}' then Got([], s[1..])
    else if s[0] != ',' then Fail
    else
      match ParseField(s[1..])
      case Fail => Fail
      case Got(f, t) =>
        match ParseFields(t)
        case Fail => Fail
        case Got(fs, u) => Got([f] + fs, u)
  }

  // ------------------------------------------------- the parser inverts the printer

  lemma ParseEscaped(c: char, t: string)
    ensures ParseChar(EscapeChar(c) + t) == Got(c, t)
  {
    var e := EscapeChar(c);
    var s := e + t;
    assert s[|e|..] == t;
    if |e| == 6 {
      assert s[..4] == "\\u00";
    }
  }

  lemma {:induction false} ParseEscapedBody(s: string, t: string)
    ensures ParseBody(Escape(s) + ("\"" + t)) == Got(s, t)
  {
    if s == "" {
      assert Escape(s) + ("\"" + t) == "\"" + t;
    } else {
      var rest := Escape(s[1..]) + ("\"" + t);
      assert Escape(s) + ("\"" + t) == EscapeChar(s[0]) + rest;
      assert (EscapeChar(s[0]) + rest)[0] == EscapeChar(s[0])[0] != '\"';
      assert [s[0]] + s[1..] == s;
      ParseEscaped(s[0], rest);
      ParseEscapedBody(s[1..], t);
    }
  }

  lemma ParsePrintedString(s: string, t: string)
    ensures ParseString(PrintString(s) + t) == Got(s, t)
  {
    assert (PrintString(s) + t)[1..] == Escape(s) + ("\"" + t);
    ParseEscapedBody(s, t);
  }

  lemma ParsePrintedLiteral(v: Json, t: string)
    requires v.Null? || v.Bool?
    ensures Parse(Print(v) + t) == Got(v, t)
  {
    var p := Print(v);
    var s := p + t;
    assert s[..|p|] == p && s[|p|..] == t;
  }

  lemma ParseQuoted(x: string, t: string)
    ensures Parse(PrintString(x) + t) == Got(Str(x), t)
  {
    ParsePrintedString(x, t);
    assert (PrintString(x) + t)[0] == '\"';
  }

  lemma ParseBracketed(items: seq<Json>, body: string, t: string)
    requires ParseArray(body) == Got(items, t)
    ensures Parse("[" + body) == Got(Arr(items), t)
  {
    assert ("[" + body)[1..] == body;
  }

  lemma ParseBraced(fields: seq<Field>, body: string, t: string)
    requires ParseObject(body) == Got(fields, t)
    ensures Parse("{" + body) == Got(Obj(fields), t)
  {
    assert ("{" + body)[1..] == body;
  }

  /** Reading what was printed, whatever follows, gives the value back. */
  lemma {:induction false} ParsePrinted(v: Json, t: string)
    ensures Parse(Print(v) + t) == Got(v, t)
    decreases v, 1
  {
    match v
    case Null => ParsePrintedLiteral(v, t);
    case Bool(b) => ParsePrintedLiteral(v, t);
    case Str(x) => ParseQuoted(x, t);
    case Arr(items) =>
      var body := PrintArray(items) + t;
      Assoc("[", PrintArray(items), t);
      ParsePrintedArray(items, t);
      ParseBracketed(items, body, t);
    case Obj(fields) =>
      var body := PrintObject(fields) + t;
      Assoc("{", PrintObject(fields), t);
      ParsePrintedObject(fields, t);
      ParseBraced(fields, body, t);
  }

  lemma ReadArray(v: Json, s: string, t: string, vs: seq<Json>, u: string)
    requires Parse(s) == Got(v, t) && ParseItems(t) == Got(vs, u) && s != "" && s[0] != ']'
    ensures ParseArray(s) == Got([v] + vs, u)
  {
  }

  lemma ReadObject(f: Field, s: string, t: string, fs: seq<Field>, u: string)
    requires ParseField(s) == Got(f, t) && ParseFields(t) == Got(fs, u)
    ensures ParseObject(s) == Got([f] + fs, u)
  {
  }

  lemma {:induction false} ParsePrintedArray(items: seq<Json>, t: string)
    ensures ParseArray(PrintArray(items) + t) == Got(items, t)
    decreases items, 2
  {
    if items == [] {
      assert ("]" + t)[1..] == t;
    } else {
      var u := PrintItems(items[1..]) + t;
      Assoc(Print(items[0]), PrintItems(items[1..]), t);
      PrintStart(items[0]);
      ParsePrinted(items[0], u);
      ParsePrintedItems(items[1..], t);
      ReadArray(items[0], Print(items[0]) + u, u, items[1..], t);
      HeadTail(items);
    }
  }

  lemma {:induction false} ParsePrintedObject(fields: seq<Field>, t: string)
    ensures ParseObject(PrintObject(fields) + t) == Got(fields, t)
    decreases fields, 3
  {
    if fields == [] {
      assert ("}" + t)[1..] == t;
    } else {
      var u := PrintFields(fields[1..]) + t;
      Assoc(PrintField(fields[0]), PrintFields(fields[1..]), t);
      ParsePrintedField(fields[0], u);
      ParsePrintedFields(fields[1..], t);
      ReadObject(fields[0], PrintField(fields[0]) + u, u, fields[1..], t);
      HeadTail(fields);
    }
  }

  /** No printed value starts like the end of an array. */
  lemma PrintStart(v: Json)
    ensures Print(v) != "" && Print(v)[0] != ']'
  {
  }

  lemma ReadField(k: string, s: string, t: string, v: Json, u: string)
    requires ParseString(s) == Got(k, ":" + t) && Parse(t) == Got(v, u)
    ensures ParseField(s) == Got(Field(k, v), u)
  {
    assert (":" + t)[1..] == t;
  }

  lemma {:induction false} ParsePrintedField(f: Field, t: string)
    ensures ParseField(PrintField(f) + t) == Got(f, t)
    decreases f, 2
  {
    var u := Print(f.value) + t;
    Assoc(":", Print(f.value), t);
    Assoc(PrintString(f.key), ":" + Print(f.value), t);
    ParsePrintedString(f.key, ":" + u);
    ParsePrinted(f.value, t);
    ReadField(f.key, PrintString(f.key) + (":" + u), u, f.value, t);
  }

  lemma ReadItems(v: Json, s: string, t: string, vs: seq<Json>, u: string)
    requires Parse(s) == Got(v, t) && ParseItems(t) == Got(vs, u)
    ensures ParseItems("," + s) == Got([v] + vs, u)
  {
    assert ("," + s)[1..] == s;
  }

  lemma ReadFields(f: Field, s: string, t: string, fs: seq<Field>, u: string)
    requires ParseField(s) == Got(f, t) && ParseFields(t) == Got(fs, u)
    ensures ParseFields("," + s) == Got([f] + fs, u)
  {
    assert ("," + s)[1..] == s;
  }

  lemma {:induction false} ParsePrintedItems(items: seq<Json>, t: string)
    ensures ParseItems(PrintItems(items) + t) == Got(items, t)
    decreases items, 0
  {
    if items == [] {
      assert ("]" + t)[1..] == t;
    } else {
      var u := PrintItems(items[1..]) + t;
      Assoc(Print(items[0]), PrintItems(items[1..]), t);
      Assoc(",", Print(items[0]) + PrintItems(items[1..]), t);
      ParsePrinted(items[0], u);
      ParsePrintedItems(items[1..], t);
      ReadItems(items[0], Print(items[0]) + u, u, items[1..], t);
      HeadTail(items);
    }
  }

  lemma {:induction false} ParsePrintedFields(fields: seq<Field>, t: string)
    ensures ParseFields(PrintFields(fields) + t) == Got(fields, t)
    decreases fields, 0
  {
    if fields == [] {
      assert ("}" + t)[1..] == t;
    } else {
      var u := PrintFields(fields[1..]) + t;
      Assoc(PrintField(fields[0]), PrintFields(fields[1..]), t);
      Assoc(",", PrintField(fields[0]) + PrintFields(fields[1..]), t);
      ParsePrintedField(fields[0], u);
      ParsePrintedFields(fields[1..], t);
      ReadFields(fields[0], PrintField(fields[0]) + u, u, fields[1..], t);
      HeadTail(fields);
    }
  }

  /** Different values have different texts, and no text is a proper beginning of another. */
  lemma PrintInjective(v: Json, w: Json, t: string, u: string)
    requires Print(v) + t == Print(w) + u
    ensures v == w && t == u
  {
    ParsePrinted(v, t);
    ParsePrinted(w, u);
  }

  // ------------------------------------- the parser accepts printer output only

  lemma ParsedCharIsEscaped(s: string)
    requires ParseChar(s).Got?
    ensures s == EscapeChar(ParseChar(s).value) + ParseChar(s).rest
  {
    if s[0] == '\\' && s[1] !in "\"\\btnfr" {
      assert s == s[..4] + [s[4], s[5]] + s[6..];
    }
  }

  lemma {:induction false} ParsedBodyIsEscaped(s: string)
    requires ParseBody(s).Got?
    ensures s == Escape(ParseBody(s).value) + ("\"" + ParseBody(s).rest)
    decreases |s|
  {
    if s[0] != '\"' {
      var c := ParseChar(s);
      var p := ParseBody(c.rest);
      ParsedCharIsEscaped(s);
      ParsedBodyIsEscaped(c.rest);
      assert ([c.value] + p.value)[1..] == p.value;
      Assoc(EscapeChar(c.value), Escape(p.value), "\"" + p.rest);
    }
  }

  lemma ParsedStringIsPrinted(s: string)
    requires ParseString(s).Got?
    ensures s == PrintString(ParseString(s).value) + ParseString(s).rest
  {
    ParsedBodyIsEscaped(s[1..]);
  }

  lemma ParsedLiteralIsPrinted(s: string)
    requires Parse(s).Got? && s[0] !in "\"[{"
    ensures s == Print(Parse(s).value) + Parse(s).rest
  {
    var n := |s| - |Parse(s).rest|;
    assert s == s[..n] + s[n..];
  }

  /** Every text the parser accepts is the printed form of the value it returns. */
  lemma {:induction false} ParsedIsPrinted(s: string)
    requires Parse(s).Got?
    ensures s == Print(Parse(s).value) + Parse(s).rest
    decreases |s|, 1
  {
    if s[0] == '\"' {
      ParsedStringIsPrinted(s);
    } else if s[0] == '[' {
      ParsedArrayIsPrinted(s[1..]);
    } else if s[0] == '{' {
      ParsedObjectIsPrinted(s[1..]);
    } else {
      ParsedLiteralIsPrinted(s);
    }
  }

  lemma {:induction false} ParsedArrayIsPrinted(s: string)
    requires ParseArray(s).Got?
    ensures s == PrintArray(ParseArray(s).value) + ParseArray(s).rest
    decreases |s|, 3
  {
    if s[0] != ']' {
      ParsedIsPrinted(s);
      var p := Parse(s);
      ParsedItemsArePrinted(p.rest);
      assert ParseArray(s).value[1..] == ParseItems(p.rest).value;
    }
  }

  lemma {:induction false} ParsedObjectIsPrinted(s: string)
    requires ParseObject(s).Got?
    ensures s == PrintObject(ParseObject(s).value) + ParseObject(s).rest
    decreases |s|, 3
  {
    if s[0] != '}' {
      ParsedFieldIsPrinted(s);
      var p := ParseField(s);
      ParsedFieldsArePrinted(p.rest);
      assert ParseObject(s).value[1..] == ParseFields(p.rest).value;
    }
  }

  lemma FieldText(s: string, k: string, t: string, v: Json, u: string)
    requires s == PrintString(k) + t && t != "" && t[0] == ':' && t[1..] == Print(v) + u
    ensures s == PrintField(Field(k, v)) + u
  {
    assert t == ":" + t[1..];
  }

  lemma {:induction false} ParsedFieldIsPrinted(s: string)
    requires ParseField(s).Got?
    ensures s == PrintField(ParseField(s).value) + ParseField(s).rest
    decreases |s|, 2
  {
    var k := ParseString(s);
    var v := Parse(k.rest[1..]);
    ParsedStringIsPrinted(s);
    ParsedIsPrinted(k.rest[1..]);
    FieldText(s, k.value, k.rest, v.value, v.rest);
  }

  lemma ItemsText(s: string, v: Json, t: string, vs: seq<Json>, u: string)
    requires s != "" && s[0] == ',' && s[1..] == Print(v) + t && t == PrintItems(vs) + u
    ensures s == PrintItems([v] + vs) + u
  {
    assert s == "," + s[1..] && ([v] + vs)[1..] == vs;
  }

  lemma FieldsText(s: string, f: Field, t: string, fs: seq<Field>, u: string)
    requires s != "" && s[0] == ',' && s[1..] == PrintField(f) + t && t == PrintFields(fs) + u
    ensures s == PrintFields([f] + fs) + u
  {
    assert s == "," + s[1..] && ([f] + fs)[1..] == fs;
  }

  lemma {:induction false} ParsedItemsArePrinted(s: string)
    requires ParseItems(s).Got?
    ensures s == PrintItems(ParseItems(s).value) + ParseItems(s).rest
    decreases |s|, 0
  {
    if s[0] == ',' {
      ParsedIsPrinted(s[1..]);
      var p := Parse(s[1..]);
      ParsedItemsArePrinted(p.rest);
      ItemsText(s, p.value, p.rest, ParseItems(p.rest).value, ParseItems(p.rest).rest);
    }
  }

  lemma {:induction false} ParsedFieldsArePrinted(s: string)
    requires ParseFields(s).Got?
    ensures s == PrintFields(ParseFields(s).value) + ParseFields(s).rest
    decreases |s|, 0
  {
    if s[0] == ',' {
      ParsedFieldIsPrinted(s[1..]);
      var p := ParseField(s[1..]);
      ParsedFieldsArePrinted(p.rest);
      FieldsText(s, p.value, p.rest, ParseFields(p.rest).value, ParseFields(p.rest).rest);
    }
  }
}
