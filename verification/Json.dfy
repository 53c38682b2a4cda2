/**
 The JSON text an audit row stores and hashes: objects, strings, booleans and null,
 printed without spaces, with a string's special characters escaped. The text can be
 read back in only one way, even when more text follows it (section 4 of RFC 8259
 gives the grammar of objects, section 7 the escapes).
 */
module Json {
  import opened Base

  datatype Json = Null | Bool(value: bool) | Text(text: string) | Object(fields: Fields)

  datatype Fields = End | Field(name: string, value: Json, rest: Fields)

  function HexDigit(n: nat): char
    requires n < 16
  {
    if n < 10 then '0' + n as char else 'a' + (n - 10) as char
  }

  function EscapeChar(c: char): string {
    if c == '"' then "\\\""
    else if c == '\\' then "\\\\"
    else if c == 8 as char then "\\b"
    else if c == 9 as char then "\\t"
    else if c == 10 as char then "\\n"
    else if c == 12 as char then "\\f"
    else if c == 13 as char then "\\r"
    else if c < 32 as char then "\\u00" + [HexDigit(c as int / 16), HexDigit(c as int % 16)]
    else [c]
  }

  function Escape(s: string): string {
    if s == "" then "" else EscapeChar(s[0]) + Escape(s[1..])
  }

  function Print(v: Json): string {
    match v
    case Null => "null"
    case Bool(b) => if b then "true" else "false"
    case Text(s) => "\"" + Escape(s) + "\""
    case Object(fields) => "{" + PrintFields(fields)
  }

  function PrintFields(f: Fields): string {
    match f
    case End => "}"
    case Field(name, value, rest) =>
      "\"" + Escape(name) + "\":" + Print(value) + (if rest == End then "}" else "," + PrintFields(rest))
  }

  // ---------------------------------------------------------------------
  // Reading it back
  // ---------------------------------------------------------------------

  /** The body of a string, its closing quote, and what follows. */
  function Quoted(s: string, x: string): string {
    Escape(s) + ("\"" + x)
  }

  /** What follows the value of a field, and then what follows the object. */
  function After(rest: Fields, x: string): string {
    if rest == End then "}" + x else "," + (PrintFields(rest) + x)
  }

  lemma QuotedShape(s: string, x: string)
    requires s != ""
    ensures Quoted(s, x) == EscapeChar(s[0]) + Quoted(s[1..], x)
  {
  }

  lemma TextShape(s: string, x: string)
    ensures Print(Text(s)) + x == "\"" + Quoted(s, x)
  {
  }

  lemma ObjectShape(f: Fields, x: string)
    ensures Print(Object(f)) + x == "{" + (PrintFields(f) + x)
  {
  }

  lemma {:induction false} FieldShape(f: Fields, x: string)
    requires f.Field?
    ensures PrintFields(f) + x == "\"" + Quoted(f.name, ":" + (Print(f.value) + After(f.rest, x)))
  {
    var v := Print(f.value);
    var tail := if f.rest == End then "}" else "," + PrintFields(f.rest);
    assert PrintFields(f) == "\"" + Escape(f.name) + "\":" + v + tail;
    AfterShape(f.rest, x);
    Regroup(Escape(f.name), v, tail, x);
  }

  lemma {:induction false} AfterShape(rest: Fields, x: string)
    ensures After(rest, x) == (if rest == End then "}" else "," + PrintFields(rest)) + x
  {
  }

  lemma Regroup(name: string, v: string, tail: string, x: string)
    ensures "\"" + name + "\":" + v + tail + x == "\"" + (name + ("\"" + (":" + (v + (tail + x)))))
  {
  }

  lemma {:induction false} HexDigitUnique(a: nat, b: nat)
    requires a < 16 && b < 16 && HexDigit(a) == HexDigit(b)
    ensures a == b
  {
  }

  /** Escaped forms are told apart by their first characters, and no escape starts with a quote. */
  lemma EscapeCharUnique(c: char, x: string, d: char, y: string)
    requires EscapeChar(c) + x == EscapeChar(d) + y
    ensures c == d && x == y
  {
    var s := EscapeChar(c) + x;
    assert EscapeChar(c)[0] == s[0] == EscapeChar(d)[0];
    if s[0] == '\\' {
      assert EscapeChar(c)[1] == s[1] == EscapeChar(d)[1];
      if s[1] == 'u' {
        assert EscapeChar(c)[4] == s[4] == EscapeChar(d)[4];
        assert EscapeChar(c)[5] == s[5] == EscapeChar(d)[5];
        HexDigitUnique(c as int / 16, d as int / 16);
        HexDigitUnique(c as int % 16, d as int % 16);
      }
    }
    SplitEqual(EscapeChar(c), x, EscapeChar(d), y);
  }

  lemma QuotedStart(s: string, x: string)
    ensures Quoted(s, x) != "" && (Quoted(s, x)[0] == '"' <==> s == "")
    ensures s == "" ==> Quoted(s, x) == "\"" + x
  {
    if s != "" { QuotedShape(s, x); }
  }

  /** A string's text ends at the first quote that is not part of an escape. */
  lemma {:induction false} QuotedUnique(s: string, x: string, t: string, y: string)
    requires Quoted(s, x) == Quoted(t, y)
    ensures s == t && x == y
    decreases |s|
  {
    QuotedStart(s, x);
    QuotedStart(t, y);
    if s == "" && t == "" {
      SplitEqual("\"", x, "\"", y);
    } else if s != "" && t != "" {
      QuotedShape(s, x);
      QuotedShape(t, y);
      EscapeCharUnique(s[0], Quoted(s[1..], x), t[0], Quoted(t[1..], y));
      QuotedUnique(s[1..], x, t[1..], y);
      assert s == [s[0]] + s[1..] && t == [t[0]] + t[1..];
    }
  }

  function Start(v: Json): char {
    match v
    case Null => 'n'
    case Bool(b) => if b then 't' else 'f'
    case Text(_) => '"'
    case Object(_) => '{'
  }

  lemma PrintStart(v: Json, x: string)
    ensures Print(v) + x != "" && (Print(v) + x)[0] == Start(v)
  {
  }

  /** The printed text of a value, whatever follows it, determines both the value and what follows. */
  lemma {:induction false} PrintUnique(v: Json, x: string, w: Json, y: string)
    requires Print(v) + x == Print(w) + y
    ensures v == w && x == y
    decreases v
  {
    PrintStart(v, x);
    PrintStart(w, y);
    assert Start(v) == Start(w);
    match v
    case Null => SplitEqual(Print(v), x, Print(w), y);
    case Bool(b) => SplitEqual(Print(v), x, Print(w), y);
    case Text(s) =>
      TextShape(s, x);
      TextShape(w.text, y);
      SplitEqual("\"", Quoted(s, x), "\"", Quoted(w.text, y));
      QuotedUnique(s, x, w.text, y);
    case Object(fields) =>
      ObjectShape(fields, x);
      ObjectShape(w.fields, y);
      SplitEqual("{", PrintFields(fields) + x, "{", PrintFields(w.fields) + y);
      FieldsUnique(fields, x, w.fields, y);
  }

  lemma FieldsStart(f: Fields, x: string)
    ensures PrintFields(f) + x != "" && (PrintFields(f) + x)[0] == if f == End then '}' else '"'
  {
  }

  lemma {:induction false} FieldsUnique(f: Fields, x: string, g: Fields, y: string)
    requires PrintFields(f) + x == PrintFields(g) + y
    ensures f == g && x == y
    decreases f
  {
    FieldsStart(f, x);
    FieldsStart(g, y);
    if f == End {
      SplitEqual("}", x, "}", y);
    } else {
      FieldShape(f, x);
      FieldShape(g, y);
      var x' := Print(f.value) + After(f.rest, x);
      var y' := Print(g.value) + After(g.rest, y);
      SplitEqual("\"", Quoted(f.name, ":" + x'), "\"", Quoted(g.name, ":" + y'));
      QuotedUnique(f.name, ":" + x', g.name, ":" + y');
      SplitEqual(":", x', ":", y');
      PrintUnique(f.value, After(f.rest, x), g.value, After(g.rest, y));
      AfterUnique(f, x, g, y);
    }
  }

  lemma {:induction false} AfterUnique(f: Fields, x: string, g: Fields, y: string)
    requires f.Field? && g.Field? && f.name == g.name && f.value == g.value && After(f.rest, x) == After(g.rest, y)
    ensures f == g && x == y
    decreases f, 0
  {
    assert After(f.rest, x)[0] == if f.rest == End then '}' else ',';
    assert After(g.rest, y)[0] == if g.rest == End then '}' else ',';
    if f.rest == End {
      SplitEqual("}", x, "}", y);
    } else {
      SplitEqual(",", PrintFields(f.rest) + x, ",", PrintFields(g.rest) + y);
      FieldsUnique(f.rest, x, g.rest, y);
    }
  }

  /** Words are in small letters; a quote, a backslash and a line end are escaped, a letter is not. */
  lemma WordsAndEscapes()
    ensures Print(Bool(true)) == "true" && Print(Bool(false)) == "false" && Print(Null) == "null"
    ensures Escape("\"") == "\\\"" && Escape("\\") == "\\\\" && Escape("\n") == "\\n" && Escape("a") == "a"
  {
    assert EscapeChar('"') + "" == EscapeChar('"') && EscapeChar('\\') + "" == EscapeChar('\\');
    assert EscapeChar('\n') + "" == EscapeChar('\n') && EscapeChar('a') + "" == EscapeChar('a');
  }

  /** An object of one field: braces, the quoted name, a colon, the value. */
  lemma {:induction false} ObjectOfOne(name: string, value: Json)
    ensures Print(Object(Field(name, value, End))) == "{" + ("\"" + Escape(name) + "\":" + Print(value) + "}")
  {
  }
}
