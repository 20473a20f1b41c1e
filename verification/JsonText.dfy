/**
 * JSON values and the text that `JSON.stringify` gives them (RFC 8259, sections 4 to 7).
 * The main result is that the text is unambiguous: no two values share one.
 */
module JsonText {
  /** A JSON value; an object lists its own properties in enumeration order. */
  datatype Json =
    | Null
    | Bool(b: bool)
    | Num(n: int)
    | Str(s: string)
    | Arr(items: seq<Json>)
    | Obj(fields: seq<Field>)

  datatype Field = Field(key: string, value: Json)

  // ---------- numbers ----------

  predicate IsDigit(c: char) {
    '0' <= c <= '9'
  }

  function DigitChar(d: nat): char
    requires d < 10
  {
    "0123456789"[d]
  }

  /** Decimal digits of a natural number, without leading zeros. */
  function NatText(n: nat): (text: string)
    ensures |text| > 0 && forall c | c in text :: IsDigit(c)
  {
    if n < 10 then [DigitChar(n)] else NatText(n / 10) + [DigitChar(n % 10)]
  }

  function DigitValue(c: char): nat
    requires IsDigit(c)
  {
    c as int - '0' as int
  }

  /** The number that a string of digits denotes. */
  function DigitsValue(text: string): nat
    requires forall c | c in text :: IsDigit(c)
  {
    if text == "" then 0
    else 10 * DigitsValue(text[..|text| - 1]) + DigitValue(text[|text| - 1])
  }

  lemma {:induction false} DigitsRoundTrip(n: nat)
    ensures DigitsValue(NatText(n)) == n
    ensures NatText(n)[0] == '0' <==> n == 0
  {
    if n >= 10 {
      var init := NatText(n / 10);
      DigitsRoundTrip(n / 10);
      assert NatText(n)[..|NatText(n)| - 1] == init;
    }
  }

  // ---------- strings ----------

  function HexDigit(d: nat): char
    requires d < 16
  {
    "0123456789abcdef"[d]
  }

  /** What one character becomes inside quotes. */
  function Escape(c: char): (text: string)
    ensures |text| > 0
  {
    if c == '"' then "\\\""
    else if c == '\\' then "\\\\"
    else if c as int == 8 then "\\b"
    else if c as int == 9 then "\\t"
    else if c as int == 10 then "\\n"
    else if c as int == 12 then "\\f"
    else if c as int == 13 then "\\r"
    else if (c as int) < 0x20 then "\\u00" + [HexDigit(c as int / 16), HexDigit(c as int % 16)]
    else [c]
  }

  /** The characters of a string inside quotes, the closing quote, and then `rest`. */
  function EscapeThen(s: string, rest: string): (text: string)
    ensures |text| > 0
  {
    if s == "" then ['"'] + rest else Escape(s[0]) + EscapeThen(s[1..], rest)
  }

  // ---------- values ----------

  /** The text of `v` followed by `rest`; no white space is printed anywhere. */
  function PrintThen(v: Json, rest: string): (text: string)
    ensures |text| > 0
  {
    match v
    case Null => "null" + rest
    case Bool(b) => (if b then "true" else "false") + rest
    case Num(n) => if n < 0 then ['-'] + (NatText(-n) + rest) else NatText(n) + rest
    case Str(s) => ['"'] + EscapeThen(s, rest)
    case Arr(items) =>
      ['['] + (if items == [] then [']'] + rest else PrintThen(items[0], ItemsThen(items[1..], rest)))
    case Obj(fields) =>
      ['{'] + (if fields == [] then ['}'] + rest else FieldThen(fields[0], FieldsThen(fields[1..], rest)))
  }

  /** The remaining items of an array, each after a comma, and the closing bracket. */
  function ItemsThen(items: seq<Json>, rest: string): (text: string)
    ensures |text| > 0
  {
    if items == [] then [']'] + rest else [','] + PrintThen(items[0], ItemsThen(items[1..], rest))
  }

  function FieldThen(f: Field, rest: string): (text: string)
    ensures |text| > 0 && text[0] == '"'
  {
    ['"'] + EscapeThen(f.key, [':'] + PrintThen(f.value, rest))
  }

  /** The remaining fields of an object, each after a comma, and the closing brace. */
  function FieldsThen(fields: seq<Field>, rest: string): (text: string)
    ensures |text| > 0
  {
    if fields == [] then ['}'] + rest else [','] + FieldThen(fields[0], FieldsThen(fields[1..], rest))
  }

  /** `JSON.stringify` of a value. */
  function Print(v: Json): string {
    PrintThen(v, "")
  }

  // ---------- unambiguity ----------

  /** What may follow a printed value: nothing, or a structural character. */
  predicate Delimited(rest: string) {
    rest == "" || rest[0] == ',' || rest[0] == ']' || rest[0] == '}'
  }

  lemma CancelPrefix(p: string, a: string, b: string)
    requires p + a == p + b
    ensures a == b
  {
    assert a == (p + a)[|p|..];
    assert b == (p + b)[|p|..];
  }

  lemma CancelHead(c: char, d: char, a: string, b: string)
    requires [c] + a == [d] + b
    ensures c == d && a == b
  {
    assert ([c] + a)[0] == c && ([d] + b)[0] == d;
    CancelPrefix([c], a, b);
  }

  lemma WhatFollows(d: string, e: string, r: string, t: string)
    requires d + r == e + t && |d| < |e|
    ensures r != "" && r[0] == e[|d|] && r[0] in e
  {
    assert r == (d + r)[|d|..] == (e + t)[|d|..];
  }

  /** Two digit runs that end at a delimiter and start equal texts are the same run. */
  lemma DigitRunsAgree(d: string, e: string, r: string, t: string)
    requires (forall c | c in d :: IsDigit(c)) && (forall c | c in e :: IsDigit(c))
    requires Delimited(r) && Delimited(t) && d + r == e + t
    ensures d == e && r == t
  {
    if |d| < |e| { WhatFollows(d, e, r, t); }
    if |e| < |d| { WhatFollows(e, d, t, r); }
    assert d == (d + r)[..|d|] == (e + t)[..|e|] == e;
    CancelPrefix(d, r, t);
  }

  lemma NatUnambiguous(m: nat, n: nat, r: string, t: string)
    requires Delimited(r) && Delimited(t) && NatText(m) + r == NatText(n) + t
    ensures m == n && r == t
  {
    DigitRunsAgree(NatText(m), NatText(n), r, t);
    DigitsRoundTrip(m);
    DigitsRoundTrip(n);
  }

  lemma NumUnambiguous(m: int, n: int, r: string, t: string)
    requires Delimited(r) && Delimited(t) && PrintThen(Num(m), r) == PrintThen(Num(n), t)
    ensures m == n && r == t
  {
    FirstChar(Num(m), r);
    FirstChar(Num(n), t);
    if m < 0 {
      CancelHead('-', '-', NatText(-m) + r, NatText(-n) + t);
      NatUnambiguous(-m, -n, r, t);
    } else {
      NatUnambiguous(m, n, r, t);
    }
  }

  lemma HexUnambiguous(i: nat, j: nat)
    requires i < 16 && j < 16 && HexDigit(i) == HexDigit(j)
    ensures i == j
  {
    var digits := "0123456789abcdef";
    assert digits[i] == digits[j];
  }

  /** Escapes are prefix-free. */
  lemma EscapeUnambiguous(c: char, d: char, a: string, b: string)
    requires Escape(c) + a == Escape(d) + b
    ensures c == d && a == b
  {
    var x, y := Escape(c) + a, Escape(d) + b;
    assert x[0] == Escape(c)[0] && y[0] == Escape(d)[0];
    if Escape(c)[0] == '\\' {
      assert x[1] == Escape(c)[1] && y[1] == Escape(d)[1];
      if Escape(c)[1] == 'u' {
        assert x[4] == Escape(c)[4] && y[4] == Escape(d)[4];
        assert x[5] == Escape(c)[5] && y[5] == Escape(d)[5];
        HexUnambiguous(c as int / 16, d as int / 16);
        HexUnambiguous(c as int % 16, d as int % 16);
      }
    }
    assert c == d;
    CancelPrefix(Escape(c), a, b);
  }

  lemma ClosingQuote(s: string, rest: string)
    ensures EscapeThen(s, rest)[0] == '"' <==> s == ""
  {
    if s != "" {
      assert EscapeThen(s, rest)[0] == Escape(s[0])[0];
    }
  }

  lemma {:induction false} StringUnambiguous(s: string, u: string, r: string, t: string)
    requires EscapeThen(s, r) == EscapeThen(u, t)
    ensures s == u && r == t
    decreases |s| + |u|
  {
    ClosingQuote(s, r);
    ClosingQuote(u, t);
    if s != "" && u != "" {
      EscapeUnambiguous(s[0], u[0], EscapeThen(s[1..], r), EscapeThen(u[1..], t));
      StringUnambiguous(s[1..], u[1..], r, t);
      assert s == [s[0]] + s[1..] && u == [u[0]] + u[1..];
    } else {
      CancelPrefix("\"", r, t);
    }
  }

  /** Each kind of value announces itself in its first character. */
  lemma FirstChar(v: Json, rest: string)
    ensures var c := PrintThen(v, rest)[0];
      && (c == 'n' <==> v.Null?) && (c == 't' <==> v == Bool(true)) && (c == 'f' <==> v == Bool(false))
      && (c == '"' <==> v.Str?) && (c == '[' <==> v.Arr?) && (c == '{' <==> v.Obj?)
      && (c == '-' <==> v.Num? && v.n < 0) && (c != ']' && c != ',' && c != '}')
  {
    match v
    case Num(n) =>
      if n >= 0 {
        assert PrintThen(v, rest)[0] == NatText(n)[0] && NatText(n)[0] in NatText(n);
      }
    case Bool(b) =>
      assert b ==> PrintThen(v, rest)[0] == "true"[0];
      assert !b ==> PrintThen(v, rest)[0] == "false"[0];
    case Null =>
    case Str(s) =>
    case Arr(items) =>
    case Obj(fields) =>
  }

  lemma SameKind(u: Json, v: Json, r: string, t: string)
    requires PrintThen(u, r) == PrintThen(v, t)
    ensures u.Null? == v.Null? && u.Bool? == v.Bool? && u.Num? == v.Num?
    ensures u.Str? == v.Str? && u.Arr? == v.Arr? && u.Obj? == v.Obj?
    ensures u.Bool? ==> u == v
  {
    FirstChar(u, r);
    FirstChar(v, t);
  }

  /** Equal texts, up to what follows, come from equal values followed by equal texts. */
  lemma {:induction false} PrintUnambiguous(u: Json, v: Json, r: string, t: string)
    requires Delimited(r) && Delimited(t) && PrintThen(u, r) == PrintThen(v, t)
    ensures u == v && r == t
    decreases u, 2
  {
    SameKind(u, v, r, t);
    match u
    case Null => CancelPrefix("null", r, t);
    case Bool(b) => CancelPrefix(if b then "true" else "false", r, t);
    case Num(n) => NumUnambiguous(n, v.n, r, t);
    case Str(s) =>
      CancelHead('"', '"', EscapeThen(s, r), EscapeThen(v.s, t));
      StringUnambiguous(s, v.s, r, t);
    case Arr(items) => ArrUnambiguous(items, v.items, r, t);
    case Obj(fields) => ObjUnambiguous(fields, v.fields, r, t);
  }

  lemma {:induction false} ArrUnambiguous(us: seq<Json>, vs: seq<Json>, r: string, t: string)
    requires Delimited(r) && Delimited(t) && PrintThen(Arr(us), r) == PrintThen(Arr(vs), t)
    ensures us == vs && r == t
    decreases us, 1
  {
    var a := if us == [] then [']'] + r else PrintThen(us[0], ItemsThen(us[1..], r));
    var b := if vs == [] then [']'] + t else PrintThen(vs[0], ItemsThen(vs[1..], t));
    CancelHead('[', '[', a, b);
    if us == [] || vs == [] {
      if us != [] { FirstChar(us[0], ItemsThen(us[1..], r)); }
      if vs != [] { FirstChar(vs[0], ItemsThen(vs[1..], t)); }
      CancelHead(']', ']', r, t);
    } else {
      PrintUnambiguous(us[0], vs[0], ItemsThen(us[1..], r), ItemsThen(vs[1..], t));
      ItemsUnambiguous(us[1..], vs[1..], r, t);
      assert us == [us[0]] + us[1..] && vs == [vs[0]] + vs[1..];
    }
  }

  lemma {:induction false} ItemsUnambiguous(us: seq<Json>, vs: seq<Json>, r: string, t: string)
    requires ItemsThen(us, r) == ItemsThen(vs, t)
    ensures us == vs && r == t
    decreases us, 0
  {
    var a := if us == [] then r else PrintThen(us[0], ItemsThen(us[1..], r));
    var b := if vs == [] then t else PrintThen(vs[0], ItemsThen(vs[1..], t));
    CancelHead(if us == [] then ']' else ',', if vs == [] then ']' else ',', a, b);
    if us != [] {
      PrintUnambiguous(us[0], vs[0], ItemsThen(us[1..], r), ItemsThen(vs[1..], t));
      ItemsUnambiguous(us[1..], vs[1..], r, t);
      assert us == [us[0]] + us[1..] && vs == [vs[0]] + vs[1..];
    }
  }

  lemma {:induction false} ObjUnambiguous(us: seq<Field>, vs: seq<Field>, r: string, t: string)
    requires Delimited(r) && Delimited(t) && PrintThen(Obj(us), r) == PrintThen(Obj(vs), t)
    ensures us == vs && r == t
    decreases us, 1
  {
    var a := if us == [] then ['}'] + r else FieldThen(us[0], FieldsThen(us[1..], r));
    var b := if vs == [] then ['}'] + t else FieldThen(vs[0], FieldsThen(vs[1..], t));
    CancelHead('{', '{', a, b);
    if us == [] || vs == [] {
      CancelHead('}', '}', r, t);
    } else {
      FieldUnambiguous(us[0], vs[0], FieldsThen(us[1..], r), FieldsThen(vs[1..], t));
      FieldsUnambiguous(us[1..], vs[1..], r, t);
      assert us == [us[0]] + us[1..] && vs == [vs[0]] + vs[1..];
    }
  }

  lemma {:induction false} FieldUnambiguous(f: Field, g: Field, r: string, t: string)
    requires Delimited(r) && Delimited(t) && FieldThen(f, r) == FieldThen(g, t)
    ensures f == g && r == t
    decreases f, 3
  {
    var a, b := PrintThen(f.value, r), PrintThen(g.value, t);
    CancelHead('"', '"', EscapeThen(f.key, [':'] + a), EscapeThen(g.key, [':'] + b));
    StringUnambiguous(f.key, g.key, [':'] + a, [':'] + b);
    CancelHead(':', ':', a, b);
    PrintUnambiguous(f.value, g.value, r, t);
  }

  lemma {:induction false} FieldsUnambiguous(us: seq<Field>, vs: seq<Field>, r: string, t: string)
    requires FieldsThen(us, r) == FieldsThen(vs, t)
    ensures us == vs && r == t
    decreases us, 0
  {
    var a := if us == [] then r else FieldThen(us[0], FieldsThen(us[1..], r));
    var b := if vs == [] then t else FieldThen(vs[0], FieldsThen(vs[1..], t));
    CancelHead(if us == [] then '}' else ',', if vs == [] then '}' else ',', a, b);
    if us != [] {
      FieldUnambiguous(us[0], vs[0], FieldsThen(us[1..], r), FieldsThen(vs[1..], t));
      FieldsUnambiguous(us[1..], vs[1..], r, t);
      assert us == [us[0]] + us[1..] && vs == [vs[0]] + vs[1..];
    }
  }

  /** The printed text determines the value, property order included. */
  lemma PrintInjective(u: Json, v: Json)
    ensures Print(u) == Print(v) <==> u == v
  {
    if Print(u) == Print(v) {
      PrintUnambiguous(u, v, "", "");
    }
  }
}
