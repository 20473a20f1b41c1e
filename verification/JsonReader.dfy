/**
 * A reader of JSON text without insignificant white space, after the grammar of RFC 8259, sections 3
 * to 7, which knows nothing of the printer.  What is printed reads as exactly the value that was
 * printed, and no shorter text reads as it.
 */
module JsonReader {
  import opened JsonText

  /** What was read from the front of a text, and what is left of the text. */
  datatype Read<T> = Fails | Reads(value: T, rest: string)

  // ---------- literals and numbers ----------

  function ReadLiteral(t: string, literal: string, v: Json): (r: Read<Json>)
    requires literal != ""
    ensures r.Reads? ==> |r.rest| < |t|
  {
    if |literal| <= |t| && t[..|literal|] == literal then Reads(v, t[|literal|..]) else Fails
  }

  /** All the digits at the front, as the decimal places of a number that began with `n`. */
  function ReadDigits(t: string, n: nat): (r: (nat, string))
    ensures |r.1| <= |t|
  {
    if t != "" && '0' <= t[0] <= '9' then ReadDigits(t[1..], 10 * n + (t[0] as int - '0' as int)) else (n, t)
  }

  /** An integer part: 0, or digits of which the first is not 0. */
  function ReadNat(t: string): (r: Read<nat>)
    ensures r.Reads? ==> |r.rest| < |t|
  {
    if t == "" || !('0' <= t[0] <= '9') then Fails
    else if t[0] == '0' then Reads(0, t[1..])
    else
      var (n, rest) := ReadDigits(t[1..], t[0] as int - '0' as int);
      Reads(n, rest)
  }

  function ReadNumber(t: string): (r: Read<Json>)
    ensures r.Reads? ==> |r.rest| < |t|
  {
    if t != "" && t[0] == '-' then
      match ReadNat(t[1..])
      case Fails => Fails
      case Reads(n, rest) => Reads(Num(0 - n), rest)
    else
      match ReadNat(t)
      case Fails => Fails
      case Reads(n, rest) => Reads(Num(n), rest)
  }

  // ---------- strings ----------

  predicate IsHex(c: char) {
    '0' <= c <= '9' || 'a' <= c <= 'f' || 'A' <= c <= 'F'
  }

  function HexValue(c: char): (n: nat)
    requires IsHex(c)
    ensures n < 16
  {
    if '0' <= c <= '9' then c as int - '0' as int
    else if 'a' <= c <= 'f' then c as int - 'a' as int + 10
    else c as int - 'A' as int + 10
  }

  /** Four hexadecimal digits; halves of surrogate pairs are not characters here. */
  function ReadCode(t: string): (r: Read<char>)
    ensures r.Reads? ==> |r.rest| < |t|
  {
    if |t| < 4 || !IsHex(t[0]) || !IsHex(t[1]) || !IsHex(t[2]) || !IsHex(t[3]) then Fails
    else
      var code := 4096 * HexValue(t[0]) + 256 * HexValue(t[1]) + 16 * HexValue(t[2]) + HexValue(t[3]);
      if 0xD800 <= code < 0xE000 then Fails else Reads(code as char, t[4..])
  }

  /** What comes after a reverse solidus. */
  function ReadEscape(t: string): (r: Read<char>)
    ensures r.Reads? ==> |r.rest| < |t|
  {
    if t == "" then Fails
    else match t[0]
         case '"' => Reads('"', t[1..])
         case '\\' => Reads('\\', t[1..])
         case '/' => Reads('/', t[1..])
         case 'b' => Reads(8 as char, t[1..])
         case 'f' => Reads(12 as char, t[1..])
         case 'n' => Reads(10 as char, t[1..])
         case 'r' => Reads(13 as char, t[1..])
         case 't' => Reads(9 as char, t[1..])
         case 'u' => ReadCode(t[1..])
         case _ => Fails
  }

  /** One character of a string: as it is, unless it is a quote, a reverse solidus or a control character. */
  function ReadChar(t: string): (r: Read<char>)
    ensures r.Reads? ==> |r.rest| < |t|
  {
    if t == "" || t[0] == '"' || (t[0] as int) < 0x20 then Fails
    else if t[0] == '\\' then ReadEscape(t[1..])
    else Reads(t[0], t[1..])
  }

  /** The characters up to the closing quote. */
  function ReadString(t: string): (r: Read<string>)
    ensures r.Reads? ==> |r.rest| < |t|
    decreases |t|
  {
    if t != "" && t[0] == '"' then Reads("", t[1..])
    else match ReadChar(t)
         case Fails => Fails
         case Reads(c, more) =>
           match ReadString(more)
           case Fails => Fails
           case Reads(s, rest) => Reads([c] + s, rest)
  }

  // ---------- values ----------

  function ReadValue(t: string): (r: Read<Json>)
    ensures r.Reads? ==> |r.rest| < |t|
    decreases |t|, 0
  {
    if t == "" then Fails
    else match t[0]
         case 'n' => ReadLiteral(t, "null", Null)
         case 't' => ReadLiteral(t, "true", Bool(true))
         case 'f' => ReadLiteral(t, "false", Bool(false))
         case '"' => (match ReadString(t[1..]) case Fails => Fails case Reads(s, rest) => Reads(Str(s), rest))
         case '[' =>
           if |t| > 1 && t[1] == ']' then Reads(Arr([]), t[2..])
           else (match ReadItems(t[1..]) case Fails => Fails case Reads(items, rest) => Reads(Arr(items), rest))
         case '{' =>
           if |t| > 1 && t[1] == '}' then Reads(Obj([]), t[2..])
           else (match ReadFields(t[1..]) case Fails => Fails case Reads(fields, rest) => Reads(Obj(fields), rest))
         case _ => ReadNumber(t)
  }

  /** One value or more, with commas between them, and the closing bracket. */
  function ReadItems(t: string): (r: Read<seq<Json>>)
    ensures r.Reads? ==> |r.rest| < |t|
    decreases |t|, 1
  {
    match ReadValue(t)
    case Fails => Fails
    case Reads(v, more) =>
      if more == "" then Fails
      else if more[0] == ']' then Reads([v], more[1..])
      else if more[0] != ',' then Fails
      else match ReadItems(more[1..])
           case Fails => Fails
           case Reads(items, rest) => Reads([v] + items, rest)
  }

  /** A name in quotes, a colon and a value. */
  function ReadField(t: string): (r: Read<Field>)
    ensures r.Reads? ==> |r.rest| < |t|
    decreases |t|, 1
  {
    if t == "" || t[0] != '"' then Fails
    else match ReadString(t[1..])
         case Fails => Fails
         case Reads(key, more) =>
           if more == "" || more[0] != ':' then Fails
           else match ReadValue(more[1..])
                case Fails => Fails
                case Reads(v, rest) => Reads(Field(key, v), rest)
  }

  function ReadFields(t: string): (r: Read<seq<Field>>)
    ensures r.Reads? ==> |r.rest| < |t|
    decreases |t|, 2
  {
    match ReadField(t)
    case Fails => Fails
    case Reads(f, more) =>
      if more == "" then Fails
      else if more[0] == '}' then Reads([f], more[1..])
      else if more[0] != ',' then Fails
      else match ReadFields(more[1..])
           case Fails => Fails
           case Reads(fields, rest) => Reads([f] + fields, rest)
  }

  /** The value of a whole text; none if it is not JSON. */
  function Parse(t: string): Read<Json> {
    match ReadValue(t)
    case Fails => Fails
    case Reads(v, rest) => if rest == "" then Reads(v, "") else Fails
  }

  // ---------- what is printed is read ----------

  lemma HeadAndTail(c: char, t: string)
    ensures ([c] + t)[0] == c && ([c] + t)[1..] == t
  {
  }

  lemma LiteralReads(literal: string, v: Json, rest: string)
    requires literal != ""
    ensures ReadLiteral(literal + rest, literal, v) == Reads(v, rest)
  {
  }

  /** Digits are read from the left, and were printed from the right. */
  lemma {:induction false} DigitsRead(d: string, n: nat, rest: string)
    requires (forall c | c in d :: IsDigit(c)) && (rest != "" ==> !IsDigit(rest[0]))
    ensures ReadDigits(d + rest, n) == (Extended(n, d), rest)
    decreases |d|
  {
    if d == "" {
      assert d + rest == rest;
    } else {
      assert d + rest == [d[0]] + (d[1..] + rest);
      HeadAndTail(d[0], d[1..] + rest);
      DigitsRead(d[1..], 10 * n + DigitValue(d[0]), rest);
      FirstDigitCounts(d);
      DigitArithmetic(n, DigitValue(d[0]), Pow10(|d| - 1), DigitsValue(d[1..]));
    }
  }

  /** The number whose decimal digits are those of `n` and then `d`. */
  function Extended(n: nat, d: string): nat
    requires forall c | c in d :: IsDigit(c)
  {
    n * Pow10(|d|) + DigitsValue(d)
  }

  function Pow10(k: nat): nat {
    if k == 0 then 1 else 10 * Pow10(k - 1)
  }

  lemma DigitArithmetic(n: nat, d: nat, p: nat, v: nat)
    ensures (10 * n + d) * p + v == n * (10 * p) + (d * p + v)
  {
  }

  lemma {:induction false} FirstDigitCounts(d: string)
    requires d != "" && forall c | c in d :: IsDigit(c)
    ensures DigitsValue(d) == DigitValue(d[0]) * Pow10(|d| - 1) + DigitsValue(d[1..])
    decreases |d|
  {
    if |d| == 1 {
      assert d[..0] == "" && d[1..] == "";
    } else {
      var init := d[..|d| - 1];
      FirstDigitCounts(init);
      assert d[1..][..|d[1..]| - 1] == init[1..];
      assert 10 * (DigitValue(d[0]) * Pow10(|d| - 2)) == DigitValue(d[0]) * Pow10(|d| - 1);
    }
  }

  lemma DigitsReadAsNat(c: char, tail: string, rest: string)
    requires IsDigit(c) && c != '0' && (forall x | x in tail :: IsDigit(x)) && (rest != "" ==> !IsDigit(rest[0]))
    ensures ReadNat([c] + (tail + rest)) == Reads(Extended(DigitValue(c), tail), rest)
  {
    hide ReadDigits, Extended;
    HeadAndTail(c, tail + rest);
    DigitsRead(tail, DigitValue(c), rest);
  }

  lemma NatReads(n: nat, rest: string)
    requires rest != "" ==> !IsDigit(rest[0])
    ensures ReadNat(NatText(n) + rest) == Reads(n, rest)
  {
    DigitsRoundTrip(n);
    if n == 0 {
      HeadAndTail('0', rest);
    } else {
      var d := NatText(n);
      assert d + rest == [d[0]] + (d[1..] + rest) && d[0] in d;
      assert Extended(DigitValue(d[0]), d[1..]) == n by { FirstDigitCounts(d); }
      hide *;
      DigitsReadAsNat(d[0], d[1..], rest);
    }
  }

  lemma NumberReads(n: int, rest: string)
    requires Delimited(rest)
    ensures ReadValue(PrintThen(Num(n), rest)) == Reads(Num(n), rest)
  {
    FirstChar(Num(n), rest);
    if n < 0 {
      NatReads(-n, rest);
      HeadAndTail('-', NatText(-n) + rest);
    } else {
      NatReads(n, rest);
      assert NatText(n)[0] in NatText(n) && (NatText(n) + rest)[0] == NatText(n)[0];
    }
  }

  lemma HexReads(d: nat)
    requires d < 16
    ensures IsHex(HexDigit(d)) && HexValue(HexDigit(d)) == d
  {
  }

  lemma CharReads(c: char, rest: string)
    ensures ReadChar(Escape(c) + rest) == Reads(c, rest)
    ensures Escape(c)[0] != '"'
  {
    var t := Escape(c) + rest;
    assert t[0] == Escape(c)[0] && t[|Escape(c)|..] == rest;
    if |Escape(c)| == 2 {
      assert t[1..][0] == Escape(c)[1] && t[1..][1..] == rest;
    } else if |Escape(c)| == 6 {
      HexReads(c as int / 16);
      HexReads(c as int % 16);
      var u := t[1..];
      assert u[0] == 'u' && u[1..] == t[2..];
      var h := t[2..];
      assert h[0] == '0' && h[1] == '0' && h[2] == Escape(c)[4] && h[3] == Escape(c)[5] && h[4..] == rest;
    }
  }

  lemma {:induction false} StringReads(s: string, rest: string)
    ensures ReadString(EscapeThen(s, rest)) == Reads(s, rest)
    decreases |s|
  {
    if s == "" {
      HeadAndTail('"', rest);
    } else {
      CharReads(s[0], EscapeThen(s[1..], rest));
      StringReads(s[1..], rest);
      assert EscapeThen(s, rest)[0] == Escape(s[0])[0];
      assert s == [s[0]] + s[1..];
    }
  }

  /** The text of a value, whatever delimiter follows it, reads as that value. */
  lemma {:induction false} ValueReads(v: Json, rest: string)
    requires Delimited(rest)
    ensures ReadValue(PrintThen(v, rest)) == Reads(v, rest)
    decreases v, 2
  {
    match v
    case Null => LiteralReads("null", v, rest);
    case Bool(b) => LiteralReads(if b then "true" else "false", v, rest);
    case Num(n) => NumberReads(n, rest);
    case Str(s) =>
      StringReads(s, rest);
      HeadAndTail('"', EscapeThen(s, rest));
    case Arr(items) => ArrReads(items, rest);
    case Obj(fields) => ObjReads(fields, rest);
  }

  lemma {:induction false} ArrReads(items: seq<Json>, rest: string)
    requires Delimited(rest)
    ensures ReadValue(PrintThen(Arr(items), rest)) == Reads(Arr(items), rest)
    decreases items, 1
  {
    if items == [] {
      var t := PrintThen(Arr(items), rest);
      assert t == ['['] + ([']'] + rest);
      assert t[0] == '[' && t[1] == ']' && t[2..] == rest;
    } else {
      var text := PrintThen(items[0], ItemsThen(items[1..], rest));
      HeadAndTail('[', text);
      FirstChar(items[0], ItemsThen(items[1..], rest));
      ItemsRead(items, rest);
    }
  }

  lemma {:induction false} ItemsRead(items: seq<Json>, rest: string)
    requires items != []
    ensures ReadItems(PrintThen(items[0], ItemsThen(items[1..], rest))) == Reads(items, rest)
    decreases items, 0
  {
    var more := ItemsThen(items[1..], rest);
    ValueReads(items[0], more);
    if items[1..] == [] {
      HeadAndTail(']', rest);
      assert items == [items[0]];
    } else {
      var text := PrintThen(items[1], ItemsThen(items[2..], rest));
      assert items[1..][1..] == items[2..];
      HeadAndTail(',', text);
      ItemsRead(items[1..], rest);
      assert items == [items[0]] + items[1..];
    }
  }

  lemma {:induction false} ObjReads(fields: seq<Field>, rest: string)
    requires Delimited(rest)
    ensures ReadValue(PrintThen(Obj(fields), rest)) == Reads(Obj(fields), rest)
    decreases fields, 1
  {
    if fields == [] {
      var t := PrintThen(Obj(fields), rest);
      assert t == ['{'] + (['}'] + rest);
      assert t[0] == '{' && t[1] == '}' && t[2..] == rest;
    } else {
      var text := FieldThen(fields[0], FieldsThen(fields[1..], rest));
      assert PrintThen(Obj(fields), rest) == ['{'] + text;
      FieldsRead(fields, rest);
      hide PrintThen, FieldThen, FieldsThen, ReadFields, ReadItems, ReadString, ReadNumber, ReadLiteral;
      HeadAndTail('{', text);
    }
  }

  lemma {:induction false} FieldReads(f: Field, rest: string)
    requires Delimited(rest)
    ensures ReadField(FieldThen(f, rest)) == Reads(f, rest)
    decreases f, 3
  {
    var value := PrintThen(f.value, rest);
    HeadAndTail('"', EscapeThen(f.key, [':'] + value));
    StringReads(f.key, [':'] + value);
    HeadAndTail(':', value);
    ValueReads(f.value, rest);
  }

  lemma {:induction false} FieldsRead(fields: seq<Field>, rest: string)
    requires fields != []
    ensures ReadFields(FieldThen(fields[0], FieldsThen(fields[1..], rest))) == Reads(fields, rest)
    decreases fields, 0
  {
    var more := FieldsThen(fields[1..], rest);
    FieldReads(fields[0], more);
    if fields[1..] == [] {
      HeadAndTail('}', rest);
      assert fields == [fields[0]];
    } else {
      var text := FieldThen(fields[1], FieldsThen(fields[2..], rest));
      assert fields[1..][1..] == fields[2..];
      HeadAndTail(',', text);
      FieldsRead(fields[1..], rest);
      assert fields == [fields[0]] + fields[1..];
    }
  }

  /** The printed text is JSON, and denotes exactly the printed value. */
  lemma PrintedIsJson(v: Json)
    ensures Parse(Print(v)) == Reads(v, "")
  {
    ValueReads(v, "");
  }

  // ---------- and nothing shorter reads as it ----------

  lemma {:induction false} DigitsBound(t: string, n: nat)
    ensures var (m, rest) := ReadDigits(t, n); m < (n + 1) * Pow10(|t| - |rest|)
    decreases |t|
  {
    if t != "" && '0' <= t[0] <= '9' {
      var d := t[0] as int - '0' as int;
      DigitsBound(t[1..], 10 * n + d);
      var k := |t| - 1 - |ReadDigits(t[1..], 10 * n + d).1|;
      Scaled(10 * n + d + 1, 10 * (n + 1), Pow10(k));
    }
  }

  lemma Scaled(a: nat, b: nat, p: nat)
    requires a <= b
    ensures a * p <= b * p
    ensures b % 10 == 0 ==> b * p == (b / 10) * (10 * p)
  {
  }

  lemma {:induction false} FewDigits(n: nat, k: nat)
    requires k >= 1 && n < Pow10(k)
    ensures |NatText(n)| <= k
  {
    if n >= 10 {
      assert k >= 2 by { assert Pow10(1) == 10; }
      FewDigits(n / 10, k - 1);
    }
  }

  lemma NatIsShortest(t: string)
    requires ReadNat(t).Reads?
    ensures |NatText(ReadNat(t).value)| + |ReadNat(t).rest| <= |t|
  {
    if t[0] != '0' {
      var d := t[0] as int - '0' as int;
      DigitsBound(t[1..], d);
      var (n, rest) := ReadDigits(t[1..], d);
      var k := |t| - 1 - |rest|;
      Scaled(d + 1, 10, Pow10(k));
      FewDigits(n, k + 1);
    }
  }

  lemma CharIsShortest(t: string)
    requires ReadChar(t).Reads?
    ensures |Escape(ReadChar(t).value)| + |ReadChar(t).rest| <= |t|
  {
  }

  lemma {:induction false} StringIsShortest(t: string)
    requires ReadString(t).Reads?
    ensures |EscapeThen(ReadString(t).value, ReadString(t).rest)| <= |t|
    decreases |t|
  {
    if t[0] != '"' {
      CharIsShortest(t);
      StringIsShortest(ReadChar(t).rest);
      var s := ReadString(t).value;
      assert s[1..] == ReadString(ReadChar(t).rest).value;
    }
  }

  lemma {:induction false} ValueIsShortest(t: string)
    requires ReadValue(t).Reads?
    ensures |PrintThen(ReadValue(t).value, ReadValue(t).rest)| <= |t|
    decreases |t|, 0
  {
    match t[0]
    case 'n' =>
    case 't' =>
    case 'f' =>
    case '"' => StringIsShortest(t[1..]);
    case '[' => if !(|t| > 1 && t[1] == ']') { ItemsAreShortest(t[1..]); }
    case '{' => if !(|t| > 1 && t[1] == '}') { FieldsAreShortest(t[1..]); }
    case _ => NatIsShortest(if t[0] == '-' then t[1..] else t);
  }

  lemma {:induction false} ItemsAreShortest(t: string)
    requires ReadItems(t).Reads?
    ensures var items, rest := ReadItems(t).value, ReadItems(t).rest;
      items != [] && |PrintThen(items[0], ItemsThen(items[1..], rest))| <= |t|
    decreases |t|, 1
  {
    ValueIsShortest(t);
    var v, more := ReadValue(t).value, ReadValue(t).rest;
    var items, rest := ReadItems(t).value, ReadItems(t).rest;
    if more[0] == ',' {
      ItemsAreShortest(more[1..]);
      assert items[1..] == ReadItems(more[1..]).value;
    }
    PrintLength(v, more);
    PrintLength(v, ItemsThen(items[1..], rest));
  }

  lemma {:induction false} FieldIsShortest(t: string)
    requires ReadField(t).Reads?
    ensures |FieldThen(ReadField(t).value, ReadField(t).rest)| <= |t|
    decreases |t|, 1
  {
    StringIsShortest(t[1..]);
    var key, more := ReadString(t[1..]).value, ReadString(t[1..]).rest;
    ValueIsShortest(more[1..]);
    StringLength(key, more);
    StringLength(key, [':'] + PrintThen(ReadField(t).value.value, ReadField(t).rest));
  }

  lemma {:induction false} FieldsAreShortest(t: string)
    requires ReadFields(t).Reads?
    ensures var fields, rest := ReadFields(t).value, ReadFields(t).rest;
      fields != [] && |FieldThen(fields[0], FieldsThen(fields[1..], rest))| <= |t|
    decreases |t|, 2
  {
    FieldIsShortest(t);
    var f, more := ReadField(t).value, ReadField(t).rest;
    var fields, rest := ReadFields(t).value, ReadFields(t).rest;
    if more[0] == ',' {
      FieldsAreShortest(more[1..]);
      assert fields[1..] == ReadFields(more[1..]).value;
    }
    FieldLength(f, more);
    FieldLength(f, FieldsThen(fields[1..], rest));
  }

  lemma {:induction false} StringLength(s: string, rest: string)
    ensures |EscapeThen(s, rest)| == |EscapeThen(s, "")| + |rest|
    decreases |s|
  {
    if s != "" { StringLength(s[1..], rest); }
  }

  lemma {:induction false} PrintLength(v: Json, rest: string)
    ensures |PrintThen(v, rest)| == |PrintThen(v, "")| + |rest|
    decreases v, 2
  {
    match v
    case Str(s) => StringLength(s, rest);
    case Arr(items) =>
      if items != [] {
        ItemsLength(items[1..], rest);
        PrintLength(items[0], ItemsThen(items[1..], rest));
        PrintLength(items[0], ItemsThen(items[1..], ""));
      }
    case Obj(fields) =>
      if fields != [] {
        FieldsLength(fields[1..], rest);
        FieldLength(fields[0], FieldsThen(fields[1..], rest));
        FieldLength(fields[0], FieldsThen(fields[1..], ""));
      }
    case _ =>
  }

  lemma {:induction false} ItemsLength(items: seq<Json>, rest: string)
    ensures |ItemsThen(items, rest)| == |ItemsThen(items, "")| + |rest|
    decreases items, 0
  {
    if items != [] {
      ItemsLength(items[1..], rest);
      PrintLength(items[0], ItemsThen(items[1..], rest));
      PrintLength(items[0], ItemsThen(items[1..], ""));
    }
  }

  lemma {:induction false} FieldLength(f: Field, rest: string)
    ensures |FieldThen(f, rest)| == |FieldThen(f, "")| + |rest|
    decreases f, 3
  {
    PrintLength(f.value, rest);
    StringLength(f.key, [':'] + PrintThen(f.value, rest));
    StringLength(f.key, [':'] + PrintThen(f.value, ""));
  }

  lemma {:induction false} FieldsLength(fields: seq<Field>, rest: string)
    ensures |FieldsThen(fields, rest)| == |FieldsThen(fields, "")| + |rest|
    decreases fields, 0
  {
    if fields != [] {
      FieldsLength(fields[1..], rest);
      FieldLength(fields[0], FieldsThen(fields[1..], rest));
      FieldLength(fields[0], FieldsThen(fields[1..], ""));
    }
  }

  /** Nothing is escaped that need not be, and every escape is the shortest there is. */
  lemma PrintedIsShortest(t: string)
    requires Parse(t).Reads?
    ensures |Print(Parse(t).value)| <= |t|
  {
    ValueIsShortest(t);
  }

  /** Hexadecimal digits are printed in lower case. */
  lemma EscapesAreLowerCase(c: char, x: char)
    requires |Escape(c)| == 6 && x in Escape(c)
    ensures !('A' <= x <= 'F')
  {
    var i :| 0 <= i < 6 && Escape(c)[i] == x;
    HexReads(c as int / 16);
    HexReads(c as int % 16);
  }
}
