/** Small shared vocabulary: optional values, clamping, and the whitespace test behind `trim()`. */
module Base {
  datatype Option<+T> = None | Some(value: T)

  function Min(x: int, y: int): int {
    if x < y then x else y
  }

  function Max(x: int, y: int): int {
    if x < y then y else x
  }

  /** `Math.min(Math.max(x, low), high)`. */
  function Clamp(x: int, low: int, high: int): int {
    Min(Max(x, low), high)
  }

  /** The characters that JavaScript's `trim` removes (white space and line terminators). */
  predicate IsSpace(c: char) {
    var u := c as int;
    || 9 <= u <= 13 || u == 0x20 || u == 0xA0 || u == 0x1680
    || 0x2000 <= u <= 0x200A || u == 0x2028 || u == 0x2029
    || u == 0x202F || u == 0x205F || u == 0x3000 || u == 0xFEFF
  }

  /** All of them: white space and line terminators of ECMA-262, sections 12.2 and 12.3. */
  lemma SpacesAre(c: char)
    ensures IsSpace(c) <==> c in {
      '\U{0009}', '\U{000A}', '\U{000B}', '\U{000C}', '\U{000D}', '\U{0020}', '\U{00A0}', '\U{1680}',
      '\U{2000}', '\U{2001}', '\U{2002}', '\U{2003}', '\U{2004}', '\U{2005}', '\U{2006}', '\U{2007}',
      '\U{2008}', '\U{2009}', '\U{200A}', '\U{2028}', '\U{2029}', '\U{202F}', '\U{205F}', '\U{3000}', '\U{FEFF}'}
  {
  }

  /** `s.trim()`. */
  function Trim(s: string): string
    decreases |s|
  {
    if s == "" then s
    else if IsSpace(s[0]) then Trim(s[1..])
    else if IsSpace(s[|s| - 1]) then Trim(s[..|s| - 1])
    else s
  }

  /** `!s.trim()` is a test for blanks. */
  lemma {:induction false} TrimsToNothing(s: string)
    ensures Trim(s) == "" <==> Blank(s)
    decreases |s|
  {
    if s != "" {
      if IsSpace(s[0]) {
        TrimsToNothing(s[1..]);
        assert s == [s[0]] + s[1..];
      } else if IsSpace(s[|s| - 1]) {
        TrimsToNothing(s[..|s| - 1]);
      }
    }
  }

  /** `!s.trim()`: nothing is left of `s` once its outer white space is removed. */
  predicate Blank(s: string) {
    forall i | 0 <= i < |s| :: IsSpace(s[i])
  }
}
