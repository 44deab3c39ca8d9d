/** Java strings as the controller sees them: `String.length()` and
    `String.substring` count UTF-16 code units, so a string is a sequence
    of 16-bit code units. Java string literals are written here as Dafny
    strings and converted with `Lit`, which agrees with the UTF-16 encoding
    `Utf16` for the Basic Multilingual Plane characters they are made of. */
module JavaString {

  /** One UTF-16 code unit. */
  type CodeUnit = x: int | 0 <= x < 0x1_0000

  /** A `java.lang.String`: its code units, so `|s|` is `s.length()`. */
  type JString = seq<CodeUnit>

  /** True when `c` is encoded as a single code unit (Basic Multilingual Plane). */
  predicate IsBmp(c: char) {
    c as int < 0x1_0000
  }

  /** The UTF-16 encoding of one Unicode scalar value: one code unit in the
      Basic Multilingual Plane, otherwise a high and a low surrogate. */
  function EncodeChar(c: char): (r: JString)
    ensures IsBmp(c) ==> r == [c as int]
    ensures !IsBmp(c) ==> |r| == 2 && 0xD800 <= r[0] < 0xDC00 && 0xDC00 <= r[1] < 0xE000
  {
    if IsBmp(c) then [c as int]
    else
      var v := c as int - 0x1_0000;
      [0xD800 + v / 0x400, 0xDC00 + v % 0x400]
  }

  /** The UTF-16 encoding of a string of Unicode scalar values. */
  function Utf16(s: string): (r: JString)
    decreases |s|
  {
    if s == [] then [] else EncodeChar(s[0]) + Utf16(s[1..])
  }

  /** Every character of `s` is a single code unit. */
  predicate AllBmp(s: string) {
    forall i :: 0 <= i < |s| ==> IsBmp(s[i])
  }

  /** A string literal made of Basic Multilingual Plane characters, as code units. */
  function Lit(s: string): (r: JString)
    requires AllBmp(s)
  {
    seq(|s|, i requires 0 <= i < |s| => s[i] as int)
  }

  /** For the literals of the controller, `Lit` is their UTF-16 encoding. */
  lemma {:induction false} LitIsUtf16(s: string)
    requires AllBmp(s)
    ensures Lit(s) == Utf16(s)
  {
    if s != [] {
      LitIsUtf16(s[1..]);
      assert Lit(s) == EncodeChar(s[0]) + Lit(s[1..]);
    }
  }
}
