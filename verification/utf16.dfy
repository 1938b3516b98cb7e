/**
  JavaScript strings are sequences of UTF-16 code units: `length` counts units
  and `substring` cuts between units, so a character outside the Basic
  Multilingual Plane (an emoji such as U+1F3B6) counts twice. Dafny's `char` is
  a Unicode scalar value; this module converts between the two views.
 */
module Utf16 {
  import opened Wrappers

  newtype CodeUnit = x: int | 0 <= x < 0x1_0000

  const HighSurrogateBase := 0xD800
  const LowSurrogateBase := 0xDC00

  /** True for a character that needs a surrogate pair. */
  predicate IsAstral(c: char) {
    c as int >= 0x1_0000
  }

  /** Number of characters of `s` that need a surrogate pair. */
  function AstralCount(s: string): nat {
    if |s| == 0 then 0 else (if IsAstral(s[0]) then 1 else 0) + AstralCount(s[1..])
  }

  function EncodeChar(c: char): (r: seq<CodeUnit>)
    ensures |r| == if IsAstral(c) then 2 else 1
    ensures !IsAstral(c) ==> r[0] as int == c as int
    ensures IsAstral(c) ==> IsHigh(r[0]) && IsLow(r[1])
  {
    if !IsAstral(c) then [c as int as CodeUnit]
    else
      var v := c as int - 0x1_0000;
      [(HighSurrogateBase + v / 0x400) as CodeUnit, (LowSurrogateBase + v % 0x400) as CodeUnit]
  }

  predicate IsHigh(u: CodeUnit) {
    HighSurrogateBase <= u as int < LowSurrogateBase
  }

  predicate IsLow(u: CodeUnit) {
    LowSurrogateBase <= u as int < 0xE000
  }

  /** The code units a JavaScript engine stores for `s`. */
  function Encode(s: string): (r: seq<CodeUnit>)
    ensures |r| == |s| + AstralCount(s)
  {
    if |s| == 0 then [] else EncodeChar(s[0]) + Encode(s[1..])
  }

  /** Reads code units back as characters; a lone surrogate is not a character. */
  function Decode(u: seq<CodeUnit>): (r: Option<string>)
    decreases |u|
  {
    if |u| == 0 then Some([])
    else if IsHigh(u[0]) then
      if |u| >= 2 && IsLow(u[1]) then
        var c := 0x1_0000 + (u[0] as int - HighSurrogateBase) * 0x400 + (u[1] as int - LowSurrogateBase);
        match Decode(u[2..])
        case Some(rest) => Some([c as char] + rest)
        case None => None
      else None
    else if IsLow(u[0]) then None
    else
      match Decode(u[1..])
      case Some(rest) => Some([u[0] as int as char] + rest)
      case None => None
  }

  /** Encoding loses nothing: every Dafny string comes back from its code units. */
  lemma {:induction false} DecodeEncode(s: string)
    ensures Decode(Encode(s)) == Some(s)
  {
    if |s| > 0 {
      DecodeEncode(s[1..]);
      var e := EncodeChar(s[0]);
      assert Encode(s) == e + Encode(s[1..]);
      if IsAstral(s[0]) {
        var v := s[0] as int - 0x1_0000;
        assert v == v / 0x400 * 0x400 + v % 0x400;
        assert (e + Encode(s[1..]))[2..] == Encode(s[1..]);
      } else {
        assert !IsHigh(e[0]) && !IsLow(e[0]);
        assert e[0] as int as char == s[0];
        assert (e + Encode(s[1..]))[1..] == Encode(s[1..]);
      }
      assert [s[0]] + s[1..] == s;
    }
  }
}
