/**
 JavaScript strings are sequences of UTF-16 code units, which is what `charCodeAt`, `charAt` and
 indexing see. A Dafny `char` is a whole character, so code that works unit by unit is modelled on
 `Units`, and `Encode` says which units a text has.
 */
module Utf16 {
  type CodeUnit = u: nat | u < 0x10000

  type Units = seq<CodeUnit>

  /** The character fits one code unit. */
  predicate IsBmp(ch: char) {
    ch as int < 0x10000
  }

  /** One unit, or a high and a low surrogate (section 3.9 of the Unicode Standard). */
  function UnitsOf(ch: char): (r: Units)
    ensures |r| == if IsBmp(ch) then 1 else 2
    ensures IsBmp(ch) ==> r == [ch as int] && !(0xD800 <= r[0] < 0xE000)
    ensures !IsBmp(ch) ==> 0xD800 <= r[0] < 0xDC00 && 0xDC00 <= r[1] < 0xE000
  {
    var code := ch as int;
    if code < 0x10000 then [code]
    else [0xD800 + (code - 0x10000) / 0x400, 0xDC00 + (code - 0x10000) % 0x400]
  }

  /** Which characters have the outermost surrogates as a half. */
  lemma OuterHalves(ch: char)
    requires !IsBmp(ch)
    ensures UnitsOf(ch)[0] == 0xD800 <==> ch as int < 0x10400
    ensures UnitsOf(ch)[0] == 0xDBFF <==> ch as int >= 0x10FC00
    ensures UnitsOf(ch)[1] == 0xDC00 <==> ch as int % 0x400 == 0
    ensures UnitsOf(ch)[1] == 0xDFFF <==> ch as int % 0x400 == 0x3FF
  {
  }

  function Encode(s: string): Units {
    if s == [] then [] else UnitsOf(s[0]) + Encode(s[1..])
  }
}
