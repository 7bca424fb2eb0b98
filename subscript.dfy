/**
 * `write_subscript` (lib.rs:510-527): decimal digits become the Unicode
 * subscript digits U+2080..U+2089, appended to a caller's buffer; any other
 * character is appended unchanged.
 */
module Subscripts {
  import opened Decimal

  const SubscriptZero: int := 0x2080

  predicate IsSubscriptDigit(c: char)
  {
    '\U{2080}' <= c <= '\U{2089}'
  }

  /** The glyph one character of the input becomes. */
  function SubscriptChar(c: char): char
  {
    if IsDigit(c) then (SubscriptZero + DigitValue(c)) as char else c
  }

  /** The digit a subscript glyph stands for; the inverse of `SubscriptChar`. */
  function UnsubscriptChar(c: char): char
  {
    if IsSubscriptDigit(c) then ('0' as int + (c as int - SubscriptZero)) as char else c
  }

  /** Digits land on subscript glyphs, one to one and in order, and nothing else does. */
  lemma SubscriptCharMeaning(c: char)
    ensures IsDigit(c) ==>
              IsSubscriptDigit(SubscriptChar(c)) && SubscriptChar(c) as int - SubscriptZero == DigitValue(c)
    ensures !IsDigit(c) ==> SubscriptChar(c) == c
    ensures !IsSubscriptDigit(c) ==> UnsubscriptChar(SubscriptChar(c)) == c
  {
  }

  /** The whole of `s`, glyph by glyph. */
  function Subscript(s: string): (r: string)
    ensures |r| == |s|
  {
    seq(|s|, i requires 0 <= i < |s| => SubscriptChar(s[i]))
  }

  /** `write_subscript(buffer, s)`: the buffer with `s` in subscript glyphs after it. */
  method WriteSubscript(buffer: string, s: string) returns (out: string)
    ensures |out| == |buffer| + |s| && out[..|buffer|] == buffer
    ensures out == buffer + Subscript(s)
  {
    out := buffer;
    var i := 0;
    while i < |s|
      invariant 0 <= i <= |s|
      invariant |out| == |buffer| + i && out[..|buffer|] == buffer
      invariant forall j :: 0 <= j < i ==> out[|buffer| + j] == SubscriptChar(s[j])
    {
      out := out + [SubscriptChar(s[i])];
      i := i + 1;
    }
  }

  /** The digits a string of subscript glyphs spells. */
  function Unsubscript(t: string): (r: string)
    ensures |r| == |t|
  {
    seq(|t|, i requires 0 <= i < |t| => UnsubscriptChar(t[i]))
  }

  /**
   * The subscript of a number is made of subscript glyphs only, one per
   * decimal digit, and reads back as that number.
   */
  lemma SubscriptOfNumber(n: nat)
    ensures var t := Subscript(NatToString(n));
      |t| == |NatToString(n)|
      && (forall i :: 0 <= i < |t| ==> IsSubscriptDigit(t[i]))
      && IsDigits(Unsubscript(t)) && Value(Unsubscript(t)) == n
  {
    var s := NatToString(n);
    var t := Subscript(s);
    forall i | 0 <= i < |s|
      ensures IsSubscriptDigit(t[i]) && Unsubscript(t)[i] == s[i]
    {
      SubscriptCharMeaning(s[i]);
    }
    assert Unsubscript(t) == s;
    ValueOfNatToString(n);
  }
}
