/** String helpers with the meaning JavaScript gives them. Strings are `seq<char>`. */
module Text {

  import Wrappers

  /** `hay.includes(needle)`: `needle` occurs as a contiguous run of `hay`. */
  predicate Contains(hay: string, needle: string) {
    exists i :: 0 <= i <= |hay| - |needle| && OccursAt(hay, needle, i)
  }

  /** `needle` starts at position `i` of `hay`. */
  predicate OccursAt(hay: string, needle: string, i: int) {
    0 <= i <= |hay| - |needle| && hay[i..i + |needle|] == needle
  }

  lemma ContainsSelf(s: string)
    ensures Contains(s, s)
  {
    assert OccursAt(s, s, 0);
  }

  /** A needle found in a suffix of the haystack is found in the haystack. */
  lemma ContainsInSuffix(hay: string, j: nat, needle: string)
    requires j <= |hay| && Contains(hay[j..], needle)
    ensures Contains(hay, needle)
  {
    var i :| 0 <= i <= |hay[j..]| - |needle| && OccursAt(hay[j..], needle, i);
    assert hay[j + i..j + i + |needle|] == hay[j..][i..i + |needle|];
    assert OccursAt(hay, needle, j + i);
  }

  /** A needle found in a prefix of the haystack is found in the haystack. */
  lemma ContainsInPrefix(hay: string, j: nat, needle: string)
    requires j <= |hay| && Contains(hay[..j], needle)
    ensures Contains(hay, needle)
  {
    var i :| 0 <= i <= |hay[..j]| - |needle| && OccursAt(hay[..j], needle, i);
    assert hay[i..i + |needle|] == hay[..j][i..i + |needle|];
    assert OccursAt(hay, needle, i);
  }

  /** `hay.includes(needle)` holds of `left + needle + right`. */
  lemma ContainsMiddle(left: string, needle: string, right: string)
    ensures Contains(left + needle + right, needle)
  {
    var s := left + needle + right;
    assert s[|left|..|left| + |needle|] == needle;
    assert OccursAt(s, needle, |left|);
  }

  /** `toLowerCase` restricted to ASCII; other characters are left as they are. */
  function LowerChar(c: char): (r: char)
    ensures 'A' <= c <= 'Z' ==> r as int == c as int + 32
    ensures !('A' <= c <= 'Z') ==> r == c
  {
    if 'A' <= c <= 'Z' then (c as int + 32) as char else c
  }

  function Lower(s: string): (r: string)
    ensures |r| == |s|
    ensures forall i :: 0 <= i < |s| ==> r[i] == LowerChar(s[i])
  {
    seq(|s|, i requires 0 <= i < |s| => LowerChar(s[i]))
  }

  /** The characters `String.prototype.trim` removes: white space and line terminators. */
  predicate IsJsWhitespace(c: char) {
    var n := c as int;
    n == 0x09 || n == 0x0A || n == 0x0B || n == 0x0C || n == 0x0D || n == 0x20
    || n == 0xA0 || n == 0x1680 || (0x2000 <= n <= 0x200A) || n == 0x2028 || n == 0x2029
    || n == 0x202F || n == 0x205F || n == 0x3000 || n == 0xFEFF
  }

  function TrimStart(s: string): (r: string)
    ensures |r| <= |s| && r == s[|s| - |r|..]
    ensures r == [] || !IsJsWhitespace(r[0])
    ensures forall i :: 0 <= i < |s| - |r| ==> IsJsWhitespace(s[i])
  {
    if s != [] && IsJsWhitespace(s[0]) then TrimStart(s[1..]) else s
  }

  function TrimEnd(s: string): (r: string)
    ensures |r| <= |s| && r == s[..|r|]
    ensures r == [] || !IsJsWhitespace(r[|r| - 1])
    ensures forall i :: |r| <= i < |s| ==> IsJsWhitespace(s[i])
  {
    if s != [] && IsJsWhitespace(s[|s| - 1]) then TrimEnd(s[..|s| - 1]) else s
  }

  /** `s.trim()`. */
  function Trim(s: string): string {
    TrimEnd(TrimStart(s))
  }

  /** `!s.trim()`: the trimmed text is empty exactly when every character is white space. */
  lemma {:induction false} TrimEmptyIffBlank(s: string)
    ensures Trim(s) == [] <==> forall i :: 0 <= i < |s| ==> IsJsWhitespace(s[i])
  {
    TrimEndOfTrimmedStart(TrimStart(s));
  }

  /** A text that starts with a character other than white space keeps it when its end is trimmed. */
  lemma {:induction false} TrimEndOfTrimmedStart(t: string)
    requires t == [] || !IsJsWhitespace(t[0])
    ensures TrimEnd(t) == [] <==> t == []
  {
    if t != [] {
      assert !IsJsWhitespace(t[0]);
    }
  }

  /** Decimal digits of a natural number, as `n.toString()` prints them. */
  function DigitChar(d: nat): char
    requires d < 10
  {
    "0123456789"[d]
  }

  function NatToString(n: nat): (r: string)
    ensures |r| >= 1
    ensures n < 10 ==> |r| == 1
    ensures 10 <= n < 100 ==> |r| == 2
    decreases n
  {
    if n < 10 then [DigitChar(n)] else NatToString(n / 10) + [DigitChar(n % 10)]
  }

  /** `s.padStart(2, '0')`. */
  function PadStart2(s: string): (r: string)
    ensures |s| >= 2 ==> r == s
    ensures |s| < 2 ==> |r| == 2 && r[2 - |s|..] == s
  {
    if |s| >= 2 then s else if |s| == 1 then "0" + s else "00"
  }

  /** Value of a string of decimal digits (the inverse of printing). */
  function DigitValue(c: char): nat
    requires '0' <= c <= '9'
  {
    c as int - '0' as int
  }

  predicate AllDigits(s: string) {
    forall i :: 0 <= i < |s| ==> '0' <= s[i] <= '9'
  }

  function DecimalValue(s: string): nat
    requires AllDigits(s)
    decreases |s|
  {
    if s == [] then 0 else 10 * DecimalValue(s[..|s| - 1]) + DigitValue(s[|s| - 1])
  }

  /** Printing a number gives decimal digits that read back as the same number. */
  lemma {:induction false} NatToStringRoundTrip(n: nat)
    ensures AllDigits(NatToString(n))
    ensures DecimalValue(NatToString(n)) == n
    decreases n
  {
    var r := NatToString(n);
    if n >= 10 {
      NatToStringRoundTrip(n / 10);
      assert r[..|r| - 1] == NatToString(n / 10);
    }
  }

  /** The run of decimal digits at the start of `s`. */
  function LeadingDigits(s: string): (r: string)
    ensures |r| <= |s| && r == s[..|r|]
    ensures AllDigits(r)
    ensures |r| < |s| ==> !('0' <= s[|r|] <= '9')
  {
    if s != [] && '0' <= s[0] <= '9' then [s[0]] + LeadingDigits(s[1..]) else []
  }

  /** `parseInt(s)` for unsigned decimals: leading white space is skipped, then the leading digits
      are read; `None` stands for NaN, which equals no number. */
  function ParseInt(s: string): (r: Wrappers.Option<int>)
    ensures r.Some? ==> r.value >= 0
  {
    var digits := LeadingDigits(TrimStart(s));
    if digits == [] then Wrappers.None else Wrappers.Some(DecimalValue(digits))
  }
}
