/** Text helpers used by the configuration pipeline: ASCII lower-casing (strings.ToLower and
    viper's key normalisation), strings.Join, strconv.Itoa and substring containment. */
module Strings {

  predicate IsUpperAscii(c: char) {
    'A' <= c <= 'Z'
  }

  function LowerChar(c: char): (d: char)
    ensures !IsUpperAscii(d)
    ensures !IsUpperAscii(c) ==> d == c
    ensures IsUpperAscii(c) ==> d as int == c as int + 32
  {
    if IsUpperAscii(c) then (c as int + 32) as char else c
  }

  /** A text with no upper-case ASCII letter. */
  predicate IsLower(s: string) {
    forall i :: 0 <= i < |s| ==> !IsUpperAscii(s[i])
  }

  /** strings.ToLower restricted to ASCII: each letter is mapped to its lower-case form,
      everything else is kept; lower-casing is idempotent. */
  function Lower(s: string): (r: string)
    ensures |r| == |s|
    ensures forall i :: 0 <= i < |s| ==> r[i] == LowerChar(s[i])
    ensures IsLower(r)
    ensures IsLower(s) ==> r == s
  {
    seq(|s|, i requires 0 <= i < |s| => LowerChar(s[i]))
  }

  /** strings.Join: the parts separated by `sep`. */
  function Join(parts: seq<string>, sep: string): string
  {
    if |parts| == 0 then ""
    else if |parts| == 1 then parts[0]
    else parts[0] + sep + Join(parts[1..], sep)
  }

  function DigitChar(d: nat): char
    requires d < 10
  {
    "0123456789"[d]
  }

  function Digits(n: nat): (r: string)
    decreases n
  {
    if n < 10 then [DigitChar(n)] else Digits(n / 10) + [DigitChar(n % 10)]
  }

  /** strconv.Itoa: the decimal text of an integer, with a leading '-' when negative. */
  function Decimal(i: int): string
  {
    if i < 0 then "-" + Digits(-i) else Digits(i)
  }

  /** `part` occurs in `text` starting at index `i`. */
  predicate ContainsAt(text: string, part: string, i: int) {
    0 <= i && i + |part| <= |text| && text[i..i + |part|] == part
  }

  /** strings.Contains. */
  ghost predicate Contains(text: string, part: string) {
    exists i :: ContainsAt(text, part, i)
  }

  lemma ContainsInMiddle(a: string, part: string, b: string)
    ensures Contains(a + part + b, part)
  {
    assert (a + part + b)[|a|..|a| + |part|] == part;
    assert ContainsAt(a + part + b, part, |a|);
  }

  lemma ContainsAfterPrefix(a: string, text: string, part: string)
    requires Contains(text, part)
    ensures Contains(a + text, part)
  {
    var i :| ContainsAt(text, part, i);
    assert (a + text)[|a| + i..|a| + i + |part|] == text[i..i + |part|];
    assert ContainsAt(a + text, part, |a| + i);
  }
}
