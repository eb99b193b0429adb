/**
 * String helpers shared by the server and the widget models: prefix and
 * substring tests, lowercasing, the last occurrence of a character and the
 * decimal rendering of a natural number.
 */
module Text {
  import opened Wrappers

  /** `s.startsWith(prefix)` in JavaScript, `s.startswith(prefix)` in Python. */
  predicate StartsWith(s: string, prefix: string) {
    |prefix| <= |s| && s[..|prefix|] == prefix
  }

  /** `s.indexOf(part) !== -1`: `part` occurs somewhere in `s`. */
  predicate Contains(s: string, part: string)
    decreases |s|
  {
    StartsWith(s, part) || (|s| > 0 && Contains(s[1..], part))
  }

  /** Lowercasing of one character; only ASCII letters change. */
  function LowerChar(c: char): char {
    if 'A' <= c <= 'Z' then (c as int + 32) as char else c
  }

  /** `s.lower()`, restricted to ASCII letters. */
  function Lower(s: string): string {
    seq(|s|, i requires 0 <= i < |s| => LowerChar(s[i]))
  }

  predicate IsLowerCase(s: string) {
    forall i :: 0 <= i < |s| ==> !('A' <= s[i] <= 'Z')
  }

  lemma LowerIsLowerCase(s: string)
    ensures IsLowerCase(Lower(s))
    ensures |Lower(s)| == |s|
  {
  }

  lemma LowerOfLowerCase(s: string)
    requires IsLowerCase(s)
    ensures Lower(s) == s
  {
  }

  /** Lowercasing keeps every character that is not an ASCII capital, so it keeps every '.'. */
  lemma LowerKeepsDots(s: string)
    ensures |Lower(s)| == |s|
    ensures forall i :: 0 <= i < |s| ==> (Lower(s)[i] == '.' <==> s[i] == '.')
  {
  }

  lemma LowerOfSlice(s: string, from: nat)
    requires from <= |s|
    ensures Lower(s[from..]) == Lower(s)[from..]
  {
  }

  /** Index of the last `c` in `s`, as `rsplit(c, 1)` locates it. */
  function LastIndexOf(s: string, c: char): (r: Option<nat>)
    ensures r.None? <==> c !in s
    ensures r.Some? ==> r.value < |s| && s[r.value] == c
    ensures r.Some? ==> forall j :: r.value < j < |s| ==> s[j] != c
  {
    if |s| == 0 then None
    else if s[|s| - 1] == c then Some(|s| - 1)
    else
      var r := LastIndexOf(s[..|s| - 1], c);
      assert c in s <==> c in s[..|s| - 1] by {
        assert s == s[..|s| - 1] + [s[|s| - 1]];
      }
      r
  }

  /** Two strings with '.' at the same positions have their last '.' at the same index. */
  lemma LastIndexOfSameDots(s: string, t: string)
    requires |s| == |t|
    requires forall i :: 0 <= i < |s| ==> (s[i] == '.' <==> t[i] == '.')
    ensures LastIndexOf(s, '.') == LastIndexOf(t, '.')
  {
  }

  /** The text after the last `c`: `s.rsplit(c, 1)[1]`. */
  function AfterLast(s: string, c: char): (r: string)
    requires c in s
    ensures |r| < |s| && s[|s| - |r| - 1] == c && s[|s| - |r|..] == r
    ensures c !in r
  {
    var i := LastIndexOf(s, c).value;
    s[i + 1..]
  }

  /** Joining with a separator that the tail never contains: the tail is what follows the last separator. */
  lemma AfterLastOfJoin(head: string, c: char, tail: string)
    requires c !in tail
    ensures c in head + [c] + tail
    ensures AfterLast(head + [c] + tail, c) == tail
  {
    var s := head + [c] + tail;
    assert s[|head|] == c;
    assert s[|head| + 1..] == tail;
  }

  predicate IsDigit(c: char) {
    '0' <= c <= '9'
  }

  predicate AllDigits(s: string) {
    forall i :: 0 <= i < |s| ==> IsDigit(s[i])
  }

  function DigitChar(d: nat): (c: char)
    requires d < 10
    ensures IsDigit(c)
  {
    ('0' as int + d) as char
  }

  /** Decimal rendering of a natural number, as JavaScript's template literals write it. */
  function DecimalString(n: nat): (r: string)
    ensures 1 <= |r| && AllDigits(r)
    ensures |r| > 1 ==> r[0] != '0'
    decreases n
  {
    if n < 10 then [DigitChar(n)] else DecimalString(n / 10) + [DigitChar(n % 10)]
  }

  /** The number a string of decimal digits denotes. */
  function DecimalValue(s: string): nat
    requires AllDigits(s)
  {
    if |s| == 0 then 0 else DecimalValue(s[..|s| - 1]) * 10 + (s[|s| - 1] as int - '0' as int)
  }

  /** The decimal rendering can be read back. */
  lemma {:induction false} DecimalRoundTrip(n: nat)
    ensures DecimalValue(DecimalString(n)) == n
    decreases n
  {
    if n >= 10 {
      DecimalRoundTrip(n / 10);
      var s := DecimalString(n / 10);
      assert (s + [DigitChar(n % 10)])[..|s|] == s;
    }
  }
}
