/*
 * The Python string operations the text utilities rely on, on strings as
 * sequences of code points: substring search, `str.isspace`, `str.strip`,
 * decimal rendering of a natural number, and `sep.join`.
 */
module Text {

  /** `sub` occurs in `text` at position `k`. */
  predicate At(text: string, k: int, sub: string)
  {
    0 <= k && k + |sub| <= |text| && text[k .. k + |sub|] == sub
  }

  lemma AtPrefix(text: string, k: int, sub: string, m: nat)
    requires At(text, k, sub) && m <= |sub|
    ensures At(text, k, sub[..m])
  {
    assert text[k .. k + m] == text[k .. k + |sub|][..m];
  }

  /**
   * `text.rfind(sub, lo, hi)`: the last position at which `sub` occurs
   * entirely inside `text[lo:hi]`, or -1.
   */
  function RFind(text: string, sub: string, lo: int, hi: int): (r: int)
    requires 0 <= lo && hi <= |text|
    ensures r == -1 || (lo <= r && r + |sub| <= hi && At(text, r, sub))
    decreases hi - lo
  {
    if hi - lo < |sub| then -1
    else if text[hi - |sub| .. hi] == sub then hi - |sub|
    else RFind(text, sub, lo, hi - 1)
  }

  /** No occurrence of `sub` inside `text[lo:hi]` lies after the one `rfind` returns. */
  lemma {:induction false} RFindLast(text: string, sub: string, lo: int, hi: int)
    requires 0 <= lo && hi <= |text|
    ensures var r := RFind(text, sub, lo, hi);
      forall k :: r < k && lo <= k && k + |sub| <= hi ==> !At(text, k, sub)
    decreases hi - lo
  {
    if hi - lo >= |sub| && text[hi - |sub| .. hi] != sub {
      RFindLast(text, sub, lo, hi - 1);
    }
  }

  /** `text.find(sub, lo)`: the first position at or after `lo` at which `sub` occurs, or -1. */
  function Find(text: string, sub: string, lo: nat): (r: int)
    ensures r == -1 || (lo <= r && At(text, r, sub))
    ensures forall k :: lo <= k && (r == -1 || k < r) ==> !At(text, k, sub)
    decreases |text| - lo
  {
    if lo + |sub| > |text| then -1
    else if text[lo .. lo + |sub|] == sub then lo
    else Find(text, sub, lo + 1)
  }

  /** `str.isspace` on one code point: the Unicode whitespace characters Python recognises. */
  predicate IsSpace(c: char)
  {
    c == ' ' || ('\t' <= c <= '\r') || ('\U{1c}' <= c <= '\U{1f}') || c == '\U{85}' || c == '\U{a0}' ||
    c == '\U{1680}' || ('\U{2000}' <= c <= '\U{200a}') || c == '\U{2028}' || c == '\U{2029}' ||
    c == '\U{202f}' || c == '\U{205f}' || c == '\U{3000}'
  }

  predicate IsDigit(c: char)
  {
    '0' <= c <= '9'
  }

  /** The length of the run of ASCII digits starting at `i`. */
  function DigitRun(text: string, i: nat): (d: nat)
    requires i <= |text|
    ensures i + d <= |text|
    ensures forall k :: i <= k < i + d ==> IsDigit(text[k])
    ensures i + d < |text| ==> !IsDigit(text[i + d])
    decreases |text| - i
  {
    if i < |text| && IsDigit(text[i]) then 1 + DigitRun(text, i + 1) else 0
  }

  /** The number of leading whitespace characters. */
  function LeadingSpace(s: string): (n: nat)
    ensures n <= |s|
    ensures forall k :: 0 <= k < n ==> IsSpace(s[k])
    ensures n < |s| ==> !IsSpace(s[n])
  {
    if s == [] || !IsSpace(s[0]) then 0 else 1 + LeadingSpace(s[1..])
  }

  /** The number of trailing whitespace characters. */
  function TrailingSpace(s: string): (n: nat)
    ensures n <= |s|
    ensures forall k :: |s| - n <= k < |s| ==> IsSpace(s[k])
    ensures n < |s| ==> !IsSpace(s[|s| - n - 1])
  {
    if s == [] || !IsSpace(s[|s| - 1]) then 0 else 1 + TrailingSpace(s[..|s| - 1])
  }

  /** `str.strip()`: the string without its leading and trailing whitespace. */
  function Strip(s: string): (r: string)
    ensures |r| <= |s|
    ensures r != [] ==> !IsSpace(r[0]) && !IsSpace(r[|r| - 1])
    ensures (forall k :: 0 <= k < |s| ==> !IsSpace(s[k])) ==> r == s
  {
    var a := LeadingSpace(s);
    var rest := s[a..];
    var b := TrailingSpace(rest);
    if b < |rest| then assert rest[0] == s[a]; rest[..|rest| - b] else []
  }

  // ----- decimal rendering -----

  function DigitChar(d: int): char
    requires 0 <= d < 10
  {
    ['0', '1', '2', '3', '4', '5', '6', '7', '8', '9'][d]
  }

  /** `str(n)` for a natural number. */
  function NatStr(n: nat): (s: string)
    ensures |s| >= 1 && (n >= 10 <==> |s| >= 2)
    ensures forall k :: 0 <= k < |s| ==> IsDigit(s[k])
  {
    if n < 10 then [DigitChar(n)] else NatStr(n / 10) + [DigitChar(n % 10)]
  }

  /** Distinct numbers have distinct decimal renderings. */
  lemma {:induction false} NatStrInjective(a: nat, b: nat)
    requires NatStr(a) == NatStr(b)
    ensures a == b
    decreases a
  {
    if a >= 10 && b >= 10 {
      var sa, sb := NatStr(a), NatStr(b);
      assert sa[..|sa| - 1] == NatStr(a / 10);
      assert sb[..|sb| - 1] == NatStr(b / 10);
      NatStrInjective(a / 10, b / 10);
      assert DigitChar(a % 10) == sa[|sa| - 1] == sb[|sb| - 1] == DigitChar(b % 10);
    }
  }

  /** `str(n)` for an integer. */
  function IntStr(n: int): string
  {
    if n >= 0 then NatStr(n) else "-" + NatStr(-n)
  }

  /** Distinct integers have distinct renderings. */
  lemma IntStrInjective(p: int, q: int)
    requires p != q
    ensures IntStr(p) != IntStr(q)
  {
    if p >= 0 && q >= 0 {
      if NatStr(p) == NatStr(q) {
        NatStrInjective(p, q);
      }
    } else if p < 0 && q < 0 {
      NegativeStrInjective(p, q);
    } else if p < 0 {
      SignsDiffer(p, q);
    } else {
      SignsDiffer(q, p);
    }
  }

  lemma NegativeStrInjective(p: int, q: int)
    requires p < 0 && q < 0 && p != q
    ensures IntStr(p) != IntStr(q)
  {
    var a, b := NatStr(-p), NatStr(-q);
    if a == b {
      NatStrInjective(-p, -q);
    }
    PrefixKeepsDistinct("-", a, b);
    assert IntStr(p) == "-" + a && IntStr(q) == "-" + b;
  }

  lemma SignsDiffer(p: int, q: int)
    requires p < 0 <= q
    ensures IntStr(p) != IntStr(q)
  {
    assert IntStr(p)[0] == '-';
    assert IsDigit(IntStr(q)[0]);
  }

  /** Strings sharing a prefix are equal exactly when what follows it is. */
  lemma PrefixCancels(p: string, x: string, y: string)
    requires p + x == p + y
    ensures x == y
  {
    assert x == (p + x)[|p|..];
    assert y == (p + y)[|p|..];
  }

  lemma PrefixKeepsDistinct(p: string, x: string, y: string)
    requires x != y
    ensures p + x != p + y
  {
    if p + x == p + y {
      PrefixCancels(p, x, y);
    }
  }

  // ----- pairs -----

  /** The second components of a sequence of pairs, in order (a dict's `values()`, say). */
  function Seconds<A, B>(s: seq<(A, B)>): (r: seq<B>)
    ensures |r| == |s| && forall k :: 0 <= k < |s| ==> r[k] == s[k].1
  {
    seq(|s|, k requires 0 <= k < |s| => s[k].1)
  }

  // ----- joining -----

  /** `sep.join(parts)`. */
  function Join(sep: string, parts: seq<string>): string
  {
    if parts == [] then ""
    else if |parts| == 1 then parts[0]
    else Join(sep, parts[..|parts| - 1]) + sep + parts[|parts| - 1]
  }

  /** The concatenation of all the parts, `"".join(parts)`. */
  function Concat(parts: seq<string>): (r: string)
    ensures parts == [] ==> r == ""
  {
    if parts == [] then "" else Concat(parts[..|parts| - 1]) + parts[|parts| - 1]
  }

  lemma {:induction false} ConcatAppend(a: seq<string>, b: seq<string>)
    ensures Concat(a + b) == Concat(a) + Concat(b)
    decreases |b|
  {
    if b != [] {
      var m := |b| - 1;
      assert (a + b)[..|a + b| - 1] == a + b[..m];
      ConcatAppend(a, b[..m]);
    } else {
      assert a + b == a;
    }
  }
}
