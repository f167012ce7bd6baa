/** String helpers that the pages use: ASCII case folding, substring search,
    whitespace trimming and digit extraction. */
module Text {

  /** `String.prototype.toLowerCase`, on ASCII letters only. */
  function LowerChar(c: char): (d: char)
    ensures 'A' <= c <= 'Z' ==> d as int == c as int + 32
    ensures !('A' <= c <= 'Z') ==> d == c
  {
    if 'A' <= c <= 'Z' then (c as int + 32) as char else c
  }

  function Lower(s: string): (r: string)
    ensures |r| == |s|
    ensures forall i :: 0 <= i < |s| ==> r[i] == LowerChar(s[i])
  {
    seq(|s|, i requires 0 <= i < |s| => LowerChar(s[i]))
  }

  /** `hay.includes(needle)`. */
  predicate Contains(hay: string, needle: string) {
    exists i :: 0 <= i <= |hay| - |needle| && OccursAt(hay, needle, i)
  }

  predicate OccursAt(hay: string, needle: string, i: int)
    requires 0 <= i <= |hay| - |needle|
  {
    hay[i..i + |needle|] == needle
  }

  /** `a.toLowerCase().includes(b.toLowerCase())`. */
  predicate ContainsFolded(hay: string, needle: string) {
    Contains(Lower(hay), Lower(needle))
  }

  /** Every string contains the empty search term. */
  lemma ContainsEmpty(hay: string)
    ensures ContainsFolded(hay, "")
  {
    assert Lower("") == "";
    assert OccursAt(Lower(hay), "", 0);
  }

  /** The characters `String.prototype.trim` removes (ASCII subset). */
  predicate IsSpace(c: char) {
    c == ' ' || c == '\t' || c == '\n' || c == '\r' || c == '\U{000C}' || c == '\U{000B}'
  }

  /** `s.trim() === ""`: the string is empty or only whitespace. */
  predicate IsBlank(s: string) {
    forall i :: 0 <= i < |s| ==> IsSpace(s[i])
  }

  predicate IsDigit(c: char) {
    '0' <= c <= '9'
  }

  predicate AllDigits(s: string) {
    forall i :: 0 <= i < |s| ==> IsDigit(s[i])
  }

  /** `s.replace(/\D/g, "")`: the digits of `s`, in order. */
  function Digits(s: string): (r: string)
    ensures |r| <= |s|
    ensures forall i :: 0 <= i < |r| ==> IsDigit(r[i])
  {
    if s == [] then []
    else if IsDigit(s[0]) then [s[0]] + Digits(s[1..])
    else Digits(s[1..])
  }

  lemma {:induction false} DigitsAppend(a: string, b: string)
    ensures Digits(a + b) == Digits(a) + Digits(b)
  {
    if a == [] {
      assert a + b == b;
    } else {
      assert (a + b)[1..] == a[1..] + b;
      DigitsAppend(a[1..], b);
    }
  }

  lemma {:induction false} DigitsOfDigits(s: string)
    requires forall i :: 0 <= i < |s| ==> IsDigit(s[i])
    ensures Digits(s) == s
  {
    if s != [] {
      DigitsOfDigits(s[1..]);
    }
  }

  /** The decimal text of a natural number, as a number input holds it. */
  function DecimalText(n: nat): (s: string)
    ensures |s| > 0 && forall i :: 0 <= i < |s| ==> IsDigit(s[i])
  {
    if n < 10 then [('0' as int + n) as char] else DecimalText(n / 10) + [('0' as int + n % 10) as char]
  }

  /** The value of a string of decimal digits. */
  function DecimalValue(ds: string): nat
    requires forall i :: 0 <= i < |ds| ==> IsDigit(ds[i])
  {
    if ds == [] then 0
    else
      var last := ds[|ds| - 1];
      assert IsDigit(last);
      10 * DecimalValue(ds[..|ds| - 1]) + (last as int - '0' as int)
  }

  lemma {:induction false} DecimalRoundTrip(n: nat)
    ensures DecimalValue(DecimalText(n)) == n
  {
    if n >= 10 {
      DecimalRoundTrip(n / 10);
      var s := DecimalText(n);
      assert s[..|s| - 1] == DecimalText(n / 10);
    }
  }

  /** `s` without its leading whitespace. */
  function TrimStart(s: string): string {
    if s != [] && IsSpace(s[0]) then TrimStart(s[1..]) else s
  }

  /** `s` without its trailing whitespace. */
  function TrimEnd(s: string): string {
    if s != [] && IsSpace(s[|s| - 1]) then TrimEnd(s[..|s| - 1]) else s
  }

  /** `String.prototype.trim`. */
  function Trim(s: string): string {
    TrimEnd(TrimStart(s))
  }

  /** Whitespace around a text that neither starts nor ends with whitespace is
      exactly what `trim` removes. */
  lemma {:induction false} TrimPadded(a: string, t: string, b: string)
    requires IsBlank(a) && IsBlank(b)
    requires t != [] && !IsSpace(t[0]) && !IsSpace(t[|t| - 1])
    ensures Trim(a + t + b) == t
  {
    TrimStartPadded(a, t + b);
    assert a + t + b == a + (t + b);
    TrimEndPadded(t, b);
  }

  lemma {:induction false} TrimStartPadded(a: string, u: string)
    requires IsBlank(a) && u != [] && !IsSpace(u[0])
    ensures TrimStart(a + u) == u
  {
    if a == [] {
      assert a + u == u;
    } else {
      assert (a + u)[1..] == a[1..] + u;
      TrimStartPadded(a[1..], u);
    }
  }

  lemma {:induction false} TrimEndPadded(u: string, b: string)
    requires IsBlank(b) && u != [] && !IsSpace(u[|u| - 1])
    ensures TrimEnd(u + b) == u
  {
    if b == [] {
      assert u + b == u;
    } else {
      var b' := b[..|b| - 1];
      assert (u + b)[..|u + b| - 1] == u + b';
      TrimEndPadded(u, b');
    }
  }

  /** A text of whitespace only trims to nothing. */
  lemma {:induction false} BlankTrimsToEmpty(s: string)
    requires IsBlank(s)
    ensures Trim(s) == ""
  {
    if s != [] {
      BlankTrimsToEmpty(s[1..]);
    }
  }
}
