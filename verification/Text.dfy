/** The string operations of the host language that the services rely on. */
module Text {

  /** The characters `str.strip` and `str.split` treat as whitespace. */
  predicate IsSpace(c: char) {
    || '\t' <= c <= '\r' || '\U{1c}' <= c <= ' ' || c == '\U{85}' || c == '\U{a0}' || c == '\U{1680}'
    || '\U{2000}' <= c <= '\U{200a}' || c == '\U{2028}' || c == '\U{2029}' || c == '\U{202f}'
    || c == '\U{205f}' || c == '\U{3000}'
  }

  /** The first index from lo on that holds no whitespace, or hi. */
  function SkipSpaces(s: string, lo: nat, hi: nat): (i: nat)
    requires lo <= hi <= |s|
    ensures lo <= i <= hi
    ensures forall j :: lo <= j < i ==> IsSpace(s[j])
    ensures i < hi ==> !IsSpace(s[i])
    decreases hi - lo
  {
    if lo < hi && IsSpace(s[lo]) then SkipSpaces(s, lo + 1, hi) else lo
  }

  /** One past the last index below hi that holds no whitespace, or lo. */
  function DropSpaces(s: string, lo: nat, hi: nat): (i: nat)
    requires lo <= hi <= |s|
    ensures lo <= i <= hi
    ensures forall j :: i <= j < hi ==> IsSpace(s[j])
    ensures lo < i ==> !IsSpace(s[i - 1])
    decreases hi
  {
    if lo < hi && IsSpace(s[hi - 1]) then DropSpaces(s, lo, hi - 1) else hi
  }

  datatype Span = Span(start: nat, end: nat)

  /** Where the slice s[lo..hi] begins and ends once it is stripped. */
  function StripSpan(s: string, lo: nat, hi: nat): (r: Span)
    requires lo <= hi <= |s|
    ensures lo <= r.start <= r.end <= hi
    ensures forall j :: lo <= j < hi && !IsSpace(s[j]) ==> r.start <= j < r.end
    ensures r.start < r.end ==> !IsSpace(s[r.start]) && !IsSpace(s[r.end - 1])
  {
    var a := SkipSpaces(s, lo, hi);
    Span(a, DropSpaces(s, a, hi))
  }

  /** `s[lo:hi].strip()` */
  function StripSlice(s: string, lo: nat, hi: nat): string
    requires lo <= hi <= |s|
  {
    var r := StripSpan(s, lo, hi);
    s[r.start..r.end]
  }

  function Strip(s: string): string {
    StripSlice(s, 0, |s|)
  }

  /** `s.rfind(c, lo, hi)`: the last index with c in the range, or -1. */
  function RFind(s: string, c: char, lo: nat, hi: nat): (i: int)
    requires hi <= |s|
    ensures i == -1 || (lo <= i < hi && s[i] == c)
    ensures forall j :: lo <= j < hi && i < j ==> s[j] != c
  {
    if hi <= lo then -1
    else if s[hi - 1] == c then hi - 1
    else RFind(s, c, lo, hi - 1)
  }

  // ----- decimal numbers

  function Digit(d: nat): (c: char)
    requires d < 10
    ensures '0' <= c <= '9' && c as int - '0' as int == d
  {
    ('0' as int + d) as char
  }

  predicate IsDigit(c: char) {
    '0' <= c <= '9'
  }

  /** `str(n)` */
  function Decimal(n: nat): (s: string)
    ensures s != "" && forall i :: 0 <= i < |s| ==> IsDigit(s[i])
  {
    if n < 10 then [Digit(n)] else Decimal(n / 10) + [Digit(n % 10)]
  }

  lemma {:induction false} DecimalInjective(m: nat, n: nat)
    requires Decimal(m) == Decimal(n)
    ensures m == n
  {
    var s, t := Decimal(m), Decimal(n);
    assert s[|s| - 1] == Digit(m % 10) && t[|t| - 1] == Digit(n % 10);
    assert (m >= 10 <==> |s| >= 2) && (n >= 10 <==> |t| >= 2);
    if m >= 10 && n >= 10 {
      assert Decimal(m / 10) == s[..|s| - 1] && Decimal(n / 10) == t[..|t| - 1];
      DecimalInjective(m / 10, n / 10);
    }
  }

  lemma DigitsNoLonger(s: string, a: string, t: string, b: string)
    requires s + a == t + b && a != "" && !IsDigit(a[0])
    requires forall i :: 0 <= i < |t| ==> IsDigit(t[i])
    ensures |t| <= |s|
  {
    assert (s + a)[|s|] == a[0];
    assert forall i :: 0 <= i < |t| ==> (t + b)[i] == t[i];
  }

  /** A run of digits ends where the first other character stands, so two numbers that are
      followed by one are equal once the whole strings are. */
  lemma DecimalPrefix(m: nat, n: nat, a: string, b: string)
    requires a != "" && b != "" && !IsDigit(a[0]) && !IsDigit(b[0])
    requires Decimal(m) + a == Decimal(n) + b
    ensures m == n && a == b
  {
    var s, t := Decimal(m), Decimal(n);
    DigitsNoLonger(s, a, t, b);
    DigitsNoLonger(t, b, s, a);
    var u := s + a;
    assert s == u[..|s|] && t == u[..|s|];
    assert a == u[|s|..] && b == u[|s|..];
    DecimalInjective(m, n);
  }

  // ----- the order of strings

  predicate LexBefore(a: string, b: string) {
    b != "" && (a == "" || a[0] < b[0] || (a[0] == b[0] && LexBefore(a[1..], b[1..])))
  }

  lemma {:induction false} LexChain(a: string, b: string, c: string)
    requires LexBefore(a, b) && LexBefore(b, c)
    ensures LexBefore(a, c)
  {
    if a != "" && a[0] == b[0] && b[0] == c[0] { LexChain(a[1..], b[1..], c[1..]); }
  }

  lemma {:induction false} LexOne(a: string, b: string)
    ensures !LexBefore(a, a)
    ensures a == b || LexBefore(a, b) || LexBefore(b, a)
  {
    if a != "" {
      LexOne(a[1..], if b == "" then "" else b[1..]);
      if b != "" && a[0] == b[0] {
        assert a == [a[0]] + a[1..] && b == [b[0]] + b[1..];
      }
    }
  }

  /** The strings first differ at i, where the first has the lower character. */
  predicate LowerAt(a: string, b: string, i: nat) {
    i < |a| && i < |b| && a[..i] == b[..i] && a[i] < b[i]
  }

  lemma LowerAtTails(a: string, b: string, i: nat)
    requires a != "" && b != "" && a[0] == b[0]
    ensures LowerAt(a, b, i + 1) <==> LowerAt(a[1..], b[1..], i)
  {
    if i < |a| - 1 && i < |b| - 1 {
      assert a[..i + 1] == [a[0]] + a[1..][..i] && b[..i + 1] == [b[0]] + b[1..][..i];
      assert a[..i + 1][1..] == a[1..][..i] && b[..i + 1][1..] == b[1..][..i];
    }
  }

  lemma LowerAtHead(a: string, b: string, i: nat)
    requires LowerAt(a, b, i)
    ensures i == 0 || a[0] == b[0]
  {
    if i > 0 { assert a[..i][0] == a[0] && b[..i][0] == b[0]; }
  }

  /** One string comes before another exactly if it is a proper prefix of it or has the lower
      character where the two first differ. */
  lemma {:induction false} LexByFirstDifference(a: string, b: string)
    ensures LexBefore(a, b) <==> a < b || exists i: nat :: LowerAt(a, b, i)
  {
    if a != "" && b != "" && a[0] == b[0] {
      LexByFirstDifference(a[1..], b[1..]);
      assert a == [a[0]] + a[1..] && b == [b[0]] + b[1..];
      assert a < b <==> a[1..] < b[1..];
      if i: nat :| LowerAt(a, b, i) { LowerAtTails(a, b, i - 1); }
      if i: nat :| LowerAt(a[1..], b[1..], i) { LowerAtTails(a, b, i); }
    } else if a != "" && b != "" {
      if a[0] < b[0] { assert LowerAt(a, b, 0); }
      if i: nat :| LowerAt(a, b, i) { LowerAtHead(a, b, i); }
    }
  }
}
