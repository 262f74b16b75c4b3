/** The string primitives of the JavaScript runtime that the sheet's input
    handlers and card renderer rely on: white-space trimming and
    `parseInt(s, 10)`. Numbers are exact integers here (see README). */
module JsText {
  import opened Wrappers

  /** The code points ECMAScript counts as white space or line terminators
      when trimming a string or skipping the start of a number. */
  predicate IsJsSpace(c: char) {
    || c == '\t' || c == '\n' || c == '\U{B}' || c == '\U{C}' || c == '\r'
    || c == ' ' || c == '\U{A0}' || c == '\U{1680}'
    || ('\U{2000}' <= c <= '\U{200A}')
    || c == '\U{2028}' || c == '\U{2029}' || c == '\U{202F}' || c == '\U{205F}'
    || c == '\U{3000}' || c == '\U{FEFF}'
  }

  predicate AllSpace(s: string) {
    forall i :: 0 <= i < |s| ==> IsJsSpace(s[i])
  }

  /** `s` without its leading white space. */
  function TrimStart(s: string): (r: string)
    ensures |r| <= |s| && r == s[|s| - |r|..]
    ensures AllSpace(s[..|s| - |r|])
    ensures r == [] || !IsJsSpace(r[0])
  {
    if s != [] && IsJsSpace(s[0]) then
      var r := TrimStart(s[1..]);
      assert s[..|s| - |r|] == [s[0]] + s[1..][..|s| - 1 - |r|];
      r
    else s
  }

  /** `s` without its trailing white space. */
  function TrimEnd(s: string): (r: string)
    ensures |r| <= |s| && r == s[..|r|]
    ensures AllSpace(s[|r|..])
    ensures r == [] || !IsJsSpace(r[|r| - 1])
  {
    if s != [] && IsJsSpace(s[|s| - 1]) then TrimEnd(s[..|s| - 1]) else s
  }

  /** `String.prototype.trim`: white space removed from both ends, and
      nothing else: `s` is the result between a white-space prefix and a
      white-space suffix. */
  function Trim(s: string): (r: string)
    ensures r == [] || (!IsJsSpace(r[0]) && !IsJsSpace(r[|r| - 1]))
    ensures exists p, q :: s == p + r + q && AllSpace(p) && AllSpace(q)
  {
    TrimMiddle(s);
    TrimEnd(TrimStart(s))
  }

  /** The trimmed text sits in `s` right after the leading white space. */
  lemma TrimMiddle(s: string)
    ensures exists p, q :: s == p + TrimEnd(TrimStart(s)) + q && AllSpace(p) && AllSpace(q)
  {
    var t := TrimStart(s);
    var r := TrimEnd(t);
    var p := s[..|s| - |t|];
    var q := t[|r|..];
    Flanked(s, t, r);
    assert AllSpace(p) && AllSpace(q);
  }

  /** A suffix `t` of `s` and a prefix `r` of `t` split `s` in three. */
  lemma Flanked(s: string, t: string, r: string)
    requires |t| <= |s| && t == s[|s| - |t|..]
    requires |r| <= |t| && r == t[..|r|]
    ensures s == s[..|s| - |t|] + r + t[|r|..]
  {
    assert t == r + t[|r|..];
    assert s == s[..|s| - |t|] + t;
  }

  predicate IsDigit(c: char) {
    '0' <= c <= '9'
  }

  predicate AllDigits(s: string) {
    forall i :: 0 <= i < |s| ==> IsDigit(s[i])
  }

  function DigitValue(c: char): (v: nat)
    requires IsDigit(c)
    ensures v < 10
  {
    c as int - '0' as int
  }

  function DigitChar(d: nat): (c: char)
    requires d < 10
    ensures IsDigit(c) && DigitValue(c) == d
  {
    ('0' as int + d) as char
  }

  /** Length of the longest prefix of `s` made of decimal digits. */
  function DigitRun(s: string): (n: nat)
    ensures n <= |s| && AllDigits(s[..n])
    ensures n == |s| || !IsDigit(s[n])
  {
    if s != [] && IsDigit(s[0]) then 1 + DigitRun(s[1..]) else 0
  }

  /** The value of a string of decimal digits, most significant first. */
  function DecimalValue(d: string): nat
    requires AllDigits(d)
  {
    if d == [] then 0 else DecimalValue(d[..|d| - 1]) * 10 + DigitValue(d[|d| - 1])
  }

  /** The decimal text of a natural number, as `String(n)` writes it. */
  function DecimalString(n: nat): (r: string)
    ensures r != [] && AllDigits(r)
    ensures n >= 10 ==> r[0] != '0'
  {
    if n < 10 then [DigitChar(n)] else DecimalString(n / 10) + [DigitChar(n % 10)]
  }

  /** The text that follows an optional leading sign, and the sign itself. */
  function Unsigned(s: string): string {
    if s != [] && (s[0] == '+' || s[0] == '-') then s[1..] else s
  }

  function Sign(s: string): int {
    if s != [] && s[0] == '-' then -1 else 1
  }

  /** `parseInt(s, 10)`: skip leading white space, read an optional sign and
      the longest run of decimal digits, ignore the rest; `None` is NaN. */
  function ParseInt(s: string): (r: Option<int>)
    ensures r.None? <==> DigitRun(Unsigned(TrimStart(s))) == 0
    ensures r.Some? ==> r.value < 0 ==> Sign(TrimStart(s)) == -1
  {
    var t := TrimStart(s);
    var digits := Unsigned(t);
    var n := DigitRun(digits);
    if n == 0 then None else Some(Sign(t) * DecimalValue(digits[..n]))
  }

  lemma {:induction false} DecimalStringValue(n: nat)
    ensures DecimalValue(DecimalString(n)) == n
  {
    if n >= 10 {
      var d := DecimalString(n);
      assert d[..|d| - 1] == DecimalString(n / 10);
      DecimalStringValue(n / 10);
    }
  }

  lemma {:induction false} DigitRunOfDigits(p: string, tail: string)
    requires AllDigits(p)
    requires tail == [] || !IsDigit(tail[0])
    ensures DigitRun(p + tail) == |p|
  {
    if p != [] {
      assert (p + tail)[1..] == p[1..] + tail;
      DigitRunOfDigits(p[1..], tail);
    }
  }

  /** Text that starts with a digit is left alone by the white-space skip
      and by the sign step. */
  lemma DigitsUntrimmed(s: string)
    requires s != [] && IsDigit(s[0])
    ensures TrimStart(s) == s && Unsigned(s) == s && Sign(s) == 1
  {
    assert !IsJsSpace(s[0]);
    assert s[0] != '+' && s[0] != '-';
  }

  lemma ReadDigits(d: string, tail: string)
    requires d != [] && AllDigits(d)
    requires tail == [] || !IsDigit(tail[0])
    ensures DigitRun(d + tail) == |d|
    ensures (d + tail)[..|d|] == d
  {
    DigitRunOfDigits(d, tail);
  }

  /** `parseInt` of a text whose unsigned part, after the white space, is a
      run of digits followed by a non-digit or nothing. */
  lemma ParseIntOfDigits(s: string, d: string, tail: string)
    requires d != [] && AllDigits(d)
    requires tail == [] || !IsDigit(tail[0])
    requires Unsigned(TrimStart(s)) == d + tail
    ensures ParseInt(s) == Some(Sign(TrimStart(s)) * DecimalValue(d))
  {
    ReadDigits(d, tail);
  }

  /** `parseInt` reads back the decimal text of any natural number, and
      ignores whatever non-digit text follows it. */
  lemma ParseIntDecimal(n: nat, tail: string)
    requires tail == [] || !IsDigit(tail[0])
    ensures ParseInt(DecimalString(n) + tail) == Some(n)
  {
    var d := DecimalString(n);
    assert (d + tail)[0] == d[0];
    DigitsUntrimmed(d + tail);
    ParseIntOfDigits(d + tail, d, tail);
    DecimalStringValue(n);
  }

  /** Text that starts with a minus sign is left alone by the white-space
      skip; the sign step drops the minus and records it. */
  lemma MinusUntrimmed(s: string)
    requires s != [] && s[0] == '-'
    ensures TrimStart(s) == s && Unsigned(s) == s[1..] && Sign(s) == -1
  {
    assert !IsJsSpace(s[0]);
  }

  /** A minus sign before a run of digits makes `parseInt` return the
      negated value of the run, whatever non-digit text follows. */
  lemma ParseIntNegated(d: string, tail: string)
    requires d != [] && AllDigits(d)
    requires tail == [] || !IsDigit(tail[0])
    ensures ParseInt("-" + d + tail) == Some(0 - DecimalValue(d))
  {
    var s := "-" + d + tail;
    assert s[0] == '-' && s[1..] == d + tail;
    MinusUntrimmed(s);
    ParseIntOfDigits(s, d, tail);
  }

  /** A text that starts with a letter holds no number for `parseInt`. */
  lemma LetterReadsNoNumber(s: string)
    requires s != [] && 'A' <= s[0] <= 'Z'
    ensures ParseInt(s).None?
  {
    assert !IsJsSpace(s[0]);
    assert TrimStart(s) == s && Unsigned(s) == s;
    assert !IsDigit(s[0]);
  }

  /** `parseInt` looks only at the text after the leading white space. */
  lemma ParseIntAfterTrim(a: string, b: string)
    requires TrimStart(a) == TrimStart(b)
    ensures ParseInt(a) == ParseInt(b)
  {
  }

  lemma {:induction false} TrimStartSkipsSpace(ws: string, s: string)
    requires AllSpace(ws)
    ensures TrimStart(ws + s) == TrimStart(s)
  {
    if ws != [] {
      var w := ws + s;
      assert w[0] == ws[0] && IsJsSpace(w[0]);
      assert w[1..] == ws[1..] + s;
      assert TrimStart(w) == TrimStart(w[1..]);
      TrimStartSkipsSpace(ws[1..], s);
    } else {
      assert ws + s == s;
    }
  }

  /** Leading white space never changes what `parseInt` reads. */
  lemma ParseIntSkipsSpace(ws: string, s: string)
    requires AllSpace(ws)
    ensures ParseInt(ws + s) == ParseInt(s)
  {
    TrimStartSkipsSpace(ws, s);
    ParseIntAfterTrim(ws + s, s);
  }
}
