/** The two Python string operations the test runner relies on: `str(n)` and
    `"%d" % n` for an integer, and `s.replace('\r\n', '\n')`. */
module PyString {

  predicate IsDigit(c: char) {
    '0' <= c <= '9'
  }

  function DigitChar(d: nat): (c: char)
    requires d < 10
    ensures IsDigit(c) && c as int - '0' as int == d
  {
    ('0' as int + d) as char
  }

  /** Decimal digits of a natural number, most significant first. */
  function Digits(n: nat): (s: string)
    ensures s != [] && forall i :: 0 <= i < |s| ==> IsDigit(s[i])
    decreases n
  {
    if n < 10 then [DigitChar(n)] else Digits(n / 10) + [DigitChar(n % 10)]
  }

  /** `str(n)`, which is also what `"%d" % n` produces. */
  function Str(n: int): (s: string)
    ensures s != [] && (s[0] == '-' <==> n < 0)
    ensures n >= 0 ==> forall i :: 0 <= i < |s| ==> IsDigit(s[i])
  {
    if n < 0 then "-" + Digits(-n) else Digits(n)
  }

  function DigitOf(c: char): nat
    requires IsDigit(c)
  {
    c as int - '0' as int
  }

  /** Value of a string of decimal digits. */
  function DigitsValue(s: string): nat
    requires forall i :: 0 <= i < |s| ==> IsDigit(s[i])
  {
    if s == [] then 0
    else DigitsValue(s[..|s| - 1]) * 10 + DigitOf(s[|s| - 1])
  }

  lemma {:induction false} DigitsValueOfDigits(n: nat)
    ensures DigitsValue(Digits(n)) == n
    decreases n
  {
    if n >= 10 {
      var s := Digits(n);
      assert s[..|s| - 1] == Digits(n / 10);
      DigitsValueOfDigits(n / 10);
    }
  }

  predicate HasCrlfAt(s: string, i: int) {
    0 <= i && i + 1 < |s| && s[i] == '\r' && s[i + 1] == '\n'
  }

  predicate HasCrlf(s: string) {
    exists i | 0 <= i < |s| :: HasCrlfAt(s, i)
  }

  /** `s.replace('\r\n', '\n')`: a left-to-right scan that rewrites each
      non-overlapping occurrence of CR LF. */
  function ReplaceCrlf(s: string): (r: string)
    ensures |r| <= |s|
  {
    if |s| >= 2 && s[0] == '\r' && s[1] == '\n' then "\n" + ReplaceCrlf(s[2..])
    else if s == [] then []
    else [s[0]] + ReplaceCrlf(s[1..])
  }

  /** A string without CR LF is left unchanged, and only such a string is:
      every rewrite shortens the string. */
  lemma {:induction false} ReplaceCrlfFixesExactlyCrlfFree(s: string)
    ensures ReplaceCrlf(s) == s <==> !HasCrlf(s)
    ensures HasCrlf(s) ==> |ReplaceCrlf(s)| < |s|
  {
    if |s| >= 2 && s[0] == '\r' && s[1] == '\n' {
      assert HasCrlfAt(s, 0);
    } else if s != [] {
      ReplaceCrlfFixesExactlyCrlfFree(s[1..]);
      var t := s[1..];
      if HasCrlf(s) {
        var i :| 0 <= i < |s| && HasCrlfAt(s, i);
        assert i != 0;
        assert t[i - 1] == s[i] && t[i] == s[i + 1];
        assert HasCrlfAt(t, i - 1);
      }
      if HasCrlf(t) {
        var i :| 0 <= i < |t| && HasCrlfAt(t, i);
        assert t[i] == s[i + 1] && t[i + 1] == s[i + 2];
        assert HasCrlfAt(s, i + 1);
      }
    }
  }

  /** Writing every line ending of a CR-free text as CR LF and rewriting it
      back gives the text again. */
  function ToCrlf(s: string): (r: string)
    ensures |r| >= |s|
  {
    if s == [] then []
    else (if s[0] == '\n' then "\r\n" else [s[0]]) + ToCrlf(s[1..])
  }

  lemma {:induction false} ReplaceCrlfUndoesToCrlf(s: string)
    requires forall i :: 0 <= i < |s| ==> s[i] != '\r'
    ensures ReplaceCrlf(ToCrlf(s)) == s
  {
    if s != [] {
      ReplaceCrlfUndoesToCrlf(s[1..]);
      var rest := ToCrlf(s[1..]);
      if s[0] == '\n' {
        assert ToCrlf(s) == "\r\n" + rest;
        assert ("\r\n" + rest)[2..] == rest;
      } else {
        assert ToCrlf(s) == [s[0]] + rest;
        assert ([s[0]] + rest)[1..] == rest;
      }
    }
  }

  /** The rewrite is not idempotent: a second pass can still find CR LF. */
  lemma ReplaceCrlfNotIdempotent()
    ensures ReplaceCrlf("\r\r\n") == "\r\n"
    ensures ReplaceCrlf(ReplaceCrlf("\r\r\n")) == "\n"
  {
    assert "\r\r\n"[1..] == "\r\n";
    assert "\r\r\n"[1..][2..] == [];
  }
}
