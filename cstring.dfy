/** The C library string functions the setuid helper's argument loop uses:
    `strtok` with the delimiter set "=", `strncmp` and `atoi`. A C string is
    modelled by its characters before the terminating NUL. Each Dafny `char`
    stands for one byte (a C `char`), so a length is a count of bytes and
    `c as int - '0' as int` is the C subtraction `c - '0'`. */
module CString {
  import opened Wrappers
  import opened PyString

  /** Character `k` of a C string; reading at or past its end gives the NUL. */
  function CharAt(s: string, k: nat): char {
    if k < |s| then s[k] else '\0'
  }

  /** `strncmp(a, b, n)` from position `k` on: the difference of the first
      differing characters, or 0 once `n` characters or a common NUL have
      been compared. */
  function StrncmpFrom(a: string, b: string, n: nat, k: nat): int
    decreases n - k
  {
    if k >= n then 0
    else if CharAt(a, k) != CharAt(b, k) then CharAt(a, k) as int - CharAt(b, k) as int
    else if CharAt(a, k) == '\0' then 0
    else StrncmpFrom(a, b, n, k + 1)
  }

  function Strncmp(a: string, b: string, n: nat): int {
    StrncmpFrom(a, b, n, 0)
  }

  lemma {:induction false} StrncmpFromIsPrefixTest(a: string, b: string, k: nat)
    requires '\0' !in a && '\0' !in b
    requires k <= |b| && (k <= |a| ==> a[..k] == b[..k]) && k <= |a|
    ensures StrncmpFrom(a, b, |b|, k) == 0 <==> b <= a
    decreases |b| - k
  {
    if k < |b| {
      if k < |a| && a[k] == b[k] {
        assert a[..k + 1] == a[..k] + [a[k]] && b[..k + 1] == b[..k] + [b[k]];
        StrncmpFromIsPrefixTest(a, b, k + 1);
      } else if k < |a| {
        assert a[k] != b[k];
      } else {
        assert CharAt(a, k) == '\0' && CharAt(b, k) == b[k] != '\0';
      }
    } else {
      assert b == b[..k] == a[..k];
    }
  }

  /** `!strncmp(name, opt, strlen(opt))` holds exactly when `opt` is a
      prefix of `name`. */
  lemma StrncmpIsPrefixTest(name: string, opt: string)
    requires '\0' !in name && '\0' !in opt
    ensures Strncmp(name, opt, |opt|) == 0 <==> opt <= name
  {
    StrncmpFromIsPrefixTest(name, opt, 0);
  }

  /** How many '=' `strtok` skips before a token. */
  function DelimRun(s: string): (k: nat)
    ensures k <= |s| && (k < |s| ==> s[k] != '=')
    ensures forall i :: 0 <= i < k ==> s[i] == '='
  {
    if s != [] && s[0] == '=' then 1 + DelimRun(s[1..]) else 0
  }

  /** `s` without its leading run of '='. */
  function SkipDelims(s: string): string {
    s[DelimRun(s)..]
  }

  /** The token `strtok` returns from a string that does not start with '=':
      everything up to the next '='. */
  function Span(s: string): (r: string)
    ensures r <= s && '=' !in r
    ensures |r| < |s| ==> s[|r|] == '='
  {
    if s == [] || s[0] == '=' then [] else [s[0]] + Span(s[1..])
  }

  datatype Tokens = Tokens(name: Option<string>, value: Option<string>)

  /** `name = strtok(arg, "="); value = strtok(NULL, "=")`. A `None` is the
      NULL pointer `strtok` returns when no token is left. */
  function SplitNameValue(arg: string): (t: Tokens)
    ensures t.name.None? <==> forall i :: 0 <= i < |arg| ==> arg[i] == '='
    ensures t.name.Some? ==> t.name.value != [] && '=' !in t.name.value
    ensures t.value.Some? ==> t.name.Some? && t.value.value != [] && '=' !in t.value.value
  {
    var a := SkipDelims(arg);
    if a == [] then Tokens(None, None)
    else
      var name := Span(a);
      var b := SkipDelims(a[|name|..]);
      Tokens(Some(name), if b == [] then None else Some(Span(b)))
  }

  /** The string `argv[i]` points to after the two `strtok` calls: the first
      call wrote a NUL over the '=' that ended the name, so it now stops
      there. */
  function AfterStrtok(arg: string): (r: string)
    ensures r <= arg
  {
    if arg != [] && arg[0] == '=' then [arg[0]] + AfterStrtok(arg[1..]) else Span(arg)
  }

  /** `name=value` splits into its name and value, and whatever follows a
      further '=' is lost: `infile=a=b` gives the value `a`. The argument
      itself is cut back to the name. */
  lemma {:induction false} SplitJoined(name: string, value: string, rest: string)
    requires name != [] && '=' !in name
    requires value != [] && '=' !in value
    requires rest == [] || rest[0] == '='
    ensures SplitNameValue(name + "=" + value + rest) == Tokens(Some(name), Some(value))
    ensures AfterStrtok(name + "=" + value + rest) == name
  {
    var tail := value + rest;
    var arg := name + ("=" + tail);
    assert name + "=" + value + rest == arg;
    assert SkipDelims(arg) == arg by {
      assert arg[0] == name[0];
    }
    assert Span(arg) == name by {
      SpanStopsAtDelim(name, "=" + tail);
    }
    assert SkipDelims(arg[|name|..]) == tail by {
      assert arg[|name|..] == "=" + tail;
      assert tail[0] == value[0];
      SkipOneDelim(tail);
    }
    assert Span(tail) == value by {
      SpanStopsAtDelim(value, rest);
    }
  }

  lemma {:induction false} SpanStopsAtDelim(tok: string, rest: string)
    requires '=' !in tok
    requires rest == [] || rest[0] == '='
    ensures Span(tok + rest) == tok
  {
    if tok != [] {
      assert (tok + rest)[1..] == tok[1..] + rest;
      SpanStopsAtDelim(tok[1..], rest);
      assert [tok[0]] + tok[1..] == tok;
    } else {
      assert tok + rest == rest;
    }
  }

  lemma SkipOneDelim(s: string)
    requires s != [] && s[0] != '='
    ensures SkipDelims("=" + s) == s
  {
    assert ("=" + s)[1..] == s;
  }

  predicate IsSpace(c: char) {
    c == ' ' || '\t' <= c <= '\r'
  }

  function SkipSpaces(s: string): (r: string)
    ensures |r| <= |s| && (r == [] || !IsSpace(r[0]))
  {
    if s != [] && IsSpace(s[0]) then SkipSpaces(s[1..]) else s
  }

  /** The longest leading run of decimal digits. */
  function LeadingDigits(s: string): (r: string)
    ensures r <= s && forall i :: 0 <= i < |r| ==> IsDigit(r[i])
  {
    if s != [] && IsDigit(s[0]) then [s[0]] + LeadingDigits(s[1..]) else []
  }

  /** The value `strtol(s, NULL, 10)` reads before clamping: leading white
      space, an optional sign, then the longest run of digits; 0 when there
      are none. */
  function DecimalPrefixValue(s: string): int {
    var t := SkipSpaces(s);
    if t != [] && t[0] == '-' then -(DigitsValue(LeadingDigits(t[1..])) as int)
    else if t != [] && t[0] == '+' then DigitsValue(LeadingDigits(t[1..]))
    else DigitsValue(LeadingDigits(t))
  }

  const IntMin: int := -0x8000_0000
  const IntMax: int := 0x7fff_ffff
  const LongMin: int := -0x8000_0000_0000_0000
  const LongMax: int := 0x7fff_ffff_ffff_ffff

  /** Conversion of a `long` to `int` on a two's-complement machine: the low
      32 bits. */
  function ToInt(v: int): (r: int)
    ensures IntMin <= r <= IntMax
    ensures IntMin <= v <= IntMax ==> r == v
  {
    (v - IntMin) % 0x1_0000_0000 + IntMin
  }

  /** glibc's `atoi(s)`, which is `(int) strtol(s, NULL, 10)`: `strtol`
      saturates at the bounds of a 64-bit `long`. */
  function Atoi(s: string): (r: int)
    ensures IntMin <= r <= IntMax
  {
    var v := DecimalPrefixValue(s);
    ToInt(if v < LongMin then LongMin else if v > LongMax then LongMax else v)
  }

  lemma {:induction false} LeadingDigitsOfDigits(s: string)
    requires forall i :: 0 <= i < |s| ==> IsDigit(s[i])
    ensures LeadingDigits(s) == s
  {
    if s != [] {
      LeadingDigitsOfDigits(s[1..]);
    }
  }

  /** The sign and digits `strtol` scans in Python's `"%d" % n` denote n,
      before `strtol` clamps the value to the `long` range. */
  lemma DecimalPrefixOfStr(n: int)
    ensures DecimalPrefixValue(Str(n)) == n
  {
    var s := Str(n);
    assert SkipSpaces(s) == s;
    if n < 0 {
      assert s[1..] == Digits(-n);
      LeadingDigitsOfDigits(Digits(-n));
      DigitsValueOfDigits(-n);
    } else {
      LeadingDigitsOfDigits(Digits(n));
      DigitsValueOfDigits(n);
    }
  }

  /** `atoi` reads back what Python's `"%d" % n` wrote, for every `n` that
      fits an `int`. */
  lemma AtoiOfStr(n: int)
    requires IntMin <= n <= IntMax
    ensures Atoi(Str(n)) == n
  {
    DecimalPrefixOfStr(n);
  }
}
