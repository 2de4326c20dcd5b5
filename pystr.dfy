/**
  The pieces of Python's string library that the SLURM script generator
  relies on: `None` and its `'{}'.format` rendering, `str(int)`,
  `str.lstrip()`, `str.join` and `os.path.join` (POSIX flavour).
 */
module PyStr {

  /** A value that may be Python's `None`. */
  datatype Option<T> = None | Some(value: T)

  /** `'{}'.format(x)` for a string attribute that may be `None`. */
  function FormatOpt(x: Option<string>): string
  {
    match x
    case Some(s) => s
    case None => "None"
  }

  // ---------------------------------------------------------------------
  // str.isspace / str.lstrip
  // ---------------------------------------------------------------------

  /** The characters for which Python's `str.isspace()` holds. */
  predicate IsSpace(c: char) {
    var n := c as int;
    (9 <= n <= 13) || (28 <= n <= 32) || n == 0x85 || n == 0xA0 || n == 0x1680
    || (0x2000 <= n <= 0x200A) || n == 0x2028 || n == 0x2029 || n == 0x202F
    || n == 0x205F || n == 0x3000
  }

  /** `s.lstrip()`: drop the longest prefix of whitespace characters. */
  function LStrip(s: string): (r: string)
    ensures |r| <= |s| && r == s[|s| - |r|..]
    ensures forall i :: 0 <= i < |s| - |r| ==> IsSpace(s[i])
    ensures r == [] || !IsSpace(r[0])
  {
    if s != [] && IsSpace(s[0]) then LStrip(s[1..]) else s
  }

  /** A line that already starts with a non-space character is left alone. */
  lemma LStripKeeps(s: string)
    requires s != [] && !IsSpace(s[0])
    ensures LStrip(s) == s
  {
  }

  /** A line made of whitespace only becomes empty. */
  lemma {:induction false} LStripAllSpace(s: string)
    requires forall i :: 0 <= i < |s| ==> IsSpace(s[i])
    ensures LStrip(s) == ""
  {
    if s != [] {
      LStripAllSpace(s[1..]);
    }
  }

  // ---------------------------------------------------------------------
  // str.join
  // ---------------------------------------------------------------------

  /** `sep.join(parts)`: the parts with `sep` between neighbours and nowhere else. */
  function Join(sep: string, parts: seq<string>): string
  {
    if |parts| == 0 then ""
    else if |parts| == 1 then parts[0]
    else parts[0] + sep + Join(sep, parts[1..])
  }

  /** Joining two non-empty lists puts exactly one separator at the seam. */
  lemma {:induction false} JoinAppend(sep: string, a: seq<string>, b: seq<string>)
    requires |a| > 0 && |b| > 0
    ensures Join(sep, a + b) == Join(sep, a) + sep + Join(sep, b)
  {
    if |a| == 1 {
      assert a + b == [a[0]] + b;
      assert (a + b)[1..] == b;
    } else {
      assert (a + b)[1..] == a[1..] + b;
      JoinAppend(sep, a[1..], b);
    }
  }

  // ---------------------------------------------------------------------
  // str(int)
  // ---------------------------------------------------------------------

  predicate IsDigit(c: char) { '0' <= c <= '9' }

  function DigitChar(d: nat): (c: char)
    requires d < 10
    ensures IsDigit(c) && c as int - '0' as int == d
  {
    "0123456789"[d]
  }

  /** Decimal digits of a natural number, without leading zeros. */
  function NatDigits(n: nat): (s: string)
    ensures |s| > 0
    ensures forall i :: 0 <= i < |s| ==> IsDigit(s[i])
    ensures (s[0] == '0') <==> n == 0
    decreases n
  {
    if n < 10 then [DigitChar(n)] else NatDigits(n / 10) + [DigitChar(n % 10)]
  }

  /** `str(n)` for a Python int: a minus sign for negatives, then the digits without leading zeros. */
  function IntStr(n: int): (s: string)
    ensures IsNumeral(s)
    ensures (s[0] == '-') <==> n < 0
    ensures s[0] == '0' ==> s == "0"
    ensures n < 0 ==> s[1] != '0'
  {
    if n < 0 then "-" + NatDigits(-n) else NatDigits(n)
  }

  /** Reads back a string of decimal digits. */
  function ParseNat(s: string): nat
    requires forall i :: 0 <= i < |s| ==> IsDigit(s[i])
  {
    if s == [] then 0 else 10 * ParseNat(s[..|s| - 1]) + DigitValue(s[|s| - 1])
  }

  function DigitValue(c: char): (d: nat)
    requires IsDigit(c)
    ensures d < 10
  {
    c as int - '0' as int
  }

  /** An optional minus sign followed by one or more decimal digits. */
  predicate IsNumeral(s: string) {
    && |s| > 0
    && (s[0] == '-' ==> |s| > 1)
    && (IsDigit(s[0]) || s[0] == '-')
    && forall i :: 0 < i < |s| ==> IsDigit(s[i])
  }

  /** Reads back an optionally signed decimal numeral. */
  function ParseInt(s: string): int
    requires IsNumeral(s)
  {
    if s[0] == '-' then -(ParseNat(s[1..]) as int) else ParseNat(s)
  }

  lemma {:induction false} ParseNatDigits(n: nat)
    ensures ParseNat(NatDigits(n)) == n
    decreases n
  {
    if n >= 10 {
      var s := NatDigits(n);
      assert s[..|s| - 1] == NatDigits(n / 10);
      ParseNatDigits(n / 10);
    }
  }

  /** `str(n)` loses no information: reading it back gives `n`. */
  lemma IntStrRoundTrip(n: int)
    ensures ParseInt(IntStr(n)) == n
  {
    var s := IntStr(n);
    if n < 0 {
      var d := NatDigits(-n);
      assert s == "-" + d;
      assert s[1..] == d;
      ParseNatDigits(-n);
      assert ParseInt(s) == -(ParseNat(d) as int);
    } else {
      assert s == NatDigits(n);
      assert s[0] != '-';
      ParseNatDigits(n);
    }
  }

  // ---------------------------------------------------------------------
  // os.path.join (posixpath)
  // ---------------------------------------------------------------------

  /**
    `os.path.join(a, b)` on POSIX: an absolute `b` replaces `a`; otherwise
    `b` is appended, with a `/` unless `a` is empty or already ends in `/`.
   */
  function PathJoin(a: string, b: string): (r: string)
    ensures |b| > 0 && b[0] == '/' ==> r == b
    ensures !(|b| > 0 && b[0] == '/') ==> a <= r && |b| <= |r| && r[|r| - |b|..] == b
  {
    if |b| > 0 && b[0] == '/' then b
    else if a == [] || a[|a| - 1] == '/' then a + b
    else a + "/" + b
  }

  /** A relative part joined onto a non-empty path without a trailing `/` goes after one `/`. */
  lemma PathJoinSeparator(a: string, b: string)
    requires !(|b| > 0 && b[0] == '/')
    requires a != [] && a[|a| - 1] != '/'
    ensures PathJoin(a, b) == a + "/" + b
  {
  }
}
