/** The string operations the library leans on, with Python 2's semantics:
    `int(s)` on a string, `str(n)` on an integer, `s.split(sep)`,
    `sep.join(pieces)`, `s.rstrip(c)` and the ASCII `s.upper()`. */
module Text {
  import opened Wrappers

  predicate IsDigit(c: char) {
    '0' <= c <= '9'
  }

  predicate AllDigits(s: string) {
    forall i :: 0 <= i < |s| ==> IsDigit(s[i])
  }

  function DigitValue(c: char): nat
    requires IsDigit(c)
  {
    (c as int) - ('0' as int)
  }

  function DigitChar(d: nat): (c: char)
    requires d < 10
    ensures IsDigit(c) && DigitValue(c) == d
  {
    ('0' as int + d) as char
  }

  /** The number a string of decimal digits denotes (most significant first). */
  function DigitsValue(s: string): nat
    requires AllDigits(s)
    decreases |s|
  {
    if s == [] then 0 else DigitsValue(s[..|s| - 1]) * 10 + DigitValue(s[|s| - 1])
  }

  /** `str(n)` for a non-negative integer: its shortest decimal rendering. */
  function NatToString(n: nat): (r: string)
    ensures |r| > 0 && AllDigits(r)
    ensures n > 0 ==> r[0] != '0'
    decreases n
  {
    if n < 10 then [DigitChar(n)] else NatToString(n / 10) + [DigitChar(n % 10)]
  }

  /** `str(n)`, and `"%s" % n`, for a Python integer. */
  function IntToString(n: int): string {
    if n < 0 then "-" + NatToString(-n) else NatToString(n)
  }

  /** The characters Python 2's `str.strip()` removes: space and \t \n \v \f \r. */
  predicate IsSpace(c: char) {
    c == ' ' || 9 <= c as int <= 13
  }

  /** `lstrip()`; what it keeps and drops is stated by
      `StripLeftOnlySpaces`. */
  function StripLeft(s: string): string
    decreases |s|
  {
    if s != [] && IsSpace(s[0]) then StripLeft(s[1..]) else s
  }

  /** `rstrip()`; what it keeps and drops is stated by
      `StripRightOnlySpaces`. */
  function StripRight(s: string): string
    decreases |s|
  {
    if s != [] && IsSpace(s[|s| - 1]) then StripRight(s[..|s| - 1]) else s
  }

  /** Python's `int(s)` on a string: surrounding whitespace is ignored, an
      optional sign is followed by at least one decimal digit; anything else
      raises `ValueError`, modelled as `None`. */
  function ParseInt(s: string): Option<int> {
    ParseNumber(StripRight(StripLeft(s)))
  }

  /** `int` on a string without surrounding whitespace: an optional sign,
      then at least one digit. CPython 2's `PyOS_strtoul` and
      `PyLong_FromString` skip whitespace after the sign as well, so
      `int("- 5") == -5`. */
  function ParseNumber(t: string): Option<int> {
    if |t| >= 1 && (t[0] == '-' || t[0] == '+') then
      match Unsigned(t[1..])
      case None => None
      case Some(v) => Some(if t[0] == '-' then -(v as int) else v)
    else if |t| >= 1 && AllDigits(t) then
      Some(DigitsValue(t))
    else
      None
  }

  /** What follows a sign: whitespace, then at least one digit. */
  function Unsigned(u: string): Option<nat>
    decreases |u|
  {
    if u != [] && IsSpace(u[0]) then Unsigned(u[1..])
    else if |u| >= 1 && AllDigits(u) then Some(DigitsValue(u))
    else None
  }

  /** `lstrip` removes leading whitespace and nothing else: what is left
      is a suffix of the input that does not start with whitespace. */
  lemma {:induction false} StripLeftOnlySpaces(s: string)
    ensures var r := StripLeft(s); (r == [] || !IsSpace(r[0])) && |r| <= |s| && r == s[|s| - |r|..]
    ensures forall i :: 0 <= i < |s| - |StripLeft(s)| ==> IsSpace(s[i])
    decreases |s|
  {
    if s != [] && IsSpace(s[0]) {
      StripLeftOnlySpaces(s[1..]);
    }
  }

  /** `rstrip` removes trailing whitespace and nothing else: what is left
      is a prefix of the input that does not end in whitespace. */
  lemma {:induction false} StripRightOnlySpaces(s: string)
    ensures var r := StripRight(s); (r == [] || !IsSpace(r[|r| - 1])) && r <= s
    ensures forall i :: |StripRight(s)| <= i < |s| ==> IsSpace(s[i])
    decreases |s|
  {
    if s != [] && IsSpace(s[|s| - 1]) {
      StripRightOnlySpaces(s[..|s| - 1]);
    }
  }

  /** A string holding a character that is neither whitespace, a sign nor a
      digit is not a number: `int("name=x")` raises. */
  lemma ParseIntRejects(s: string, k: nat)
    requires k < |s| && !IsSpace(s[k]) && !IsDigit(s[k]) && s[k] != '-' && s[k] != '+'
    ensures ParseInt(s) == None
  {
    var l := StripLeft(s);
    var t := StripRight(l);
    StripLeftOnlySpaces(s);
    StripRightOnlySpaces(l);
    var j := k - (|s| - |l|);
    assert 0 <= j < |l| && l[j] == s[k];
    assert j < |t| && t[j] == s[k];
    NumberRejects(t, j);
  }

  lemma NumberRejects(t: string, j: nat)
    requires j < |t| && !IsSpace(t[j]) && !IsDigit(t[j]) && t[j] != '-' && t[j] != '+'
    ensures ParseNumber(t) == None
  {
    if t[0] == '-' || t[0] == '+' {
      assert t[1..][j - 1] == t[j];
      UnsignedRejects(t[1..], j - 1);
    } else {
      assert !AllDigits(t);
    }
  }

  lemma {:induction false} UnsignedRejects(u: string, j: nat)
    requires j < |u| && !IsSpace(u[j]) && !IsDigit(u[j])
    ensures Unsigned(u) == None
    decreases |u|
  {
    if IsSpace(u[0]) {
      assert u[1..][j - 1] == u[j];
      UnsignedRejects(u[1..], j - 1);
    } else {
      assert !AllDigits(u);
    }
  }

  lemma {:induction false} DigitsOfNat(n: nat)
    ensures DigitsValue(NatToString(n)) == n
    decreases n
  {
    var s := NatToString(n);
    if n >= 10 {
      DigitsOfNat(n / 10);
      assert s[..|s| - 1] == NatToString(n / 10);
    }
  }

  lemma StripUnchanged(s: string)
    requires s != [] && !IsSpace(s[0]) && !IsSpace(s[|s| - 1])
    ensures StripRight(StripLeft(s)) == s
  {
  }

  lemma ParseDigits(d: string)
    requires |d| >= 1 && AllDigits(d)
    ensures ParseInt(d) == Some(DigitsValue(d))
  {
    assert IsDigit(d[0]) && IsDigit(d[|d| - 1]);
    StripUnchanged(d);
  }

  lemma ParseNegatedDigits(s: string, d: string, m: nat)
    requires |d| >= 1 && AllDigits(d) && Unsigned(d) == Some(m)
    requires |s| >= 2 && s[0] == '-' && s[1..] == d
    ensures ParseInt(s) == Some(-(m as int))
  {
    assert IsDigit(d[|d| - 1]) && s[|s| - 1] == d[|d| - 1];
    ParseTrimmed(s);
    SignedNumber(s, m);
  }

  lemma UnsignedOfNat(m: nat)
    ensures Unsigned(NatToString(m)) == Some(m)
  {
    var d := NatToString(m);
    assert IsDigit(d[0]);
    DigitsOfNat(m);
  }

  lemma ParseTrimmed(s: string)
    requires s != [] && !IsSpace(s[0]) && !IsSpace(s[|s| - 1])
    ensures ParseInt(s) == ParseNumber(s)
  {
    StripUnchanged(s);
  }

  lemma SignedNumber(t: string, v: nat)
    requires |t| >= 1 && (t[0] == '-' || t[0] == '+') && Unsigned(t[1..]) == Some(v)
    ensures ParseNumber(t) == Some(if t[0] == '-' then -(v as int) else v)
  {
  }

  /** Whitespace, then digits. */
  lemma {:induction false} UnsignedSpaces(sp: string, d: string)
    requires forall i :: 0 <= i < |sp| ==> IsSpace(sp[i])
    requires |d| >= 1 && AllDigits(d)
    ensures Unsigned(sp + d) == Some(DigitsValue(d))
    decreases |sp|
  {
    if sp == [] {
      assert sp + d == d;
      assert IsDigit(d[0]);
    } else {
      assert (sp + d)[0] == sp[0] && (sp + d)[1..] == sp[1..] + d;
      UnsignedSpaces(sp[1..], d);
    }
  }

  /** Whitespace between the sign and the digits is skipped:
      `int("- 5") == -5` and `int("+ 5") == 5`. */
  lemma {:induction false} SpaceAfterSign(sign: char, sp: string, d: string)
    requires sign == '-' || sign == '+'
    requires forall i :: 0 <= i < |sp| ==> IsSpace(sp[i])
    requires |d| >= 1 && AllDigits(d)
    ensures ParseInt([sign] + sp + d) == Some(if sign == '-' then -(DigitsValue(d) as int) else DigitsValue(d))
  {
    var u := sp + d;
    var v := DigitsValue(d);
    assert Unsigned(u) == Some(v) by {
      UnsignedSpaces(sp, d);
    }
    assert u[|u| - 1] == d[|d| - 1];
    SignedOf(sign, sp, d, u, v);
  }

  /** A sign, then what `Unsigned` reads as `v`, ending in a digit. */
  lemma SignedOf(sign: char, sp: string, d: string, u: string, v: nat)
    requires u == sp + d
    requires (sign == '-' || sign == '+') && u != [] && IsDigit(u[|u| - 1]) && Unsigned(u) == Some(v)
    ensures ParseInt([sign] + sp + d) == Some(if sign == '-' then -(v as int) else v)
  {
    var s := [sign] + u;
    assert s == [sign] + sp + d;
    assert s[0] == sign && s[1..] == u && s[|s| - 1] == u[|u| - 1];
    ParseTrimmed(s);
    SignedNumber(s, v);
  }

  /** `int(str(n)) == n`: the decimal rendering parses back to the same integer. */
  lemma {:induction false} ParseIntOfIntToString(n: int)
    ensures ParseInt(IntToString(n)) == Some(n)
  {
    if n < 0 {
      ParseNegative(n);
    } else {
      var d := NatToString(n);
      ParseDigits(d);
      DigitsOfNat(n);
    }
  }

  lemma ParseNegative(n: int)
    requires n < 0
    ensures ParseInt(IntToString(n)) == Some(n)
  {
    var d := NatToString(-n);
    var s := IntToString(n);
    assert s == "-" + d;
    assert s[1..] == d;
    UnsignedOfNat(-n);
    ParseNegatedDigits(s, d, -n);
  }

  /** A leading zero does not change the number: `int("0" + s) == int(s)`
      for a digit string `s`. */
  lemma {:induction false} LeadingZeroIgnored(s: string)
    requires AllDigits(s)
    ensures AllDigits("0" + s) && DigitsValue("0" + s) == DigitsValue(s)
    decreases |s|
  {
    if s != [] {
      var z := "0" + s;
      assert z[..|z| - 1] == "0" + s[..|s| - 1];
      LeadingZeroIgnored(s[..|s| - 1]);
    }
  }

  /** Python's `s.split(sep)` for a one-character separator. */
  function Split(s: string, sep: char): (r: seq<string>)
    ensures |r| >= 1
    ensures forall i :: 0 <= i < |r| ==> sep !in r[i]
    decreases |s|
  {
    if s == [] then [""]
    else
      var rest := Split(s[1..], sep);
      if s[0] == sep then [""] + rest else [[s[0]] + rest[0]] + rest[1..]
  }

  /** Python's `sep.join(pieces)` for a one-character separator. */
  function Join(pieces: seq<string>, sep: char): string
    decreases |pieces|
  {
    if |pieces| == 0 then ""
    else if |pieces| == 1 then pieces[0]
    else pieces[0] + [sep] + Join(pieces[1..], sep)
  }

  /** Joining the pieces of a split gives back the original string. */
  lemma {:induction false} JoinSplit(s: string, sep: char)
    ensures Join(Split(s, sep), sep) == s
    decreases |s|
  {
    if s != [] {
      JoinSplit(s[1..], sep);
      var rest := Split(s[1..], sep);
      if s[0] != sep && |rest| > 1 {
        assert Split(s, sep)[1..] == rest[1..];
      }
    }
  }

  lemma {:induction false} SplitPieceThenRest(a: string, b: string, sep: char)
    requires sep !in a
    ensures Split(a + [sep] + b, sep) == [a] + Split(b, sep)
    decreases |a|
  {
    if a == [] {
      assert (a + [sep] + b)[1..] == b;
    } else {
      assert (a + [sep] + b)[1..] == a[1..] + [sep] + b;
      SplitPieceThenRest(a[1..], b, sep);
      assert [a[0]] + a[1..] == a;
    }
  }

  lemma {:induction false} SplitWithoutSeparator(a: string, sep: char)
    requires sep !in a
    ensures Split(a, sep) == [a]
    decreases |a|
  {
    if a != [] {
      SplitWithoutSeparator(a[1..], sep);
      assert [a[0]] + a[1..] == a;
    }
  }

  /** Splitting a join of separator-free pieces gives back the pieces. */
  lemma {:induction false} SplitJoin(pieces: seq<string>, sep: char)
    requires |pieces| >= 1
    requires forall i :: 0 <= i < |pieces| ==> sep !in pieces[i]
    ensures Split(Join(pieces, sep), sep) == pieces
    decreases |pieces|
  {
    if |pieces| == 1 {
      SplitWithoutSeparator(pieces[0], sep);
    } else {
      SplitJoin(pieces[1..], sep);
      SplitPieceThenRest(pieces[0], Join(pieces[1..], sep), sep);
    }
  }

  /** Joining one more piece appends the separator and that piece. */
  lemma {:induction false} JoinAppend(pieces: seq<string>, last: string, sep: char)
    requires |pieces| >= 1
    ensures Join(pieces + [last], sep) == Join(pieces, sep) + [sep] + last
    decreases |pieces|
  {
    if |pieces| > 1 {
      assert (pieces + [last])[1..] == pieces[1..] + [last];
      JoinAppend(pieces[1..], last, sep);
    }
  }

  /** Python's `s.rstrip(c)`: the longest prefix of `s` that does not end in `c`. */
  function RStrip(s: string, c: char): (r: string)
    ensures r <= s
    ensures r == [] || r[|r| - 1] != c
    ensures forall i :: |r| <= i < |s| ==> s[i] == c
    decreases |s|
  {
    if s != [] && s[|s| - 1] == c then RStrip(s[..|s| - 1], c) else s
  }

  /** Stripping twice strips nothing more. */
  lemma RStripIdempotent(s: string, c: char)
    ensures RStrip(RStrip(s, c), c) == RStrip(s, c)
  {
  }

  /** Any number of trailing `c` is stripped like none. */
  lemma {:induction false} RStripPadding(s: string, c: char, n: nat)
    ensures RStrip(s + seq(n, _ => c), c) == RStrip(s, c)
  {
    var t := s + seq(n, _ => c);
    if n == 0 {
      assert t == s;
    } else {
      assert t[|t| - 1] == c;
      assert t[..|t| - 1] == s + seq(n - 1, _ => c);
      RStripPadding(s, c, n - 1);
    }
  }

  function UpperChar(c: char): char {
    if 'a' <= c <= 'z' then (c as int - 32) as char else c
  }

  /** Python 2's `str.upper()` on ASCII text. */
  function Upper(s: string): (r: string)
    ensures |r| == |s|
  {
    seq(|s|, i requires 0 <= i < |s| => UpperChar(s[i]))
  }
}
