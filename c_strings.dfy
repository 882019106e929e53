/**
 * The C library string routines the web client relies on: `strchr`, the first
 * token of `strtok`, `atoi`, and the decimal formatting of `%i` in `sprintf`.
 * Strings are NUL-free `seq<char>`; integers are unbounded, so `atoi`'s
 * behaviour on overflow is not modelled.
 */
module CStrings {
  import opened Wrappers

  /** `strchr`: the index of the first occurrence of `c` in `s`, if any. */
  function FindChar(s: string, c: char): (r: Option<nat>)
    ensures r.Some? ==> r.value < |s| && s[r.value] == c
    ensures r.Some? ==> forall k :: 0 <= k < r.value ==> s[k] != c
    ensures r.None? ==> forall k :: 0 <= k < |s| ==> s[k] != c
  {
    if s == [] then None
    else if s[0] == c then Some(0)
    else match FindChar(s[1..], c)
      case None => None
      case Some(i) => Some(i + 1)
  }

  /** FindChar finds exactly the first occurrence. */
  lemma FindCharFirst(s: string, c: char, i: nat)
    requires i < |s| && s[i] == c
    requires forall k :: 0 <= k < i ==> s[k] != c
    ensures FindChar(s, c) == Some(i)
  {
  }

  /** The number of leading `d` characters of `s`. */
  function LeadingCount(s: string, d: char): (n: nat)
    ensures n <= |s|
    ensures forall k :: 0 <= k < n ==> s[k] == d
    ensures n == |s| || s[n] != d
  {
    if s != [] && s[0] == d then
      var m := LeadingCount(s[1..], d);
      assert forall k :: 1 <= k < m + 1 ==> s[k] == s[1..][k - 1];
      m + 1
    else 0
  }

  /** The first token `strtok(s, delim)` returns: the first maximal run of
      non-delimiter characters, or None when there is none (a NULL result). */
  function FirstToken(s: string, d: char): (r: Option<string>)
    ensures r.None? <==> forall k :: 0 <= k < |s| ==> s[k] == d
    ensures r.Some? ==> r.value != [] && forall k :: 0 <= k < |r.value| ==> r.value[k] != d
    ensures r.Some? ==> exists i :: TokenAt(s, d, i, r.value)
  {
    var n := LeadingCount(s, d);
    if n == |s| then None
    else match FindChar(s[n..], d)
      case None =>
        assert TokenAt(s, d, n, s[n..]);
        Some(s[n..])
      case Some(i) =>
        assert i > 0 by { assert s[n..][0] == s[n]; }
        assert s[n..][..i] == s[n..n + i];
        assert TokenAt(s, d, n, s[n..n + i]);
        Some(s[n..n + i])
  }

  /** `token` starts at `i` in `s`, only delimiters come before it, and it
      ends at the end of `s` or at a delimiter. */
  predicate TokenAt(s: string, d: char, i: nat, token: string)
  {
    i + |token| <= |s| &&
    (forall k :: 0 <= k < i ==> s[k] == d) &&
    s[i..i + |token|] == token &&
    (i + |token| == |s| || s[i + |token|] == d)
  }

  /** The first token is the text before the first delimiter once the leading
      delimiters are skipped; a string of delimiters only has no token. */
  lemma FirstTokenExamples()
    ensures FirstToken(";;ab;c", ';') == Some("ab")
    ensures FirstToken(";;", ';') == None
  {
    var s := ";;ab;c";
    assert LeadingCount(s, ';') == 2 by { assert s[2] != ';'; }
    assert s[2..] == "ab;c";
    assert FindChar("ab;c", ';') == Some(2) by { FindCharFirst("ab;c", ';', 2); }
    assert s[2..4] == "ab";
  }

  predicate IsDigit(c: char)
  {
    '0' <= c <= '9'
  }

  /** The characters `isspace` accepts: space, tab, newline, vertical tab, form feed, carriage return. */
  predicate IsSpace(c: char)
  {
    c == ' ' || '\t' <= c <= '\r'
  }

  function SkipSpaces(s: string): (t: string)
    ensures |t| <= |s|
    ensures t == [] || !IsSpace(t[0])
  {
    if s != [] && IsSpace(s[0]) then SkipSpaces(s[1..]) else s
  }

  /** The longest prefix of `s` made of decimal digits. */
  function LeadingDigits(s: string): (d: string)
    ensures |d| <= |s| && d == s[..|d|]
    ensures forall k :: 0 <= k < |d| ==> IsDigit(d[k])
    ensures |d| == |s| || !IsDigit(s[|d|])
  {
    if s != [] && IsDigit(s[0]) then [s[0]] + LeadingDigits(s[1..]) else []
  }

  /** The value of a string of decimal digits, most significant first. */
  function DigitsValue(d: string): nat
    requires forall k :: 0 <= k < |d| ==> IsDigit(d[k])
  {
    if d == [] then 0
    else
      assert IsDigit(d[|d| - 1]);
      10 * DigitsValue(d[..|d| - 1]) + (d[|d| - 1] as int - '0' as int)
  }

  /** `atoi`: optional white space, an optional sign, then the longest run of
      digits; 0 when there are no digits. */
  function Atoi(s: string): (n: int)
    ensures s == [] ==> n == 0
    ensures s != [] && IsDigit(s[0]) ==> n >= 0
    ensures s != [] && !IsSpace(s[0]) && !IsDigit(s[0]) && s[0] != '-' && s[0] != '+' ==> n == 0
  {
    var t := SkipSpaces(s);
    if t != [] && t[0] == '-' then -(DigitsValue(LeadingDigits(t[1..])) as int)
    else if t != [] && t[0] == '+' then DigitsValue(LeadingDigits(t[1..]))
    else DigitsValue(LeadingDigits(t))
  }

  function DigitChar(d: nat): (c: char)
    requires d < 10
    ensures IsDigit(c)
  {
    ('0' as int + d) as char
  }

  /** The decimal digits of a natural number, without leading zeros. */
  function FormatNat(n: nat): (s: string)
    ensures s != [] && forall k :: 0 <= k < |s| ==> IsDigit(s[k])
    ensures |s| == 1 || s[0] != '0'
    ensures n == 0 <==> s == "0"
  {
    if n < 10 then [DigitChar(n)] else FormatNat(n / 10) + [DigitChar(n % 10)]
  }

  /** `%i`: a minus sign for negative numbers, then the digits of the magnitude. */
  function FormatInt(n: int): (s: string)
    ensures s != [] && (IsDigit(s[0]) || s[0] == '-')
    ensures s[0] == '-' <==> n < 0
  {
    if n < 0 then "-" + FormatNat(-n) else FormatNat(n)
  }

  lemma {:induction false} DigitsValueOfFormatNat(n: nat)
    ensures DigitsValue(FormatNat(n)) == n
  {
    if n >= 10 {
      var s := FormatNat(n);
      assert s[..|s| - 1] == FormatNat(n / 10);
      DigitsValueOfFormatNat(n / 10);
    }
  }

  /** The leading digits of a digit string followed by a non-digit are that digit string. */
  lemma {:induction false} LeadingDigitsOfDigitsThenOther(d: string, rest: string)
    requires forall k :: 0 <= k < |d| ==> IsDigit(d[k])
    requires rest == [] || !IsDigit(rest[0])
    ensures LeadingDigits(d + rest) == d
  {
    if d != [] {
      assert (d + rest)[1..] == d[1..] + rest;
      LeadingDigitsOfDigitsThenOther(d[1..], rest);
    }
  }

  /** `atoi` reads back what `%i` wrote, whatever non-digit text follows it. */
  lemma AtoiOfFormatInt(n: int, rest: string)
    requires rest == [] || !IsDigit(rest[0])
    ensures Atoi(FormatInt(n) + rest) == n
  {
    var s := FormatInt(n) + rest;
    assert SkipSpaces(s) == s;
    if n < 0 {
      var m: nat := -n;
      assert s == "-" + (FormatNat(m) + rest);
      assert s[1..] == FormatNat(m) + rest;
      LeadingDigitsOfDigitsThenOther(FormatNat(m), rest);
      DigitsValueOfFormatNat(m);
    } else {
      assert s == FormatNat(n) + rest;
      LeadingDigitsOfDigitsThenOther(FormatNat(n), rest);
      DigitsValueOfFormatNat(n);
    }
  }

  /** `%i` never gives two numbers the same text. */
  lemma FormatIntInjective(a: int, b: int)
    ensures FormatInt(a) == FormatInt(b) ==> a == b
  {
    AtoiOfFormatInt(a, "");
    AtoiOfFormatInt(b, "");
    assert FormatInt(a) + "" == FormatInt(a) && FormatInt(b) + "" == FormatInt(b);
  }
}
