/**
 * The PHP and WordPress string builtins the download handlers rely on:
 * trim/ltrim/rtrim with a character list, strpos, empty() on a string,
 * trailingslashit, the (int) cast of a string, sprintf's %d and basename.
 */
module PhpStrings {
  import opened Wrappers

  /** The character list '/\\' given to trim and to untrailingslashit: slash and backslash. */
  const Separators: set<char> := {'/', '\\'}

  /** The characters PHP skips before the digits of a numeric string. */
  const Whitespace: set<char> := {' ', '\t', '\n', '\r', '\U{B}', '\U{C}'}

  /** ltrim($s, $chars): drop the longest prefix made of characters of cs. */
  function LTrim(s: string, cs: set<char>): (r: string)
    ensures |r| <= |s| && r == s[|s| - |r|..]
    ensures forall i :: 0 <= i < |s| - |r| ==> s[i] in cs
    ensures r == [] || r[0] !in cs
  {
    if |s| > 0 && s[0] in cs then
      var r := LTrim(s[1..], cs);
      assert s[1..][|s| - 1 - |r|..] == s[|s| - |r|..];
      assert forall i :: 1 <= i < |s| - |r| ==> s[i] == s[1..][i - 1];
      r
    else
      s
  }

  /** rtrim($s, $chars): drop the longest suffix made of characters of cs. */
  function RTrim(s: string, cs: set<char>): (r: string)
    ensures |r| <= |s| && r == s[..|r|]
    ensures forall i :: |r| <= i < |s| ==> s[i] in cs
    ensures r == [] || r[|r| - 1] !in cs
  {
    if |s| > 0 && s[|s| - 1] in cs then
      var r := RTrim(s[..|s| - 1], cs);
      assert s[..|s| - 1][..|r|] == s[..|r|];
      r
    else
      s
  }

  /** Where the text kept by trim($s, $chars) starts in s. */
  function TrimStart(s: string, cs: set<char>): nat
  {
    |s| - |LTrim(s, cs)|
  }

  /** trim($s, $chars): drop the characters of cs from both ends. */
  function Trim(s: string, cs: set<char>): (r: string)
    ensures |r| <= |s|
    ensures r == [] || (r[0] !in cs && r[|r| - 1] !in cs)
  {
    RTrim(LTrim(s, cs), cs)
  }

  /**
   * What trim keeps is the infix of s that starts at TrimStart; everything
   * outside it is in cs.
   */
  lemma TrimIsInfix(s: string, cs: set<char>)
    ensures var k := TrimStart(s, cs); var r := Trim(s, cs);
      && k + |r| <= |s| && r == s[k..k + |r|]
      && (forall i :: 0 <= i < k ==> s[i] in cs)
      && (forall i :: k + |r| <= i < |s| ==> s[i] in cs)
  {
    var l := LTrim(s, cs);
    var k := |s| - |l|;
    var r := RTrim(l, cs);
    assert l == s[k..] && r == l[..|r|];
    assert r == s[k..][..|r|];
    assert s[k..][..|r|] == s[k..k + |r|];
    forall i | k + |r| <= i < |s|
      ensures s[i] in cs
    {
      assert s[i] == l[i - k];
    }
  }

  /** PHP's empty() on a string: true for "" and for "0". */
  predicate Empty(s: string)
  {
    s == "" || s == "0"
  }

  /** needle occurs in s starting at index i. */
  predicate OccursAt(s: string, needle: string, i: int)
  {
    0 <= i && i + |needle| <= |s| && s[i..i + |needle|] == needle
  }

  /** strpos($s, $needle): the first index at which needle occurs, None for PHP's false. */
  function StrPos(s: string, needle: string): (r: Option<nat>)
    ensures r.Some? ==> OccursAt(s, needle, r.value)
    ensures r.Some? ==> forall i :: 0 <= i < r.value ==> !OccursAt(s, needle, i)
    ensures r.None? ==> forall i :: !OccursAt(s, needle, i)
    decreases |s|
  {
    if |needle| > |s| then
      None
    else if s[..|needle|] == needle then
      Some(0)
    else
      OccursShift(s, needle);
      match StrPos(s[1..], needle)
      case Some(k) => Some(k + 1)
      case None => None
  }

  /** An occurrence at i > 0 in s is an occurrence at i - 1 in s[1..]. */
  lemma OccursShift(s: string, needle: string)
    requires |s| > 0
    ensures forall i :: 1 <= i ==> (OccursAt(s, needle, i) <==> OccursAt(s[1..], needle, i - 1))
  {
    forall i | 1 <= i
      ensures OccursAt(s, needle, i) <==> OccursAt(s[1..], needle, i - 1)
    {
      if i + |needle| <= |s| {
        OccursInfix(s, 1, |s| - 1, needle, i);
        assert s[1..1 + |s| - 1] == s[1..];
      }
    }
  }

  /** Inside the infix s[k..k + len], occurrences are those of s shifted by k. */
  lemma OccursInfix(s: string, k: nat, len: nat, needle: string, i: int)
    requires k + len <= |s| && k <= i
    requires i + |needle| <= k + len
    ensures OccursAt(s, needle, i) <==> OccursAt(s[k..k + len], needle, i - k)
  {
    var a := s[k..k + len][i - k..i - k + |needle|];
    var b := s[i..i + |needle|];
    forall t | 0 <= t < |a|
      ensures a[t] == b[t]
    {
    }
    assert a == b;
  }

  /** strpos($s, $needle) !== false. */
  predicate Contains(s: string, needle: string)
  {
    StrPos(s, needle).Some?
  }

  /**
   * trailingslashit($s), that is rtrim($s, '/\\') . '/': the result ends in
   * exactly one '/', keeps a prefix of s in front of it, and only separators of
   * s were dropped.
   */
  function TrailingSlashIt(s: string): (r: string)
    ensures |r| > 0 && r[|r| - 1] == '/'
    ensures |r| == 1 || r[|r| - 2] !in Separators
    ensures |r| - 1 <= |s| && r[..|r| - 1] == s[..|r| - 1]
    ensures forall i :: |r| - 1 <= i < |s| ==> s[i] in Separators
  {
    RTrim(s, Separators) + "/"
  }

  /** A decimal digit. */
  predicate IsDigit(c: char)
  {
    '0' <= c <= '9'
  }

  /** The longest prefix of s made of decimal digits. */
  function DigitPrefix(s: string): (r: string)
    ensures |r| <= |s| && r == s[..|r|]
    ensures forall i :: 0 <= i < |r| ==> IsDigit(r[i])
    ensures |r| == |s| || !IsDigit(s[|r|])
  {
    if |s| > 0 && IsDigit(s[0]) then
      var t := DigitPrefix(s[1..]);
      assert forall i :: 1 <= i <= |t| ==> s[i] == s[1..][i - 1];
      [s[0]] + t
    else
      []
  }

  /** The value of a string of decimal digits, read left to right. */
  function DigitsValue(ds: string): nat
    requires forall i :: 0 <= i < |ds| ==> IsDigit(ds[i])
  {
    if ds == [] then 0
    else
      assert IsDigit(ds[|ds| - 1]);
      DigitsValue(ds[..|ds| - 1]) * 10 + (ds[|ds| - 1] as int - '0' as int)
  }

  /**
   * (int) $s for a string: skip leading whitespace, read an optional sign and
   * the decimal digits that follow; no digits gives 0.
   */
  function IntCast(s: string): int
  {
    var t := LTrim(s, Whitespace);
    if |t| > 0 && t[0] == '-' then 0 - DigitsValue(DigitPrefix(t[1..]))
    else if |t| > 0 && t[0] == '+' then DigitsValue(DigitPrefix(t[1..]))
    else DigitsValue(DigitPrefix(t))
  }

  /** The digit character for 0 <= d < 10. */
  function DigitChar(d: nat): (c: char)
    requires d < 10
    ensures IsDigit(c) && c as int - '0' as int == d
  {
    ('0' as int + d) as char
  }

  /** The decimal digits of n, without leading zeros. */
  function NatString(n: nat): (r: string)
    ensures |r| > 0 && forall i :: 0 <= i < |r| ==> IsDigit(r[i])
    ensures |r| > 1 ==> r[0] != '0'
  {
    if n < 10 then [DigitChar(n)] else NatString(n / 10) + [DigitChar(n % 10)]
  }

  /** sprintf('%d', $n). */
  function DecimalString(n: int): (r: string)
    ensures |r| > 0 && (IsDigit(r[0]) || r[0] == '-')
    ensures r[0] == '-' <==> n < 0
    ensures var ds := if n < 0 then r[1..] else r;
      && |ds| > 0 && (forall i :: 0 <= i < |ds| ==> IsDigit(ds[i]))
      && (|ds| > 1 ==> ds[0] != '0')
  {
    if n < 0 then "-" + NatString(-n) else NatString(n)
  }

  /** Reading back the digits of n gives n. */
  lemma {:induction false} DigitsValueNatString(n: nat)
    ensures DigitsValue(NatString(n)) == n
  {
    if n >= 10 {
      var s := NatString(n);
      assert s[..|s| - 1] == NatString(n / 10);
      DigitsValueNatString(n / 10);
    }
  }

  /** A string of digits is its own digit prefix. */
  lemma {:induction false} DigitPrefixOfDigits(s: string)
    requires forall i :: 0 <= i < |s| ==> IsDigit(s[i])
    ensures DigitPrefix(s) == s
  {
    if |s| > 0 {
      DigitPrefixOfDigits(s[1..]);
    }
  }

  /** The (int) cast reads back what %d printed: the status code in a message is the code. */
  lemma IntCastDecimalString(n: int)
    ensures IntCast(DecimalString(n)) == n
  {
    var s := DecimalString(n);
    assert s[0] !in Whitespace;
    assert LTrim(s, Whitespace) == s;
    if n < 0 {
      assert s[1..] == NatString(-n);
      DigitPrefixOfDigits(NatString(-n));
      DigitsValueNatString(-n);
    } else {
      DigitPrefixOfDigits(s);
      DigitsValueNatString(n);
    }
  }

  /** Normalising a directory a second time leaves it as it is. */
  lemma TrailingSlashItIdempotent(s: string)
    ensures TrailingSlashIt(TrailingSlashIt(s)) == TrailingSlashIt(s)
  {
    var t := RTrim(s, Separators);
    var u := t + "/";
    assert u[..|u| - 1] == t;
    assert RTrim(u, Separators) == RTrim(t, Separators);
  }

  /**
   * Trimming separators cannot create or hide a "..": the dots are not
   * separators, so every occurrence lies inside the kept text.
   */
  lemma TrimKeepsDotDot(s: string)
    ensures Contains(Trim(s, Separators), "..") <==> Contains(s, "..")
  {
    TrimIsInfix(s, Separators);
    if Contains(s, "..") {
      DotDotSurvivesTrim(s, StrPos(s, "..").value);
    }
    var r := Trim(s, Separators);
    if Contains(r, "..") {
      var k := TrimStart(s, Separators);
      var j := StrPos(r, "..").value;
      OccursInfix(s, k, |r|, "..", k + j);
    }
  }

  /** An occurrence of ".." in s at i is still there after trimming separators. */
  lemma DotDotSurvivesTrim(s: string, i: int)
    requires OccursAt(s, "..", i)
    ensures Contains(Trim(s, Separators), "..")
  {
    var k := TrimStart(s, Separators);
    var r := Trim(s, Separators);
    TrimIsInfix(s, Separators);
    assert s[i] == '.' && s[i + 1] == '.' by {
      assert s[i..i + 2][0] == s[i] && s[i..i + 2][1] == s[i + 1];
    }
    assert '.' !in Separators;
    assert k <= i;
    assert i + 2 <= k + |r|;
    OccursInfix(s, k, |r|, "..", i);
    assert OccursAt(r, "..", i - k);
  }

  /** The index of the last '/' in t[..n], or -1 when there is none. */
  function LastSlash(t: string, n: nat): (k: int)
    requires n <= |t|
    ensures -1 <= k < n
    ensures k >= 0 ==> t[k] == '/'
    ensures forall i :: k < i < n ==> t[i] != '/'
  {
    if n == 0 then -1 else if t[n - 1] == '/' then n - 1 else LastSlash(t, n - 1)
  }

  /**
   * basename($s) on a POSIX host: the last run of characters other than '/',
   * trailing slashes ignored.
   */
  function Basename(s: string): string
  {
    var t := RTrim(s, {'/'});
    t[LastSlash(t, |t|) + 1..]
  }

  /**
   * What basename keeps: a '/'-free suffix of s with its trailing slashes
   * dropped, preceded by a '/' or by nothing; everything after it is '/'.
   */
  lemma BasenameIsLastSegment(s: string)
    ensures var r := Basename(s); var t := RTrim(s, {'/'});
      && '/' !in r
      && |r| <= |t| && r == t[|t| - |r|..]
      && (|r| < |t| ==> t[|t| - |r| - 1] == '/')
      && t == s[..|t|] && (forall i :: |t| <= i < |s| ==> s[i] == '/')
  {
    var t := RTrim(s, {'/'});
    var k := LastSlash(t, |t|);
    var r := Basename(s);
    assert r == t[k + 1..];
    forall i | 0 <= i < |r| ensures r[i] != '/' {
      assert r[i] == t[k + 1 + i];
    }
  }
}
