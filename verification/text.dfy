/**
 * The string operations the backend relies on, with Java's behaviour written out:
 * ASCII upper-casing, prefix tests, `String.trim`, decimal formatting of an index,
 * splitting an environment entry at its first `=` and taking the last path segment.
 */
module Text {

  /** Java's `Character` test for an ASCII lower-case letter. */
  predicate IsLowerAscii(c: char)
  {
    'a' <= c <= 'z'
  }

  /** Upper-cases one ASCII letter; every other character is kept. */
  function UpperChar(c: char): (u: char)
    ensures !IsLowerAscii(u)
    ensures !IsLowerAscii(c) ==> u == c
  {
    if IsLowerAscii(c) then (c as int - 32) as char else c
  }

  /** A string without ASCII lower-case letters. */
  predicate IsUpper(s: string)
  {
    forall i :: 0 <= i < |s| ==> !IsLowerAscii(s[i])
  }

  /** `String.toUpperCase` restricted to ASCII: upper-cases character by character. */
  function Upper(s: string): (r: string)
    ensures |r| == |s|
  {
    seq(|s|, i requires 0 <= i < |s| => UpperChar(s[i]))
  }

  /** Upper-casing leaves an upper-case string as it is and distributes over concatenation. */
  lemma UpperOfUpper(s: string)
    requires IsUpper(s)
    ensures Upper(s) == s
  {
  }

  lemma UpperIsUpper(s: string)
    ensures IsUpper(Upper(s))
  {
  }

  lemma UpperConcat(a: string, b: string)
    ensures Upper(a + b) == Upper(a) + Upper(b)
  {
    assert forall i :: 0 <= i < |a + b| ==> Upper(a + b)[i] == (Upper(a) + Upper(b))[i];
  }

  /** `String.startsWith`. */
  predicate HasPrefix(s: string, p: string)
  {
    |p| <= |s| && s[..|p|] == p
  }

  /** Java's `String.trim`: removes every leading and trailing character at or below U+0020. */
  function TrimStart(s: string): (r: string)
    ensures |r| <= |s| && r == s[|s| - |r|..]
    ensures r != [] ==> r[0] > ' '
    ensures forall i :: 0 <= i < |s| - |r| ==> s[i] <= ' '
  {
    if s != [] && s[0] <= ' ' then TrimStart(s[1..]) else s
  }

  function TrimEnd(s: string): (r: string)
    ensures |r| <= |s| && r == s[..|r|]
    ensures r != [] ==> r[|r| - 1] > ' '
    ensures forall i :: |r| <= i < |s| ==> s[i] <= ' '
  {
    if s != [] && s[|s| - 1] <= ' ' then TrimEnd(s[..|s| - 1]) else s
  }

  function Trim(s: string): string
  {
    TrimEnd(TrimStart(s))
  }

  /** A string that is empty or holds only characters at or below U+0020. */
  predicate IsBlank(s: string)
  {
    forall i :: 0 <= i < |s| ==> s[i] <= ' '
  }

  /** `s.trim().isEmpty()` holds exactly for the blank strings. */
  lemma TrimEmptyIffBlank(s: string)
    ensures Trim(s) == [] <==> IsBlank(s)
  {
    var t := TrimStart(s);
    if Trim(s) != [] {
      var r := Trim(s);
      assert r[0] == t[0];
      assert t[0] == s[|s| - |t|];
    }
  }

  /** The decimal digit of `d`. */
  function DigitChar(d: nat): (c: char)
    requires d < 10
    ensures '0' <= c <= '9'
  {
    ('0' as int + d) as char
  }

  predicate IsDigits(s: string)
  {
    forall i :: 0 <= i < |s| ==> '0' <= s[i] <= '9'
  }

  /** `String.format("%d", n)` for a non-negative `n`: decimal digits without leading zeros. */
  function Decimal(n: nat): (s: string)
    ensures |s| >= 1 && IsDigits(s)
  {
    if n < 10 then [DigitChar(n)] else Decimal(n / 10) + [DigitChar(n % 10)]
  }

  /** The number a string of decimal digits denotes. */
  function DecimalValue(s: string): nat
    requires IsDigits(s)
  {
    if s == [] then 0 else DecimalValue(s[..|s| - 1]) * 10 + (s[|s| - 1] as int - '0' as int)
  }

  /** Reading back a formatted number gives the number. */
  lemma {:induction false} DecimalRoundTrip(n: nat)
    ensures DecimalValue(Decimal(n)) == n
  {
    if n >= 10 {
      var s := Decimal(n);
      assert s[..|s| - 1] == Decimal(n / 10);
      DecimalRoundTrip(n / 10);
    }
  }

  /** Different numbers are formatted differently. */
  lemma DecimalInjective(m: nat, n: nat)
    requires Decimal(m) == Decimal(n)
    ensures m == n
  {
    DecimalRoundTrip(m);
    DecimalRoundTrip(n);
  }

  /** Splits `NAME=value` at its first `=`; an entry without `=` is all name. */
  function SplitEnvEntry(e: string): (r: (string, string))
    ensures '=' !in r.0
  {
    if e == [] then ([], [])
    else if e[0] == '=' then ([], e[1..])
    else var rest := SplitEnvEntry(e[1..]); ([e[0]] + rest.0, rest.1)
  }

  /** An entry written as `name + "=" + value` splits back into `name` and `value`
      whenever the name holds no `=`, whatever the value holds. */
  lemma {:induction false} SplitEnvEntryRoundTrip(name: string, value: string)
    requires '=' !in name
    ensures SplitEnvEntry(name + "=" + value) == (name, value)
  {
    if name == [] {
      assert name + "=" + value == ['='] + value;
    } else {
      var e := name + "=" + value;
      assert e[0] == name[0] && e[0] != '=';
      assert e[1..] == name[1..] + "=" + value;
      SplitEnvEntryRoundTrip(name[1..], value);
      assert [name[0]] + name[1..] == name;
    }
  }

  /** The text after the last `/` of a path (the whole string when it has none). */
  function LastSegment(s: string): (r: string)
    ensures '/' !in r
    ensures |r| <= |s| && r == s[|s| - |r|..]
  {
    if s == [] then []
    else if s[|s| - 1] == '/' then []
    else LastSegment(s[..|s| - 1]) + [s[|s| - 1]]
  }

  /** A segment appended after a `/` is the last segment of the result. */
  lemma {:induction false} LastSegmentAfterSlash(p: string, seg: string)
    requires '/' !in seg
    ensures LastSegment(p + "/" + seg) == seg
  {
    if seg != [] {
      var s := p + "/" + seg;
      assert s[..|s| - 1] == p + "/" + seg[..|seg| - 1];
      LastSegmentAfterSlash(p, seg[..|seg| - 1]);
    }
  }
}
