/** The client-side validators and filters on typed text: the amount field's
    digit filter, the six-digit code check, the email pattern, and the
    decimal text of an amount. */
module Text {

  /** `\d` in a JavaScript regular expression: the ASCII digits only. */
  predicate IsDigit(c: char) {
    '0' <= c <= '9'
  }

  predicate AllDigits(s: string) {
    forall i :: 0 <= i < |s| ==> IsDigit(s[i])
  }

  /** `\s` in a JavaScript regular expression: the ECMAScript white space and
      line terminator characters. */
  predicate IsSpace(c: char) {
    var n := c as int;
    n == 0x09 || n == 0x0A || n == 0x0B || n == 0x0C || n == 0x0D || n == 0x20
    || n == 0xA0 || n == 0x1680 || (0x2000 <= n <= 0x200A) || n == 0x2028 || n == 0x2029
    || n == 0x202F || n == 0x205F || n == 0x3000 || n == 0xFEFF
  }

  // ---------------------------------------------------------------------
  // The amount field: value.replace(/\D/g, '')

  /** Deletes every character that is not an ASCII digit. */
  function StripNonDigits(s: string): (r: string)
    ensures AllDigits(r)
    ensures |r| <= |s|
  {
    if s == [] then []
    else if IsDigit(s[0]) then [s[0]] + StripNonDigits(s[1..])
    else StripNonDigits(s[1..])
  }

  lemma {:induction false} StripConcat(a: string, b: string)
    ensures StripNonDigits(a + b) == StripNonDigits(a) + StripNonDigits(b)
  {
    if a != [] {
      assert (a + b)[0] == a[0];
      assert (a + b)[1..] == a[1..] + b;
      StripConcat(a[1..], b);
      if IsDigit(a[0]) {
        calc {
          StripNonDigits(a + b);
          [a[0]] + StripNonDigits(a[1..] + b);
          [a[0]] + (StripNonDigits(a[1..]) + StripNonDigits(b));
          ([a[0]] + StripNonDigits(a[1..])) + StripNonDigits(b);
        }
      }
    } else {
      assert a + b == b;
    }
  }

  /** A string of digits passes through unchanged. */
  lemma {:induction false} StripKeepsDigitString(s: string)
    requires AllDigits(s)
    ensures StripNonDigits(s) == s
  {
    if s != [] {
      StripKeepsDigitString(s[1..]);
    }
  }

  /** Filtering twice is filtering once. */
  lemma {:induction false} StripIdempotent(s: string)
    ensures StripNonDigits(StripNonDigits(s)) == StripNonDigits(s)
  {
    StripKeepsDigitString(StripNonDigits(s));
  }

  /** Every digit of the input survives, at the position given by the number
      of digits before it: the output is the input's digits in their
      original order. */
  lemma StripPlacesDigit(s: string, i: nat)
    requires i < |s| && IsDigit(s[i])
    ensures |StripNonDigits(s[..i])| < |StripNonDigits(s)|
    ensures StripNonDigits(s)[|StripNonDigits(s[..i])|] == s[i]
  {
    assert s == s[..i] + ([s[i]] + s[i + 1..]);
    StripConcat(s[..i], [s[i]] + s[i + 1..]);
    assert ([s[i]] + s[i + 1..])[1..] == s[i + 1..];
  }

  /** A non-digit leaves no trace: it is dropped at its place. */
  lemma StripDropsNonDigit(s: string, i: nat)
    requires i < |s| && !IsDigit(s[i])
    ensures StripNonDigits(s) == StripNonDigits(s[..i]) + StripNonDigits(s[i + 1..])
  {
    assert s == s[..i] + ([s[i]] + s[i + 1..]);
    StripConcat(s[..i], [s[i]] + s[i + 1..]);
    assert ([s[i]] + s[i + 1..])[1..] == s[i + 1..];
  }

  // ---------------------------------------------------------------------
  // The profile page's code check: length 6 and /^\d+$/

  /** The code check of the email-change form. */
  predicate IsSixDigitCode(code: string) {
    |code| == 6 && AllDigits(code)
  }

  /** A code is accepted exactly when it is six characters long and the
      digit filter leaves it as it is. */
  lemma SixDigitCodeIsFilterFixpoint(code: string)
    ensures IsSixDigitCode(code) <==> |code| == 6 && StripNonDigits(code) == code
  {
    if AllDigits(code) {
      StripKeepsDigitString(code);
    }
  }

  // ---------------------------------------------------------------------
  // The email pattern /^[^\s@]+@[^\s@]+\.[^\s@]+$/

  /** `[^\s@]+`: a non-empty run without white space and without '@'. */
  predicate EmailPart(s: string) {
    |s| > 0 && forall i :: 0 <= i < |s| ==> s[i] != '@' && !IsSpace(s[i])
  }

  /** The strings the email pattern matches: a local part, '@', a domain part,
      '.', and a final part, each of them an `EmailPart`. */
  ghost predicate MatchesEmailPattern(s: string) {
    exists i, j :: 0 <= i < j < |s| && s[i] == '@' && s[j] == '.'
      && EmailPart(s[..i]) && EmailPart(s[i + 1..j]) && EmailPart(s[j + 1..])
  }

  /** The index of the first occurrence of `c`, or |s| when there is none. */
  function IndexOf(s: string, c: char): (k: nat)
    ensures k <= |s|
    ensures k < |s| ==> s[k] == c
    ensures forall i :: 0 <= i < k ==> s[i] != c
  {
    if s == [] then 0
    else if s[0] == c then 0
    else 1 + IndexOf(s[1..], c)
  }

  predicate NoSpace(s: string) {
    forall i :: 0 <= i < |s| ==> !IsSpace(s[i])
  }

  /** The email check, stated on the first '@': a non-empty local part before
      it, no white space anywhere, no second '@', and a '.' that is neither
      the first nor the last character of the domain after it. */
  predicate IsValidEmail(s: string) {
    var k := IndexOf(s, '@');
    0 < k < |s| && NoSpace(s) && EmailPart(s[k + 1..])
    && |s[k + 1..]| >= 3 && '.' in s[k + 1..][1..|s| - k - 2]
  }

  /** Every string the check accepts matches the pattern. */
  lemma ValidEmailMatches(s: string)
    requires IsValidEmail(s)
    ensures MatchesEmailPattern(s)
  {
    var k := IndexOf(s, '@');
    var d := s[k + 1..];
    var inner := d[1..|d| - 1];
    var m :| 0 <= m < |inner| && inner[m] == '.';
    var j := k + 2 + m;
    assert s[j] == '.';
    assert s[k + 1..j] == d[..m + 1];
    assert s[j + 1..] == d[m + 2..];
    assert EmailPart(s[..k]);
    assert EmailPart(s[k + 1..j]);
    assert EmailPart(s[j + 1..]);
    assert s[k] == '@';
  }

  /** Joining three runs free of white space gives a run free of white space. */
  lemma NoSpaceJoin(s: string, i: nat, j: nat)
    requires i < j < |s| && !IsSpace(s[i]) && !IsSpace(s[j])
    requires NoSpace(s[..i]) && NoSpace(s[i + 1..j]) && NoSpace(s[j + 1..])
    ensures NoSpace(s)
  {
  }

  /** The domain after the '@' of a matching string is itself one run with an
      inner '.'. */
  lemma DomainOfMatch(s: string, i: nat, j: nat)
    requires i < j < |s| && s[j] == '.'
    requires EmailPart(s[i + 1..j]) && EmailPart(s[j + 1..])
    ensures EmailPart(s[i + 1..]) && |s[i + 1..]| >= 3
    ensures '.' in s[i + 1..][1..|s| - i - 2]
  {
  }

  /** A position holding `c` with no `c` before it is the first index of `c`. */
  lemma IndexOfFirst(s: string, c: char, i: nat)
    requires i < |s| && s[i] == c && forall n :: 0 <= n < i ==> s[n] != c
    ensures IndexOf(s, c) == i
  {
  }

  /** Every string the pattern matches passes the check. */
  lemma MatchingEmailValid(s: string)
    requires MatchesEmailPattern(s)
    ensures IsValidEmail(s)
  {
    var i, j :| 0 <= i < j < |s| && s[i] == '@' && s[j] == '.'
      && EmailPart(s[..i]) && EmailPart(s[i + 1..j]) && EmailPart(s[j + 1..]);
    forall n | 0 <= n < i
      ensures s[n] != '@'
    {
      assert s[n] == s[..i][n];
    }
    IndexOfFirst(s, '@', i);
    DomainOfMatch(s, i, j);
    NoSpaceJoin(s, i, j);
  }

  /** The check accepts exactly the strings the pattern matches. */
  lemma ValidEmailMatchesPattern(s: string)
    ensures IsValidEmail(s) <==> MatchesEmailPattern(s)
  {
    if IsValidEmail(s) {
      ValidEmailMatches(s);
    }
    if MatchesEmailPattern(s) {
      MatchingEmailValid(s);
    }
  }

  /** A valid address holds exactly one '@'. */
  lemma ValidEmailHasOneAt(s: string, n: nat)
    requires IsValidEmail(s) && n < |s| && s[n] == '@'
    ensures n == IndexOf(s, '@')
  {
  }

  // ---------------------------------------------------------------------
  // The decimal text of an amount

  function DigitChar(d: nat): (c: char)
    requires d < 10
    ensures IsDigit(c) && DigitValue(c) == d
  {
    ('0' as int + d) as char
  }

  function DigitValue(c: char): nat
    requires IsDigit(c)
  {
    c as int - '0' as int
  }

  /** The decimal numeral of n, without leading zeros. */
  function NatToString(n: nat): (s: string)
    ensures |s| >= 1 && AllDigits(s)
    ensures s[0] == '0' ==> n == 0
  {
    if n < 10 then [DigitChar(n)] else NatToString(n / 10) + [DigitChar(n % 10)]
  }

  /** The value of a string of decimal digits. */
  function ParseDigits(s: string): nat
    requires AllDigits(s)
  {
    if s == [] then 0 else 10 * ParseDigits(s[..|s| - 1]) + DigitValue(s[|s| - 1])
  }

  lemma {:induction false} ParseNatToString(n: nat)
    ensures ParseDigits(NatToString(n)) == n
  {
    var s := NatToString(n);
    if n >= 10 {
      ParseNatToString(n / 10);
      assert s[..|s| - 1] == NatToString(n / 10);
    }
  }

  /** JavaScript's `String(n)` for an integer. */
  function IntToString(n: int): (s: string)
    ensures |s| >= 1
    ensures s[0] == '-' <==> n < 0
    ensures n < 0 ==> AllDigits(s[1..]) && ParseDigits(s[1..]) == -n
    ensures n >= 0 ==> AllDigits(s) && ParseDigits(s) == n
  {
    ParseNatToString(if n < 0 then -n else n);
    if n < 0 then "-" + NatToString(-n) else NatToString(n)
  }
}
