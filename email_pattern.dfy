/** The e-mail check both the sign-in form and the profile editor apply:
    the regular expression `^[^\s@]+@[^\s@]+\.[^\s@]+$`.

    `MatchesPattern` reads the expression as its grammar: three non-empty runs
    of characters that are neither whitespace nor '@', joined by '@' and '.'.
    `IsValidEmail` is the explicit reading the validators use: no whitespace,
    exactly one '@', a non-empty local part, and a domain holding a '.' that is
    neither its first nor its last character. `ValidEmailIffMatches` proves the
    two agree on every string. */
module EmailPattern {

  /** JavaScript's `\s` class: the WhiteSpace and LineTerminator code points. */
  predicate IsSpace(c: char)
  {
    || c == ' ' || c == '\t' || c == '\n' || c == '\U{000B}' || c == '\U{000C}' || c == '\r'
    || c == '\U{00A0}' || c == '\U{1680}' || ('\U{2000}' <= c <= '\U{200A}')
    || c == '\U{2028}' || c == '\U{2029}' || c == '\U{202F}' || c == '\U{205F}'
    || c == '\U{3000}' || c == '\U{FEFF}'
  }

  /** A character of the class `[^\s@]`. */
  predicate IsPlain(c: char)
  {
    !IsSpace(c) && c != '@'
  }

  /** A string matched by `[^\s@]+`. */
  predicate IsPlainRun(s: string)
  {
    |s| > 0 && forall k :: 0 <= k < |s| ==> IsPlain(s[k])
  }

  /** `s` is A '@' B '.' C with the '@' at `at`, the '.' at `dot`, and A, B, C
      plain runs. */
  predicate SplitsAt(s: string, at: int, dot: int)
  {
    && 0 <= at < dot < |s|
    && s[at] == '@' && s[dot] == '.'
    && IsPlainRun(s[..at]) && IsPlainRun(s[at + 1..dot]) && IsPlainRun(s[dot + 1..])
  }

  /** The strings the anchored regular expression accepts (it may backtrack
      to any '.' of the domain, hence the existential). */
  ghost predicate MatchesPattern(s: string)
  {
    exists at, dot :: SplitsAt(s, at, dot)
  }

  /** Number of occurrences of `c` in `s`. */
  function Count(s: string, c: char): nat
  {
    if s == [] then 0 else (if s[0] == c then 1 else 0) + Count(s[1..], c)
  }

  /** Index of the first `c` in `s`, or `|s|` when there is none. */
  function IndexOf(s: string, c: char): (r: nat)
    ensures r <= |s|
    ensures r < |s| ==> s[r] == c
    ensures forall k :: 0 <= k < r ==> s[k] != c
  {
    if s == [] then 0 else if s[0] == c then 0 else 1 + IndexOf(s[1..], c)
  }

  predicate NoSpace(s: string)
  {
    forall k :: 0 <= k < |s| ==> !IsSpace(s[k])
  }

  /** A '.' somewhere strictly inside `d`. */
  predicate HasInteriorDot(d: string)
  {
    exists k :: 0 < k < |d| - 1 && d[k] == '.'
  }

  /** The explicit reading of the pattern. */
  predicate IsValidEmail(s: string)
  {
    && NoSpace(s)
    && Count(s, '@') == 1
    && var at := IndexOf(s, '@');
       0 < at < |s| && HasInteriorDot(s[at + 1..])
  }

  lemma {:induction false} CountConcat(a: string, b: string, c: char)
    ensures Count(a + b, c) == Count(a, c) + Count(b, c)
  {
    if a == [] {
      assert a + b == b;
    } else {
      assert (a + b)[1..] == a[1..] + b;
      CountConcat(a[1..], b, c);
    }
  }

  lemma {:induction false} CountZero(s: string, c: char)
    ensures Count(s, c) == 0 <==> forall k :: 0 <= k < |s| ==> s[k] != c
  {
    if s != [] {
      CountZero(s[1..], c);
      assert forall k :: 1 <= k < |s| ==> s[k] == s[1..][k - 1];
    }
  }

  /** A valid address is never empty, so the required-field check and the
      pattern check never both speak about the empty string. */
  lemma ValidEmailNonEmpty(s: string)
    requires IsValidEmail(s)
    ensures |s| >= 5
  {
    var at := IndexOf(s, '@');
    var d := s[at + 1..];
    var k :| 0 < k < |d| - 1 && d[k] == '.';
  }

  /** Every string the explicit reading accepts matches the pattern. */
  lemma ValidEmailMatches(s: string)
    requires IsValidEmail(s)
    ensures MatchesPattern(s)
  {
    var at := IndexOf(s, '@');
    var d := s[at + 1..];
    var k :| 0 < k < |d| - 1 && d[k] == '.';
    var dot := at + 1 + k;
    assert Count(d, '@') == 0 by {
      assert s == s[..at] + [s[at]] + d;
      CountConcat(s[..at] + [s[at]], d, '@');
      CountConcat(s[..at], [s[at]], '@');
      CountZero(s[..at], '@');
    }
    CountZero(d, '@');
    assert IsPlainRun(s[..at]);
    assert forall j :: at + 1 <= j < |s| ==> s[j] == d[j - at - 1];
    assert SplitsAt(s, at, dot);
  }

  /** Every string the pattern matches passes the explicit reading. */
  lemma MatchesValidEmail(s: string)
    requires MatchesPattern(s)
    ensures IsValidEmail(s)
  {
    var at, dot :| SplitsAt(s, at, dot);
    var a, b, c := s[..at], s[at + 1..dot], s[dot + 1..];
    assert s == a + [s[at]] + (b + [s[dot]] + c);
    forall k | 0 <= k < |s| ensures !IsSpace(s[k]) {
      if k < at {
        assert s[k] == a[k];
      } else if at < k < dot {
        assert s[k] == b[k - at - 1];
      } else if dot < k {
        assert s[k] == c[k - dot - 1];
      }
    }
    assert Count(s, '@') == 1 by {
      CountZero(a, '@');
      CountZero(b, '@');
      CountZero(c, '@');
      CountConcat(b + [s[dot]], c, '@');
      CountConcat(b, [s[dot]], '@');
      CountConcat(a + [s[at]], b + [s[dot]] + c, '@');
      CountConcat(a, [s[at]], '@');
    }
    assert IndexOf(s, '@') == at;
    assert s[at + 1..][dot - at - 1] == '.';
  }

  /** The explicit reading and the regular expression accept the same strings. */
  lemma ValidEmailIffMatches(s: string)
    ensures IsValidEmail(s) <==> MatchesPattern(s)
  {
    if IsValidEmail(s) {
      ValidEmailMatches(s);
    }
    if MatchesPattern(s) {
      MatchesValidEmail(s);
    }
  }
}
