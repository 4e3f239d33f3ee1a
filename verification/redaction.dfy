/**
 * PII redaction of telemetry payloads: Java's
 * `payload.replaceAll("(?i)password=\\S+", "password=[REDACTED]")`, written
 * as a left-to-right scanner. The match is case-insensitive on ASCII letters
 * only (CASE_INSENSITIVE without UNICODE_CASE), and `\S` is any character
 * other than space, tab, newline, vertical tab, form feed and carriage return.
 */
module Redaction {

  const Keyword: string := "password="
  const Replacement: string := "password=[REDACTED]"

  /** The characters of Java's `\s`. */
  predicate IsSpace(c: char)
  {
    c == ' ' || c == '\t' || c == '\n' || c == '\U{0B}' || c == '\U{0C}' || c == '\r'
  }

  /** ASCII lower-casing, the only folding `(?i)` applies here. */
  function LowerAscii(c: char): (l: char)
    ensures l == 'p' ==> c == 'p' || c == 'P'
  {
    if 'A' <= c <= 'Z' then (c as int + 32) as char else c
  }

  /** s starts with "password=" in some ASCII casing. */
  predicate KeywordAt(s: string)
  {
    |s| >= 9 && forall i :: 0 <= i < 9 ==> LowerAscii(s[i]) == Keyword[i]
  }

  /** The pattern matches at the start of s: the keyword and at least one non-space character. */
  predicate MatchAt(s: string)
  {
    KeywordAt(s) && |s| > 9 && !IsSpace(s[9])
  }

  /** How many characters the greedy `\S+` takes from the start of s. */
  function SecretLength(s: string): (n: nat)
    ensures n <= |s|
    ensures forall i :: 0 <= i < n ==> !IsSpace(s[i])
    ensures n == |s| || IsSpace(s[n])
  {
    if |s| == 0 || IsSpace(s[0]) then 0 else 1 + SecretLength(s[1..])
  }

  /**
   * Replaces every match, left to right and without overlap, by
   * "password=[REDACTED]"; everything else is copied. Each match is at least
   * ten characters long and becomes nineteen, so the text at most doubles.
   */
  function RedactPii(s: string): (r: string)
    ensures |r| <= 2 * |s|
    decreases |s|
  {
    if |s| == 0 then ""
    else if MatchAt(s) then
      var end := 9 + SecretLength(s[9..]);
      Replacement + RedactPii(s[end..])
    else [s[0]] + RedactPii(s[1..])
  }

  /** The greedy secret is exactly the non-space run, however the text continues. */
  lemma {:induction false} SecretLengthOf(secret: string, rest: string)
    requires forall i :: 0 <= i < |secret| ==> !IsSpace(secret[i])
    requires rest == [] || IsSpace(rest[0])
    ensures SecretLength(secret + rest) == |secret|
  {
    if |secret| > 0 {
      assert (secret + rest)[1..] == secret[1..] + rest;
      SecretLengthOf(secret[1..], rest);
    } else {
      assert secret + rest == rest;
    }
  }

  /**
   * A prefix in which no match begins is copied unchanged, and scanning
   * resumes after it: text outside matches is preserved in order.
   */
  lemma {:induction false} PrefixKept(a: string, b: string)
    requires forall i :: 0 <= i < |a| ==> !MatchAt((a + b)[i..])
    ensures RedactPii(a + b) == a + RedactPii(b)
    decreases |a|
  {
    if |a| == 0 {
      assert a + b == b;
    } else {
      var s := a + b;
      assert !MatchAt(s[0..]);
      assert s[0..] == s;
      assert s[1..] == a[1..] + b;
      forall i | 0 <= i < |a[1..]|
        ensures !MatchAt((a[1..] + b)[i..])
      {
        assert (a[1..] + b)[i..] == s[i + 1..];
      }
      PrefixKept(a[1..], b);
      assert [a[0]] + a[1..] == a;
    }
  }

  /** A text in which the pattern never matches is returned unchanged. */
  lemma NoMatchUnchanged(s: string)
    requires forall i :: 0 <= i < |s| ==> !MatchAt(s[i..])
    ensures RedactPii(s) == s
  {
    assert s + [] == s;
    PrefixKept(s, []);
  }

  /**
   * A match is the keyword in any casing followed by the longest run of
   * non-space characters; it becomes exactly "password=[REDACTED]" in lower
   * case and scanning resumes at the following space or at the end.
   */
  lemma MatchReplaced(keyword: string, secret: string, rest: string)
    requires |keyword| == 9 && KeywordAt(keyword)
    requires |secret| >= 1 && forall i :: 0 <= i < |secret| ==> !IsSpace(secret[i])
    requires rest == [] || IsSpace(rest[0])
    ensures RedactPii(keyword + secret + rest) == Replacement + RedactPii(rest)
  {
    var tail := secret + rest;
    Regroup(keyword, secret, rest);
    KeywordExtended(keyword, tail);
    var s := keyword + tail;
    assert s[9..] == tail;
    SecretLengthOf(secret, rest);
    assert tail[|secret|..] == rest;
    assert MatchAt(s) by {
      assert s[9] == secret[0];
    }
    MatchStep(s);
  }

  /** Text after a keyword does not change that it starts with one. */
  lemma KeywordExtended(keyword: string, tail: string)
    requires |keyword| == 9 && KeywordAt(keyword)
    ensures KeywordAt(keyword + tail)
  {
    assert forall i :: 0 <= i < 9 ==> (keyword + tail)[i] == keyword[i];
  }

  /** One step of the scan at a match: the replacement, then the text after the secret. */
  lemma MatchStep(s: string)
    requires MatchAt(s)
    ensures RedactPii(s) == Replacement + RedactPii(s[9 + SecretLength(s[9..])..])
  {
  }

  /** No match can begin inside a keyword other than at its first character. */
  lemma NoMatchInsideKeyword(s: string, i: int)
    requires KeywordAt(s) && 0 < i < 9
    ensures !MatchAt(s[i..])
  {
    assert LowerAscii(s[i]) == Keyword[i];
  }

  /** A keyword followed by a space is kept as it is: `\S+` needs at least one character. */
  lemma KeywordBeforeSpaceKept(keyword: string, space: char, rest: string)
    requires |keyword| == 9 && KeywordAt(keyword) && IsSpace(space)
    ensures RedactPii(keyword + [space] + rest) == keyword + [space] + RedactPii(rest)
  {
    var a := keyword + [space];
    var s := a + rest;
    assert keyword + [space] + rest == s;
    forall i | 0 <= i < |a|
      ensures !MatchAt(s[i..])
    {
      if i == 0 {
        assert s[9] == space;
      } else if i < 9 {
        assert forall j :: 0 <= j < 9 ==> s[j] == keyword[j];
        assert KeywordAt(s);
        NoMatchInsideKeyword(s, i);
      } else {
        assert s[i..][0] == space;
      }
    }
    PrefixKept(a, rest);
  }

  /** A keyword at the very end of the text is kept as it is. */
  lemma KeywordAtEndKept(keyword: string)
    requires |keyword| == 9 && KeywordAt(keyword)
    ensures RedactPii(keyword) == keyword
  {
    forall i | 0 <= i < |keyword|
      ensures !MatchAt(keyword[i..])
    {
      if 0 < i {
        NoMatchInsideKeyword(keyword, i);
      }
    }
    NoMatchUnchanged(keyword);
  }

  /**
   * A keyword at the end of a text is kept when no match begins before it:
   * an earlier secret would run on into the keyword and take it along.
   */
  lemma KeywordAtEndKeptAfter(a: string, keyword: string)
    requires |keyword| == 9 && KeywordAt(keyword)
    requires forall i :: 0 <= i < |a| ==> !MatchAt((a + keyword)[i..])
    ensures RedactPii(a + keyword) == a + keyword
  {
    PrefixKept(a, keyword);
    KeywordAtEndKept(keyword);
  }

  /** Redacting text that is empty or starts with a space gives text that is empty or starts with that space. */
  lemma SpaceStaysFirst(t: string)
    requires t == [] || IsSpace(t[0])
    ensures RedactPii(t) == [] || (RedactPii(t)[0] == t[0] && IsSpace(t[0]))
  {
  }

  /** The replacement followed by a space or the end is itself a match that redacts to itself. */
  lemma ReplacementStable(t: string)
    requires t == [] || IsSpace(t[0])
    ensures RedactPii(Replacement + t) == Replacement + RedactPii(t)
  {
    var secret := "[REDACTED]";
    assert KeywordAt(Keyword) by {
      forall i | 0 <= i < 9
        ensures LowerAscii(Keyword[i]) == Keyword[i]
      {
      }
    }
    assert forall i :: 0 <= i < |secret| ==> !IsSpace(secret[i]);
    assert Keyword + secret == Replacement;
    assert Keyword + secret + t == Replacement + t;
    MatchReplaced(Keyword, secret, t);
  }

  /** How redaction starts: with "p" when a match begins here, otherwise with the first character copied. */
  lemma FirstStep(u: string)
    requires |u| > 0
    ensures MatchAt(u) ==> |RedactPii(u)| > 0 && RedactPii(u)[0] == 'p'
    ensures !MatchAt(u) ==> RedactPii(u) == [u[0]] + RedactPii(u[1..])
  {
  }

  /** The first n characters are the first one followed by n - 1 of the rest. */
  lemma FirstAndRest(u: string, n: nat)
    requires 0 < n <= |u|
    ensures u[..n] == [u[0]] + u[1..][..n - 1]
  {
  }

  /** Concatenation regrouped. */
  lemma Regroup(a: string, b: string, c: string)
    ensures a + (b + c) == (a + b) + c
  {
  }

  /** When the redacted text does not start with 'p' or 'P', its first character was copied. */
  lemma CopiedFirst(u: string)
    requires |RedactPii(u)| > 0 && LowerAscii(RedactPii(u)[0]) != 'p'
    ensures |u| > 0 && RedactPii(u) == [u[0]] + RedactPii(u[1..])
  {
    FirstStep(u);
  }

  /**
   * If the redacted text starts with n characters none of which folds to 'p',
   * no match began among them, so the original started with the same n
   * characters and the rest was redacted on its own.
   */
  lemma {:induction false} KeptPrefix(u: string, n: nat)
    requires n <= |RedactPii(u)|
    requires forall i :: 0 <= i < n ==> LowerAscii(RedactPii(u)[i]) != 'p'
    ensures n <= |u| && RedactPii(u) == u[..n] + RedactPii(u[n..])
    decreases n
  {
    if n > 0 {
      CopiedFirst(u);
      var tail := u[1..];
      var r := RedactPii(tail);
      forall i | 0 <= i < n - 1
        ensures LowerAscii(r[i]) != 'p'
      {
        assert r[i] == RedactPii(u)[i + 1];
      }
      KeptPrefix(tail, n - 1);
      assert tail[n - 1..] == u[n..];
      var rest := RedactPii(u[n..]);
      FirstAndRest(u, n);
      Regroup([u[0]], tail[..n - 1], rest);
    } else {
      assert u[..0] == [] && u[0..] == u;
    }
  }

  /** Redaction never creates a match at a character it copied: one there after redaction was there before. */
  lemma NoNewMatch(c: char, u: string)
    ensures MatchAt([c] + RedactPii(u)) ==> MatchAt([c] + u)
  {
    var r := RedactPii(u);
    if MatchAt([c] + r) {
      forall i | 0 <= i < 8
        ensures LowerAscii(r[i]) != 'p'
      {
        assert r[i] == ([c] + r)[i + 1];
        assert LowerAscii(([c] + r)[i + 1]) == Keyword[i + 1];
      }
      KeptPrefix(u, 8);
      var tail := u[8..];
      assert r[8] == RedactPii(tail)[0];
      assert |tail| > 0;
      assert !IsSpace(tail[0]) by {
        if !MatchAt(tail) {
          assert RedactPii(tail)[0] == tail[0];
        } else {
          assert KeywordAt(tail);
          assert LowerAscii(tail[0]) == 'p';
        }
      }
      assert ([c] + u)[..9] == [c] + r[..8];
      assert forall i :: 0 <= i < 9 ==> ([c] + u)[i] == ([c] + r)[i];
      assert ([c] + u)[9] == tail[0];
    }
  }

  /** Redacting twice is the same as redacting once. */
  lemma {:induction false} RedactIdempotent(s: string)
    ensures RedactPii(RedactPii(s)) == RedactPii(s)
    decreases |s|
  {
    if |s| > 0 {
      if MatchAt(s) {
        var end := 9 + SecretLength(s[9..]);
        var rest := s[end..];
        RedactIdempotent(rest);
        assert rest == [] || IsSpace(rest[0]) by {
          assert rest == s[9..][SecretLength(s[9..])..];
        }
        MatchStep(s);
        SpaceStaysFirst(rest);
        ReplacementStable(RedactPii(rest));
      } else {
        var t := RedactPii(s[1..]);
        RedactIdempotent(s[1..]);
        FirstStep(s);
        assert [s[0]] + s[1..] == s;
        NoNewMatch(s[0], s[1..]);
        FirstStep([s[0]] + t);
        assert ([s[0]] + t)[1..] == t;
      }
    }
  }
}
