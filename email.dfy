/** The contact page's email check, the pattern `^[^\s@]+@[^\s@]+\.[^\s@]+$`.
    It is a loose shape test, not the address grammar of section 3.4.1 of RFC 5322. */
module EmailPattern {
  import opened Text

  /** A character of the class `[^\s@]`. */
  predicate PlainChar(c: char) {
    !IsWhitespace(c) && c != '@'
  }

  /** A string in the language of `[^\s@]+`. */
  predicate PlainRun(t: string) {
    |t| > 0 && forall k :: 0 <= k < |t| ==> PlainChar(t[k])
  }

  /** `s` reads as local "@" host "." tld with the '@' at `i` and that '.' at
      `j`, each of the three pieces a `[^\s@]+` run. */
  ghost predicate SplitsAt(s: string, i: int, j: int) {
    0 <= i < j < |s| && s[i] == '@' && s[j] == '.'
    && PlainRun(s[..i]) && PlainRun(s[i + 1..j]) && PlainRun(s[j + 1..])
  }

  /** The language of the anchored pattern: some way of cutting `s` matches it. */
  ghost predicate MatchesPattern(s: string) {
    exists i, j :: SplitsAt(s, i, j)
  }

  /** The '@' at `i` is the only one in `s`. */
  predicate SoleAt(s: string, i: int)
    requires 0 <= i < |s|
  {
    s[i] == '@' && forall k :: 0 <= k < |s| && k != i ==> s[k] != '@'
  }

  /** The shape the pattern accepts, as the page's check is evaluated: no
      whitespace, exactly one '@' and not in first place, and after it a '.'
      with at least one character on either side. */
  predicate LooksLikeEmail(s: string): (r: bool)
    ensures r ==> |s| >= 5 && '@' in s && '.' in s
  {
    (forall k :: 0 <= k < |s| ==> !IsWhitespace(s[k]))
    && exists i :: 0 < i < |s| && SoleAt(s, i)
         && exists j :: i + 1 < j < |s| - 1 && s[j] == '.'
  }

  /** The shape check accepts exactly the strings the pattern matches. */
  lemma {:induction false} LooksLikeEmailIffMatches(s: string)
    ensures LooksLikeEmail(s) <==> MatchesPattern(s)
  {
    if MatchesPattern(s) {
      var i, j :| SplitsAt(s, i, j);
      forall k | 0 <= k < |s| && k != i
        ensures PlainChar(s[k])
      {
        if k < i {
          assert s[k] == s[..i][k];
        } else if k < j {
          assert s[k] == s[i + 1..j][k - i - 1];
        } else if k > j {
          assert s[k] == s[j + 1..][k - j - 1];
        }
      }
      assert SoleAt(s, i);
      assert i + 1 < j < |s| - 1;
    }
    if LooksLikeEmail(s) {
      var i :| 0 < i < |s| && SoleAt(s, i) && exists j :: i + 1 < j < |s| - 1 && s[j] == '.';
      var j :| i + 1 < j < |s| - 1 && s[j] == '.';
      assert forall k :: 0 <= k < |s| && k != i ==> PlainChar(s[k]);
      assert PlainRun(s[..i]);
      assert PlainRun(s[i + 1..j]);
      assert PlainRun(s[j + 1..]);
      assert SplitsAt(s, i, j);
    }
  }
}
