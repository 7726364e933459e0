/**
 * The e-mail format check of the contact form, the regular expression
 * `^[^\s@]+@[^\s@]+\.[^\s@]+$`, and the same rule stated in words.
 */
module Email {
  import opened Text

  /** A character of the class `[^\s@]`. */
  predicate Plain(c: char) {
    !IsSpace(c) && c != '@'
  }

  predicate AllPlain(s: string) {
    forall i | 0 <= i < |s| :: Plain(s[i])
  }

  /**
   * The regular expression as its engine reads it: the string splits into a
   * non-empty run, `@`, a non-empty run, `.`, and a non-empty run, where
   * every run is made of `[^\s@]` characters.
   */
  predicate MatchesPattern(s: string) {
    exists at | 0 < at < |s| ::
      exists dot | at + 1 < dot < |s| - 1 ::
        && AllPlain(s[..at]) && s[at] == '@'
        && AllPlain(s[at + 1..dot]) && s[dot] == '.'
        && AllPlain(s[dot + 1..])
  }

  /**
   * The rule in words: no white space, exactly one `@` with text before it,
   * and after the `@` a `.` with text on both sides of it.
   */
  predicate WellFormedAddress(s: string) {
    && (forall i | 0 <= i < |s| :: !IsSpace(s[i]))
    && CountChar(s, '@') == 1
    && var at := FindChar(s, '@');
       && 0 < at
       && exists dot | at + 1 < dot < |s| - 1 :: s[dot] == '.'
  }

  /** In a match, every character but the `@` belongs to one of the three runs. */
  lemma PlainOutsideAt(s: string, at: nat, dot: nat)
    requires 0 < at < |s| && at + 1 < dot < |s| - 1
    requires AllPlain(s[..at]) && AllPlain(s[at + 1..dot]) && s[dot] == '.' && AllPlain(s[dot + 1..])
    ensures forall k | 0 <= k < |s| && k != at :: Plain(s[k])
  {
    forall k | 0 <= k < |s| && k != at ensures Plain(s[k]) {
      if k < at {
        assert s[k] == s[..at][k];
      } else if k < dot {
        assert s[k] == s[at + 1..dot][k - at - 1];
      } else if k > dot {
        assert s[k] == s[dot + 1..][k - dot - 1];
      }
    }
  }

  /** Every string the regular expression accepts is well formed. */
  lemma PatternImpliesWellFormed(s: string)
    requires MatchesPattern(s)
    ensures WellFormedAddress(s)
  {
    var at, dot :| 0 < at < |s| && at + 1 < dot < |s| - 1
      && AllPlain(s[..at]) && s[at] == '@'
      && AllPlain(s[at + 1..dot]) && s[dot] == '.'
      && AllPlain(s[dot + 1..]);
    PlainOutsideAt(s, at, dot);
    assert FindChar(s, '@') == at;
    CountOneIff(s, '@');
  }

  /** Every well-formed address is accepted by the regular expression. */
  lemma WellFormedImpliesPattern(s: string)
    requires WellFormedAddress(s)
    ensures MatchesPattern(s)
  {
    CountOneIff(s, '@');
    var at := FindChar(s, '@');
    var dot :| at + 1 < dot < |s| - 1 && s[dot] == '.';
    assert forall k | 0 <= k < |s| && k != at :: Plain(s[k]);
    assert AllPlain(s[..at]);
    assert AllPlain(s[at + 1..dot]);
    assert AllPlain(s[dot + 1..]);
  }

  /** The regular expression accepts exactly the well-formed addresses. */
  lemma PatternIffWellFormed(s: string)
    ensures MatchesPattern(s) <==> WellFormedAddress(s)
  {
    if MatchesPattern(s) {
      PatternImpliesWellFormed(s);
    }
    if WellFormedAddress(s) {
      WellFormedImpliesPattern(s);
    }
  }
}
