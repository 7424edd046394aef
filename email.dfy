/** The e-mail pattern of the contact form, /^[^\s@]+@[^\s@]+\.[^\s@]+$/, and what
    it means for the accepted strings. */
module EmailPattern {
  import opened Text

  /** A character admitted by the class [^\s@]. */
  predicate IsPlainChar(c: char) {
    !IsWhitespace(c) && c != '@'
  }

  /** The string is matched by [^\s@]+ as a whole. */
  predicate IsPlainRun(t: string) {
    |t| > 0 && forall k :: 0 <= k < |t| ==> IsPlainChar(t[k])
  }

  /** The regular expression, anchored at both ends: `s` splits into a run, '@',
      a run, '.', a run. The '@' is at `at` and the '.' at `dot`. */
  predicate MatchesAt(s: string, at: int, dot: int) {
    && 0 < at && at + 1 < dot && dot + 1 < |s|
    && s[at] == '@' && s[dot] == '.'
    && IsPlainRun(s[..at]) && IsPlainRun(s[at + 1..dot]) && IsPlainRun(s[dot + 1..])
  }

  /** RegExp.prototype.test of the pattern on `s`. */
  predicate Matches(s: string) {
    exists at, dot | 0 <= at < |s| && 0 <= dot < |s| :: MatchesAt(s, at, dot)
  }

  predicate HasNoWhitespace(s: string) {
    forall k :: 0 <= k < |s| ==> !IsWhitespace(s[k])
  }

  /** `s[at]` is the one and only '@' in `s`. */
  predicate IsOnlyAt(s: string, at: int) {
    && 0 <= at < |s| && s[at] == '@'
    && forall k :: 0 <= k < |s| && s[k] == '@' ==> k == at
  }

  /** The shape an accepted address has, stated without the pattern: no white
      space, exactly one '@' with something before it, and a '.' after the '@'
      with at least one character on each side of the '.'. */
  predicate WellShaped(s: string) {
    && HasNoWhitespace(s)
    && exists at, dot | 0 <= at < |s| && 0 <= dot < |s| ::
         0 < at && IsOnlyAt(s, at) && at + 1 < dot < |s| - 1 && s[dot] == '.'
  }

  lemma MatchesAtIsWellShaped(s: string, at: int, dot: int)
    requires MatchesAt(s, at, dot)
    ensures HasNoWhitespace(s) && IsOnlyAt(s, at)
  {
    forall k | 0 <= k < |s|
      ensures !IsWhitespace(s[k]) && (s[k] == '@' ==> k == at)
    {
      if k < at {
        assert s[k] == s[..at][k];
      } else if at < k < dot {
        assert s[k] == s[at + 1..dot][k - at - 1];
      } else if dot < k {
        assert s[k] == s[dot + 1..][k - dot - 1];
      }
    }
  }

  lemma WellShapedMatchesAt(s: string, at: int, dot: int)
    requires HasNoWhitespace(s) && 0 < at && IsOnlyAt(s, at)
    requires at + 1 < dot < |s| - 1 && s[dot] == '.'
    ensures MatchesAt(s, at, dot)
  {
    forall k | 0 <= k < at ensures IsPlainChar(s[..at][k]) {
      assert s[..at][k] == s[k];
    }
    var host, tld := s[at + 1..dot], s[dot + 1..];
    forall k | 0 <= k < |host| ensures IsPlainChar(host[k]) {
      assert host[k] == s[at + 1 + k];
    }
    forall k | 0 <= k < |tld| ensures IsPlainChar(tld[k]) {
      assert tld[k] == s[dot + 1 + k];
    }
  }

  /** The pattern accepts exactly the well-shaped strings. */
  lemma MatchesIffWellShaped(s: string)
    ensures Matches(s) <==> WellShaped(s)
  {
    if Matches(s) {
      var at, dot :| 0 <= at < |s| && 0 <= dot < |s| && MatchesAt(s, at, dot);
      MatchesAtIsWellShaped(s, at, dot);
    }
    if WellShaped(s) {
      var at, dot :| 0 <= at < |s| && 0 <= dot < |s| &&
        0 < at && IsOnlyAt(s, at) && at + 1 < dot < |s| - 1 && s[dot] == '.';
      WellShapedMatchesAt(s, at, dot);
    }
  }

  /** The pattern is tested on the untrimmed value: a leading white-space
      character makes it fail, whatever follows. */
  lemma LeadingWhitespaceRejected(c: char, rest: string)
    requires IsWhitespace(c)
    ensures !Matches([c] + rest)
  {
    var s := [c] + rest;
    forall at, dot | 0 <= at < |s| && 0 <= dot < |s| ensures !MatchesAt(s, at, dot) {
      if 0 < at {
        assert s[..at][0] == c;
      }
    }
  }

  /** An accepted address is never blank, so the "required" check never fires
      on it. */
  lemma MatchedIsNotBlank(s: string)
    requires Matches(s)
    ensures !IsBlank(s)
  {
    var at, dot :| 0 <= at < |s| && 0 <= dot < |s| && MatchesAt(s, at, dot);
    MatchesAtIsWellShaped(s, at, dot);
    assert !IsWhitespace(s[0]);
  }
}
