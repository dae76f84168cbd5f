/**
 * The email form (src/components/EmailForm.tsx): the pattern `^[^\s@]+@[^\s@]+\.[^\s@]+$`, the
 * check that enables the submit button, and the submit handler's guard.
 */
module EmailForm {
  import opened Types
  import opened Text

  /** Characters of the class `[^\s@]`: neither whitespace nor `@`. */
  predicate Plain(s: string) {
    forall k :: 0 <= k < |s| ==> !IsSpace(s[k]) && s[k] != '@'
  }

  /**
   * What the regular expression accepts: the whole string is a non-empty run of plain characters,
   * `@`, another such run, `.`, and a last such run.
   */
  ghost predicate MatchesEmailPattern(e: string) {
    exists i, j :: 0 < i && i + 1 < j && j + 1 < |e| && e[i] == '@' && e[j] == '.'
      && Plain(e[..i]) && Plain(e[i + 1..j]) && Plain(e[j + 1..])
  }

  /** A `.` that is neither the first nor the last character. */
  predicate InnerDot(d: string) {
    |d| >= 3 && '.' in d[1..|d| - 1]
  }

  /**
   * `isValidEmail`: no whitespace, exactly one `@` with something before it, and a `.` after the
   * `@` that is neither the first nor the last character after it. This is exactly what the
   * pattern accepts.
   */
  function IsValidEmail(e: string): (ok: bool)
    ensures ok <==> MatchesEmailPattern(e)
  {
    var a := IndexOf(e, '@');
    PatternSplitsAtFirstAt(e);
    0 < a < |e| && Plain(e[..a]) && Plain(e[a + 1..]) && InnerDot(e[a + 1..])
  }

  /** The pattern matches exactly when it matches around the first `@`. */
  lemma PatternSplitsAtFirstAt(e: string)
    ensures var a := IndexOf(e, '@');
      MatchesEmailPattern(e) <==> 0 < a < |e| && Plain(e[..a]) && Plain(e[a + 1..]) && InnerDot(e[a + 1..])
  {
    var a := IndexOf(e, '@');
    if 0 < a < |e| && Plain(e[..a]) && Plain(e[a + 1..]) && InnerDot(e[a + 1..]) {
      SplitMatches(e, a);
    }
    if MatchesEmailPattern(e) {
      var i, j :| 0 < i && i + 1 < j && j + 1 < |e| && e[i] == '@' && e[j] == '.'
        && Plain(e[..i]) && Plain(e[i + 1..j]) && Plain(e[j + 1..]);
      MatchSplits(e, i, j);
    }
  }

  /** Around an `@` at `a`, plain text on both sides with an inner dot after it is a match. */
  lemma SplitMatches(e: string, a: nat)
    requires 0 < a < |e| && e[a] == '@' && Plain(e[..a]) && Plain(e[a + 1..]) && InnerDot(e[a + 1..])
    ensures MatchesEmailPattern(e)
  {
    var d := e[a + 1..];
    var q :| 0 <= q < |d| - 2 && d[1..|d| - 1][q] == '.';
    var j := a + 2 + q;
    assert e[j] == '.';
    assert e[a + 1..j] == d[..q + 1];
    assert e[j + 1..] == d[q + 2..];
    assert Plain(e[a + 1..j]) by {
      forall k | 0 <= k < j - a - 1 ensures e[a + 1..j][k] == d[k] {}
    }
    var tail := e[j + 1..];
    assert Plain(tail) by {
      forall k | 0 <= k < |tail| ensures tail[k] == d[q + 2 + k] {}
    }
    assert 0 < a && a + 1 < j && j + 1 < |e| && e[a] == '@' && e[j] == '.'
      && Plain(e[..a]) && Plain(e[a + 1..j]) && Plain(e[j + 1..]);
  }

  /** A match at `i` and `j` puts the first `@` at `i`, with plain text and an inner dot after it. */
  lemma MatchSplits(e: string, i: nat, j: nat)
    requires 0 < i && i + 1 < j && j + 1 < |e| && e[i] == '@' && e[j] == '.'
    requires Plain(e[..i]) && Plain(e[i + 1..j]) && Plain(e[j + 1..])
    ensures IndexOf(e, '@') == i && Plain(e[i + 1..]) && InnerDot(e[i + 1..])
  {
    var d := e[i + 1..];
    forall k | 0 <= k < |d| ensures !IsSpace(d[k]) && d[k] != '@' {
      if i + 1 + k < j {
        assert d[k] == e[i + 1..j][k];
      } else if i + 1 + k > j {
        assert d[k] == e[j + 1..][i + k - j];
      }
    }
    assert d[1..|d| - 1][j - i - 2] == '.';
  }

  /** `isValid`, `email.trim() && isValidEmail(email)`: the trim adds nothing to the pattern. */
  function IsValid(e: string): (ok: bool)
    ensures ok <==> IsValidEmail(e)
  {
    ValidIsNotBlank(e);
    Trim(e) != [] && IsValidEmail(e)
  }

  lemma ValidIsNotBlank(e: string)
    ensures IsValidEmail(e) ==> !AllSpace(e)
  {
    if IsValidEmail(e) {
      assert !IsSpace(e[0]) by { assert e[..IndexOf(e, '@')][0] == e[0]; }
    }
  }

  /** `handleSubmit`: the address passed to `onSubmit`, unchanged, if the guard lets it through. */
  function HandleSubmit(e: string): (submitted: Option<string>)
    ensures submitted.Some? <==> MatchesEmailPattern(e)
    ensures submitted.Some? ==> submitted.value == e
  {
    if e != [] && IsValidEmail(e) then Some(e) else None
  }

  /** The submit button is disabled while the address does not match or a submission is loading. */
  function SubmitDisabled(e: string, isLoading: bool): (disabled: bool)
    ensures disabled <==> !MatchesEmailPattern(e) || isLoading
  {
    !IsValid(e) || isLoading
  }

  /** An address typed with surrounding spaces is refused, although trimming it would give a valid one. */
  lemma SurroundingSpaceRefused(e: string)
    ensures !IsValidEmail(" " + e)
  {
    var s := " " + e;
    var a := IndexOf(s, '@');
    if 0 < a < |s| {
      assert s[..a][0] == ' ';
      assert IsSpace(s[..a][0]);
    }
  }

  /**
   * The dot of the pattern may come anywhere after the first character following the `@`: `.`
   * is itself a plain character, so a domain may start with a dot.
   */
  lemma DomainMayStartWithDot()
    ensures IsValidEmail("a@.b.c")
  {
    var e := "a@.b.c";
    assert e[1] == '@' && e[4] == '.';
    assert e[..1] == "a" && e[2..4] == ".b" && e[5..] == "c";
  }
}
