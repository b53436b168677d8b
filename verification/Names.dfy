/** The names made of titles and task ids: what a slug and a sanitized id look like, and that nothing
    but separators is lost on the way. */
module Names {
  import opened Text
  import opened Repository
  import opened Decisions

  /** The characters of a text that satisfy a predicate, in order. */
  function Only(s: string, p: char -> bool): string {
    if s == "" then "" else (if p(s[0]) then [s[0]] else "") + Only(s[1..], p)
  }

  lemma {:induction false} OnlyOfConcat(s: string, t: string, p: char -> bool)
    ensures Only(s + t, p) == Only(s, p) + Only(t, p)
  {
    if s == "" {
      assert s + t == t;
    } else {
      var first := if p(s[0]) then [s[0]] else "";
      OnlyOfConcat(s[1..], t, p);
      assert (s + t)[1..] == s[1..] + t && (s + t)[0] == s[0];
      assert Only(s + t, p) == first + Only(s[1..] + t, p);
      assert first + (Only(s[1..], p) + Only(t, p)) == (first + Only(s[1..], p)) + Only(t, p);
    }
  }

  /** The characters a slug and an id may have: ASCII digits and letters, and for an id `-`, `.` and `_`. */
  lemma AlphabetsAre(c: char)
    ensures var n := c as int;
      && (IsSlugChar(c) <==> 48 <= n < 58 || 97 <= n < 123)
      && (IsIdChar(c) <==> n == 45 || n == 46 || 48 <= n < 58 || 65 <= n < 91 || n == 95 || 97 <= n < 123)
  {
  }

  // ------------------------------------------------------------------ slugs

  /** Runs of letters and digits with single dashes between them. */
  predicate IsSlug(s: string) {
    && s != "" && IsSlugChar(s[0]) && IsSlugChar(s[|s| - 1])
    && (forall k :: 0 <= k < |s| ==> IsSlugChar(s[k]) || s[k] == '-')
    && forall k :: 0 <= k < |s| - 1 ==> IsSlugChar(s[k]) || IsSlugChar(s[k + 1])
  }

  /** Dashes come singly. */
  predicate SingleDashes(s: string) {
    && (forall k :: 0 <= k < |s| ==> IsSlugChar(s[k]) || s[k] == '-')
    && forall k :: 0 <= k < |s| - 1 ==> IsSlugChar(s[k]) || IsSlugChar(s[k + 1])
  }

  lemma {:induction false} RunsAreSingle(s: string, inRun: bool)
    ensures SingleDashes(SlugRuns(s, inRun))
    ensures inRun && SlugRuns(s, inRun) != "" ==> IsSlugChar(SlugRuns(s, inRun)[0])
    ensures Only(SlugRuns(s, inRun), IsSlugChar) == Only(s, IsSlugChar)
  {
    if s != "" {
      RunsAreSingle(s[1..], !IsSlugChar(s[0]));
      var rest := SlugRuns(s[1..], !IsSlugChar(s[0]));
      assert ("-" + rest)[1..] == rest && ([s[0]] + rest)[1..] == rest;
    }
  }

  lemma {:induction false} TrimmedIsSlug(s: string)
    requires SingleDashes(s)
    ensures TrimDash(s) == "" || IsSlug(TrimDash(s))
    ensures Only(TrimDash(s), IsSlugChar) == Only(s, IsSlugChar)
    decreases |s|
  {
    if s != "" && s[0] == '-' {
      TrimmedIsSlug(s[1..]);
    } else if s != "" && s[|s| - 1] == '-' {
      TrimmedIsSlug(s[..|s| - 1]);
      assert s == s[..|s| - 1] + ['-'];
      OnlyOfConcat(s[..|s| - 1], ['-'], IsSlugChar);
    }
  }

  lemma SlugHasLetters(s: string)
    requires IsSlug(s)
    ensures Only(s, IsSlugChar) != ""
  {
    assert Only(s, IsSlugChar)[0] == s[0];
  }

  /** A slug keeps the letters and digits of its title, in lower case and in order, and is "decision"
      where there are none. */
  lemma SlugKeepsLetters(title: string)
    ensures IsSlug(Slugify(title))
    ensures var letters := Only(Lower(Strip(title)), IsSlugChar);
      if letters == "" then Slugify(title) == "decision" else Only(Slugify(title), IsSlugChar) == letters
  {
    var text := Lower(Strip(title));
    var runs := SlugRuns(text, false);
    RunsAreSingle(text, false);
    TrimmedIsSlug(runs);
    assert Only(TrimDash(runs), IsSlugChar) == Only(text, IsSlugChar);
    if TrimDash(runs) != "" {
      SlugHasLetters(TrimDash(runs));
    }
  }

  lemma {:induction false} SlugRunsStay(s: string, inRun: bool)
    requires SingleDashes(s) && (inRun && s != "" ==> IsSlugChar(s[0]))
    ensures SlugRuns(s, inRun) == s
  {
    if s != "" {
      SlugRunsStay(s[1..], !IsSlugChar(s[0]));
    }
  }

  lemma SlugIsLower(s: string)
    requires IsSlug(s)
    ensures Strip(s) == s && Lower(s) == s
  {
    assert StripLeft(s) == s;
    assert StripRight(s) == s;
    assert forall k :: 0 <= k < |s| ==> LowerChar(s[k]) == s[k];
  }

  /** What is a slug already stays as it is. */
  lemma SlugStays(s: string)
    requires IsSlug(s)
    ensures Slugify(s) == s
  {
    SlugIsLower(s);
    SlugRunsStay(s, false);
    assert TrimDash(s) == s;
  }

  // -------------------------------------------------------------------- ids

  predicate IsTrimmed(c: char) {
    c == '-' || c == '.'
  }

  /** Letters, digits and underscores. */
  predicate IsWordChar(c: char) {
    IsIdChar(c) && !IsTrimmed(c)
  }

  /** An id a branch and a directory can be named after. */
  predicate IsCleanId(s: string) {
    s != "" && IsWordChar(s[0]) && IsWordChar(s[|s| - 1]) && forall k :: 0 <= k < |s| ==> IsIdChar(s[k])
  }

  lemma {:induction false} DashedIsAllowed(s: string, inRun: bool)
    ensures forall k :: 0 <= k < |DashRuns(s, inRun)| ==> IsIdChar(DashRuns(s, inRun)[k])
    ensures Only(DashRuns(s, inRun), IsWordChar) == Only(s, IsWordChar)
  {
    if s != "" {
      DashedIsAllowed(s[1..], !IsIdChar(s[0]));
      var rest := DashRuns(s[1..], !IsIdChar(s[0]));
      assert ("-" + rest)[1..] == rest && ([s[0]] + rest)[1..] == rest;
    }
  }

  predicate AllAllowed(s: string) {
    forall k :: 0 <= k < |s| ==> IsIdChar(s[k])
  }

  predicate NoneAllowed(s: string) {
    forall k :: 0 <= k < |s| ==> !IsIdChar(s[k])
  }

  lemma {:induction false} RunIsSkipped(run: string, rest: string)
    requires NoneAllowed(run) && (rest != "" ==> IsIdChar(rest[0]))
    ensures DashRuns(run + rest, true) == DashRuns(rest, false)
  {
    if run == "" {
      assert run + rest == rest;
    } else {
      assert (run + rest)[1..] == run[1..] + rest;
      RunIsSkipped(run[1..], rest);
    }
  }

  /** Each maximal run of disallowed characters becomes one dash, and nothing else changes. */
  lemma {:induction false} RunBecomesDash(kept: string, run: string, rest: string)
    requires AllAllowed(kept) && run != "" && NoneAllowed(run) && (rest != "" ==> IsIdChar(rest[0]))
    ensures DashRuns(kept + run + rest, false) == kept + "-" + DashRuns(rest, false)
  {
    var s := kept + run + rest;
    if kept == "" {
      assert s[1..] == run[1..] + rest;
      RunIsSkipped(run[1..], rest);
    } else {
      assert s[1..] == kept[1..] + run + rest;
      RunBecomesDash(kept[1..], run, rest);
    }
  }

  lemma {:induction false} TrimmedIsClean(s: string)
    requires forall k :: 0 <= k < |s| ==> IsIdChar(s[k])
    ensures TrimDashDot(s) == "" || IsCleanId(TrimDashDot(s))
    ensures Only(TrimDashDot(s), IsWordChar) == Only(s, IsWordChar)
    decreases |s|
  {
    if s != "" && IsTrimmed(s[0]) {
      TrimmedIsClean(s[1..]);
    } else if s != "" && IsTrimmed(s[|s| - 1]) {
      var last := [s[|s| - 1]];
      TrimmedIsClean(s[..|s| - 1]);
      assert s == s[..|s| - 1] + last;
      OnlyOfConcat(s[..|s| - 1], last, IsWordChar);
    }
  }

  /** A sanitized id keeps letters, digits and underscores in order, and is empty exactly without any. */
  lemma SanitizedIsClean(id: string)
    ensures Only(Sanitize(id), IsWordChar) == Only(Strip(id), IsWordChar)
    ensures if Only(Strip(id), IsWordChar) == "" then Sanitize(id) == "" else IsCleanId(Sanitize(id))
  {
    DashedIsAllowed(Strip(id), false);
    TrimmedIsClean(DashRuns(Strip(id), false));
    if IsCleanId(Sanitize(id)) {
      assert Only(Sanitize(id), IsWordChar)[0] == Sanitize(id)[0];
    }
  }

  lemma {:induction false} DashRunsStay(s: string, inRun: bool)
    requires forall k :: 0 <= k < |s| ==> IsIdChar(s[k])
    ensures DashRuns(s, inRun) == s
  {
    if s != "" {
      DashRunsStay(s[1..], false);
    }
  }

  /** A clean id stays as it is, so different clean ids get different branches and directories. */
  lemma CleanIdStays(id: string)
    requires IsCleanId(id)
    ensures Sanitize(id) == id
  {
    assert StripLeft(id) == id && StripRight(id) == id;
    DashRunsStay(id, false);
  }

  // -------------------------------------------------------------- file names

  /** Four digits. */
  predicate IsNumber(digits: string) {
    |digits| == 4 && forall k :: 0 <= k < 4 ==> '0' <= digits[k] <= '9'
  }

  /** The names of ADR files: a number, a dash, a slug or anything of its characters, and the extension. */
  lemma AdrNamesAre(name: string)
    ensures IsAdrName(name) <==>
              exists digits: string, slug: string ::
                && name == digits + "-" + slug + ".md" && IsNumber(digits) && slug != ""
                && forall k :: 0 <= k < |slug| ==> IsSlugChar(slug[k]) || slug[k] == '-'
    ensures HasNumberPrefix(name) <==>
              exists digits: string, rest: string :: name == digits + "-" + rest + ".md" && IsNumber(digits)
  {
    if HasNumberPrefix(name) {
      var digits, rest := name[..4], name[5..|name| - 3];
      assert name == digits + "-" + rest + ".md";
    }
    forall digits: string, rest: string | name == digits + "-" + rest + ".md" && IsNumber(digits)
      ensures HasNumberPrefix(name) && rest == name[5..|name| - 3]
    {
      assert name[|name| - 3..] == ".md";
      assert forall k :: 0 <= k < 4 ==> name[k] == digits[k];
    }
  }
}
