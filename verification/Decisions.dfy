/** Architecture decision records: naming, numbering and the idempotent write. */
module Decisions {
  import opened Text
  import opened Contracts
  import opened Document
  import opened Repository

  predicate IsDigit(c: char) {
    '0' <= c <= '9'
  }

  predicate IsSlugChar(c: char) {
    ('a' <= c <= 'z') || IsDigit(c)
  }

  function SlugRuns(s: string, inRun: bool): string
  {
    if s == "" then ""
    else if IsSlugChar(s[0]) then [s[0]] + SlugRuns(s[1..], false)
    else if inRun then SlugRuns(s[1..], true)
    else "-" + SlugRuns(s[1..], true)
  }

  function TrimDash(s: string): string
    decreases |s|
  {
    if s != "" && s[0] == '-' then TrimDash(s[1..])
    else if s != "" && s[|s| - 1] == '-' then TrimDash(s[..|s| - 1])
    else s
  }

  /** `slugify`: never empty, and only lower-case letters, digits and dashes. */
  function Slugify(title: string): string
  {
    var slug := TrimDash(SlugRuns(Lower(Strip(title)), false));
    if slug == "" then "decision" else slug
  }

  function Digit(n: nat): char
    requires n < 10
  {
    ('0' as int + n) as char
  }

  function DigitValue(c: char): nat
    requires IsDigit(c)
  {
    c as int - '0' as int
  }

  /** `f"{number:04d}"`. */
  function Padded(n: nat): string {
    if n < 10000
    then [Digit(n / 1000), Digit(n / 100 % 10), Digit(n / 10 % 10), Digit(n % 10)]
    else Padded(n / 10) + [Digit(n % 10)]
  }

  function AdrName(n: nat, title: string): string {
    Padded(n) + "-" + Slugify(title) + ".md"
  }

  predicate HasNumberPrefix(name: string) {
    && |name| >= 8
    && (forall i :: 0 <= i < 4 ==> IsDigit(name[i]))
    && name[4] == '-'
    && name[|name| - 3..] == ".md"
  }

  /** `_ADR_FILENAME_RE`. */
  predicate IsAdrName(name: string) {
    && HasNumberPrefix(name)
    && |name| >= 9
    && forall i :: 5 <= i < |name| - 3 ==> IsSlugChar(name[i]) || name[i] == '-'
  }

  function NumberOf(name: string): nat
    requires HasNumberPrefix(name)
  {
    DigitValue(name[0]) * 1000 + DigitValue(name[1]) * 100 + DigitValue(name[2]) * 10 + DigitValue(name[3])
  }

  predicate IsLargestNumber(names: set<string>, n: nat) {
    && (n == 0 || exists name :: name in names && HasNumberPrefix(name) && NumberOf(name) == n)
    && forall name :: name in names && HasNumberPrefix(name) ==> NumberOf(name) <= n
  }

  lemma {:induction false} LargestNumberExists(names: set<string>)
    ensures exists n: nat :: n <= 9999 && IsLargestNumber(names, n)
  {
    if names == {} {
      assert IsLargestNumber(names, 0);
    } else {
      var name :| name in names;
      LargestNumberExists(names - {name});
      var n: nat :| n <= 9999 && IsLargestNumber(names - {name}, n);
      assert names == (names - {name}) + {name};
      var m := if HasNumberPrefix(name) && NumberOf(name) > n then NumberOf(name) else n;
      assert IsLargestNumber(names, m);
    }
  }

  /** `next_adr_number`: one above the largest number already in use. */
  function NextAdrNumber(names: set<string>): nat
  {
    LargestNumberExists(names);
    var n: nat :| n <= 9999 && IsLargestNumber(names, n);
    n + 1
  }

  // ------------------------------------------------------- generated targets

  lemma {:induction false} SlugRunsAreSlugs(s: string, inRun: bool)
    ensures forall i :: 0 <= i < |SlugRuns(s, inRun)| ==> IsSlugChar(SlugRuns(s, inRun)[i]) || SlugRuns(s, inRun)[i] == '-'
  {
    if s != "" {
      SlugRunsAreSlugs(s[1..], !IsSlugChar(s[0]));
    }
  }

  lemma {:induction false} TrimDashKeeps(s: string)
    ensures forall c :: c in TrimDash(s) ==> c in s
    decreases |s|
  {
    if s != "" && s[0] == '-' {
      TrimDashKeeps(s[1..]);
    } else if s != "" && s[|s| - 1] == '-' {
      TrimDashKeeps(s[..|s| - 1]);
    }
  }

  /** A slug is never empty and has only lower-case letters, digits and dashes. */
  lemma SlugifyIsSlug(title: string)
    ensures Slugify(title) != ""
    ensures forall i :: 0 <= i < |Slugify(title)| ==> IsSlugChar(Slugify(title)[i]) || Slugify(title)[i] == '-'
  {
    var runs := SlugRuns(Lower(Strip(title)), false);
    SlugRunsAreSlugs(Lower(Strip(title)), false);
    TrimDashKeeps(runs);
    forall i | 0 <= i < |TrimDash(runs)|
      ensures IsSlugChar(TrimDash(runs)[i]) || TrimDash(runs)[i] == '-'
    {
      assert TrimDash(runs)[i] in runs;
    }
  }

  /** The next number is one above the largest in use, and at most 10000. */
  lemma NextAdrNumberIsNext(names: set<string>)
    ensures 1 <= NextAdrNumber(names) <= 10000 && IsLargestNumber(names, NextAdrNumber(names) - 1)
  {
    LargestNumberExists(names);
  }

  lemma DecimalDigits(n: nat)
    requires n <= 9999
    ensures n / 1000 <= 9 && n == n / 1000 * 1000 + n / 100 % 10 * 100 + n / 10 % 10 * 10 + n % 10
  {
    assert n / 10 / 10 == n / 100 && n / 100 / 10 == n / 1000;
    assert n / 100 == n / 1000 * 10 + n / 100 % 10 && n / 10 == n / 100 * 10 + n / 10 % 10;
  }

  /** Four digits, a dash, a slug and the extension make an allowed name. */
  lemma NameParts(digits: string, slug: string)
    requires |digits| == 4 && (forall i :: 0 <= i < 4 ==> IsDigit(digits[i])) && slug != ""
    requires forall i :: 0 <= i < |slug| ==> IsSlugChar(slug[i]) || slug[i] == '-'
    ensures var name := digits + "-" + slug + ".md";
      && IsAdrName(name)
      && NumberOf(name) == DigitValue(digits[0]) * 1000 + DigitValue(digits[1]) * 100 + DigitValue(digits[2]) * 10 + DigitValue(digits[3])
  {
    var name := digits + "-" + slug + ".md";
    assert name[|name| - 3..] == ".md";
    forall i | 5 <= i < |name| - 3
      ensures name[i] == slug[i - 5]
    {
    }
  }

  lemma NumberOfAdrName(n: nat, title: string)
    requires n <= 9999
    ensures IsAdrName(AdrName(n, title)) && NumberOf(AdrName(n, title)) == n
  {
    SlugifyIsSlug(title);
    DecimalDigits(n);
    var digits := [Digit(n / 1000), Digit(n / 100 % 10), Digit(n / 10 % 10), Digit(n % 10)];
    assert Padded(n) == digits;
    NameParts(digits, Slugify(title));
  }

  /** The target chosen for a decision is allowed, and no file of that name exists, if and only if
      the four-digit numbers have not run out. */
  lemma GeneratedNameIsFree(names: set<string>, title: string)
    ensures var name := AdrName(NextAdrNumber(names), title);
      && (IsAdrName(name) <==> NextAdrNumber(names) <= 9999)
      && (IsAdrName(name) ==> name !in names)
  {
    var n := NextAdrNumber(names);
    NextAdrNumberIsNext(names);
    if n <= 9999 {
      NumberOfAdrName(n, title);
    } else {
      assert Padded(10000) == Padded(1000) + [Digit(0)];
      assert AdrName(n, title)[4] == '0';
    }
  }

  function NameSet(names: seq<string>): set<string> {
    set k | 0 <= k < |names| :: names[k]
  }

  lemma NameSetGrows(names: seq<string>, k: nat)
    requires k < |names|
    ensures NameSet(names[..k + 1]) == NameSet(names[..k]) + {names[k]}
  {
    assert names[..k + 1] == names[..k] + [names[k]];
    forall name | name in NameSet(names[..k])
      ensures name in NameSet(names[..k + 1])
    {
      var j :| 0 <= j < k && names[..k][j] == name;
      assert names[..k + 1][j] == name;
    }
    assert names[..k + 1][k] == names[k];
  }

  lemma LargestNumberIsUnique(names: set<string>, a: nat, b: nat)
    requires IsLargestNumber(names, a) && IsLargestNumber(names, b)
    ensures a == b
  {
  }

  /** `next_adr_number`: the loop over the directory. */
  method FindNextAdrNumber(names: seq<string>) returns (next: nat)
    ensures next == NextAdrNumber(NameSet(names))
  {
    var largest := 0;
    for k := 0 to |names|
      invariant IsLargestNumber(NameSet(names[..k]), largest)
    {
      NameSetGrows(names, k);
      if HasNumberPrefix(names[k]) && NumberOf(names[k]) > largest {
        largest := NumberOf(names[k]);
      }
    }
    assert names[..|names|] == names;
    NextAdrNumberIsNext(NameSet(names));
    LargestNumberIsUnique(NameSet(names), largest, NextAdrNumber(NameSet(names)) - 1);
    next := largest + 1;
  }

  // ---------------------------------------------------------------- content

  /** `validate_adr_target`: a direct child of the decisions directory with a generated name. */
  predicate ValidTarget(worktreePath: string, target: AdrPath) {
    target.worktree == worktreePath && IsAdrName(target.name)
  }

  function InsertLine(lines: seq<StatusLine>, at: nat, line: StatusLine): (r: seq<StatusLine>)
    ensures multiset(r) == multiset(lines) + multiset{line}
  {
    var k := if at <= |lines| then at else |lines|;
    assert lines == lines[..k] + lines[k..];
    lines[..k] + [line] + lines[k..]
  }

  /** `write_adr_idempotent` against a persisted target and hash. `at` is where the status
      listing shows the new file. */
  function WriteAdr(g: Git, worktreePath: string, adr: Adr, target: AdrPath, expected: FileText, at: nat): (r: Outcome<Git>)
    ensures !r.Conflicts?
  {
    if Rendered(adr) != expected then GitFails(HashMismatch)
    else if !ValidTarget(worktreePath, target) then GitFails(TargetNotAllowed)
    else if worktreePath !in g.trees then GitFails(FilesystemError)
    else
      var t := g.trees[worktreePath];
      if target.name in t.adrs then
        if t.adrs[target.name] == expected then Ok(g) else GitFails(DifferentContent)
      else
        Ok(g.(trees := g.trees[worktreePath :=
             t.(adrs := t.adrs[target.name := expected], status := InsertLine(t.status, at, UntrackedAdr(target.name)))]))
  }
}
