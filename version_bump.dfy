/**
 * The pre-commit version bump: find the line `const APP_VERSION = "M.m.p";`
 * in the version file, and rewrite every such line with the patch number
 * one higher. The regular expression `const APP_VERSION = "(\d+)\.(\d+)\.(\d+)";`
 * is modelled by a matcher on ASCII digits: each `\d+` is followed by a
 * character that is not a digit, so the greedy match at a position is the
 * only one, and MatchAt computes it. A match records where it lies and
 * where its groups lie, as Python's `span()` does; the group texts are
 * read off the string.
 */
module VersionBump {
  import opened Wrappers
  import opened Text

  /** The literal text around the three digit groups. */
  datatype Pattern = Pattern(lead: string, close: string)

  const VersionPattern: Pattern := Pattern("const APP_VERSION = \"", "\";")

  /** What the proofs below need of a pattern: its first character occurs
      nowhere else in a line it matches, and digit runs end where it says. */
  predicate GoodPattern(p: Pattern)
  {
    && |p.lead| > 0 && |p.close| > 0
    && !IsDigit(p.close[0])
    && !IsDigit(p.lead[0]) && p.lead[0] != '.'
    && (forall k :: 0 < k < |p.lead| ==> p.lead[k] != p.lead[0])
    && (forall k :: 0 <= k < |p.close| ==> p.close[k] != p.lead[0])
  }

  /** The text the pattern matches for the digit strings x, y and z. */
  function VersionLine(p: Pattern, x: string, y: string, z: string): string
  {
    p.lead + (x + ("." + (y + ("." + (z + p.close)))))
  }

  /** t occurs in s at position i. */
  predicate StartsAt(s: string, i: nat, t: string)
  {
    i + |t| <= |s| && forall j :: 0 <= j < |t| ==> s[i + j] == t[j]
  }

  /** The length of the longest run of digits starting at i. */
  function DigitRun(s: string, i: nat): (n: nat)
    requires i <= |s|
    ensures i + n <= |s|
    decreases |s| - i
  {
    if i < |s| && IsDigit(s[i]) then 1 + DigitRun(s, i + 1) else 0
  }

  /** The run is made of digits and stops at the end or at a non-digit. */
  lemma {:induction false} DigitRunFacts(s: string, i: nat)
    requires i <= |s|
    ensures var n := DigitRun(s, i);
      && AllDigits(s[i..i + n])
      && (i + n == |s| || !IsDigit(s[i + n]))
    decreases |s| - i
  {
    if i < |s| && IsDigit(s[i]) {
      DigitRunFacts(s, i + 1);
      var n := DigitRun(s, i);
      assert s[i..i + n] == [s[i]] + s[i + 1..i + n];
    }
  }

  /** The positions lo..hi of a group in the searched string. */
  datatype Span = Span(lo: nat, hi: nat)

  /** A match of the pattern: where it starts and ends, and where its three
      groups lie. */
  datatype Match = Match(start: nat, end: nat, major: Span, minor: Span, patch: Span)

  datatype Version = Version(major: nat, minor: nat, patch: nat)

  /** A non-empty run of n digits at a, followed by the character stop. */
  predicate GroupEnds(s: string, a: nat, n: nat, stop: char)
  {
    n > 0 && a + n < |s| && s[a + n] == stop
  }

  /** The match of the pattern that starts at i, if there is one. */
  function MatchAt(p: Pattern, s: string, i: nat): (r: Option<Match>)
    requires i <= |s|
    ensures r.Some? ==> r.value.start == i && i < r.value.end <= |s|
  {
    var a := i + |p.lead|;
    if !StartsAt(s, i, p.lead) then None
    else
      var n1 := DigitRun(s, a);
      if !GroupEnds(s, a, n1, '.') then None
      else
        var b := a + n1 + 1;
        var n2 := DigitRun(s, b);
        if !GroupEnds(s, b, n2, '.') then None
        else
          var c := b + n2 + 1;
          var n3 := DigitRun(s, c);
          if n3 == 0 || !StartsAt(s, c + n3, p.close) then None
          else Some(Match(i, c + n3 + |p.close|, Span(a, a + n1), Span(b, b + n2), Span(c, c + n3)))
  }

  /** `match.group(k)` for the group at sp. */
  function GroupText(s: string, sp: Span): string
  {
    if sp.lo <= sp.hi <= |s| then s[sp.lo..sp.hi] else ""
  }

  /** `int(group)` on a group of digits (a match's groups always are; see
      MatchDigits). */
  function GroupValue(x: string): nat
  {
    if AllDigits(x) then DigitsValue(x) else 0
  }

  /** `map(int, match.groups())`. */
  function VersionOf(s: string, m: Match): Version
  {
    Version(GroupValue(GroupText(s, m.major)), GroupValue(GroupText(s, m.minor)),
            GroupValue(GroupText(s, m.patch)))
  }

  /** `f"{major}.{minor}.{new_patch}"`. */
  function VersionText(v: Version): string
  {
    NatToString(v.major) + "." + NatToString(v.minor) + "." + NatToString(v.patch)
  }

  /** `re.search`: the leftmost match at or after i. */
  function SearchFrom(p: Pattern, s: string, i: nat): (r: Option<Match>)
    requires i <= |s|
    ensures r.Some? ==> i <= r.value.start < |s| && MatchAt(p, s, r.value.start) == r
    ensures r.Some? ==> forall k :: i <= k < r.value.start ==> MatchAt(p, s, k).None?
    ensures r.None? ==> forall k :: i <= k <= |s| ==> MatchAt(p, s, k).None?
    decreases |s| - i
  {
    if i == |s| then None
    else if MatchAt(p, s, i).Some? then MatchAt(p, s, i)
    else SearchFrom(p, s, i + 1)
  }

  /** `re.sub`: from i on, every match, left to right and not overlapping,
      becomes rep; the text between matches is copied. */
  function SubFrom(p: Pattern, s: string, i: nat, rep: string): string
    requires i <= |s|
    decreases |s| - i
  {
    if i == |s| then []
    else match MatchAt(p, s, i)
      case Some(m) => rep + SubFrom(p, s, m.end, rep)
      case None => [s[i]] + SubFrom(p, s, i + 1, rep)
  }

  /** The content to write and the new version, or None when no line
      matches. */
  function BumpWith(p: Pattern, content: string): Option<(string, Version)>
  {
    match SearchFrom(p, content, 0)
    case None => None
    case Some(m) =>
      var next := Bumped(VersionOf(content, m));
      Some((SubFrom(p, content, 0, LineFor(p, next)), next))
  }

  /** The version with the patch number one higher. */
  function Bumped(v: Version): Version
  {
    Version(v.major, v.minor, v.patch + 1)
  }

  /** `f'const APP_VERSION = "{new_version}";'`. */
  function LineFor(p: Pattern, v: Version): string
  {
    VersionLine(p, NatToString(v.major), NatToString(v.minor), NatToString(v.patch))
  }

  function Bump(content: string): Option<(string, Version)>
  {
    BumpWith(VersionPattern, content)
  }

  // ---------------------------------------------------------------- the file

  /** js/version.js as the script sees it. */
  class VersionFile {
    var present: bool
    var content: string

    constructor (present: bool, content: string)
      ensures this.present == present && this.content == content
    {
      this.present := present;
      this.content := content;
    }

    /** increment_version: the file is rewritten only when it exists and
        holds a version line; message is the line the script prints. */
    method Increment() returns (message: string)
      modifies this
      ensures present == old(present)
      ensures !present ==> content == old(content) && message == NotFoundMessage
      ensures present && Bump(old(content)).None? ==> content == old(content) && message == NoParseMessage
      ensures present && Bump(old(content)).Some? ==>
        content == Bump(old(content)).value.0
        && message == DoneMessage + VersionText(Bump(old(content)).value.1)
    {
      if !present {
        message := NotFoundMessage;
        return;
      }
      var found := SearchFrom(VersionPattern, content, 0);
      if found.None? {
        message := NoParseMessage;
        return;
      }
      var next := Bumped(VersionOf(content, found.value));
      content := SubFrom(VersionPattern, content, 0, LineFor(VersionPattern, next));
      message := DoneMessage + VersionText(next);
    }
  }

  const NotFoundMessage: string := "Error: js/version.js not found."
  const NoParseMessage: string := "Error: Could not parse version in js/version.js"
  const DoneMessage: string := "Version incremented to "

  // ---------------------------------------------------------------- occurrences

  lemma StartsAtConcat(s: string, i: nat, t: string, u: string)
    ensures StartsAt(s, i, t + u) <==> StartsAt(s, i, t) && StartsAt(s, i + |t|, u)
  {
    if StartsAt(s, i, t) && StartsAt(s, i + |t|, u) {
      forall j | 0 <= j < |t + u|
        ensures s[i + j] == (t + u)[j]
      {
        if j >= |t| {
          assert s[i + |t| + (j - |t|)] == u[j - |t|];
        }
      }
    }
    if StartsAt(s, i, t + u) {
      forall j | 0 <= j < |t|
        ensures s[i + j] == t[j]
      {
        assert s[i + j] == (t + u)[j];
      }
      forall j | 0 <= j < |u|
        ensures s[i + |t| + j] == u[j]
      {
        assert s[i + (|t| + j)] == (t + u)[|t| + j];
      }
    }
  }

  lemma StartsAtChar(s: string, k: nat, c: char)
    ensures StartsAt(s, k, [c]) <==> k < |s| && s[k] == c
  {
    if k < |s| && s[k] == c {
      assert forall j :: 0 <= j < 1 ==> s[k + j] == [c][j];
    }
    if StartsAt(s, k, [c]) {
      assert s[k + 0] == [c][0];
    }
  }

  lemma StartsAtIndex(s: string, i: nat, t: string, j: nat)
    requires StartsAt(s, i, t) && j < |t|
    ensures s[i + j] == t[j]
  {
  }

  /** A slice of s occurs in s where it was cut. */
  lemma StartsAtSelf(s: string, lo: nat, hi: nat)
    requires lo <= hi <= |s|
    ensures StartsAt(s, lo, s[lo..hi])
  {
  }

  lemma StartsAtSlice(s: string, i: nat, t: string)
    requires StartsAt(s, i, t)
    ensures s[i..i + |t|] == t
  {
  }

  /** An occurrence inside a prefix that two strings share is in both. */
  lemma StartsAtAgree(s: string, t: string, k: nat, L: string, n: nat)
    requires StartsAt(t, k, L) && k + |L| <= n <= |s| && n <= |t| && s[..n] == t[..n]
    ensures StartsAt(s, k, L)
  {
    forall j | 0 <= j < |L|
      ensures s[k + j] == L[j]
    {
      assert s[k + j] == s[..n][k + j] == t[..n][k + j];
    }
  }

  /** A run of digits read off an occurrence of a digit string that is
      followed by the end or a non-digit. */
  lemma {:induction false} RunOfDigits(s: string, a: nat, x: string)
    requires StartsAt(s, a, x) && AllDigits(x)
    requires a + |x| == |s| || !IsDigit(s[a + |x|])
    ensures DigitRun(s, a) == |x|
    decreases |x|
  {
    if x != [] {
      assert s[a] == x[0];
      assert StartsAt(s, a + 1, x[1..]) by {
        forall j | 0 <= j < |x[1..]|
          ensures s[a + 1 + j] == x[1..][j]
        {
          assert s[a + (1 + j)] == x[1 + j];
        }
      }
      RunOfDigits(s, a + 1, x[1..]);
    }
  }

  // ---------------------------------------------------------------- the matcher

  /** What a match at i says about s. */
  lemma MatchAtParts(p: Pattern, s: string, i: nat)
    requires i <= |s| && MatchAt(p, s, i).Some?
    ensures var m := MatchAt(p, s, i).value;
      var a := i + |p.lead|;
      var b := m.major.hi + 1;
      var c := m.minor.hi + 1;
      && StartsAt(s, i, p.lead)
      && m.major == Span(a, a + DigitRun(s, a)) && GroupEnds(s, a, DigitRun(s, a), '.')
      && m.minor == Span(b, b + DigitRun(s, b)) && GroupEnds(s, b, DigitRun(s, b), '.')
      && m.patch == Span(c, c + DigitRun(s, c)) && DigitRun(s, c) > 0
      && StartsAt(s, m.patch.hi, p.close) && m.end == m.patch.hi + |p.close|
  {
  }

  /** MatchAt, read forwards: the lead, runs of n1, n2 and n3 digits ended
      by '.', '.' and the close. */
  lemma MatchAtIs(p: Pattern, s: string, i: nat, n1: nat, n2: nat, n3: nat)
    requires StartsAt(s, i, p.lead)
    requires DigitRun(s, i + |p.lead|) == n1 && GroupEnds(s, i + |p.lead|, n1, '.')
    requires DigitRun(s, i + |p.lead| + n1 + 1) == n2 && GroupEnds(s, i + |p.lead| + n1 + 1, n2, '.')
    requires DigitRun(s, i + |p.lead| + n1 + n2 + 2) == n3 > 0
    requires StartsAt(s, i + |p.lead| + n1 + n2 + 2 + n3, p.close)
    ensures var a := i + |p.lead|;
      var b := a + n1 + 1;
      var c := b + n2 + 1;
      MatchAt(p, s, i) == Some(Match(i, c + n3 + |p.close|, Span(a, a + n1), Span(b, b + n2), Span(c, c + n3)))
  {
  }

  /** The three groups of a match are non-empty digit strings inside s. */
  lemma MatchDigits(p: Pattern, s: string, i: nat)
    requires i <= |s| && MatchAt(p, s, i).Some?
    ensures var m := MatchAt(p, s, i).value;
      && m.major.lo < m.major.hi <= |s| && m.minor.lo < m.minor.hi <= |s| && m.patch.lo < m.patch.hi <= |s|
      && AllDigits(s[m.major.lo..m.major.hi]) && AllDigits(s[m.minor.lo..m.minor.hi])
      && AllDigits(s[m.patch.lo..m.patch.hi])
  {
    var m := MatchAt(p, s, i).value;
    MatchAtParts(p, s, i);
    RunSpan(s, m.major);
    RunSpan(s, m.minor);
    RunSpan(s, m.patch);
  }

  /** The text of the run of digits at a. */
  lemma RunSpan(s: string, sp: Span)
    requires sp.lo <= |s| && sp.hi == sp.lo + DigitRun(s, sp.lo)
    ensures sp.hi <= |s| && AllDigits(s[sp.lo..sp.hi])
  {
    DigitRunFacts(s, sp.lo);
  }

  /** Whatever the pattern matches is a version line made of its groups. */
  lemma MatchSound(p: Pattern, s: string, i: nat)
    requires i <= |s| && MatchAt(p, s, i).Some?
    ensures var m := MatchAt(p, s, i).value;
      var L := VersionLine(p, GroupText(s, m.major), GroupText(s, m.minor), GroupText(s, m.patch));
      StartsAt(s, i, L) && m.end == i + |L|
  {
    MatchAtParts(p, s, i);
    LineOfSpans(p, s, i, MatchAt(p, s, i).value);
  }

  /** The lead, three spans ended by '.', '.' and the close, read as one
      version line. */
  lemma LineOfSpans(p: Pattern, s: string, i: nat, m: Match)
    requires StartsAt(s, i, p.lead) && m.major.lo == i + |p.lead|
    requires m.major.lo <= m.major.hi < |s| && s[m.major.hi] == '.' && m.minor.lo == m.major.hi + 1
    requires m.minor.lo <= m.minor.hi < |s| && s[m.minor.hi] == '.' && m.patch.lo == m.minor.hi + 1
    requires m.patch.lo <= m.patch.hi && StartsAt(s, m.patch.hi, p.close) && m.end == m.patch.hi + |p.close|
    ensures var L := VersionLine(p, GroupText(s, m.major), GroupText(s, m.minor), GroupText(s, m.patch));
      StartsAt(s, i, L) && m.end == i + |L|
  {
    var x, y, z := GroupText(s, m.major), GroupText(s, m.minor), GroupText(s, m.patch);
    StartsAtSelf(s, m.major.lo, m.major.hi);
    StartsAtSelf(s, m.minor.lo, m.minor.hi);
    StartsAtSelf(s, m.patch.lo, m.patch.hi);
    LineAt(p, s, i, x, y, z);
  }

  /** A version line occurs at i exactly when its pieces occur one after
      the other. */
  lemma LineAt(p: Pattern, s: string, i: nat, x: string, y: string, z: string)
    ensures var a := i + |p.lead|;
      var b := a + |x| + 1;
      var c := b + |y| + 1;
      StartsAt(s, i, VersionLine(p, x, y, z)) <==>
      && StartsAt(s, i, p.lead)
      && StartsAt(s, a, x) && a + |x| < |s| && s[a + |x|] == '.'
      && StartsAt(s, b, y) && b + |y| < |s| && s[b + |y|] == '.'
      && StartsAt(s, c, z) && StartsAt(s, c + |z|, p.close)
  {
    var a := i + |p.lead|;
    StartsAtConcat(s, i, p.lead, x + ("." + (y + ("." + (z + p.close)))));
    DotAfter(s, a, x, y + ("." + (z + p.close)));
    DotAfter(s, a + |x| + 1, y, z + p.close);
    StartsAtConcat(s, a + |x| + |y| + 2, z, p.close);
  }

  /** x followed by a dot and rest. */
  lemma DotAfter(s: string, a: nat, x: string, rest: string)
    ensures StartsAt(s, a, x + ("." + rest))
        <==> StartsAt(s, a, x) && a + |x| < |s| && s[a + |x|] == '.' && StartsAt(s, a + |x| + 1, rest)
  {
    StartsAtConcat(s, a, x, "." + rest);
    StartsAtConcat(s, a + |x|, ".", rest);
    StartsAtChar(s, a + |x|, '.');
  }

  /** Every version line with non-empty digit groups is matched, and the
      groups read back as those digit strings. */
  lemma MatchComplete(p: Pattern, s: string, i: nat, x: string, y: string, z: string)
    requires |p.close| > 0 && !IsDigit(p.close[0])
    requires x != [] && y != [] && z != []
    requires AllDigits(x) && AllDigits(y) && AllDigits(z)
    requires StartsAt(s, i, VersionLine(p, x, y, z))
    ensures MatchAt(p, s, i).Some?
    ensures var m := MatchAt(p, s, i).value;
      && m.end == i + |VersionLine(p, x, y, z)|
      && GroupText(s, m.major) == x && GroupText(s, m.minor) == y && GroupText(s, m.patch) == z
  {
    LineAt(p, s, i, x, y, z);
    LineRuns(p, s, i, x, y, z);
    MatchAtIs(p, s, i, |x|, |y|, |z|);
    var a := i + |p.lead|;
    StartsAtSlice(s, a, x);
    StartsAtSlice(s, a + |x| + 1, y);
    StartsAtSlice(s, a + |x| + |y| + 2, z);
  }

  /** The digit runs of a version line occurring at i. */
  lemma LineRuns(p: Pattern, s: string, i: nat, x: string, y: string, z: string)
    requires |p.close| > 0 && !IsDigit(p.close[0])
    requires x != [] && y != [] && z != []
    requires AllDigits(x) && AllDigits(y) && AllDigits(z)
    requires StartsAt(s, i, VersionLine(p, x, y, z))
    ensures var a := i + |p.lead|;
      var b := a + |x| + 1;
      var c := b + |y| + 1;
      && DigitRun(s, a) == |x| && GroupEnds(s, a, |x|, '.')
      && DigitRun(s, b) == |y| && GroupEnds(s, b, |y|, '.')
      && DigitRun(s, c) == |z|
  {
    LineAt(p, s, i, x, y, z);
    var a := i + |p.lead|;
    var b := a + |x| + 1;
    var c := b + |y| + 1;
    RunOfDigits(s, a, x);
    RunOfDigits(s, b, y);
    StartsAtIndex(s, c + |z|, p.close, 0);
    RunOfDigits(s, c, z);
  }

  // ---------------------------------------------------------------- search and substitution

  /** The search returns the first position holding a match. */
  lemma {:induction false} SearchFinds(p: Pattern, s: string, i: nat, j: nat)
    requires i <= j <= |s|
    requires forall k :: i <= k < j ==> MatchAt(p, s, k).None?
    requires MatchAt(p, s, j).Some?
    ensures SearchFrom(p, s, i) == MatchAt(p, s, j)
    decreases j - i
  {
    if i < j {
      SearchFinds(p, s, i + 1, j);
    }
  }

  /** Text holding no match is copied as it is. */
  lemma {:induction false} SubSkip(p: Pattern, s: string, i: nat, j: nat, rep: string)
    requires i <= j <= |s|
    requires forall k :: i <= k < j ==> MatchAt(p, s, k).None?
    ensures SubFrom(p, s, i, rep) == s[i..j] + SubFrom(p, s, j, rep)
    decreases j - i
  {
    if i < j {
      SubStep(p, s, i, rep);
      SubSkip(p, s, i + 1, j, rep);
      assert s[i..j] == [s[i]] + s[i + 1..j];
    }
  }

  lemma SubStep(p: Pattern, s: string, i: nat, rep: string)
    requires i < |s| && MatchAt(p, s, i).None?
    ensures SubFrom(p, s, i, rep) == [s[i]] + SubFrom(p, s, i + 1, rep)
  {
  }

  /** Without a version line, the substitution changes nothing. */
  lemma NoMatchUnchanged(p: Pattern, s: string, rep: string)
    requires SearchFrom(p, s, 0).None?
    ensures SubFrom(p, s, 0, rep) == s
  {
    SubSkip(p, s, 0, |s|, rep);
  }

  // ---------------------------------------------------------------- re-parsing

  /** The version line of the script meets what the proofs need. */
  lemma VersionPatternGood()
    ensures GoodPattern(VersionPattern)
  {
    var lead := VersionPattern.lead;
    assert lead[0] == 'c';
    assert forall k :: 0 < k < |lead| ==> lead[k] != 'c';
  }

  /** Where the parts sit inside a version line. */
  lemma LineParts(p: Pattern, x: string, y: string, z: string)
    ensures var L := VersionLine(p, x, y, z);
      var a := |p.lead|;
      var b := a + |x| + 1;
      var c := b + |y| + 1;
      && |L| == c + |z| + |p.close|
      && L[..a] == p.lead
      && L[a..a + |x|] == x && L[a + |x|] == '.'
      && L[b..b + |y|] == y && L[b + |y|] == '.'
      && L[c..c + |z|] == z && L[c + |z|..] == p.close
  {
    var L := VersionLine(p, x, y, z);
    var a := |p.lead|;
    var b := a + |x| + 1;
    var c := b + |y| + 1;
    assert L[..a] == p.lead;
    assert L[a..a + |x|] == x;
    assert L[b..b + |y|] == y;
    assert L[c..c + |z|] == z;
  }

  /** The first character of a version line occurs nowhere else in it. */
  lemma OnlyLeadingChar(p: Pattern, x: string, y: string, z: string, k: nat)
    requires GoodPattern(p)
    requires AllDigits(x) && AllDigits(y) && AllDigits(z)
    requires 0 < k < |VersionLine(p, x, y, z)|
    ensures VersionLine(p, x, y, z)[k] != p.lead[0]
  {
    var L := VersionLine(p, x, y, z);
    LineParts(p, x, y, z);
    var a := |p.lead|;
    var b := a + |x| + 1;
    var c := b + |y| + 1;
    if k < a {
      assert L[k] == L[..a][k];
    } else if k < a + |x| {
      assert L[k] == L[a..a + |x|][k - a];
    } else if b <= k < b + |y| {
      assert L[k] == L[b..b + |y|][k - b];
    } else if c <= k < c + |z| {
      assert L[k] == L[c..c + |z|][k - c];
    } else if k >= c + |z| {
      assert L[k] == L[c + |z|..][k - c - |z|];
    }
  }

  /** No match starts at k in t when t agrees with s before start, s has no
      match at k, and a fresh line begins at start. */
  lemma NoMatchBefore(p: Pattern, s: string, t: string, start: nat, k: nat)
    requires GoodPattern(p)
    requires k < start <= |s| && start < |t| && s[..start] == t[..start]
    requires MatchAt(p, s, k).None?
    requires t[start] == p.lead[0]
    ensures MatchAt(p, t, k).None?
  {
    if MatchAt(p, t, k).Some? {
      var m := MatchAt(p, t, k).value;
      MatchSound(p, t, k);
      MatchDigits(p, t, k);
      var x, y, z := GroupText(t, m.major), GroupText(t, m.minor), GroupText(t, m.patch);
      var L := VersionLine(p, x, y, z);
      if m.end > start {
        StartsAtIndex(t, k, L, start - k);
        OnlyLeadingChar(p, x, y, z, start - k);
        assert false;
      } else {
        StartsAtAgree(s, t, k, L, start);
        MatchComplete(p, s, k, x, y, z);
        assert false;
      }
    }
  }

  /** A string occurs in a concatenation where it was put. */
  lemma StartsAtMiddle(u: string, w: string, v: string)
    ensures StartsAt(u + w + v, |u|, w)
  {
    StartsAtSelf(u + w + v, |u|, |u| + |w|);
    assert (u + w + v)[|u|..|u| + |w|] == w;
  }

  /** A version line put at start, after text that agrees with s and in
      which s has no match, is the first match the search finds. */
  lemma FoundAgain(p: Pattern, s: string, t: string, start: nat, x: string, y: string, z: string)
    requires GoodPattern(p)
    requires x != [] && y != [] && z != [] && AllDigits(x) && AllDigits(y) && AllDigits(z)
    requires start <= |s| && start <= |t| && s[..start] == t[..start]
    requires forall k :: 0 <= k < start ==> MatchAt(p, s, k).None?
    requires StartsAt(t, start, VersionLine(p, x, y, z))
    ensures SearchFrom(p, t, 0).Some?
    ensures var m := SearchFrom(p, t, 0).value;
      GroupText(t, m.major) == x && GroupText(t, m.minor) == y && GroupText(t, m.patch) == z
  {
    StartsAtIndex(t, start, VersionLine(p, x, y, z), 0);
    forall k | 0 <= k < start
      ensures MatchAt(p, t, k).None?
    {
      NoMatchBefore(p, s, t, start, k);
    }
    MatchComplete(p, t, start, x, y, z);
    SearchFinds(p, t, 0, start);
  }

  /** The bumped content: the text before the first match, the new line,
      and the substitution of the rest. */
  lemma BumpLayout(p: Pattern, content: string)
    requires BumpWith(p, content).Some?
    ensures var m0 := SearchFrom(p, content, 0).value;
      var (t, next) := BumpWith(p, content).value;
      && StartsAt(t, m0.start, LineFor(p, next))
      && t[..m0.start] == content[..m0.start]
  {
    var m0 := SearchFrom(p, content, 0).value;
    var (t, next) := BumpWith(p, content).value;
    var line := LineFor(p, next);
    var rest := SubFrom(p, content, m0.end, line);
    SubSkip(p, content, 0, m0.start, line);
    assert t == content[..m0.start] + line + rest;
    StartsAtMiddle(content[..m0.start], line, rest);
  }

  /** The version line written back is found again by the same search, and
      it reads as the new version. */
  lemma BumpWithReparses(p: Pattern, content: string)
    requires GoodPattern(p)
    requires BumpWith(p, content).Some?
    ensures var (t, next) := BumpWith(p, content).value;
      var m := SearchFrom(p, t, 0);
      m.Some? && VersionOf(t, m.value) == next
  {
    var m0 := SearchFrom(p, content, 0).value;
    var (t, next) := BumpWith(p, content).value;
    var x, y, z := NatToString(next.major), NatToString(next.minor), NatToString(next.patch);
    BumpLayout(p, content);
    FoundAgain(p, content, t, m0.start, x, y, z);
    DigitsValueOfNatToString(next.major);
    DigitsValueOfNatToString(next.minor);
    DigitsValueOfNatToString(next.patch);
  }

  /** After a bump the file parses as (major, minor, patch + 1), so a
      second bump moves the patch on by one more. */
  lemma BumpReparses(content: string)
    requires Bump(content).Some?
    ensures var (t, next) := Bump(content).value;
      && SearchFrom(VersionPattern, t, 0).Some?
      && VersionOf(t, SearchFrom(VersionPattern, t, 0).value) == next
      && Bump(t).Some? && Bump(t).value.1 == Bumped(next)
  {
    VersionPatternGood();
    BumpWithReparses(VersionPattern, content);
  }

  /** Major and minor keep their values and patch grows by one; a file
      with no version line is left alone. */
  lemma BumpSpec(content: string)
    ensures Bump(content).None? <==> SearchFrom(VersionPattern, content, 0).None?
    ensures Bump(content).Some? ==>
      var v := VersionOf(content, SearchFrom(VersionPattern, content, 0).value);
      Bump(content).value.1 == Bumped(v)
    ensures SearchFrom(VersionPattern, content, 0).None? ==>
      forall rep :: SubFrom(VersionPattern, content, 0, rep) == content
  {
    if SearchFrom(VersionPattern, content, 0).None? {
      forall rep ensures SubFrom(VersionPattern, content, 0, rep) == content {
        NoMatchUnchanged(VersionPattern, content, rep);
      }
    }
  }
}
