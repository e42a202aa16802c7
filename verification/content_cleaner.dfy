/**
  The content cleaner: the cleaning pass over crawled markdown, the extraction of an
  article's main text, and the cleaned JSON document built from it. The regular
  expressions of the cleaning pass are opaque: each pattern is a match counter and a
  substitution supplied by the caller.
*/
module ContentCleaner {
  import opened Wrappers
  import opened Json
  import opened Text

  // ---------------------------------------------------------------------------
  // clean_markdown

  /** One removal pattern: how many matches `re.findall` finds, and what `re.sub` leaves. */
  datatype Substitution = Substitution(count: string -> nat, apply: string -> string)

  /**
    The pattern groups in the order they run, each reported under its section name,
    and the rewrites that follow them unconditionally (logo images, whitespace,
    empty list items, empty links, repeated lines).
  */
  datatype CleaningRules = CleaningRules(
    navigation: seq<Substitution>, footer: seq<Substitution>, sidebar: seq<Substitution>,
    rewrites: seq<string -> string>)

  const NavigationSection := "navigation"
  const FooterSection := "footer"
  const SidebarSection := "sidebar"

  /**
    The dict `clean_markdown` returns. `listedSections` is the statistics entry
    `removed_sections`, absent for empty input.
  */
  datatype Cleaning = Cleaning(
    cleanedMarkdown: string, removedSections: seq<string>,
    originalLength: nat, cleanedLength: nat, reductionPercent: real, listedSections: Option<seq<string>>)

  /**
    Runs one group's patterns in order; a pattern with a match rewrites the text and
    appends the section name once.
  */
  function ApplyGroup(text: string, patterns: seq<Substitution>, section: string): (r: (string, seq<string>))
    ensures |r.1| <= |patterns| && forall i :: 0 <= i < |r.1| ==> r.1[i] == section
    ensures r.1 == [] ==> r.0 == text
  {
    if patterns == [] then (text, [])
    else
      var before := ApplyGroup(text, patterns[..|patterns| - 1], section);
      var p := patterns[|patterns| - 1];
      if p.count(before.0) > 0 then (p.apply(before.0), before.1 + [section]) else before
  }

  /** The unconditional rewrites, in order. */
  function Rewrite(text: string, rewrites: seq<string -> string>): string {
    if rewrites == [] then text else rewrites[|rewrites| - 1](Rewrite(text, rewrites[..|rewrites| - 1]))
  }

  predicate NoDuplicates(xs: seq<string>) {
    forall i, j :: 0 <= i < j < |xs| ==> xs[i] != xs[j]
  }

  /**
    `list(set(xs))`: the distinct elements. Python lists them in its set's iteration
    order; this keeps first occurrences.
  */
  function Distinct(xs: seq<string>): (r: seq<string>)
    ensures NoDuplicates(r)
    ensures forall x :: x in r <==> x in xs
  {
    if xs == [] then []
    else
      var rest := Distinct(xs[..|xs| - 1]);
      if xs[|xs| - 1] in rest then rest else rest + [xs[|xs| - 1]]
  }

  /** The percentage by which cleaning shortened the text, before rounding. */
  function Reduction(originalLength: nat, cleanedLength: nat): real {
    if originalLength > 0 then (originalLength - cleanedLength) as real / originalLength as real * 100.0 else 0.0
  }

  /** The three groups, in order, from the input; the text they leave and the sections. */
  function Removed(markdown: string, rules: CleaningRules): (r: (string, seq<string>))
    ensures forall x :: x in r.1 ==> x in {NavigationSection, FooterSection, SidebarSection}
  {
    var nav := ApplyGroup(markdown, rules.navigation, NavigationSection);
    var footer := ApplyGroup(nav.0, rules.footer, FooterSection);
    var sidebar := ApplyGroup(footer.0, rules.sidebar, SidebarSection);
    (sidebar.0, nav.1 + footer.1 + sidebar.1)
  }

  /** What `clean_markdown` returns. */
  function Cleaned(markdown: string, rules: CleaningRules): (r: Cleaning)
    // Empty input: empty output, nothing removed, all-zero statistics.
    ensures markdown == "" ==> r == Cleaning("", [], 0, 0, 0.0, None)
    ensures markdown != "" ==>
              r.originalLength == |markdown| && r.cleanedLength == |r.cleanedMarkdown| &&
              r.listedSections == Some(r.removedSections) &&
              r.reductionPercent == Reduction(|markdown|, |r.cleanedMarkdown|)
    ensures Trimmed(r.cleanedMarkdown)
    ensures NoDuplicates(r.removedSections)
    ensures forall x :: x in r.removedSections ==> x in {NavigationSection, FooterSection, SidebarSection}
  {
    if markdown == "" then Cleaning("", [], 0, 0, 0.0, None)
    else
      var removed := Removed(markdown, rules);
      var cleaned := Strip(Rewrite(removed.0, rules.rewrites));
      var sections := Distinct(removed.1);
      Cleaning(cleaned, sections, |markdown|, |cleaned|, Reduction(|markdown|, |cleaned|), Some(sections))
  }

  /** `clean_markdown`. */
  method CleanMarkdown(markdown: string, rules: CleaningRules) returns (r: Cleaning)
    ensures r == Cleaned(markdown, rules)
  {
    if markdown == "" {
      return Cleaning("", [], 0, 0, 0.0, None);
    }
    var cleaned := markdown;
    var removedSections: seq<string> := [];
    var groups := [(rules.navigation, NavigationSection), (rules.footer, FooterSection), (rules.sidebar, SidebarSection)];
    for g := 0 to 3
      invariant g == 0 ==> cleaned == markdown && removedSections == []
      invariant g == 1 ==> (cleaned, removedSections) == ApplyGroup(markdown, rules.navigation, NavigationSection)
      invariant g == 2 ==>
                  var nav := ApplyGroup(markdown, rules.navigation, NavigationSection);
                  var footer := ApplyGroup(nav.0, rules.footer, FooterSection);
                  (cleaned, removedSections) == (footer.0, nav.1 + footer.1)
      invariant g == 3 ==>
                  var nav := ApplyGroup(markdown, rules.navigation, NavigationSection);
                  var footer := ApplyGroup(nav.0, rules.footer, FooterSection);
                  var sidebar := ApplyGroup(footer.0, rules.sidebar, SidebarSection);
                  (cleaned, removedSections) == (sidebar.0, nav.1 + footer.1 + sidebar.1)
    {
      var reported;
      cleaned, reported := RunGroup(cleaned, groups[g].0, groups[g].1);
      if g == 0 {
        assert removedSections + reported == reported;
      }
      removedSections := removedSections + reported;
    }
    for k := 0 to |rules.rewrites|
      invariant cleaned == Rewrite(Removed(markdown, rules).0, rules.rewrites[..k])
    {
      assert rules.rewrites[..k + 1][..k] == rules.rewrites[..k];
      cleaned := rules.rewrites[k](cleaned);
    }
    assert rules.rewrites[..|rules.rewrites|] == rules.rewrites;
    cleaned := Strip(cleaned);
    var sections := Distinct(removedSections);
    r := Cleaning(cleaned, sections, |markdown|, |cleaned|, Reduction(|markdown|, |cleaned|), Some(sections));
  }

  /** The pattern loop of one group: computes `ApplyGroup`. */
  method RunGroup(text: string, patterns: seq<Substitution>, section: string) returns (cleaned: string, reported: seq<string>)
    ensures (cleaned, reported) == ApplyGroup(text, patterns, section)
  {
    cleaned, reported := text, [];
    assert patterns[..0] == [];
    for k := 0 to |patterns|
      invariant (cleaned, reported) == ApplyGroup(text, patterns[..k], section)
    {
      assert patterns[..k + 1][..k] == patterns[..k];
      if patterns[k].count(cleaned) > 0 {
        cleaned := patterns[k].apply(cleaned);
        reported := reported + [section];
      }
    }
    assert patterns[..|patterns|] == patterns;
  }

  /** A section is reported exactly when one of its patterns matched when its turn came. */
  lemma SectionReportedWhenMatched(markdown: string, rules: CleaningRules)
    requires markdown != ""
    ensures var nav := ApplyGroup(markdown, rules.navigation, NavigationSection);
      var footer := ApplyGroup(nav.0, rules.footer, FooterSection);
      var sidebar := ApplyGroup(footer.0, rules.sidebar, SidebarSection);
      var sections := Cleaned(markdown, rules).removedSections;
      (NavigationSection in sections <==> nav.1 != []) &&
      (FooterSection in sections <==> footer.1 != []) &&
      (SidebarSection in sections <==> sidebar.1 != [])
  {
    var nav := ApplyGroup(markdown, rules.navigation, NavigationSection);
    var footer := ApplyGroup(nav.0, rules.footer, FooterSection);
    var sidebar := ApplyGroup(footer.0, rules.sidebar, SidebarSection);
    assert Cleaned(markdown, rules).removedSections == Distinct(nav.1 + footer.1 + sidebar.1);
    SectionsOfGroups(nav.1, footer.1, sidebar.1);
  }

  /** In the concatenated reports, each section name comes from its own group only. */
  lemma SectionsOfGroups(nav: seq<string>, footer: seq<string>, sidebar: seq<string>)
    requires forall i :: 0 <= i < |nav| ==> nav[i] == NavigationSection
    requires forall i :: 0 <= i < |footer| ==> footer[i] == FooterSection
    requires forall i :: 0 <= i < |sidebar| ==> sidebar[i] == SidebarSection
    ensures (NavigationSection in nav + footer + sidebar <==> nav != []) &&
            (FooterSection in nav + footer + sidebar <==> footer != []) &&
            (SidebarSection in nav + footer + sidebar <==> sidebar != [])
  {
    var all := nav + footer + sidebar;
    assert NavigationSection != FooterSection && NavigationSection != SidebarSection && FooterSection != SidebarSection by {
      assert NavigationSection[0] == 'n' && FooterSection[0] == 'f' && SidebarSection[0] == 's';
    }
    if nav != [] {
      assert all[0] == nav[0];
    }
    if footer != [] {
      assert all[|nav|] == footer[0];
    }
    if sidebar != [] {
      assert all[|nav| + |footer|] == sidebar[0];
    }
  }

  /** Substitutions and rewrites that never lengthen a text. */
  ghost predicate NonExpanding(rules: CleaningRules) {
    (forall p, s :: p in rules.navigation + rules.footer + rules.sidebar ==> |p.apply(s)| <= |s|) &&
    (forall f, s :: f in rules.rewrites ==> |f(s)| <= |s|)
  }

  lemma {:induction false} ApplyGroupShortens(text: string, patterns: seq<Substitution>, section: string)
    requires forall p, s :: p in patterns ==> |p.apply(s)| <= |s|
    ensures |ApplyGroup(text, patterns, section).0| <= |text|
  {
    if patterns != [] {
      var init := patterns[..|patterns| - 1];
      assert forall p :: p in init ==> p in patterns;
      ApplyGroupShortens(text, init, section);
      assert patterns[|patterns| - 1] in patterns;
    }
  }

  lemma {:induction false} RewriteShortens(text: string, rewrites: seq<string -> string>)
    requires forall f, s :: f in rewrites ==> |f(s)| <= |s|
    ensures |Rewrite(text, rewrites)| <= |text|
  {
    if rewrites != [] {
      var init := rewrites[..|rewrites| - 1];
      assert forall f :: f in init ==> f in rewrites;
      RewriteShortens(text, init);
      assert rewrites[|rewrites| - 1] in rewrites;
    }
  }

  /** With patterns that only delete, cleaning never lengthens the text. */
  lemma CleaningShortens(markdown: string, rules: CleaningRules)
    requires NonExpanding(rules)
    ensures |Cleaned(markdown, rules).cleanedMarkdown| <= |markdown|
  {
    if markdown != "" {
      var groups := rules.navigation + rules.footer + rules.sidebar;
      assert forall p :: p in rules.navigation ==> p in groups;
      assert forall p :: p in rules.footer ==> p in groups;
      assert forall p :: p in rules.sidebar ==> p in groups;
      var nav := ApplyGroup(markdown, rules.navigation, NavigationSection);
      var footer := ApplyGroup(nav.0, rules.footer, FooterSection);
      ApplyGroupShortens(markdown, rules.navigation, NavigationSection);
      ApplyGroupShortens(nav.0, rules.footer, FooterSection);
      ApplyGroupShortens(footer.0, rules.sidebar, SidebarSection);
      RewriteShortens(Removed(markdown, rules).0, rules.rewrites);
    }
  }

  /** The reduction of a text that did not grow lies between 0 and 100 percent. */
  lemma ReductionBounds(originalLength: nat, cleanedLength: nat)
    requires cleanedLength <= originalLength
    ensures 0.0 <= Reduction(originalLength, cleanedLength) <= 100.0
  {
    if originalLength > 0 {
      var n := originalLength as real;
      var d := (originalLength - cleanedLength) as real;
      assert 0.0 <= d <= n;
      assert d / n <= 1.0;
    }
  }

  /** With patterns that only delete, the reported reduction is a percentage. */
  lemma ReductionIsPercentage(markdown: string, rules: CleaningRules)
    requires NonExpanding(rules)
    ensures 0.0 <= Cleaned(markdown, rules).reductionPercent <= 100.0
  {
    CleaningShortens(markdown, rules);
    if markdown != "" {
      ReductionBounds(|markdown|, |Cleaned(markdown, rules).cleanedMarkdown|);
    }
  }

  // ---------------------------------------------------------------------------
  // extract_main_content

  const HotRanking := "\U{70ED}\U{70B9}\U{6392}\U{884C}"
  const RelatedLinks := "\U{76F8}\U{5173}\U{94FE}\U{63A5}"
  const HotTopics := "\U{70ED}\U{70B9}\U{4E13}\U{9898}"
  const HostedBy := "\U{4E3B}\U{529E}"
  const FullwidthColon := '\U{FF1A}'

  /** The boundary patterns: a second-level heading for one of three words, or a hosting line. */
  datatype Boundary = Heading(word: string) | HostLine

  const Boundaries: seq<Boundary> := [Heading(HotRanking), Heading(RelatedLinks), Heading(HotTopics), HostLine]

  /**
    The pattern matches at `i`: `\n##`, any whitespace, the word; or a newline, the
    two hosting characters and a half- or full-width colon.
  */
  predicate MatchesAt(s: string, i: nat, b: Boundary) {
    i <= |s| &&
    match b
    case Heading(word) => StartsWith(s[i..], "\n##") && WordAfterSpaces(s, i + 3, word)
    case HostLine => StartsWith(s[i..], "\n" + HostedBy) && i + 3 < |s| && (s[i + 3] == ':' || s[i + 3] == FullwidthColon)
  }

  /** `\s*` followed by `word`, from position `i` on. */
  predicate WordAfterSpaces(s: string, i: nat, word: string)
    decreases |s| - i
  {
    i <= |s| && (StartsWith(s[i..], word) || (i < |s| && IsSpace(s[i]) && WordAfterSpaces(s, i + 1, word)))
  }

  predicate BoundaryAt(s: string, i: nat) {
    exists k :: 0 <= k < |Boundaries| && MatchesAt(s, i, Boundaries[k])
  }

  /** The leftmost position from `i` on where any boundary pattern matches. */
  function BoundaryFrom(s: string, i: nat): (r: Option<nat>)
    requires i <= |s|
    ensures r.Some? ==> i <= r.value < |s| && BoundaryAt(s, r.value)
    ensures r.Some? ==> forall j :: i <= j < r.value ==> !BoundaryAt(s, j)
    ensures r.None? ==> forall j :: i <= j <= |s| ==> !BoundaryAt(s, j)
    decreases |s| - i
  {
    if i == |s| then None
    else if BoundaryAt(s, i) then Some(i)
    else BoundaryFrom(s, i + 1)
  }

  /** The content cut before its first boundary and stripped again. */
  function Truncated(content: string): (r: string)
    ensures Trimmed(r) || r == content
  {
    match BoundaryFrom(content, 0)
    case None => content
    case Some(b) => Strip(content[..b])
  }

  predicate IsHeading1(line: string) {
    StartsWith(line, "# ") && |line| > 2
  }

  /** A line long enough to be text, and neither a heading nor a link. */
  predicate Substantial(line: string) {
    |Strip(line)| > 50 && !StartsWith(line, "#") && !StartsWith(line, "[")
  }

  /** The first line satisfying `p`. */
  function FirstLine(lines: seq<string>, p: string -> bool): (r: Option<nat>)
    ensures r.Some? ==> r.value < |lines| && p(lines[r.value])
    ensures r.Some? ==> forall j :: 0 <= j < r.value ==> !p(lines[j])
    ensures r.None? ==> forall j :: 0 <= j < |lines| ==> !p(lines[j])
  {
    if lines == [] then None
    else if p(lines[0]) then Some(0)
    else match FirstLine(lines[1..], p)
      case None => None
      case Some(i) => Some(i + 1)
  }

  /**
    What `extract_main_content` returns, described by lines: without a level-one
    heading, the text from the first substantial line (or all of it); with one, the
    lines after it, stripped and cut at the first boundary.
  */
  function MainContent(markdown: string): (r: Option<string>)
    ensures r.None? <==> markdown == ""
    ensures r.Some? ==> Trimmed(r.value)
  {
    if markdown == "" then None
    else
      var lines := Split(markdown, "\n");
      match FirstLine(lines, IsHeading1)
      case None =>
        var start := FirstLine(lines, Substantial).GetOr(0);
        var text := if start > 0 then Join(lines[start..], "\n") else markdown;
        StripGivesTrimmed(text);
        Some(Strip(text))
      case Some(i) =>
        var body := Strip(Join(lines[i + 1..], "\n"));
        StripGivesTrimmed(Join(lines[i + 1..], "\n"));
        Some(Truncated(body))
  }

  /** Without a heading, the main text always starts at a line: the first substantial one, or the first. */
  lemma ContentWithoutHeading(markdown: string)
    requires markdown != "" && FirstLine(Split(markdown, "\n"), IsHeading1).None?
    ensures var lines := Split(markdown, "\n");
      MainContent(markdown) == Some(Strip(Join(lines[FirstLine(lines, Substantial).GetOr(0)..], "\n")))
  {
    var lines := Split(markdown, "\n");
    JoinSplit(markdown, '\n');
    assert lines[0..] == lines;
  }

  /**
    The end of the heading's match is the end of its line, so the text after the
    match, stripped, is the following lines joined and stripped.
  */
  lemma TextAfterLine(markdown: string, i: nat)
    requires i < |Split(markdown, "\n")|
    ensures var lines := Split(markdown, "\n");
      var titleEnd := |Join(lines[..i + 1], "\n")|;
      titleEnd <= |markdown| && Strip(markdown[titleEnd..]) == Strip(Join(lines[i + 1..], "\n"))
  {
    var lines := Split(markdown, "\n");
    JoinSplit(markdown, '\n');
    if i + 1 < |lines| {
      JoinAt(lines, i + 1, "\n");
      TextAfterJoinedLine(lines, i, markdown);
    } else {
      assert lines[..i + 1] == lines;
      assert lines[i + 1..] == [];
    }
  }

  lemma TextAfterJoinedLine(lines: seq<string>, i: nat, markdown: string)
    requires i + 1 < |lines|
    requires markdown == Join(lines[..i + 1], "\n") + "\n" + Join(lines[i + 1..], "\n")
    ensures Strip(markdown[|Join(lines[..i + 1], "\n")|..]) == Strip(Join(lines[i + 1..], "\n"))
  {
    var rest := Join(lines[i + 1..], "\n");
    assert markdown[|Join(lines[..i + 1], "\n")|..] == "\n" + rest;
    StripAfterSpaces("\n", rest);
  }

  /** The leftmost match of one pattern from `i` on. */
  function FirstMatchFrom(s: string, b: Boundary, i: nat): (r: Option<nat>)
    requires i <= |s|
    ensures r.Some? ==> i <= r.value < |s| && MatchesAt(s, r.value, b)
    ensures r.Some? ==> forall j :: i <= j < r.value ==> !MatchesAt(s, j, b)
    ensures r.None? ==> forall j :: i <= j <= |s| ==> !MatchesAt(s, j, b)
    decreases |s| - i
  {
    if i == |s| then None
    else if MatchesAt(s, i, b) then Some(i)
    else FirstMatchFrom(s, b, i + 1)
  }

  /** `re.search` for one pattern: the leftmost match. */
  method Search(s: string, b: Boundary) returns (r: Option<nat>)
    ensures r == FirstMatchFrom(s, b, 0)
  {
    var i := 0;
    while i < |s|
      invariant 0 <= i <= |s|
      invariant FirstMatchFrom(s, b, i) == FirstMatchFrom(s, b, 0)
    {
      if MatchesAt(s, i, b) {
        return Some(i);
      }
      i := i + 1;
    }
    return None;
  }

  /** The smallest match start among the first `k` patterns, or the length when none matches. */
  function Earliest(s: string, patterns: seq<Boundary>, k: nat): (r: nat)
    requires k <= |patterns|
    ensures r <= |s|
  {
    if k == 0 then |s|
    else
      var e := Earliest(s, patterns, k - 1);
      match FirstMatchFrom(s, patterns[k - 1], 0)
      case Some(m) => if m < e then m else e
      case None => e
  }

  /** `Earliest` is a match of one of the patterns, and no pattern matches before it. */
  lemma {:induction false} EarliestIsLeftmost(s: string, patterns: seq<Boundary>, k: nat)
    requires k <= |patterns|
    ensures var e := Earliest(s, patterns, k);
            (e < |s| ==> exists q :: 0 <= q < k && MatchesAt(s, e, patterns[q])) &&
            forall q, j :: 0 <= q < k && 0 <= j < e ==> !MatchesAt(s, j, patterns[q])
  {
    if k > 0 {
      EarliestIsLeftmost(s, patterns, k - 1);
      var e := Earliest(s, patterns, k - 1);
      var r := Earliest(s, patterns, k);
      var first := FirstMatchFrom(s, patterns[k - 1], 0);
      if first.Some? && first.value < e {
        assert r == first.value;
        assert MatchesAt(s, r, patterns[k - 1]);
      } else {
        assert r == e;
      }
    }
  }

  /** The loop over the boundary patterns keeping the smallest match start. */
  method EarliestBoundary(s: string) returns (earliest: nat)
    ensures earliest == match BoundaryFrom(s, 0) case Some(b) => b case None => |s|
  {
    earliest := |s|;
    for k := 0 to |Boundaries|
      invariant earliest == Earliest(s, Boundaries, k)
    {
      var m := Search(s, Boundaries[k]);
      if m.Some? && m.value < earliest {
        earliest := m.value;
      }
    }
    EarliestIsLeftmost(s, Boundaries, |Boundaries|);
    forall j | 0 <= j < earliest ensures !BoundaryAt(s, j) {
    }
    BoundaryFromIs(s, earliest);
  }

  /** A position with no boundary before it, and a boundary at it unless it is the end, is `BoundaryFrom`'s. */
  lemma BoundaryFromIs(s: string, e: nat)
    requires e <= |s|
    requires forall j :: 0 <= j < e ==> !BoundaryAt(s, j)
    requires e < |s| ==> BoundaryAt(s, e)
    ensures (match BoundaryFrom(s, 0) case Some(b) => b case None => |s|) == e
  {
  }

  /** `extract_main_content`. */
  method ExtractMainContent(markdown: string) returns (r: Option<string>)
    ensures r == MainContent(markdown)
  {
    if markdown == "" {
      return None;
    }
    var lines := Split(markdown, "\n");
    var heading := FindLine(lines, IsHeading1);
    if heading.None? {
      var start := FindLine(lines, Substantial);
      var contentStart := if start.Some? then start.value else 0;
      if contentStart > 0 {
        return Some(Strip(Join(lines[contentStart..], "\n")));
      }
      return Some(Strip(markdown));
    }
    var i := heading.value;
    TextAfterLine(markdown, i);
    var titleEnd := |Join(lines[..i + 1], "\n")|;
    var content := Strip(markdown[titleEnd..]);
    var earliest := EarliestBoundary(content);
    if earliest < |content| {
      content := Strip(content[..earliest]);
    }
    return Some(content);
  }

  /** The loop over lines that stops at the first one satisfying `p`. */
  method FindLine(lines: seq<string>, p: string -> bool) returns (r: Option<nat>)
    ensures r == FirstLine(lines, p)
  {
    var i := 0;
    while i < |lines|
      invariant 0 <= i <= |lines|
      invariant forall j :: 0 <= j < i ==> !p(lines[j])
    {
      if p(lines[i]) {
        FirstLineIs(lines, p, i);
        return Some(i);
      }
      i := i + 1;
    }
    return None;
  }

  lemma FirstLineIs(lines: seq<string>, p: string -> bool, i: nat)
    requires i < |lines| && p(lines[i]) && forall j :: 0 <= j < i ==> !p(lines[j])
    ensures FirstLine(lines, p) == Some(i)
  {
    var r := FirstLine(lines, p);
    assert r.Some?;
    assert !(r.value < i) && !(i < r.value);
  }

  /** Whitespace and a word inside an infix of `s` are whitespace and the word in `s`. */
  lemma {:induction false} WordInInfix(s: string, k: nat, m: nat, i: nat, word: string)
    requires k <= m <= |s| && WordAfterSpaces(s[k..m], i, word)
    ensures WordAfterSpaces(s, k + i, word)
    decreases m - k - i
  {
    var t := s[k..m];
    if StartsWith(t[i..], word) {
      assert s[k + i..][..|word|] == t[i..][..|word|];
    } else {
      assert s[k + i] == t[i];
      WordInInfix(s, k, m, i + 1, word);
    }
  }

  /** A boundary inside an infix of `s` is a boundary of `s`. */
  lemma MatchInInfix(s: string, k: nat, m: nat, j: nat, q: nat)
    requires k <= m <= |s| && q < |Boundaries| && MatchesAt(s[k..m], j, Boundaries[q])
    ensures MatchesAt(s, k + j, Boundaries[q]) && k + j < m
  {
    var t := s[k..m];
    assert t[j..] == s[k + j..m];
    match Boundaries[q]
    case Heading(word) =>
      assert s[k + j..][..3] == t[j..][..3];
      WordInInfix(s, k, m, j + 3, word);
    case HostLine =>
      assert s[k + j..][..3] == t[j..][..3];
      assert s[k + j + 3] == t[j + 3];
  }

  /** The cut content holds no boundary: the cut is at the first one. */
  lemma TruncatedHasNoBoundary(content: string)
    ensures forall j :: 0 <= j <= |Truncated(content)| ==> !BoundaryAt(Truncated(content), j)
  {
    match BoundaryFrom(content, 0)
    case None =>
    case Some(b) =>
      StrippedPrefixHasNoBoundary(content, b);
  }

  /** Stripping a boundary-free prefix leaves an infix of the content with no boundary. */
  lemma StrippedPrefixHasNoBoundary(content: string, b: nat)
    requires b <= |content| && forall j :: 0 <= j < b ==> !BoundaryAt(content, j)
    ensures forall j :: 0 <= j <= |Strip(content[..b])| ==> !BoundaryAt(Strip(content[..b]), j)
  {
    var prefix := content[..b];
    var t := Strip(prefix);
    var k := StripIsInfix(prefix);
    var m := k + |t|;
    assert t == content[k..m] by {
      assert prefix[k..m] == content[k..m];
    }
    forall j | 0 <= j <= |t| ensures !BoundaryAt(t, j) {
      NoBoundaryInInfix(content, k, m, j);
    }
  }

  /** `s.strip()` is the infix of `s` that starts after the leading whitespace. */
  lemma StripIsInfix(s: string) returns (k: nat)
    ensures k + |Strip(s)| <= |s| && Strip(s) == s[k..k + |Strip(s)|]
  {
    var front := TrimStart(s);
    k := |s| - |front|;
    assert front == s[k..];
    assert Strip(s) == front[..|Strip(s)|];
  }

  lemma NoBoundaryInInfix(s: string, k: nat, m: nat, j: nat)
    requires k <= m <= |s| && forall i :: k <= i < m ==> !BoundaryAt(s, i)
    ensures !BoundaryAt(s[k..m], j)
  {
    if BoundaryAt(s[k..m], j) {
      var q :| 0 <= q < |Boundaries| && MatchesAt(s[k..m], j, Boundaries[q]);
      MatchInInfix(s, k, m, j, q);
      assert BoundaryAt(s, k + j);
    }
  }

  // ---------------------------------------------------------------------------
  // generate_cleaned_json

  datatype Statistics = Statistics(paragraphCount: nat, characterCount: nat, lineCount: nat)

  /** The positions of the chunks that are not blank once stripped. */
  function NonBlankAt(chunks: seq<string>): set<int> {
    set i | 0 <= i < |chunks| && Strip(chunks[i]) != ""
  }

  /** Adding a chunk at the end adds its position exactly when it is not blank. */
  lemma NonBlankAtSnoc(chunks: seq<string>)
    requires chunks != []
    ensures var n := |chunks| - 1;
            NonBlankAt(chunks) == NonBlankAt(chunks[..n]) + (if Strip(chunks[n]) != "" then {n} else {}) &&
            n !in NonBlankAt(chunks[..n])
  {
  }

  /**
    The chunks between blank lines that hold something besides whitespace, counted
    from the last one back.
  */
  function NonBlank(chunks: seq<string>): (r: nat)
    ensures r <= |chunks|
    ensures chunks != [] && Strip(chunks[0]) != "" ==> r >= 1
  {
    if chunks == [] then 0
    else
      var n := |chunks| - 1;
      NonBlank(chunks[..n]) + (if Strip(chunks[n]) != "" then 1 else 0)
  }

  /** `NonBlank` counts exactly the chunks that are not blank once stripped. */
  lemma {:induction false} NonBlankCounts(chunks: seq<string>)
    ensures NonBlank(chunks) == |NonBlankAt(chunks)|
  {
    if chunks != [] {
      NonBlankCounts(chunks[..|chunks| - 1]);
      NonBlankAtSnoc(chunks);
    }
  }

  /** The statistics of a main text. */
  function StatisticsOf(main: string): (r: Statistics)
    ensures r.characterCount == |main|
    ensures r.lineCount == Count(main, '\n') + 1
    ensures r.paragraphCount <= |Split(main, "\n\n")|
  {
    LineCount(main);
    Statistics(NonBlank(Split(main, "\n\n")), |main|, |Split(main, "\n")|)
  }

  /** `paragraph_count` is the number of chunks between blank lines that are not blank once stripped. */
  lemma ParagraphCount(main: string)
    ensures StatisticsOf(main).paragraphCount == |NonBlankAt(Split(main, "\n\n"))|
  {
    NonBlankCounts(Split(main, "\n\n"));
  }

  /** `line_count` is one more than the number of newlines. */
  lemma LineCount(main: string)
    ensures |Split(main, "\n")| == Count(main, '\n') + 1
  {
    SplitCount(main, '\n');
  }

  /** A non-empty stripped text has at least one paragraph: its first chunk is not blank. */
  lemma ParagraphOfTrimmedText(main: string)
    requires main != "" && Trimmed(main)
    ensures StatisticsOf(main).paragraphCount >= 1
  {
    assert !StartsWith(main, "\n\n") by {
      assert IsSpace('\n');
    }
    SplitFirstPiece(main, "\n\n");
    var first := Split(main, "\n\n")[0];
    assert Strip(first) != "" by {
      assert !IsSpace(first[0]);
      assert TrimStart(first) == first;
    }
  }

  /** Whenever the cleaned JSON has statistics, it counts at least one paragraph. */
  lemma StatisticsCountAParagraph(cleaned: string)
    requires MainContent(cleaned).Some? && MainContent(cleaned).value != ""
    ensures StatisticsOf(MainContent(cleaned).value).paragraphCount >= 1
  {
    ParagraphOfTrimmedText(MainContent(cleaned).value);
  }

  function StatisticsJson(s: Statistics): Json {
    JObject(map["paragraph_count" := JInt(s.paragraphCount), "character_count" := JInt(s.characterCount),
                "line_count" := JInt(s.lineCount)])
  }

  /** `metadata.get(key) if metadata else None`. */
  function MetadataField(metadata: Option<map<string, Json>>, key: string, default: Json): Json {
    if metadata.Some? && metadata.value != map[] then (if key in metadata.value then metadata.value[key] else default)
    else default
  }

  /** The `metadata` object of the cleaned document. */
  function MetadataObject(metadata: Option<map<string, Json>>): (r: Json)
    // Without metadata every field is null, and the keywords an empty list.
    ensures metadata.None? || metadata == Some(map[]) ==>
              r == JObject(map["title" := JNull, "description" := JNull, "language" := JNull,
                               "keywords" := JArray([])])
    // With metadata each field is copied from it, null or an empty keyword list when absent.
    ensures metadata.Some? && metadata.value != map[] ==>
              r == JObject(map["title" := Get(metadata.value, "title"),
                               "description" := Get(metadata.value, "description"),
                               "language" := Get(metadata.value, "language"),
                               "keywords" := if "keywords" in metadata.value then metadata.value["keywords"]
                                             else JArray([])])
  {
    JObject(map[
      "title" := MetadataField(metadata, "title", JNull),
      "description" := MetadataField(metadata, "description", JNull),
      "language" := MetadataField(metadata, "language", JNull),
      "keywords" := MetadataField(metadata, "keywords", JArray([]))])
  }

  /** The document `generate_cleaned_json` builds around the main text it extracted. */
  function CleanedDocument(main: Option<string>, metadata: Option<map<string, Json>>, structured: Json)
    : (r: map<string, Json>)
    ensures "metadata" in r && "content" in r
    ensures "structured_data" in r <==> Truthy(structured)
    ensures "statistics" in r <==> main.Some? && main.value != ""
    ensures r.Keys <= {"metadata", "content", "structured_data", "statistics"}
    ensures r["content"] == JObject(map["main_text" := OfOptString(main), "length" := JInt(|main.GetOr("")|)])
    ensures "structured_data" in r ==> r["structured_data"] == structured
    ensures "statistics" in r ==> r["statistics"] == StatisticsJson(StatisticsOf(main.value))
    ensures r["metadata"] == MetadataObject(metadata)
  {
    var doc := map[
      "metadata" := MetadataObject(metadata),
      "content" := JObject(map[
        "main_text" := OfOptString(main),
        "length" := JInt(if main.Some? && main.value != "" then |main.value| else 0)])];
    var withData := if Truthy(structured) then doc["structured_data" := structured] else doc;
    if main.Some? && main.value != "" then withData["statistics" := StatisticsJson(StatisticsOf(main.value))]
    else withData
  }

  /** `generate_cleaned_json`: the document around `extract_main_content`'s result. */
  function CleanedJson(cleaned: string, metadata: Option<map<string, Json>>, structured: Json): (r: map<string, Json>)
    ensures "metadata" in r && "content" in r
    ensures "structured_data" in r <==> Truthy(structured)
    ensures "statistics" in r <==> MainContent(cleaned).Some? && MainContent(cleaned).value != ""
    ensures "statistics" in r ==> cleaned != ""
  {
    CleanedDocument(MainContent(cleaned), metadata, structured)
  }

  /** Empty markdown gives no main text, a zero length and no statistics. */
  lemma EmptyMarkdownHasNoStatistics(metadata: Option<map<string, Json>>, structured: Json)
    ensures var r := CleanedJson("", metadata, structured);
      "statistics" !in r && r["content"] == JObject(map["main_text" := JNull, "length" := JInt(0)])
  {
  }
}
