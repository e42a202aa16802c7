/**
  Choice of the CSS selector that scopes content extraction (`select_content_selector`):
  the user's `content_selector`, else the legacy `css_selector`, else a fixed heuristic
  list of generic content containers joined into one selector group.
*/
module ContentSelector {
  import opened Json
  import opened Text

  const UserProvidedReason := "user-provided content_selector"
  const LegacyReason := "css_selector (backward compatibility)"
  const HeuristicReason := "heuristic with prioritized default candidates"

  /** The heuristic candidates, most specific first. */
  const DefaultCandidates: seq<string> := [
    "article", "main", "[role=\"main\"]", ".article-content", ".post-content",
    ".detail-content", ".content", "#content", ".main-content", "#main-content",
    ".entry-content", "#main", ".main", ".post"
  ]

  /** The selector group used when the configuration names none. */
  const HeuristicSelector := Join(DefaultCandidates, ", ")

  datatype Selection = Selection(selector: Json, reason: string)

  /** `select_content_selector` over the task's crawl configuration dict. */
  function SelectContentSelector(crawlConfig: map<string, Json>): (r: Selection)
    // Priority 1: a truthy content_selector, verbatim, whatever css_selector holds.
    ensures Truthy(Get(crawlConfig, "content_selector")) ==>
              r == Selection(crawlConfig["content_selector"], UserProvidedReason)
    // Priority 2: a truthy css_selector, verbatim.
    ensures !Truthy(Get(crawlConfig, "content_selector")) && Truthy(Get(crawlConfig, "css_selector")) ==>
              r == Selection(crawlConfig["css_selector"], LegacyReason)
    // Priority 3: the heuristic group.
    ensures !Truthy(Get(crawlConfig, "content_selector")) && !Truthy(Get(crawlConfig, "css_selector")) ==>
              r == Selection(JString(HeuristicSelector), HeuristicReason)
    // No branch yields a null (or otherwise empty) selector.
    ensures Truthy(r.selector)
  {
    if Truthy(Get(crawlConfig, "content_selector")) then
      Selection(crawlConfig["content_selector"], UserProvidedReason)
    else if Truthy(Get(crawlConfig, "css_selector")) then
      Selection(crawlConfig["css_selector"], LegacyReason)
    else
      HeuristicSelectorNonEmpty();
      Selection(JString(HeuristicSelector), HeuristicReason)
  }

  lemma HeuristicSelectorNonEmpty()
    ensures HeuristicSelector != "" && StartsWith(HeuristicSelector, "article")
  {
    JoinStartsWithHead(DefaultCandidates, ", ");
    assert DefaultCandidates[0] == "article";
  }

  /** `[s.strip() for s in xs]`. */
  function StripAll(xs: seq<string>): (r: seq<string>)
    ensures |r| == |xs|
    ensures forall i :: 0 <= i < |xs| ==> r[i] == Strip(xs[i])
  {
    seq(|xs|, i requires 0 <= i < |xs| => Strip(xs[i]))
  }

  /**
    Splitting a `", "`-joined list on `","` and stripping each piece gives the list back,
    for any non-empty list of comma-free pieces without surrounding whitespace.
  */
  lemma SplitStripInvertsJoin(xs: seq<string>)
    requires |xs| >= 1
    requires forall i :: 0 <= i < |xs| ==> ',' !in xs[i] && Trimmed(xs[i])
    ensures StripAll(Split(Join(xs, ", "), ",")) == xs
  {
    var pieces := Split(Join(xs, ", "), ",");
    PiecesOfJoin(xs);
    var stripped := StripAll(pieces);
    forall i | 0 <= i < |xs|
      ensures stripped[i] == xs[i]
    {
      PieceStrips(xs, pieces, i);
    }
  }

  /** The raw pieces of a `", "`-joined list split on `","`. */
  lemma PiecesOfJoin(xs: seq<string>)
    requires |xs| >= 1
    requires forall i :: 0 <= i < |xs| ==> ',' !in xs[i]
    ensures var pieces := Split(Join(xs, ", "), ",");
      |pieces| == |xs| && pieces[0] == xs[0] &&
      forall j :: 0 < j < |xs| ==> pieces[j] == " " + xs[j]
  {
    var joined := Join(xs, ", ");
    assert [','] + " " == ", " && [','] == ",";
    assert "" + joined == joined && "" + xs[0] == xs[0];
    SplitJoin("", xs, ',', " ");
    var pieces := Split(joined, ",");
    var rest := PrefixAll(" ", xs[1..]);
    assert pieces == [xs[0]] + rest;
    forall j | 0 < j < |xs| ensures pieces[j] == " " + xs[j] {
      assert pieces[j] == rest[j - 1];
      assert xs[1..][j - 1] == xs[j];
    }
  }

  lemma PieceStrips(xs: seq<string>, pieces: seq<string>, i: nat)
    requires i < |xs| && Trimmed(xs[i])
    requires |pieces| == |xs| && pieces[0] == xs[0]
    requires forall j :: 0 < j < |xs| ==> pieces[j] == " " + xs[j]
    ensures Strip(pieces[i]) == xs[i]
  {
    if i > 0 {
      StripAfterBlank(xs[i]);
    } else {
      StripTrimmed(xs[i]);
    }
  }

  /** No default candidate contains a comma or surrounding whitespace. */
  lemma CandidatesWellFormed()
    ensures forall i :: 0 <= i < |DefaultCandidates| ==> ',' !in DefaultCandidates[i] && Trimmed(DefaultCandidates[i])
  {
  }

  /**
    The heuristic selector splits back into the 14 candidates, `article` first: a client
    that splits it on commas recovers the candidate list.
  */
  lemma HeuristicSelectorSplitsIntoCandidates()
    ensures StripAll(Split(HeuristicSelector, ",")) == DefaultCandidates
    ensures |DefaultCandidates| == 14 && DefaultCandidates[0] == "article"
  {
    CandidatesWellFormed();
    SplitStripInvertsJoin(DefaultCandidates);
  }
}
