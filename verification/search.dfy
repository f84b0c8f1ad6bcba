/**
 * The deterministic part of `IcebreakerRAG._perform_search`: given what the
 * search provider returned (or the exception it raised), pick the first
 * LinkedIn profile among the organic results and render the retrieval text
 * handed to the summary stage.
 */
module Search {
  import opened Wrappers
  import opened PyStr

  /** One organic result; each field may be missing from the provider's record. */
  datatype OrganicResult = OrganicResult(link: Option<string>, title: Option<string>, snippet: Option<string>)

  /**
   * What the provider call produced: the exception message when it raised,
   * otherwise the `organic_results` entry of the response, absent when the
   * response has no such key.
   */
  datatype SearchOutcome = Failed(message: string) | Ok(organicResults: Option<seq<OrganicResult>>)

  /** The four ways a search can end. */
  datatype Retrieval =
    | NoResults
    | ProfileMatch(result: OrganicResult)
    | NoProfile
    | SearchError(message: string)

  const ProfilePattern := "linkedin.com/in/"
  const MatchMarker := "*** MATCH FOUND (LINKEDIN) ***"
  const NoResultsText := "No relevant results found."
  const NoProfileText := "No LinkedIn found. Using other results."
  const ErrorPrefix := "Error retrieving search results: "

  /** A result is a profile when its link, read as "" when missing, contains the profile path. */
  predicate IsProfile(r: OrganicResult)
    ensures IsProfile(r) ==> r.link.Some? && |r.link.value| >= |ProfilePattern|
  {
    Contains(r.link.GetOr(""), ProfilePattern)
  }

  ghost predicate HasProfile(rs: seq<OrganicResult>) {
    exists i :: 0 <= i < |rs| && IsProfile(rs[i])
  }

  /** `rs[i]` is the first profile of `rs` in provider order. */
  ghost predicate IsFirstProfile(rs: seq<OrganicResult>, i: int) {
    0 <= i < |rs| && IsProfile(rs[i]) && forall j :: 0 <= j < i ==> !IsProfile(rs[j])
  }

  /** Index of the first profile, scanning from the front. */
  function FirstProfile(rs: seq<OrganicResult>): (k: Option<nat>)
    ensures k.Some? <==> HasProfile(rs)
    ensures k.Some? ==> IsFirstProfile(rs, k.value)
  {
    if |rs| == 0 then None
    else if IsProfile(rs[0]) then Some(0)
    else
      var k := FirstProfile(rs[1..]);
      assert forall j :: 1 <= j < |rs| ==> rs[j] == rs[1..][j - 1];
      if k.Some? then Some(k.value + 1) else None
  }

  /** The results list, empty when the response had no `organic_results`. */
  function ResultsOf(outcome: SearchOutcome): seq<OrganicResult>
    requires outcome.Ok?
  {
    outcome.organicResults.GetOr([])
  }

  /** Which of the four cases a provider outcome falls into. */
  function Classify(outcome: SearchOutcome): (c: Retrieval)
    ensures c.SearchError? <==> outcome.Failed?
    ensures c.SearchError? ==> c.message == outcome.message
    ensures c.NoResults? <==> outcome.Ok? && ResultsOf(outcome) == []
    ensures c.ProfileMatch? <==> outcome.Ok? && HasProfile(ResultsOf(outcome))
    ensures c.ProfileMatch? ==> exists i :: IsFirstProfile(ResultsOf(outcome), i) && c.result == ResultsOf(outcome)[i]
    ensures c.NoProfile? <==> outcome.Ok? && ResultsOf(outcome) != [] && !HasProfile(ResultsOf(outcome))
  {
    match outcome
    case Failed(msg) => SearchError(msg)
    case Ok(_) =>
      var rs := ResultsOf(outcome);
      if rs == [] then NoResults
      else match FirstProfile(rs)
        case Some(i) => ProfileMatch(rs[i])
        case None => NoProfile
  }

  /** The text block that reports a profile match, one labelled line per field. */
  function MatchText(r: OrganicResult): (t: string)
    ensures StartsWith(t, MatchMarker)
    ensures |t| > |Format(r.title)| + |Format(r.snippet)| + |Format(r.link)|
  {
    var t := MatchMarker
      + "\n- Title: " + Format(r.title)
      + "\n- Snippet: " + Format(r.snippet)
      + "\n- Link: " + Format(r.link);
    assert t[..|MatchMarker|] == MatchMarker;
    t
  }

  /** The retrieval text for each case. */
  function Render(c: Retrieval): (text: string)
    ensures c.SearchError? <==> StartsWith(text, ErrorPrefix)
    ensures c.ProfileMatch? <==> StartsWith(text, MatchMarker)
    ensures c.NoResults? <==> text == NoResultsText
    ensures c.NoProfile? <==> text == NoProfileText
  {
    match c
    case NoResults =>
      assert NoResultsText[0] != ErrorPrefix[0] && NoResultsText[0] != MatchMarker[0];
      assert NoResultsText[3] != NoProfileText[3];
      NoResultsText
    case ProfileMatch(r) =>
      var t := MatchText(r);
      assert t[0] == MatchMarker[0];
      assert t[0] != ErrorPrefix[0] && t[0] != NoResultsText[0] && t[0] != NoProfileText[0];
      t
    case NoProfile =>
      assert NoProfileText[0] != ErrorPrefix[0] && NoProfileText[0] != MatchMarker[0];
      assert NoProfileText[3] != NoResultsText[3];
      NoProfileText
    case SearchError(msg) =>
      var t := ErrorPrefix + msg;
      assert t[..|ErrorPrefix|] == ErrorPrefix;
      assert t[0] != MatchMarker[0] && t[0] != NoResultsText[0] && t[0] != NoProfileText[0];
      t
  }

  /** What `_perform_search` returns for a provider outcome. */
  function RetrievalText(outcome: SearchOutcome): (text: string)
    ensures outcome.Failed? <==> StartsWith(text, ErrorPrefix)
    ensures outcome.Ok? && HasProfile(ResultsOf(outcome)) <==> StartsWith(text, MatchMarker)
    ensures outcome.Ok? && ResultsOf(outcome) == [] <==> text == NoResultsText
  {
    Render(Classify(outcome))
  }

  /**
   * `_perform_search` after the provider call, written as the source's
   * `for ... break` scan. It never fails: a provider exception becomes text.
   */
  method PerformSearch(outcome: SearchOutcome) returns (text: string)
    ensures outcome.Failed? ==> text == ErrorPrefix + outcome.message
    ensures outcome.Ok? && ResultsOf(outcome) == [] ==> text == NoResultsText
    ensures forall i :: outcome.Ok? && IsFirstProfile(ResultsOf(outcome), i) ==> text == MatchText(ResultsOf(outcome)[i])
    ensures outcome.Ok? && ResultsOf(outcome) != [] && !HasProfile(ResultsOf(outcome)) ==> text == NoProfileText
    ensures text == RetrievalText(outcome)
  {
    if outcome.Failed? {
      return ErrorPrefix + outcome.message;
    }
    var rs := ResultsOf(outcome);
    if rs == [] {
      return NoResultsText;
    }
    var found: Option<OrganicResult> := None;
    var n := 0;
    while n < |rs| && found.None?
      invariant 0 <= n <= |rs|
      invariant found.None? ==> forall j :: 0 <= j < n ==> !IsProfile(rs[j])
      invariant found.Some? ==> IsFirstProfile(rs, n - 1) && found == Some(rs[n - 1])
      decreases |rs| - n
    {
      if IsProfile(rs[n]) {
        found := Some(rs[n]);
      }
      n := n + 1;
    }
    if found.Some? {
      text := MatchText(found.value);
    } else {
      text := NoProfileText;
    }
  }

  /** The profile test is the substring test on the link; a result without a link never matches. */
  lemma IsProfileIff(r: OrganicResult)
    ensures IsProfile(r) <==> r.link.Some? && exists i: nat :: OccursAt(r.link.value, ProfilePattern, i)
  {
    ContainsIff(r.link.GetOr(""), ProfilePattern);
  }

  /** Once a profile has been seen, whatever follows it in the results list is ignored. */
  lemma FirstMatchIgnoresRest(rs: seq<OrganicResult>, i: nat, tail: seq<OrganicResult>)
    requires IsFirstProfile(rs, i)
    ensures Classify(Ok(Some(rs[..i + 1] + tail))) == ProfileMatch(rs[i])
    ensures Classify(Ok(Some(rs))) == ProfileMatch(rs[i])
  {
    var rs' := rs[..i + 1] + tail;
    assert forall j :: 0 <= j <= i ==> rs'[j] == rs[j];
    assert IsFirstProfile(rs', i);
    FirstProfileUnique(rs', i);
    FirstProfileUnique(rs, i);
  }

  /** There is only one first profile. */
  lemma FirstProfileUnique(rs: seq<OrganicResult>, i: nat)
    requires IsFirstProfile(rs, i)
    ensures forall i' :: IsFirstProfile(rs, i') ==> i' == i
  {
  }

  /** The match block opens with the marker and carries title, snippet and link verbatim. */
  lemma MatchTextShowsFields(r: OrganicResult)
    ensures StartsWith(MatchText(r), MatchMarker)
    ensures Contains(MatchText(r), Format(r.title))
    ensures Contains(MatchText(r), Format(r.snippet))
    ensures Contains(MatchText(r), Format(r.link))
  {
    var t, s, l := Format(r.title), Format(r.snippet), Format(r.link);
    var m := MatchMarker + "\n- Title: ";
    StartsWithAppend(MatchMarker, "\n- Title: ", MatchMarker);
    StartsWithAppend(m, t, MatchMarker);
    StartsWithAppend(m + t, "\n- Snippet: ", MatchMarker);
    StartsWithAppend(m + t + "\n- Snippet: ", s, MatchMarker);
    StartsWithAppend(m + t + "\n- Snippet: " + s, "\n- Link: ", MatchMarker);
    StartsWithAppend(m + t + "\n- Snippet: " + s + "\n- Link: ", l, MatchMarker);

    ContainsLast(m, t);
    ContainsAppend(m + t, "\n- Snippet: ", t);
    ContainsAppend(m + t + "\n- Snippet: ", s, t);
    ContainsAppend(m + t + "\n- Snippet: " + s, "\n- Link: ", t);
    ContainsAppend(m + t + "\n- Snippet: " + s + "\n- Link: ", l, t);

    ContainsLast(m + t + "\n- Snippet: ", s);
    ContainsAppend(m + t + "\n- Snippet: " + s, "\n- Link: ", s);
    ContainsAppend(m + t + "\n- Snippet: " + s + "\n- Link: ", l, s);

    ContainsLast(m + t + "\n- Snippet: " + s + "\n- Link: ", l);
  }

  /** The kind of retrieval text a reader can tell apart. */
  datatype Kind = NoResultsKind | MatchKind | NoProfileKind | ErrorKind

  function KindOf(c: Retrieval): Kind {
    match c
    case NoResults => NoResultsKind
    case ProfileMatch(_) => MatchKind
    case NoProfile => NoProfileKind
    case SearchError(_) => ErrorKind
  }

  /** Reads the case back from the retrieval text alone. */
  function TextKind(text: string): Option<Kind> {
    if StartsWith(text, ErrorPrefix) then Some(ErrorKind)
    else if StartsWith(text, MatchMarker) then Some(MatchKind)
    else if text == NoResultsText then Some(NoResultsKind)
    else if text == NoProfileText then Some(NoProfileKind)
    else None
  }

  /** The four outcomes never share a text: each rendering reads back as its own case. */
  lemma RenderKindRoundTrip(c: Retrieval)
    ensures TextKind(Render(c)) == Some(KindOf(c))
  {
    match c
    case NoResults =>
      assert NoResultsText[0] != ErrorPrefix[0] && NoResultsText[0] != MatchMarker[0];
    case ProfileMatch(r) =>
      assert MatchText(r)[0] == MatchMarker[0] != ErrorPrefix[0];
      assert MatchText(r)[..|MatchMarker|] == MatchMarker;
    case NoProfile =>
      assert NoProfileText[0] != ErrorPrefix[0] && NoProfileText[0] != MatchMarker[0];
      assert NoProfileText[3] != NoResultsText[3];
    case SearchError(msg) =>
      assert (ErrorPrefix + msg)[..|ErrorPrefix|] == ErrorPrefix;
  }

  /** The organic result from the repository's unit test. */
  function JensenHuang(): OrganicResult {
    OrganicResult(Some("https://www.linkedin.com/in/jensen-huang"), Some("Jensen Huang - CEO"), Some("CEO of NVIDIA"))
  }

  /** The match case from the repository's unit test: one LinkedIn result for Jensen Huang. */
  lemma JensenHuangMatch()
    ensures RetrievalText(Ok(Some([JensenHuang()]))) == MatchText(JensenHuang())
    ensures StartsWith(MatchText(JensenHuang()), MatchMarker)
    ensures Contains(MatchText(JensenHuang()), "Jensen Huang - CEO")
    ensures Contains(MatchText(JensenHuang()), "CEO of NVIDIA")
  {
    var link := "https://www." + ProfilePattern + "jensen-huang";
    assert link == "https://www.linkedin.com/in/jensen-huang";
    var r := OrganicResult(Some(link), Some("Jensen Huang - CEO"), Some("CEO of NVIDIA"));
    assert r == JensenHuang();
    ContainsPiece("https://www.", ProfilePattern, "jensen-huang");
    assert IsFirstProfile([r], 0);
    FirstMatchIgnoresRest([r], 0, []);
    MatchTextShowsFields(r);
  }
}
