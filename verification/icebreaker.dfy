/**
 * `IcebreakerRAG`: the key checks of its constructor and the wiring of
 * `generate_icebreaker`. The search provider and the two language-model
 * stages (prompt template, model, string parser) are parameters about which
 * nothing is assumed.
 */
module Icebreaker {
  import opened Wrappers
  import opened PyStr
  import opened Search
  import opened SearchQuery

  /**
   * Which copy of the class: the packaged service or the older top-level
   * module, whose error messages also mention the `.env` file.
   */
  datatype Variant = Packaged | Standalone

  /** The two secrets as the constructor reads them; `None` when the variable is unset. */
  datatype Settings = Settings(serpApiKey: Option<string>, openAiKey: Option<string>)

  /** A constructed pipeline: both keys are known to be non-empty. */
  datatype Client = Client(serpApiKey: string, openAiKey: string)

  /** What the constructor does, in order. */
  datatype InitStep = CheckedKey(keyName: string) | BuiltLlm

  datatype Construction = Construction(steps: seq<InitStep>, client: Result<Client>)

  const SerpKeyName := "SERPAPI_API_KEY"
  const OpenAiKeyName := "OPENAI_API_KEY"

  /** Python truthiness of an optional string: set and non-empty. */
  predicate KeyPresent(key: Option<string>)
    ensures KeyPresent(key) <==> key != None && key != Some("")
  {
    key.Some? && key.value != ""
  }

  /** The `ValueError` message for a missing key. */
  function MissingKeyMessage(v: Variant, keyName: string): (msg: string)
    ensures StartsWith(msg, "Missing " + keyName)
    ensures v.Packaged? ==> msg == "Missing " + keyName
    ensures v.Standalone? ==> msg[|"Missing " + keyName|..] == " in .env file"
  {
    var base := "Missing " + keyName;
    assert (base + " in .env file")[..|base|] == base;
    match v
    case Packaged => base
    case Standalone => base + " in .env file"
  }

  /**
   * `IcebreakerRAG.__init__`: the search key is checked, then the
   * language-model key, and only then is the model client built.
   */
  function Construct(v: Variant, s: Settings): (c: Construction)
    ensures c.client.Success? <==> KeyPresent(s.serpApiKey) && KeyPresent(s.openAiKey)
    ensures BuiltLlm in c.steps <==> c.client.Success?
    ensures |c.steps| > 0 && c.steps[0] == CheckedKey(SerpKeyName)
    ensures BuiltLlm in c.steps ==> c.steps == [CheckedKey(SerpKeyName), CheckedKey(OpenAiKeyName), BuiltLlm]
    ensures !KeyPresent(s.serpApiKey) ==>
              c.client == Failure(MissingKeyMessage(v, SerpKeyName)) && CheckedKey(OpenAiKeyName) !in c.steps
    ensures KeyPresent(s.serpApiKey) && !KeyPresent(s.openAiKey) ==>
              c.client == Failure(MissingKeyMessage(v, OpenAiKeyName))
    ensures c.client.Success? ==> c.client.value == Client(s.serpApiKey.value, s.openAiKey.value)
  {
    if !KeyPresent(s.serpApiKey) then
      Construction([CheckedKey(SerpKeyName)], Failure(MissingKeyMessage(v, SerpKeyName)))
    else if !KeyPresent(s.openAiKey) then
      Construction([CheckedKey(SerpKeyName), CheckedKey(OpenAiKeyName)], Failure(MissingKeyMessage(v, OpenAiKeyName)))
    else
      Construction([CheckedKey(SerpKeyName), CheckedKey(OpenAiKeyName), BuiltLlm],
                   Success(Client(s.serpApiKey.value, s.openAiKey.value)))
  }

  /** Without a search key the language-model key is never looked at: the outcome does not depend on it. */
  lemma SearchKeyCheckedFirst(v: Variant, serp: Option<string>, k1: Option<string>, k2: Option<string>)
    requires !KeyPresent(serp)
    ensures Construct(v, Settings(serp, k1)) == Construct(v, Settings(serp, k2))
  {
  }

  /** One call the pipeline makes to an external stage. */
  datatype Call =
    | SearchCall(query: string)
    | SummaryCall(searchResults: string, context: string)
    | WriterCall(summary: string)

  /** Position of each stage in the pipeline. */
  function StageIndex(c: Call): nat {
    match c
    case SearchCall(_) => 0
    case SummaryCall(_, _) => 1
    case WriterCall(_) => 2
  }

  /** The calls a run made, in order, and what it returned or raised. */
  datatype Run = Run(calls: seq<Call>, result: Result<string>)

  /**
   * `generate_icebreaker`. `provider` is the search API call (given the
   * search key and the query), `summarize` the extraction chain (given the
   * retrieval text and the context), `write` the drafting chain (given the
   * summary). A model stage that raises ends the run with its error.
   */
  function Generate(client: Client, name: string, company: string,
                    provider: (string, string) -> SearchOutcome,
                    summarize: (string, string) -> Result<string>,
                    write: string -> Result<string>): (run: Run)
    ensures 2 <= |run.calls| <= 3
    ensures forall k :: 0 <= k < |run.calls| ==> StageIndex(run.calls[k]) == k
    ensures run.calls[0] == SearchCall(Query(name, company))
    ensures run.calls[1].SummaryCall? && run.calls[1].context == Context(name, company)
    ensures run.calls[1].searchResults == RetrievalText(provider(client.serpApiKey, run.calls[0].query))
    ensures |run.calls| == 3 <==> summarize(run.calls[1].searchResults, run.calls[1].context).Success?
    ensures |run.calls| == 2 ==> run.result == summarize(run.calls[1].searchResults, run.calls[1].context)
    ensures |run.calls| == 3 ==>
              && run.calls[2].WriterCall?
              && Success(run.calls[2].summary) == summarize(run.calls[1].searchResults, run.calls[1].context)
              && run.result == write(run.calls[2].summary)
  {
    var context := Context(name, company);
    var query := Query(name, company);
    var rawResults := RetrievalText(provider(client.serpApiKey, query));
    var calls := [SearchCall(query), SummaryCall(rawResults, context)];
    match summarize(rawResults, context)
    case Failure(e) => Run(calls, Failure(e))
    case Success(summary) => Run(calls + [WriterCall(summary)], write(summary))
  }

  /** No search call appears after the first call of a run: the search runs once per run. */
  lemma SearchCalledOnce(client: Client, name: string, company: string,
                         provider: (string, string) -> SearchOutcome,
                         summarize: (string, string) -> Result<string>,
                         write: string -> Result<string>)
    ensures var run := Generate(client, name, company, provider, summarize, write);
            forall k :: 0 <= k < |run.calls| && run.calls[k].SearchCall? ==> k == 0
  {
  }

  /** A failed search never raises: the summary stage reads the error text instead. */
  lemma SearchErrorReachesSummary(client: Client, name: string, company: string,
                                  provider: (string, string) -> SearchOutcome,
                                  summarize: (string, string) -> Result<string>,
                                  write: string -> Result<string>)
    requires provider(client.serpApiKey, Query(name, company)).Failed?
    ensures var run := Generate(client, name, company, provider, summarize, write);
            run.calls[1].searchResults == ErrorPrefix + provider(client.serpApiKey, Query(name, company)).message
  {
  }

  /** A run fails only when one of the two model stages raised. */
  lemma OnlyModelStagesRaise(client: Client, name: string, company: string,
                             provider: (string, string) -> SearchOutcome,
                             summarize: (string, string) -> Result<string>,
                             write: string -> Result<string>)
    ensures var run := Generate(client, name, company, provider, summarize, write);
            var s := summarize(run.calls[1].searchResults, run.calls[1].context);
            run.result.Failure? <==> s.Failure? || write(s.value).Failure?
  {
  }

  /**
   * The writer sees nothing but the summary: two runs whose summary stages
   * produced the same text end the same way, whatever their names,
   * companies or search results.
   */
  lemma WriterSeesOnlySummary(c1: Client, n1: string, co1: string, p1: (string, string) -> SearchOutcome, s1: (string, string) -> Result<string>,
                              c2: Client, n2: string, co2: string, p2: (string, string) -> SearchOutcome, s2: (string, string) -> Result<string>,
                              write: string -> Result<string>)
    requires var r1, r2 := Generate(c1, n1, co1, p1, s1, write), Generate(c2, n2, co2, p2, s2, write);
             s1(r1.calls[1].searchResults, r1.calls[1].context) == s2(r2.calls[1].searchResults, r2.calls[1].context)
    ensures Generate(c1, n1, co1, p1, s1, write).result == Generate(c2, n2, co2, p2, s2, write).result
  {
  }

  /** Whitespace around the name does not change any call or the result. */
  lemma GenerateIgnoresNamePadding(client: Client, a: string, name: string, b: string, company: string,
                                   provider: (string, string) -> SearchOutcome,
                                   summarize: (string, string) -> Result<string>,
                                   write: string -> Result<string>)
    requires AllSpace(a) && AllSpace(b)
    ensures Generate(client, a + name + b, company, provider, summarize, write)
            == Generate(client, name, company, provider, summarize, write)
  {
    NamePaddingIrrelevant(a, name, b, company);
  }

  /**
   * The end-to-end case from the repository's tests: the search finds one
   * LinkedIn result, the summary stage reads the match block, and the run
   * returns whatever the writer returns for the summary.
   */
  lemma ProfileMatchFlow(client: Client, name: string, company: string,
                         provider: (string, string) -> SearchOutcome,
                         summarize: (string, string) -> Result<string>,
                         write: string -> Result<string>)
    requires provider(client.serpApiKey, Query(name, company)) == Ok(Some([JensenHuang()]))
    requires summarize(MatchText(JensenHuang()), Context(name, company)).Success?
    ensures var run := Generate(client, name, company, provider, summarize, write);
            && StartsWith(run.calls[1].searchResults, MatchMarker)
            && Contains(run.calls[1].searchResults, "Jensen Huang - CEO")
            && Contains(run.calls[1].searchResults, "CEO of NVIDIA")
            && |run.calls| == 3
            && run.result == write(summarize(run.calls[1].searchResults, Context(name, company)).value)
  {
    JensenHuangMatch();
  }
}
