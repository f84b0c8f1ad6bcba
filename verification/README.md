# IcebreakerRAG: a verified model of the retrieval and wiring logic

The repository turns a person's name (and optional company) into a short
LinkedIn connection message. It searches the web through SerpAPI, condenses
the result with one language-model prompt and drafts the message with a
second. Everything except a small deterministic core is a call into a
foreign service. This project models that core in Dafny and proves what it
promises:

- **Key checks** of the `IcebreakerRAG` constructor (`Icebreaker.Construct`).
  The search key is checked first and the OpenAI key second. The model client
  is built only after both pass.
- **Search classification** in `_perform_search` (module `Search`). The
  provider's outcome becomes exactly one of four texts: no results, a
  LinkedIn match block, "no LinkedIn found", or an error message. The first
  result whose link contains `linkedin.com/in/` wins.
- **Query and context strings** built by `generate_icebreaker` (module
  `SearchQuery`), with Python's `str.strip()` modelled exactly (module `PyStr`).
- **Stage wiring** of `generate_icebreaker` (`Icebreaker.Generate`). Search
  provider, summary chain and writer chain are function parameters about
  which nothing is assumed. A run records each call it makes, so call
  order, call count and argument pass-through can be stated.

The class exists twice with the same logic:
`src/proconnect_agent_rag/services/icebreaker.py` and the older
`src/rag_engine.py`. They are modelled once. The only observable difference
in the modelled part is the constructor's error text: the older copy appends
` in .env file`. `Icebreaker.Variant` selects it. Line correspondence between
the two copies:

| part | services/icebreaker.py | rag_engine.py |
|---|---|---|
| key checks | 17-20 | 18-21 |
| classification | 92-114 | 91-113 |
| query and context | 117-119 | 116-118 |
| stage wiring | 122-133 | 121-132 |

Modelling choices:

- A provider outcome is `Failed(message)` when the call raised, where
  `message` is `str(e)`. Otherwise it is `Ok(organic_results)`, and `None`
  stands for a missing (or null) `organic_results` entry. Both are falsy, as
  an empty list is, and all give "No relevant results found.".
- Each organic result has `link`, `title` and `snippet` as `Option<string>`.
  For the profile test a missing link reads as `""`, as `r.get("link", "")`
  does. In the match block a missing title or snippet renders as `None`, as
  an f-string renders `dict.get(...)` of a missing key.
- The source tests `if linkedin_result:` on the matched dict. A matched
  record always has a non-empty link, so the dict is non-empty and truthy.
  The model therefore tests only whether a match was found.
- `str.strip()` removes the characters for which `str.isspace()` holds. That
  is the full Unicode set, not only ASCII blanks.
- A key is present when it is set and non-empty, as Python's `not key`
  tests.

Two behaviours of the code worth stating plainly:

- The query is built with an f-string and is never stripped. With an empty
  company it has two spaces after the quoted name (`SearchQuery.EmptyCompanyQuery`).
- The class does not reject an empty name. Only the entry points do
  (`src/app.py:9`, `src/main.py:18`). Given an empty name the class searches
  for `"" <company> linkedin profile`.

## Model

| member | source | states |
|---|---|---|
| PyStr.Strip | src/proconnect_agent_rag/services/icebreaker.py:117 | `name.strip()`: the result is no longer than the input and has no whitespace at either end |
| PyStr.StripTrims | src/proconnect_agent_rag/services/icebreaker.py:117 | stripping removes only whitespace, and only a prefix and a suffix of the input |
| PyStr.StripUnique | src/proconnect_agent_rag/services/icebreaker.py:117 | any cut with only whitespace outside and none at the ends of what remains is exactly what strip returns, so strip is fully characterised |
| PyStr.StripIdempotent | src/proconnect_agent_rag/services/icebreaker.py:118 | stripping an already stripped name, as the context does, changes nothing |
| PyStr.StripPadded | src/proconnect_agent_rag/services/icebreaker.py:117 | whitespace added on either side of a string does not survive strip |
| PyStr.ContainsIff | src/proconnect_agent_rag/services/icebreaker.py:99 | Python's substring test `needle in hay` holds exactly when the needle occurs at some position of the haystack |
| PyStr.IsSpace | src/proconnect_agent_rag/services/icebreaker.py:117 | the whitespace `str.strip()` removes is Python's `str.isspace()` set: it includes the ASCII blanks, excludes letters and digits, and contains nothing above U+3000 |
| PyStr.Contains | src/proconnect_agent_rag/services/icebreaker.py:99 | Python's `needle in hay` as a scan of start positions; a found needle is no longer than the haystack, and the empty needle is always found |
| PyStr.Format | src/proconnect_agent_rag/services/icebreaker.py:105-108 | an f-string renders `dict.get(key)` as the value itself when present and as `None` when the key is missing |
| Search.IsProfile | src/proconnect_agent_rag/services/icebreaker.py:99 | the match test on `r.get("link", "")`; a matching result has a link at least as long as "linkedin.com/in/" |
| Search.MatchText | src/proconnect_agent_rag/services/icebreaker.py:105-108 | the match block: it starts with the marker and is longer than the title, snippet and link together |
| Search.Render | src/proconnect_agent_rag/services/icebreaker.py:92-114 | the text of each case: error iff it starts with "Error retrieving search results: ", match iff it starts with the marker, no results iff it is exactly "No relevant results found.", no profile iff it is exactly "No LinkedIn found. Using other results." |
| Search.RetrievalText | src/rag_engine.py:91-113 | the text `_perform_search` returns: it starts with the error prefix iff the provider raised, with the marker iff some result is a profile, and is the no-results text iff the results are empty or absent |
| SearchQuery.Query | src/proconnect_agent_rag/services/icebreaker.py:119 | the query's length is the stripped name, the company and the 20 fixed characters together, and the company is read back from it unchanged |
| SearchQuery.Context | src/proconnect_agent_rag/services/icebreaker.py:118 | the context has no whitespace at either end and is no longer than the stripped name, a space and the company |
| Icebreaker.KeyPresent | src/proconnect_agent_rag/services/icebreaker.py:17-20 | `not key` is false exactly when the key is set and is not the empty string |
| Search.FirstProfile | src/proconnect_agent_rag/services/icebreaker.py:97-101 | the scan finds an index exactly when some result is a profile, and that index is the first profile in provider order |
| Search.IsProfileIff | src/proconnect_agent_rag/services/icebreaker.py:99 | a result matches exactly when it has a link in which "linkedin.com/in/" occurs; a missing link never matches |
| Search.Classify | src/proconnect_agent_rag/services/icebreaker.py:92-114 | the four cases are mutually exclusive and exhaustive: error iff the provider raised, carrying its message; no results iff the list is empty or absent; match iff some result is a profile, and then the first one; no profile iff results exist but none matches |
| Search.PerformSearch | src/proconnect_agent_rag/services/icebreaker.py:79-114 | the scan with early exit returns "Error retrieving search results: "+message on failure, exactly "No relevant results found." for empty or absent results, the marker block with title, snippet and link of the first profile, or exactly "No LinkedIn found. Using other results." whatever the non-matching results hold; it never raises |
| Search.FirstMatchIgnoresRest | src/rag_engine.py:96-100 | once the first profile has been seen, any results after it, profiles included, do not change the classification |
| Search.MatchTextShowsFields | src/rag_engine.py:102-107 | the match block starts with "*** MATCH FOUND (LINKEDIN) ***" and contains the title, snippet and link verbatim |
| Search.RenderKindRoundTrip | src/rag_engine.py:91-113 | the four retrieval texts never coincide: each one reads back as the case that produced it, whatever the error message or result fields |
| Search.JensenHuangMatch | tests/test_icebreaker.py:37-54 | one LinkedIn result for Jensen Huang yields its match block, which starts with the match marker and contains its title and snippet |
| SearchQuery.QueryRoundTrip | src/proconnect_agent_rag/services/icebreaker.py:119 | the company can be read back out of the query given the stripped name, so the query carries the company verbatim and unstripped |
| SearchQuery.QueryCompanyInjective | src/rag_engine.py:118 | for one name, two companies give the same query only if they are equal |
| SearchQuery.NamePaddingIrrelevant | src/proconnect_agent_rag/services/icebreaker.py:117-119 | leading or trailing whitespace on the name changes neither the query nor the context |
| SearchQuery.CleanNameQuery | tests/test_icebreaker.py:97-99 | a name without outer whitespace is quoted verbatim: the query is `"`+name+`" `+company+` linkedin profile` |
| SearchQuery.EmptyCompanyQuery | src/rag_engine.py:118 | with an empty company the query is not trimmed and has two spaces after the quoted name |
| SearchQuery.EmptyCompanyContext | src/proconnect_agent_rag/services/icebreaker.py:118 | with an empty company the context is the stripped name |
| SearchQuery.ContextJoins | src/rag_engine.py:117 | with a non-blank name and a company without outer whitespace, the context is exactly name, one space, company |
| SearchQuery.BlankNameContext | src/proconnect_agent_rag/services/icebreaker.py:118 | with a blank name the context is the stripped company |
| Icebreaker.MissingKeyMessage | src/rag_engine.py:18-21 | the error message starts with "Missing " and the key's name; it is exactly that in the packaged copy, and the older copy adds " in .env file" |
| Icebreaker.Construct | src/proconnect_agent_rag/services/icebreaker.py:17-28 | construction succeeds iff both keys are set and non-empty; the search key is checked first and, when it is missing, fails with "Missing SERPAPI_API_KEY" without the OpenAI key being checked; a missing OpenAI key alone fails with "Missing OPENAI_API_KEY"; the model client is built only after both checks |
| Icebreaker.SearchKeyCheckedFirst | src/rag_engine.py:18-19 | without a search key the outcome of construction does not depend on the OpenAI key at all |
| Icebreaker.Generate | src/proconnect_agent_rag/services/icebreaker.py:116-133 | search, summary and writer are each called at most once and in that order; search gets exactly the query; the summary stage gets exactly the retrieval text and the context; the writer gets the summary unparsed; the run returns the writer's reply unchanged, or the summary stage's exception |
| Icebreaker.SearchCalledOnce | src/rag_engine.py:121 | the search stage is called once per run, first |
| Icebreaker.SearchErrorReachesSummary | src/proconnect_agent_rag/services/icebreaker.py:112-127 | a failed search does not end the run: the summary stage receives the error text |
| Icebreaker.OnlyModelStagesRaise | src/rag_engine.py:121-132 | a run fails exactly when one of the two model stages raised |
| Icebreaker.WriterSeesOnlySummary | src/proconnect_agent_rag/services/icebreaker.py:129-133 | the writer takes nothing but the summary: two runs whose summary stages produced the same reply call the writer with the same argument, and so end the same way for the same writer function |
| Icebreaker.GenerateIgnoresNamePadding | src/rag_engine.py:115-121 | whitespace around the name changes no call and not the result |
| Icebreaker.ProfileMatchFlow | tests/test_icebreaker.py:37-99 | when the search finds the Jensen Huang profile, the summary stage reads the match block with its title and snippet, and the run returns what the writer returns for the summary |

## Left out

- The SerpAPI request (`GoogleSearch` with engine, locale, result count and key) is a foreign network call. It is the `provider` parameter of `Icebreaker.Generate`, which receives the search key and the query.
- `ChatOpenAI` (model name, temperature), the two prompt templates and the LangChain piping are foreign library calls. They are the opaque `summarize` and `write` parameters. Building the client is the `BuiltLlm` step of `Icebreaker.Construct`.
- The 300-character limit and the banned phrases are instructions in a prompt that nothing enforces. No length or content property is stated about the result.
- Logging and the debug print are left out; they do not affect any result.
- In the packaged copy the keys come from a pydantic settings object (`src/proconnect_agent_rag/config.py`, not part of this model). There an unset variable is rejected while the settings load, before the constructor's own check. Only an empty key reaches "Missing …". The model starts from the keys as read.
- A link that is present but null, or a number, makes the substring test raise a `TypeError` inside the `try`. The source then returns the error text with Python's own message. A link that is a list, tuple or dict turns `in` into a membership test: it does not raise, and a list holding "linkedin.com/in/" even matches. Fields are modelled as strings or absent, so neither path is modelled. Non-string titles and snippets, which an f-string would render with `str()`, are not modelled either.
- The web form (`src/app.py`) with its empty-name guard, and the command-line entry points (`src/main.py`, `src/linkedin_icebreaker/main.py`), are input and output glue around the class.
- Exceptions from the model stages are modelled as error values that end the run. Their types and messages come from the library and are opaque.
- Icebreaker.WriterSeesOnlySummary: the language-model stages are modelled as deterministic functions. The real writer samples at temperature 0.7, so two real calls with the same summary can return different messages. The lemma promises only that the writer receives the same argument.
