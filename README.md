# AI Tool Trend Analyzer: a verified model of the classification, enrichment and aggregation core

The AI Tool Trend Analyzer gathers AI tools from several sources: a GitHub
"awesome" list, the Hugging Face Spaces API, a browsed directory and a
built-in baseline list. It sorts each tool into a topical category and may
enrich the record with a Groq language-model call. Finally it recommends
tools for a free-text task. This project models the core of that system
in Dafny and proves what the code promises:

- **Keywords** (`keywords.dfy`): the keyword tables shared by the
  classifier and the task recommender. It counts keyword hits and picks the
  first maximal category, as `max(scores, key=scores.get)` does over an
  insertion-ordered dict.
- **Classifier** (`classifier.py`): `keyword_classify`, with its confidence
  formula and its rounding. `hybrid_classify`, with its three-way decision
  between keyword-only, LLM-primary and hybrid (0.4 and 0.6 thresholds).
- **LlmEngine** (`llm_engine.py`):
  - the Groq call, with its retry and backoff loop;
  - the tolerant JSON parser;
  - `classify_and_enrich_tool` with its defaults;
  - the keyword task recommender and `recommend_tool_for_task`;
  - the per-category counting that feeds the trend summary.
- **Scraper** (`scraper.py`):
  - the GitHub line filter and the Hugging Face record rules;
  - merging the concurrent source results, where a failed source
    contributes nothing;
  - supplementing a sparse yield with the baseline list;
  - deduplication by trimmed, lower-cased name.
- **Pipeline** (`pipeline.py`): `process_tools` as a loop over the raw
  tools. `run_pipeline`'s clear-then-save over a `Store` class that stands
  for the database table.
- **Dashboard** (`dashboard.py`): the fallback that rebuilds a five-tool
  list when a recommendation comes back without one.

Supporting modules:

- `Text`: the Python string operations the code uses.
- `Json`: Python dictionaries and JSON values.
- `Catalog`: the baseline dataset.

Python values that the code reads as dictionaries are `Json.Object`, a
`map<string, Value>`. Calls that leave the program become parameters:

- the Groq client is `respond: nat -> ClientOutcome`, the outcome of each
  attempt;
- `json.loads` is `loads: string -> Option<Value>`;
- `str.title` is `title`;
- an HTTP answer is an `Option`, where `None` means the request failed;
- the browsed directory list is `browsed`.

Sleeps become the recorded sequence of waits.

## Model

| member | source | states |
|---|---|---|
| Keywords.Hits | classifier.py:40 | the hit count never exceeds the keyword count; it is zero exactly when no keyword occurs in the text |
| Keywords.FirstMax | classifier.py:43 | the chosen index holds a maximal score, and every earlier index scores strictly less (first-declared wins ties) |
| Keywords.FirstMaxIsUnique | classifier.py:43 | that characterisation is exact: an index is the one `max` picks if and only if it is maximal and beats all earlier ones |
| Classifier.TableFacts | classifier.py:9-28 | the keyword table has nine categories, each with between 1 and 12 keywords; the names are distinct, and none is "Other" |
| Classifier.Round2 | classifier.py:52 | rounding to two decimals keeps a confidence in [0, 1]; a value of at least 0.005 does not round to zero |
| Classifier.Confidence | classifier.py:46-47 | the confidence `min(best / max(0.3 * total, 1), 1.0)` always lies in [0, 1] |
| Classifier.ConfidencePositive | classifier.py:46-52 | with at least one hit and a table of at most 12 keywords, the rounded confidence is strictly positive |
| Classifier.KeywordClassify | classifier.py:31-52 | the result's confidence lies in [0, 1], and its category is "Other" or one of the table's categories |
| Classifier.NoHitsIffOther | classifier.py:49-50 | the result is "Other" if and only if no category has a hit, and the confidence is 0.0 under exactly the same condition |
| Classifier.FirstMaximalCategoryWins | classifier.py:43-52 | category i is returned if and only if it has a hit, its score is maximal, and every earlier category scores strictly less |
| Classifier.CaseInsensitive | classifier.py:36-40 | classifying the lower-cased text gives exactly the same result as classifying the text itself |
| Classifier.DecidePath | classifier.py:65-81 | keyword-only exactly when no LLM is given; otherwise LLM-primary below 0.4, hybrid-blend in [0.4, 0.6), hybrid-override from 0.6 (both bounds inclusive) |
| Classifier.HybridClassify | classifier.py:55-91 | hybrid_classify itself; its contract is stated by HybridStamps, HybridPassThrough and HybridKeywordOnlyRecord below: the stamped fields per path, the LLM answer kept elsewhere, and the eight-key keyword-only record |
| Classifier.HybridStamps | classifier.py:55-91 | the record carries the keyword confidence and the method name of its path; the category is the keyword category on keyword-only and override paths, the LLM's own on the other two |
| Classifier.HybridPassThrough | classifier.py:66-79 | with an LLM, every field other than category, method and confidence is the LLM's answer unchanged |
| Classifier.HybridKeywordOnlyRecord | classifier.py:82-91 | without an LLM the record has exactly the eight documented keys, a 200-character summary, empty lists and audience, and pricing "Unknown" |
| Classifier.NoLlmIsKeywordOnly | classifier.py:82-91 | without an LLM the record is marked keyword_only and its category is the keyword result, a table category or "Other" |
| LlmEngine.CallGroq | llm_engine.py:95-125 | the retry loop returns exactly the reply and the waits of the recursive attempt-by-attempt specification `GroqCall` |
| LlmEngine.GroqWaits | llm_engine.py:116-120 | from any attempt, every wait is `3 * (attempt number)` and follows a rate-limited answer; attempts never exceed three |
| LlmEngine.GroqStop | llm_engine.py:100-125 | the loop stops at the first successful answer (whose stripped text it returns) or gives up with the fallback marker; it never gives up on a rate limit that still has attempts left |
| LlmEngine.CallGroqSpec | llm_engine.py:95-125 | without a client the reply is "{}" with no waits; otherwise the waits are 3, 6, ... for each leading rate limit, and the reply is the first success or the fallback marker |
| LlmEngine.RateLimitsExhaustRetries | llm_engine.py:116-125 | three rate-limited answers in a row give the fallback marker after waits of 3, 6 and 9 |
| LlmEngine.GroqFrom | llm_engine.py:100-125 | the retry loop from a given attempt on, as a recursive specification; GroqWaits and GroqStop state its waits and its stopping rule |
| LlmEngine.GroqCall | llm_engine.py:95-125 | _call_groq: "{}" without a client, else the retry loop from attempt 0; CallGroqSpec states its reply and waits, and CallGroq is proved equal to it |
| LlmEngine.StripFences | llm_engine.py:130 | removing code-fence markers never lengthens the text, and text without a backtick is unchanged |
| LlmEngine.FencedReplyUnwrapped | llm_engine.py:130 | both fence markers are removed: a reply fenced as ```json ... ``` leaves exactly its backtick-free body |
| LlmEngine.BraceSpan | llm_engine.py:134 | the span found runs from the first `{` to the last `}`; no span is found exactly when no `{` is followed by a `}` |
| LlmEngine.ParseJsonSafeAsWritten | llm_engine.py:128-140 | _parse_json_safe as written, returning any decoded value; ParseJsonSafe is tied to it clause by clause, and ListReplyRaises shows a list coming through |
| LlmEngine.ParseJsonSafe | llm_engine.py:128-140 | the parser keeps the as-written result whenever that is an object and gives `{}` otherwise; a non-empty result is what `loads` gave for the cleaned text, or, failing that, for its brace span |
| LlmEngine.WithDefaults | llm_engine.py:170-177 | the record has exactly the six enrichment keys, each taken from the parsed answer when present and from the default otherwise |
| LlmEngine.ClassifyAndEnrichAsWritten | llm_engine.py:167-177 | classify_and_enrich_tool as written, `None` where `.get` raises on a non-dict parse; ClassifyAndEnrich agrees with it whenever it returns |
| LlmEngine.ClassifyAndEnrich | llm_engine.py:143-177 | the enrichment has the six keys, filled from the parsed reply or the defaults; it agrees with the as-written code whenever that code does not raise |
| LlmEngine.ListReplyRaises | llm_engine.py:168-171 | a reply that parses to a JSON list makes the as-written code fail, while the corrected model gives the default record |
| LlmEngine.NoClientGivesDefaults | llm_engine.py:167-177 | without a Groq client the enrichment is exactly the default record (category "Other", summary = first 200 characters) |
| LlmEngine.TaskCategory | llm_engine.py:62-71 | the task category is one of the task table's categories; it is "Chatbot & Assistant" when no keyword occurs |
| LlmEngine.TaskCategoryIsFirstMaximal | llm_engine.py:66-71 | a category with a hit is chosen if and only if its score is maximal and every earlier category scores strictly less |
| LlmEngine.InCategory | llm_engine.py:74 | every kept tool has the task category, and no more tools are kept than given |
| LlmEngine.OutOfCategory | llm_engine.py:75 | no kept tool has the task category, and no more tools are kept than given |
| LlmEngine.CategorySplit | llm_engine.py:74-75 | the two lists together are a permutation of the tools: nothing is lost or duplicated |
| LlmEngine.KeywordRecommend | llm_engine.py:59-92 | the result is a keyword recommendation for the task's category; the recommended and alternative names are those of its first two tools, or the placeholder when missing |
| LlmEngine.RankingSize | llm_engine.py:74-76 | the ranking holds min(5, number of tools) tools, all drawn from the tools given (as a sub-multiset) |
| LlmEngine.RankingOrder | llm_engine.py:73-76 | in the ranking, every tool of the task category comes before every other tool |
| LlmEngine.KeywordTop5 | llm_engine.py:73-90 | the keyword top 5 is the first five of the category-first ranking; it has min(5, n) tools, all from the input, in category-first order |
| LlmEngine.RecommendToolForTask | llm_engine.py:180-227 | the error result arises exactly for an empty tool list; with tools and no client the answer is the keyword recommendation; with tools and a client, the answer is the parsed reply marked groq_llm if and only if the Groq reply is usable and its parse has a truthy recommended_tool, and the keyword recommendation otherwise; it agrees with the as-written code whenever that code does not raise |
| LlmEngine.RecommendToolForTaskAsWritten | llm_engine.py:180-227 | recommend_tool_for_task as written, `None` where it raises: while building the prompt's list of the first 25 tools, or at `result.get` on a truthy non-dict parse; RecommendToolForTask agrees with it whenever it returns |
| LlmEngine.PromptListRaises | llm_engine.py:194-197 | the prompt's tool list cannot be built when one of the first 25 tools has no name (`t['name']`) or a summary, or failing that a description, that is neither text nor a list (`[:120]`) |
| LlmEngine.RecommendationRaisesExactly | llm_engine.py:186-227 | the as-written recommender never raises without a client; with one it raises if and only if there are tools and either the prompt list cannot be built or a usable reply decodes to a truthy non-dict |
| LlmEngine.NullSummaryRaises | llm_engine.py:194-197 | a first tool whose summary is null makes the as-written recommender raise before Groq is asked, while the corrected one still answers |
| LlmEngine.TruthyNonObjectRaises | llm_engine.py:222-224 | whenever the Groq reply is usable and decodes to a truthy value that is not an object, the as-written recommender raises and the corrected one gives the keyword recommendation |
| LlmEngine.ListReplyRecommendationRaises | llm_engine.py:222-224 | a Groq answer `[1]` makes the as-written recommender raise, while the corrected one gives the keyword recommendation |
| LlmEngine.FallbackReplyUsesKeywords | llm_engine.py:215-220 | when the Groq call gives up, the recommendation is the keyword one, marked keyword_fallback |
| LlmEngine.CountIsMultiplicity | llm_engine.py:232-235 | the count for a category equals its multiplicity among the tools' categories, where a missing category counts as "Other" |
| LlmEngine.CategoryCounts | llm_engine.py:232-235 | the counting loop's dictionary has exactly the categories that occur, each mapped to its number of tools |
| Catalog.SampleTools | scraper.py:24-55 | the baseline dataset that supplements a sparse yield holds thirty records |
| Scraper.MatchLine | scraper.py:76 | a matching list line yields a non-empty name without `]` and a non-empty description; ListLineMatches shows the documented line shape is accepted |
| Scraper.ListLineMatches | scraper.py:75-76 | the documented list line `- [name](url) - description` is accepted, giving back exactly its name and its description |
| Scraper.GithubRecord | scraper.py:77-85 | a kept line gives a name of 3 to 59 characters, a description of 16 to 500 characters and the GitHub source |
| Scraper.GithubRecords | scraper.py:74-85 | every record kept from the list satisfies those length bounds and carries the GitHub source |
| Scraper.ScrapeGithubAwesomeList | scraper.py:59-91 | a failed request gives no tools; otherwise the first 40 records of the filtered lines, each within the bounds |
| Scraper.SpaceDescription | scraper.py:113-116 | the description has at least 10 characters, and a short description of 10 or more characters is used as is |
| Scraper.SpaceName | scraper.py:111 | the name is the title-cased last path segment of the Space id with dashes turned into blanks; HuggingFaceRecords bounds it to 1..80 characters |
| Scraper.HuggingFaceRecords | scraper.py:110-118 | every Space record has a name of 1 to 80 characters, a description of 10 to 500 characters and the Hugging Face source |
| Scraper.ScrapeHuggingFaceSpaces | scraper.py:95-124 | a failed request gives no tools; otherwise the records built from the Spaces, each within the bounds |
| Scraper.LiveAppend | scraper.py:182-184 | the live records of two batches of results are the live records of each, concatenated in order |
| Scraper.FailedSourceContributesNothing | scraper.py:177-184 | a failed source contributes no records and does not disturb the records of the sources around it |
| Scraper.Live | scraper.py:177-184 | the records of the successful sources in order; LiveAppend and FailedSourceContributesNothing state how it composes and that failures add nothing |
| Scraper.MergeSources | scraper.py:173-189 | the merged list is the records of every successful source, in order, followed by the browsed records |
| Scraper.Supplemented | scraper.py:191-194 | the baseline list is appended exactly when the live yield is below 10; SupplementIffSparse states what survives deduplication in each case |
| Scraper.Key | scraper.py:199 | the dedup key is the lower-cased, stripped name; CaseAndBlanksCollapse shows names differing in case and blanks sharing it |
| Scraper.Dedup | scraper.py:196-202 | the first-occurrence filter on Key; DedupProperties, FirstOccurrenceKept, SurvivorsAreFirst, KeysCovered and DedupIdempotent state its properties |
| Scraper.Deduplicate | scraper.py:196-202 | the deduplication loop computes exactly the first-occurrence filter `DedupFrom` |
| Scraper.ScrapeAllSources | scraper.py:171-205 | the result is the deduplicated, supplemented merge of all sources |
| Scraper.DedupProperties | scraper.py:197-202 | the result is a subsequence of the input, its keys are pairwise distinct, and every key is longer than one character and not already seen |
| Scraper.FirstOccurrenceKept | scraper.py:197-202 | a record whose valid key appears there for the first time is kept |
| Scraper.SurvivorsAreFirst | scraper.py:197-202 | every kept record is the first record of the input with its key |
| Scraper.KeysCovered | scraper.py:197-202 | every valid key of the input is represented in the result (unless already seen) |
| Scraper.DedupOfClean | scraper.py:197-202 | an input whose keys are already valid, distinct and unseen passes through unchanged |
| Scraper.DedupIdempotent | scraper.py:197-202 | deduplicating twice is the same as deduplicating once |
| Scraper.CaseAndBlanksCollapse | scraper.py:199-200 | "GPT Helper" and " gpt helper " are the same tool, and only the first is kept |
| Scraper.SupplementIffSparse | scraper.py:192-194 | with fewer than 10 live records, every baseline tool's key is in the result; with 10 or more, every result record is a live one |
| Pipeline.Store.Clear | pipeline.py:75 | clearing leaves the table empty |
| Pipeline.Store.Save | pipeline.py:76-77 | saving appends the record and keeps all earlier ones |
| Pipeline.Stamp | pipeline.py:35-37 | the stored record carries the raw tool's name, description and source ("Unknown" when absent), and every other field of the classification |
| Pipeline.EnrichedAll | pipeline.py:17-40 | processing keeps one record per raw tool |
| Pipeline.EnrichedAllAt | pipeline.py:19-38 | the i-th record is the i-th raw tool stamped onto its own classification |
| Pipeline.ProcessTools | pipeline.py:15-40 | the processing loop produces exactly the record-by-record specification `EnrichedAll` |
| Pipeline.ProcessedRecord | pipeline.py:19-38 | each record is the hybrid classification of its tool, with an LLM exactly when the LLM is switched on |
| Pipeline.ReplaceAll | pipeline.py:75-77 | after clearing and saving, the table holds exactly the new records, in order |
| Pipeline.RunPipeline | pipeline.py:58-83 | the table ends up holding the processed records of the sample list or of the scraped list; the counts are exactly the per-category counts of those records |
| Pipeline.CategoryTablesAgree | llm_engine.py:33-44 | the classifier's categories, followed by "Other", are exactly the engine's category list |
| Pipeline.NoLlmRecordsAreKeywordOnly | pipeline.py:22-28 | with the LLM off, each stored record is keyword_only and its category is in the engine's category list |
| Pipeline.UnwiredIsOther | llm_engine.py:98-99 | with the LLM on but no Groq key, the enrichment says "Other" |
| Pipeline.NoKeyMeansOtherBelowOverride | pipeline.py:22-28 | with the LLM on but no Groq key, a tool's stored category is "Other" unless its keyword confidence reaches 0.6 |
| Dashboard.FindByNameFinds | dashboard.py:610 | the lookup finds the first tool whose lower-cased name matches, and finds none exactly when no tool matches |
| Dashboard.FindByName | dashboard.py:610 | the `next(...)` lookup; FindByNameFinds states that it finds the first case-insensitive match, and none exactly when nothing matches |
| Dashboard.NeedsFallback | dashboard.py:596-599 | whether `top5` is falsy; KeywordResultKeepsItsTop5 and DashboardTop5 use it |
| Dashboard.FallbackInputs | dashboard.py:600-602 | the task category and the two names the fallback reads from each kind of result, or none when a name is not text; FallbackPoolIsKeywordRanking relates it to the keyword result |
| Dashboard.Pool | dashboard.py:603-605 | matching-category tools, then the rest; RestFollowsPool and FallbackPoolIsKeywordRanking state its use |
| Dashboard.FallbackTop5 | dashboard.py:596-617 | the fallback loop returns the first five of the specification `Ordered`: named tools first, then the category-first pool without repeats |
| Dashboard.DashboardTop5 | dashboard.py:596-617 | the result's own five are shown exactly when its `top5` is truthy; otherwise the rebuilt five of `Ordered`, or a raise when a name is not text |
| Dashboard.AppendNewFacts | dashboard.py:613-615 | appending the pool keeps the named tools as a prefix, adds no repeats, and covers exactly the named tools and the pool |
| Dashboard.FrontFacts | dashboard.py:608-612 | the named tools that were placed are distinct, non-empty and drawn from the pool, at most one per name |
| Dashboard.OrderedIsCatalogWithoutRepeats | dashboard.py:603-615 | the fallback order has no repeats and contains exactly the catalog's tools |
| Dashboard.AppendNewInPoolOrder | dashboard.py:613-615 | the second loop appends records in pool order, each at its first occurrence, and every pool record ends up present |
| Dashboard.RestFollowsPool | dashboard.py:603-615 | after the placed names come exactly the other pool records, once each, in pool order, so matching-category tools still precede the rest |
| Dashboard.FallbackTop5Bounds | dashboard.py:617 | for a non-empty catalog the fallback shows 1 to 5 distinct catalog tools |
| Dashboard.RecommendedThenAlternative | dashboard.py:607-612 | the recommended tool, when found, comes first, and the alternative, when found and different, comes second |
| Dashboard.KeywordResultKeepsItsTop5 | dashboard.py:596-599 | a keyword recommendation over a non-empty catalog never triggers the fallback |
| Dashboard.PageShowsOneToFive | dashboard.py:588-617 | with the page's non-empty catalog, a keyword result keeps its own five, and a rebuilt list holds one to five distinct catalog tools |
| Dashboard.FallbackPoolIsKeywordRanking | dashboard.py:603-605 | the fallback's category-first pool, cut to five, is the keyword recommender's own top 5 |

## Left out

- Text.Lower: lower-cases ASCII letters only. Python's `str.lower` also maps non-ASCII letters.
- Classifier.Round2: works on exact reals and rounds halves up. Python rounds binary floats, half to even. The confidences the table can produce (k/3, k/3.3 and k/3.6, capped at 1) are never two-decimal ties, so both give the same digits.
- The free-text `reason` of a keyword recommendation is left out, and so is the error text when no tools exist. Only the category, the names, the top 5 and the method are modelled.
- The prompts sent to Groq and the model parameters are left out. The Groq client is the `respond` parameter, and its answers do not depend on the prompt.
- Environment and `.env` loading are left out; whether a key is configured is the `hasClient` flag. The text of `recommend_tool_for_task`'s prompt is left out; only whether its list of the first 25 tools can be built is modelled (PromptListRaises).
- `time.sleep` and all console output are left out. The retry waits are returned as data.
- The browser scrape of There's An AI For That (scraper.py:128-167) is left out. Playwright drives it, so its result is the `browsed` parameter.
- `asyncio` concurrency is left out. The gathered results are a sequence of `Fetch` values in source order; `Failed` stands for an exception.
- Scraper.ScrapeGithubAwesomeList: an exception raised halfway through the line loop, which in the source keeps the tools collected so far, is not modelled. A request either fails as a whole or succeeds.
- Scraper.ScrapeHuggingFaceSpaces: a mid-loop exception is not modelled either. Missing or non-string Space fields are normalised into the `Space` record before the rules apply.
- Scraper.MatchLine: has no precondition against newlines. On a line with a newline after the separator, its description runs past the newline, where the regular expression's `.+` stops. Its one caller passes the parts of `Split(body, '\n')`, which `Text.Split` proves newline-free, so the modelled scraper never meets such a line.
- `str.title` and `json.loads` are left out; they are the `title` and `loads` parameters.
- Regular expressions are left out; the patterns are written as explicit scanners.
- Scraper.Deduplicate: takes the key function as a parameter. Its one caller passes `Key`, the trimmed lower-cased name, so a missing name (a `KeyError` in the source) cannot arise.
- Dashboard.FindByName: a tool whose name is not a string is read as the empty name. The source's `.lower()` would raise on it.
- Dashboard.TextField: `None` stands for the raise of `.lower()` on a non-string recommended or alternative name. The fallback then has no inputs.
- Pipeline.ProcessTools: the classifier is `Hybrid(useLlm, llm)`. The LLM enrichment is any function, and `WiredEnrich` connects it to the modelled Groq call and parser. The sleep between tools is left out.
- Pipeline.RunPipeline: the database is the `Store` class holding a sequence of records. Column encoding and timestamps are left out, and so are `init_db` and `log_run`. The counts are taken over the records as saved, not as read back.
- The text of the trend summary is left out (llm_engine.py:237-258): its ordering of the top categories, the Groq prompt and the formatting. Only the per-category counts it starts from are modelled.
- The API layer (api.py) is left out, and so are the dashboard's pages and charts outside the top-5 fallback.
- LlmEngine.KeywordRecommend: a name that is present but not text is read as the placeholder "—" (Json.NameOr), where Python's `.get("name", "—")` returns the value itself. Stored records always carry a text name.
- LlmEngine.RecommendToolForTask: the corrected recommender does not raise on a tool list the prompt cannot be built from; the prompt's text does not affect the modelled Groq answers, so it simply answers. The as-written raise is RecommendToolForTaskAsWritten's.
- Classifier.HybridClassify: the source does not check the category an LLM returns, so the model does not check it either.

## Findings

| source | as written | input that shows it | evidently intended | confidence | as-written member | corrected member |
|---|---|---|---|---|---|---|
| llm_engine.py:128-140 | `_parse_json_safe` returns whatever `json.loads` produces. `classify_and_enrich_tool` (llm_engine.py:171) and `recommend_tool_for_task` (llm_engine.py:223) then call `.get` on it. That raises `AttributeError` at line 171 for any non-dict value, and at line 223 for a truthy one (a non-empty list or string, a non-zero number, `true`); a falsy one falls back to keywords there through `not result` | a Groq reply of `[1]`: it parses to a list | the function is annotated `-> dict` and otherwise returns `{}`, so a non-object parse should count as no parse and give `{}` | high; not executed | LlmEngine.ParseJsonSafeAsWritten, LlmEngine.ClassifyAndEnrichAsWritten, LlmEngine.ListReplyRaises, LlmEngine.RecommendToolForTaskAsWritten, LlmEngine.TruthyNonObjectRaises, LlmEngine.ListReplyRecommendationRaises | LlmEngine.ParseJsonSafe, LlmEngine.ClassifyAndEnrich, LlmEngine.RecommendToolForTask |
