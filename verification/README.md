# News bias detector: a verified model of its core

The news bias detector is a browser extension backend. It searches the web for
articles on the topic of a target article, using a Google-search scraping
actor. It downloads and parses the articles it finds and asks the Gemini model
to review the target article sentence by sentence against them. The reviews
are streamed back to the extension as server-sent events.

This project models the deterministic logic of that backend in Dafny and proves
what the code promises about it. It covers these modules:

- **`GeminiClient`** (`backend/gemini_client.py`):
  - the sentence splitter;
  - the character-budget chunker `_create_smart_chunks`;
  - the markdown code-fence stripper shared by the two analyses;
  - the `R1..Rn` reference packaging and its echo in `references_used`;
  - the verdict tally;
  - the integer risk score;
  - the event sequence of `analyze_claims_streaming`.
- **`NewspaperClient`** (`newspaper_client.py`):
  - URL checks;
  - the record `fetch_article` returns, and its `word_count`;
  - the order-preserving `fetch_multiple_articles`;
  - the reshaping in `get_article_for_bias_analysis`;
  - the decision logic of `validate_url`.
- **`ApifyClient`** (`apify_client.py`):
  - the shallow merge of the caller's parameters over the actor's default input;
  - the query join of `search_news`;
  - the fixed parameters of `get_news_for_bias_analysis`;
  - the propagation of actor and dataset errors.
- **`App`** (`backend/app.py`):
  - URL extraction from search results;
  - the `site:` query;
  - the fetched/failed partition;
  - the limits and counts of `/api/fetch-articles`;
  - the output file name;
  - the references prepared for the analysis;
  - the event stream of `/api/search-and-fetch-stream`;
  - `/api/analyze-bias`.
- **Shared modules:**
  - `Json`: decoded JSON values, and Python's `dict.get` and truthiness over them;
  - `Text`: Python's `strip`, `split`, `join` and `in` on strings, and decimal rendering;
  - `Wrappers`: `Option` and `Result`.

The third-party libraries and remote services are parameters of the model
(function-typed arguments), so each property holds for every behaviour they
might have. These are:

- the scraping actor and its dataset;
- the article library;
- `urlparse`;
- the HEAD request;
- the Gemini replies;
- `json.loads` of a reply.

Loops that the code runs step by step are methods with loop invariants, each
proved equal to the function that specifies it. These are:

- the chunker;
- the verdict count;
- the chunk loop of the streaming analysis;
- URL extraction;
- the fetch loop;
- reference preparation;
- the stream generator.

The model follows the code wherever the repository's description of the
system says otherwise:

- The risk score truncates, as `int()` does, rather than rounding.
- `safe_query` turns `/` into `_` rather than dropping it.

## Model

| member | source | states |
|---|---|---|
| GeminiClient.SplitSentencesShape | backend/gemini_client.py:413-414 | every sentence the splitter yields is non-empty with no surrounding whitespace, and every sentence but the last ends in `.`, `!` or `?` |
| GeminiClient.SplitSentencesKeepsContent | backend/gemini_client.py:413-414 | splitting loses only whitespace: the non-whitespace characters of the sentences, in order, are those of the text |
| GeminiClient.SplitSentencesSplitsAll | backend/gemini_client.py:413-414 | the splitter splits at every match of the pattern: no sentence it yields still holds a `.`, `!` or `?` followed by whitespace |
| GeminiClient.RawSplitPieces | backend/gemini_client.py:413 | every piece of the regex split but the last ends in a terminator (the lookbehind keeps it) |
| GeminiClient.CreateSmartChunks | backend/gemini_client.py:368-401 | the chunking loop, with its `len+1` accounting on append and `len` reset on a break, computes exactly the specified chunk list |
| GeminiClient.SmartChunksSpec | backend/gemini_client.py:379-401 | the chunks read in order are exactly `enumerate(sentences)`; no chunk is empty; there are no chunks iff there are no sentences; each chunk was built within the accounting |
| GeminiClient.SmartChunksBudget | backend/gemini_client.py:384-395 | a chunk of two or more sentences has total sentence length at most `max_chars`; a sentence longer than the budget is alone in its chunk |
| GeminiClient.PromptNumbersAreGlobal | backend/gemini_client.py:449 | the k-th sentence of chunk j is sentence number (sentences in earlier chunks) + k + 1 of the article, and its prompt line carries that number and sentence |
| GeminiClient.StripFenceUnfenced | backend/gemini_client.py:316-324 | a reply that does not start with a fence is only stripped |
| GeminiClient.StripFenceFenced | backend/gemini_client.py:496-504 | a fenced reply yields the segment from the opening fence to the next fence (stray backticks allowed), or to the end when no fence closes it; a leading `json` tag is dropped and the rest stripped, otherwise the segment is untouched |
| GeminiClient.FencedJsonIsTransparent | backend/gemini_client.py:496-504 | a `json`-fenced reply, closed or left open, and the bare reply give the parser the same text |
| GeminiClient.PackageReferences | backend/gemini_client.py:426-434 | packaging keeps the number of references and numbers them `R1`, `R2`, ... in order |
| GeminiClient.PackagedReferences | backend/gemini_client.py:161-168 | the i-th packaged reference is `"R" + str(i+1)` with the reference's title (default `Untitled`); the ids are pairwise distinct |
| GeminiClient.PackagingDefaults | backend/gemini_client.py:161-168 | the streaming defaults `Untitled`/`Unknown`/`Unknown`; the blocking date is the first truthy of `date` and `publish_date`, else null |
| GeminiClient.ReferencesUsedEcho | backend/gemini_client.py:583-590 | `references_used` echoes each packaged reference's id, title, date and url, in order, and each id resolves to exactly that reference |
| GeminiClient.ResolveDistinct | backend/gemini_client.py:426-434 | with distinct ids, looking up a packaged reference's id finds that reference |
| GeminiClient.CountVerdicts | backend/gemini_client.py:543-546 | the counting loop gives each verdict the number of reviews carrying it, and the counts sum to the number of reviews |
| GeminiClient.TallySum | backend/gemini_client.py:543-546 | the verdict counts sum to the number of reviews |
| GeminiClient.TallyCounts | backend/gemini_client.py:543-546 | each count is the number of reviews with that verdict, and only occurring verdicts are keys |
| GeminiClient.MissingVerdictIsUnknown | backend/gemini_client.py:545-546 | wherever it stands in the list, a review without a verdict adds one to the `"Unknown"` count and changes no other count |
| GeminiClient.RiskScore | backend/gemini_client.py:548-554 | the score lies in [0, 100]; it is 0 when there are no reviews and when nothing is contradicted or misleading |
| GeminiClient.RiskScoreMonotone | backend/gemini_client.py:552-554 | with the total fixed, more contradicted or misleading verdicts never lower the score |
| GeminiClient.RiskScoreSaturates | backend/gemini_client.py:554 | the score is 100 exactly when 4·contradicted + 3·misleading is at least twice the number of reviews |
| GeminiClient.AnalyzeClaimsStreaming | backend/gemini_client.py:403-593 | the generator yields exactly the specified event list |
| GeminiClient.RunChunks | backend/gemini_client.py:442-533 | the chunk loop yields and accumulates exactly the combination of the per-chunk outcomes |
| GeminiClient.YieldReviews | backend/gemini_client.py:511-519 | one `sentence_review` event per parsed review, stopping at the first review without an `index` |
| GeminiClient.FailedChunkSkipped | backend/gemini_client.py:520-533 | a failed or unparseable chunk contributes nothing, and the chunks before and after it produce what they would with any reply to it |
| GeminiClient.ParsedChunk | backend/gemini_client.py:506-519 | a parsed reply keeps all its reviews; its events carry each review, its index and the sentence count, up to the first review without an index |
| GeminiClient.ConclusionShape | backend/gemini_client.py:535-593 | the closing events are `generating_summary` then `analysis_complete`, with counts summing to the reviews, a score ≤ 100, the summary reply's text when there is one and `"Analysis complete."` otherwise, and the echoed references |
| GeminiClient.AnalysisEventsShape | backend/gemini_client.py:416-593 | the first event is `analysis_start` with the sentence count; every review event reports that count; `generating_summary` is sent iff some review was produced, and then the stream ends with the closing events |
| GeminiClient.Conclude | backend/gemini_client.py:535-593 | the summary step emits exactly the specified closing events |
| NewspaperClient.IsValidUrl | newspaper_client.py:201-215 | a URL is valid iff it parses with a non-empty scheme and netloc; a parser exception means invalid |
| NewspaperClient.ExtractDomain | newspaper_client.py:217-231 | the domain is the netloc, or `unknown` when parsing fails |
| NewspaperClient.WordCount | newspaper_client.py:79 | the count is the number of whitespace-separated words, and 0 exactly when the text is empty or all whitespace |
| NewspaperClient.WordCountJoin | newspaper_client.py:79 | words joined by spaces count as their number |
| NewspaperClient.FetchArticle | newspaper_client.py:32-95 | the record always carries the url; it reports success iff the URL is well formed and the library delivered an article |
| NewspaperClient.FetchArticleFailure | newspaper_client.py:88-95 | a failure is the four-field error record, with `Invalid URL: <url>` for a malformed URL, otherwise the library's message |
| NewspaperClient.FetchArticleSuccess | newspaper_client.py:63-83 | a success records the text, its word count, the page language or else the configured one, the time, and every field the reshaping reads |
| NewspaperClient.MalformedUrlNotDownloaded | newspaper_client.py:44-45 | a malformed URL is rejected before the library is asked for anything |
| NewspaperClient.FetchMultipleArticles | newspaper_client.py:97-114 | one record per URL, the i-th being `fetch_article` of the i-th URL stamped with the time of its own fetch |
| NewspaperClient.BiasAnalysisPassesFailure | newspaper_client.py:126-129 | a failed fetch is returned unchanged |
| NewspaperClient.BiasAnalysisRecord | newspaper_client.py:132-148 | a success is reshaped with `analysis_ready` true, the url, the text as `content` and the URL's netloc as `source` |
| NewspaperClient.ValidateUrlOrder | newspaper_client.py:160-192 | the checks run in order (format, status 200, `text/html` content type), the first that fails names the error (`Invalid content type: <ct>` with the lower-cased header), and the URL is valid exactly when all pass, carrying status 200 and that lower-cased content type |
| NewspaperClient.MalformedUrlNotRequested | newspaper_client.py:160-166 | a malformed URL is rejected without any request |
| ApifyClient.MergeInput | apify_client.py:144 | the merged input has the union of the default and caller keys; caller values win; every other default is kept |
| ApifyClient.MergeInputIdempotent | apify_client.py:51 | merging an already merged input over the defaults changes nothing |
| ApifyClient.RunActorSyncOutcome | apify_client.py:115-164 | the actor sees only the merged input, exactly the defaults when no parameters are given; the run succeeds iff the actor call and the dataset listing do; it then returns the items, otherwise re-raises the first error |
| ApifyClient.SearchNewsQueries | apify_client.py:87-90 | a query list is sent joined by newlines, unless the options carry their own `queries`, which win |
| ApifyClient.SearchQueriesRoundTrip | apify_client.py:88 | joined queries without newlines split back into the same list |
| ApifyClient.SearchNewsSingleQuery | apify_client.py:88 | a single query string is sent unchanged |
| ApifyClient.BiasAnalysisInputKeys | apify_client.py:105-111 | the bias-analysis input adds no key to the defaults |
| ApifyClient.BiasAnalysisInput | apify_client.py:105-111 | it sends the topic, the page size, two pages per query, saved HTML and unfiltered results, and keeps the other defaults |
| ApifyClient.GetNewsForBiasAnalysisAwaited | apify_client.py:94-113 | awaited, the bias-analysis search succeeds iff the run finishes and its dataset is listed, and returns the items, or the error of the actor run or of the dataset listing |
| App.SliceTo | backend/app.py:305 | Python's `xs[:n]`: a prefix of at most n elements, exactly n when n fits |
| App.CollectUrls | backend/app.py:305-307 | the inner loop collects the `url` of every entry that has one |
| App.ExtractUrls | backend/app.py:302-307 | the nested loops compute exactly the specified URL list |
| App.EntryUrlsFrom | backend/app.py:306-307 | a value is extracted iff some object entry carries it under `url` |
| App.ResultUrlsBound | backend/app.py:304-305 | a result contributes at most `maxArticlesToFetch` URLs, and none without `organicResults` |
| App.ExtractedUrlsAppend | backend/app.py:303 | URLs come in result order |
| App.ExtractedUrlsBound | backend/app.py:302-307 | at most `maxArticlesToFetch` URLs per result in total |
| App.SiteQueryShape | backend/app.py:278-280 | the query starts with the base query, names every website as a `site:` term, and is the base query iff there is no website |
| App.FetchArticles | backend/app.py:318-329 | one progress event per URL, and the records split into the fetched and failed lists with lengths summing to the URLs |
| App.PartitionCounts | backend/app.py:318-329 | every record lands on exactly one side: the two sides together are the records, counted with multiplicity |
| App.PartitionSides | backend/app.py:326-329 | a record is on the side its `success` flag names |
| App.PartitionAppend | backend/app.py:477-486 | relative order is kept on both sides |
| App.FetchArticlesRouteCounts | backend/app.py:160-186 | the request is served iff `urls` is a list of at most ten; other requests get 400; successful plus failed count is the number requested |
| App.RemoveCharSpec | backend/app.py:629 | removing a character drops every occurrence of it and nothing else |
| App.SafeQueryClean | backend/app.py:629 | the file-name part has at most 50 characters and no space, slash or quote |
| App.SafeQueryReplaces | backend/app.py:629 | every space and slash becomes `_`: after the quotes are dropped, each kept character is the query's own, with ` ` and `/` turned into `_` |
| App.SafeQueryLength | backend/app.py:629 | only quotes are dropped before the cut: the length is min(50, length minus quotes) |
| App.SafeQueryKeepsSafe | backend/app.py:629 | a query that is already a safe name of at most 50 characters is kept |
| App.SafeQueryIdempotent | backend/app.py:629 | sanitising twice is sanitising once |
| App.PrepareReferences | backend/app.py:358-365 | one prepared reference per fetched article, in order |
| App.PreparedReferencesPackaged | backend/app.py:358-365 | once packaged, the i-th reference is `R(i+1)` with the article's title (default `Untitled`), its `publish_date` as date (null, never `Unknown`), url and text |
| App.SearchAndFetchStream | backend/app.py:256-382 | the generator yields exactly the specified event list |
| App.StreamSearch | backend/app.py:285-299 | the search step yields exactly the specified events |
| App.StreamAfterSearch | backend/app.py:301-346 | the extraction and fetch steps yield exactly the specified events |
| App.StreamClaims | backend/app.py:349-376 | the claims step yields exactly the specified events |
| App.ForwardAnalysis | backend/app.py:368-369 | every analysis event is forwarded, in order |
| App.ClaimsPhaseRuns | backend/app.py:349 | analysis events are sent iff there is a target article, at least one fetched reference, and the target is an object with a text |
| App.ClaimsPhaseWarnings | backend/app.py:372-376 | without a target the step is a `No target article provided` warning then `complete`; without references, `got 0` then `complete` |
| App.ClaimsPhaseEnds | backend/app.py:349-382 | the step ends the stream with `complete`, except when the target article cannot be read, which ends it with the error event |
| App.AfterSearchEnds | backend/app.py:309-379 | with no URL extracted the rest of the stream is exactly the `No URLs found in search results` error; otherwise it ends with `complete` iff the claims step completes, and else with the type error; `complete` is sent only last |
| App.SearchPhaseErrors | backend/app.py:292-296 | a failed search is exactly its error event, and a search without results exactly the `No search results found` error |
| App.SearchPhaseEnds | backend/app.py:292-300 | the search step closes the stream; after a search with results it ends as the later steps do |
| App.StreamShape | backend/app.py:256-382 | the stream opens with `Starting search and fetch...`, ends with `complete` or an error, sends `complete` only last, and ends as its search step does |
| App.StreamCompletes | backend/app.py:256-382 | the stream ends with `complete` iff the search succeeds with results, some URL is extracted, and the claims step completes (no target, no reference, or a target object with a text) |
| App.StreamReportsSearchError | backend/app.py:292-311 | an actor or dataset error, an empty search and a search without URLs each end the stream with their own error event |
| App.Length | backend/app.py:92 | `len()` is defined exactly on a list and gives its length |
| App.AnalyzeBiasAlwaysFails | backend/app.py:84-102 | as written, every request naming a topic fails with 500 `Failed to fetch articles for bias analysis` |
| App.AnalyzeBiasRouteServes | backend/app.py:84-95 | awaited, a request naming a topic is served iff the run and listing succeed, with the count and items of the dataset |

## Left out

- HTTP, Flask, CORS and server-sent-event framing. A response is a status and a JSON object; a stream is its list of events.
- These routes are not modelled; they are plumbing around client calls that are modelled:
  - `/`, `/health` and `/api/status` (constant replies);
  - `/api/search-news`, `/api/fetch-article`, `/api/validate-url` and `/api/article-bias-analysis`.
- `/api/search-and-fetch` as a whole is not modelled. Its URL extraction, `site:` query, partition, reference preparation and output file name are the shared members above. Its console printing, timestamps and file writing are I/O.
- The blocking analysis `analyze_claims_and_rhetoric` is left out beyond its reference packaging and fence stripping. It is one Gemini call and a `json.loads`.
- The Gemini SDK is left out: `generate_text`, token accounting and the prompt wording. A chunk reply is `Reply` (a failure, or text) and the summary reply an `Option`.
- `json.loads` is the `parse` parameter, which yields a list of review objects or nothing. A reply that parses to something other than a list of objects is outside the model.
- GeminiClient.Tally: verdicts are JSON values. An unhashable verdict (a list or object), which makes Python raise, is not distinguished. Python's dict merges keys that compare equal, so `true`, `1` and `1.0` share one count, while the model counts `Bool(true)`, `Int(1)` and `Real(1.0)` apart. The insertion order of the keys is not kept.
- The article library, `requests.head` and `urlparse` are parameters. Timestamps are a parameter (`fetchedAt` for one fetch, `now(i)` for the i-th fetch of a batch), and the configured language is a parameter.
- Text.AsciiLower: only ASCII letters are lowered, where Python's `lower()` covers all of Unicode.
- GeminiClient.RiskScore: computed in exact integers. Rare float-rounding differences of the Python expression are not covered.
- The actor run and dataset listing are the `call` and `listItems` parameters. The async `run_actor` has the body of `run_actor_sync` (`ApifyClient.Await`).
- App.Display: a list, object or float base query renders as a placeholder, not as Python's repr. A non-string base query rarely comes from the extension.
- App.SliceBound: a `maxArticlesToFetch` that is not an integer, a boolean or null (a float, a string, a list, an object) is treated as no limit, where Python's slice raises `TypeError`.
- Json.Value: a float is an exact real, without binary rounding. The `NaN` and `Infinity` that Python's `json` also accepts are not represented.
- App.ExtractUrls: an `organicResults` that is not a list contributes nothing, where Python may raise or iterate a string. Entries that are not objects contribute nothing. In Python, a string or list entry that contains `"url"` makes `organic['url']` raise `TypeError`, and a number, boolean or null entry makes the `in` test raise it; the stream's handler turns that into an error event.
- App.BuildQuery: the website list is the `sources` parameter (the websites or the load error). The file read is I/O, and a website entry must be a string.
- App.StreamEvents: a request body that is not a JSON object is out of scope. A missing or falsy body is the empty object. The exact text of a Python `TypeError`/`AttributeError` is the single `TypeFault` event.
- App.StreamEvents: fetching is the `fetch` parameter, which stands for `NewspaperClient.FetchArticle` with its oracles.
- NewspaperClient.BiasRecord: fields are read with a null default. A successful record has them all (`NewspaperClient.FetchArticleSuccess`), so the `KeyError` path cannot arise.
- GeminiClient.SummaryText: a successful summary reply without text counts as the fallback, as Python's `get('text', 'Analysis complete.')` gives.
- ApifyClient.SearchNews: `queries` is a list of strings or a string. Other iterables are out of scope.
- Logging, `print`, global singletons and API-key initialisation are side effects and configuration.

## Findings

| source | as written | input that shows it | evidently intended | confidence | as-written member | corrected member |
|---|---|---|---|---|---|---|
| backend/app.py:87-92 | `get_news_for_bias_analysis` returns the un-awaited coroutine of the `async def run_actor` (apify_client.py:16, 113), and `len(articles)` on a coroutine raises `TypeError`. The root app.py, which imports apify_client.py directly (app.py:4), makes the same `len(articles)` call on the un-awaited coroutine (app.py:82-88) | any request naming a topic, e.g. `{"topic": "x"}`: the route answers 500 `Failed to fetch articles for bias analysis` without ever running the actor | the actor is run (the coroutine awaited, or `run_actor_sync` called) and the dataset items are counted and returned | not executed | App.AnalyzeBiasAlwaysFails | App.AnalyzeBiasRouteServes |
