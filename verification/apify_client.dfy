/** The input sent to the Google-search scraping actor (apify_client.py).
    The actor run and the dataset listing are remote calls: they are
    parameters of the model (`call` and `listItems`), so only the input the
    client builds, and what it does with the answers, are modelled. */
module ApifyClient {
  import opened Wrappers
  import opened Json
  import opened Text

  /** The actor every run is started on. */
  const ActorId := "nFJndFXA5zjCTuudP"

  /** The actor input used for every key the caller does not supply. */
  const DefaultInput: Object := map[
    "queries" := Str("javascript\ntypescript\npython"),
    "resultsPerPage" := Int(100),
    "maxPagesPerQuery" := Int(1),
    "aiMode" := Str("aiModeOff"),
    "maximumLeadsEnrichmentRecords" := Int(0),
    "focusOnPaidAds" := Bool(false),
    "searchLanguage" := Str(""),
    "languageCode" := Str(""),
    "forceExactMatch" := Bool(false),
    "wordsInTitle" := Arr([]),
    "wordsInText" := Arr([]),
    "wordsInUrl" := Arr([]),
    "mobileResults" := Bool(false),
    "includeUnfilteredResults" := Bool(false),
    "saveHtml" := Bool(false),
    "saveHtmlToKeyValueStore" := Bool(true),
    "includeIcons" := Bool(false)
  ]

  /** `{**default_input, **search_params}`: a shallow merge in which the
      caller's entries win. */
  function MergeInput(params: Object): (input: Object)
    ensures input.Keys == DefaultInput.Keys + params.Keys
    ensures forall k :: k in params ==> input[k] == params[k]
    ensures forall k :: k in DefaultInput && k !in params ==> input[k] == DefaultInput[k]
  {
    DefaultInput + params
  }

  /** `search_params=None` is the empty dict. */
  function ParamsOrEmpty(params: Option<Object>): Object
  {
    if params.Some? then params.value else map[]
  }

  /** Merging an already merged input over the defaults again changes nothing. */
  lemma MergeInputIdempotent(params: Object)
    ensures MergeInput(MergeInput(params)) == MergeInput(params)
  {
    var once := MergeInput(params);
    assert MergeInput(once).Keys == once.Keys;
  }

  // ---------------------------------------------------------------------------
  // Running the actor

  /** What `actor(...).call(input)` answers: a failure, or a finished run
      naming its default dataset. */
  datatype RunOutcome = ActorFailed(error: string) | Finished(defaultDatasetId: string)

  /** What `dataset(id).list_items()` answers. */
  datatype ListOutcome = ListFailed(error: string) | Listed(items: seq<Object>)

  /** `run_actor_sync`: run the actor on the merged input and list its
      dataset. Whatever either remote call raises is re-raised, which is a
      `Failure` carrying that error. */
  function RunActorSync(params: Option<Object>, call: Object -> RunOutcome, listItems: string -> ListOutcome)
    : Result<seq<Object>, string>
  {
    match call(MergeInput(ParamsOrEmpty(params)))
    case ActorFailed(e) => Failure(e)
    case Finished(id) =>
      match listItems(id)
      case ListFailed(e) => Failure(e)
      case Listed(items) => Success(items)
  }

  /** The actor sees nothing but the merged input, which without caller
      parameters is exactly the default input. The run succeeds exactly when
      both remote calls do; it then returns the dataset's items, and
      otherwise the error of the first call that failed. */
  lemma RunActorSyncOutcome(params: Option<Object>, call: Object -> RunOutcome, listItems: string -> ListOutcome)
    ensures params.None? ==> MergeInput(ParamsOrEmpty(params)) == DefaultInput
    ensures var run := call(MergeInput(ParamsOrEmpty(params)));
            var r := RunActorSync(params, call, listItems);
            && (r.Success? <==> run.Finished? && listItems(run.defaultDatasetId).Listed?)
            && (run.ActorFailed? ==> r == Failure(run.error))
            && (run.Finished? && listItems(run.defaultDatasetId).ListFailed? ==>
                  r == Failure(listItems(run.defaultDatasetId).error))
            && (r.Success? ==> r.value == listItems(run.defaultDatasetId).items)
  {
    if params.None? {
      assert MergeInput(map[]).Keys == DefaultInput.Keys;
    }
  }

  // ---------------------------------------------------------------------------
  // search_news and get_news_for_bias_analysis

  /** `queries` as `search_news` accepts it: a list of queries or one string. */
  datatype Queries = QueryList(list: seq<string>) | QueryText(text: string)

  const Newline: string := "\n"

  /** The parameters `search_news` builds: the queries, joined by newlines
      when given as a list, followed by the options, which win. */
  function SearchParams(queries: Queries, options: Option<Object>): Object
  {
    var joined := match queries
      case QueryList(qs) => Join(Newline, qs)
      case QueryText(q) => q;
    map["queries" := Str(joined)] + ParamsOrEmpty(options)
  }

  /** The actor receives the query list joined by newlines, unless the
      options carry their own `queries`, which then wins. */
  lemma SearchNewsQueries(qs: seq<string>, options: Option<Object>)
    ensures var input := MergeInput(SearchParams(QueryList(qs), options));
            && input.Keys == DefaultInput.Keys + ParamsOrEmpty(options).Keys
            && ("queries" in ParamsOrEmpty(options) ==> input["queries"] == ParamsOrEmpty(options)["queries"])
            && ("queries" !in ParamsOrEmpty(options) ==> input["queries"] == Str(Join(Newline, qs)))
  {
    var params := SearchParams(QueryList(qs), options);
    assert params.Keys == {"queries"} + ParamsOrEmpty(options).Keys;
  }

  /** The joined queries split back into the same list when none of them
      holds a newline. */
  lemma SearchQueriesRoundTrip(qs: seq<string>)
    requires qs != []
    requires forall i :: 0 <= i < |qs| ==> '\n' !in qs[i]
    ensures SplitOn(Join(Newline, qs), '\n') == qs
  {
    assert Newline == ['\n'];
    SplitOnJoin(qs, '\n');
  }

  /** A single query string is passed through unchanged. */
  lemma SearchNewsSingleQuery(q: string, options: Option<Object>)
    requires "queries" !in ParamsOrEmpty(options)
    ensures MergeInput(SearchParams(QueryText(q), options))["queries"] == Str(q)
  {
  }

  /** The fixed parameters of `get_news_for_bias_analysis`. */
  function BiasAnalysisParams(topic: Value, maxResults: Value): Object
  {
    map[
      "queries" := topic,
      "resultsPerPage" := maxResults,
      "maxPagesPerQuery" := Int(2),
      "saveHtml" := Bool(true),
      "includeUnfilteredResults" := Bool(true)
    ]
  }

  /** The bias-analysis input adds no key to the defaults. */
  lemma BiasAnalysisInputKeys(topic: Value, maxResults: Value)
    ensures MergeInput(BiasAnalysisParams(topic, maxResults)).Keys == DefaultInput.Keys
  {
    var params := BiasAnalysisParams(topic, maxResults);
    assert "queries" in DefaultInput && "resultsPerPage" in DefaultInput && "maxPagesPerQuery" in DefaultInput;
    assert "saveHtml" in DefaultInput && "includeUnfilteredResults" in DefaultInput;
    assert params.Keys == {"queries", "resultsPerPage", "maxPagesPerQuery", "saveHtml", "includeUnfilteredResults"};
  }

  /** The bias-analysis input sends the topic and page size, two pages per
      query, saved HTML and unfiltered results; every other default is kept. */
  lemma BiasAnalysisInput(topic: Value, maxResults: Value)
    ensures var input := MergeInput(BiasAnalysisParams(topic, maxResults));
            && input["queries"] == topic
            && input["resultsPerPage"] == maxResults
            && input["maxPagesPerQuery"] == Int(2)
            && input["saveHtml"] == Bool(true)
            && input["includeUnfilteredResults"] == Bool(true)
            && input["aiMode"] == Str("aiModeOff")
            && input["saveHtmlToKeyValueStore"] == Bool(true)
  {
    var params := BiasAnalysisParams(topic, maxResults);
    assert "aiMode" !in params && "saveHtmlToKeyValueStore" !in params;
    assert DefaultInput["aiMode"] == Str("aiModeOff");
    assert DefaultInput["saveHtmlToKeyValueStore"] == Bool(true);
  }

  /** `run_actor` is declared `async`: calling it does not run the actor but
      returns a coroutine holding the parameters, and `search_news` and
      `get_news_for_bias_analysis` return that coroutine without awaiting it. */
  datatype Pending = Pending(params: Option<Object>)

  /** `search_news` as written: an un-awaited coroutine. */
  function SearchNews(queries: Queries, options: Option<Object>): Pending
  {
    Pending(Some(SearchParams(queries, options)))
  }

  /** `get_news_for_bias_analysis` as written: an un-awaited coroutine. */
  function GetNewsForBiasAnalysis(topic: Value, maxResults: Value): Pending
  {
    Pending(Some(BiasAnalysisParams(topic, maxResults)))
  }

  /** Awaiting the coroutine runs `run_actor`, whose body is that of
      `run_actor_sync`. */
  function Await(p: Pending, call: Object -> RunOutcome, listItems: string -> ListOutcome): Result<seq<Object>, string>
  {
    RunActorSync(p.params, call, listItems)
  }

  /** The bias-analysis search with the run awaited, as the route that uses
      it evidently intends. */
  function GetNewsForBiasAnalysisAwaited(topic: Value, maxResults: Value,
                                         call: Object -> RunOutcome, listItems: string -> ListOutcome)
    : (r: Result<seq<Object>, string>)
    ensures var run := call(MergeInput(BiasAnalysisParams(topic, maxResults)));
            && (r.Success? <==> run.Finished? && listItems(run.defaultDatasetId).Listed?)
            && (r.Success? ==> r.value == listItems(run.defaultDatasetId).items)
            && (run.ActorFailed? ==> r == Failure(run.error))
            && (run.Finished? && listItems(run.defaultDatasetId).ListFailed? ==>
                  r == Failure(listItems(run.defaultDatasetId).error))
  {
    Await(GetNewsForBiasAnalysis(topic, maxResults), call, listItems)
  }
}
