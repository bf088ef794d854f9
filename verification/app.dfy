/** The route layer's own logic (backend/app.py): extracting article URLs
    from search results, building the `site:` query, splitting fetched
    records into successes and failures, the `/api/fetch-articles` limits,
    the output file name, the references handed to the claims analysis, and
    the event stream of `/api/search-and-fetch-stream`. HTTP, SSE framing
    and file I/O are not modelled: a response is a status and a JSON object,
    a stream is its list of events. */
module App {
  import opened Wrappers
  import opened Json
  import opened Text
  import NewspaperClient
  import GeminiClient
  import ApifyClient

  /** A JSON response: the HTTP status and the object sent. */
  datatype Response = Response(status: nat, body: Object)

  function BadRequest(message: string): Response
  {
    Response(400, map["error" := Str("Bad Request"), "message" := Str(message)])
  }

  function InternalError(message: string): Response
  {
    Response(500, map["error" := Str("Internal Server Error"), "message" := Str(message)])
  }

  /** A list of records as a JSON array. */
  function Objs(records: seq<Object>): (r: seq<Value>)
    ensures |r| == |records|
  {
    seq(|records|, i requires 0 <= i < |records| => Obj(records[i]))
  }

  // ---------------------------------------------------------------------------
  // URL extraction from search results

  /** Python's `xs[:n]`; `None` is no bound, a negative bound counts from the end. */
  function SliceTo<T>(xs: seq<T>, n: Option<int>): (r: seq<T>)
    ensures |r| <= |xs| && r == xs[..|r|]
    ensures n.Some? && 0 <= n.value ==> |r| <= n.value
    ensures n.Some? && 0 <= n.value <= |xs| ==> |r| == n.value
  {
    if n.None? then xs
    else if 0 <= n.value then (if n.value <= |xs| then xs[..n.value] else xs)
    else if 0 <= |xs| + n.value then xs[..|xs| + n.value]
    else []
  }

  /** The slice bound `maxArticlesToFetch` gives: an integer (a boolean is
      one in Python), or none for `null` and for every other value. */
  function SliceBound(v: Value): Option<int>
  {
    match v
    case Int(n) => Some(n)
    case Bool(b) => Some(if b then 1 else 0)
    case _ => None
  }

  /** What one organic entry contributes: its `url`, when it has one. */
  function EntryUrl(entry: Value): seq<Value>
  {
    if entry.Obj? && "url" in entry.fields then [entry.fields["url"]] else []
  }

  function EntryUrls(entries: seq<Value>): seq<Value>
  {
    if entries == [] then [] else EntryUrls(entries[..|entries| - 1]) + EntryUrl(entries[|entries| - 1])
  }

  /** The organic entries of one result that are looked at: the first `cap`. */
  function OrganicEntries(result: Object, cap: Option<int>): seq<Value>
  {
    if "organicResults" in result && result["organicResults"].Arr? then SliceTo(result["organicResults"].items, cap)
    else []
  }

  function ResultUrls(result: Object, cap: Option<int>): seq<Value>
  {
    EntryUrls(OrganicEntries(result, cap))
  }

  /** Every extracted URL, result after result. */
  function ExtractedUrls(results: seq<Object>, cap: Option<int>): seq<Value>
  {
    if results == [] then [] else ExtractedUrls(results[..|results| - 1], cap) + ResultUrls(results[|results| - 1], cap)
  }

  /** The inner loop: `organic['url']` of every entry that has one. */
  method CollectUrls(entries: seq<Value>) returns (found: seq<Value>)
    ensures found == EntryUrls(entries)
  {
    found := [];
    for j := 0 to |entries|
      invariant found == EntryUrls(entries[..j])
    {
      var organic := entries[j];
      assert entries[..j + 1][..j] == entries[..j];
      if organic.Obj? && "url" in organic.fields {
        found := found + [organic.fields["url"]];
      }
    }
    assert entries[..|entries|] == entries;
  }

  /** The outer loop over the search results. */
  method ExtractUrls(results: seq<Object>, cap: Option<int>) returns (urls: seq<Value>)
    ensures urls == ExtractedUrls(results, cap)
  {
    urls := [];
    for i := 0 to |results|
      invariant urls == ExtractedUrls(results[..i], cap)
    {
      var result := results[i];
      assert results[..i + 1][..i] == results[..i];
      if "organicResults" in result && result["organicResults"].Arr? {
        var found := CollectUrls(SliceTo(result["organicResults"].items, cap));
        urls := urls + found;
      }
    }
    assert results[..|results|] == results;
  }

  /** A URL is extracted from a list of entries exactly when some object entry
      carries it under `url`. */
  lemma {:induction false} EntryUrlsFrom(entries: seq<Value>, v: Value)
    ensures v in EntryUrls(entries) <==>
            exists i :: 0 <= i < |entries| && entries[i].Obj? && "url" in entries[i].fields && entries[i].fields["url"] == v
    decreases |entries|
  {
    if entries != [] {
      var init := entries[..|entries| - 1];
      EntryUrlsFrom(init, v);
      if v in EntryUrls(init) {
        var i :| 0 <= i < |init| && init[i].Obj? && "url" in init[i].fields && init[i].fields["url"] == v;
        assert entries[i] == init[i];
      }
      if exists i :: 0 <= i < |entries| && entries[i].Obj? && "url" in entries[i].fields && entries[i].fields["url"] == v {
        var i :| 0 <= i < |entries| && entries[i].Obj? && "url" in entries[i].fields && entries[i].fields["url"] == v;
        if i < |init| {
          assert init[i] == entries[i];
        }
      }
    }
  }

  lemma {:induction false} EntryUrlsAtMostOne(entries: seq<Value>)
    ensures |EntryUrls(entries)| <= |entries|
    decreases |entries|
  {
    if entries != [] {
      EntryUrlsAtMostOne(entries[..|entries| - 1]);
    }
  }

  /** A result contributes at most `cap` URLs, and none without organic
      results. */
  lemma ResultUrlsBound(result: Object, cap: Option<int>)
    ensures cap.Some? && 0 <= cap.value ==> |ResultUrls(result, cap)| <= cap.value
    ensures "organicResults" !in result ==> ResultUrls(result, cap) == []
  {
    EntryUrlsAtMostOne(OrganicEntries(result, cap));
  }

  /** URLs come in result order: the URLs of two batches of results are those
      of the first batch followed by those of the second. */
  lemma {:induction false} ExtractedUrlsAppend(a: seq<Object>, b: seq<Object>, cap: Option<int>)
    ensures ExtractedUrls(a + b, cap) == ExtractedUrls(a, cap) + ExtractedUrls(b, cap)
    decreases |b|
  {
    if b == [] {
      assert a + b == a;
    } else {
      var init := b[..|b| - 1];
      assert (a + b)[..|a + b| - 1] == a + init;
      assert (a + b)[|a + b| - 1] == b[|b| - 1];
      ExtractedUrlsAppend(a, init, cap);
    }
  }

  /** At most `cap` URLs per result. */
  lemma {:induction false} ExtractedUrlsBound(results: seq<Object>, n: nat)
    ensures |ExtractedUrls(results, Some(n))| <= n * |results|
    decreases |results|
  {
    if results != [] {
      var init := results[..|results| - 1];
      ExtractedUrlsBound(init, n);
      ResultUrlsBound(results[|results| - 1], Some(n));
      assert |ExtractedUrls(results, Some(n))| <= |ExtractedUrls(init, Some(n))| + n;
      assert n * |results| == n * (|init| + 1) == n * |init| + n;
    }
  }

  // ---------------------------------------------------------------------------
  // The site-restricted search query

  const DefaultQuery := "Sean Combs Sentenced to More Than 4 Years in Prison After Apologizing for 'Sick' Conduct"

  /** `[f'site:{site}' for site in websites]`. */
  function SiteTerms(websites: seq<string>): seq<string>
  {
    seq(|websites|, i requires 0 <= i < |websites| => "site:" + websites[i])
  }

  /** `f'{base_query} {site_query}'` when the list of websites is non-empty,
      the base query otherwise. */
  function SiteQuery(base: string, websites: seq<string>): string
  {
    if websites == [] then base else base + " " + Join(" OR ", SiteTerms(websites))
  }

  /** The query keeps the base query in front, names every website as a
      `site:` term, and adds nothing when there is no website. */
  lemma SiteQueryShape(base: string, websites: seq<string>)
    ensures StartsWith(SiteQuery(base, websites), base)
    ensures SiteQuery(base, websites) == base <==> websites == []
    ensures forall i :: 0 <= i < |websites| ==> Contains(SiteQuery(base, websites), "site:" + websites[i])
  {
    var q := SiteQuery(base, websites);
    assert q[..|base|] == base;
    if websites != [] {
      var terms := SiteTerms(websites);
      var joined := Join(" OR ", terms);
      assert q == (base + " ") + joined;
      forall i | 0 <= i < |websites|
        ensures Contains(q, "site:" + websites[i])
      {
        JoinContains(" OR ", terms, i);
        var k: nat :| OccursAt(joined, terms[i], k);
        var off := |base| + 1;
        assert q[off + k..off + k + |terms[i]|] == joined[k..k + |terms[i]|];
        assert OccursAt(q, terms[i], off + k);
      }
    }
  }

  /** Python's `str()` of a decoded JSON scalar, as an f-string shows it. */
  function Display(v: Value): string
  {
    match v
    case Null => "None"
    case Bool(b) => if b then "True" else "False"
    case Int(i) => if 0 <= i then Decimal(i) else "-" + Decimal(-i)
    case Real(_) => "<float>"
    case Str(s) => s
    case Arr(_) => "[...]"
    case Obj(_) => "{...}"
  }

  /** The search query and the warning events of loading the website list:
      `sources` is what reading the list gives, the websites or the error
      text. */
  function BuildQuery(base: Value, useSources: bool, sources: Result<seq<string>, string>)
    : (Value, seq<StreamEvent>)
  {
    if !useSources then (base, [])
    else match sources
      case Failure(e) => (base, [Warning("Could not load reputable sources: " + e)])
      case Success(websites) => if websites == [] then (base, []) else (Str(SiteQuery(Display(base), websites)), [])
  }

  // ---------------------------------------------------------------------------
  // Fetching: successes and failures

  /** `article_data.get('success', False)`. */
  predicate Fetched(record: Object)
  {
    NewspaperClient.Succeeded(record)
  }

  /** The record fetched for each URL, in URL order. */
  function Records(urls: seq<Value>, fetch: Value -> Object): (r: seq<Object>)
    ensures |r| == |urls|
  {
    seq(|urls|, i requires 0 <= i < |urls| => fetch(urls[i]))
  }

  function Successes(records: seq<Object>): seq<Object>
  {
    if records == [] then []
    else Successes(records[..|records| - 1]) + (if Fetched(records[|records| - 1]) then [records[|records| - 1]] else [])
  }

  function Failures(records: seq<Object>): seq<Object>
  {
    if records == [] then []
    else Failures(records[..|records| - 1]) + (if Fetched(records[|records| - 1]) then [] else [records[|records| - 1]])
  }

  /** Every record lands on exactly one side: the two sides together are
      the records, counted with multiplicity. */
  lemma {:induction false} PartitionCounts(records: seq<Object>)
    ensures |Successes(records)| + |Failures(records)| == |records|
    ensures multiset(Successes(records)) + multiset(Failures(records)) == multiset(records)
    decreases |records|
  {
    if records != [] {
      var init := records[..|records| - 1];
      var last := records[|records| - 1];
      PartitionCounts(init);
      assert records == init + [last];
      assert multiset(records) == multiset(init) + multiset{last};
      if Fetched(last) {
        assert Successes(records) == Successes(init) + [last];
        assert Failures(records) == Failures(init);
      } else {
        assert Successes(records) == Successes(init);
        assert Failures(records) == Failures(init) + [last];
      }
    }
  }

  /** The side a record lands on is the one its success flag names. */
  lemma {:induction false} PartitionSides(records: seq<Object>)
    ensures forall i :: 0 <= i < |Successes(records)| ==> Fetched(Successes(records)[i])
    ensures forall i :: 0 <= i < |Failures(records)| ==> !Fetched(Failures(records)[i])
    decreases |records|
  {
    if records != [] {
      PartitionSides(records[..|records| - 1]);
    }
  }

  /** Relative order is kept: partitioning two batches of records gives the
      partitions of the first batch followed by those of the second. */
  lemma {:induction false} PartitionAppend(a: seq<Object>, b: seq<Object>)
    ensures Successes(a + b) == Successes(a) + Successes(b)
    ensures Failures(a + b) == Failures(a) + Failures(b)
    decreases |b|
  {
    if b == [] {
      assert a + b == a;
    } else {
      var init := b[..|b| - 1];
      assert (a + b)[..|a + b| - 1] == a + init;
      assert (a + b)[|a + b| - 1] == b[|b| - 1];
      PartitionAppend(a, init);
    }
  }

  function ProgressMessage(current: nat, total: nat): string
  {
    "Fetching article " + Decimal(current) + "/" + Decimal(total)
  }

  /** The progress events of the first `k` of `total` fetches. */
  function ProgressEvents(k: nat, total: nat): seq<StreamEvent>
  {
    seq(k, i requires 0 <= i < k => Progress(i + 1, total, ProgressMessage(i + 1, total)))
  }

  /** The fetch loop: one progress event per URL, each record appended to the
      fetched or the failed list. */
  method FetchArticles(urls: seq<Value>, fetch: Value -> Object)
    returns (progress: seq<StreamEvent>, fetched: seq<Object>, failed: seq<Object>)
    ensures progress == ProgressEvents(|urls|, |urls|)
    ensures fetched == Successes(Records(urls, fetch))
    ensures failed == Failures(Records(urls, fetch))
    ensures |fetched| + |failed| == |urls|
  {
    ghost var records := Records(urls, fetch);
    progress, fetched, failed := [], [], [];
    for i := 0 to |urls|
      invariant progress == ProgressEvents(i, |urls|)
      invariant fetched == Successes(records[..i]) && failed == Failures(records[..i])
    {
      progress := progress + [Progress(i + 1, |urls|, ProgressMessage(i + 1, |urls|))];
      var articleData := fetch(urls[i]);
      assert records[..i + 1][..i] == records[..i];
      if Fetched(articleData) {
        fetched := fetched + [articleData];
      } else {
        failed := failed + [articleData];
      }
    }
    assert records[..|urls|] == records;
    PartitionCounts(records);
  }

  // ---------------------------------------------------------------------------
  // /api/fetch-articles

  const MaxUrlsPerRequest := 10

  /** `/api/fetch-articles`: the request must carry a list of at most ten
      URLs; each is fetched and the records are reported by outcome. */
  function FetchArticlesRoute(data: Object, fetch: Value -> Object): Response
  {
    if "urls" !in data then BadRequest("URLs parameter is required")
    else if !data["urls"].Arr? then BadRequest("URLs must be an array")
    else if |data["urls"].items| > MaxUrlsPerRequest then BadRequest("Maximum 10 URLs allowed per request")
    else
      var urls := data["urls"].items;
      var records := Records(urls, fetch);
      var ok := Successes(records);
      var bad := Failures(records);
      Response(200, map[
        "success" := Bool(true),
        "total_requested" := Int(|urls|),
        "successful_count" := Int(|ok|),
        "failed_count" := Int(|bad|),
        "successful_articles" := Arr(Objs(ok)),
        "failed_articles" := Arr(Objs(bad))
      ])
  }

  /** The request is served exactly when `urls` is a list of at most ten;
      then the two counts add up to the number requested, and each listed
      record is on the side its success flag says. */
  lemma FetchArticlesRouteCounts(data: Object, fetch: Value -> Object)
    ensures var r := FetchArticlesRoute(data, fetch);
            && (r.status == 200 <==> "urls" in data && data["urls"].Arr? && |data["urls"].items| <= MaxUrlsPerRequest)
            && (r.status != 200 ==> r.status == 400)
            && ("urls" in data && !data["urls"].Arr? ==> r == BadRequest("URLs must be an array"))
            && (r.status == 200 ==>
                  && "total_requested" in r.body && "successful_count" in r.body && "failed_count" in r.body
                  && r.body["successful_count"].i + r.body["failed_count"].i == r.body["total_requested"].i
                  && r.body["total_requested"] == Int(|data["urls"].items|))
  {
    if "urls" in data && data["urls"].Arr? && |data["urls"].items| <= MaxUrlsPerRequest {
      PartitionCounts(Records(data["urls"].items, fetch));
    }
  }

  // ---------------------------------------------------------------------------
  // The output file name

  const MaxSafeQueryLength := 50

  /** `s.replace(a, b)` for single characters. */
  function ReplaceChar(s: string, a: char, b: char): string
  {
    seq(|s|, i requires 0 <= i < |s| => if s[i] == a then b else s[i])
  }

  /** `s.replace(c, '')`. */
  function RemoveChar(s: string, c: char): string
  {
    if s == [] then [] else (if s[0] == c then [] else [s[0]]) + RemoveChar(s[1..], c)
  }

  /** Removing drops every `c`, and only those. */
  lemma {:induction false} RemoveCharSpec(s: string, c: char)
    ensures c !in RemoveChar(s, c)
    ensures |RemoveChar(s, c)| == |s| - multiset(s)[c]
    ensures forall x :: x != c ==> multiset(RemoveChar(s, c))[x] == multiset(s)[x]
    ensures c !in s ==> RemoveChar(s, c) == s
    decreases |s|
  {
    if s != [] {
      RemoveCharSpec(s[1..], c);
      assert s == [s[0]] + s[1..];
    }
  }

  /** The query part of the output file name. */
  function SafeQuery(query: string): string
  {
    var s := RemoveChar(ReplaceChar(ReplaceChar(query, ' ', '_'), '/', '_'), '\'');
    if |s| <= MaxSafeQueryLength then s else s[..MaxSafeQueryLength]
  }

  /** The file-name part has at most 50 characters and no space, slash or
      quote. */
  lemma SafeQueryClean(query: string)
    ensures var r := SafeQuery(query);
            |r| <= MaxSafeQueryLength && ' ' !in r && '/' !in r && '\'' !in r
  {
    var s2 := ReplaceChar(ReplaceChar(query, ' ', '_'), '/', '_');
    var s := RemoveChar(s2, '\'');
    RemoveCharSpec(s2, '\'');
    assert ' ' !in s2 by {
      forall i | 0 <= i < |s2| ensures s2[i] != ' ' { }
    }
    assert '/' !in s2 by {
      forall i | 0 <= i < |s2| ensures s2[i] != '/' { }
    }
    assert multiset(s)[' '] == 0 && multiset(s)['/'] == 0;
    var r := SafeQuery(query);
    assert r == s[..|r|];
    assert forall x :: x in r ==> x in s;
  }

  /** Only the quotes are dropped before the cut to 50 characters. */
  lemma SafeQueryLength(query: string)
    ensures |SafeQuery(query)| == if |query| - multiset(query)['\''] <= MaxSafeQueryLength
                                 then |query| - multiset(query)['\''] else MaxSafeQueryLength
  {
    var s2 := ReplaceChar(ReplaceChar(query, ' ', '_'), '/', '_');
    RemoveCharSpec(s2, '\'');
    QuotesKept(query);
  }

  /** Replacing spaces and slashes leaves the quotes where they are. */
  lemma QuotesKept(query: string)
    ensures multiset(ReplaceChar(ReplaceChar(query, ' ', '_'), '/', '_'))['\''] == multiset(query)['\'']
  {
    ReplaceKeeps(query, ' ', '_', '\'');
    ReplaceKeeps(ReplaceChar(query, ' ', '_'), '/', '_', '\'');
  }

  lemma {:induction false} ReplaceKeeps(s: string, a: char, b: char, x: char)
    requires x != a && x != b
    ensures multiset(ReplaceChar(s, a, b))[x] == multiset(s)[x]
    decreases |s|
  {
    if s != [] {
      var r := ReplaceChar(s, a, b);
      ReplaceKeeps(s[1..], a, b, x);
      assert r == [r[0]] + ReplaceChar(s[1..], a, b);
      assert s == [s[0]] + s[1..];
    }
  }

  /** Spaces and slashes become underscores: after the quotes are dropped,
      every kept character is the query's own, with ' ' and '/' turned into
      '_'. */
  lemma SafeQueryReplaces(query: string)
    ensures var s := RemoveChar(query, '\'');
            var r := SafeQuery(query);
            && |r| <= |s|
            && forall i :: 0 <= i < |r| ==> r[i] == (if s[i] == ' ' || s[i] == '/' then '_' else s[i])
  {
    var s1 := ReplaceChar(query, ' ', '_');
    RemoveReplaceCommute(query, ' ', '_', '\'');
    RemoveReplaceCommute(s1, '/', '_', '\'');
  }

  /** Removing a third character commutes with replacing one by another. */
  lemma {:induction false} RemoveReplaceCommute(s: string, a: char, b: char, c: char)
    requires c != a && c != b
    ensures RemoveChar(ReplaceChar(s, a, b), c) == ReplaceChar(RemoveChar(s, c), a, b)
    decreases |s|
  {
    if s != [] {
      RemoveReplaceCommute(s[1..], a, b, c);
      var r := ReplaceChar(s, a, b);
      assert r[1..] == ReplaceChar(s[1..], a, b);
      var t := if s[0] == c then [] else [s[0]];
      assert ReplaceChar(t + RemoveChar(s[1..], c), a, b) == ReplaceChar(t, a, b) + ReplaceChar(RemoveChar(s[1..], c), a, b);
    }
  }

  /** A query that is already a safe name of at most 50 characters is kept. */
  lemma SafeQueryKeepsSafe(query: string)
    requires |query| <= MaxSafeQueryLength
    requires ' ' !in query && '/' !in query && '\'' !in query
    ensures SafeQuery(query) == query
  {
    assert ReplaceChar(query, ' ', '_') == query;
    assert ReplaceChar(query, '/', '_') == query;
    RemoveCharSpec(query, '\'');
  }

  /** Sanitising twice is sanitising once. */
  lemma SafeQueryIdempotent(query: string)
    ensures SafeQuery(SafeQuery(query)) == SafeQuery(query)
  {
    SafeQueryClean(query);
    SafeQueryKeepsSafe(SafeQuery(query));
  }

  // ---------------------------------------------------------------------------
  // References for the claims analysis

  /** The reference built from a fetched article. */
  function PreparedReference(article: Object): Object
  {
    map[
      "title" := Get(article, "title", Str("Untitled")),
      "text" := Get(article, "text", Str("")),
      "date" := Get(article, "publish_date", Null),
      "url" := Get(article, "url", Null)
    ]
  }

  method PrepareReferences(articles: seq<Object>) returns (references: seq<Object>)
    ensures |references| == |articles|
    ensures forall i :: 0 <= i < |articles| ==> references[i] == PreparedReference(articles[i])
  {
    references := [];
    for i := 0 to |articles|
      invariant |references| == i
      invariant forall k :: 0 <= k < i ==> references[k] == PreparedReference(articles[k])
    {
      var ref := articles[i];
      references := references + [PreparedReference(ref)];
    }
  }

  function PreparedReferences(articles: seq<Object>): seq<Object>
  {
    seq(|articles|, i requires 0 <= i < |articles| => PreparedReference(articles[i]))
  }

  /** Once packaged by the streaming analysis, the i-th reference is `R(i+1)`
      with the article's title ("Untitled" when it has none), its
      `publish_date` as the date (null when missing, never "Unknown", since
      the prepared reference always has a date), and its url. */
  lemma PreparedReferencesPackaged(articles: seq<Object>)
    ensures var packaged := GeminiClient.PackageReferences(PreparedReferences(articles), GeminiClient.Streaming);
            && |packaged| == |articles|
            && forall i :: 0 <= i < |articles| ==>
                 && packaged[i].refId == GeminiClient.RefId(i + 1)
                 && packaged[i].title == Get(articles[i], "title", Str("Untitled"))
                 && packaged[i].date == Get(articles[i], "publish_date", Null)
                 && packaged[i].url == Get(articles[i], "url", Null)
                 && packaged[i].text == Get(articles[i], "text", Str(""))
  {
  }

  // ---------------------------------------------------------------------------
  // /api/search-and-fetch-stream

  /** One server-sent event of the stream. `TypeFault` is the error event
      that carries the text of a Python `TypeError` or `AttributeError`. */
  datatype StreamEvent =
    | Status(message: string)
    | Warning(message: string)
    | Error(message: string)
    | Progress(current: nat, total: nat, message: string)
    | FetchSummary(originalQuery: Value, googleSearchQuery: Value, usedReputableSources: Value,
                   searchResultsCount: nat, urlsExtracted: nat, articlesFetched: nat, articlesFailed: nat)
    | Analysis(event: GeminiClient.Event)
    | TypeFault
    | Complete

  /** What the stream depends on besides the request: the website list as
      read from its file, the search actor, the article fetcher, and the
      model's replies to the chunk prompts and to the summary prompt. */
  datatype Services = Services(
    sources: Result<seq<string>, string>,
    call: Object -> ApifyClient.RunOutcome,
    listItems: string -> ApifyClient.ListOutcome,
    fetch: Value -> Object,
    respond: nat -> GeminiClient.Reply,
    parse: string -> Option<seq<Object>>,
    summary: Option<string>)

  /** The parameters of the search. */
  function SearchInput(query: Value, maxResults: Value): Object
  {
    map["queries" := query, "resultsPerPage" := maxResults, "maxPagesPerQuery" := Int(1)]
  }

  function Wrapped(events: seq<GeminiClient.Event>): seq<StreamEvent>
  {
    seq(|events|, i requires 0 <= i < |events| => Analysis(events[i]))
  }

  /** The events of the streaming claims analysis of a target article that
      is an object with a text, against the fetched articles. */
  function AnalysisOf(target: Value, fetched: seq<Object>, s: Services): seq<GeminiClient.Event>
    requires target.Obj? && Get(target.fields, "text", Str("")).Str?
  {
    GeminiClient.AnalysisEvents(Get(target.fields, "title", Str("Untitled")), Get(target.fields, "text", Str("")).s,
                                PreparedReferences(fetched), Get(target.fields, "date", Str("Unknown")),
                                s.respond, s.parse, s.summary)
  }

  /** The analysis always sends at least its opening event. */
  lemma AnalysisOfNonEmpty(target: Value, fetched: seq<Object>, s: Services)
    requires target.Obj? && Get(target.fields, "text", Str("")).Str?
    ensures AnalysisOf(target, fetched, s) != []
    ensures AnalysisOf(target, fetched, s)[0].AnalysisStart?
  {
  }

  /** The claims-analysis step: it runs only for a target article and at
      least one fetched reference; otherwise a warning is sent. Every path
      ends the stream with `complete`, unless the target article is not an
      object or its text is not a string, which raises. */
  function ClaimsPhase(target: Value, fetched: seq<Object>, s: Services): seq<StreamEvent>
  {
    if Truthy(target) && |fetched| >= 1 then
      [Status("Starting claims analysis...")] +
      if !target.Obj? || !Get(target.fields, "text", Str("")).Str? then [TypeFault]
      else Wrapped(AnalysisOf(target, fetched, s)) + [Status("Analysis complete"), Complete]
    else if !Truthy(target) then [Warning("No target article provided"), Complete]
    else [Warning("Need at least 1 reference article, got " + Decimal(|fetched|)), Complete]
  }

  /** The URLs taken from the search results, at most `maxArticlesToFetch`
      from each result. */
  function UrlsOf(data: Object, results: seq<Object>): seq<Value>
  {
    ExtractedUrls(results, SliceBound(Get(data, "maxArticlesToFetch", Int(10))))
  }

  /** The search run with the request's `maxResults`. */
  function Search(data: Object, s: Services, query: Value): Result<seq<Object>, string>
  {
    ApifyClient.RunActorSync(Some(SearchInput(query, Get(data, "maxResults", Int(10)))), s.call, s.listItems)
  }

  /** The query the search is run with. */
  function QueryOf(data: Object, s: Services): Value
  {
    BuildQuery(Get(data, "query", Str(DefaultQuery)), Truthy(Get(data, "useReputableSources", Bool(true))), s.sources).0
  }

  /** Everything after a non-empty search: URL extraction, fetching, the
      summary of the fetch, and the claims analysis. */
  function AfterSearch(data: Object, s: Services, base: Value, query: Value, results: seq<Object>): seq<StreamEvent>
  {
    var urls := UrlsOf(data, results);
    if urls == [] then [Error("No URLs found in search results")]
    else
      var records := Records(urls, s.fetch);
      FetchReport(data, base, query, |results|, urls, records)
      + ClaimsPhase(Get(data, "targetArticle", Null), Successes(records), s)
  }

  /** The events of the fetch: the URL count, one progress event per URL, the
      number fetched, and the summary of the search and the fetch. */
  function FetchReport(data: Object, base: Value, query: Value, resultCount: nat, urls: seq<Value>, records: seq<Object>)
    : seq<StreamEvent>
  {
    [Status("Extracted " + Decimal(|urls|) + " URLs"), Status("Fetching article contents...")]
    + ProgressEvents(|urls|, |urls|)
    + [Status("Successfully fetched " + Decimal(|Successes(records)|) + " articles"),
       FetchSummary(base, query, Get(data, "useReputableSources", Bool(true)),
                    resultCount, |urls|, |Successes(records)|, |Failures(records)|)]
  }

  /** The fetch sends no `complete`. */
  lemma FetchReportOpen(data: Object, base: Value, query: Value, resultCount: nat, urls: seq<Value>, records: seq<Object>)
    ensures var report := FetchReport(data, base, query, resultCount, urls, records);
            forall i :: 0 <= i < |report| ==> !report[i].Complete?
  {
  }

  /** The search and everything after it: the error of a failed or empty
      search, or the events that follow the results. */
  function SearchPhase(data: Object, s: Services, base: Value, query: Value): seq<StreamEvent>
  {
    match Search(data, s, query)
    case Failure(e) => [Error(e)]
    case Success(results) =>
      if results == [] then [Error("No search results found")]
      else [Status("Found " + Decimal(|results|) + " search results")] + AfterSearch(data, s, base, query, results)
  }

  /** Every event the stream sends, in order. */
  function StreamEvents(data: Object, s: Services): seq<StreamEvent>
  {
    var base := Get(data, "query", Str(DefaultQuery));
    var built := BuildQuery(base, Truthy(Get(data, "useReputableSources", Bool(true))), s.sources);
    [Status("Starting search and fetch...")] + built.1 + [Status("Searching for articles...")]
    + SearchPhase(data, s, base, built.0)
  }

  /** `for chunk in gemini_client.analyze_claims_streaming(...)`: every
      event of the analysis is passed on, in order. */
  method ForwardAnalysis(chunks: seq<GeminiClient.Event>) returns (sent: seq<StreamEvent>)
    ensures sent == Wrapped(chunks)
  {
    sent := [];
    for i := 0 to |chunks|
      invariant sent == Wrapped(chunks[..i])
    {
      sent := sent + [Analysis(chunks[i])];
    }
    assert chunks[..|chunks|] == chunks;
  }

  method StreamClaims(target: Value, fetched: seq<Object>, s: Services) returns (events: seq<StreamEvent>)
    ensures events == ClaimsPhase(target, fetched, s)
  {
    if Truthy(target) && |fetched| >= 1 {
      events := [Status("Starting claims analysis...")];
      if !target.Obj? {
        events := events + [TypeFault];
        return;
      }
      var targetTitle := Get(target.fields, "title", Str("Untitled"));
      var targetText := Get(target.fields, "text", Str(""));
      var targetDate := Get(target.fields, "date", Str("Unknown"));
      var references := PrepareReferences(fetched);
      assert references == PreparedReferences(fetched);
      if !targetText.Str? {
        events := events + [TypeFault];
        return;
      }
      var chunks := GeminiClient.AnalyzeClaimsStreaming(targetTitle, targetText.s, references, targetDate,
                                                        s.respond, s.parse, s.summary);
      assert chunks == AnalysisOf(target, fetched, s);
      var sent := ForwardAnalysis(chunks);
      events := events + sent + [Status("Analysis complete"), Complete];
    } else if !Truthy(target) {
      events := [Warning("No target article provided"), Complete];
    } else {
      events := [Warning("Need at least 1 reference article, got " + Decimal(|fetched|)), Complete];
    }
  }

  method StreamAfterSearch(data: Object, s: Services, base: Value, query: Value, results: seq<Object>)
    returns (events: seq<StreamEvent>)
    ensures events == AfterSearch(data, s, base, query, results)
  {
    var maxArticlesToFetch := Get(data, "maxArticlesToFetch", Int(10));
    var urls := ExtractUrls(results, SliceBound(maxArticlesToFetch));
    if urls == [] {
      events := [Error("No URLs found in search results")];
      return;
    }
    events := [Status("Extracted " + Decimal(|urls|) + " URLs"), Status("Fetching article contents...")];
    var progress, fetched, failed := FetchArticles(urls, s.fetch);
    events := events + progress;
    events := events + [Status("Successfully fetched " + Decimal(|fetched|) + " articles")];
    events := events + [FetchSummary(base, query, Get(data, "useReputableSources", Bool(true)),
                                     |results|, |urls|, |fetched|, |failed|)];
    var claims := StreamClaims(Get(data, "targetArticle", Null), fetched, s);
    events := events + claims;
  }

  method StreamSearch(data: Object, s: Services, base: Value, query: Value) returns (events: seq<StreamEvent>)
    ensures events == SearchPhase(data, s, base, query)
  {
    var maxResults := Get(data, "maxResults", Int(10));
    var search := ApifyClient.RunActorSync(Some(SearchInput(query, maxResults)), s.call, s.listItems);
    if search.Failure? {
      return [Error(search.error)];
    }
    var apifyResults := search.value;
    if apifyResults == [] {
      return [Error("No search results found")];
    }
    events := [Status("Found " + Decimal(|apifyResults|) + " search results")];
    var rest := StreamAfterSearch(data, s, base, query, apifyResults);
    events := events + rest;
  }

  /** The generator of `/api/search-and-fetch-stream`. */
  method SearchAndFetchStream(data: Object, s: Services) returns (events: seq<StreamEvent>)
    ensures events == StreamEvents(data, s)
  {
    events := [Status("Starting search and fetch...")];
    var base := Get(data, "query", Str(DefaultQuery));
    var useReputableSources := Get(data, "useReputableSources", Bool(true));
    var built := BuildQuery(base, Truthy(useReputableSources), s.sources);
    events := events + built.1 + [Status("Searching for articles...")];
    var rest := StreamSearch(data, s, base, built.0);
    events := events + rest;
  }

  /** Whether the claims analysis gets to send its events. */
  predicate AnalysisRuns(target: Value, fetched: seq<Object>)
  {
    Truthy(target) && |fetched| >= 1 && target.Obj? && Get(target.fields, "text", Str("")).Str?
  }

  /** The claims analysis sends events exactly when there is a target
      article, at least one fetched reference, and the target is an object
      with a text. */
  lemma ClaimsPhaseRuns(target: Value, fetched: seq<Object>, s: Services)
    ensures var events := ClaimsPhase(target, fetched, s);
            (exists i :: 0 <= i < |events| && events[i].Analysis?) <==> AnalysisRuns(target, fetched)
  {
    var events := ClaimsPhase(target, fetched, s);
    if AnalysisRuns(target, fetched) {
      AnalysisOfNonEmpty(target, fetched, s);
      assert events[1] == Analysis(AnalysisOf(target, fetched, s)[0]);
    }
  }

  /** Without a target article, or without a fetched reference, the step is
      a warning followed by `complete`. */
  lemma ClaimsPhaseWarnings(target: Value, fetched: seq<Object>, s: Services)
    ensures !Truthy(target) ==> ClaimsPhase(target, fetched, s) == [Warning("No target article provided"), Complete]
    ensures Truthy(target) && fetched == [] ==>
              ClaimsPhase(target, fetched, s) == [Warning("Need at least 1 reference article, got 0"), Complete]
  {
    if Truthy(target) && fetched == [] {
      assert DigitChar(0) == '0';
      assert Decimal(|fetched|) == "0";
      assert "Need at least 1 reference article, got " + Decimal(|fetched|) == "Need at least 1 reference article, got 0";
    }
  }

  /** A list of events that the stream closes: its last event is `complete`
      or an error, and `complete` comes nowhere before the end. */
  predicate Closed(events: seq<StreamEvent>)
  {
    && events != []
    && (events[|events| - 1].Complete? || events[|events| - 1].Error? || events[|events| - 1].TypeFault?)
    && forall i :: 0 <= i < |events| - 1 ==> !events[i].Complete?
  }

  lemma ClosedAfter(head: seq<StreamEvent>, tail: seq<StreamEvent>)
    requires forall i :: 0 <= i < |head| ==> !head[i].Complete?
    requires Closed(tail)
    ensures Closed(head + tail)
    ensures (head + tail)[|head + tail| - 1] == tail[|tail| - 1]
  {
    var all := head + tail;
    forall i | 0 <= i < |all| - 1
      ensures !all[i].Complete?
    {
      if i >= |head| {
        assert all[i] == tail[i - |head|];
      }
    }
  }

  /** The step closes the stream: with `complete`, except when the target
      article cannot be read, which ends it with an error. */
  lemma ClaimsPhaseEnds(target: Value, fetched: seq<Object>, s: Services)
    ensures var events := ClaimsPhase(target, fetched, s);
            && Closed(events)
            && (events[|events| - 1] == Complete <==>
                  !(Truthy(target) && |fetched| >= 1) || AnalysisRuns(target, fetched))
            && (events[|events| - 1] != Complete ==> events[|events| - 1] == TypeFault)
  {
    if AnalysisRuns(target, fetched) {
      var wrapped := Wrapped(AnalysisOf(target, fetched, s));
      assert forall i :: 0 <= i < |wrapped| ==> !wrapped[i].Complete?;
      ClosedAfter([Status("Starting claims analysis...")] + wrapped + [Status("Analysis complete")], [Complete]);
      assert ClaimsPhase(target, fetched, s)
          == [Status("Starting claims analysis...")] + wrapped + [Status("Analysis complete")] + [Complete];
    }
  }

  function LastEvent(events: seq<StreamEvent>): StreamEvent
    requires events != []
  {
    events[|events| - 1]
  }

  /** The claims step ends with `complete`: it is skipped with a warning, or
      the analysis runs. */
  predicate ClaimsComplete(target: Value, fetched: seq<Object>)
  {
    !(Truthy(target) && |fetched| >= 1) || AnalysisRuns(target, fetched)
  }

  /** After the search, the stream is closed. With no URL extracted it is
      exactly the error `No URLs found in search results`; otherwise it ends
      as the claims step does: with `complete` when that step completes, and
      with the type error when the target article cannot be read. */
  lemma AfterSearchEnds(data: Object, s: Services, base: Value, query: Value, results: seq<Object>)
    ensures Closed(AfterSearch(data, s, base, query, results))
    ensures UrlsOf(data, results) == [] ==>
              AfterSearch(data, s, base, query, results) == [Error("No URLs found in search results")]
    ensures var urls := UrlsOf(data, results);
            var events := AfterSearch(data, s, base, query, results);
            && (LastEvent(events) == Complete <==>
                  urls != [] && ClaimsComplete(Get(data, "targetArticle", Null), Successes(Records(urls, s.fetch))))
            && (urls != [] && LastEvent(events) != Complete ==> LastEvent(events) == TypeFault)
  {
    var urls := UrlsOf(data, results);
    if urls != [] {
      var records := Records(urls, s.fetch);
      var fetched := Successes(records);
      var claims := ClaimsPhase(Get(data, "targetArticle", Null), fetched, s);
      ClaimsPhaseEnds(Get(data, "targetArticle", Null), fetched, s);
      FetchReportOpen(data, base, query, |results|, urls, records);
      ClosedAfter(FetchReport(data, base, query, |results|, urls, records), claims);
    }
  }

  /** A failed search is exactly its error, a search without results
      exactly the error `No search results found`. */
  lemma SearchPhaseErrors(data: Object, s: Services, base: Value, query: Value)
    ensures var search := Search(data, s, query);
            var events := SearchPhase(data, s, base, query);
            && (search.Failure? ==> events == [Error(search.error)])
            && (search.Success? && search.value == [] ==> events == [Error("No search results found")])
  {
  }

  /** The search closes the stream; after a search with results the stream
      ends as the steps after the search do. */
  lemma SearchPhaseEnds(data: Object, s: Services, base: Value, query: Value)
    ensures Closed(SearchPhase(data, s, base, query))
    ensures var search := Search(data, s, query);
            search.Success? && search.value != [] ==>
              LastEvent(SearchPhase(data, s, base, query)) == LastEvent(AfterSearch(data, s, base, query, search.value))
  {
    var search := Search(data, s, query);
    if search.Success? && search.value != [] {
      var results := search.value;
      var head := [Status("Found " + Decimal(|results|) + " search results")];
      AfterSearchEnds(data, s, base, query, results);
      ClosedAfter(head, AfterSearch(data, s, base, query, results));
    }
  }

  /** The stream opens with its status event, is closed, and ends as the
      search step does. */
  lemma StreamShape(data: Object, s: Services)
    ensures var events := StreamEvents(data, s);
            && events[0] == Status("Starting search and fetch...")
            && Closed(events)
            && LastEvent(events) == LastEvent(SearchPhase(data, s, Get(data, "query", Str(DefaultQuery)), QueryOf(data, s)))
  {
    var base := Get(data, "query", Str(DefaultQuery));
    var built := BuildQuery(base, Truthy(Get(data, "useReputableSources", Bool(true))), s.sources);
    var head := [Status("Starting search and fetch...")] + built.1 + [Status("Searching for articles...")];
    assert forall i :: 0 <= i < |head| ==> !head[i].Complete?;
    SearchPhaseEnds(data, s, base, built.0);
    ClosedAfter(head, SearchPhase(data, s, base, built.0));
  }

  /** The stream ends with `complete` exactly when the search succeeded with
      results, some URL was extracted from them, and the claims step
      completes; every other stream ends with an error event. */
  lemma StreamCompletes(data: Object, s: Services)
    ensures var search := Search(data, s, QueryOf(data, s));
            var events := StreamEvents(data, s);
            LastEvent(events) == Complete <==>
              && search.Success? && search.value != []
              && UrlsOf(data, search.value) != []
              && ClaimsComplete(Get(data, "targetArticle", Null), Successes(Records(UrlsOf(data, search.value), s.fetch)))
  {
    var base := Get(data, "query", Str(DefaultQuery));
    var query := QueryOf(data, s);
    var search := Search(data, s, query);
    StreamShape(data, s);
    SearchPhaseErrors(data, s, base, query);
    SearchPhaseEnds(data, s, base, query);
    if search.Success? && search.value != [] {
      AfterSearchEnds(data, s, base, query, search.value);
    }
  }

  /** A failed search, a search without results and a search whose results
      hold no URL each end the stream with their own error. */
  lemma StreamReportsSearchError(data: Object, s: Services)
    ensures var search := Search(data, s, QueryOf(data, s));
            var events := StreamEvents(data, s);
            && (search.Failure? ==> LastEvent(events) == Error(search.error))
            && (search.Success? && search.value == [] ==> LastEvent(events) == Error("No search results found"))
            && (search.Success? && search.value != [] && UrlsOf(data, search.value) == [] ==>
                  LastEvent(events) == Error("No URLs found in search results"))
  {
    var base := Get(data, "query", Str(DefaultQuery));
    var query := QueryOf(data, s);
    var search := Search(data, s, query);
    StreamShape(data, s);
    SearchPhaseErrors(data, s, base, query);
    SearchPhaseEnds(data, s, base, query);
    if search.Success? && search.value != [] {
      AfterSearchEnds(data, s, base, query, search.value);
    }
  }

  // ---------------------------------------------------------------------------
  // /api/analyze-bias

  /** What the bias-analysis search hands back to the route: a list of items,
      or the coroutine of an `async` run that nobody awaited. */
  datatype Returned = ItemList(items: seq<Object>) | Coroutine(pending: ApifyClient.Pending)

  /** Python's `len()`: a coroutine has none, and asking raises TypeError. */
  function Length(r: Returned): (n: Option<nat>)
    ensures n.Some? <==> r.ItemList?
    ensures n.Some? ==> n.value == |r.items|
  {
    match r
    case ItemList(items) => Some(|items|)
    case Coroutine(_) => None
  }

  const BiasFailureMessage := "Failed to fetch articles for bias analysis"

  function BiasResponse(topic: Value, articles: Returned): Response
  {
    match Length(articles)
    case None => InternalError(BiasFailureMessage)
    case Some(n) =>
      Response(200, map[
        "success" := Bool(true),
        "topic" := topic,
        "count" := Int(n),
        "data" := Arr(Objs(articles.items)),
        "message" := Str("Articles retrieved for bias analysis")
      ])
  }

  /** `/api/analyze-bias` as written: the search returns an un-awaited
      coroutine, whose `len()` raises. */
  function AnalyzeBiasRouteAsWritten(data: Object): Response
  {
    if "topic" !in data then BadRequest("Topic parameter is required")
    else BiasResponse(data["topic"], Coroutine(ApifyClient.GetNewsForBiasAnalysis(data["topic"], Get(data, "maxResults", Int(50)))))
  }

  /** As written, every request that names a topic fails with status 500. */
  lemma AnalyzeBiasAlwaysFails(data: Object)
    requires "topic" in data
    ensures AnalyzeBiasRouteAsWritten(data) == InternalError(BiasFailureMessage)
  {
  }

  /** `/api/analyze-bias` with the search awaited. */
  function AnalyzeBiasRoute(data: Object, call: Object -> ApifyClient.RunOutcome,
                            listItems: string -> ApifyClient.ListOutcome): Response
  {
    if "topic" !in data then BadRequest("Topic parameter is required")
    else
      match ApifyClient.GetNewsForBiasAnalysisAwaited(data["topic"], Get(data, "maxResults", Int(50)), call, listItems)
      case Failure(_) => InternalError(BiasFailureMessage)
      case Success(items) => BiasResponse(data["topic"], ItemList(items))
  }

  /** With the search awaited, a request naming a topic is served exactly
      when the actor run and the dataset listing succeed, and the response
      counts and carries the dataset's items. */
  lemma AnalyzeBiasRouteServes(data: Object, call: Object -> ApifyClient.RunOutcome,
                               listItems: string -> ApifyClient.ListOutcome)
    requires "topic" in data
    ensures var run := call(ApifyClient.MergeInput(ApifyClient.BiasAnalysisParams(data["topic"], Get(data, "maxResults", Int(50)))));
            var r := AnalyzeBiasRoute(data, call, listItems);
            && (r.status == 200 <==> run.Finished? && listItems(run.defaultDatasetId).Listed?)
            && (r.status != 200 ==> r == InternalError(BiasFailureMessage))
            && (r.status == 200 ==>
                  var items := listItems(run.defaultDatasetId).items;
                  "count" in r.body && r.body["count"] == Int(|items|) && r.body["data"] == Arr(Objs(items)))
  {
  }
}
