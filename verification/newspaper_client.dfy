/** The article client: URL checks, the record `fetch_article` returns, the
    loop over several URLs, the record reshaped for bias analysis, and the
    accessibility check of a URL. The third-party pieces are inputs: the URL
    parser gives a (scheme, netloc) pair or fails, the article library gives a
    parsed article or an error message, the HEAD request gives a status and a
    content type or an error message. */
module NewspaperClient {
  import opened Wrappers
  import opened Json
  import opened Text

  /** The result of urlparse: a scheme and a network location, or an exception. */
  datatype UrlParse = ParseError | Parsed(scheme: string, netloc: string)

  /** `_is_valid_url`: a scheme and a netloc are both present; a parser
      exception means invalid. */
  function IsValidUrl(p: UrlParse): (ok: bool)
    ensures ok <==> p.Parsed? && p.scheme != "" && p.netloc != ""
  {
    match p
    case ParseError => false
    case Parsed(scheme, netloc) => scheme != "" && netloc != ""
  }

  /** `_extract_domain`: the netloc, or "unknown" when the parser fails. */
  function ExtractDomain(p: UrlParse): (domain: string)
    ensures p.Parsed? ==> domain == p.netloc
    ensures p.ParseError? ==> domain == "unknown"
  {
    match p
    case ParseError => "unknown"
    case Parsed(_, netloc) => netloc
  }

  /** The language the client is configured with when none is given. */
  const DefaultLanguage := "en"

  /** What the article library extracts from a page. */
  datatype Article = Article(
    title: string, text: string, summary: Value, keywords: Value, authors: Value,
    publishDate: Option<string>, topImage: Value, images: Value, movies: Value,
    metaDescription: Value, metaKeywords: Value, tags: Value, sourceUrl: Value,
    canonicalLink: Value, metaLang: string)

  /** Download, parse and NLP of one URL: an exception message or the article. */
  datatype Download = DownloadFailed(error: string) | Downloaded(article: Article)

  /** `len(text.split()) if text else 0` */
  function WordCount(text: string): (n: nat)
    ensures n == |Words(text)|
    ensures n == 0 <==> AllSpace(text)
  {
    WordsEmptyIffAllSpace(text);
    if text != "" then |Words(text)| else 0
  }

  /** Counting the words of words joined by spaces gives their number. */
  lemma WordCountJoin(ws: seq<string>)
    requires forall i :: 0 <= i < |ws| ==> IsWord(ws[i])
    ensures WordCount(Join(" ", ws)) == |ws|
  {
    WordsJoin(ws);
  }

  /** The record returned when fetching fails for any reason. */
  function ErrorRecord(url: string, error: string, fetchedAt: string): Object
  {
    map["url" := Str(url), "error" := Str(error), "success" := Bool(false), "fetched_at" := Str(fetchedAt)]
  }

  /** The record of a fetched article. (A map has no order; the keys that
      the rest of the program reads are listed last.) */
  function ArticleRecord(url: string, a: Article, fetchedAt: string, language: string): Object
  {
    map[
      "top_image" := a.topImage,
      "images" := a.images,
      "movies" := a.movies,
      "meta_keywords" := a.metaKeywords,
      "tags" := a.tags,
      "source_url" := a.sourceUrl,
      "canonical_link" := a.canonicalLink,
      "summary" := a.summary,
      "keywords" := a.keywords,
      "authors" := a.authors,
      "meta_description" := a.metaDescription,
      "word_count" := Int(WordCount(a.text)),
      "language" := Str(if a.metaLang != "" then a.metaLang else language),
      "fetched_at" := Str(fetchedAt),
      "publish_date" := (match a.publishDate case Some(d) => Str(d) case None => Null),
      "title" := Str(a.title),
      "text" := Str(a.text),
      "url" := Str(url),
      "success" := Bool(true)]
  }

  predicate Succeeded(record: Object)
  {
    Truthy(Get(record, "success", Bool(false)))
  }

  /** `fetch_article`, with `language` the client's configured language and
      `fetchedAt` the current time. It never raises: a malformed URL or a
      library failure gives an error record. */
  function FetchArticle(url: string, parseUrl: string -> UrlParse, download: string -> Download,
                        fetchedAt: string, language: string): (r: Object)
    ensures "url" in r && r["url"] == Str(url)
    ensures Succeeded(r) <==> IsValidUrl(parseUrl(url)) && download(url).Downloaded?
  {
    if !IsValidUrl(parseUrl(url)) then ErrorRecord(url, "Invalid URL: " + url, fetchedAt)
    else
      match download(url)
      case DownloadFailed(error) => ErrorRecord(url, error, fetchedAt)
      case Downloaded(a) => ArticleRecord(url, a, fetchedAt, language)
  }

  /** A failed fetch yields the four-field error record: `Invalid URL: <url>`
      for a malformed URL, otherwise the library's message. */
  lemma FetchArticleFailure(url: string, parseUrl: string -> UrlParse, download: string -> Download,
                            fetchedAt: string, language: string)
    requires !Succeeded(FetchArticle(url, parseUrl, download, fetchedAt, language))
    ensures var r := FetchArticle(url, parseUrl, download, fetchedAt, language);
            && r.Keys == {"url", "error", "success", "fetched_at"}
            && r["success"] == Bool(false)
            && r["fetched_at"] == Str(fetchedAt)
            && r["error"] == Str(if !IsValidUrl(parseUrl(url)) then "Invalid URL: " + url else download(url).error)
  {
  }

  /** A successful fetch records the article's text, its word count, the
      page's language or else the configured one, and the time. */
  lemma FetchArticleSuccess(url: string, parseUrl: string -> UrlParse, download: string -> Download,
                            fetchedAt: string, language: string)
    requires Succeeded(FetchArticle(url, parseUrl, download, fetchedAt, language))
    ensures var r := FetchArticle(url, parseUrl, download, fetchedAt, language);
            var a := download(url).article;
            && r["success"] == Bool(true)
            && r["text"] == Str(a.text)
            && r["word_count"] == Int(|Words(a.text)|)
            && r["language"] == Str(if a.metaLang != "" then a.metaLang else language)
            && r["fetched_at"] == Str(fetchedAt)
            && HasArticleFields(r)
  {
  }

  /** A malformed URL is rejected before the library is asked for anything. */
  lemma MalformedUrlNotDownloaded(url: string, parseUrl: string -> UrlParse, d1: string -> Download,
                                  d2: string -> Download, fetchedAt: string, language: string)
    requires !IsValidUrl(parseUrl(url))
    ensures FetchArticle(url, parseUrl, d1, fetchedAt, language) == FetchArticle(url, parseUrl, d2, fetchedAt, language)
  {
  }

  /** The records of the batch; `now(i)` is the clock reading taken by the
      i-th fetch. */
  function FetchAll(urls: seq<string>, parseUrl: string -> UrlParse, download: string -> Download,
                    now: nat -> string, language: string): seq<Object>
  {
    seq(|urls|, i requires 0 <= i < |urls| => FetchArticle(urls[i], parseUrl, download, now(i), language))
  }

  /** `fetch_multiple_articles`: one record per URL, in the order of the URLs,
      each stamped with the time of its own fetch. */
  method FetchMultipleArticles(urls: seq<string>, parseUrl: string -> UrlParse, download: string -> Download,
                               now: nat -> string, language: string)
    returns (articles: seq<Object>)
    ensures |articles| == |urls|
    ensures forall i :: 0 <= i < |urls| ==> articles[i] == FetchArticle(urls[i], parseUrl, download, now(i), language)
    ensures articles == FetchAll(urls, parseUrl, download, now, language)
  {
    articles := [];
    for i := 0 to |urls|
      invariant |articles| == i
      invariant forall j :: 0 <= j < i ==> articles[j] == FetchArticle(urls[j], parseUrl, download, now(j), language)
    {
      var record := FetchArticle(urls[i], parseUrl, download, now(i), language);
      articles := articles + [record];
    }
  }

  /** The fields the reshaping reads from a successful record. */
  predicate HasArticleFields(r: Object)
  {
    && "url" in r && "title" in r && "text" in r && "summary" in r && "keywords" in r && "authors" in r
    && "publish_date" in r && "word_count" in r && "meta_description" in r && "language" in r
    && "fetched_at" in r
  }

  /** `r[key]` on a record that has the key (FetchArticleSuccess shows a
      successful record has every key read here). */
  function Field(r: Object, key: string): Value
  {
    Get(r, key, Null)
  }

  function UrlText(v: Value): string
  {
    if v.Str? then v.s else ""
  }

  function BiasRecord(r: Object, parseUrl: string -> UrlParse): Object
  {
    map[
      "summary" := Field(r, "summary"),
      "keywords" := Field(r, "keywords"),
      "authors" := Field(r, "authors"),
      "publish_date" := Field(r, "publish_date"),
      "word_count" := Field(r, "word_count"),
      "meta_description" := Field(r, "meta_description"),
      "language" := Field(r, "language"),
      "fetched_at" := Field(r, "fetched_at"),
      "title" := Field(r, "title"),
      "url" := Field(r, "url"),
      "content" := Field(r, "text"),
      "source" := Str(ExtractDomain(parseUrl(UrlText(Field(r, "url"))))),
      "analysis_ready" := Bool(true)]
  }

  /** `get_article_for_bias_analysis` */
  function GetArticleForBiasAnalysis(url: string, parseUrl: string -> UrlParse, download: string -> Download,
                                     fetchedAt: string, language: string): Object
  {
    var record := FetchArticle(url, parseUrl, download, fetchedAt, language);
    if !Succeeded(record) then record
    else BiasRecord(record, parseUrl)
  }

  /** A failed fetch is passed through unchanged. */
  lemma BiasAnalysisPassesFailure(url: string, parseUrl: string -> UrlParse, download: string -> Download,
                                  fetchedAt: string, language: string)
    requires !Succeeded(FetchArticle(url, parseUrl, download, fetchedAt, language))
    ensures GetArticleForBiasAnalysis(url, parseUrl, download, fetchedAt, language) ==
            FetchArticle(url, parseUrl, download, fetchedAt, language)
  {
  }

  /** A successful fetch is marked ready for analysis, its text becomes the
      content, and its source is the URL's network location. */
  lemma BiasAnalysisRecord(url: string, parseUrl: string -> UrlParse, download: string -> Download,
                           fetchedAt: string, language: string)
    requires Succeeded(FetchArticle(url, parseUrl, download, fetchedAt, language))
    ensures var r := GetArticleForBiasAnalysis(url, parseUrl, download, fetchedAt, language);
            && r["analysis_ready"] == Bool(true)
            && r["url"] == Str(url)
            && r["content"] == Str(download(url).article.text)
            && r["source"] == Str(parseUrl(url).netloc)
            && "success" !in r
  {
    FetchArticleSuccess(url, parseUrl, download, fetchedAt, language);
  }

  /** The HEAD request: an exception message, or the status code and the
      content-type header when present. */
  datatype HeadOutcome = HeadFailed(error: string) | HeadResponse(statusCode: nat, contentType: Option<string>)

  datatype Validation = Invalid(error: string, url: string) | Valid(url: string, statusCode: nat, contentType: string)

  /** `validate_url` */
  function ValidateUrl(url: string, parseUrl: string -> UrlParse, head: string -> HeadOutcome): Validation
  {
    if !IsValidUrl(parseUrl(url)) then Invalid("Invalid URL format", url)
    else
      match head(url)
      case HeadFailed(error) => Invalid(error, url)
      case HeadResponse(code, header) =>
        if code != 200 then Invalid("HTTP " + Decimal(code), url)
        else
          var contentType := AsciiLower(match header case Some(h) => h case None => "");
          if !Contains(contentType, "text/html") then Invalid("Invalid content type: " + contentType, url)
          else Valid(url, code, contentType)
  }

  /** A URL is valid exactly when it parses with a scheme and a netloc, the
      HEAD request answers 200, and the lower-cased content type mentions
      text/html; the checks run in that order, and the first that fails names
      the error. A valid result carries the lower-cased content type. */
  lemma ValidateUrlOrder(url: string, parseUrl: string -> UrlParse, head: string -> HeadOutcome)
    ensures var v := ValidateUrl(url, parseUrl, head);
            && v.url == url
            && (!IsValidUrl(parseUrl(url)) ==> v == Invalid("Invalid URL format", url))
            && (IsValidUrl(parseUrl(url)) && head(url).HeadFailed? ==> v == Invalid(head(url).error, url))
            && (IsValidUrl(parseUrl(url)) && head(url).HeadResponse? && head(url).statusCode != 200 ==>
                  v == Invalid("HTTP " + Decimal(head(url).statusCode), url))
            && (v.Valid? <==>
                  IsValidUrl(parseUrl(url)) && head(url).HeadResponse? && head(url).statusCode == 200 &&
                  head(url).contentType.Some? && Contains(AsciiLower(head(url).contentType.value), "text/html"))
            && (v.Valid? ==> v.statusCode == 200 && Contains(v.contentType, "text/html"))
            && (IsValidUrl(parseUrl(url)) && head(url).HeadResponse? && head(url).statusCode == 200 ==>
                  var ct := AsciiLower(match head(url).contentType case Some(h) => h case None => "");
                  && (!Contains(ct, "text/html") ==> v == Invalid("Invalid content type: " + ct, url))
                  && (Contains(ct, "text/html") ==> v == Valid(url, 200, ct)))
  {
    var v := ValidateUrl(url, parseUrl, head);
    if IsValidUrl(parseUrl(url)) && head(url).HeadResponse? && head(url).statusCode == 200 && head(url).contentType.None? {
      assert !Contains(AsciiLower(""), "text/html") by {
        forall k: nat | k <= 0 ensures !OccursAt(AsciiLower(""), "text/html", k) {
        }
      }
    }
  }

  /** A malformed URL is rejected without any request: the answer does not
      depend on the network. */
  lemma MalformedUrlNotRequested(url: string, parseUrl: string -> UrlParse, h1: string -> HeadOutcome, h2: string -> HeadOutcome)
    requires !IsValidUrl(parseUrl(url))
    ensures ValidateUrl(url, parseUrl, h1) == ValidateUrl(url, parseUrl, h2) == Invalid("Invalid URL format", url)
  {
  }
}
