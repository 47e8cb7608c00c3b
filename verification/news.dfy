/** The append-news function: fetch headlines from NewsAPI, reshape each article into a body
    line with a link, and post the lists to the write-to-entry endpoint. The HTTP GET is a
    parameter `get` from request URL to response; the API key and the "from" date are inputs. */
module News {
  import opened Wrappers
  import opened Blocks
  import QueryString
  import WriteToEntry

  /** The fields of a NewsAPI article the function reads. */
  datatype Article = Article(title: string, url: string)

  /** The arguments of `fetchArticles`. A query is sent only when it is a non-empty string. */
  datatype FetchParams = FetchParams(
    query: Option<string>,
    endpoint: string,
    language: string,
    sortBy: string,
    pageSize: string,
    from: string)

  /** What the GET returns: a status with its text and the decoded articles, or a failure to
      reach the server at all. */
  datatype HttpResponse =
    | Received(status: int, statusText: string, articles: seq<Article>)
    | TransportFailure(message: string)

  datatype FetchError = FetchError(message: string)

  const NewsApiBase: string := "https://newsapi.org/v2/"
  const StatusFailurePrefix: string := "Error: Failed to fetch articles: "

  /** JavaScript truthiness of the query: null and "" are false. */
  predicate HasQuery(query: Option<string>) {
    query.Some? && query.value != ""
  }

  /** `fetchArticles(query)` with every other argument left at its default. */
  function DefaultFetch(query: Option<string>, from: string): FetchParams {
    FetchParams(query, "everything", "en", "popularity", "5", from)
  }

  // ---------------------------------------------------------------------------
  // Article reshaping

  /** The body line for one article: its title, linked to its url. */
  function ArticleLine(a: Article): Line {
    Rich(a.title, Some(Link("url", a.url)))
  }

  /** `transformArticlesToNotionStructure`: one line per article, in order. */
  function TransformArticles(articles: seq<Article>): (r: seq<Line>)
    ensures |r| == |articles|
    ensures forall i :: 0 <= i < |articles| ==> r[i] == ArticleLine(articles[i])
  {
    if |articles| == 0 then [] else [ArticleLine(articles[0])] + TransformArticles(articles[1..])
  }

  /** The article a line links to, if it is a titled url link. */
  function LineArticle(line: Line): Option<Article> {
    match line
    case Rich(title, Some(Link("url", url))) => Some(Article(title, url))
    case _ => None
  }

  function LinesArticles(lines: seq<Line>): Option<seq<Article>> {
    if |lines| == 0 then Some([])
    else
      match (LineArticle(lines[0]), LinesArticles(lines[1..]))
      case (Some(a), Some(rest)) => Some([a] + rest)
      case _ => None
  }

  /** Round trip: the lines carry every article's title and url, in order, and nothing else. */
  lemma {:induction false} TransformThenRead(articles: seq<Article>)
    ensures LinesArticles(TransformArticles(articles)) == Some(articles)
  {
    if |articles| > 0 {
      var lines := TransformArticles(articles);
      assert lines[1..] == TransformArticles(articles[1..]);
      TransformThenRead(articles[1..]);
      assert [articles[0]] + articles[1..] == articles;
    }
  }

  /** Reshaping distributes over concatenation: the lines of a merged list are the lines of its
      parts, in the same order. */
  lemma TransformConcat(a: seq<Article>, b: seq<Article>)
    ensures TransformArticles(a + b) == TransformArticles(a) + TransformArticles(b)
  {
  }

  // ---------------------------------------------------------------------------
  // The request URL

  /** The request URL, written as the template literal writes it: the optional query part,
      then the parameters every request carries. */
  function RequestUrl(p: FetchParams, apiKey: string): (r: string)
    ensures var prefix := NewsApiBase + p.endpoint + "?";
            && |prefix| <= |r|
            && r[..|prefix|] == prefix
            && (HasQuery(p.query) ==>
                  var q := "q=" + p.query.value + "&";
                  |prefix| + |q| + 5 <= |r| && r[|prefix|..|prefix| + |q|] == q
                  && r[|prefix| + |q|..|prefix| + |q| + 5] == "from=")
            && (!HasQuery(p.query) ==> |prefix| + 5 <= |r| && r[|prefix|..|prefix| + 5] == "from=")
  {
    var prefix := NewsApiBase + p.endpoint + "?";
    var fixed := FixedPart(p, apiKey);
    assert fixed[..5] == "from=";
    prefix + QueryPart(p.query) + fixed
  }

  function QueryPart(query: Option<string>): string {
    if HasQuery(query) then "q=" + query.value + "&" else ""
  }

  function FixedPart(p: FetchParams, apiKey: string): string {
    "from=" + p.from
    + ("&pageSize=" + p.pageSize
    + ("&sortBy=" + p.sortBy
    + ("&language=" + p.language
    + ("&apiKey=" + apiKey))))
  }

  function FixedParams(p: FetchParams, apiKey: string): seq<QueryString.Param> {
    [QueryString.Param("from", p.from),
     QueryString.Param("pageSize", p.pageSize),
     QueryString.Param("sortBy", p.sortBy),
     QueryString.Param("language", p.language),
     QueryString.Param("apiKey", apiKey)]
  }

  /** The parameters the URL is meant to carry, in order. */
  function RequestParams(p: FetchParams, apiKey: string): seq<QueryString.Param> {
    (if HasQuery(p.query) then [QueryString.Param("q", p.query.value)] else []) + FixedParams(p, apiKey)
  }

  /** Prepending `&key=value` to a written query string. */
  lemma WriteStep(key: string, value: string, rest: seq<QueryString.Param>, restText: string)
    requires |rest| > 0 && QueryString.Write(rest) == restText
    ensures QueryString.Write([QueryString.Param(key, value)] + rest) == key + "=" + value + "&" + restText
  {
  }

  /** The separators of the template literal, split into '&', key and '='. */
  lemma Separators()
    ensures "&pageSize=" == "&" + "pageSize" + "="
    ensures "&sortBy=" == "&" + "sortBy" + "="
    ensures "&language=" == "&" + "language" + "="
    ensures "&apiKey=" == "&" + "apiKey" + "="
  {
  }

  /** `&key=value` in front of a written rest. */
  lemma Glue(sep: string, key: string, value: string, rest: string)
    requires sep == "&" + key + "="
    ensures sep + value + ("&" + rest) == "&" + (key + "=" + value + "&" + rest)
  {
  }

  lemma GlueLast(sep: string, key: string, value: string)
    requires sep == "&" + key + "="
    ensures sep + value == "&" + (key + "=" + value)
  {
  }

  lemma FixedPartWritten(p: FetchParams, apiKey: string)
    ensures QueryString.Write(FixedParams(p, apiKey)) == FixedPart(p, apiKey)
  {
    var ps := FixedParams(p, apiKey);
    Separators();
    var t4 := "apiKey" + "=" + apiKey;
    QueryString.WriteOne(ps[4]);
    GlueLast("&apiKey=", "apiKey", apiKey);
    var t3 := "language=" + p.language + "&" + t4;
    WriteStep("language", p.language, ps[4..], t4);
    assert ps[3..] == [ps[3]] + ps[4..];
    Glue("&language=", "language", p.language, t4);
    var t2 := "sortBy=" + p.sortBy + "&" + t3;
    WriteStep("sortBy", p.sortBy, ps[3..], t3);
    assert ps[2..] == [ps[2]] + ps[3..];
    Glue("&sortBy=", "sortBy", p.sortBy, t3);
    var t1 := "pageSize=" + p.pageSize + "&" + t2;
    WriteStep("pageSize", p.pageSize, ps[2..], t2);
    assert ps[1..] == [ps[1]] + ps[2..];
    Glue("&pageSize=", "pageSize", p.pageSize, t2);
    WriteStep("from", p.from, ps[1..], t1);
    assert ps == [ps[0]] + ps[1..];
  }

  /** The URL is the endpoint's address, a '?', then the query string of those parameters. */
  lemma RequestUrlShape(p: FetchParams, apiKey: string)
    ensures RequestUrl(p, apiKey) == NewsApiBase + p.endpoint + "?" + QueryString.Write(RequestParams(p, apiKey))
  {
    FixedPartWritten(p, apiKey);
    if HasQuery(p.query) {
      WriteStep("q", p.query.value, FixedParams(p, apiKey), FixedPart(p, apiKey));
    } else {
      assert RequestParams(p, apiKey) == FixedParams(p, apiKey);
    }
  }

  /** A value that reads back unchanged from an unescaped query string: it holds no '&'
      (which would split it), no '#' (which would end the query), and no '%' or '+' (which a
      server decodes). */
  predicate UrlSafe(s: string) {
    '&' !in s && '#' !in s && '%' !in s && '+' !in s
  }

  lemma FixedParamsPlain(p: FetchParams, apiKey: string)
    requires UrlSafe(p.from) && UrlSafe(p.pageSize) && UrlSafe(p.sortBy) && UrlSafe(p.language) && UrlSafe(apiKey)
    ensures forall i :: 0 <= i < 5 ==> QueryString.Plain(FixedParams(p, apiKey)[i])
  {
  }

  /** The parameters themselves: `q` first exactly when the query is truthy, then the five
      fixed ones; every key is a plain word. */
  lemma RequestParamsFacts(p: FetchParams, apiKey: string)
    requires p.query.Some? ==> UrlSafe(p.query.value)
    requires UrlSafe(p.from) && UrlSafe(p.pageSize) && UrlSafe(p.sortBy) && UrlSafe(p.language) && UrlSafe(apiKey)
    ensures var ps := RequestParams(p, apiKey);
            && |ps| == (if HasQuery(p.query) then 6 else 5)
            && (forall i :: 0 <= i < |ps| ==> QueryString.Plain(ps[i]))
            && ((exists i :: 0 <= i < |ps| && ps[i].key == "q") <==> HasQuery(p.query))
            && (HasQuery(p.query) ==> ps[0] == QueryString.Param("q", p.query.value))
            && ps[|ps| - 5..] == FixedParams(p, apiKey)
  {
    var ps := RequestParams(p, apiKey);
    var fixed := FixedParams(p, apiKey);
    assert forall i :: 0 <= i < |fixed| ==> fixed[i].key != "q";
    FixedParamsPlain(p, apiKey);
    if HasQuery(p.query) {
      assert ps == [ps[0]] + fixed;
    } else {
      assert ps == fixed;
    }
  }

  /** The URL splits after its '?' into the query string of the request's parameters. */
  lemma RequestUrlSplit(p: FetchParams, apiKey: string)
    ensures var prefix := NewsApiBase + p.endpoint + "?";
            var url := RequestUrl(p, apiKey);
            && url[..|prefix|] == prefix
            && url[|prefix|..] == QueryString.Write(RequestParams(p, apiKey))
  {
    RequestUrlShape(p, apiKey);
  }

  /** What the server reads from the URL, for values that need no escaping: `q` is present, and first, exactly when the query is
      truthy; `from`, `pageSize`, `sortBy`, `language` and `apiKey` always follow, in that order,
      with the values given. */
  lemma RequestUrlParameters(p: FetchParams, apiKey: string)
    requires p.query.Some? ==> UrlSafe(p.query.value)
    requires UrlSafe(p.from) && UrlSafe(p.pageSize) && UrlSafe(p.sortBy) && UrlSafe(p.language) && UrlSafe(apiKey)
    ensures var prefix := NewsApiBase + p.endpoint + "?";
            var url := RequestUrl(p, apiKey);
            && url[..|prefix|] == prefix
            && var ps := QueryString.Read(url[|prefix|..]);
               && |ps| == (if HasQuery(p.query) then 6 else 5)
               && ((exists i :: 0 <= i < |ps| && ps[i].key == "q") <==> HasQuery(p.query))
               && (HasQuery(p.query) ==> ps[0] == QueryString.Param("q", p.query.value))
               && ps[|ps| - 5..] == [QueryString.Param("from", p.from),
                                     QueryString.Param("pageSize", p.pageSize),
                                     QueryString.Param("sortBy", p.sortBy),
                                     QueryString.Param("language", p.language),
                                     QueryString.Param("apiKey", apiKey)]
  {
    RequestUrlSplit(p, apiKey);
    RequestParamsFacts(p, apiKey);
    QueryString.ReadWrite(RequestParams(p, apiKey));
  }

  // ---------------------------------------------------------------------------
  // Fetching

  /** The status check: anything but 200 fails with the status text, and a transport failure
      fails too; only a 200 response yields its articles. */
  function CheckResponse(resp: HttpResponse): (r: Result<seq<Article>, FetchError>)
    ensures r.Success? <==> resp.Received? && resp.status == 200
    ensures r.Success? ==> r.value == resp.articles
    ensures resp.Received? && resp.status != 200 ==>
              r == Failure(FetchError(StatusFailurePrefix + resp.statusText))
  {
    match resp
    case Received(status, statusText, articles) =>
      if status != 200 then Failure(FetchError(StatusFailurePrefix + statusText)) else Success(articles)
    case TransportFailure(message) => Failure(FetchError(message))
  }

  /** `fetchArticles`: one GET of the request URL, then the status check. */
  function FetchArticles(get: string -> HttpResponse, p: FetchParams, apiKey: string): (r: Result<seq<Article>, FetchError>)
    ensures var resp := get(RequestUrl(p, apiKey));
            && (r.Success? <==> resp.Received? && resp.status == 200)
            && (r.Success? ==> r.value == resp.articles)
            && (resp.Received? && resp.status != 200 ==>
                  r == Failure(FetchError(StatusFailurePrefix + resp.statusText)))
  {
    CheckResponse(get(RequestUrl(p, apiKey)))
  }

  // ---------------------------------------------------------------------------
  // Posting to write-to-entry

  /** `appendArticles`: the request posted to the write endpoint for one list of lines. */
  function AppendArticles(title: string, kind: string, lines: seq<Line>): (r: WriteToEntry.Params)
    ensures r.contentOrProperty == Some(WriteToEntry.ContentRoute)
    ensures r.divider
    ensures r.title == title && r.kind == kind && r.body == Decoded(lines)
  {
    WriteToEntry.Params(Some("content"), title, kind, Decoded(lines), true, "", "")
  }

  /** What write-to-entry does with an `appendArticles` request: the lines, as blocks of the
      given type closed by the spacer and the divider, are appended to the day's page. */
  method DeliverArticles(title: string, kind: string, lines: seq<Line>, date: string, pageId: string,
                         parse: string -> Option<seq<Line>>)
    returns (r: WriteToEntry.Response)
    ensures r.write == WriteToEntry.AppendChildren(pageId, BuildBlocks(title, kind, lines, true))
    ensures r.reply == WriteToEntry.AppendReply(title, date, pageId)
  {
    r := WriteToEntry.HandleRequest(AppendArticles(title, kind, lines), date, pageId, parse);
  }

  const ListKind: string := "bulleted_list_item"

  function TopQuery(from: string): FetchParams {
    FetchParams(None, "top-headlines", "en", "popularity", "4", from)
  }

  function SportsQuery(from: string): FetchParams {
    FetchParams(Some("sports"), "everything", "en", "popularity", "3", from)
  }

  function TechQuery(from: string): FetchParams {
    FetchParams(Some("technology"), "everything", "en", "popularity", "3", from)
  }

  function CryptoQuery(from: string): FetchParams {
    DefaultFetch(Some("crypto"), from)
  }

  /** `appendNews`: the requests posted, in order. The top, sports and technology lists are
      fetched first, and a failure there ends the run before anything is posted; their
      concatenation is posted as "Top Headlines"; then the crypto list is fetched and, if that
      succeeds, posted as "Crypto Articles". */
  function AppendNews(get: string -> HttpResponse, from: string, apiKey: string): (sent: seq<WriteToEntry.Params>)
    ensures var top := FetchArticles(get, TopQuery(from), apiKey);
            var sports := FetchArticles(get, SportsQuery(from), apiKey);
            var tech := FetchArticles(get, TechQuery(from), apiKey);
            var crypto := FetchArticles(get, CryptoQuery(from), apiKey);
            && (|sent| > 0 <==> top.Success? && sports.Success? && tech.Success?)
            && (|sent| == 2 <==> top.Success? && sports.Success? && tech.Success? && crypto.Success?)
            && |sent| <= 2
            && (forall i :: 0 <= i < |sent| ==>
                  && sent[i].contentOrProperty == Some(WriteToEntry.ContentRoute)
                  && sent[i].kind == ListKind
                  && sent[i].divider)
            && (|sent| > 0 ==>
                  && sent[0].title == "Top Headlines"
                  && sent[0].body.Decoded?
                  && |sent[0].body.lines| == |top.value| + |sports.value| + |tech.value|
                  && LinesArticles(sent[0].body.lines) == Some(top.value + sports.value + tech.value))
            && (|sent| == 2 ==>
                  && sent[1].title == "Crypto Articles"
                  && sent[1].body.Decoded?
                  && LinesArticles(sent[1].body.lines) == Some(crypto.value))
  {
    var top := FetchArticles(get, TopQuery(from), apiKey);
    var sports := FetchArticles(get, SportsQuery(from), apiKey);
    var tech := FetchArticles(get, TechQuery(from), apiKey);
    if top.Failure? || sports.Failure? || tech.Failure? then []
    else
      var headlines := top.value + sports.value + tech.value;
      TransformThenRead(headlines);
      var first := AppendArticles("Top Headlines", ListKind, TransformArticles(headlines));
      match FetchArticles(get, CryptoQuery(from), apiKey)
      case Failure(_) => [first]
      case Success(crypto) =>
        TransformThenRead(crypto);
        [first, AppendArticles("Crypto Articles", ListKind, TransformArticles(crypto))]
  }

  /** The headlines list shows the top articles, then sports, then technology: block i + 1 of
      the appended list is a bulleted item with the i-th article's title linked to its url. */
  lemma HeadlineBlocks(top: seq<Article>, sports: seq<Article>, tech: seq<Article>)
    ensures var all := top + sports + tech;
            var blocks := BuildBlocks("Top Headlines", ListKind, TransformArticles(all), true);
            && |blocks| == |top| + |sports| + |tech| + 3
            && TransformArticles(all) == TransformArticles(top) + TransformArticles(sports) + TransformArticles(tech)
            && forall i :: 0 <= i < |all| ==>
                 blocks[i + 1] == Text(ListKind, RichText(all[i].title, Some(Link("url", all[i].url))), true)
  {
    TransformConcat(top, sports);
    TransformConcat(top + sports, tech);
  }
}
