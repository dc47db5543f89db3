/**
  The backend proxy's request handlers with the HTTP plumbing taken away.
  Each handler is a pure mapping from the provider's answer to the reply the
  route sends: a success body, or an error status with an `error` message.
  A provider is a function from the upper-cased ticker to what the outbound
  call delivered, so that the symbol the handler asks for is part of the model.
 */
module Server {
  import opened JsValues

  /**
    What one outbound call yields: a body, or an error the handler catches.
    Which failures throw depends on the client each route uses:
    - the price and single-ticker news routes use axios, which throws on a
      transport error or a non-2xx status; a 2xx body that is not JSON is still
      delivered, as a string: read as a quote it has no fields (so the price
      route answers 404), read as news it has no `results` (so the news route
      answers `{ article: null }`);
    - the global news route uses `fetch`, which throws only on a transport error
      or when the body is not JSON; a provider's HTTP error status is delivered
      like any other body, and the route forwards it with status 200.
   */
  datatype Upstream<T> = Delivered(payload: T) | Unreachable

  /** What a route sends: `res.json(body)` with status 200, or `res.status(code).json({ error })`. */
  datatype Reply<T> = Ok(body: T) | Fail(status: int, error: string)

  const NotFoundStatus := 404
  const ServerErrorStatus := 500
  const TickerNotFound := "Ticker not found"
  const PriceFailed := "Failed to fetch price"
  const NewsFailed := "Failed to fetch news"
  const GlobalNewsFailed := "Failed to fetch global market news"
  const DefaultSource := "Polygon"

  // ---------------------------------------------------------------------
  // GET /api/price/:ticker (Finnhub quote)
  // ---------------------------------------------------------------------

  /** A Finnhub quote: current (`c`), open, high, low and previous close, any of them possibly missing. */
  datatype FinnhubQuote = FinnhubQuote(c: Option<real>, o: Option<real>, h: Option<real>, l: Option<real>, pc: Option<real>)

  /** The price route's success body (the timestamp is left out). */
  datatype PriceBody = PriceBody(
    ticker: string,
    close: real,
    open: Option<real>,
    high: Option<real>,
    low: Option<real>,
    previousClose: Option<real>)

  /** A quote the route accepts: a body is present and its close is truthy. */
  predicate UsableQuote(data: Option<FinnhubQuote>)
  {
    data.Some? && TruthyNumber(data.value.c)
  }

  /**
    The price handler. `finnhub` answers for one symbol: `Delivered(None)` is a
    `null` body. The handler asks for the upper-cased ticker and echoes it back.
   */
  function PriceRoute(param: string, finnhub: string -> Upstream<Option<FinnhubQuote>>): (r: Reply<PriceBody>)
    ensures var answer := finnhub(ToUpperCase(param));
      && (r.Ok? <==> answer.Delivered? && UsableQuote(answer.payload))
      && (r.Ok? ==>
            var q := answer.payload.value;
            && r.body.ticker == ToUpperCase(param)
            && r.body.close == q.c.value && r.body.close != 0.0
            && r.body.open == q.o && r.body.high == q.h && r.body.low == q.l
            && r.body.previousClose == q.pc)
      && (answer.Unreachable? ==> r == Fail(ServerErrorStatus, PriceFailed))
      && (answer.Delivered? && !UsableQuote(answer.payload) ==> r == Fail(NotFoundStatus, TickerNotFound))
  {
    var ticker := ToUpperCase(param);
    match finnhub(ticker)
    case Unreachable => Fail(ServerErrorStatus, PriceFailed)
    case Delivered(data) =>
      if data.None? || !TruthyNumber(data.value.c) then Fail(NotFoundStatus, TickerNotFound)
      else
        var q := data.value;
        Ok(PriceBody(ticker, q.c.value, q.o, q.h, q.l, q.pc))
  }

  /** The route treats `aapl`, `Aapl` and `AAPL` alike: the reply depends only on the upper-cased ticker. */
  lemma {:induction false} PriceRouteIgnoresCase(param: string, finnhub: string -> Upstream<Option<FinnhubQuote>>)
    ensures PriceRoute(ToUpperCase(param), finnhub) == PriceRoute(param, finnhub)
  {
    UpperCaseIdempotent(param);
  }

  // ---------------------------------------------------------------------
  // GET /api/news/:ticker (Polygon reference news, newest article)
  // ---------------------------------------------------------------------

  datatype Publisher = Publisher(name: Option<string>)

  /** One Polygon news result, with the fields the handler reads. */
  datatype PolygonArticle = PolygonArticle(
    title: Option<string>,
    article_url: Option<string>,
    publisher: Option<Publisher>,
    published_utc: Option<string>)

  /** A Polygon news body; `results` may be missing. */
  datatype PolygonNews = PolygonNews(results: Option<seq<PolygonArticle>>)

  /** The article shape the news route answers with. */
  datatype Article = Article(title: Option<string>, url: Option<string>, source: string, published: Option<string>)

  /** The news route's success body: `{ article }`, where `article` may be `null`. */
  datatype NewsBody = NewsBody(article: Option<Article>)

  /** `publisher?.name || "Polygon"`. */
  function SourceOf(p: Option<Publisher>): (s: string)
    ensures s != ""
    ensures p.Some? && TruthyString(p.value.name) ==> s == p.value.name.value
    ensures !(p.Some? && TruthyString(p.value.name)) ==> s == DefaultSource
  {
    if p.Some? then OrElse(p.value.name, DefaultSource) else DefaultSource
  }

  /** The renaming from Polygon's fields to the route's article. */
  function Reshape(a: PolygonArticle): (r: Article)
    ensures r.title == a.title && r.url == a.article_url && r.published == a.published_utc
    ensures r.source == SourceOf(a.publisher) && r.source != ""
  {
    Article(a.title, a.article_url, SourceOf(a.publisher), a.published_utc)
  }

  /** True when the body carries at least one result. */
  predicate HasFirstResult(data: PolygonNews)
  {
    data.results.Some? && |data.results.value| > 0
  }

  /**
    The single-ticker news handler. `Delivered(None)` is a `null` body: reading
    `.results` from it throws, which the handler's catch turns into a 500.
   */
  function NewsRoute(param: string, polygon: string -> Upstream<Option<PolygonNews>>): (r: Reply<NewsBody>)
    ensures var answer := polygon(ToUpperCase(param));
      && (r.Fail? <==> answer.Unreachable? || answer.payload.None?)
      && (r.Fail? ==> r == Fail(ServerErrorStatus, NewsFailed))
      && (r.Ok? ==>
            var data := answer.payload.value;
            && (r.body.article.None? <==> !HasFirstResult(data))
            && (HasFirstResult(data) ==> r.body.article == Some(Reshape(data.results.value[0]))))
  {
    match polygon(ToUpperCase(param))
    case Unreachable => Fail(ServerErrorStatus, NewsFailed)
    case Delivered(data) =>
      if data.None? then Fail(ServerErrorStatus, NewsFailed)
      else if !HasFirstResult(data.value) then Ok(NewsBody(None))
      else Ok(NewsBody(Some(Reshape(data.value.results.value[0]))))
  }

  /** A ticker without news is a success carrying a `null` article, never an error. */
  lemma NoNewsIsNotAnError(param: string, polygon: string -> Upstream<Option<PolygonNews>>)
    requires polygon(ToUpperCase(param)) == Delivered(Some(PolygonNews(None)))
             || polygon(ToUpperCase(param)) == Delivered(Some(PolygonNews(Some([]))))
    ensures NewsRoute(param, polygon) == Ok(NewsBody(None))
  {
  }

  // ---------------------------------------------------------------------
  // GET /api/global-news (Polygon passthrough)
  // ---------------------------------------------------------------------

  /** The global news handler forwards whatever the provider decoded to, untouched. */
  function GlobalNewsRoute<T>(answer: Upstream<T>): (r: Reply<T>)
    ensures r.Ok? <==> answer.Delivered?
    ensures r.Ok? ==> r.body == answer.payload
    ensures r.Fail? ==> r == Fail(ServerErrorStatus, GlobalNewsFailed)
  {
    match answer
    case Delivered(data) => Ok(data)
    case Unreachable => Fail(ServerErrorStatus, GlobalNewsFailed)
  }

  /** On every modelled route, a call that throws yields status 500 with a non-empty `error`. */
  lemma UnreachableMeans500(
    param: string,
    finnhub: string -> Upstream<Option<FinnhubQuote>>,
    polygon: string -> Upstream<Option<PolygonNews>>)
    ensures finnhub(ToUpperCase(param)).Unreachable? ==>
      var p := PriceRoute(param, finnhub); p.Fail? && p.status == 500 && p.error != ""
    ensures polygon(ToUpperCase(param)).Unreachable? ==>
      var n := NewsRoute(param, polygon); n.Fail? && n.status == 500 && n.error != ""
    ensures var g := GlobalNewsRoute<PolygonNews>(Unreachable); g.Fail? && g.status == 500 && g.error != ""
  {
  }
}
