/**
  The scrolling headline strip: which headlines it keeps from a global-news
  body, the doubled feed that makes the scroll seamless, and the fallbacks for
  each item's label and link.
 */
module NewsTicker {
  import opened JsValues
  import Server

  /** A headline as the strip reads it; both Polygon's and other providers' field names are tried. */
  datatype Headline = Headline(title: Option<string>, headline: Option<string>, article_url: Option<string>, url: Option<string>)

  /**
    A decoded global-news body: an object with a `results` list, a bare list, or
    any other object (the proxy's `{ error }`, a provider error without results).
   */
  datatype Payload = WithResults(results: seq<Headline>) | BareList(items: seq<Headline>) | OtherObject

  /** The `headlines` state: normally a list, but the else-branch can store a non-list object. */
  datatype Headlines = List(items: seq<Headline>) | NotAList

  const MaxHeadlines := 10

  function Min(a: int, b: int): int
  {
    if a < b then a else b
  }

  /**
    The headlines one fetch keeps: the first ten of `results` when present,
    otherwise the body itself, uncapped.
   */
  function Select(data: Payload): (h: Headlines)
    ensures data.WithResults? ==>
      && h.List?
      && |h.items| == Min(MaxHeadlines, |data.results|)
      && h.items == data.results[..|h.items|]
    ensures data.BareList? ==> h == List(data.items)
    ensures data.OtherObject? ==> h == NotAList
  {
    match data
    case WithResults(results) => List(results[..Min(MaxHeadlines, |results|)])
    case BareList(items) => List(items)
    case OtherObject => NotAList
  }

  /** `response.json()` reads the body whatever the status: a failed route's `{ error }` is just another object. */
  function BodyOf(reply: Server.Reply<Payload>): (data: Payload)
    ensures reply.Ok? ==> data == reply.body
    ensures reply.Fail? ==> data == OtherObject
  {
    match reply
    case Ok(body) => body
    case Fail(_, _) => OtherObject
  }

  /** One poll of `fetchNews`: `None` is a fetch that threw, which leaves the headlines as they were. */
  function Poll(current: Headlines, body: Option<Payload>): (next: Headlines)
    ensures body.None? ==> next == current
    ensures body.Some? ==> next == Select(body.value)
  {
    match body
    case None => current
    case Some(data) => Select(data)
  }

  /** `h.title || h.headline || "Untitled"`. */
  function Label(h: Headline): (text: string)
    ensures text != ""
    ensures TruthyString(h.title) ==> text == h.title.value
    ensures !TruthyString(h.title) && TruthyString(h.headline) ==> text == h.headline.value
    ensures !TruthyString(h.title) && !TruthyString(h.headline) ==> text == "Untitled"
  {
    OrElse(h.title, OrElse(h.headline, "Untitled"))
  }

  /** `h.article_url || h.url || "#"`. */
  function Link(h: Headline): (target: string)
    ensures target != ""
    ensures TruthyString(h.article_url) ==> target == h.article_url.value
    ensures !TruthyString(h.article_url) && TruthyString(h.url) ==> target == h.url.value
    ensures !TruthyString(h.article_url) && !TruthyString(h.url) ==> target == "#"
  {
    OrElse(h.article_url, OrElse(h.url, "#"))
  }

  /** `[...headlines, ...headlines]`: the list followed by itself. */
  function Feed<T>(xs: seq<T>): (f: seq<T>)
    ensures |f| == 2 * |xs|
    ensures forall i :: 0 <= i < |xs| ==> f[i] == xs[i] && f[i + |xs|] == xs[i]
  {
    xs + xs
  }

  /** One scrolling item: its label and the link it opens. */
  datatype Item = Item(text: string, link: string)

  /** The strip: the loading line, or the scrolling items. */
  datatype View = Loading | Scrolling(items: seq<Item>)

  function ItemOf(h: Headline): Item
  {
    Item(Label(h), Link(h))
  }

  /**
    With no headline (or a non-list) only the loading line shows; otherwise the
    doubled feed scrolls, its second half repeating the first.
   */
  function Render(headlines: Headlines): (v: View)
    ensures v.Loading? <==> headlines.NotAList? || headlines.items == []
    ensures v.Scrolling? ==>
      var n := |headlines.items|;
      && |v.items| == 2 * n
      && forall i :: 0 <= i < n ==>
           v.items[i] == ItemOf(headlines.items[i]) && v.items[i + n] == v.items[i]
  {
    if headlines.NotAList? || headlines.items == [] then Loading
    else
      var feed := Feed(headlines.items);
      Scrolling(seq(|feed|, i requires 0 <= i < |feed| => ItemOf(feed[i])))
  }

  /**
    Once the provider is unreachable the proxy answers `{ error }`, which has no
    `results`, so it becomes the headlines and the strip falls back to the
    loading line, even when headlines were showing before.
   */
  lemma UnreachableProviderBlanksStrip(current: Headlines)
    ensures Render(Poll(current, Some(BodyOf(Server.GlobalNewsRoute<Payload>(Server.Unreachable))))) == Loading
  {
  }

  /**
    A provider HTTP error (an error object without `results`, a 401 or a 429
    say) is not caught by the proxy: it is forwarded with status 200, becomes
    the headlines, and the strip falls back to the loading line.
   */
  lemma ProviderErrorPassesThroughAndBlanksStrip(current: Headlines)
    ensures Server.GlobalNewsRoute<Payload>(Server.Delivered(OtherObject)) == Server.Ok(OtherObject)
    ensures Render(Poll(current, Some(BodyOf(Server.GlobalNewsRoute<Payload>(Server.Delivered(OtherObject)))))) == Loading
  {
  }

  /** A Polygon body shows at most ten distinct headlines, each twice. */
  lemma PolygonFeedIsCapped(current: Headlines, results: seq<Headline>)
    ensures var v := Render(Poll(current, Some(BodyOf(Server.GlobalNewsRoute(Server.Delivered(WithResults(results)))))));
      v.Scrolling? ==> |v.items| <= 2 * MaxHeadlines
    ensures var v := Render(Poll(current, Some(BodyOf(Server.GlobalNewsRoute(Server.Delivered(WithResults(results)))))));
      v.Loading? <==> results == []
  {
  }
}
