/**
  The option tracker's store: the ordered list of short-option positions, the
  add form, and the three list transforms (add, delete, refresh), with the
  price and news fetchers reduced to what they return for a given reply.
 */
module OptionTracker {
  import opened JsValues
  import Server

  /** The add form: five free-text fields. */
  datatype Form = Form(ticker: string, strike: string, breakeven: string, exp: string, premium: string)

  /** A stored position: the form's fields plus the last fetched price and article (either may be `null`). */
  datatype Position = Position(
    ticker: string,
    strike: string,
    breakeven: string,
    exp: string,
    premium: string,
    livePrice: Option<real>,
    article: Option<Server.Article>)

  const EmptyForm := Form("", "", "", "", "")

  /** The form fields a text input edits. */
  datatype Field = Ticker | Strike | Breakeven | Exp | Premium

  /** What the client's HTTP library sees for one call: no response at all, or the route's reply. */
  datatype Call<T> = NoResponse | Answered(reply: Server.Reply<T>)

  /** True when the call came back with a 2xx reply; every other outcome makes the library throw. */
  predicate Succeeded<T>(call: Call<T>)
  {
    call.Answered? && call.reply.Ok?
  }

  // ---------------------------------------------------------------------
  // Fetchers: null on any failure
  // ---------------------------------------------------------------------

  /** `fetchLivePrice`: the reply's `close`, or `null` when the call failed for any reason. */
  function FetchLivePrice(call: Call<Server.PriceBody>): (price: Option<real>)
    ensures price.Some? <==> Succeeded(call)
    ensures price.Some? ==> price.value == call.reply.body.close
  {
    if Succeeded(call) then Some(call.reply.body.close) else None
  }

  /** `fetchNews`: the reply's `article` (itself possibly `null`), or `null` when the call failed. */
  function FetchNews(call: Call<Server.NewsBody>): (article: Option<Server.Article>)
    ensures Succeeded(call) ==> article == call.reply.body.article
    ensures !Succeeded(call) ==> article == None
  {
    if Succeeded(call) then call.reply.body.article else None
  }

  /**
    A price that reached a position through the price route is never `0`: a
    zero close is answered with 404, which the fetcher turns into `null`.
   */
  lemma FetchedPriceIsNullOrTruthy(param: string, finnhub: string -> Server.Upstream<Option<Server.FinnhubQuote>>)
    ensures var price := FetchLivePrice(Answered(Server.PriceRoute(param, finnhub)));
      price.None? || TruthyNumber(price)
    ensures var price := FetchLivePrice(Answered(Server.PriceRoute(param, finnhub)));
      var answer := finnhub(ToUpperCase(param));
      price.Some? <==> answer.Delivered? && Server.UsableQuote(answer.payload)
  {
  }

  // ---------------------------------------------------------------------
  // Initial load
  // ---------------------------------------------------------------------

  /**
    The initial list: the saved text parsed, or `[]` when nothing (or `""`) is
    saved or parsing throws. `parse` stands for `JSON.parse`, `None` for a throw.
   */
  function LoadSaved(saved: Option<string>, parse: string -> Option<seq<Position>>): (list: seq<Position>)
    ensures !TruthyString(saved) ==> list == []
    ensures TruthyString(saved) && parse(saved.value).None? ==> list == []
    ensures TruthyString(saved) && parse(saved.value).Some? ==> list == parse(saved.value).value
  {
    if !TruthyString(saved) then []
    else match parse(saved.value)
      case None => []
      case Some(list) => list
  }

  // ---------------------------------------------------------------------
  // Add
  // ---------------------------------------------------------------------

  /** `{ ...form, livePrice, article }`. */
  function NewPosition(form: Form, livePrice: Option<real>, article: Option<Server.Article>): (p: Position)
    ensures KeepsFormFields(p, form)
    ensures p.livePrice == livePrice && p.article == article
  {
    Position(form.ticker, form.strike, form.breakeven, form.exp, form.premium, livePrice, article)
  }

  /** The five user-entered fields of a record, as a form. */
  function EntryOf(p: Position): Form
  {
    Form(p.ticker, p.strike, p.breakeven, p.exp, p.premium)
  }

  /** A record carries the form's five fields. */
  predicate KeepsFormFields(p: Position, form: Form)
  {
    EntryOf(p) == form
  }

  /** The list after `handleAdd` with the two fetch outcomes. */
  function Added(list: seq<Position>, form: Form, priceCall: Call<Server.PriceBody>, newsCall: Call<Server.NewsBody>): (r: seq<Position>)
    ensures form.ticker == "" ==> r == list
    ensures form.ticker != "" ==>
      && |r| == |list| + 1
      && r[..|list|] == list
      && KeepsFormFields(r[|list|], form)
      && r[|list|].livePrice == FetchLivePrice(priceCall)
      && r[|list|].article == FetchNews(newsCall)
  {
    if form.ticker == "" then list
    else list + [NewPosition(form, FetchLivePrice(priceCall), FetchNews(newsCall))]
  }

  /**
    With no network at all a position is still created, from the form's fields
    alone, with a `null` price and a `null` article.
   */
  lemma AddWithoutNetwork(list: seq<Position>, form: Form)
    requires form.ticker != ""
    ensures Added(list, form, NoResponse, NoResponse)
            == list + [Position(form.ticker, form.strike, form.breakeven, form.exp, form.premium, None, None)]
  {
  }

  // ---------------------------------------------------------------------
  // Delete
  // ---------------------------------------------------------------------

  /** `list.filter((_, i) => i !== index)`, written as the filter it is. */
  function Without<T>(s: seq<T>, index: int): (r: seq<T>)
    ensures |r| == if 0 <= index < |s| then |s| - 1 else |s|
    ensures forall x :: x in r ==> x in s
  {
    if s == [] then []
    else Without(s[..|s| - 1], index) + (if |s| - 1 == index then [] else [s[|s| - 1]])
  }

  /**
    Filtering out one index removes exactly that element and keeps the rest in
    order; an index outside the list removes nothing.
   */
  lemma {:induction false} WithoutRemovesOne<T>(s: seq<T>, index: int)
    ensures 0 <= index < |s| ==> Without(s, index) == s[..index] + s[index + 1..]
    ensures !(0 <= index < |s|) ==> Without(s, index) == s
  {
    if s != [] {
      var n := |s| - 1;
      var init, last := s[..n], s[n];
      assert s == init + [last];
      WithoutRemovesOne(init, index);
      assert Without(s, index) == Without(init, index) + (if n == index then [] else [last]);
      if 0 <= index < n {
        assert s[..index] == init[..index];
        assert s[index + 1..] == init[index + 1..] + [last];
      } else if index == n {
        assert s[..index] + s[index + 1..] == init;
      }
    }
  }

  // ---------------------------------------------------------------------
  // Refresh
  // ---------------------------------------------------------------------

  /** `{ ...opt, livePrice, article }`: only the two enrichment fields are overwritten. */
  function Enriched(p: Position, priceCall: Call<Server.PriceBody>, newsCall: Call<Server.NewsBody>): (q: Position)
    ensures SameEntry(q, p)
    ensures q.livePrice == FetchLivePrice(priceCall) && q.article == FetchNews(newsCall)
  {
    p.(livePrice := FetchLivePrice(priceCall), article := FetchNews(newsCall))
  }

  /** Two records agree on the five user-entered fields. */
  predicate SameEntry(a: Position, b: Position)
  {
    KeepsFormFields(a, EntryOf(b))
  }

  /**
    `options.map(...)` with the i-th position's two fetch outcomes: same length
    and order, each record keeps its form fields, and takes exactly the new
    price and article.
   */
  function Refreshed(list: seq<Position>, priceCalls: seq<Call<Server.PriceBody>>, newsCalls: seq<Call<Server.NewsBody>>): (r: seq<Position>)
    requires |priceCalls| == |list| && |newsCalls| == |list|
    ensures |r| == |list|
    ensures forall i :: 0 <= i < |list| ==>
      && SameEntry(r[i], list[i])
      && r[i].livePrice == FetchLivePrice(priceCalls[i])
      && r[i].article == FetchNews(newsCalls[i])
  {
    if list == [] then []
    else [Enriched(list[0], priceCalls[0], newsCalls[0])] + Refreshed(list[1..], priceCalls[1..], newsCalls[1..])
  }

  /** Refresh overwrites rather than accumulates: a second refresh with the same replies changes nothing. */
  lemma RefreshIsIdempotent(list: seq<Position>, priceCalls: seq<Call<Server.PriceBody>>, newsCalls: seq<Call<Server.NewsBody>>)
    requires |priceCalls| == |list| && |newsCalls| == |list|
    ensures Refreshed(Refreshed(list, priceCalls, newsCalls), priceCalls, newsCalls) == Refreshed(list, priceCalls, newsCalls)
  {
  }

  /** The result of refreshing does not depend on the prices and articles held before. */
  lemma RefreshForgetsOldEnrichment(a: seq<Position>, b: seq<Position>, priceCalls: seq<Call<Server.PriceBody>>, newsCalls: seq<Call<Server.NewsBody>>)
    requires |a| == |b| && |priceCalls| == |a| && |newsCalls| == |a|
    requires forall i :: 0 <= i < |a| ==> SameEntry(a[i], b[i])
    ensures Refreshed(a, priceCalls, newsCalls) == Refreshed(b, priceCalls, newsCalls)
  {
  }

  // ---------------------------------------------------------------------
  // Handlers that interleave across their awaits
  // ---------------------------------------------------------------------

  /**
    Two saves whose fetches overlap both read the same, still filled form, and
    each appends through the `prev => [...prev, newOption]` updater: the
    record is stored twice.
   */
  lemma DoubleSaveAppendsTwice(list: seq<Position>, form: Form, priceCall: Call<Server.PriceBody>, newsCall: Call<Server.NewsBody>)
    requires form.ticker != ""
    ensures var twice := Added(Added(list, form, priceCall, newsCall), form, priceCall, newsCall);
      && |twice| == |list| + 2
      && twice[..|list|] == list
      && twice[|list|] == twice[|list| + 1]
      && KeepsFormFields(twice[|list| + 1], form)
  {
  }

  /**
    A refresh writes back the list it read before its fetches, not an updater:
    a position deleted while the fetches were pending comes back, and the list
    regains the length the delete took away.
   */
  lemma StaleRefreshRestoresDeleted(list: seq<Position>, index: int, priceCalls: seq<Call<Server.PriceBody>>, newsCalls: seq<Call<Server.NewsBody>>)
    requires 0 <= index < |list|
    requires |priceCalls| == |list| && |newsCalls| == |list|
    ensures var after := Refreshed(list, priceCalls, newsCalls);
      && |after| == |Without(list, index)| + 1
      && SameEntry(after[index], list[index])
  {
  }

  // ---------------------------------------------------------------------
  // The component's state
  // ---------------------------------------------------------------------

  /** The form after one text input changes; the ticker input upper-cases what is typed. */
  function Edited(form: Form, field: Field, text: string): (r: Form)
    ensures field == Ticker ==> r == form.(ticker := ToUpperCase(text)) && IsUpperCase(r.ticker)
    ensures field != Ticker ==> r.ticker == form.ticker
    ensures field == Strike ==> r == form.(strike := text)
    ensures field == Breakeven ==> r == form.(breakeven := text)
    ensures field == Exp ==> r == form.(exp := text)
    ensures field == Premium ==> r == form.(premium := text)
  {
    UpperCaseIsNormal(text);
    match field
    case Ticker => form.(ticker := ToUpperCase(text))
    case Strike => form.(strike := text)
    case Breakeven => form.(breakeven := text)
    case Exp => form.(exp := text)
    case Premium => form.(premium := text)
  }

  /** The tracker component: its position list, its add form and whether the form is shown. */
  class PositionStore {
    var options: seq<Position>
    var form: Form
    var showForm: bool

    /** First render: the saved list (or `[]`), an empty form, the form hidden. */
    constructor(saved: Option<string>, parse: string -> Option<seq<Position>>)
      ensures options == LoadSaved(saved, parse)
      ensures form == EmptyForm && !showForm
    {
      options := LoadSaved(saved, parse);
      form := EmptyForm;
      showForm := false;
    }

    /** The "Add New Option" button shows or hides the form. */
    method ToggleForm()
      modifies this`showForm
      ensures showForm == !old(showForm)
    {
      showForm := !showForm;
    }

    /** One keystroke in a form input. */
    method Edit(field: Field, text: string)
      modifies this`form
      ensures form == Edited(old(form), field, text)
    {
      form := Edited(form, field, text);
    }

    /**
      `handleAdd` up to its `await`: the form it read, or `None` when the
      ticker is empty and the handler returns at once.
     */
    method BeginAdd() returns (captured: Option<Form>)
      ensures captured.None? <==> form.ticker == ""
      ensures captured.Some? ==> captured.value == form
    {
      captured := if form.ticker == "" then None else Some(form);
    }

    /**
      `handleAdd` after its `await`, with the form read before it: one record is
      appended to the list as it is NOW (the update is a `prev => ...` updater),
      then the form is cleared and hidden.
     */
    method FinishAdd(captured: Option<Form>, priceCall: Call<Server.PriceBody>, newsCall: Call<Server.NewsBody>)
      modifies this`options, this`form, this`showForm
      ensures captured.None? ==> options == old(options) && form == old(form) && showForm == old(showForm)
      ensures captured.Some? ==>
        && options == old(options) + [NewPosition(captured.value, FetchLivePrice(priceCall), FetchNews(newsCall))]
        && form == EmptyForm && !showForm
    {
      if captured.None? {
        return;
      }
      options := options + [NewPosition(captured.value, FetchLivePrice(priceCall), FetchNews(newsCall))];
      form := EmptyForm;
      showForm := false;
    }

    /**
      `handleAdd` run to completion with nothing in between: with an empty
      ticker nothing changes; otherwise one record built from the form and the
      two fetch outcomes is appended, the form is cleared and hidden.
     */
    method Add(priceCall: Call<Server.PriceBody>, newsCall: Call<Server.NewsBody>)
      modifies this`options, this`form, this`showForm
      ensures old(form).ticker == "" ==> options == old(options) && form == old(form) && showForm == old(showForm)
      ensures old(form).ticker != "" ==> form == EmptyForm && !showForm
      ensures options == Added(old(options), old(form), priceCall, newsCall)
    {
      var captured := BeginAdd();
      FinishAdd(captured, priceCall, newsCall);
    }

    /** `handleDelete`: filters the given index out of the list. */
    method Delete(index: int)
      modifies this`options
      ensures options == Without(old(options), index)
      ensures 0 <= index < |old(options)| ==> options == old(options)[..index] + old(options)[index + 1..]
      ensures !(0 <= index < |old(options)|) ==> options == old(options)
    {
      WithoutRemovesOne(options, index);
      options := Without(options, index);
    }

    /**
      `handleRefresh` up to its `await`: the list it maps over, or `None` when
      the list is empty and the handler returns at once.
     */
    method BeginRefresh() returns (snapshot: Option<seq<Position>>)
      ensures snapshot.None? <==> options == []
      ensures snapshot.Some? ==> snapshot.value == options
    {
      snapshot := if options == [] then None else Some(options);
    }

    /**
      `handleRefresh` after its `await`: the list becomes the refreshed
      snapshot, a plain value that replaces whatever the list became meanwhile.
     */
    method FinishRefresh(snapshot: Option<seq<Position>>, priceCalls: seq<Call<Server.PriceBody>>, newsCalls: seq<Call<Server.NewsBody>>)
      requires snapshot.Some? ==> |priceCalls| == |snapshot.value| && |newsCalls| == |snapshot.value|
      modifies this`options
      ensures snapshot.None? ==> options == old(options)
      ensures snapshot.Some? ==> options == Refreshed(snapshot.value, priceCalls, newsCalls)
    {
      if snapshot.None? {
        return;
      }
      options := Refreshed(snapshot.value, priceCalls, newsCalls);
    }

    /**
      `handleRefresh` run to completion with nothing in between: an empty list
      stays empty; otherwise each position takes its own fetch outcomes, by index.
     */
    method Refresh(priceCalls: seq<Call<Server.PriceBody>>, newsCalls: seq<Call<Server.NewsBody>>)
      requires |priceCalls| == |options| && |newsCalls| == |options|
      modifies this`options
      ensures options == Refreshed(old(options), priceCalls, newsCalls)
      ensures old(options) == [] ==> options == []
    {
      var snapshot := BeginRefresh();
      FinishRefresh(snapshot, priceCalls, newsCalls);
    }

    /**
      A delete that lands while a refresh's fetches are pending is undone: the
      refresh writes back every position it read, the deleted one included.
     */
    method DeleteDuringRefresh(index: int, priceCalls: seq<Call<Server.PriceBody>>, newsCalls: seq<Call<Server.NewsBody>>)
      requires |priceCalls| == |options| && |newsCalls| == |options|
      requires 0 <= index < |options|
      modifies this`options
      ensures options == Refreshed(old(options), priceCalls, newsCalls)
      ensures |options| == |old(options)| && SameEntry(options[index], old(options)[index])
    {
      var snapshot := BeginRefresh();
      Delete(index);
      FinishRefresh(snapshot, priceCalls, newsCalls);
    }
  }
}
