# Cash Flow Strategist — a verified model of its logic

Cash Flow Strategist tracks short-option positions. A user enters a position (ticker, strike,
breakeven, expiration, premium). The browser enriches each position with a live quote and a
news article fetched through a small Express proxy that forwards to Finnhub (quotes) and
Polygon (news). A market strip flashes index and crypto prices up or down. A ticker scrolls
global headlines.

Almost all of it is glue. This project models the rules inside that glue, with HTTP, React
state setters, timers and styling taken away:

- `JsValues` (`js_values.dfy`): `null`/`undefined` as `Option`, JavaScript truthiness of
  strings and JSON numbers, `a || b` fallbacks, and ASCII `toUpperCase`.
- `Server` (`server.dfy`): the `/api/price/:ticker`, `/api/news/:ticker` and
  `/api/global-news` handlers. Each one maps the provider's answer to a reply: a body, a
  404 or a 500. A provider is a function from the upper-cased ticker to what the outbound
  call delivered (`Delivered(body)` or `Unreachable` for a thrown error). Which failures throw
  differs by route: axios (price, news) throws on a non-2xx status, `fetch` (global news) does not.
- `OptionTracker` (`option_tracker.dfy`): the position list and the add form as a class
  `PositionStore`, whose `Add`, `Delete` and `Refresh` methods are specified by the pure list
  transforms `Added`, `Without` and `Refreshed`. The two async handlers are split at their
  `await` (`BeginAdd`/`FinishAdd`, `BeginRefresh`/`FinishRefresh`), so that other handlers
  can run in between. The fetchers are `FetchLivePrice` and `FetchNews`. Each returns
  `null` for every failed call (`Call` is the client's view: no response, or the route's
  reply). `LoadSaved` is the initial load, with its fallback to `[]`.
- `OptionCard` (`option_card.dfy`): the ITM/OTM status of a sold put, the badge's text and
  colour, and the live-price placeholder. `parseFloat` is a parameter, and `None` stands for
  `NaN`: a strike that does not parse makes `<` false, so such a card says OTM.
- `MarketBar` (`market_bar.dfy`): the flash diff. `DiffFlashes` is a loop over the new
  snapshot's keys and is proved against the specification map `Diff`. The module also has the
  merge into the existing marks, the six-tile rendering, and `formatPrice`'s choice of
  placeholder and precision. A class `Board` holds the `markets`/`flashes` state.
- `NewsTicker` (`news_ticker.dfy`): headline selection (the first ten of `results`, or the
  body itself), the doubled feed, and the label and link fallback chains.

Behaviour the code has that is easy to miss, and that the model keeps:

- The client's fetchers never throw. So the `catch { return opt; }` inside the refresh
  callback (frontend/src/components/OptionTracker.js:77-79) cannot run, and `Refreshed` has
  no branch for it.
- A zero close from Finnhub is a 404. A price fetched through the price route is therefore
  never `0` (`OptionTracker.FetchedPriceIsNullOrTruthy`). Positions loaded from storage carry
  whatever price was saved.
- `/api/news/:ticker` answers 500 when Polygon's body is `null`: reading `.results` from it
  throws inside the `try`.
- The global-news client reads the body whatever the status. A proxy 500 (`{ error }`) has no
  `results`, so it replaces the headlines and the strip falls back to its loading line
  (`NewsTicker.UnreachableProviderBlanksStrip`). A bare list is taken as is, with no cap of ten.
- `/api/global-news` uses `fetch`, which does not throw on an HTTP error status. A provider
  error body (a 401 or 429 from Polygon, say) is forwarded with status 200, and it blanks the
  strip just as a 500 does (`NewsTicker.ProviderErrorPassesThroughAndBlanksStrip`).
- A refresh writes back the list it read before its fetches, as a plain value. A position
  deleted while the fetches are pending comes back (`OptionTracker.StaleRefreshRestoresDeleted`,
  `OptionTracker.PositionStore.DeleteDuringRefresh`).
- Add has no guard against a second click while its fetches are pending, and it appends
  through an updater, so two overlapping saves store the position twice
  (`OptionTracker.DoubleSaveAppendsTwice`).
- `formatPrice` treats a `0` price like a missing one, because `!value` is true for `0`.

## Model

| member | source | states |
|---|---|---|
| `JsValues.ToUpperCase` | frontend/src/components/OptionTracker.js:210 | upper-casing keeps the length and maps each character on its own (ASCII letters to upper case, the rest unchanged) |
| `JsValues.UpperCaseIsNormal` | backend/server.js:59 | the result has no lower-case letter, and an already upper-case ticker is left unchanged |
| `JsValues.UpperCaseIdempotent` | backend/server.js:59 | upper-casing a ticker twice gives what upper-casing it once gives |
| `JsValues.UpperCaseKeepsEmptiness` | frontend/src/components/OptionTracker.js:210 | an upper-cased ticker is empty exactly when the typed text was empty, so the add guard sees the same thing |
| `Server.PriceRoute` | backend/server.js:58-81 | the quote asked for is the upper-cased ticker. The reply is OK iff a body came back with a truthy close `c` (not missing, not 0). Then the ticker is echoed upper-cased and c/o/h/l/pc become close/open/high/low/previousClose, with no percent change. A missing body or a falsy close gives 404 "Ticker not found"; an unreachable provider gives 500 "Failed to fetch price" |
| `Server.PriceRouteIgnoresCase` | backend/server.js:59 | the price reply for a ticker and for its upper-cased form are identical |
| `Server.SourceOf` | backend/server.js:96 | the source is the publisher's name when it is present and non-empty, otherwise "Polygon"; it is never empty |
| `Server.Reshape` | backend/server.js:92-98 | title is kept, `article_url` becomes `url`, `published_utc` becomes `published`, and the source follows `SourceOf` |
| `Server.NewsRoute` | backend/server.js:84-104 | the reply is 500 "Failed to fetch news" exactly when the provider is unreachable or its body is null. Otherwise it is OK, with a null article iff `results` is missing or empty, and else the reshaped first result |
| `Server.NoNewsIsNotAnError` | backend/server.js:90-91 | missing or empty `results` gives a success with `article: null` |
| `Server.GlobalNewsRoute` | backend/server.js:107-117 | the reply is OK iff the provider answered, and then it carries the provider's body untouched. Otherwise it is 500 "Failed to fetch global market news" |
| `Server.UnreachableMeans500` | backend/server.js:77-80 | on each of the price, news and global-news routes, a call to its own provider that throws yields status 500 with a non-empty `error` |
| `OptionTracker.FetchLivePrice` | frontend/src/components/OptionTracker.js:31-39 | the price is non-null iff the call got a 2xx reply, and then it is that reply's `close`; every failure (no response, 404, 500) gives null |
| `OptionTracker.FetchNews` | frontend/src/components/OptionTracker.js:41-49 | a 2xx reply gives its `article` (itself possibly null); every failure gives null |
| `OptionTracker.FetchedPriceIsNullOrTruthy` | backend/server.js:65-70 | a price fetched through the price route is null or non-zero. It is non-null iff the provider returned a usable quote |
| `OptionTracker.LoadSaved` | frontend/src/components/OptionTracker.js:7-14 | nothing saved, or an empty string, loads as `[]`; a saved text that fails to parse loads as `[]`; otherwise the parsed list |
| `OptionTracker.NewPosition` | frontend/src/components/OptionTracker.js:59 | the new record carries the form's five fields and the two fetched values |
| `OptionTracker.Added` | frontend/src/components/OptionTracker.js:51-60 | an empty ticker leaves the list unchanged. Otherwise the list grows by exactly one, every earlier record is unchanged, and the last record carries the form's fields and the two fetch outcomes |
| `OptionTracker.AddWithoutNetwork` | frontend/src/components/OptionTracker.js:54-60 | with no response from either route, the position is still appended with its form fields and null price and article |
| `OptionTracker.Without` | frontend/src/components/OptionTracker.js:66 | filtering by index shortens the list by one for an in-range index and not at all otherwise, and keeps only elements of the original list |
| `OptionTracker.WithoutRemovesOne` | frontend/src/components/OptionTracker.js:66 | filtering out an in-range index removes exactly that element and keeps the others in order; an out-of-range index changes nothing |
| `OptionTracker.Enriched` | frontend/src/components/OptionTracker.js:76 | a refreshed record keeps ticker, strike, breakeven, exp and premium, and takes exactly the new price and article |
| `OptionTracker.Refreshed` | frontend/src/components/OptionTracker.js:71-82 | refreshing keeps the length and the order. Record i keeps its five form fields and takes the price and article of the i-th fetches |
| `OptionTracker.RefreshIsIdempotent` | frontend/src/components/OptionTracker.js:76 | refreshing twice with the same replies gives the same list as refreshing once |
| `OptionTracker.RefreshForgetsOldEnrichment` | frontend/src/components/OptionTracker.js:76 | the refreshed list does not depend on the prices and articles held before (overwrite, not accumulate) |
| `OptionTracker.DoubleSaveAppendsTwice` | frontend/src/components/OptionTracker.js:51-62 | two saves that both read the same filled form before either finishes append two identical records after the unchanged earlier list |
| `OptionTracker.StaleRefreshRestoresDeleted` | frontend/src/components/OptionTracker.js:71-82 | the refresh result built from the list read before a delete is one longer than the list after the delete, and holds the deleted position's entry at its old index |
| `OptionTracker.Edited` | frontend/src/components/OptionTracker.js:205-236 | each input sets only its own field; the ticker input stores the typed text upper-cased |
| `OptionTracker.PositionStore.constructor` | frontend/src/components/OptionTracker.js:7-24 | the initial state is the loaded list, an empty form and a hidden form |
| `OptionTracker.PositionStore.ToggleForm` | frontend/src/components/OptionTracker.js:177 | the form's visibility flips |
| `OptionTracker.PositionStore.Edit` | frontend/src/components/OptionTracker.js:209-235 | the form becomes `Edited(old form, field, text)` |
| `OptionTracker.PositionStore.BeginAdd` | frontend/src/components/OptionTracker.js:51-57 | the handler stops iff the ticker is empty; otherwise it carries the form as it is when the fetches start |
| `OptionTracker.PositionStore.FinishAdd` | frontend/src/components/OptionTracker.js:59-62 | with a captured form, one record built from that form and the fetch outcomes is appended to the list as it is now, and the form is reset and hidden; without one nothing changes |
| `OptionTracker.PositionStore.Add` | frontend/src/components/OptionTracker.js:51-63 | run without interleaving: an empty ticker changes nothing. Otherwise exactly one record is appended, and the form is reset to five empty strings and hidden |
| `OptionTracker.PositionStore.Delete` | frontend/src/components/OptionTracker.js:65-67 | the list becomes the old list with the element at the index removed, or stays unchanged when the index is out of range |
| `OptionTracker.PositionStore.BeginRefresh` | frontend/src/components/OptionTracker.js:69-72 | the handler stops iff the list is empty; otherwise it carries the list as it is when the fetches start |
| `OptionTracker.PositionStore.FinishRefresh` | frontend/src/components/OptionTracker.js:82 | with a captured list, the list becomes `Refreshed` of that captured list, whatever it became meanwhile; without one nothing changes |
| `OptionTracker.PositionStore.Refresh` | frontend/src/components/OptionTracker.js:69-83 | run without interleaving: an empty list stays empty; otherwise the list becomes `Refreshed` of the old list with the per-position fetch outcomes |
| `OptionTracker.PositionStore.DeleteDuringRefresh` | frontend/src/components/OptionTracker.js:65-82 | a delete that lands between a refresh's start and its end is undone: the list ends as the refresh of the list before the delete, with the same length and the deleted entry back at its index |
| `OptionCard.StatusOf` | frontend/src/components/OptionCard.js:8-22 | there is no status iff the live price is missing or 0 or the strike is empty. The status is ITM iff both are present and live < strike. It is OTM iff both are present and live >= strike (equality included) or the strike parses to NaN |
| `OptionCard.BadgeOf` | frontend/src/components/OptionCard.js:104-113 | the badge shows "—" in `#999` iff there is no status, "ITM" in `#FF4D4D` iff ITM, and "OTM" in `#00FF88` iff OTM |
| `OptionCard.LiveShown` | frontend/src/components/OptionCard.js:88 | the live cell shows "—" iff the price is missing or 0, and the price otherwise |
| `OptionCard.ItmIsBelowThreshold` | frontend/src/components/OptionCard.js:16-18 | for a fixed strike, an ITM card stays ITM at any lower non-zero live price |
| `OptionCard.OfflinePositionShowsPlaceholders` | frontend/src/components/OptionCard.js:11 | a position added with no network renders a grey "—" badge and a "—" live price |
| `MarketBar.Direction` | frontend/src/components/MarketBar.js:17-18 | the mark is "up" iff the key was in the old snapshot with a lower price, otherwise "down" |
| `MarketBar.DiffFlashes` | frontend/src/components/MarketBar.js:13-23 | the marks cover only keys of the new snapshot. A key is marked iff its price differs from the old one or it is new. A marked key is "up" iff it rose, and a key absent before is "down". The result equals `Diff` |
| `MarketBar.SteadyKeyKeepsItsMark` | frontend/src/components/MarketBar.js:15-24 | after merging a poll's marks, a key whose price did not move keeps the mark it had |
| `MarketBar.RepeatedSnapshotFlashesNothing` | frontend/src/components/MarketBar.js:15-16 | polling an identical snapshot produces no marks and leaves the flash map as it was |
| `MarketBar.Merge` | frontend/src/components/MarketBar.js:24 | the merged keys are the union. A key in the update takes the new mark; every other key keeps its prior mark |
| `MarketBar.FormatPrice` | frontend/src/components/MarketBar.js:54-68 | a missing or 0 value gives "—". Otherwise the amount is shown with 0 fraction digits iff the key is BTC, and with 2 digits for every other key |
| `MarketBar.FlashColor` | frontend/src/components/MarketBar.js:83-88 | the price is green iff the mark is "up", red iff "down", and neutral for no mark or a cleared one |
| `MarketBar.Render` | frontend/src/components/MarketBar.js:38-101 | there is a loading line iff no snapshot has arrived. Otherwise there are six tiles in the fixed asset order, each with its formatted price and its flash colour |
| `MarketBar.Board.constructor` | frontend/src/components/MarketBar.js:5-6 | the bar starts with no snapshot and no marks |
| `MarketBar.Board.Poll` | frontend/src/components/MarketBar.js:9-31 | a failed request changes nothing. The first snapshot adds no marks. A later snapshot merges `Diff(new, old)` into the marks. The new snapshot replaces the old |
| `MarketBar.Board.ExpireFlash` | frontend/src/components/MarketBar.js:19-21 | a finished flash resets that key's mark to null and leaves the others unchanged |
| `NewsTicker.Select` | frontend/src/components/NewsTicker.js:20-24 | with `results`, the headlines are its first min(10, n) items. A bare list is kept whole. Any other object is stored as a non-list |
| `NewsTicker.BodyOf` | frontend/src/components/NewsTicker.js:16-17 | the client reads the body of a failed reply too, and that body is an object without `results` |
| `NewsTicker.Poll` | frontend/src/components/NewsTicker.js:8-28 | a fetch that throws keeps the current headlines; otherwise they are replaced by `Select` of the body |
| `NewsTicker.Label` | frontend/src/components/NewsTicker.js:58 | the label is the first non-empty of title, headline and "Untitled"; it is never empty |
| `NewsTicker.Link` | frontend/src/components/NewsTicker.js:56 | the link is the first non-empty of `article_url`, `url` and "#"; it is never empty |
| `NewsTicker.Feed` | frontend/src/components/NewsTicker.js:47 | the feed has length 2n, and element i and element i + n are both headline i |
| `NewsTicker.Render` | frontend/src/components/NewsTicker.js:36-62 | only the loading line shows iff the headlines are empty or not a list. Otherwise 2n items scroll: item i is headline i's label and link, and item i + n repeats item i |
| `NewsTicker.UnreachableProviderBlanksStrip` | frontend/src/components/NewsTicker.js:19-24 | when the provider is unreachable, the proxy's error body replaces the headlines and the strip shows only its loading line |
| `NewsTicker.ProviderErrorPassesThroughAndBlanksStrip` | backend/server.js:110-112 | a provider error body without `results` is forwarded with status 200, replaces the headlines, and leaves only the loading line |
| `NewsTicker.PolygonFeedIsCapped` | frontend/src/components/NewsTicker.js:21 | a Polygon body scrolls at most 20 items (ten headlines, twice), and shows the loading line iff its results are empty |

## Left out

- HTTP itself: axios and fetch calls, Express setup, CORS and preflight, static files and
  `app.listen`. Each outbound call is a parameter (`Upstream`, `Call`, or an optional body).
- The `timestamp: Date.now()` field of the price reply, because it depends on the clock.
- The stray `n;` statement at the end of the server file. It is a load-time defect, not logic.
- Browser storage: the `localStorage` read is modelled only as "saved text or nothing" with
  `JSON.parse` as a parameter. The write on every change is not modelled. A saved value that
  parses to JSON other than a list of positions is outside the model; the store itself only
  ever saves a list.
- React rendering, styles, animation and the refresh toast. Also the timing of `setTimeout`
  and `setInterval`; only the effect of a flash's reset timer is modelled
  (`Board.ExpireFlash`). The re-run of the market effect on every `markets` change is not
  modelled either.
- `parseFloat` and `toLocaleString`. Prices are `real`, the strike's parse is a parameter, and
  only the choice of fraction digits is modelled, not the locale's digit grouping.
- The loose comparison `livePrice >= breakeven` that colours the live price. Its result
  depends on JavaScript's number/string coercion.
- The concurrency of `Promise.all` inside add and refresh. Results are merged by index, so
  refresh is a map over the list with one fetch outcome per position. Interleaving between
  handlers is modelled only at the two handlers' single `await` point.
- Percent change and the `/api/markets`, `/api/sentiment` and `/api/crypto` routes: the server
  does not implement them. The market bar's snapshot is therefore an input of the model.
  Market values are numbers; a `null` entry in a snapshot is not modelled.
- frontend/src/components/StockPrice.js, frontend/src/App.js and frontend/src/config.js are
  not part of this model. They are a single fetch-and-display, wiring and constants.
- `JsValues.ToUpperCase`: maps only the ASCII letters. JavaScript's full Unicode case mapping
  (which can change a string's length) is not modelled.
- `Server.PriceRoute`: assumes Finnhub's numeric fields are numbers or absent; other JSON types
  in those fields are not modelled.
