/**
  The market overview strip: the latest symbol-to-price snapshot, the
  up/down flash marks computed by comparing each new snapshot with the one
  before it, and the rule that picks each tile's display precision.
 */
module MarketBar {
  import opened JsValues

  /** A market snapshot: symbol to price. */
  type Snapshot = map<string, real>

  /** A tile's flash mark; `Cleared` is the `null` a finished flash is reset to. */
  datatype Flash = Up | Down | Cleared

  /** `m[key]`, with `None` for a key the map lacks. */
  function Lookup<V>(m: map<string, V>, key: string): Option<V>
  {
    if key in m then Some(m[key]) else None
  }

  /** `res.data[key] !== markets[key]`: a key missing from the old snapshot always counts as changed. */
  predicate Changed(next: Snapshot, prev: Snapshot, key: string)
    requires key in next
  {
    key !in prev || next[key] != prev[key]
  }

  /** `res.data[key] > markets[key] ? "up" : "down"`: comparing with a missing old value is false. */
  function Direction(next: Snapshot, prev: Snapshot, key: string): (f: Flash)
    requires key in next
    ensures f == Up <==> key in prev && next[key] > prev[key]
    ensures f != Cleared
  {
    if key in prev && next[key] > prev[key] then Up else Down
  }

  /** The marks one poll produces: one for every key whose price changed, and for no other. */
  ghost function Diff(next: Snapshot, prev: Snapshot): map<string, Flash>
  {
    map key | key in next && Changed(next, prev, key) :: Direction(next, prev, key)
  }

  /**
    The `for...in` loop of one poll, building `updatedFlashes` key by key.
    Visiting order does not matter: each key writes only its own entry.
   */
  method DiffFlashes(next: Snapshot, prev: Snapshot) returns (updated: map<string, Flash>)
    ensures updated.Keys <= next.Keys
    ensures forall key :: key in next ==> (key in updated <==> Changed(next, prev, key))
    ensures forall key :: key in updated ==> (updated[key] == Up <==> key in prev && next[key] > prev[key])
    ensures forall key :: key in updated ==> updated[key] != Cleared
    ensures forall key :: key in updated && key !in prev ==> updated[key] == Down
    ensures updated == Diff(next, prev)
  {
    updated := map[];
    var remaining := next.Keys;
    while remaining != {}
      invariant remaining <= next.Keys
      invariant updated.Keys <= next.Keys - remaining
      invariant forall key :: key in next && key !in remaining ==> (key in updated <==> Changed(next, prev, key))
      invariant forall key :: key in updated ==> updated[key] == Direction(next, prev, key)
      decreases remaining
    {
      var key :| key in remaining;
      if key !in prev || next[key] != prev[key] {
        updated := updated[key := if key in prev && next[key] > prev[key] then Up else Down];
      }
      remaining := remaining - {key};
    }
    assert updated.Keys == Diff(next, prev).Keys;
  }

  /** `{ ...prev, ...update }`: the update wins on its keys, every other mark is kept. */
  function Merge(prev: map<string, Flash>, update: map<string, Flash>): (r: map<string, Flash>)
    ensures r.Keys == prev.Keys + update.Keys
    ensures forall key :: key in update ==> r[key] == update[key]
    ensures forall key :: key in prev && key !in update ==> r[key] == prev[key]
  {
    prev + update
  }

  /** A key whose price did not move keeps whatever mark it had before the poll. */
  lemma SteadyKeyKeepsItsMark(flashes: map<string, Flash>, next: Snapshot, prev: Snapshot, key: string)
    requires key in next && key in prev && next[key] == prev[key]
    ensures Lookup(Merge(flashes, Diff(next, prev)), key) == Lookup(flashes, key)
  {
  }

  /** Polling the same snapshot twice produces no marks, so the flash map is left as it was. */
  lemma RepeatedSnapshotFlashesNothing(flashes: map<string, Flash>, snapshot: Snapshot)
    ensures Diff(snapshot, snapshot) == map[]
    ensures Merge(flashes, Diff(snapshot, snapshot)) == flashes
  {
  }

  /** How a tile shows its price: the placeholder, or the amount with a number of fraction digits. */
  datatype PriceText = Dash | Dollars(amount: real, fractionDigits: nat)

  const BitcoinKey := "BTC"

  /** `formatPrice`: no price (or `0`) shows "—"; BTC is shown whole, everything else to the cent. */
  function FormatPrice(key: string, value: Option<real>): (t: PriceText)
    ensures t == Dash <==> !TruthyNumber(value)
    ensures t.Dollars? ==> t.amount == value.value
    ensures t.Dollars? ==> (t.fractionDigits == 0 <==> key == BitcoinKey)
    ensures t.Dollars? ==> (t.fractionDigits == 2 <==> key != BitcoinKey)
  {
    if !TruthyNumber(value) then Dash
    else if key == BitcoinKey then Dollars(value.value, 0)
    else Dollars(value.value, 2)
  }

  const UpColor := "#00FF88"
  const DownColor := "#FF4D4D"
  const RestColor := "#EAEAEA"

  /** A tile's text colour follows its flash mark; no mark, or a cleared one, is neutral. */
  function FlashColor(mark: Option<Flash>): (c: string)
    ensures c == UpColor <==> mark == Some(Up)
    ensures c == DownColor <==> mark == Some(Down)
    ensures c == RestColor <==> mark.None? || mark == Some(Cleared)
  {
    match mark
    case Some(Up) => UpColor
    case Some(Down) => DownColor
    case _ => RestColor
  }

  /** The six symbols the strip shows, in display order. */
  const Assets: seq<string> := ["SPY", "QQQ", "DIA", "BTC", "ETH", "XRP"]

  /** One tile: the price text and its colour. */
  datatype Tile = Tile(key: string, text: PriceText, color: string)

  /** The rendered strip: a loading line before the first snapshot, then one tile per asset. */
  datatype View = Loading | Tiles(tiles: seq<Tile>)

  /** The strip shows the six fixed assets, whatever keys the snapshot holds. */
  function Render(markets: Option<Snapshot>, flashes: map<string, Flash>): (v: View)
    ensures v == Loading <==> markets.None?
    ensures v.Tiles? ==> |v.tiles| == |Assets|
    ensures v.Tiles? ==> forall i :: 0 <= i < |Assets| ==>
      && v.tiles[i].key == Assets[i]
      && v.tiles[i].text == FormatPrice(Assets[i], Lookup(markets.value, Assets[i]))
      && v.tiles[i].color == FlashColor(Lookup(flashes, Assets[i]))
  {
    if markets.None? then Loading
    else Tiles(seq(|Assets|, i requires 0 <= i < |Assets| =>
      Tile(Assets[i], FormatPrice(Assets[i], Lookup(markets.value, Assets[i])), FlashColor(Lookup(flashes, Assets[i])))))
  }

  /** The component's state: the last snapshot (none before the first poll succeeds) and the flash marks. */
  class Board {
    var markets: Option<Snapshot>
    var flashes: map<string, Flash>

    constructor()
      ensures markets == None && flashes == map[]
    {
      markets := None;
      flashes := map[];
    }

    /**
      One poll. A failed request changes nothing. The first snapshot produces
      no marks; each later one merges the marks of its changed keys into the
      existing ones. The new snapshot then replaces the old.
     */
    method Poll(reply: Option<Snapshot>)
      modifies this
      ensures reply.None? ==> markets == old(markets) && flashes == old(flashes)
      ensures reply.Some? ==> markets == reply
      ensures reply.Some? && old(markets).None? ==> flashes == old(flashes)
      ensures reply.Some? && old(markets).Some? ==>
        flashes == Merge(old(flashes), Diff(reply.value, old(markets).value))
    {
      if reply.None? {
        return;
      }
      var next := reply.value;
      if markets.Some? {
        var updated := DiffFlashes(next, markets.value);
        flashes := Merge(flashes, updated);
      }
      markets := Some(next);
    }

    /** The effect of a flash's reset timer: the key's mark goes back to `null`. */
    method ExpireFlash(key: string)
      modifies this`flashes
      ensures flashes == old(flashes)[key := Cleared]
    {
      flashes := flashes[key := Cleared];
    }
  }
}
