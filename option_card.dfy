/**
  What one position card derives from its record: the ITM/OTM status of a
  short put, the badge's text and colour, and the live price placeholder.
  `parseFloat` is a parameter; `None` stands for the `NaN` it yields on text
  that does not start with a number.
 */
module OptionCard {
  import opened JsValues
  import OptionTracker

  /** The badge status: none, in the money, or out of the money. */
  datatype Status = NoStatus | ITM | OTM

  const NeutralColor := "#999"
  const ItmColor := "#FF4D4D"
  const OtmColor := "#00FF88"
  const Placeholder := "—"

  /** Both inputs of the comparison are present: a truthy live price and a non-empty strike. */
  predicate Comparable(option: OptionTracker.Position)
  {
    TruthyNumber(option.livePrice) && option.strike != ""
  }

  /**
    The card's status. A sold put is in the money when the live price is below
    the strike; at the strike or above it is out of the money. A strike that
    parses to `NaN` makes `<` false, so the card says OTM.
   */
  function StatusOf(option: OptionTracker.Position, parseFloat: string -> Option<real>): (s: Status)
    ensures s == NoStatus <==> !Comparable(option)
    ensures s == ITM <==>
      Comparable(option) && parseFloat(option.strike).Some?
      && option.livePrice.value < parseFloat(option.strike).value
    ensures s == OTM <==>
      Comparable(option)
      && (parseFloat(option.strike).None? || option.livePrice.value >= parseFloat(option.strike).value)
  {
    if !Comparable(option) then NoStatus
    else
      var strikeNum := parseFloat(option.strike);
      var liveNum := option.livePrice.value;
      if strikeNum.Some? && liveNum < strikeNum.value then ITM else OTM
  }

  /** The status badge: its label and its colour. */
  datatype Badge = Badge(text: string, color: string)

  /** Label and colour agree with the status, each in both directions. */
  function BadgeOf(s: Status): (b: Badge)
    ensures b.text == Placeholder <==> s == NoStatus
    ensures b.text == "ITM" <==> s == ITM
    ensures b.text == "OTM" <==> s == OTM
    ensures b.color == NeutralColor <==> s == NoStatus
    ensures b.color == ItmColor <==> s == ITM
    ensures b.color == OtmColor <==> s == OTM
  {
    match s
    case NoStatus => Badge(Placeholder, NeutralColor)
    case ITM => Badge("ITM", ItmColor)
    case OTM => Badge("OTM", OtmColor)
  }

  /** What the "Live" cell shows: the placeholder, or the price. */
  datatype Shown = Dash | Amount(value: real)

  /** `livePrice || "—"`: a missing or zero price shows the placeholder. */
  function LiveShown(livePrice: Option<real>): (d: Shown)
    ensures d == Dash <==> !TruthyNumber(livePrice)
    ensures d.Amount? ==> d.value == livePrice.value
  {
    if TruthyNumber(livePrice) then Amount(livePrice.value) else Dash
  }

  /** For a fixed strike, lowering a live price never turns an ITM card OTM. */
  lemma ItmIsBelowThreshold(option: OptionTracker.Position, lower: real, parseFloat: string -> Option<real>)
    requires StatusOf(option, parseFloat) == ITM
    requires lower != 0.0 && lower <= option.livePrice.value
    ensures StatusOf(option.(livePrice := Some(lower)), parseFloat) == ITM
  {
  }

  /**
    A position added while the network is down renders with the placeholder
    badge in grey and a placeholder live price.
   */
  lemma OfflinePositionShowsPlaceholders(
    list: seq<OptionTracker.Position>,
    form: OptionTracker.Form,
    parseFloat: string -> Option<real>)
    requires form.ticker != ""
    ensures var added := OptionTracker.Added(list, form, OptionTracker.NoResponse, OptionTracker.NoResponse);
      && |added| == |list| + 1
      && BadgeOf(StatusOf(added[|list|], parseFloat)) == Badge(Placeholder, NeutralColor)
      && LiveShown(added[|list|].livePrice) == Dash
  {
  }
}
