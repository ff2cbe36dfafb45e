/** The price filter of the home page: two text boxes for a minimum and a
    maximum price, an Apply button (or the Enter key) and a Clear button. */
module PriceFilter {
  import opened Wrappers

  /** How a price text reads as a number: `None` when JavaScript finds it not
      a number (`isNaN`), otherwise the value `parseFloat` gives. */
  type Parse = string -> Option<real>

  /** A box accepts an edit that empties it or that is a number of at least zero. */
  predicate Accepted(parse: Parse, text: string) {
    text == "" || (parse(text).Some? && parse(text).value >= 0.0)
  }

  /** `minPrice === '' ? null : parseFloat(minPrice)` */
  function Bound(parse: Parse, text: string): Option<real> {
    if text == "" then None else parse(text)
  }

  /** An accepted text is empty exactly when its bound is absent, and a
      present bound is never negative. */
  lemma AcceptedBound(parse: Parse, text: string)
    requires Accepted(parse, text)
    ensures Bound(parse, text).None? <==> text == ""
    ensures Bound(parse, text).Some? ==> Bound(parse, text).value >= 0.0
  {
  }

  /** What the filter tells its parent. */
  datatype PriceEvent =
    | PriceChange(min: Option<real>, max: Option<real>)
    | Alert(text: string)

  const InvertedRange := "Minimum price cannot be greater than maximum price"

  /** `handleApplyFilter`: both bounds present with the minimum above the
      maximum is refused with an alert; anything else is passed on. */
  function ApplyOutcome(parse: Parse, minText: string, maxText: string): (r: PriceEvent)
    ensures r.Alert? <==>
      minText != "" && maxText != "" && parse(minText).Some? && parse(maxText).Some?
      && parse(minText).value > parse(maxText).value
    ensures r.Alert? ==> r.text == InvertedRange
    ensures r.PriceChange? ==> r.min == Bound(parse, minText) && r.max == Bound(parse, maxText)
  {
    var min := Bound(parse, minText);
    var max := Bound(parse, maxText);
    if min.Some? && max.Some? && min.value > max.value then Alert(InvertedRange)
    else PriceChange(min, max)
  }

  /** The parent never receives an inverted range, and an accepted text
      yields a bound that is absent only for an empty box. */
  lemma ApplyNeverInverted(parse: Parse, minText: string, maxText: string)
    requires Accepted(parse, minText) && Accepted(parse, maxText)
    ensures var r := ApplyOutcome(parse, minText, maxText);
      r.PriceChange? ==>
        && (r.min.Some? <==> minText != "") && (r.max.Some? <==> maxText != "")
        && (r.min.Some? && r.max.Some? ==> 0.0 <= r.min.value <= r.max.value)
  {
    AcceptedBound(parse, minText);
    AcceptedBound(parse, maxText);
  }

  /** Applying with both boxes empty sends the same open range as Clear. */
  lemma ApplyEmptyIsClear(parse: Parse)
    ensures ApplyOutcome(parse, "", "") == PriceChange(None, None)
  {
  }

  class PriceFilterBox {
    const parse: Parse
    var minPrice: string
    var maxPrice: string
    /** The calls to `onPriceChange` and the alerts, in order. */
    var log: seq<PriceEvent>

    /** Both boxes hold only texts they would accept. */
    predicate Valid()
      reads this`minPrice, this`maxPrice
    {
      Accepted(parse, minPrice) && Accepted(parse, maxPrice)
    }

    constructor(parse: Parse)
      ensures this.parse == parse && minPrice == "" && maxPrice == "" && log == []
      ensures Valid()
    {
      this.parse := parse;
      minPrice := "";
      maxPrice := "";
      log := [];
    }

    /** `handleMinPriceChange`: an edit that is not accepted is dropped. */
    method MinPriceChanged(value: string)
      requires Valid()
      modifies this`minPrice
      ensures minPrice == (if Accepted(parse, value) then value else old(minPrice))
      ensures Valid()
    {
      if value == "" || (parse(value).Some? && parse(value).value >= 0.0) {
        minPrice := value;
      }
    }

    /** `handleMaxPriceChange` */
    method MaxPriceChanged(value: string)
      requires Valid()
      modifies this`maxPrice
      ensures maxPrice == (if Accepted(parse, value) then value else old(maxPrice))
      ensures Valid()
    {
      if value == "" || (parse(value).Some? && parse(value).value >= 0.0) {
        maxPrice := value;
      }
    }

    /** `handleApplyFilter`: one alert or one call to `onPriceChange`. */
    method ApplyFilter()
      modifies this`log
      ensures log == old(log) + [ApplyOutcome(parse, minPrice, maxPrice)]
    {
      var min := if minPrice == "" then None else parse(minPrice);
      var max := if maxPrice == "" then None else parse(maxPrice);
      if min.Some? && max.Some? && min.value > max.value {
        log := log + [Alert(InvertedRange)];
        return;
      }
      log := log + [PriceChange(min, max)];
    }

    /** `handleClearFilter`: empty both boxes and send the open range. */
    method ClearFilter()
      modifies this`minPrice, this`maxPrice, this`log
      ensures minPrice == "" && maxPrice == "" && Valid()
      ensures log == old(log) + [PriceChange(None, None)]
    {
      minPrice := "";
      maxPrice := "";
      log := log + [PriceChange(None, None)];
    }

    /** `handleKeyPress`: Enter applies the filter, any other key does nothing. */
    method KeyPress(key: string)
      modifies this`log
      ensures key == "Enter" ==> log == old(log) + [ApplyOutcome(parse, minPrice, maxPrice)]
      ensures key != "Enter" ==> log == old(log)
    {
      if key == "Enter" {
        ApplyFilter();
      }
    }
  }
}
