/** The select-once rating widget of src/components/InteractiveStars.tsx:
    five star buttons; a click records the rating and reports it 300 ms
    later through the optional `onRate`, and every button is disabled as
    soon as a rating exists. With `autoSelect` (a demo pre-selection) the
    widget starts rated. App.tsx passes `autoSelect` but no `onRate`; what
    `onRate` would be called with is returned as a `Rated`. */
module InteractiveStarsWidget {
  import opened Wrappers
  import opened Stars

  /** A call of `onRate(rating)`, made `delay` ms after the click. */
  datatype Rated = Rated(rating: int, delay: nat)

  const RateDelay: nat := 300

  /** `autoSelect || null`: a missing or zero pre-selection means no rating. */
  function InitialRating(autoSelect: Option<int>): (r: Option<int>)
    ensures r.Some? <==> autoSelect.Some? && autoSelect.value != 0
    ensures r.Some? ==> r == autoSelect
  {
    if NumberOr(autoSelect, 0) != 0 then autoSelect else None
  }

  /** `disabled={selectedRating !== null}`. */
  predicate Disabled(rating: Option<int>) {
    rating.Some?
  }

  /** The displayed level, `selectedRating || 0`. */
  function Level(rating: Option<int>): int {
    NumberOr(rating, 0)
  }

  /** A click on star `star`: a disabled button ignores it; otherwise
      `handleClick` records the rating and reports it. */
  function Press(rating: Option<int>, star: Star): (Option<int>, Option<Rated>) {
    if Disabled(rating) then (rating, None) else (Some(star), Some(Rated(star, RateDelay)))
  }

  /** The rating and the reports after clicks on `clicks`, in order. */
  function PressAll(rating: Option<int>, clicks: seq<Star>): (r: (Option<int>, seq<Rated>))
    decreases |clicks|
  {
    if clicks == [] then (rating, [])
    else
      var (rating', report) := Press(rating, clicks[0]);
      var (last, reports) := PressAll(rating', clicks[1..]);
      (last, (if report.Some? then [report.value] else []) + reports)
  }

  /** Star k is lit iff k is at most the rating; no rating lights none. */
  lemma LitStars(rating: Option<int>, k: Star)
    ensures LitRow(Level(rating))[k - 1] <==> rating.Some? && rating.value != 0 && k <= rating.value
    ensures rating.Some? && 0 <= rating.value <= StarCount ==> LitCount(LitRow(Level(rating))) == rating.value
    ensures rating.None? ==> LitCount(LitRow(Level(rating))) == 0
  {
    LitStar(Level(rating), k);
    LitCountIsLevel(Level(rating));
  }

  /** Once rated, the widget ignores every click and reports nothing. */
  lemma {:induction false} RatedIsFinal(rating: Option<int>, clicks: seq<Star>)
    requires Disabled(rating)
    ensures PressAll(rating, clicks) == (rating, [])
    decreases |clicks|
  {
    if clicks != [] {
      RatedIsFinal(rating, clicks[1..]);
      var none: seq<Rated> := [];
      assert none + none == none;
    }
  }

  /** From no rating, the first click is final: it sets the rating and is the
      only one reported, 300 ms later. */
  lemma FirstClickIsFinal(clicks: seq<Star>)
    requires |clicks| > 0
    ensures PressAll(None, clicks) == (Some(clicks[0] as int), [Rated(clicks[0], RateDelay)])
  {
    RatedIsFinal(Some(clicks[0] as int), clicks[1..]);
    assert [Rated(clicks[0], RateDelay)] + [] == [Rated(clicks[0], RateDelay)];
  }

  /** With a non-zero `autoSelect` the widget starts disabled, shows that
      rating and never calls `onRate`. */
  lemma AutoSelectNeverRates(autoSelect: int, clicks: seq<Star>)
    requires autoSelect != 0
    ensures Disabled(InitialRating(Some(autoSelect)))
    ensures Level(InitialRating(Some(autoSelect))) == autoSelect
    ensures PressAll(InitialRating(Some(autoSelect)), clicks).1 == []
  {
    RatedIsFinal(InitialRating(Some(autoSelect)), clicks);
  }

  /** The widget as a component instance, its state updated in place. */
  class InteractiveStars {
    var selectedRating: Option<int>

    constructor (autoSelect: Option<int>)
      ensures selectedRating == InitialRating(autoSelect)
    {
      selectedRating := InitialRating(autoSelect);
    }

    /** `handleClick(rating)`. */
    method HandleClick(star: Star) returns (report: Rated)
      modifies this
      ensures selectedRating == Some(star as int) && report == Rated(star, RateDelay)
    {
      selectedRating := Some(star as int);
      report := Rated(star, RateDelay);
    }

    /** A click on a star button, which does nothing while it is disabled. */
    method Click(star: Star) returns (report: Option<Rated>)
      modifies this
      ensures (selectedRating, report) == Press(old(selectedRating), star)
    {
      report := None;
      if selectedRating == None {
        var r := HandleClick(star);
        report := Some(r);
      }
    }
  }
}
