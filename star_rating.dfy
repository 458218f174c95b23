/** The re-selectable rating widget of src/components/StarRating.tsx: five
    star buttons with a hover preview. A click records the rating and calls
    the optional `onRate` at once; there is no disabled state, so the last
    click wins. Hovering shows the hovered level instead of the rating until
    the pointer leaves. App.tsx does not use this widget. */
module StarRatingWidget {
  import opened Wrappers
  import opened Stars

  /** The widget's state: `hoveredStar` and `selectedStar`. */
  datatype Rating = Rating(hovered: Option<int>, selected: Option<int>)

  const Initial: Rating := Rating(None, None)

  /** The displayed level, `hoveredStar || selectedStar || 0`. */
  function Level(r: Rating): int {
    NumberOr(r.hovered, NumberOr(r.selected, 0))
  }

  /** `handleClick(star)`: the new state and the value passed to `onRate`. */
  function Click(r: Rating, star: Star): (Rating, int) {
    (r.(selected := Some(star)), star)
  }

  /** `onMouseEnter` on star `star`. */
  function Enter(r: Rating, star: Star): Rating {
    r.(hovered := Some(star))
  }

  /** `onMouseLeave`. */
  function Leave(r: Rating): Rating {
    r.(hovered := None)
  }

  /** The state and the `onRate` calls after clicks on `clicks`, in order. */
  function ClickAll(r: Rating, clicks: seq<Star>): (Rating, seq<int>)
    decreases |clicks|
  {
    if clicks == [] then (r, [])
    else
      var (r', rated) := Click(r, clicks[0]);
      var (last, ratings) := ClickAll(r', clicks[1..]);
      (last, [rated] + ratings)
  }

  /** Every click is reported, in order, and the last one is the rating. */
  lemma {:induction false} LastClickWins(r: Rating, clicks: seq<Star>)
    requires |clicks| > 0
    ensures ClickAll(r, clicks).0 == r.(selected := Some(clicks[|clicks| - 1] as int))
    ensures ClickAll(r, clicks).1 == seq(|clicks|, i requires 0 <= i < |clicks| => clicks[i] as int)
    decreases |clicks|
  {
    if |clicks| > 1 {
      LastClickWins(Click(r, clicks[0]).0, clicks[1..]);
    }
  }

  /** While a star is hovered the display follows it; after the pointer
      leaves, it falls back to the rating, or to no star. */
  lemma HoverPreview(r: Rating, star: Star)
    ensures Level(Enter(r, star)) == star
    ensures Level(Leave(Enter(r, star))) == NumberOr(r.selected, 0)
    ensures Level(Leave(Enter(Initial, star))) == 0
  {
  }

  /** Star k is lit iff k is at most the displayed level; a rating of k
      with no hover lights exactly the first k stars. */
  lemma LitStars(r: Rating, k: Star)
    ensures LitRow(Level(r))[k - 1] <==> k <= Level(r)
    ensures r.hovered.None? && r.selected.Some? && 0 <= r.selected.value <= StarCount ==>
              LitCount(LitRow(Level(r))) == r.selected.value
  {
    LitStar(Level(r), k);
    LitCountIsLevel(Level(r));
  }

  /** The widget as a component instance, its state updated in place. */
  class StarRating {
    var hoveredStar: Option<int>
    var selectedStar: Option<int>

    function Snapshot(): Rating
      reads this
    {
      Rating(hoveredStar, selectedStar)
    }

    constructor ()
      ensures Snapshot() == Initial
    {
      hoveredStar, selectedStar := None, None;
    }

    method HandleClick(star: Star) returns (rated: int)
      modifies this
      ensures (Snapshot(), rated) == Click(old(Snapshot()), star)
    {
      selectedStar := Some(star as int);
      rated := star;
    }

    method MouseEnter(star: Star)
      modifies this
      ensures Snapshot() == Enter(old(Snapshot()), star)
    {
      hoveredStar := Some(star as int);
    }

    method MouseLeave()
      modifies this
      ensures Snapshot() == Leave(old(Snapshot()))
    {
      hoveredStar := None;
    }
  }
}
