/**
 * Placement of the onboarding tooltip next to the spotlighted region
 * (calculateTooltipPosition in components/Onboarding.tsx).
 *
 * Screen sizes are parameters (the window dimensions are read from the
 * platform in the source). Spotlight dimensions arrive already parsed: a
 * percentage of the screen, an absolute pixel value, or absent.
 */
module Tooltip {
  import opened Wrappers

  const TooltipHeight: real := 160.0
  const TooltipWidth: real := 280.0
  /** Gap between the tooltip and the spotlight. */
  const Margin: real := 16.0

  /** One dimension of a spotlight style: "NN%", a number, or not given. */
  datatype Dim = Pct(percent: real) | Px(pixels: real) | Unset

  /** The four style entries of a step's spotlight that placement reads. */
  datatype Spotlight = Spotlight(top: Dim, left: Dim, width: Dim, height: Dim)

  /** A rectangle in pixels, measured from the top-left corner of the screen. */
  datatype Rect = Rect(top: real, left: real, width: real, height: real)

  /** The tooltip is pinned either by its top edge or, in the fallback, by its bottom edge. */
  datatype Anchor = FromTop(top: real) | FromBottom(bottom: real)

  datatype Placement = Placement(anchor: Anchor, left: real, width: real, height: real)

  /** A candidate area for the tooltip and whether it fits on the screen. */
  datatype Zone = Zone(top: real, left: real, fits: bool)

  /** Resolves one dimension against the screen extent it is relative to. */
  function ParseValue(d: Dim, total: real): (v: real)
    ensures d.Unset? ==> v == 0.0
    ensures d.Px? ==> v == d.pixels
    ensures d.Pct? ==> v == d.percent / 100.0 * total
    ensures d.Pct? && 0.0 <= d.percent <= 100.0 && 0.0 <= total ==> 0.0 <= v <= total
  {
    match d
    case Pct(p) =>
      PercentWithin(p, total);
      p / 100.0 * total
    case Px(x) => x
    case Unset => 0.0
  }

  lemma PercentWithin(p: real, total: real)
    ensures 0.0 <= p <= 100.0 && 0.0 <= total ==> 0.0 <= p / 100.0 * total <= total
  {
    if 0.0 <= p <= 100.0 && 0.0 <= total {
      var f := p / 100.0;
      assert 0.0 <= f <= 1.0;
      assert f * total <= 1.0 * total;
    }
  }

  /** The spotlight in pixels: top and height against the screen height, left and width against its width. */
  function SpotRect(spot: Spotlight, screenWidth: real, screenHeight: real): Rect
  {
    Rect(ParseValue(spot.top, screenHeight), ParseValue(spot.left, screenWidth),
         ParseValue(spot.width, screenWidth), ParseValue(spot.height, screenHeight))
  }

  /** Room for the tooltip between the top margin and the spotlight. */
  predicate AboveFits(s: Rect) { s.top - TooltipHeight - Margin > 0.0 }

  /** Room for the tooltip between the spotlight and the bottom of the screen. */
  predicate BelowFits(s: Rect, screenHeight: real) { s.top + s.height + TooltipHeight + Margin < screenHeight }

  /** Room for the tooltip to the left of the spotlight. */
  predicate LeftFits(s: Rect) { s.left - TooltipWidth - Margin > 0.0 }

  /** Room for the tooltip between the spotlight and the right edge of the screen. */
  predicate RightFits(s: Rect, screenWidth: real) { s.left + s.width + TooltipWidth + Margin < screenWidth }

  function CenteredLeft(screenWidth: real): real { (screenWidth - TooltipWidth) / 2.0 }

  function CenteredTop(screenHeight: real): real { (screenHeight - TooltipHeight) / 2.0 }

  /** The candidate zones, in the order they are tried: above, below, left, right. */
  function Zones(s: Rect, screenWidth: real, screenHeight: real): seq<Zone>
  {
    [ Zone(Margin, CenteredLeft(screenWidth), AboveFits(s)),
      Zone(s.top + s.height + Margin, CenteredLeft(screenWidth), BelowFits(s, screenHeight)),
      Zone(CenteredTop(screenHeight), Margin, LeftFits(s)),
      Zone(CenteredTop(screenHeight), s.left + s.width + Margin, RightFits(s, screenWidth)) ]
  }

  /** Index of the first zone at or after `from` that fits. */
  function FirstFit(zones: seq<Zone>, from: nat): (k: Option<nat>)
    requires from <= |zones|
    ensures k.Some? ==> from <= k.value < |zones| && zones[k.value].fits
    ensures k.Some? ==> forall j :: from <= j < k.value ==> !zones[j].fits
    ensures k.None? ==> forall j :: from <= j < |zones| ==> !zones[j].fits
    decreases |zones| - from
  {
    if from == |zones| then None
    else if zones[from].fits then Some(from)
    else FirstFit(zones, from + 1)
  }

  /** The tooltip's own rectangle when it is pinned by its top edge. */
  function TooltipRect(p: Placement): Rect
    requires p.anchor.FromTop?
  {
    Rect(p.anchor.top, p.left, p.width, p.height)
  }

  /** Two rectangles that do not overlap: one lies wholly above, below, left or right of the other. */
  predicate Apart(a: Rect, b: Rect)
  {
    a.top + a.height <= b.top || b.top + b.height <= a.top ||
    a.left + a.width <= b.left || b.left + b.width <= a.left
  }

  /**
   * First-fit placement: the first of above, below, left, right whose fit
   * condition holds, else bottom-anchored and horizontally centred. A
   * placement pinned by its top edge never covers the spotlight.
   */
  function CalculateTooltipPosition(spot: Spotlight, screenWidth: real, screenHeight: real): (p: Placement)
    ensures p.width == TooltipWidth && p.height == TooltipHeight
    ensures var s := SpotRect(spot, screenWidth, screenHeight);
      AboveFits(s) ==> p.anchor == FromTop(Margin) && p.left == CenteredLeft(screenWidth)
    ensures var s := SpotRect(spot, screenWidth, screenHeight);
      !AboveFits(s) && BelowFits(s, screenHeight) ==>
        p.anchor == FromTop(s.top + s.height + Margin) && p.left == CenteredLeft(screenWidth)
    ensures var s := SpotRect(spot, screenWidth, screenHeight);
      !AboveFits(s) && !BelowFits(s, screenHeight) && LeftFits(s) ==>
        p.anchor == FromTop(CenteredTop(screenHeight)) && p.left == Margin
    ensures var s := SpotRect(spot, screenWidth, screenHeight);
      !AboveFits(s) && !BelowFits(s, screenHeight) && !LeftFits(s) && RightFits(s, screenWidth) ==>
        p.anchor == FromTop(CenteredTop(screenHeight)) && p.left == s.left + s.width + Margin
    ensures var s := SpotRect(spot, screenWidth, screenHeight);
      p.anchor.FromBottom? <==>
        !AboveFits(s) && !BelowFits(s, screenHeight) && !LeftFits(s) && !RightFits(s, screenWidth)
    ensures p.anchor.FromBottom? ==> p.anchor.bottom == Margin && p.left == CenteredLeft(screenWidth)
    ensures p.anchor.FromTop? ==> Apart(TooltipRect(p), SpotRect(spot, screenWidth, screenHeight))
  {
    var s := SpotRect(spot, screenWidth, screenHeight);
    var zones := Zones(s, screenWidth, screenHeight);
    assert zones[0].fits == AboveFits(s) && zones[1].fits == BelowFits(s, screenHeight);
    assert zones[2].fits == LeftFits(s) && zones[3].fits == RightFits(s, screenWidth);
    match FirstFit(zones, 0)
    case Some(k) => Placement(FromTop(zones[k].top), zones[k].left, TooltipWidth, TooltipHeight)
    case None => Placement(FromBottom(Margin), CenteredLeft(screenWidth), TooltipWidth, TooltipHeight)
  }
}
