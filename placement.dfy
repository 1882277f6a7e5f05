/**
 * The anchored placement rule shared by both popup variants: the floating
 * container is centred on the anchor's horizontal midpoint and goes Gap
 * below the anchor when it fits above the page's bottom edge, Gap above the
 * anchor otherwise. Offsets are TranslationX/TranslationY of a container laid
 * out at the top-left (LayoutOptions.Start) of a page-sized overlay.
 */
module Placement {
  import opened Host

  /** The spacing between anchor and container. */
  const Gap: real := 10.0

  /** The X offset that puts the container's horizontal midpoint on the anchor's. */
  function CentredX(anchorPoint: Point, anchorWidth: real, containerWidth: real): (tx: real)
    ensures tx + containerWidth / 2.0 == anchorPoint.x + anchorWidth / 2.0
  {
    anchorPoint.x + anchorWidth / 2.0 - containerWidth / 2.0
  }

  /** Whether a container of `containerHeight` fits, with the gap, between the anchor's bottom and the page's bottom. */
  predicate FitsBelow(anchorPoint: Point, anchorHeight: real, containerHeight: real, pageHeight: real) {
    anchorPoint.y + anchorHeight + Gap + containerHeight < pageHeight
  }

  /**
   * The Y offset of the container: Gap below the anchor's bottom edge when it
   * fits there, otherwise so that its bottom edge sits Gap above the anchor's
   * top edge.
   */
  function OffsetY(anchorPoint: Point, anchorHeight: real, containerHeight: real, pageHeight: real): (ty: real)
    ensures FitsBelow(anchorPoint, anchorHeight, containerHeight, pageHeight) ==>
      ty == anchorPoint.y + anchorHeight + Gap && ty + containerHeight < pageHeight
    ensures !FitsBelow(anchorPoint, anchorHeight, containerHeight, pageHeight) ==>
      ty + containerHeight + Gap == anchorPoint.y
  {
    if FitsBelow(anchorPoint, anchorHeight, containerHeight, pageHeight) then
      anchorPoint.y + anchorHeight + Gap
    else
      anchorPoint.y - Gap - containerHeight
  }

  /**
   * With non-negative heights the container's vertical span never meets the
   * anchor's: at least Gap separates them, on whichever side it is placed.
   */
  lemma NeverOverlapsAnchor(anchorPoint: Point, anchorHeight: real, containerHeight: real, pageHeight: real)
    requires anchorHeight >= 0.0 && containerHeight >= 0.0
    ensures var ty := OffsetY(anchorPoint, anchorHeight, containerHeight, pageHeight);
      ty + containerHeight + Gap <= anchorPoint.y || anchorPoint.y + anchorHeight + Gap <= ty
  {
  }

  /**
   * A placement below is chosen exactly when the container, so placed, ends
   * strictly above the page's bottom edge.
   */
  lemma BelowExactlyWhenItFits(anchorPoint: Point, anchorHeight: real, containerHeight: real, pageHeight: real)
    ensures var ty := OffsetY(anchorPoint, anchorHeight, containerHeight, pageHeight);
      (ty == anchorPoint.y + anchorHeight + Gap && ty + containerHeight < pageHeight) <==>
      FitsBelow(anchorPoint, anchorHeight, containerHeight, pageHeight)
  {
    var ty := OffsetY(anchorPoint, anchorHeight, containerHeight, pageHeight);
    if !FitsBelow(anchorPoint, anchorHeight, containerHeight, pageHeight) {
      assert ty != anchorPoint.y + anchorHeight + Gap || ty + containerHeight >= pageHeight;
    }
  }

  /**
   * The rule does not keep the container on the page: placed above an
   * anchor near the top, it starts above the page's top edge.
   */
  lemma AbovePlacementCanLeaveThePage()
    ensures OffsetY(Point(0.0, 5.0), 20.0, 40.0, 50.0) == -45.0
  {
  }

  /** Anchor at (100, 100) of size 50 x 20, container 80 x 40, page height 1000: below, centred. */
  lemma PlacedBelowExample()
    ensures CentredX(Point(100.0, 100.0), 50.0, 80.0) == 85.0
    ensures OffsetY(Point(100.0, 100.0), 20.0, 40.0, 1000.0) == 130.0
  {
  }

  /** The same anchor and container on a page of height 145: 100 + 20 + 10 + 40 is not below 145, so above. */
  lemma FlippedAboveExample()
    ensures OffsetY(Point(100.0, 100.0), 20.0, 40.0, 145.0) == 50.0
  {
  }
}
