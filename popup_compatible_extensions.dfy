/**
 * PopupCompatibleExtensions: a second, diverging copy of the show logic as an
 * extension method on ContentPage. It keeps its overlay in the popup's
 * pageContainer field, holds the popup directly in a padded container it does
 * not store, places the container initially without centring it and mixes
 * the popup's size with the container's.
 */
module PopupCompatibleExtensions {
  import opened Host
  import opened VisualTree
  import opened Placement
  import opened Popup

  /** The initial X offset: the anchor's horizontal midpoint, with no centring of the container. */
  function InitialOffsetX(anchorPoint: Point, anchorWidth: real): (tx: real)
    ensures tx == CentredX(anchorPoint, anchorWidth, 0.0)
  {
    anchorPoint.x + anchorWidth / 2.0
  }

  /** The initial offset is the centred one exactly when the container has no width. */
  lemma InitialOffsetXCentredOnlyWhenWidthless(anchorPoint: Point, anchorWidth: real, containerWidth: real)
    ensures InitialOffsetX(anchorPoint, anchorWidth) == CentredX(anchorPoint, anchorWidth, containerWidth)
      <==> containerWidth == 0.0
  {
  }

  /**
   * The initial Y offset: below/above is decided with the popup's height,
   * but the above offset uses the container's height.
   */
  function InitialOffsetY(anchorPoint: Point, anchorHeight: real, popupHeight: real, containerHeight: real, pageHeight: real): (ty: real)
    ensures FitsBelow(anchorPoint, anchorHeight, popupHeight, pageHeight) ==> ty == anchorPoint.y + anchorHeight + Gap
    ensures !FitsBelow(anchorPoint, anchorHeight, popupHeight, pageHeight) ==> ty + containerHeight + Gap == anchorPoint.y
  {
    if FitsBelow(anchorPoint, anchorHeight, popupHeight, pageHeight) then
      anchorPoint.y + anchorHeight + Gap
    else
      anchorPoint.y - Gap - containerHeight
  }

  /** When the popup and its container have the same height, the initial Y offset is the shared placement rule. */
  lemma InitialOffsetYAgreesForEqualHeights(anchorPoint: Point, anchorHeight: real, height: real, pageHeight: real)
    ensures InitialOffsetY(anchorPoint, anchorHeight, height, height, pageHeight) ==
      OffsetY(anchorPoint, anchorHeight, height, pageHeight)
  {
  }

  /**
   * The two heights make a difference: a popup of height 40 in a container of
   * height 60 (its padding of 10 on each side) passes the below test on a page
   * of height 175, and the container then reaches past the page's bottom.
   */
  lemma InitialBelowTestCanOverflow()
    ensures FitsBelow(Point(100.0, 100.0), 20.0, 40.0, 175.0)
    ensures InitialOffsetY(Point(100.0, 100.0), 20.0, 40.0, 60.0, 175.0) + 60.0 > 175.0
    ensures OffsetY(Point(100.0, 100.0), 20.0, 60.0, 175.0) == 30.0
  {
  }

  /** Same walk as PopupCompatible.GetAbsolutePosition. */
  method GetAbsolutePosition(tree: Tree, visualElement: NodeId) returns (pos: Point)
    requires tree.WellFormed() && visualElement in tree.nodes
    ensures pos == AbsolutePosition(tree, visualElement)
  {
    pos := Point(0.0, 0.0);
    var current := visualElement;
    while true
      invariant current in tree.nodes
      invariant pos.Plus(AbsolutePosition(tree, current)) == AbsolutePosition(tree, visualElement)
      decreases tree.depth[current]
    {
      var e := tree.nodes[current];
      AbsolutePositionStep(tree, current);
      pos := Point(pos.x + e.x, pos.y + e.y);
      if e.kind.ScrollView? {
        pos := Point(pos.x - e.kind.scrollX, pos.y - e.kind.scrollY);
      }
      if e.parent.Some? {
        current := e.parent.value;
        continue;
      }
      break;
    }
  }

  /**
   * The overlay of the extension: the scrim, the dismiss button if
   * `dismissible`, then a new container (centred, no translation) holding
   * the popup itself.
   */
  method NewOverlay(dismissible: bool, popupBody: View) returns (overlay: View, container: View)
    ensures fresh(overlay) && fresh(container) && OverlayLayers(overlay, dismissible, container)
    ensures forall i | 0 <= i < |overlay.children| - 1 :: fresh(overlay.children[i])
    ensures container.kind == Grid && container.children == [popupBody]
    ensures container.horizontalOptions == Center && container.verticalOptions == Center
    ensures container.translationX == 0.0 && container.translationY == 0.0
  {
    overlay := new View(Grid);
    var scrim := new View(BoxView);
    overlay.Add(scrim);
    if dismissible {
      // its command is popup.CloseAsync()
      var dismissButton := new View(Button);
      overlay.Add(dismissButton);
    }
    container := new View(Grid);
    container.horizontalOptions, container.verticalOptions := Center, Center;
    container.Add(popupBody);
    overlay.Add(container);
  }

  /**
   * The initial anchored placement of the extension: X not centred, the
   * below test on the popup's height, the above offset on the container's.
   */
  method PlaceNextToAnchor(container: View, popupHeight: real, tree: Tree, anchor: NodeId, pageHeight: real)
    requires tree.WellFormed() && anchor in tree.nodes
    modifies container`horizontalOptions, container`verticalOptions, container`translationX, container`translationY
    ensures container.horizontalOptions == Start && container.verticalOptions == Start
    ensures container.translationX == InitialOffsetX(AbsolutePosition(tree, anchor), tree.nodes[anchor].width)
    ensures container.translationY ==
      InitialOffsetY(AbsolutePosition(tree, anchor), tree.nodes[anchor].height, popupHeight, container.height, pageHeight)
  {
    var anchorPoint := GetAbsolutePosition(tree, anchor);
    container.horizontalOptions := Start;
    container.verticalOptions := Start;
    var anchorAtBottom := FitsBelow(anchorPoint, tree.nodes[anchor].height, popupHeight, pageHeight);
    container.translationX := anchorPoint.x + tree.nodes[anchor].width / 2.0;
    if anchorAtBottom {
      container.translationY := anchorPoint.y + tree.nodes[anchor].height + Gap;
    } else {
      container.translationY := anchorPoint.y - Gap - container.height;
    }
  }

  /**
   * The part of ShowPopupAsync that does not depend on the anchor: wraps the
   * page's content in a Grid unless it is one, records the page, a new
   * overlay (in pageContainer) and a fresh result slot on the popup, and puts
   * the overlay on top of the grid. Returns the overlay's container.
   */
  method AttachOverlay(page: Page, popup: PopupCompatible) returns (result: ResultSlot, container: View)
    requires popup.Valid()
    modifies page`content, LayeringGrid(page)`children, popup`page, popup`pageContainer, popup`tcs
    ensures popup.Valid()
    ensures page.height == old(page.height)
    ensures IsGrid(page.content)
    ensures IsGrid(old(page.content)) ==>
      page.content == old(page.content) &&
      page.content.children == old(page.content.children) + [popup.pageContainer]
    ensures !IsGrid(old(page.content)) ==>
      fresh(page.content) &&
      page.content.children == (if old(page.content) == null then [] else [old(page.content)]) + [popup.pageContainer]
    ensures popup.page == page
    ensures popup.pageContainer != null && fresh(popup.pageContainer) && fresh(container)
    ensures OverlayLayers(popup.pageContainer, popup.canBeDismissedByTappingOutsideOfPopup, container)
    ensures forall i | 0 <= i < |popup.pageContainer.children| :: fresh(popup.pageContainer.children[i])
    ensures container.kind == Grid && container.children == [popup.body]
    ensures container.horizontalOptions == Center && container.verticalOptions == Center
    ensures container.translationX == 0.0 && container.translationY == 0.0
    ensures fresh(popup.tcs) && popup.tcs.state == Pending && result == popup.tcs
  {
    var grid := PopupCompatible.WrapPageContent(page);
    popup.page := page;
    var overlay;
    overlay, container := NewOverlay(popup.canBeDismissedByTappingOutsideOfPopup, popup.body);
    popup.pageContainer := overlay;
    popup.tcs := new ResultSlot();
    grid.Add(overlay);
    result := popup.tcs;
  }

  /**
   * Shows `popup` on `page`: AttachOverlay, then, with an anchor, places the
   * container and installs its handlers (returned as `tracking`; never
   * removed). It leaves outsideOfPopupContainer and popupContainer, the
   * fields PopupCompatible.CloseAsync works with, alone.
   */
  method ShowPopupAsync(page: Page, popup: PopupCompatible, tree: Tree)
    returns (result: ResultSlot, tracking: ExtensionAnchorTracking?)
    requires popup.Valid()
    requires popup.anchor.Some? ==> tree.WellFormed() && popup.anchor.value in tree.nodes
    modifies page`content, LayeringGrid(page)`children, popup`page, popup`pageContainer, popup`tcs
    ensures popup.Valid()
    ensures page.height == old(page.height)
    // the page's content is wrapped in a Grid at most once
    ensures IsGrid(page.content)
    ensures IsGrid(old(page.content)) ==>
      page.content == old(page.content) &&
      page.content.children == old(page.content.children) + [popup.pageContainer]
    ensures !IsGrid(old(page.content)) ==>
      fresh(page.content) &&
      page.content.children == (if old(page.content) == null then [] else [old(page.content)]) + [popup.pageContainer]
    // the overlay, the popup's state and the placement
    ensures popup.page == page
    ensures popup.pageContainer != null && fresh(popup.pageContainer) && |popup.pageContainer.children| >= 2
    ensures var overlay := popup.pageContainer;
      var container := overlay.children[|overlay.children| - 1];
      && OverlayLayers(overlay, popup.canBeDismissedByTappingOutsideOfPopup, container)
      && (forall i | 0 <= i < |overlay.children| :: fresh(overlay.children[i]))
      && container.kind == Grid && container.children == [popup.body]
      && (popup.anchor.None? ==>
           && tracking == null
           && container.horizontalOptions == Center && container.verticalOptions == Center
           && container.translationX == 0.0 && container.translationY == 0.0)
      && (popup.anchor.Some? ==>
           var a := popup.anchor.value;
           var anchorPoint := AbsolutePosition(tree, a);
           && tracking != null && fresh(tracking)
           && tracking.popup == popup && tracking.container == container
           && tracking.anchor == a && tracking.page == page
           && container.horizontalOptions == Start && container.verticalOptions == Start
           && container.translationX == InitialOffsetX(anchorPoint, tree.nodes[a].width)
           && container.translationY ==
                InitialOffsetY(anchorPoint, tree.nodes[a].height, popup.body.height, container.height, page.height))
    ensures fresh(popup.tcs) && popup.tcs.state == Pending && result == popup.tcs
  {
    var container;
    result, container := AttachOverlay(page, popup);
    tracking := null;
    if popup.anchor.Some? {
      var a := popup.anchor.value;
      PlaceNextToAnchor(container, popup.body.height, tree, a, page.height);
      tracking := new ExtensionAnchorTracking(popup, container, a, page);
    }
  }

  /**
   * The two PropertyChanged handlers of an anchored extension show. They
   * capture the container itself. The anchor's handler centres with the
   * popup's width, the container's handler with the container's width.
   */
  class ExtensionAnchorTracking {
    const popup: PopupCompatible
    const container: View
    const anchor: NodeId
    const page: Page

    constructor (popup: PopupCompatible, container: View, anchor: NodeId, page: Page)
      ensures this.popup == popup && this.container == container && this.anchor == anchor && this.page == page
    {
      this.popup := popup;
      this.container := container;
      this.anchor := anchor;
      this.page := page;
    }

    /** The anchor's Width changed: centre using the popup's width. */
    method OnAnchorWidthChanged(tree: Tree)
      requires tree.WellFormed() && anchor in tree.nodes
      modifies container`translationX
      ensures container.translationX ==
        CentredX(AbsolutePosition(tree, anchor), tree.nodes[anchor].width, popup.body.width)
    {
      var anchorPoint := GetAbsolutePosition(tree, anchor);
      container.translationX := CentredX(anchorPoint, tree.nodes[anchor].width, popup.body.width);
    }

    /** The container's Width changed: centre using the container's width. */
    method OnContainerWidthChanged(tree: Tree)
      requires tree.WellFormed() && anchor in tree.nodes
      modifies container`translationX
      ensures container.translationX ==
        CentredX(AbsolutePosition(tree, anchor), tree.nodes[anchor].width, container.width)
    {
      var anchorPoint := GetAbsolutePosition(tree, anchor);
      container.translationX := CentredX(anchorPoint, tree.nodes[anchor].width, container.width);
    }

    /** The container's Height changed: decide again, this time with the container's height. */
    method OnContainerHeightChanged(tree: Tree)
      requires tree.WellFormed() && anchor in tree.nodes
      modifies container`translationY
      ensures container.translationY ==
        OffsetY(AbsolutePosition(tree, anchor), tree.nodes[anchor].height, container.height, page.height)
    {
      var anchorPoint := GetAbsolutePosition(tree, anchor);
      var anchorAtBottom := FitsBelow(anchorPoint, tree.nodes[anchor].height, container.height, page.height);
      if anchorAtBottom {
        container.translationY := anchorPoint.y + tree.nodes[anchor].height + Gap;
      } else {
        container.translationY := anchorPoint.y - Gap - container.height;
      }
    }

    /** The anchor's handler: only a Width change moves the container, and only horizontally. */
    method OnAnchorPropertyChanged(property: PropertyName, tree: Tree)
      requires property == WidthProperty ==> tree.WellFormed() && anchor in tree.nodes
      modifies container`translationX
      ensures property == WidthProperty ==>
        container.translationX ==
          CentredX(AbsolutePosition(tree, anchor), tree.nodes[anchor].width, popup.body.width)
      ensures property != WidthProperty ==> container.translationX == old(container.translationX)
    {
      if property == WidthProperty {
        OnAnchorWidthChanged(tree);
      }
    }

    /**
     * The container's handler: a Width change moves it only horizontally, a
     * Height change only vertically, any other property not at all.
     */
    method OnContainerPropertyChanged(property: PropertyName, tree: Tree)
      requires !property.OtherProperty? ==> tree.WellFormed() && anchor in tree.nodes
      modifies container`translationX, container`translationY
      ensures property == WidthProperty ==>
        && container.translationX ==
             CentredX(AbsolutePosition(tree, anchor), tree.nodes[anchor].width, container.width)
        && container.translationY == old(container.translationY)
      ensures property == HeightProperty ==>
        && container.translationY ==
             OffsetY(AbsolutePosition(tree, anchor), tree.nodes[anchor].height, container.height, page.height)
        && container.translationX == old(container.translationX)
      ensures property.OtherProperty? ==>
        container.translationX == old(container.translationX) && container.translationY == old(container.translationY)
    {
      match property
      case WidthProperty => OnContainerWidthChanged(tree);
      case HeightProperty => OnContainerHeightChanged(tree);
      case OtherProperty =>
    }
  }
}
