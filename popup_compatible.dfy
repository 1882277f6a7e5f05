/**
 * PopupCompatible: a ContentView shown as an overlay on a ContentPage,
 * optionally anchored to a VisualElement, closed at most once with a result.
 */
module Popup {
  import opened Host
  import opened VisualTree
  import opened Placement

  /**
   * The layers of an overlay, bottom to top: the scrim (a BoxView), then the
   * transparent dismiss button when the popup can be dismissed by tapping
   * outside, then the container holding the popup.
   */
  ghost predicate OverlayLayers(overlay: View, dismissible: bool, container: View)
    reads overlay
  {
    && overlay.kind == Grid
    && |overlay.children| == (if dismissible then 3 else 2)
    && overlay.children[0].kind == BoxView
    && (dismissible ==> overlay.children[1].kind == Button)
    && overlay.children[|overlay.children| - 1] == container
  }

  class PopupCompatible {
    /** The Anchor property: the element the popup is placed next to, if any. */
    var anchor: Option<NodeId>
    var canBeDismissedByTappingOutsideOfPopup: bool
    /** The popup itself as a view of the page. */
    const body: View

    var page: Page?
    var outsideOfPopupContainer: View?
    var scrim: View?
    var popupContainer: View?
    var tcs: ResultSlot
    /** Written only by PopupCompatibleExtensions.ShowPopupAsync; nothing here reads it. */
    var pageContainer: View?

    /** While an overlay is attached, its result has not been set yet. */
    ghost predicate Valid()
      reads this, tcs
    {
      outsideOfPopupContainer != null ==> tcs.state == Pending
    }

    constructor (anchor: Option<NodeId>, canBeDismissedByTappingOutsideOfPopup: bool)
      ensures Valid()
      ensures this.anchor == anchor
      ensures this.canBeDismissedByTappingOutsideOfPopup == canBeDismissedByTappingOutsideOfPopup
      ensures fresh(body) && body.kind == ContentView
      ensures page == null && outsideOfPopupContainer == null && scrim == null
      ensures popupContainer == null && pageContainer == null
      ensures fresh(tcs) && tcs.state == Pending
    {
      this.anchor := anchor;
      this.canBeDismissedByTappingOutsideOfPopup := canBeDismissedByTappingOutsideOfPopup;
      body := new View(ContentView);
      page, outsideOfPopupContainer, scrim := null, null, null;
      popupContainer, pageContainer := null, null;
      tcs := new ResultSlot();
    }

    /** The guard of CloseAsync: a page whose content is a Grid, and an overlay to remove. */
    predicate CanClose()
      reads this, page
    {
      page != null && IsGrid(page.content) && outsideOfPopupContainer != null
    }

    /**
     * Removes the overlay from the page's grid, forgets it and resolves the
     * result; does nothing when there is no overlay (never shown, or already
     * closed) or the page's content is no longer a Grid. The scale-out
     * animation before the removal changes nothing modelled here.
     */
    method CloseAsync(result: PopupResult := Null)
      requires Valid()
      modifies this`outsideOfPopupContainer, tcs, (if page != null then LayeringGrid(page) else {})`children
      ensures Valid()
      ensures old(CanClose()) ==>
        && outsideOfPopupContainer == null
        && tcs.state == Resolved(result)
        && page.content.children == RemoveFirst(old(page.content.children), old(outsideOfPopupContainer) as View)
      ensures !old(CanClose()) ==>
        && outsideOfPopupContainer == old(outsideOfPopupContainer)
        && tcs.state == old(tcs.state)
        && (page != null && page.content != null ==> page.content.children == old(page.content.children))
    {
      if page != null && IsGrid(page.content) && outsideOfPopupContainer != null {
        var pageGrid := page.content;
        pageGrid.Remove(outsideOfPopupContainer);
        outsideOfPopupContainer := null;
        tcs.SetResult(result);
      }
    }

    /**
     * Shows the popup on `page`: wraps the page's content in a Grid unless it
     * is one, installs a fresh result slot, puts a new overlay on top of the
     * grid and, when there is an anchor, places the container next to it and
     * installs the re-placement handlers (returned as `tracking`; they are
     * never removed). `tree` is the visual tree's geometry at this moment.
     * The returned slot is the one the caller awaits.
     */
    method ShowPopupAsync(page: Page, tree: Tree) returns (result: ResultSlot, tracking: AnchorTracking?)
      requires Valid()
      requires anchor.Some? ==> tree.WellFormed() && anchor.value in tree.nodes
      modifies this`page, this`outsideOfPopupContainer, this`scrim, this`popupContainer, this`tcs
      modifies page`content, LayeringGrid(page)`children
      ensures Valid()
      ensures page.height == old(page.height)
      // the page's content is wrapped in a Grid at most once
      ensures IsGrid(page.content)
      ensures IsGrid(old(page.content)) ==>
        page.content == old(page.content) &&
        page.content.children == old(page.content.children) + [outsideOfPopupContainer]
      ensures !IsGrid(old(page.content)) ==>
        fresh(page.content) &&
        page.content.children == (if old(page.content) == null then [] else [old(page.content)]) + [outsideOfPopupContainer]
      // one new overlay: scrim, optional dismiss button, container holding the popup
      ensures this.page == page
      ensures outsideOfPopupContainer != null && scrim != null && popupContainer != null
      ensures fresh(outsideOfPopupContainer) && fresh(popupContainer)
      ensures OverlayLayers(outsideOfPopupContainer, canBeDismissedByTappingOutsideOfPopup, popupContainer)
      ensures outsideOfPopupContainer.children[0] == scrim
      ensures forall i | 0 <= i < |outsideOfPopupContainer.children| :: fresh(outsideOfPopupContainer.children[i])
      ensures popupContainer.kind == Grid && |popupContainer.children| == 2
      ensures popupContainer.children[0].kind == Border && popupContainer.children[1].kind == ContentView
      ensures popupContainer.children[1].children == [body]
      // a fresh result slot
      ensures fresh(tcs) && tcs.state == Pending && result == tcs
      // placement
      ensures anchor.None? ==>
        && tracking == null
        && popupContainer.horizontalOptions == Center && popupContainer.verticalOptions == Center
        && popupContainer.translationX == 0.0 && popupContainer.translationY == 0.0
      ensures anchor.Some? ==>
        var a := anchor.value;
        var anchorPoint := AbsolutePosition(tree, a);
        && tracking != null && fresh(tracking)
        && tracking.popup == this && tracking.anchor == a && tracking.page == page
        && tracking.container == popupContainer
        && popupContainer.horizontalOptions == Start && popupContainer.verticalOptions == Start
        && popupContainer.translationX == CentredX(anchorPoint, tree.nodes[a].width, popupContainer.width)
        && popupContainer.translationY ==
             OffsetY(anchorPoint, tree.nodes[a].height, popupContainer.height, page.height)
    {
      result := AttachOverlay(page);
      tracking := null;
      if anchor.Some? {
        var a := anchor.value;
        PlaceNextToAnchor(popupContainer, tree, a, page.height);
        tracking := new AnchorTracking(this, a, page, popupContainer);
      }
    }

    /**
     * The part of ShowPopupAsync that does not depend on the anchor: wraps the
     * page's content in a Grid unless it is one, installs a fresh result slot
     * and puts a new overlay on top of the grid, its container centred.
     */
    method AttachOverlay(page: Page) returns (result: ResultSlot)
      requires Valid()
      modifies this`page, this`outsideOfPopupContainer, this`scrim, this`popupContainer, this`tcs
      modifies page`content, LayeringGrid(page)`children
      ensures Valid()
      ensures page.height == old(page.height)
      // the page's content is wrapped in a Grid at most once
      ensures IsGrid(page.content)
      ensures IsGrid(old(page.content)) ==>
        page.content == old(page.content) &&
        page.content.children == old(page.content.children) + [outsideOfPopupContainer]
      ensures !IsGrid(old(page.content)) ==>
        fresh(page.content) &&
        page.content.children == (if old(page.content) == null then [] else [old(page.content)]) + [outsideOfPopupContainer]
      // one new overlay: scrim, optional dismiss button, container holding the popup
      ensures this.page == page
      ensures outsideOfPopupContainer != null && scrim != null && popupContainer != null
      ensures fresh(outsideOfPopupContainer) && fresh(popupContainer)
      ensures OverlayLayers(outsideOfPopupContainer, canBeDismissedByTappingOutsideOfPopup, popupContainer)
      ensures outsideOfPopupContainer.children[0] == scrim
      ensures forall i | 0 <= i < |outsideOfPopupContainer.children| :: fresh(outsideOfPopupContainer.children[i])
      ensures popupContainer.kind == Grid && |popupContainer.children| == 2
      ensures popupContainer.children[0].kind == Border && popupContainer.children[1].kind == ContentView
      ensures popupContainer.children[1].children == [body]
      // a fresh result slot
      ensures fresh(tcs) && tcs.state == Pending && result == tcs
      ensures popupContainer.horizontalOptions == Center && popupContainer.verticalOptions == Center
      ensures popupContainer.translationX == 0.0 && popupContainer.translationY == 0.0
    {
      var pageGrid := WrapPageContent(page);
      tcs := new ResultSlot();
      this.page := page;
      // The overlay is assembled before it is added to the page's grid;
      // PopupCompatible.ShowPopupAsync adds it first and fills it after, with
      // nothing running between.
      var container := NewPopupContainer(body);
      var overlay, newScrim := NewOverlay(canBeDismissedByTappingOutsideOfPopup, container);
      scrim := newScrim;
      outsideOfPopupContainer := overlay;
      popupContainer := container;
      // the scale-in animation changes nothing modelled here
      pageGrid.Add(overlay);
      result := tcs;
    }

    /** Makes the page's content a Grid: the existing one, or a new one holding the old content. */
    static method WrapPageContent(page: Page) returns (pageGrid: View)
      modifies page`content
      ensures page.content == pageGrid && IsGrid(pageGrid) && page.height == old(page.height)
      ensures IsGrid(old(page.content)) ==> pageGrid == old(page.content)
      ensures !IsGrid(old(page.content)) ==>
        fresh(pageGrid) && pageGrid.children == if old(page.content) == null then [] else [old(page.content)]
    {
      if !IsGrid(page.content) {
        pageGrid := new View(Grid);
        if page.content != null {
          pageGrid.Add(page.content);
        }
        page.content := pageGrid;
      } else {
        pageGrid := page.content;
      }
    }

    /** The overlay: the scrim, the dismiss button if `dismissible`, then `container`. */
    static method NewOverlay(dismissible: bool, container: View) returns (overlay: View, scrim: View)
      ensures fresh(overlay) && OverlayLayers(overlay, dismissible, container) && overlay.children[0] == scrim
      ensures forall i | 0 <= i < |overlay.children| - 1 :: fresh(overlay.children[i])
    {
      overlay := new View(Grid);
      scrim := new View(BoxView);
      overlay.Add(scrim);
      if dismissible {
        // its command is CloseAsync()
        var outsideOfPopup := new View(Button);
        overlay.Add(outsideOfPopup);
      }
      overlay.Add(container);
    }

    /** The centred container: a rounded Border under a padded ContentView holding the popup. */
    static method NewPopupContainer(body: View) returns (container: View)
      ensures fresh(container) && container.kind == Grid && |container.children| == 2
      ensures fresh(container.children[0]) && fresh(container.children[1])
      ensures container.children[0].kind == Border && container.children[1].kind == ContentView
      ensures container.children[1].children == [body]
      ensures container.horizontalOptions == Center && container.verticalOptions == Center
      ensures container.translationX == 0.0 && container.translationY == 0.0
    {
      container := new View(Grid);
      container.horizontalOptions, container.verticalOptions := Center, Center;
      var border := new View(Border);
      container.Add(border);
      var content := new View(ContentView);
      content.Add(body);
      container.Add(content);
    }

    /** Puts the container at the anchor's top-left-relative placement: centred, below if it fits, else above. */
    static method PlaceNextToAnchor(container: View, tree: Tree, anchor: NodeId, pageHeight: real)
      requires tree.WellFormed() && anchor in tree.nodes
      modifies container`horizontalOptions, container`verticalOptions, container`translationX, container`translationY
      ensures container.horizontalOptions == Start && container.verticalOptions == Start
      ensures container.translationX ==
        CentredX(AbsolutePosition(tree, anchor), tree.nodes[anchor].width, container.width)
      ensures container.translationY ==
        OffsetY(AbsolutePosition(tree, anchor), tree.nodes[anchor].height, container.height, pageHeight)
    {
      var anchorPoint := GetAbsolutePosition(tree, anchor);
      container.horizontalOptions := Start;
      container.verticalOptions := Start;
      container.translationX := CentredX(anchorPoint, tree.nodes[anchor].width, container.width);
      var anchorAtBottom := FitsBelow(anchorPoint, tree.nodes[anchor].height, container.height, pageHeight);
      if anchorAtBottom {
        container.translationY := anchorPoint.y + tree.nodes[anchor].height + Gap;
      } else {
        container.translationY := anchorPoint.y - Gap - container.height;
      }
    }

    /**
     * The position of `visualElement` relative to the root: walks the parent
     * links, adding each element's X and Y and subtracting each ScrollView's
     * scroll offset.
     */
    static method GetAbsolutePosition(tree: Tree, visualElement: NodeId) returns (pos: Point)
      requires tree.WellFormed() && visualElement in tree.nodes
      ensures pos == AbsolutePosition(tree, visualElement)
    {
      pos := Point(0.0, 0.0);
      var current := visualElement;
      while true
        invariant current in tree.nodes
        invariant pos.Plus(AbsolutePosition(tree, current)) == AbsolutePosition(tree, visualElement)
        decreases tree.depth[current]
      {
        var e := tree.nodes[current];
        AbsolutePositionStep(tree, current);
        pos := Point(pos.x + e.x, pos.y + e.y);
        if e.kind.ScrollView? {
          pos := Point(pos.x - e.kind.scrollX, pos.y - e.kind.scrollY);
        }
        if e.parent.Some? {
          current := e.parent.value;
          continue;
        }
        break;
      }
    }
  }

  /**
   * The two PropertyChanged handlers an anchored show attaches, one to the
   * anchor and one to `container`. They capture the anchor and the page, but
   * reach the container through the popup's popupContainer field, so they
   * move whichever container that field holds when they run.
   */
  class AnchorTracking {
    const popup: PopupCompatible
    const anchor: NodeId
    const page: Page
    const container: View

    constructor (popup: PopupCompatible, anchor: NodeId, page: Page, container: View)
      ensures this.popup == popup && this.anchor == anchor && this.page == page && this.container == container
    {
      this.popup := popup;
      this.anchor := anchor;
      this.page := page;
      this.container := container;
    }

    /** The anchor's Width changed: re-centre horizontally. */
    method OnAnchorWidthChanged(tree: Tree)
      requires tree.WellFormed() && anchor in tree.nodes && popup.popupContainer != null
      modifies popup.popupContainer`translationX
      ensures popup.popupContainer.translationX ==
        CentredX(AbsolutePosition(tree, anchor), tree.nodes[anchor].width, popup.popupContainer.width)
    {
      var anchorPoint := PopupCompatible.GetAbsolutePosition(tree, anchor);
      popup.popupContainer.translationX :=
        CentredX(anchorPoint, tree.nodes[anchor].width, popup.popupContainer.width);
    }

    /** The container's Width changed: re-centre horizontally. */
    method OnContainerWidthChanged(tree: Tree)
      requires tree.WellFormed() && anchor in tree.nodes && popup.popupContainer != null
      modifies popup.popupContainer`translationX
      ensures popup.popupContainer.translationX ==
        CentredX(AbsolutePosition(tree, anchor), tree.nodes[anchor].width, popup.popupContainer.width)
    {
      var anchorPoint := PopupCompatible.GetAbsolutePosition(tree, anchor);
      popup.popupContainer.translationX :=
        CentredX(anchorPoint, tree.nodes[anchor].width, popup.popupContainer.width);
    }

    /** The container's Height changed: decide again between below and above. */
    method OnContainerHeightChanged(tree: Tree)
      requires tree.WellFormed() && anchor in tree.nodes && popup.popupContainer != null
      modifies popup.popupContainer`translationY
      ensures popup.popupContainer.translationY ==
        OffsetY(AbsolutePosition(tree, anchor), tree.nodes[anchor].height, popup.popupContainer.height, page.height)
    {
      var anchorPoint := PopupCompatible.GetAbsolutePosition(tree, anchor);
      var c := popup.popupContainer;
      var anchorAtBottom := FitsBelow(anchorPoint, tree.nodes[anchor].height, c.height, page.height);
      if anchorAtBottom {
        c.translationY := anchorPoint.y + tree.nodes[anchor].height + Gap;
      } else {
        c.translationY := anchorPoint.y - Gap - c.height;
      }
    }

    /** The anchor's handler: only a Width change moves the container, and only horizontally. */
    method OnAnchorPropertyChanged(property: PropertyName, tree: Tree)
      requires popup.popupContainer != null
      requires property == WidthProperty ==> tree.WellFormed() && anchor in tree.nodes
      modifies popup.popupContainer`translationX
      ensures property == WidthProperty ==>
        popup.popupContainer.translationX ==
          CentredX(AbsolutePosition(tree, anchor), tree.nodes[anchor].width, popup.popupContainer.width)
      ensures property != WidthProperty ==> popup.popupContainer.translationX == old(popup.popupContainer.translationX)
    {
      if property == WidthProperty {
        OnAnchorWidthChanged(tree);
      }
    }

    /**
     * The container's handler: a Width change moves it only horizontally, a
     * Height change only vertically, any other property not at all.
     */
    method OnContainerPropertyChanged(property: PropertyName, tree: Tree)
      requires popup.popupContainer != null
      requires !property.OtherProperty? ==> tree.WellFormed() && anchor in tree.nodes
      modifies popup.popupContainer`translationX, popup.popupContainer`translationY
      ensures property == WidthProperty ==>
        && popup.popupContainer.translationX ==
             CentredX(AbsolutePosition(tree, anchor), tree.nodes[anchor].width, popup.popupContainer.width)
        && popup.popupContainer.translationY == old(popup.popupContainer.translationY)
      ensures property == HeightProperty ==>
        && popup.popupContainer.translationY ==
             OffsetY(AbsolutePosition(tree, anchor), tree.nodes[anchor].height, popup.popupContainer.height, page.height)
        && popup.popupContainer.translationX == old(popup.popupContainer.translationX)
      ensures property.OtherProperty? ==>
        && popup.popupContainer.translationX == old(popup.popupContainer.translationX)
        && popup.popupContainer.translationY == old(popup.popupContainer.translationY)
    {
      match property
      case WidthProperty => OnContainerWidthChanged(tree);
      case HeightProperty => OnContainerHeightChanged(tree);
      case OtherProperty =>
    }
  }
}
