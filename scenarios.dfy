/**
 * Traces of both popup variants on small concrete pages, with their outcomes
 * proved: what a caller observes when it shows, lays out, closes and resizes,
 * one call after another.
 */
module Scenarios {
  import opened Host
  import opened VisualTree
  import opened Popup
  import opened PopupCompatibleExtensions

  /**
   * A page (element 0) holding a ScrollView at (90, 120) scrolled down by 50
   * (element 1) holding the anchor at (10, 30), of height 20 (element 2).
   */
  function ExampleTree(anchorWidth: real): Tree {
    Tree(
      map[0 := Element(0.0, 0.0, 400.0, 1000.0, Plain, None),
          1 := Element(90.0, 120.0, 300.0, 600.0, ScrollView(0.0, 50.0), Some(0)),
          2 := Element(10.0, 30.0, anchorWidth, 20.0, Plain, Some(1))],
      map[0 := 0, 1 := 1, 2 := 2])
  }

  /**
   * Element 2 of `t` is an anchor of size `anchorWidth` x 20 whose absolute
   * position is (100, 100).
   */
  ghost predicate AnchorAt100(t: Tree, anchorWidth: real) {
    && t.WellFormed() && 2 in t.nodes
    && t.nodes[2].width == anchorWidth && t.nodes[2].height == 20.0
    && AbsolutePosition(t, 2) == Point(100.0, 100.0)
  }

  /** The page of the example tree is the root, at (0, 0). */
  lemma ExampleRootPosition(anchorWidth: real)
    ensures ExampleTree(anchorWidth).WellFormed() && 0 in ExampleTree(anchorWidth).nodes
    ensures AbsolutePosition(ExampleTree(anchorWidth), 0) == Point(0.0, 0.0)
  {
    var t := ExampleTree(anchorWidth);
    assert t.WellFormed();
    AbsolutePositionStep(t, 0);
  }

  /** The ScrollView of the example tree is at (90, 70): its position minus its scroll. */
  lemma ExampleScrollViewPosition(anchorWidth: real)
    ensures ExampleTree(anchorWidth).WellFormed() && 1 in ExampleTree(anchorWidth).nodes
    ensures AbsolutePosition(ExampleTree(anchorWidth), 1) == Point(90.0, 70.0)
  {
    ExampleRootPosition(anchorWidth);
    AbsolutePositionStep(ExampleTree(anchorWidth), 1);
  }

  /** The anchor of the example tree is at (100, 100): 10 + 90 - 0 across, 30 + 120 - 50 down. */
  lemma ExampleAnchorPosition(anchorWidth: real)
    ensures AnchorAt100(ExampleTree(anchorWidth), anchorWidth)
  {
    var t := ExampleTree(anchorWidth);
    ExampleScrollViewPosition(anchorWidth);
    AbsolutePositionStep(t, 2);
  }

  /**
   * An anchored popup at an anchor of size 50 x 20 at (100, 100): once the
   * container is laid out at 80 x 40 on a page of height 1000 it sits centred
   * below the anchor; shrinking the page to 145 afterwards leaves it there, as
   * nothing listens to the page's height.
   */
  method PlacedBelowOnTallPage(tree: Tree) returns (belowX: real, belowY: real, staleY: real)
    requires AnchorAt100(tree, 50.0)
    ensures belowX == 85.0 && belowY == 130.0 && staleY == 130.0
  {
    var pageContent := new View(OtherView);
    var page := new Page(pageContent, 1000.0);
    var popup := new PopupCompatible(Some(2), true);
    var _, tracking := popup.ShowPopupAsync(page, tree);
    var container := popup.popupContainer;
    container.width := 80.0;
    tracking.OnContainerPropertyChanged(WidthProperty, tree);
    container.height := 40.0;
    tracking.OnContainerPropertyChanged(HeightProperty, tree);
    belowX, belowY := container.translationX, container.translationY;
    page.height := 145.0;
    staleY := container.translationY;
  }

  /** The same anchor and container on a page of height 145 from the start: placed above. */
  method PlacedAboveOnShortPage(tree: Tree) returns (flippedY: real)
    requires AnchorAt100(tree, 50.0)
    ensures flippedY == 50.0
  {
    var pageContent := new View(OtherView);
    var page := new Page(pageContent, 145.0);
    var popup := new PopupCompatible(Some(2), true);
    var _, tracking := popup.ShowPopupAsync(page, tree);
    popup.popupContainer.height := 40.0;
    tracking.OnContainerPropertyChanged(HeightProperty, tree);
    flippedY := popup.popupContainer.translationY;
  }

  /**
   * Closing twice: the first close removes the overlay and resolves the
   * result, the second changes nothing. The page keeps the Grid it was
   * wrapped in, now holding only the original content.
   */
  method CloseTwiceResolvesOnce(first: PopupResult, second: PopupResult)
    returns (result: ResultSlot, page: Page, content: View)
    ensures result.state == Resolved(first)
    ensures IsGrid(page.content) && page.content != content && page.content.children == [content]
  {
    content := new View(OtherView);
    page := new Page(content, 800.0);
    var popup := new PopupCompatible(None, true);
    var tracking;
    result, tracking := popup.ShowPopupAsync(page, Tree(map[], map[]));
    var overlay := popup.outsideOfPopupContainer;
    assert page.content.children == [content] + [overlay];
    RemoveFirstAppended([content], overlay);
    popup.CloseAsync(first);
    popup.CloseAsync(second);
  }

  /** An unanchored popup shown once on a fresh page whose content is not a Grid. */
  method ShownOnce() returns (popup: PopupCompatible, page: Page, content: View, first: ResultSlot)
    ensures fresh(popup) && fresh(page) && fresh(page.content) && fresh(first)
    ensures popup.Valid() && popup.anchor.None? && popup.page == page
    ensures IsGrid(page.content) && popup.outsideOfPopupContainer != null
    ensures page.content.children == [content, popup.outsideOfPopupContainer]
    ensures content.kind == OtherView && popup.outsideOfPopupContainer.kind == Grid
    ensures first == popup.tcs && first.state == Pending
  {
    content := new View(OtherView);
    page := new Page(content, 800.0);
    popup := new PopupCompatible(None, false);
    var tracking;
    first, tracking := popup.ShowPopupAsync(page, Tree(map[], map[]));
  }

  /**
   * Showing twice reuses the wrapping Grid, but the second show forgets the
   * first overlay: closing removes only the second, and the first result is
   * never resolved.
   */
  method ShowTwiceLeavesFirstOverlay()
    returns (first: ResultSlot, second: ResultSlot, grid: View, content: View)
    ensures first != second && first.state == Pending && second.state == Resolved(Null)
    ensures |grid.children| == 2 && grid.children[0] == content && grid.children[1].kind == Grid
  {
    var popup, page;
    popup, page, content, first := ShownOnce();
    grid := page.content;
    var firstOverlay := popup.outsideOfPopupContainer;
    var tracking;
    second, tracking := popup.ShowPopupAsync(page, Tree(map[], map[]));
    var secondOverlay := popup.outsideOfPopupContainer;
    assert page.content == grid && grid.children == [content, firstOverlay] + [secondOverlay];
    RemoveFirstAppended([content, firstOverlay], secondOverlay);
    popup.CloseAsync();
  }

  /** An anchored popup at an anchor of width 50 at (100, 100), shown on a fresh page. */
  method ShownAnchored(tree: Tree) returns (popup: PopupCompatible, tracking: AnchorTracking, result: ResultSlot)
    requires AnchorAt100(tree, 50.0)
    ensures fresh(popup) && fresh(tracking) && fresh(result)
    ensures popup.page != null && fresh(popup.page) && fresh(popup.page.content)
    ensures popup.popupContainer != null && fresh(popup.popupContainer)
    ensures popup.Valid() && popup.CanClose() && popup.tcs == result
    ensures tracking.popup == popup && tracking.anchor == 2
  {
    var pageContent := new View(OtherView);
    var page := new Page(pageContent, 1000.0);
    popup := new PopupCompatible(Some(2), true);
    var shown;
    result, shown := popup.ShowPopupAsync(page, tree);
    tracking := shown;
  }

  /** The popup of ShownAnchored, laid out at width 80 and closed. */
  method ClosedAfterLayout(tree: Tree) returns (popup: PopupCompatible, tracking: AnchorTracking, result: ResultSlot)
    requires AnchorAt100(tree, 50.0)
    ensures fresh(popup) && fresh(tracking) && popup.popupContainer != null && fresh(popup.popupContainer)
    ensures tracking.popup == popup && tracking.anchor == 2
    ensures popup.popupContainer.width == 80.0
    ensures result.state == Resolved(Null)
  {
    popup, tracking, result := ShownAnchored(tree);
    popup.popupContainer.width := 80.0;
    popup.CloseAsync();
  }

  /**
   * The handlers are never removed: after the popup is closed, a change of the
   * anchor's width (from 50 to 70) still moves the container, to 100 + 35 - 40.
   */
  method HandlersOutliveClose(tree: Tree, wider: Tree) returns (result: ResultSlot, x: real)
    requires AnchorAt100(tree, 50.0) && AnchorAt100(wider, 70.0)
    ensures result.state == Resolved(Null)
    ensures x == 95.0
  {
    var popup, tracking;
    popup, tracking, result := ClosedAfterLayout(tree);
    tracking.OnAnchorPropertyChanged(WidthProperty, wider);
    x := popup.popupContainer.translationX;
  }

  /**
   * A popup shown only with the extension keeps its overlay in pageContainer,
   * so PopupCompatible.CloseAsync finds no overlay: the overlay stays on the
   * page and the result stays pending.
   */
  method CloseIgnoresExtensionOverlay() returns (result: ResultSlot, grid: View, overlay: View)
    ensures result.state == Pending
    ensures |grid.children| > 0 && grid.children[|grid.children| - 1] == overlay && overlay.kind == Grid
  {
    var pageContent := new View(OtherView);
    var page := new Page(pageContent, 800.0);
    var popup := new PopupCompatible(None, true);
    var tracking;
    result, tracking := PopupCompatibleExtensions.ShowPopupAsync(page, popup, Tree(map[], map[]));
    grid := page.content;
    overlay := popup.pageContainer;
    popup.CloseAsync();
  }

  /**
   * While an overlay from PopupCompatible.ShowPopupAsync is still recorded,
   * an extension show of the same popup on the same page replaces its result
   * slot. CloseAsync then removes the class's overlay but resolves the
   * extension's slot; the class's slot stays pending and the extension's
   * overlay stays on the page.
   */
  method CloseAfterMixedShows()
    returns (classSlot: ResultSlot, extensionSlot: ResultSlot, grid: View, content: View, extensionOverlay: View)
    ensures classSlot != extensionSlot && classSlot.state == Pending
    ensures extensionSlot.state == Resolved(Object(7))
    ensures grid.children == [content, extensionOverlay] && extensionOverlay.kind == Grid
  {
    var popup, page;
    popup, page, content, classSlot := ShownOnce();
    grid := page.content;
    var classOverlay := popup.outsideOfPopupContainer;
    var tracking;
    extensionSlot, tracking := PopupCompatibleExtensions.ShowPopupAsync(page, popup, Tree(map[], map[]));
    extensionOverlay := popup.pageContainer;
    assert page.content == grid && grid.children == [content, classOverlay, extensionOverlay];
    assert content != classOverlay && classOverlay != extensionOverlay;
    assert RemoveFirst([content, classOverlay, extensionOverlay], classOverlay) == [content, extensionOverlay];
    popup.CloseAsync(Object(7));
  }

  /**
   * The extension's X offset depends on which event came last: initially the
   * anchor's midpoint (125), after a container width change (to 80) centred
   * on the container (85), after an anchor width change centred on the popup,
   * whose width (60) excludes the container's padding (95).
   */
  method ExtensionPlacementExamples(tree: Tree) returns (initialX: real, containerWidthX: real, anchorWidthX: real)
    requires AnchorAt100(tree, 50.0)
    ensures initialX == 125.0 && containerWidthX == 85.0 && anchorWidthX == 95.0
  {
    var pageContent := new View(OtherView);
    var page := new Page(pageContent, 1000.0);
    var popup := new PopupCompatible(Some(2), true);
    var _, tracking := PopupCompatibleExtensions.ShowPopupAsync(page, popup, tree);
    var container := tracking.container;
    initialX := container.translationX;
    container.width := 80.0;
    tracking.OnContainerPropertyChanged(WidthProperty, tree);
    containerWidthX := container.translationX;
    popup.body.width := 60.0;
    tracking.OnAnchorPropertyChanged(WidthProperty, tree);
    anchorWidthX := container.translationX;
  }
}
