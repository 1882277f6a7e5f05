# PopupCompatible anchored popup, modelled in Dafny

This project models the popup of the MauiMCTMigration sample: `PopupCompatible`,
a ContentView that a ContentPage shows as an overlay, and
`PopupCompatibleExtensions.ShowPopupAsync`, a second copy of the show logic
that has drifted from the first. Both are modelled as they are written,
side by side, without merging them.

What is modelled:

- **GetAbsolutePosition** (both copies) walks from an element up through its
  VisualElement parents. It adds each element's X and Y and subtracts the
  ScrollX and ScrollY of each ScrollView. The loop is proved to compute
  `VisualTree.AbsolutePosition`: the sum of the own offsets along the
  ancestor chain. Separately, that sum is shown to be the sum of the
  positions minus the sum of the scroll offsets.
- **Placement** (module `Placement`). The container is centred on the
  anchor's horizontal midpoint. It goes 10 below the anchor when
  `anchorY + anchorHeight + 10 + containerHeight < pageHeight`, and otherwise
  so that its bottom edge is 10 above the anchor. Proved: below is chosen
  exactly when the container then ends above the page's bottom edge; with
  non-negative heights the container never overlaps the anchor vertically;
  an above placement can leave the page.
- **PopupCompatible** (module `Popup`) is a class with the source's fields.
  - `ShowPopupAsync` wraps the page's content in a Grid unless it already is
    one. It adds an overlay Grid holding the scrim, the dismiss button (only
    when the popup can be dismissed by tapping outside it) and the container.
    It installs a fresh pending result slot. With an anchor it places the
    container and returns the two handlers it subscribes.
  - `CloseAsync` acts only if the page's content is a Grid and an overlay is
    recorded. It then removes that overlay, forgets it and resolves the
    result; otherwise it changes nothing, so a second close is a no-op.
- **Handlers.** `AnchorTracking` and `ExtensionAnchorTracking` model the
  PropertyChanged handlers. An anchor Width change re-centres X. A container
  Width change re-centres X. A container Height change decides below or
  above again. Any other property changes nothing.
- **PopupCompatibleExtensions** keeps its overlay in the popup's
  `pageContainer` field. It puts the popup directly in a padded container it
  does not store. The initial X is the anchor's midpoint with no centring.
  The initial below test uses the popup's height, but the above offset uses
  the container's height. Its anchor handler centres with the popup's width
  rather than the container's.
- **Scenarios** are traces of both variants on concrete pages, with their
  outcomes proved.
  - Closing twice resolves the result once and leaves the page's Grid
    holding only the original content.
  - Showing twice reuses the Grid but strands the first overlay and leaves
    its result pending.
  - The handlers keep moving the container after the popup is closed.
  - `CloseAsync` does not see an overlay shown only by the extension.
  - After a class show and then an extension show of the same popup,
    `CloseAsync` removes the class's overlay but resolves the extension's
    result.
  - Worked placement numbers for both variants.

How the host is represented:

- The MAUI visual tree that GetAbsolutePosition reads is a value (`Host.Tree`):
  a map from element ids to position, size, ScrollView scroll offset and
  VisualElement parent, with a depth map that makes the parent links acyclic.
- The views the popup creates and rearranges are heap objects
  (`Host.View`), so that wrapping, adding and removing happen in place.
- A TaskCompletionSource is a `Host.ResultSlot`: pending, or resolved once
  with a result.
- A PropertyChanged event is a call to the handler's dispatch method with
  the property's name and the current tree.

Where the code differs from what its design suggests, the model follows
the code:

- `CloseAsync` unsubscribes nothing and sets no "closed" flag. It only
  clears `outsideOfPopupContainer`. The handlers stay attached and keep
  moving the container (`Scenarios.HandlersOutliveClose`).
- Neither variant keeps the container inside the page; an above placement
  can start above the page's top edge.
- In PopupCompatible the handlers reach the container through the
  `popupContainer` field. They therefore move whichever container that
  field holds when they run, not necessarily the one they were attached
  for. The extension's handlers capture their own container.
- The extension writes `popup.pageContainer`. That field is not declared in
  PopupCompatible.cs, and `CloseAsync` never reads it. The model adds it to
  the class. When no overlay from PopupCompatible.ShowPopupAsync is still
  recorded, `CloseAsync` cannot close a popup shown by the extension: its
  overlay stays and its result stays pending
  (`Scenarios.CloseIgnoresExtensionOverlay`). When one is still recorded,
  `CloseAsync` removes that class overlay and resolves the result slot the
  extension installed, leaving the extension's overlay on the page
  (`Scenarios.CloseAfterMixedShows`).
- A second show overwrites `outsideOfPopupContainer` and `tcs`. The first
  overlay then stays on the page and its result is never set
  (`Scenarios.ShowTwiceLeavesFirstOverlay`).

## Model

| member | source | states |
|---|---|---|
| VisualTree.AncestorChain | MauiMCTMigration/PopupCompatible.cs:169-184 | the elements the walk visits: it starts at the element, all are in the tree, the last has no VisualElement parent, and there are depth + 1 of them |
| VisualTree.AncestorChainFollowsParents | MauiMCTMigration/PopupCompatible.cs:178-182 | each element of the walk is followed by its VisualElement parent |
| VisualTree.AncestorChainUnique | MauiMCTMigration/PopupCompatible.cs:178-183 | any sequence that starts at the element, follows parent links and stops at an element without a VisualElement parent is the ancestor chain |
| VisualTree.AbsolutePositionStep | MauiMCTMigration/PopupCompatible.cs:171-182 | an element's absolute position is its own offset (X, Y, minus scroll for a ScrollView) plus its parent's absolute position, or just its own offset at the root |
| VisualTree.ChainOffsetIsSumMinusScroll | MauiMCTMigration/PopupCompatible.cs:171-177 | the offset summed along a chain equals the sum of X (Y) minus the sum of ScrollX (ScrollY) of its ScrollViews |
| VisualTree.AbsolutePositionIsSumMinusScroll | MauiMCTMigration/PopupCompatible.cs:159-186 | the absolute position is X and Y summed over the element and its VisualElement ancestors minus every ScrollView's scroll offset among them |
| Popup.PopupCompatible.GetAbsolutePosition | MauiMCTMigration/PopupCompatible.cs:166-186 | the parent-walking loop returns exactly AbsolutePosition of the element |
| PopupCompatibleExtensions.GetAbsolutePosition | MauiMCTMigration/PopupCompatibleExtensions.cs:110-130 | the extension's copy of the loop returns exactly AbsolutePosition of the element |
| Placement.CentredX | MauiMCTMigration/PopupCompatible.cs:114 | the container's horizontal midpoint lands on the anchor's horizontal midpoint |
| Placement.OffsetY | MauiMCTMigration/PopupCompatible.cs:115-123 | when the container fits below, Y is the anchor's bottom plus 10 and the container ends above the page's bottom; otherwise the container's bottom is 10 above the anchor's top |
| Placement.FitsBelow | MauiMCTMigration/PopupCompatible.cs:115 | the anchorAtBottom test: the anchor's Y plus its height, the gap of 10 and the container's height is below the page's height (also at PopupCompatible.cs:142 and PopupCompatibleExtensions.cs:59, 87) |
| Placement.BelowExactlyWhenItFits | MauiMCTMigration/PopupCompatible.cs:115-123 | the container is placed 10 below the anchor and ends above the page's bottom if and only if the fit test holds |
| Placement.NeverOverlapsAnchor | MauiMCTMigration/PopupCompatible.cs:115-123 | with non-negative heights, at least 10 separates the container from the anchor vertically, whichever side is chosen |
| Placement.AbovePlacementCanLeaveThePage | MauiMCTMigration/PopupCompatible.cs:120-123 | an above placement is not clamped: an anchor at y = 5 puts a 40-high container at y = -45 |
| Placement.PlacedBelowExample | MauiMCTMigration/PopupCompatible.cs:114-119 | anchor (100, 100) of 50 x 20, container 80 x 40, page 1000: X 85, Y 130 |
| Placement.FlippedAboveExample | MauiMCTMigration/PopupCompatible.cs:115-123 | the same on a page of height 145 goes above, at Y 50 |
| Popup.PopupCompatible.constructor | MauiMCTMigration/PopupCompatible.cs:15-31 | a popup starts with its anchor and dismiss flag, no page, no overlay, no container and a pending result slot |
| Popup.PopupCompatible.CanClose | MauiMCTMigration/PopupCompatible.cs:40 | the close guard: a page is recorded, its content is a Grid, and an overlay is recorded |
| Popup.PopupCompatible.CloseAsync | MauiMCTMigration/PopupCompatible.cs:38-53 | if the page's content is a Grid and an overlay is recorded: the first occurrence of that overlay is removed from the Grid, the field is cleared and the result is resolved with the given value; otherwise the overlay field, the result and the Grid's children are unchanged |
| Popup.PopupCompatible.ShowPopupAsync | MauiMCTMigration/PopupCompatible.cs:64-157 | content wrapped in a new Grid only if not already a Grid, overlay appended last; overlay = scrim, dismiss button iff dismissible, container; container = Border then ContentView holding the popup; fresh pending result returned; no anchor: centred, no translation, no handlers; anchor: Start options, X centred, Y by the placement rule on the page's height, handlers returned |
| Popup.PopupCompatible.AttachOverlay | MauiMCTMigration/PopupCompatible.cs:66-108 | the anchor-independent part of the show: the wrapping, the overlay's layers, the fresh pending result slot and a centred untranslated container |
| Popup.PopupCompatible.WrapPageContent | MauiMCTMigration/PopupCompatible.cs:66-74 | a Grid content is kept as it is; otherwise a new Grid holding the old content (if any) becomes the content |
| Popup.PopupCompatible.NewOverlay | MauiMCTMigration/PopupCompatible.cs:77-89 | a new Grid whose layers are the scrim, the dismiss button exactly when dismissible, then the container |
| Popup.PopupCompatible.NewPopupContainer | MauiMCTMigration/PopupCompatible.cs:90-105 | a new centred Grid holding a Border and then a ContentView whose only child is the popup |
| Popup.PopupCompatible.PlaceNextToAnchor | MauiMCTMigration/PopupCompatible.cs:109-123 | Start options, X = CentredX of the anchor's absolute position, Y = OffsetY with the container's height and the page's height |
| Popup.AnchorTracking.OnAnchorWidthChanged | MauiMCTMigration/PopupCompatible.cs:126-130 | re-centres the popupContainer field's view on the anchor with its current width |
| Popup.AnchorTracking.OnContainerWidthChanged | MauiMCTMigration/PopupCompatible.cs:136-139 | re-centres the popupContainer field's view on the anchor with its current width |
| Popup.AnchorTracking.OnContainerHeightChanged | MauiMCTMigration/PopupCompatible.cs:140-151 | re-applies the below/above rule with the current container height and the captured page's height |
| Popup.AnchorTracking.OnAnchorPropertyChanged | MauiMCTMigration/PopupCompatible.cs:124-131 | a Width change re-centres X; any other property leaves X as it was |
| Popup.AnchorTracking.OnContainerPropertyChanged | MauiMCTMigration/PopupCompatible.cs:132-153 | Width re-centres X and keeps Y; Height re-places Y and keeps X; anything else keeps both |
| PopupCompatibleExtensions.InitialOffsetX | MauiMCTMigration/PopupCompatibleExtensions.cs:60 | the initial X is the centred X of a container of width 0, i.e. the anchor's midpoint |
| PopupCompatibleExtensions.InitialOffsetXCentredOnlyWhenWidthless | MauiMCTMigration/PopupCompatibleExtensions.cs:60 | the initial X equals the centred X if and only if the container's width is 0 |
| PopupCompatibleExtensions.InitialOffsetY | MauiMCTMigration/PopupCompatibleExtensions.cs:59-68 | below (anchor's bottom + 10) when the popup's height fits; otherwise the container's bottom 10 above the anchor |
| PopupCompatibleExtensions.InitialOffsetYAgreesForEqualHeights | MauiMCTMigration/PopupCompatibleExtensions.cs:59-68 | with equal popup and container heights the initial Y is the shared placement rule |
| PopupCompatibleExtensions.InitialBelowTestCanOverflow | MauiMCTMigration/PopupCompatibleExtensions.cs:59-68 | a 40-high popup in a 60-high container passes the below test on a page of 175 and the container overflows the page, where the shared rule would place it above at 30 |
| PopupCompatibleExtensions.NewOverlay | MauiMCTMigration/PopupCompatibleExtensions.cs:31-52 | a new Grid of scrim, dismiss button exactly when dismissible, then a new centred container whose only child is the popup |
| PopupCompatibleExtensions.PlaceNextToAnchor | MauiMCTMigration/PopupCompatibleExtensions.cs:54-68 | Start options, X = InitialOffsetX, Y = InitialOffsetY with the popup's and the container's heights |
| PopupCompatibleExtensions.AttachOverlay | MauiMCTMigration/PopupCompatibleExtensions.cs:21-53 | the wrapping, the popup's page, pageContainer and fresh pending result slot, and the overlay appended last to the Grid |
| PopupCompatibleExtensions.ShowPopupAsync | MauiMCTMigration/PopupCompatibleExtensions.cs:19-101 | the same wrapping and layers as the class's show, kept in pageContainer; no anchor: centred, untranslated; anchor: Start options, initial X and Y as above, handlers returned; outsideOfPopupContainer and popupContainer untouched |
| PopupCompatibleExtensions.ExtensionAnchorTracking.OnAnchorWidthChanged | MauiMCTMigration/PopupCompatibleExtensions.cs:71-75 | re-centres the captured container using the popup's width |
| PopupCompatibleExtensions.ExtensionAnchorTracking.OnContainerWidthChanged | MauiMCTMigration/PopupCompatibleExtensions.cs:81-84 | re-centres the captured container using its own width |
| PopupCompatibleExtensions.ExtensionAnchorTracking.OnContainerHeightChanged | MauiMCTMigration/PopupCompatibleExtensions.cs:85-96 | re-applies the shared below/above rule with the container's height |
| PopupCompatibleExtensions.ExtensionAnchorTracking.OnAnchorPropertyChanged | MauiMCTMigration/PopupCompatibleExtensions.cs:69-76 | a Width change re-centres X with the popup's width; any other property leaves X as it was |
| PopupCompatibleExtensions.ExtensionAnchorTracking.OnContainerPropertyChanged | MauiMCTMigration/PopupCompatibleExtensions.cs:77-98 | Width re-centres X and keeps Y; Height re-places Y and keeps X; anything else keeps both |
| Host.View.Add | MauiMCTMigration/PopupCompatible.cs:71-108 | Grid.Add appends the child after the existing children and changes nothing else |
| Host.View.Remove | MauiMCTMigration/PopupCompatible.cs:48 | Grid.Remove drops the first occurrence of the child from the children and changes nothing else |
| Host.RemoveFirst | MauiMCTMigration/PopupCompatible.cs:48 | removing a view not among the children leaves them as they are; removing one that is shortens them by one |
| Host.RemoveFirstAtIndex | MauiMCTMigration/PopupCompatible.cs:48 | the removal cuts out exactly the first occurrence, and the children lose one copy of the removed view and nothing else |
| Host.RemoveFirstAppended | MauiMCTMigration/PopupCompatible.cs:48 | removing the overlay that a show appended last restores the children the Grid had before that show |
| Host.ResultSlot.SetResult | MauiMCTMigration/PopupCompatible.cs:51 | a pending result becomes resolved with the given value |
| Scenarios.ExampleAnchorPosition | MauiMCTMigration/PopupCompatible.cs:166-186 | an anchor at (10, 30) inside a ScrollView at (90, 120) scrolled by 50 is at (100, 100) |
| Scenarios.PlacedBelowOnTallPage | MauiMCTMigration/PopupCompatible.cs:132-151 | after the container's Width (80) and Height (40) events on a page of 1000 it is at (85, 130); shrinking the page to 145 afterwards leaves Y at 130 |
| Scenarios.PlacedAboveOnShortPage | MauiMCTMigration/PopupCompatible.cs:140-150 | on a page of 145 the container's Height event puts a 40-high container above, at Y 50 |
| Scenarios.CloseTwiceResolvesOnce | MauiMCTMigration/PopupCompatible.cs:38-53 | after show and two closes the result holds the first close's value and the page's Grid holds only the original content |
| Scenarios.ShowTwiceLeavesFirstOverlay | MauiMCTMigration/PopupCompatible.cs:66-79 | show, show, close: the Grid is reused, the first overlay stays on it, the first result stays pending and the second is resolved |
| Scenarios.HandlersOutliveClose | MauiMCTMigration/PopupCompatible.cs:124-131 | after the popup is closed, an anchor Width change from 50 to 70 still moves the container, to X 95 |
| Scenarios.CloseIgnoresExtensionOverlay | MauiMCTMigration/PopupCompatibleExtensions.cs:30-53 | after an extension show, CloseAsync leaves the overlay on top of the Grid and the result pending |
| Scenarios.CloseAfterMixedShows | MauiMCTMigration/PopupCompatible.cs:38-53 | class show, extension show of the same popup, CloseAsync(7): the class overlay is removed, the Grid holds the content and the extension's overlay, the extension's slot is resolved with 7 and the class's slot stays pending |
| Scenarios.ExtensionPlacementExamples | MauiMCTMigration/PopupCompatibleExtensions.cs:56-84 | initial X 125; after a container Width event (80) X 85; after an anchor Width event with the popup 60 wide X 95 |

## Left out

- MainPage.xaml.cs and MauiProgram.cs are not part of this model: they only use the popup and set up the app.
- The ScaleTo animations, their easing and the Dispatcher hop in CloseAsync are left out. They change no modelled state, and the removal and the clearing of the field happen together in the model.
- Asynchrony is left out. Awaiting the result is modelled as reading the result slot's state. Concurrent or interleaved closes are not modelled; calls run one after the other.
- Popup.PopupCompatible.AttachOverlay: assembles the overlay before adding it to the page's Grid, where the source adds it first and fills it afterwards; nothing observes the difference.
- Colors, opacity, the Border's stroke and corner radius, padding values and the Color property are left out: they affect drawing, not structure or placement.
- Coordinates and sizes are reals, not IEEE doubles: rounding is not modelled.
- PropertyChanged subscription is modelled by returning the handler objects from the show. Calling their dispatch methods stands for an event. The source never removes the handlers, so the model has no teardown.
- Parent links between the popup's own views are not tracked. The visual tree passed to the handlers is whatever the caller supplies for the anchor. Reparenting and the popup's own position in that tree are not modelled.
- Layout (measuring) is not modelled. Widths and heights of views are fields the caller sets; a new view starts unmeasured at -1.
- Popup.PopupCompatible.ShowPopupAsync: the returned result slot is the one installed by this show. The source reads `tcs` only after awaiting the 100 ms scale-in (PopupCompatible.cs:155-156), so a second show during that time makes the first caller await the second show's slot; the model does not capture this.
- The dismiss button's command (a call to CloseAsync with the default null result) is not wired up. A tap is modelled as calling `CloseAsync()` directly.
