# Node canvas interaction engine (SIMemo), modelled in Dafny

SIMemo is a macOS editor with a canvas of rectangular code nodes, a file tree
and a code preview. This project models the interaction logic of that canvas
and of its two small companions:

- the node record (`Node`) and the viewport state (`CanvasState`);
- the per-node controller (`NodeViewModel`): the selection and resizing flags,
  position updates, and resize requests floored at a minimum size (150 by 75
  by default);
- the node view: the clamp that keeps a dragged node's centre inside the
  visible extent, the inclusive rectangle overlap test, the overlap scan
  over the other controllers, the two-state drag machine, the fill choice,
  the drawn position and the resize modifier;
- the split-pane divider, which clamps a pane size into `[minSize, maxSize]`
  on every drag sample;
- the file tree's expansion toggle over the shared set of expanded locations.

`CGFloat` is `real`, `CGPoint` and `CGSize` are the records `Point` and `Size`;
all arithmetic is exact. UUIDs become identifiers passed to the constructors.
The application-wide state object is an external collaborator. Its list of
controllers is passed to the drag machine as a parameter. Its `selectNode`
call is a hook: the node view records, in `selectRequests`, the identifier it
hands over. A URL is a `string`. `url.hasDirectoryPath` is a constructor
argument. A file listing arrives through `ChildrenLoaded`.

Modules: `Geometry` (records, clamps, size floor, overlap), `Wrappers`
(`Option`), `NodeModel`, `Canvas`, `Controller`, `NodeViews`, `Divider`,
`FileNavigation`. State that the source changes in place is a class whose
methods have field-level `modifies` frames. The frames themselves prove that
nothing else changes, e.g. `Select` changes only `isSelected`, and
`UpdateSize` changes only the node's `size`.

Behaviour of the code worth knowing when reading the model:
- The clamp also runs when the visible extent is zero or smaller than the
  node. `max` is applied last, so the centre then sits at half the node's
  extent (`LimitCollapsesWhenViewportTooSmall`).
- The node drag has minimum distance 0 and no cancel handler.
- The resize modifier's live gesture state is never read. Only the end of
  the gesture changes the size.

## Model

| member | source | states |
|---|---|---|
| `Geometry.ClampLowWins` | SimpleMemo/CodingNode/NodeCanvas/NodeView.swift:144-145 | `max(lo, min(v, hi))` is never below `lo`, and never above `hi` when `lo <= hi`. It is exactly `lo` when the range is empty. It returns `v` unchanged when `v` is in range, and the nearer bound otherwise. |
| `Geometry.ClampHighWins` | SimpleMemo/CodingNode/NodeCanvas/NodeView.swift:93-94 | `min(max(v, lo), hi)` is never above `hi`, and never below `lo` when `lo <= hi`. It is exactly `hi` when the range is empty. It returns `v` unchanged when `v` is in range. |
| `Geometry.ClampLowWinsIdempotent` | SimpleMemo/CodingNode/Components/DragDivider.swift:33 | Clamping an already clamped value changes nothing. |
| `Geometry.ClampOrdersAgree` | SimpleMemo/CodingNode/NodeCanvas/NodeView.swift:93-94 | The two clamp orders give the same value exactly when `lo <= hi`. They differ whenever the range is empty. |
| `Geometry.Displacement` | SimpleMemo/CodingNode/NodeCanvas/NodeView.swift:122-125 | The drag offset from the committed centre to the target, added back to that centre, gives the target. |
| `Geometry.FloorSize` | SimpleMemo/SimpleMemo/NodeCanvas/NodeViewModel.swift:46-51 | Each dimension of the result reaches its minimum. A size already at or above the minimum is returned unchanged. A dimension below its minimum becomes the minimum, and every other dimension keeps its requested value. |
| `Geometry.FloorSizeIdempotent` | SimpleMemo/SimpleMemo/NodeCanvas/NodeViewModel.swift:46-51 | Flooring a floored size changes nothing. |
| `Geometry.NodesOverlap` | SimpleMemo/CodingNode/NodeCanvas/NodeView.swift:158-170 | The edge test holds iff the centres are at most half the summed widths apart horizontally and at most half the summed heights apart vertically, so touching edges count. |
| `Geometry.NodesOverlapSymmetric` | SimpleMemo/CodingNode/NodeCanvas/NodeView.swift:158-170 | The overlap test gives the same answer with its two rectangles swapped. |
| `Geometry.NodesOverlapIffCommonPoint` | SimpleMemo/CodingNode/NodeCanvas/NodeView.swift:158-170 | For sizes that are not negative, the edge test holds iff some point lies in both closed rectangles. Touching edges therefore count. |
| `Geometry.NodesOverlapExamples` | SimpleMemo/CodingNode/NodeCanvas/NodeView.swift:158-170 | With 150 by 75 nodes, centres (200,200) and (220,200) overlap. Centres (100,100) and (400,400) do not. Rectangles touching at a corner overlap. |
| `NodeModel.Node.constructor` | SimpleMemo/CodingNode/NodeCanvas/NodeModel.swift:11-28 | Stores the identifier, code, position and size as given, with no check on the size. |
| `NodeModel.Node.WithDefaultSize` | SimpleMemo/CodingNode/NodeCanvas/NodeModel.swift:24-28 | With the size omitted, the node is 150 by 75. |
| `NodeModel.FieldsAreIndependent` | SimpleMemo/CodingNode/NodeCanvas/NodeModel.swift:14-28 | A node can be created below the controller minimum. Changing `code` or `position` leaves the other fields as they were. |
| `Canvas.CanvasState.constructor` | CodingNode/CodingNode/NodeCanvas/CanvasState.swift:14-17 | Stores both extents unchanged. |
| `Canvas.CanvasState.WithDefaults` | CodingNode/CodingNode/NodeCanvas/CanvasState.swift:14 | By default the total extent is 2000 by 2000 and the visible extent is zero. |
| `Canvas.CanvasState.UpdateVisibleSize` | SimpleMemo/CodingNode/NodeCanvas/NodeCanvasView.swift:55-60 | The measured container size replaces the visible extent. The total extent is untouched. |
| `Controller.NodeViewModel.constructor` | SimpleMemo/SimpleMemo/NodeCanvas/NodeViewModel.swift:13-26 | Stores the given node itself, without clamping its size. Both flags start false, and the minimums are stored as given. |
| `Controller.NodeViewModel.WithDefaultMinimums` | SimpleMemo/SimpleMemo/NodeCanvas/NodeViewModel.swift:22-26 | With the minimums omitted, they are 150 and 75. |
| `Controller.NodeViewModel.SetPositionBinding` | SimpleMemo/SimpleMemo/NodeCanvas/NodeViewModel.swift:28-33 | The position binding's setter writes the node's position and nothing else. |
| `Controller.NodeViewModel.SetSizeBinding` | SimpleMemo/SimpleMemo/NodeCanvas/NodeViewModel.swift:35-40 | The size binding's setter writes the node's size unclamped and nothing else. |
| `Controller.NodeViewModel.UpdatePosition` | SimpleMemo/SimpleMemo/NodeCanvas/NodeViewModel.swift:42-44 | Overwrites the node's position without clamping. The size is unchanged. |
| `Controller.NodeViewModel.UpdateSize` | SimpleMemo/SimpleMemo/NodeCanvas/NodeViewModel.swift:46-51 | Stores the floored request, which is never below the minimum. A request at or above the minimum is stored exactly. Only the node's size changes. |
| `Controller.NodeViewModel.Select` | SimpleMemo/SimpleMemo/NodeCanvas/NodeViewModel.swift:53-55 | Sets `isSelected`, and only it. Calling it again gives the same state. |
| `Controller.NodeViewModel.Deselect` | SimpleMemo/SimpleMemo/NodeCanvas/NodeViewModel.swift:57-59 | Clears `isSelected`, and only it. |
| `Controller.NodeViewModel.StartResizing` | SimpleMemo/SimpleMemo/NodeCanvas/NodeViewModel.swift:61-63 | Sets `isResizing`, and only it. |
| `Controller.NodeViewModel.StopResizing` | SimpleMemo/SimpleMemo/NodeCanvas/NodeViewModel.swift:65-67 | Clears `isResizing`, and only it. |
| `Controller.ResizeScenario` | SimpleMemo/SimpleMemo/NodeCanvas/NodeViewModel.swift:28-51 | Re-committing the current size after an `UpdateSize` is a no-op. The size binding can store 10 by 10, and `UpdateSize` then raises it to 150 by 75. |
| `NodeViews.LimitPositionToCanvas` | SimpleMemo/CodingNode/NodeCanvas/NodeView.swift:141-147 | The clamped centre is at least half the node's size on both axes. It is at most the visible extent minus half the size on each axis where the visible extent holds the node. |
| `NodeViews.LimitFixesInsidePositions` | SimpleMemo/CodingNode/NodeCanvas/NodeView.swift:141-147 | A centre already inside the visible extent is returned unchanged. A clamped centre lies inside whenever the extent holds the node. Clamping is idempotent. |
| `NodeViews.LimitCollapsesWhenViewportTooSmall` | SimpleMemo/CodingNode/NodeCanvas/NodeView.swift:144-145 | On an axis where the visible extent is smaller than the node (the zero extent included), the clamped coordinate is exactly half the node's size. |
| `NodeViews.RenderedPosition` | SimpleMemo/CodingNode/NodeCanvas/NodeView.swift:92-95 | Before the drag offset is added, the drawn centre is never beyond the visible extent minus half the node's size. It is at least half the node's size on each axis where the visible extent holds the node. |
| `NodeViews.RenderedClampVersusDragClamp` | SimpleMemo/CodingNode/NodeCanvas/NodeView.swift:92-95 | When the visible extent holds the node, the drawn position with no offset equals the drag clamp. On an axis where it does not, the drawn coordinate is visible minus half, which is below the drag clamp's half. |
| `NodeViews.CommitDoesNotJump` | SimpleMemo/CodingNode/NodeCanvas/NodeView.swift:92-95 | For a node committed inside an extent that holds it, the node is drawn at the clamped target during the last sample. After the commit it is drawn at the same target. |
| `NodeViews.DragClampExample` | SimpleMemo/CodingNode/NodeCanvas/NodeView.swift:141-147 | Visible 400 by 300, node 150 by 75 at (200,150), translation (500,0): the clamped target is (325,150). |
| `NodeViews.DragState.Translation` | SimpleMemo/CodingNode/NodeCanvas/NodeView.swift:177-184 | The translation is zero when inactive, and otherwise the stored one. |
| `NodeViews.DragState.IsActive` | SimpleMemo/CodingNode/NodeCanvas/NodeView.swift:186-193 | A state that is not active reports a zero translation. |
| `NodeViews.NodeView.Valid` | SimpleMemo/CodingNode/NodeCanvas/NodeView.swift:130-138 | The view's invariant: between gestures the offset is zero and the overlap flag is clear, and during a gesture the stored translation is zero. So the drag state's translation is always zero. |
| `NodeViews.BackgroundColor` | SimpleMemo/CodingNode/NodeCanvas/NodeView.swift:100-107 | The selected fill is used iff the node is being dragged or its controller is selected. |
| `NodeViews.NodeView.constructor` | SimpleMemo/CodingNode/NodeCanvas/NodeView.swift:71-73 | A view starts inactive, with a zero offset, the overlap flag cleared and no selection requests. |
| `NodeViews.NodeView.CheckOverlapping` | SimpleMemo/CodingNode/NodeCanvas/NodeView.swift:149-156 | True iff some controller in the list has a different identifier, and its committed rectangle meets the candidate rectangle of this node's size. The dragged node's own controller never counts. |
| `NodeViews.NodeView.OnChanged` | SimpleMemo/CodingNode/NodeCanvas/NodeView.swift:111-129 | Every sample enters or stays in `Dragging(zero)`. Only the first sample of a gesture hands this controller to the selection hook. The offset takes the committed centre to the clamped target. The overlap flag is the overlap scan at that target. The node is not changed. |
| `NodeViews.NodeView.OnEnded` | SimpleMemo/CodingNode/NodeCanvas/NodeView.swift:130-138 | Adds the offset into the committed centre whatever the overlap flag says. It returns to `Inactive` with a zero offset and the flag cleared. An end with no sample before it leaves the centre unchanged. |
| `NodeViews.Gesture` | SimpleMemo/CodingNode/NodeCanvas/NodeView.swift:109-139 | Two samples and an end commit the clamp of the start centre plus the last translation. The selection hook is called exactly once. |
| `NodeViews.DragScenario` | SimpleMemo/CodingNode/NodeCanvas/NodeView.swift:109-156 | The 400 by 300 scenario commits (325,150) even though another node overlaps the target. |
| `NodeViews.ResizableNodeModifier.Frame` | SimpleMemo/CodingNode/NodeCanvas/NodeView.swift:36-37 | The laid-out frame is never below the minimum, and it equals the size when the size reaches the minimum. It is the same floor the controller applies to resize requests. |
| `NodeViews.ResizableNodeModifier.constructor` | SimpleMemo/CodingNode/NodeCanvas/NodeView.swift:29-32 | Stores the bound size and the minimum. The live gesture state starts at zero. |
| `NodeViews.ResizableNodeModifier.OnUpdating` | SimpleMemo/CodingNode/NodeCanvas/NodeView.swift:44-46 | The live gesture state takes the current translation. |
| `NodeViews.ResizableNodeModifier.OnEnded` | SimpleMemo/CodingNode/NodeCanvas/NodeView.swift:47-51 | Commits the size plus the translation, floored at the minimum. The result is never below the minimum, and it is exactly the sum when the sum reaches the minimum. |
| `Divider.Delta` | SimpleMemo/CodingNode/Components/DragDivider.swift:30-32 | The delta is the horizontal translation for a vertical divider and the vertical one otherwise, negated when reversed. It is zero iff that component is zero. |
| `Divider.Step` | SimpleMemo/CodingNode/Components/DragDivider.swift:33 | The new size is at least `minSize`, and at most `maxSize` when `minSize <= maxSize`. It is exactly `minSize` when the bounds are inverted. It is the previous size plus the delta when that sum is in bounds. |
| `Divider.StepFixedPoints` | SimpleMemo/CodingNode/Components/DragDivider.swift:33 | A zero translation leaves an in-bounds size unchanged, and the clamp step is idempotent. |
| `Divider.Replay` | SimpleMemo/CodingNode/Components/DragDivider.swift:29-34 | No samples leave the size unchanged. After at least one sample the size is at least `minSize`, and at most `maxSize` when the bounds are ordered. |
| `Divider.ReplayAccumulates` | SimpleMemo/CodingNode/Components/DragDivider.swift:29-34 | While every partial sum stays in bounds, the size after a sequence of samples is the start plus the SUM of all their deltas. Translations 5 and then 10 move the pane by 15, not 10. |
| `Divider.ReplayStaysInBounds` | SimpleMemo/CodingNode/Components/DragDivider.swift:29-34 | From an in-bounds start, the size stays in bounds after every prefix of samples. |
| `Divider.DragDivider.constructor` | SimpleMemo/CodingNode/Components/DragDivider.swift:14-18 | Stores the bound size, both bounds, the axis and the direction. |
| `Divider.DragDivider.WithDefaultDirection` | SimpleMemo/CodingNode/Components/DragDivider.swift:14-18 | With the direction omitted, the divider is not reversed, as the window's first divider is created. |
| `Divider.DragDivider.OnChanged` | SimpleMemo/CodingNode/Components/DragDivider.swift:29-34 | One sample replaces the bound size with `Step` of the previous size, and so keeps it within the bounds. |
| `Divider.PaneMaxSize` | SimpleMemo/SimpleMemo/MainWindow/ContentView.swift:82-85 | The maximum is half the window width. It reaches the minimum of 100 iff the window is at least 200 wide. |
| `Divider.PaneBounds` | SimpleMemo/SimpleMemo/MainWindow/ContentView.swift:69-72 | With the window's bounds (100 and half the width), a sample keeps the pane in `[100, width/2]` when the width is at least 200. Otherwise it pins the pane at 100. |
| `Divider.RepeatedSampleCountsTwice` | SimpleMemo/CodingNode/Components/DragDivider.swift:29-34 | As written, two samples reporting the same displacement move the pane by twice that displacement. |
| `Divider.RepeatedSampleExample` | SimpleMemo/CodingNode/Components/DragDivider.swift:29-34 | A divider at 200 dragged 10 and held for two samples ends at 220 instead of 210. |
| `Divider.IntendedSize` | SimpleMemo/CodingNode/Components/DragDivider.swift:29-34 | The corrected size stays within the bounds. It moves from the gesture's start by exactly the pointer's delta whenever that is in bounds. |
| `Divider.BaselineDragDivider.constructor` | SimpleMemo/CodingNode/Components/DragDivider.swift:14-18 | The corrected divider stores the same parameters and starts with no baseline. |
| `Divider.BaselineDragDivider.OnChanged` | SimpleMemo/CodingNode/Components/DragDivider.swift:29-34 | The corrected divider keeps the size at the first sample as its baseline. Each sample sets the size to `IntendedSize` from that baseline. |
| `Divider.BaselineDragDivider.OnEnded` | SimpleMemo/CodingNode/Components/DragDivider.swift:29-34 | The corrected divider drops its baseline at the end of the gesture. |
| `Divider.BaselineScenario` | SimpleMemo/CodingNode/Components/DragDivider.swift:29-34 | With the baseline kept, a repeated sample leaves the pane at 210. |
| `FileNavigation.Toggle` | SimpleMemo/CodingNode/FileNavigation/FileNavigationView.swift:157-164 | The toggled location's membership flips, and every other location's membership is unchanged. |
| `FileNavigation.ToggleTwiceRestores` | SimpleMemo/CodingNode/FileNavigation/FileNavigationView.swift:157-164 | Toggling twice restores the original set. |
| `FileNavigation.ExpansionState.constructor` | SimpleMemo/CodingNode/FileNavigation/FileNavigationView.swift:96-97 | The one set of expanded locations that every row is bound to. It starts empty, as the application state declares it. |
| `FileNavigation.FileItemView.constructor` | SimpleMemo/CodingNode/FileNavigation/FileNavigationView.swift:113-116 | A row stores its location and the shared set. It has no listing yet and has requested none. |
| `FileNavigation.FileItemView.ToggleExpansion` | SimpleMemo/CodingNode/FileNavigation/FileNavigationView.swift:157-164 | The shared set becomes `Toggle` of the old set. A listing is requested only when the location was inserted. |
| `FileNavigation.FileItemView.OnTap` | SimpleMemo/CodingNode/FileNavigation/FileNavigationView.swift:136-140 | A tap toggles a directory row. On a file row it changes nothing. |
| `FileNavigation.FileItemView.ChildrenLoaded` | SimpleMemo/CodingNode/FileNavigation/FileNavigationView.swift:172-174 | A delivered listing becomes the row's children. |
| `FileNavigation.FileItemView.ShownChildren` | SimpleMemo/CodingNode/FileNavigation/FileNavigationView.swift:143-148 | Children are shown only for an expanded directory with a delivered listing, and then they are that listing. A missing listing shows as empty. |
| `FileNavigation.TapScenario` | SimpleMemo/CodingNode/FileNavigation/FileNavigationView.swift:136-164 | Tapping a directory twice restores the shared set, with one listing requested. Tapping a file requests nothing. |

## Left out

- Selection exclusivity (`selectNode`, `deselectAllNodes`, the selected controller) lives in the application state object. It is not part of this model: the node view only records the identifier it hands to `selectNode`, and no exclusivity property is claimed.
- `NodeViews.NodeView.OnChanged`: the selection hook's effect is not applied. The source's `selectNode` sets `isSelected` on the dragged controller and clears it on the previously selected one; the model only records the request, and its frame leaves every controller's `isSelected` unchanged.
- The canvas-wide tap that calls `deselectAllNodes` is not modelled, for the same reason.
- Loading a directory listing (file-system enumeration on a background queue, then a hop to the main queue) is I/O and threading. Only the final assignment (`ChildrenLoaded`) and the number of requests are modelled.
- Floating-point behaviour (NaN, infinities, rounding) is not modelled; coordinates are exact reals.
- Rendering is not modelled: colours, fonts, shadows, opacity, cursors, the grid background, window chrome and layout. `Fill` only names which of the two node fills is chosen, and the overlap flag's effect on opacity is left out.
- The older duplicate node view (`SimpleMemo/CodingNode/NodeView.swift`) is not part of this model.
- Reactive publishing (`@Published`, observers being notified) is not modelled. Every field update is an ordinary assignment.

## Findings

| source | as written | input that shows it | evidently intended | confidence | as-written member | corrected member |
|---|---|---|---|---|---|---|
| SimpleMemo/CodingNode/Components/DragDivider.swift:29-34 | Each sample adds the gesture's translation (measured from the start of the gesture) to the size the previous sample already moved. | Vertical divider at 200, bounds 100 and 500, two samples both reporting a translation of (10, 0): the size ends at 220. | The size at the start of the gesture moved by the current translation, clamped: 210. | medium, not executed | `Divider.RepeatedSampleCountsTwice` (with `Divider.ReplayAccumulates`, `Divider.RepeatedSampleExample`, `Divider.DragDivider.OnChanged`) | `Divider.IntendedSize` (with `Divider.BaselineDragDivider.OnChanged`, `Divider.BaselineScenario`) |
