// The node view's interaction logic: clamping a dragged node into the
// visible extent, the overlap feedback, the two-state drag machine that
// commits the clamped offset at the end of the gesture, and the resize
// modifier that floors a resized size at a minimum.
module NodeViews {
  import opened Geometry
  import opened NodeModel
  import opened Canvas
  import opened Controller

  // ---------------------------------------------------------------------
  // Pure geometry of one node

  /** The drag clamp: each coordinate is limited to
      [half the node's extent, visible extent - half], the lower bound
      applied last. Only the visible extent is consulted. */
  function LimitPositionToCanvas(p: Point, nodeSize: Size, visible: Size): (r: Point)
    ensures r.x >= nodeSize.width / 2.0 && r.y >= nodeSize.height / 2.0
    ensures visible.width >= nodeSize.width ==> r.x <= visible.width - nodeSize.width / 2.0
    ensures visible.height >= nodeSize.height ==> r.y <= visible.height - nodeSize.height / 2.0
  {
    Point(ClampLowWins(p.x, nodeSize.width / 2.0, visible.width - nodeSize.width / 2.0),
          ClampLowWins(p.y, nodeSize.height / 2.0, visible.height - nodeSize.height / 2.0))
  }

  /** The centre keeps the whole node rectangle inside [0, visible]. */
  predicate InsideVisible(p: Point, nodeSize: Size, visible: Size) {
    nodeSize.width / 2.0 <= p.x <= visible.width - nodeSize.width / 2.0 &&
    nodeSize.height / 2.0 <= p.y <= visible.height - nodeSize.height / 2.0
  }

  /** A position already inside the visible extent is left alone, a clamped
      position is inside whenever the extent can hold the node, and clamping
      twice is clamping once. */
  lemma LimitFixesInsidePositions(p: Point, nodeSize: Size, visible: Size)
    ensures InsideVisible(p, nodeSize, visible) ==> LimitPositionToCanvas(p, nodeSize, visible) == p
    ensures AtLeast(visible, nodeSize) ==> InsideVisible(LimitPositionToCanvas(p, nodeSize, visible), nodeSize, visible)
    ensures LimitPositionToCanvas(LimitPositionToCanvas(p, nodeSize, visible), nodeSize, visible)
         == LimitPositionToCanvas(p, nodeSize, visible)
  {
    var r := LimitPositionToCanvas(p, nodeSize, visible);
    ClampLowWinsIdempotent(p.x, nodeSize.width / 2.0, visible.width - nodeSize.width / 2.0);
    ClampLowWinsIdempotent(p.y, nodeSize.height / 2.0, visible.height - nodeSize.height / 2.0);
  }

  /** On an axis where the visible extent is smaller than the node (the zero
      extent before the first layout included) the coordinate collapses to
      half the node's extent, wherever the node was dragged. */
  lemma LimitCollapsesWhenViewportTooSmall(p: Point, nodeSize: Size, visible: Size)
    ensures visible.width < nodeSize.width ==> LimitPositionToCanvas(p, nodeSize, visible).x == nodeSize.width / 2.0
    ensures visible.height < nodeSize.height ==> LimitPositionToCanvas(p, nodeSize, visible).y == nodeSize.height / 2.0
  {
  }

  /** Where the node is drawn: each committed coordinate clamped with the
      upper bound applied last, plus the transient drag offset. */
  function RenderedPosition(p: Point, nodeSize: Size, visible: Size, dragOffset: Size): (r: Point)
    ensures r.x - dragOffset.width <= visible.width - nodeSize.width / 2.0
    ensures r.y - dragOffset.height <= visible.height - nodeSize.height / 2.0
    ensures visible.width >= nodeSize.width ==> r.x - dragOffset.width >= nodeSize.width / 2.0
    ensures visible.height >= nodeSize.height ==> r.y - dragOffset.height >= nodeSize.height / 2.0
  {
    Point(ClampHighWins(p.x, nodeSize.width / 2.0, visible.width - nodeSize.width / 2.0) + dragOffset.width,
          ClampHighWins(p.y, nodeSize.height / 2.0, visible.height - nodeSize.height / 2.0) + dragOffset.height)
  }

  /** The drawn clamp and the drag clamp agree when the visible extent can
      hold the node, and disagree on an axis where it cannot: the drawn
      coordinate is then visible - half, the drag clamp's is half. */
  lemma RenderedClampVersusDragClamp(p: Point, nodeSize: Size, visible: Size)
    ensures AtLeast(visible, nodeSize) ==>
      RenderedPosition(p, nodeSize, visible, ZeroSize) == LimitPositionToCanvas(p, nodeSize, visible)
    ensures visible.width < nodeSize.width ==>
      RenderedPosition(p, nodeSize, visible, ZeroSize).x == visible.width - nodeSize.width / 2.0 &&
      RenderedPosition(p, nodeSize, visible, ZeroSize).x < LimitPositionToCanvas(p, nodeSize, visible).x
    ensures visible.height < nodeSize.height ==>
      RenderedPosition(p, nodeSize, visible, ZeroSize).y == visible.height - nodeSize.height / 2.0 &&
      RenderedPosition(p, nodeSize, visible, ZeroSize).y < LimitPositionToCanvas(p, nodeSize, visible).y
  {
    ClampOrdersAgree(p.x, nodeSize.width / 2.0, visible.width - nodeSize.width / 2.0);
    ClampOrdersAgree(p.y, nodeSize.height / 2.0, visible.height - nodeSize.height / 2.0);
  }

  /** For a node committed inside a visible extent that can hold it, the
      node is drawn in the same place just before the commit (committed
      position plus the drag offset) and just after it (the new committed
      position, no offset): the commit does not make the node jump. */
  lemma CommitDoesNotJump(p: Point, nodeSize: Size, visible: Size, translation: Size)
    requires AtLeast(visible, nodeSize) && InsideVisible(p, nodeSize, visible)
    ensures var target := LimitPositionToCanvas(Offset(p, translation), nodeSize, visible);
      RenderedPosition(p, nodeSize, visible, Displacement(p, target))
        == RenderedPosition(target, nodeSize, visible, ZeroSize)
        == target
  {
    var target := LimitPositionToCanvas(Offset(p, translation), nodeSize, visible);
    LimitFixesInsidePositions(Offset(p, translation), nodeSize, visible);
    RenderedClampVersusDragClamp(p, nodeSize, visible);
    RenderedClampVersusDragClamp(target, nodeSize, visible);
    LimitFixesInsidePositions(p, nodeSize, visible);
    LimitFixesInsidePositions(target, nodeSize, visible);
  }

  /** A drag scenario: visible 400 by 300, a 150 by 75
      node at (200, 150) dragged by (500, 0) is clamped to (325, 150). */
  lemma DragClampExample()
    ensures LimitPositionToCanvas(Offset(Point(200.0, 150.0), Size(500.0, 0.0)), Size(150.0, 75.0), Size(400.0, 300.0))
         == Point(325.0, 150.0)
  {
  }

  // ---------------------------------------------------------------------
  // Drag state and the background fill it selects

  datatype DragState = Inactive | Dragging(translation: Size) {
    /** The stored translation, zero when inactive. */
    function Translation(): (t: Size)
      ensures Inactive? ==> t == ZeroSize
      ensures Dragging? ==> t == translation
    {
      match this
      case Inactive => ZeroSize
      case Dragging(t) => t
    }

    /** Whether a gesture is in progress; between gestures the stored
        translation reads as zero. */
    predicate IsActive(): (active: bool)
      ensures !active ==> Translation() == ZeroSize
    {
      Dragging?
    }
  }

  datatype Fill = NodeBackground | SelectedFill

  /** A dragged node is always drawn with the selected fill; otherwise the
      fill follows the controller's selection flag. */
  function BackgroundColor(state: DragState, isSelected: bool): (f: Fill)
    ensures f == SelectedFill <==> state.IsActive() || isSelected
  {
    match state
    case Inactive => if isSelected then SelectedFill else NodeBackground
    case Dragging(_) => SelectedFill
  }

  // ---------------------------------------------------------------------
  // The node view

  /** A rectangle of `self`'s node size centred at `position` meets the
      committed rectangle of `other`, a controller with another identifier. */
  predicate MeetsOther(position: Point, self: NodeViewModel, other: NodeViewModel)
    reads self, self.node, other, other.node
  {
    other.id != self.id &&
    NodesOverlap(position, self.node.size, other.node.position, other.node.size)
  }

  /** The interaction state of the view of one node. `selectRequests` records,
      in order, the controller identifiers this view hands to the session's
      selection hook; the session itself is not part of this model. */
  class NodeView {
    const viewModel: NodeViewModel
    const canvasState: CanvasState
    var dragState: DragState
    var dragOffset: Size
    var isOverlapping: bool
    var selectRequests: seq<nat>

    /** Between gestures nothing transient is left over, and the translation
        stored in the dragging state is always zero. */
    ghost predicate Valid()
      reads this
      ensures Valid() ==> dragState.Translation() == ZeroSize
    {
      (dragState.Inactive? ==> dragOffset == ZeroSize && !isOverlapping) &&
      (dragState.Dragging? ==> dragState.translation == ZeroSize)
    }

    constructor (viewModel: NodeViewModel, canvasState: CanvasState)
      ensures this.viewModel == viewModel && this.canvasState == canvasState
      ensures Valid() && dragState == Inactive
      ensures dragOffset == ZeroSize && !isOverlapping && selectRequests == []
    {
      this.viewModel := viewModel;
      this.canvasState := canvasState;
      dragState := Inactive;
      dragOffset := ZeroSize;
      isOverlapping := false;
      selectRequests := [];
    }

    /** Whether a rectangle of this node's size centred at `position` meets
        the committed rectangle of some controller with a different
        identifier; this view's own controller never counts. */
    method CheckOverlapping(position: Point, others: seq<NodeViewModel>) returns (found: bool)
      ensures found <==> exists i :: 0 <= i < |others| && MeetsOther(position, viewModel, others[i])
    {
      for i := 0 to |others|
        invariant forall j :: 0 <= j < i ==> !MeetsOther(position, viewModel, others[j])
      {
        var other := others[i];
        if other.id != viewModel.id {
          if NodesOverlap(position, viewModel.node.size, other.node.position, other.node.size) {
            return true;
          }
        }
      }
      return false;
    }

    /** One movement sample, `translation` being the pointer's displacement
        since the gesture began. The first sample of a gesture enters the
        dragging state and asks the session to select this node; every sample
        sets the offset from the committed centre to the clamped target and
        recomputes the overlap flag there. The node itself is not changed. */
    method OnChanged(translation: Size, others: seq<NodeViewModel>)
      requires Valid()
      modifies this
      ensures Valid() && dragState == Dragging(ZeroSize)
      ensures selectRequests == old(selectRequests) + (if old(dragState).Inactive? then [viewModel.id] else [])
      ensures Offset(viewModel.node.position, dragOffset)
           == LimitPositionToCanvas(Offset(viewModel.node.position, translation), viewModel.node.size, canvasState.visibleSize)
      ensures isOverlapping <==>
        exists i :: 0 <= i < |others| && MeetsOther(Offset(viewModel.node.position, dragOffset), viewModel, others[i])
    {
      if dragState.Inactive? {
        dragState := Dragging(ZeroSize);
        selectRequests := selectRequests + [viewModel.id];
      }
      var newPosition := Point(viewModel.node.position.x + translation.width,
                               viewModel.node.position.y + translation.height);
      var limitedPosition := LimitPositionToCanvas(newPosition, viewModel.node.size, canvasState.visibleSize);
      dragOffset := Size(limitedPosition.x - viewModel.node.position.x,
                         limitedPosition.y - viewModel.node.position.y);
      isOverlapping := CheckOverlapping(limitedPosition, others);
    }

    /** The end of the gesture: the offset is added into the committed centre
        whatever the overlap flag says, and the transient state is cleared.
        An end with no sample before it leaves the centre where it was. */
    method OnEnded()
      requires Valid()
      modifies this, viewModel.node`position
      ensures Valid() && dragState == Inactive
      ensures dragOffset == ZeroSize && !isOverlapping
      ensures viewModel.node.position == Offset(old(viewModel.node.position), old(dragOffset))
      ensures old(dragState).Inactive? ==> viewModel.node.position == old(viewModel.node.position)
      ensures selectRequests == old(selectRequests)
    {
      dragState := Inactive;
      viewModel.node.position := Point(viewModel.node.position.x + dragOffset.width,
                                       viewModel.node.position.y + dragOffset.height);
      dragOffset := ZeroSize;
      isOverlapping := false;
    }
  }

  /** A whole gesture of two samples and an end: the node's centre becomes the
      clamp of its start plus the last translation, as the overlap flag
      cannot stop it, and the selection hook is called exactly once. */
  method Gesture(view: NodeView, first: Size, last: Size, others: seq<NodeViewModel>)
    requires view.Valid() && view.dragState.Inactive?
    modifies view, view.viewModel.node`position
    ensures view.Valid() && view.dragState.Inactive?
    ensures view.viewModel.node.position
         == LimitPositionToCanvas(Offset(old(view.viewModel.node.position), last),
                                  view.viewModel.node.size, view.canvasState.visibleSize)
    ensures view.selectRequests == old(view.selectRequests) + [view.viewModel.id]
  {
    view.OnChanged(first, others);
    view.OnChanged(last, others);
    view.OnEnded();
  }

  /** The same drag scenario run through the view: the node ends
      at (325, 150), with another node in its way throughout. */
  method DragScenario() returns (committed: Point, wasOverlapping: bool)
    ensures committed == Point(325.0, 150.0)
    ensures wasOverlapping
  {
    var canvas := new CanvasState(DefaultTotalSize, Size(400.0, 300.0));
    var dragged := new Node.WithDefaultSize(1, "a", Point(200.0, 150.0));
    var blocker := new Node.WithDefaultSize(2, "b", Point(300.0, 150.0));
    var vm := new NodeViewModel.WithDefaultMinimums(10, dragged);
    var other := new NodeViewModel.WithDefaultMinimums(11, blocker);
    var view := new NodeView(vm, canvas);
    view.OnChanged(Size(500.0, 0.0), [vm, other]);
    assert NodesOverlap(Point(325.0, 150.0), Size(150.0, 75.0), other.node.position, other.node.size);
    assert [vm, other][1] == other;
    wasOverlapping := view.isOverlapping;
    view.OnEnded();
    committed := dragged.position;
  }

  // ---------------------------------------------------------------------
  // Resize modifier

  /** The resize handle of a node view. `size` is the bound size the gesture
      writes; `liveTranslation` is the gesture state the handle updates on
      each sample and the gesture resets at its end, which nothing reads. */
  class ResizableNodeModifier {
    var size: Size
    const minSize: Size
    var liveTranslation: Size

    constructor (size: Size, minSize: Size)
      ensures this.size == size && this.minSize == minSize && liveTranslation == ZeroSize
    {
      this.size := size;
      this.minSize := minSize;
      liveTranslation := ZeroSize;
    }

    /** The frame the content is laid out in: never below the minimum. */
    function Frame(): (f: Size)
      reads this
      ensures AtLeast(f, minSize)
      ensures AtLeast(size, minSize) ==> f == size
      ensures f == FloorSize(size, minSize)
    {
      Size(Max(size.width, minSize.width), Max(size.height, minSize.height))
    }

    method OnUpdating(translation: Size)
      modifies this`liveTranslation
      ensures liveTranslation == translation
    {
      liveTranslation := translation;
    }

    /** The end of a resize gesture: the translation is added to the size and
        each dimension is floored at the minimum. */
    method OnEnded(translation: Size)
      modifies this`size, this`liveTranslation
      ensures size == FloorSize(Grow(old(size), translation), minSize)
      ensures AtLeast(size, minSize)
      ensures AtLeast(Grow(old(size), translation), minSize) ==> size == Grow(old(size), translation)
      ensures liveTranslation == ZeroSize
    {
      size := Size(Max(size.width + translation.width, minSize.width),
                   Max(size.height + translation.height, minSize.height));
      liveTranslation := ZeroSize;
    }
  }
}
