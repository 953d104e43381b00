// The per-node controller: it owns one node and adds the selection and
// resizing flags; resize requests are floored at the controller's minimums.
module Controller {
  import opened Geometry
  import opened NodeModel

  const DefaultMinNodeWidth := 150.0
  const DefaultMinNodeHeight := 75.0

  class NodeViewModel {
    const id: nat
    var node: Node
    var isSelected: bool
    var isResizing: bool
    const minNodeWidth: real
    const minNodeHeight: real

    /** Minimum size that `UpdateSize` enforces. */
    function MinSize(): Size {
      Size(minNodeWidth, minNodeHeight)
    }

    /** The controller's own identifier (a fresh UUID in the source), the
        node stored as given (its size is not clamped), both flags cleared. */
    constructor (id: nat, node: Node, minNodeWidth: real, minNodeHeight: real)
      ensures this.id == id && this.node == node
      ensures !isSelected && !isResizing
      ensures this.minNodeWidth == minNodeWidth && this.minNodeHeight == minNodeHeight
    {
      this.id := id;
      this.node := node;
      this.minNodeWidth := minNodeWidth;
      this.minNodeHeight := minNodeHeight;
      isSelected := false;
      isResizing := false;
    }

    /** The initialiser with the minimums left at their defaults, 150 by 75. */
    constructor WithDefaultMinimums(id: nat, node: Node)
      ensures this.id == id && this.node == node
      ensures !isSelected && !isResizing
      ensures minNodeWidth == DefaultMinNodeWidth && minNodeHeight == DefaultMinNodeHeight
    {
      this.id := id;
      this.node := node;
      minNodeWidth := DefaultMinNodeWidth;
      minNodeHeight := DefaultMinNodeHeight;
      isSelected := false;
      isResizing := false;
    }

    /** The position binding's setter: writes straight into the node. */
    method SetPositionBinding(p: Point)
      modifies node`position
      ensures node.position == p
    {
      node.position := p;
    }

    /** The size binding's setter: writes straight into the node, with no
        minimum applied. */
    method SetSizeBinding(s: Size)
      modifies node`size
      ensures node.size == s
    {
      node.size := s;
    }

    /** Overwrites the node's centre; no clamping. */
    method UpdatePosition(p: Point)
      modifies node`position
      ensures node.position == p
      ensures node.size == old(node.size)
    {
      node.position := p;
    }

    /** Stores the request with each dimension raised to the minimum; only
        the node's size changes. */
    method UpdateSize(request: Size)
      modifies node`size
      ensures node.size == FloorSize(request, MinSize())
      ensures AtLeast(node.size, MinSize())
      ensures AtLeast(request, MinSize()) ==> node.size == request
      ensures node.position == old(node.position) && node.code == old(node.code)
    {
      node.size := Size(Max(request.width, minNodeWidth), Max(request.height, minNodeHeight));
    }

    method Select()
      modifies this`isSelected
      ensures isSelected
    {
      isSelected := true;
    }

    method Deselect()
      modifies this`isSelected
      ensures !isSelected
    {
      isSelected := false;
    }

    method StartResizing()
      modifies this`isResizing
      ensures isResizing
    {
      isResizing := true;
    }

    method StopResizing()
      modifies this`isResizing
      ensures !isResizing
    {
      isResizing := false;
    }
  }

  /** Once a size has been committed through `UpdateSize`, committing the
      current size again changes nothing; and the size binding can store a
      size below the minimum, which `UpdateSize` then raises. */
  method ResizeScenario() returns (afterBinding: Size, afterRepeat: Size, raised: Size)
    ensures afterBinding == Size(10.0, 10.0)
    ensures afterRepeat == Size(300.0, 75.0)
    ensures raised == Size(150.0, 75.0)
  {
    var n := new Node.WithDefaultSize(1, "", Point(0.0, 0.0));
    var vm := new NodeViewModel.WithDefaultMinimums(2, n);
    vm.UpdateSize(Size(300.0, 20.0));
    vm.UpdateSize(vm.node.size);
    afterRepeat := vm.node.size;
    vm.SetSizeBinding(Size(10.0, 10.0));
    afterBinding := vm.node.size;
    vm.UpdateSize(vm.node.size);
    raised := vm.node.size;
  }
}
