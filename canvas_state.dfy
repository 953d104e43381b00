// The canvas viewport: the logical canvas extent and the extent currently
// visible, which the canvas view overwrites on every layout pass.
module Canvas {
  import opened Geometry

  const DefaultTotalSize := Size(2000.0, 2000.0)

  class CanvasState {
    var totalSize: Size
    var visibleSize: Size

    /** Stores both extents as given. */
    constructor (totalSize: Size, visibleSize: Size)
      ensures this.totalSize == totalSize && this.visibleSize == visibleSize
    {
      this.totalSize := totalSize;
      this.visibleSize := visibleSize;
    }

    /** The initialiser with both arguments left at their defaults: a
        2000 by 2000 canvas and a zero visible extent until the first layout. */
    constructor WithDefaults()
      ensures totalSize == DefaultTotalSize && visibleSize == ZeroSize
    {
      totalSize := DefaultTotalSize;
      visibleSize := ZeroSize;
    }

    /** The canvas view reports its measured size, on appearing and on every
        change of size; only the visible extent is replaced. */
    method UpdateVisibleSize(measured: Size)
      modifies this`visibleSize
      ensures visibleSize == measured
      ensures totalSize == old(totalSize)
    {
      visibleSize := measured;
    }
  }
}
