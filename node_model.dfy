// The record of one canvas item: identity, code text, centre and size.
module NodeModel {
  import opened Geometry

  /** Size a node gets when it is created without one. */
  const DefaultNodeSize := Size(150.0, 75.0)

  /** A canvas node. Callers change `code`, `position` and `size` in place;
      `id` is fixed when the node is made. */
  class Node {
    const id: nat
    var code: string
    var position: Point
    var size: Size

    /** Stores every argument as given; the size is not checked against any
        minimum. The identifier stands for the UUID drawn at creation. */
    constructor (id: nat, code: string, position: Point, size: Size)
      ensures this.id == id
      ensures this.code == code && this.position == position && this.size == size
    {
      this.id := id;
      this.code := code;
      this.position := position;
      this.size := size;
    }

    /** The same initialiser with the size argument left at its default. */
    constructor WithDefaultSize(id: nat, code: string, position: Point)
      ensures this.id == id
      ensures this.code == code && this.position == position
      ensures this.size == DefaultNodeSize
    {
      this.id := id;
      this.code := code;
      this.position := position;
      this.size := DefaultNodeSize;
    }
  }

  /** A node can be created with a size below the controller's minimum, and
      each mutable field can be changed without touching the other two. */
  method FieldsAreIndependent() returns (n: Node)
    ensures n.size == Size(10.0, 5.0)
    ensures n.code == "edited" && n.position == Point(1.0, 2.0)
  {
    n := new Node(7, "x", Point(0.0, 0.0), Size(10.0, 5.0));
    n.code := "edited";
    assert n.size == Size(10.0, 5.0) && n.position == Point(0.0, 0.0);
    n.position := Point(1.0, 2.0);
    assert n.code == "edited" && n.size == Size(10.0, 5.0);
  }
}
