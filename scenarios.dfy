/** Clients of the scene: event sequences a user produces, with what the
    contracts of the handlers let a caller conclude about them. */
module Scenarios {
  import opened Wrappers
  import opened Geometry
  import opened MapScene
  import opened MapExport

  /** Pressing while creating and cancelling at once leaves the items as they
      were before the press. */
  method PressThenEscape(scene: MapSceneContainer, p: Point) returns (status: Status)
    requires scene.Valid() && scene.mode == Creation
    modifies scene
    ensures scene.Valid() && status == Handled
    ensures scene.shapes == old(scene.shapes) && scene.currentItem.None?
  {
    ghost var before := scene.shapes;
    scene.MousePressEvent(p);
    status := scene.KeyPressEvent(KeyEscape);
    assert scene.shapes == (before + [NewShape(p)])[..|before|] + (before + [NewShape(p)])[|before| + 1..];
    assert (before + [NewShape(p)])[..|before|] == before;
  }

  /** Two toggles restore the mode and touch nothing else. */
  method ToggleTwice(scene: MapSceneContainer)
    modifies scene
    ensures scene.mode == old(scene.mode) && scene.shapes == old(scene.shapes)
    ensures scene.startPosition == old(scene.startPosition) && scene.currentItem == old(scene.currentItem)
    ensures scene.positionDiff == old(scene.positionDiff)
  {
    scene.SwitchInteractionState();
    scene.SwitchInteractionState();
    FlipTwice(old(scene.mode));
  }

  /** Press at (10, 10), drag to (30, 40), release: one item whose rectangle
      spans the two points, still at item position (0, 0). */
  method DragDownRight() returns (shapes: seq<Shape>)
    ensures shapes == [Shape(Rect(10.0, 10.0, 20.0, 30.0), Point(0.0, 0.0))]
  {
    var scene := new MapSceneContainer();
    scene.MousePressEvent(Point(10.0, 10.0));
    var status := scene.MouseMoveEvent(Point(30.0, 40.0));
    scene.MouseReleaseEvent();
    shapes := scene.shapes;
  }

  /** Press at (10, 10), drag back to (0, 0): the rectangle is normalised to
      start at the pointer. */
  method DragUpLeft() returns (shapes: seq<Shape>)
    ensures shapes == [Shape(Rect(0.0, 0.0, 10.0, 10.0), Point(0.0, 0.0))]
  {
    var scene := new MapSceneContainer();
    scene.MousePressEvent(Point(10.0, 10.0));
    var status := scene.MouseMoveEvent(Point(0.0, 0.0));
    scene.MouseReleaseEvent();
    shapes := scene.shapes;
  }

  /** Two default-size items at (0, 0) and (20, 20); while editing, the first
      is picked at (5, 5). A drag that would put it at (15, 15) overlaps the
      second item and is rejected; a drag to (10, 20), where it only touches
      the second item's left edge, is accepted. */
  method DragOntoNeighbour() returns (rejected: Point, accepted: Point)
    ensures rejected == Point(0.0, 0.0)
    ensures accepted == Point(10.0, 20.0)
  {
    var scene := new MapSceneContainer();
    scene.MousePressEvent(Point(0.0, 0.0));
    scene.MouseReleaseEvent();
    scene.MousePressEvent(Point(20.0, 20.0));
    scene.MouseReleaseEvent();
    scene.SwitchInteractionState();
    ghost var two := scene.shapes;
    assert !Contains(Bounds(two[1]), Point(5.0, 5.0));
    scene.MousePressEvent(Point(5.0, 5.0));
    var status := scene.MouseMoveEvent(Point(20.0, 20.0));
    assert Overlaps(Bounds(two[0].(pos := Point(15.0, 15.0))), Bounds(two[1]));
    assert Collides(two[0 := two[0].(pos := Point(15.0, 15.0))], 0);
    rejected := scene.shapes[0].pos;
    status := scene.MouseMoveEvent(Point(15.0, 25.0));
    EdgeTouchingDoesNotOverlap(Bounds(two[0].(pos := Point(10.0, 20.0))), Bounds(two[1]));
    accepted := scene.shapes[0].pos;
  }

  /** Two items drawn and exported: the size is 100 by 100, the last drawn
      item comes first, and an item that was never moved is exported at
      x = 0, y = 0 wherever it was drawn. */
  method ExportTwoShapes() returns (d: MapDescription)
    ensures d == MapDescription(100, 100, [RectangleRecord(0.0, 0.0, 10.0, 10.0),
                                           RectangleRecord(0.0, 0.0, 20.0, 30.0)])
  {
    var scene := new MapSceneContainer();
    scene.MousePressEvent(Point(10.0, 10.0));
    var status := scene.MouseMoveEvent(Point(30.0, 40.0));
    scene.MouseReleaseEvent();
    scene.MousePressEvent(Point(50.0, 50.0));
    scene.MouseReleaseEvent();
    d := GenerateMapDescription(scene);
  }

  /** A toggle in the middle of a creation drag, then a move: the item was
      created, not picked, so there is no offset to move it by. */
  method MoveAfterToggleMidDrag() returns (status: Status)
    ensures status == Fault(MissingPositionDiff)
  {
    var scene := new MapSceneContainer();
    scene.MousePressEvent(Point(10.0, 10.0));
    scene.SwitchInteractionState();
    status := scene.MouseMoveEvent(Point(30.0, 30.0));
  }

  /** Escape while creating with no drag in progress. */
  method EscapeWithNothingToCancel() returns (status: Status)
    ensures status == Fault(RemoveMissingItem)
  {
    var scene := new MapSceneContainer();
    status := scene.KeyPressEvent(KeyEscape);
  }
}
