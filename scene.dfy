/** The interactive editing engine of the map constructor: a scene of
    rectangle items with an interaction mode and the transient state of the
    drag in progress (MapSceneContainer, MapConstructor/main.py:11-91). */
module MapScene {
  import opened Wrappers
  import opened Geometry

  datatype InteractionMode = Creation | Editing

  /** Outcome of an event handler. The source guards none of the `Fault`
      cases: each reaches a missing value before the handler has changed
      anything. The model flags the case and leaves the scene as it was;
      what happens past that point is not modelled. */
  datatype Status = Handled | Fault(defect: Defect)

  datatype Defect =
    | MissingStartPosition   // creation move on an item picked while editing
    | MissingPositionDiff    // editing move on an item created before any pick
    | RemoveMissingItem      // Escape while creating, with no item in progress

  /** Qt's key code of the Escape key. */
  const KeyEscape: int := 0x0100_0000

  function Flip(m: InteractionMode): (r: InteractionMode)
    ensures r != m
  {
    match m
    case Creation => Editing
    case Editing => Creation
  }

  /** Two toggles restore the mode. */
  lemma FlipTwice(m: InteractionMode)
    ensures Flip(Flip(m)) == m
  {
  }

  /** The item a freshly pressed creation drag adds at `p`: a rectangle of
      the default size at `p`, at item position (0, 0). */
  function NewShape(p: Point): (s: Shape)
    ensures s.pos == Point(0.0, 0.0) && Bounds(s) == s.rect
    ensures s.rect == Rect(p.x, p.y, DefaultRectSize, DefaultRectSize)
  {
    Shape(Rect(p.x, p.y, DefaultRectSize, DefaultRectSize), Point(0.0, 0.0))
  }

  /** The item the scene reports under `p` (`itemAt`): the topmost, that is
      the last added, of the items whose bounds contain `p`, or none. */
  function HitTest(shapes: seq<Shape>, p: Point): (r: Option<nat>)
    ensures r.Some? ==> r.value < |shapes| && Contains(Bounds(shapes[r.value]), p)
    ensures r.Some? ==> forall j :: r.value < j < |shapes| ==> !Contains(Bounds(shapes[j]), p)
    ensures r.None? <==> forall j :: 0 <= j < |shapes| ==> !Contains(Bounds(shapes[j]), p)
  {
    if |shapes| == 0 then None
    else if Contains(Bounds(shapes[|shapes| - 1]), p) then Some(|shapes| - 1)
    else HitTest(shapes[..|shapes| - 1], p)
  }

  /** The items among the first `n` other than item `i` that overlap it,
      topmost first. */
  function CollidingAmong(shapes: seq<Shape>, i: nat, n: nat): (r: seq<nat>)
    requires i < |shapes| && n <= |shapes|
    ensures forall k :: 0 <= k < |r| ==> r[k] < n
    ensures forall j :: j in r <==> 0 <= j < n && j != i && Overlaps(Bounds(shapes[i]), Bounds(shapes[j]))
  {
    if n == 0 then []
    else if n - 1 != i && Overlaps(Bounds(shapes[i]), Bounds(shapes[n - 1])) then
      [n - 1] + CollidingAmong(shapes, i, n - 1)
    else CollidingAmong(shapes, i, n - 1)
  }

  /** The items item `i` collides with (`collidingItems`). */
  function CollidingItems(shapes: seq<Shape>, i: nat): (r: seq<nat>)
    requires i < |shapes|
    ensures forall j :: j in r <==> 0 <= j < |shapes| && j != i && Overlaps(Bounds(shapes[i]), Bounds(shapes[j]))
    ensures |r| == 0 <==> !Collides(shapes, i)
  {
    var r := CollidingAmong(shapes, i, |shapes|);
    assert |r| != 0 ==> r[0] in r;
    r
  }

  /** Item `i` overlaps some other item of the scene. */
  predicate Collides(shapes: seq<Shape>, i: nat)
    requires i < |shapes|
  {
    exists j :: 0 <= j < |shapes| && j != i && Overlaps(Bounds(shapes[i]), Bounds(shapes[j]))
  }

  /** No two items of the scene overlap. */
  predicate PairwiseDisjoint(shapes: seq<Shape>)
  {
    forall j, k :: 0 <= j < |shapes| && 0 <= k < |shapes| && j != k ==>
      !Overlaps(Bounds(shapes[j]), Bounds(shapes[k]))
  }

  /** An editing drag of item `i` to position `target`: the item is put at
      `target`, and put back where it was if it then collides with another
      item (main.py:74-77). */
  function TryMove(shapes: seq<Shape>, i: nat, target: Point): (r: seq<Shape>)
    requires i < |shapes|
    ensures |r| == |shapes|
    ensures forall j :: 0 <= j < |r| && j != i ==> r[j] == shapes[j]
    ensures r[i].rect == shapes[i].rect
    ensures r[i].pos == target || r[i].pos == shapes[i].pos
    ensures !Collides(shapes[i := shapes[i].(pos := target)], i) ==> r[i].pos == target
    ensures Collides(shapes[i := shapes[i].(pos := target)], i) ==> r == shapes
    ensures r[i].pos != shapes[i].pos ==> !Collides(r, i)
  {
    var moved := shapes[i := shapes[i].(pos := target)];
    if |CollidingItems(moved, i)| != 0 then shapes else moved
  }

  /** A drag never makes overlapping items out of non-overlapping ones. */
  lemma TryMovePreservesDisjoint(shapes: seq<Shape>, i: nat, target: Point)
    requires i < |shapes| && PairwiseDisjoint(shapes)
    ensures PairwiseDisjoint(TryMove(shapes, i, target))
  {
  }

  class MapSceneContainer {
    var mode: InteractionMode
    var startPosition: Option<Point>
    var currentItem: Option<nat>
    var positionDiff: Option<Point>
    /** The scene's items in stacking order: the first added at the bottom. */
    var shapes: seq<Shape>

    /** The current item is an item of the scene, and every item has a size
        that no handler makes negative. */
    ghost predicate Valid()
      reads this
    {
      (currentItem.Some? ==> currentItem.value < |shapes|) &&
      forall j :: 0 <= j < |shapes| ==> NonNegativeSize(shapes[j].rect)
    }

    /** The scene's item list as Qt reports it (`items()`): topmost first,
        that is in the reverse of the order the items were added. */
    function Items(): (r: seq<Shape>)
      reads this
      ensures |r| == |shapes|
      ensures forall k :: 0 <= k < |r| ==> r[k] == shapes[|shapes| - 1 - k]
    {
      TopmostFirst(shapes)
    }

    constructor ()
      ensures Valid()
      ensures mode == Creation && shapes == []
      ensures startPosition.None? && currentItem.None? && positionDiff.None?
    {
      mode := Creation;
      startPosition := None;
      currentItem := None;
      positionDiff := None;
      shapes := [];
    }

    method SwitchInteractionState()
      modifies this
      ensures mode == Flip(old(mode))
      ensures shapes == old(shapes) && startPosition == old(startPosition)
      ensures currentItem == old(currentItem) && positionDiff == old(positionDiff)
    {
      if mode == Creation {
        mode := Editing;
      } else {
        mode := Creation;
      }
    }

    method MousePressEvent(p: Point)
      requires Valid()
      modifies this
      ensures Valid() && mode == old(mode)
      // creating: one new default-size item at p becomes the current item
      ensures old(mode) == Creation ==>
        shapes == old(shapes) + [NewShape(p)] &&
        startPosition == Some(p) && currentItem == Some(|old(shapes)|) &&
        positionDiff == old(positionDiff)
      // editing: pick the item under p, remembering where p is relative to it
      ensures old(mode) == Editing ==>
        shapes == old(shapes) && startPosition == old(startPosition) &&
        currentItem == HitTest(shapes, p) &&
        positionDiff == (if currentItem.Some? then Some(Sub(p, shapes[currentItem.value].pos)) else old(positionDiff))
    {
      if mode == Creation {
        startPosition := Some(p);
        shapes := shapes + [NewShape(p)];
        currentItem := Some(|shapes| - 1);
      } else {
        currentItem := HitTest(shapes, p);
        if currentItem.Some? {
          positionDiff := Some(Sub(p, shapes[currentItem.value].pos));
        }
      }
    }

    method MouseMoveEvent(p: Point) returns (status: Status)
      requires Valid()
      modifies this
      ensures Valid()
      ensures mode == old(mode) && startPosition == old(startPosition)
      ensures currentItem == old(currentItem) && positionDiff == old(positionDiff)
      // the handler fails exactly where the source reaches a value that was never set
      ensures status == (if currentItem.Some? && mode == Creation && startPosition.None? then Fault(MissingStartPosition)
                         else if currentItem.Some? && mode == Editing && positionDiff.None? then Fault(MissingPositionDiff)
                         else Handled)
      ensures status.Fault? || currentItem.None? ==> shapes == old(shapes)
      // creating: the current item's rectangle becomes the box spanning the anchor and p
      ensures status.Handled? && currentItem.Some? && mode == Creation ==>
        shapes == old(shapes)[currentItem.value := old(shapes)[currentItem.value].(rect := NormalizedRect(startPosition.value, p))]
      // editing: the current item follows p at the offset of the press, unless it would collide
      ensures status.Handled? && currentItem.Some? && mode == Editing ==>
        shapes == TryMove(old(shapes), currentItem.value, Sub(p, positionDiff.value))
    {
      status := Handled;
      if currentItem.Some? {
        var i := currentItem.value;
        if mode == Creation {
          if startPosition.None? {
            status := Fault(MissingStartPosition);
          } else {
            shapes := shapes[i := shapes[i].(rect := NormalizedRect(startPosition.value, p))];
          }
        } else {
          if positionDiff.None? {
            status := Fault(MissingPositionDiff);
          } else {
            var oldPosition := shapes[i].pos;
            shapes := shapes[i := shapes[i].(pos := Sub(p, positionDiff.value))];
            if |CollidingItems(shapes, i)| != 0 {
              shapes := shapes[i := shapes[i].(pos := oldPosition)];
            }
          }
        }
      }
    }

    method MouseReleaseEvent()
      requires Valid()
      modifies this
      ensures Valid()
      ensures startPosition.None? && currentItem.None?
      ensures mode == old(mode) && shapes == old(shapes) && positionDiff == old(positionDiff)
    {
      startPosition := None;
      currentItem := None;
    }

    method KeyPressEvent(key: int) returns (status: Status)
      requires Valid()
      modifies this
      ensures Valid()
      ensures mode == old(mode) && startPosition == old(startPosition) && positionDiff == old(positionDiff)
      ensures status == (if key == KeyEscape && mode == Creation && old(currentItem).None? then Fault(RemoveMissingItem) else Handled)
      // any other key, a fault, and Escape while editing leave every item as it was
      ensures key != KeyEscape || status.Fault? || mode == Editing ==> shapes == old(shapes)
      ensures key != KeyEscape || status.Fault? ==> currentItem == old(currentItem)
      ensures key == KeyEscape && status.Handled? ==> currentItem.None?
      // Escape while creating discards the current item
      ensures key == KeyEscape && status.Handled? && mode == Creation ==>
        var i := old(currentItem).value;
        shapes == old(shapes)[..i] + old(shapes)[i + 1..]
    {
      status := Handled;
      if key == KeyEscape {
        if mode == Creation {
          if currentItem.None? {
            status := Fault(RemoveMissingItem);
          } else {
            var i := currentItem.value;
            shapes := shapes[..i] + shapes[i + 1..];
            currentItem := None;
          }
        } else {
          currentItem := None;
        }
      }
    }
  }

  /** Items listed topmost first. */
  function TopmostFirst(shapes: seq<Shape>): (r: seq<Shape>)
    ensures |r| == |shapes|
    ensures forall k :: 0 <= k < |r| ==> r[k] == shapes[|shapes| - 1 - k]
  {
    if shapes == [] then [] else [shapes[|shapes| - 1]] + TopmostFirst(shapes[..|shapes| - 1])
  }
}
