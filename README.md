# Map constructor scene editor, modelled in Dafny

This project models the interactive editing engine of the map constructor
(`MapSceneContainer` in `MapConstructor/main.py`) and the record-building half
of its map export (`MainWindow.generate_xml_map_description`).

The scene holds rectangle items and an interaction mode, CREATION or EDITING.
It also holds the transient state of the drag in progress: the anchor
(`start_position`), the current item and the press offset (`position_diff`).
Five handlers drive the scene:

- a press creates a 10×10 item while creating, or picks the topmost item under
  the pointer while editing;
- a move resizes the item being created to the box spanning the anchor and the
  pointer, or moves the picked item, undoing the move if the item then overlaps
  another;
- a release clears the anchor and the current item;
- Escape discards the item being created, or, while editing, only drops the
  selection;
- a toggle flips the mode.

Files:

- `geometry.dfy` (module `Geometry`): points, rectangles, items, and the
  normalised drag box. It also holds the overlap test and its reference
  definition (a common interior point).
- `scene.dfy` (module `MapScene`): the class `MapSceneContainer` with its
  fields and handlers. Beside it are the scene queries it relies on: hit-test,
  colliding items, and the item list in Qt's order.
- `export.dfy` (module `MapExport`): the map description as records, built by a
  loop over the scene's items.
- `scenarios.dfy` (module `Scenarios`): event sequences, checked by the
  verifier against the handlers' contracts.
- `wrappers.dfy` (module `Wrappers`): `Option`.

Modelling decisions:

- Coordinates are `real`. The source's `QPointF` doubles are only subtracted,
  passed through `abs` and compared, so no rounding is involved.
- An item keeps its rectangle geometry (`setRect`) apart from its item position
  (`setPos`), as a Qt rectangle item does.
  - A new item has its rectangle at the press point and its position at (0, 0).
  - Its scene bounds are the rectangle translated by the position.
  - The export writes `x`, `y` from the position and `width`, `height` from the
    rectangle. So an item that was drawn but never moved exports x = 0, y = 0.
- The current item is an index into the scene's item sequence (`shapes`,
  stacking order, first added at the bottom). Removing the current item is the
  only removal, and it clears the current item, so the index never goes stale.
- The source has three paths without a guard, each reached before the handler
  has changed anything:
  - Escape while creating with no current item calls `removeItem(None)`;
  - a creation move on an item that was picked while editing, with no anchor,
    reads `start_position.x()` on `None`;
  - an editing move on an item that was created before any pick subtracts
    `None` from the pointer position.

  The handlers return `Fault` with the reason on these paths, and the scene is
  left unchanged. What Python or Qt does next (an exception, or what Qt does
  with a null item) is not modelled. Stale values are used as the source uses them. For example,
  an anchor left over from before a toggle is taken as the anchor.
- Hit-testing (`itemAt`) returns the last-added item whose bounds contain the
  point. Containment is closed: edges count.
- Collision (`collidingItems`) selects the other items whose bounds have an
  intersection of positive area with the item's. Touching along an edge is not
  a collision, and an item of zero width or height collides with nothing.
- The item list (`items()`) is reported topmost first, as Qt's
  `QGraphicsScene.items()` orders it. The export follows that list, so the last
  drawn item comes first in the description.

Three behaviours of the code a reader might not expect, which the model keeps:

- A creation drag changes the item's rectangle, not its position. The export
  reads the position.
- Escape while creating with nothing in progress calls `removeItem(None)`
  without a guard. The model flags this as `Fault(RemoveMissingItem)`, and the
  state is unchanged.
- An export lists the items in the order of `items()`, topmost first, not in
  creation order.

## Model

| member | source | states |
|---|---|---|
| `Geometry.NormalizedRect` | MapConstructor/main.py:58-69 | The drag box has non-negative width and height. Its origin is the smaller of the anchor and pointer coordinates on each axis and its far corner the larger, so it contains both points in every drag direction. |
| `Geometry.BoundsContains` | MapConstructor/main.py:50 | An item's scene bounds have its rectangle's size. A scene point lies in the bounds exactly when the same point, taken relative to the item position, lies in the item's rectangle: the translation that `itemAt` and `collidingItems` apply. |
| `Geometry.OverlapsHasCommonInterior` | MapConstructor/main.py:76 | Two rectangles overlap exactly when some point lies strictly inside both, that is when their intersection has positive area. |
| `Geometry.OverlapsSymmetric` | MapConstructor/main.py:76 | Overlap does not depend on which of the two rectangles is the moved item. |
| `Geometry.EdgeTouchingDoesNotOverlap` | MapConstructor/main.py:76 | Rectangles that only meet along an edge do not overlap. |
| `MapScene.Flip` | MapConstructor/main.py:31-35 | A toggle always changes the mode. |
| `MapScene.FlipTwice` | MapConstructor/main.py:31-35 | Two toggles restore the original mode. |
| `MapScene.NewShape` | MapConstructor/main.py:21 | A created item has a 10×10 rectangle at the press point and item position (0, 0), so its bounds are that rectangle. |
| `MapScene.HitTest` | MapConstructor/main.py:50 | The pick is an item whose bounds contain the point and no later-added item contains it. There is no pick exactly when no item contains the point. |
| `MapScene.CollidingAmong` | MapConstructor/main.py:76 | The list holds exactly the items below index n, other than the moved one, that overlap it. |
| `MapScene.CollidingItems` | MapConstructor/main.py:76 | The colliding list holds exactly the other items that overlap the item. It is empty exactly when the item collides with nothing. |
| `MapScene.TryMove` | MapConstructor/main.py:73-77 | An editing drag changes only the dragged item's position. The item ends at the target if it collides there with no other item, otherwise it stays where it was. A position that changed never collides. |
| `MapScene.TryMovePreservesDisjoint` | MapConstructor/main.py:73-77 | If no two items overlap before an editing drag, none overlap after it. |
| `MapScene.TopmostFirst` | MapConstructor/main.py:109 | Lists the items in reverse stacking order: element k is item n-1-k. |
| `MapScene.MapSceneContainer.Items` | MapConstructor/main.py:109 | The scene's item list has one entry per item, topmost (last added) first. |
| `MapScene.MapSceneContainer.constructor` | MapConstructor/main.py:23-29 | A new scene is creating, has no items and has no anchor, current item or offset. |
| `MapScene.MapSceneContainer.SwitchInteractionState` | MapConstructor/main.py:31-35 | The mode flips. Items, anchor, current item and offset are untouched. |
| `MapScene.MapSceneContainer.MousePressEvent` | MapConstructor/main.py:37-52 | While creating, a press appends exactly one new item and leaves existing items alone. It sets the anchor to the point and the current item to the new item. While editing, a press adds no item and makes the hit-test result current. On a hit it sets the offset to point − item position; otherwise it keeps the old offset. |
| `MapScene.MapSceneContainer.MouseMoveEvent` | MapConstructor/main.py:54-77 | With no current item, a move changes nothing. While creating, it sets the current item's rectangle to the normalised drag box. While editing, it applies `TryMove` to point − offset. No other item changes. A missing anchor or offset is a fault that changes nothing. The scene invariant (non-negative sizes, current item in range) is kept. |
| `MapScene.MapSceneContainer.MouseReleaseEvent` | MapConstructor/main.py:79-82 | A release clears the anchor and the current item. The items, the mode and the offset are unchanged. |
| `MapScene.MapSceneContainer.KeyPressEvent` | MapConstructor/main.py:84-91 | Escape while creating removes the current item and clears the selection. The other items keep their order. With no current item it is a fault. Escape while editing only clears the selection, and every item stays in place. Other keys change nothing. |
| `MapExport.GenerateMapDescription` | MapConstructor/main.py:104-115 | The description is 100 by 100 whatever the scene holds. It has exactly one record per item, in the order of the item list: x, y from the item position and width, height from its rectangle. The scene is not modified. |
| `Scenarios.PressThenEscape` | MapConstructor/main.py:39-48 | Pressing while creating and then pressing Escape leaves the items exactly as before the press. |
| `Scenarios.ToggleTwice` | MapConstructor/main.py:31-35 | Two toggles leave mode, items and transient state as they were. |
| `Scenarios.DragDownRight` | MapConstructor/main.py:57-71 | A press at (10, 10), a drag to (30, 40) and a release leave one item with rectangle (10, 10, 20, 30) at position (0, 0). |
| `Scenarios.DragUpLeft` | MapConstructor/main.py:61-69 | A drag from (10, 10) back to (0, 0) normalises the rectangle to (0, 0, 10, 10). |
| `Scenarios.DragOntoNeighbour` | MapConstructor/main.py:73-77 | A drag onto a neighbouring item is rejected and the item keeps its position. A drag that only touches the neighbour's edge is accepted. |
| `Scenarios.ExportTwoShapes` | MapConstructor/main.py:104-115 | Two drawn, never-moved items export as 100 by 100 with records (0, 0, 10, 10) and (0, 0, 20, 30), the last drawn first. |
| `Scenarios.MoveAfterToggleMidDrag` | MapConstructor/main.py:75 | A toggle in the middle of a creation drag, followed by a move, reaches the unguarded missing-offset path. |
| `Scenarios.EscapeWithNothingToCancel` | MapConstructor/main.py:88 | Escape while creating with no drag in progress reaches the unguarded `removeItem(None)` path. |

## Left out

- XML formatting of the description (document header, indentation, element
  text, decoding to a string). The model stops at the records, which are what
  is written.
- What Qt does on the unguarded paths (an exception or a crash). The model
  reports a `Fault` and leaves the scene as it was, which is what holds up to
  the point of failure.
- The calls into Qt's default event handlers (`super()`), pens, brushes and
  rendering. The items are not flagged movable or selectable, so those calls
  affect nothing that is modelled.
- Qt's exact hit-test and collision shapes. This includes the pen's stroke
  width and Qt's own edge conventions. Plain closed containment and
  positive-area overlap stand in for them.
- `MapScene.HitTest`: does not model item z-values. Items are stacked by the
  order they were added, the only stacking this program ever produces.
- Image capture and saving (`generate_image`, `saveimagetodisk`): pixmap
  capture, file dialog and disk output.
- `generatefromconstructor`, `MainWindow.__init__` (window set-up, form loading,
  button wiring), `configure_loggers` and `main`: host UI, logging and the
  event loop.
- The unused `Figures` enumeration.
- Floating-point behaviour of `QPointF`. The editor only subtracts, takes
  absolute values and compares, so real arithmetic stands in for it.
