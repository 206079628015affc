/** The record half of the map description export
    (MainWindow.generate_xml_map_description, MapConstructor/main.py:99-117):
    a scene record of fixed size holding one rectangle record per item.
    The XML text the records are written as is not modelled. */
module MapExport {
  import opened Geometry
  import opened MapScene

  /** One `rectangle` element: x and y from the item position, width and
      height from the item's rectangle. */
  datatype RectangleRecord = RectangleRecord(x: real, y: real, width: real, height: real)

  /** The `scene` element: its `width`, `height` and `objects`. */
  datatype MapDescription = MapDescription(width: int, height: int, objects: seq<RectangleRecord>)

  /** The logical map size written into every description. */
  const MapWidth: int := 100
  const MapHeight: int := 100

  function RecordOf(s: Shape): RectangleRecord
  {
    RectangleRecord(s.pos.x, s.pos.y, s.rect.w, s.rect.h)
  }

  /** Builds the description of the scene: the size is fixed whatever the
      items are, and there is one record per item, in the order of the
      scene's item list. The scene is only read. */
  method GenerateMapDescription(scene: MapSceneContainer) returns (d: MapDescription)
    ensures d.width == 100 && d.height == 100
    ensures |d.objects| == |scene.shapes|
    ensures forall k :: 0 <= k < |d.objects| ==>
      d.objects[k] == RectangleRecord(scene.Items()[k].pos.x, scene.Items()[k].pos.y,
                                      scene.Items()[k].rect.w, scene.Items()[k].rect.h)
  {
    var items := scene.Items();
    var objects: seq<RectangleRecord> := [];
    for k := 0 to |items|
      invariant |objects| == k
      invariant forall j :: 0 <= j < k ==> objects[j] == RecordOf(items[j])
    {
      objects := objects + [RecordOf(items[k])];
    }
    d := MapDescription(MapWidth, MapHeight, objects);
  }
}
