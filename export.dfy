/**
 * The exported annotation record of a rectangle region (its `toStateJSON`
 * form): geometry as percentages of the current stage size, and one record
 * per attached label state.
 */
module Export {
  import opened Wrappers
  import opened Coords

  /**
   * A label state attached to a region (a labels, rating or rectangle-labels
   * control state), seen only through what the export uses: its `type` and
   * the names its `getSelectedNames()` returns.
   */
  datatype LabelState = LabelState(kind: string, selectedNames: seq<string>)

  /** An entry of a record's `value` object: a number or a list of names. */
  datatype Field = Num(n: real) | Names(names: seq<string>)

  /** One exported annotation record. */
  datatype Record = Record(
    id: string,
    fromName: string,
    toName: string,
    source: string,
    kind: string,
    value: map<string, Field>,
    normalization: Option<string>)

  /** `toStateJSON` returns an array of records, or one bare record. */
  datatype StateJson = List(records: seq<Record>) | One(record: Record)

  /** The type of a record for a region that carries no label state. */
  const RectangleKind: string := "rectangle"

  /** The keys of the geometry part of a record's `value`. */
  const GeometryKeys: set<string> := {"x", "y", "width", "height", "rotation"}

  /**
   * The geometry part of a record's `value`: position and scaled size in
   * percentages of the stage size, rotation as it is. Converting each entry
   * back to pixels of the same stage gives the region's origin and its
   * on-screen (scaled) size, so the record does not depend on the resolution.
   */
  function NormalizedValue(x: real, y: real, width: real, height: real, scaleX: real, scaleY: real,
                           rotation: real, stageWidth: real, stageHeight: real): (v: map<string, Field>)
    requires stageWidth != 0.0 && stageHeight != 0.0
    ensures v.Keys == GeometryKeys
    ensures forall k :: k in v ==> v[k].Num?
    ensures ToPixel(v["x"].n, stageWidth) == x
    ensures ToPixel(v["y"].n, stageHeight) == y
    ensures ToPixel(v["width"].n, stageWidth) == width * ScaleOr1(scaleX)
    ensures ToPixel(v["height"].n, stageHeight) == height * ScaleOr1(scaleY)
    ensures v["rotation"] == Num(rotation)
  {
    map[
      "x" := Num(ToPercent(x, stageWidth)),
      "y" := Num(ToPercent(y, stageHeight)),
      "width" := Num(ToPercent(width * ScaleOr1(scaleX), stageWidth)),
      "height" := Num(ToPercent(height * ScaleOr1(scaleY), stageHeight)),
      "rotation" := Num(rotation)]
  }

  /**
   * A record for one label state: the base record with its type set to the
   * state's kind and the state's selected names stored under that kind in
   * `value`. Every other entry and field of the base record is kept.
   */
  function WithLabel(t: Record, s: LabelState): (r: Record)
    ensures r.kind == s.kind
    ensures r.value.Keys == t.value.Keys + {s.kind}
    ensures r.value[s.kind] == Names(s.selectedNames)
    ensures forall k :: k in t.value && k != s.kind ==> r.value[k] == t.value[k]
    ensures r.id == t.id && r.fromName == t.fromName && r.toName == t.toName
    ensures r.source == t.source && r.normalization == t.normalization
  {
    t.(value := t.value[s.kind := Names(s.selectedNames)], kind := s.kind)
  }

  /** `states.map(...)`: one labelled copy of the base record per state, in state order. */
  function FanOut(t: Record, states: seq<LabelState>): (rs: seq<Record>)
    ensures |rs| == |states|
    ensures forall i :: 0 <= i < |states| ==> rs[i] == WithLabel(t, states[i])
  {
    if states == [] then [] else [WithLabel(t, states[0])] + FanOut(t, states[1..])
  }

  /**
   * After a percentage placement has been migrated to pixels of a display of
   * exactly the stage size, an unscaled export gives back the original
   * percentages.
   */
  lemma MigrateThenExport(p: Placement, scaleX: real, scaleY: real, rotation: real,
                          stageWidth: real, stageHeight: real)
    requires p.coords == Perc
    requires stageWidth != 0.0 && stageHeight != 0.0
    requires ScaleOr1(scaleX) == 1.0 && ScaleOr1(scaleY) == 1.0
    ensures var q := Migrate(p, stageWidth, stageHeight);
            NormalizedValue(q.x, q.y, q.width, q.height, scaleX, scaleY, rotation, stageWidth, stageHeight)
            == map["x" := Num(p.x), "y" := Num(p.y), "width" := Num(p.width),
                   "height" := Num(p.height), "rotation" := Num(rotation)]
  {
    var q := Migrate(p, stageWidth, stageHeight);
    assert q.width * ScaleOr1(scaleX) == q.width && q.height * ScaleOr1(scaleY) == q.height;
    assert ToPercent(q.x, stageWidth) == p.x && ToPercent(q.width, stageWidth) == p.width;
    assert ToPercent(q.y, stageHeight) == p.y && ToPercent(q.height, stageHeight) == p.height;
  }

  /** Scaling by `scaleX` scales the exported width and nothing else. */
  lemma ExportScalesWidthOnly(x: real, y: real, width: real, height: real, scaleX: real, scaleY: real,
                              rotation: real, stageWidth: real, stageHeight: real)
    requires stageWidth != 0.0 && stageHeight != 0.0
    requires scaleX != 0.0
    ensures var unit := NormalizedValue(x, y, width, height, 1.0, scaleY, rotation, stageWidth, stageHeight);
            var scaled := NormalizedValue(x, y, width, height, scaleX, scaleY, rotation, stageWidth, stageHeight);
            scaled["width"].n == scaleX * unit["width"].n &&
            forall k :: k in GeometryKeys && k != "width" ==> scaled[k] == unit[k]
  {
    var unit := NormalizedValue(x, y, width, height, 1.0, scaleY, rotation, stageWidth, stageHeight);
    var scaled := NormalizedValue(x, y, width, height, scaleX, scaleY, rotation, stageWidth, stageHeight);
    assert width * ScaleOr1(1.0) == width;
    var scaledWidth := width * ScaleOr1(scaleX);
    assert scaledWidth == scaleX * width;
    assert unit["width"].n == ToPercent(width, stageWidth);
    assert scaled["width"].n == ToPercent(scaledWidth, stageWidth);
    PercentIsLinear(scaleX, width, stageWidth);
    assert scaled["x"] == unit["x"] && scaled["y"] == unit["y"];
    assert scaled["height"] == unit["height"] && scaled["rotation"] == unit["rotation"];
  }
}
