/**
 * The rectangle region of an image annotation: its geometry and coordinate
 * tag, its attached label states, its local selection flag, the mutators the
 * view's gesture callbacks and the owning image call, the hit test, and the
 * export of the region as annotation records.
 */
module RectRegion {
  import opened Wrappers
  import opened Coords
  import opened Export

  /** The presentation properties of a region; no operation of the region changes them. */
  datatype Style = Style(opacity: real, strokeWidth: real, fillColor: Option<string>, strokeColor: string)

  /**
   * What the region reads from its owning image when it is exported: the
   * image's name and value, its current stage size, and the names of the
   * control tags that label it (the export takes the first as its from-name).
   */
  datatype ImageParent = ImageParent(
    name: string,
    value: string,
    stageWidth: real,
    stageHeight: real,
    controlNames: seq<string>)

  /** What `toStateJSON` demands of the owning image: a stage of non-zero size and a control. */
  predicate CanExport(parent: ImageParent)
  {
    parent.stageWidth != 0.0 && parent.stageHeight != 0.0 && |parent.controlNames| > 0
  }

  class Region {
    const id: string
    var pid: string

    var x: real
    var y: real
    var width: real
    var height: real
    var scaleX: real
    var scaleY: real
    var rotation: real

    var style: Style

    /** The attached label states; `None` when the region was created without a list. */
    var states: Option<seq<LabelState>>

    var wp: Option<real>
    var hp: Option<real>
    var sw: Option<real>
    var sh: Option<real>

    var coordstype: CoordsType

    var selected: bool

    /** The shared label-configuration fragment copied into every exported record. */
    var normalization: Option<string>

    /**
     * A region as created from a snapshot. The fields the snapshot may omit
     * are `None` here and take the declared defaults: scale 1 on both axes,
     * rotation 0 and coordinates in pixels. The image sizes may be present
     * in the snapshot or left `null`. `pid` would default to a fresh
     * generated id; here the caller supplies it. The region is not selected.
     */
    constructor (id: string, pid: string, x: real, y: real, width: real, height: real,
                 scaleX: Option<real>, scaleY: Option<real>, rotation: Option<real>, style: Style,
                 states: Option<seq<LabelState>>,
                 wp: Option<real>, hp: Option<real>, sw: Option<real>, sh: Option<real>,
                 coordstype: Option<CoordsType>, normalization: Option<string>)
      ensures this.id == id && this.pid == pid
      ensures this.x == x && this.y == y && this.width == width && this.height == height
      ensures scaleX.None? ==> this.scaleX == 1.0
      ensures scaleX.Some? ==> this.scaleX == scaleX.value
      ensures scaleY.None? ==> this.scaleY == 1.0
      ensures scaleY.Some? ==> this.scaleY == scaleY.value
      ensures rotation.None? ==> this.rotation == 0.0
      ensures rotation.Some? ==> this.rotation == rotation.value
      ensures coordstype.None? ==> this.coordstype == Px
      ensures coordstype.Some? ==> this.coordstype == coordstype.value
      ensures this.style == style && this.states == states
      ensures this.wp == wp && this.hp == hp && this.sw == sw && this.sh == sh
      ensures this.normalization == normalization
      ensures !selected
    {
      this.id := id;
      this.pid := pid;
      this.x, this.y, this.width, this.height := x, y, width, height;
      this.scaleX := scaleX.GetOr(1.0);
      this.scaleY := scaleY.GetOr(1.0);
      this.rotation := rotation.GetOr(0.0);
      this.style := style;
      this.states := states;
      this.wp, this.hp, this.sw, this.sh := wp, hp, sw, sh;
      this.coordstype := coordstype.GetOr(Px);
      this.normalization := normalization;
      selected := false;
    }

    /** The origin, size and coordinate tag that an image-size update may rewrite. */
    function CurrentPlacement(): Placement
      reads this
    {
      Placement(x, y, width, height, coordstype)
    }

    /**
     * The hit test: the point lies strictly inside the rectangle spanned by
     * the origin and the scaled size (a zero scale counting as one). Points
     * on an edge are outside, and rotation is not taken into account.
     */
    function CoordsInside(px: real, py: real): (b: bool)
      reads this
      ensures b <==> x < px < x + width * ScaleOr1(scaleX) && y < py < y + height * ScaleOr1(scaleY)
    {
      var rx := x;
      var ry := y;
      var rw := width * ScaleOr1(scaleX);
      var rh := height * ScaleOr1(scaleY);
      px > rx && px < rx + rw && py > ry && py < ry + rh
    }

    /** Clears the region's own selection flag; nothing else of the region changes. */
    method UnselectRegion()
      modifies this`selected
      ensures !selected
    {
      selected := false;
    }

    /** Sets the region's own selection flag; nothing else of the region changes. */
    method SelectRegion()
      modifies this`selected
      ensures selected
    {
      selected := true;
    }

    /**
     * Overwrites the origin, the unscaled size and the rotation with the
     * values a drag or transform reports, without any check; scale, states,
     * coordinate tag and everything else are left as they were.
     */
    method SetPosition(x: real, y: real, width: real, height: real, rotation: real)
      modifies this`x, this`y, this`width, this`height, this`rotation
      ensures this.x == x && this.y == y && this.width == width && this.height == height
      ensures this.rotation == rotation
      ensures scaleX == old(scaleX) && scaleY == old(scaleY)
      ensures states == old(states) && coordstype == old(coordstype)
    {
      this.x := x;
      this.y := y;
      this.width := width;
      this.height := height;
      this.rotation := rotation;
    }

    /** Overwrites both scale factors; the rest of the region is left as it was. */
    method SetScale(x: real, y: real)
      modifies this`scaleX, this`scaleY
      ensures scaleX == x && scaleY == y
      ensures CurrentPlacement() == old(CurrentPlacement()) && rotation == old(rotation)
      ensures states == old(states)
    {
      scaleX := x;
      scaleY := y;
    }

    /**
     * Appends a label state at the end of the list: the earlier states stay
     * where they were. A region without a state list cannot take one (the
     * push fails), which `ok == false` reports, and then nothing changes.
     */
    method AddState(s: LabelState) returns (ok: bool)
      modifies this`states
      ensures ok <==> old(states).Some?
      ensures ok ==> states.Some? && states.value == old(states).value + [s]
      ensures ok ==> |states.value| == |old(states).value| + 1 && states.value[|states.value| - 1] == s
      ensures ok ==> forall i :: 0 <= i < |old(states).value| ==> states.value[i] == old(states).value[i]
      ensures !ok ==> states == old(states)
    {
      if states.None? {
        ok := false;
        return;
      }
      states := Some(states.value + [s]);
      ok := true;
    }

    /**
     * Records the image sizes and, the first time only, migrates a placement
     * given in percentages to pixels of the display extents `sw` and `sh`.
     * Afterwards the region is in pixels; scale, rotation and states are
     * left as they were.
     */
    method UpdateImageSize(wp: real, hp: real, sw: real, sh: real)
      modifies this`wp, this`hp, this`sw, this`sh
      modifies this`x, this`y, this`width, this`height, this`coordstype
      ensures this.wp == Some(wp) && this.hp == Some(hp)
      ensures this.sw == Some(sw) && this.sh == Some(sh)
      ensures CurrentPlacement() == Migrate(old(CurrentPlacement()), sw, sh)
      ensures coordstype == Px
      ensures old(coordstype) == Px ==> CurrentPlacement() == old(CurrentPlacement())
      ensures scaleX == old(scaleX) && scaleY == old(scaleY) && rotation == old(rotation)
      ensures states == old(states)
    {
      this.wp := Some(wp);
      this.hp := Some(hp);
      this.sw := Some(sw);
      this.sh := Some(sh);
      if coordstype == Perc {
        x := (sw * x) / 100.0;
        y := (sh * y) / 100.0;
        width := (sw * width) / 100.0;
        height := (sh * height) / 100.0;
        coordstype := Px;
      }
    }

    /** The normalized geometry part of every record this region exports. */
    function ExportedGeometry(parent: ImageParent): (v: map<string, Field>)
      reads this
      requires CanExport(parent)
    {
      NormalizedValue(x, y, width, height, scaleX, scaleY, rotation, parent.stageWidth, parent.stageHeight)
    }

    /**
     * `r` is a record of this region for `parent`: it carries the region's id,
     * the first control's name, the image's name and value, the region's
     * normalization, and the normalized geometry under every geometry key
     * other than its own type.
     */
    predicate Describes(r: Record, parent: ImageParent)
      reads this
      requires CanExport(parent)
    {
      r.id == id && r.fromName == parent.controlNames[0] &&
      r.toName == parent.name && r.source == parent.value &&
      r.normalization == normalization &&
      forall k :: k in GeometryKeys && k != r.kind ==> k in r.value && r.value[k] == ExportedGeometry(parent)[k]
    }

    /**
     * `buildTree`: the record of type "rectangle" built for the region before
     * any label state is merged in. It describes the region, and its value
     * holds the normalized geometry and nothing else.
     */
    function BaseRecord(parent: ImageParent): (t: Record)
      reads this
      requires CanExport(parent)
      ensures Describes(t, parent)
      ensures t.kind == RectangleKind && t.value.Keys == GeometryKeys
    {
      Record(id, parent.controlNames[0], parent.name, parent.value, RectangleKind,
             ExportedGeometry(parent), normalization)
    }

    /**
     * The export: one record per attached label state, in state order, typed
     * by the state's kind and holding its selected names under that kind;
     * or, without states, one bare record of type "rectangle" whose value
     * holds the geometry and nothing else.
     */
    function ToStateJSON(parent: ImageParent): (out: StateJson)
      reads this
      requires CanExport(parent)
      ensures out.List? <==> states.Some? && |states.value| > 0
      ensures out.List? ==>
                |out.records| == |states.value| &&
                forall i :: 0 <= i < |out.records| ==>
                  Describes(out.records[i], parent) &&
                  out.records[i].kind == states.value[i].kind &&
                  out.records[i].value.Keys == GeometryKeys + {states.value[i].kind} &&
                  out.records[i].value[states.value[i].kind] == Names(states.value[i].selectedNames)
      ensures out.One? ==>
                Describes(out.record, parent) &&
                out.record.kind == RectangleKind && out.record.value.Keys == GeometryKeys
    {
      var tree := BaseRecord(parent);
      if states.Some? && |states.value| > 0 then
        List(FanOut(tree, states.value))
      else
        One(tree)
    }
  }

  /** Points on any of the four edges of a region are not inside it. */
  lemma EdgesAreOutside(r: Region, px: real, py: real)
    ensures !r.CoordsInside(r.x, py) && !r.CoordsInside(px, r.y)
    ensures !r.CoordsInside(r.x + r.width * ScaleOr1(r.scaleX), py)
    ensures !r.CoordsInside(px, r.y + r.height * ScaleOr1(r.scaleY))
  {
  }

  /** With both scale factors zero the hit test uses the unscaled size. */
  lemma ZeroScaleIsUnitScale(r: Region, px: real, py: real)
    requires r.scaleX == 0.0 && r.scaleY == 0.0
    ensures r.CoordsInside(px, py) <==> r.x < px < r.x + r.width && r.y < py < r.y + r.height
  {
  }

  /**
   * A region whose scaled width or height is not positive (a zero size, or a
   * negative scale that flips it) contains no point at all.
   */
  lemma FlatOrFlippedContainsNothing(r: Region, px: real, py: real)
    requires r.width * ScaleOr1(r.scaleX) <= 0.0 || r.height * ScaleOr1(r.scaleY) <= 0.0
    ensures !r.CoordsInside(px, py)
  {
  }

  /**
   * All records of one export agree on id, from-name, to-name, source and
   * normalization, and on every geometry entry that neither record's label
   * kind overwrites.
   */
  lemma ExportRecordsAgree(r: Region, parent: ImageParent, i: nat, j: nat)
    requires CanExport(parent)
    requires r.ToStateJSON(parent).List?
    requires i < |r.ToStateJSON(parent).records| && j < |r.ToStateJSON(parent).records|
    ensures var a, b := r.ToStateJSON(parent).records[i], r.ToStateJSON(parent).records[j];
            a.id == b.id && a.fromName == b.fromName && a.toName == b.toName &&
            a.source == b.source && a.normalization == b.normalization &&
            forall k :: k in GeometryKeys && k != a.kind && k != b.kind ==> a.value[k] == b.value[k]
  {
  }

  /**
   * A region given in percentages, migrated by an image-size update whose
   * display extents are the stage size and left unscaled, exports its
   * original percentages.
   */
  lemma MigratedRegionExportsPercentages(r: Region, parent: ImageParent, p: Placement)
    requires CanExport(parent)
    requires p.coords == Perc
    requires r.CurrentPlacement() == Migrate(p, parent.stageWidth, parent.stageHeight)
    requires r.scaleX == 1.0 && r.scaleY == 1.0
    ensures r.ExportedGeometry(parent) ==
              map["x" := Num(p.x), "y" := Num(p.y), "width" := Num(p.width),
                  "height" := Num(p.height), "rotation" := Num(r.rotation)]
  {
    MigrateThenExport(p, r.scaleX, r.scaleY, r.rotation, parent.stageWidth, parent.stageHeight);
  }
}
