# Rectangle region of the image annotation surface

This project models the rectangle region of the image-annotation front end. It is the model
behind `RectRegionModel` in `src/interfaces/object/RectRegion.js`. A region is a rotatable,
scalable rectangle drawn on an image, and the model covers these of its parts:

- its geometry: `x`, `y`, `width`, `height`, `scaleX`, `scaleY`, `rotation`;
- its coordinate tag `coordstype`, which is pixels or percentages;
- the image sizes it was last told about;
- its attached label states and its own selection flag;
- what it does with all of these.

The operations modelled are:

- the gesture mutators `setPosition` and `setScale`;
- the hit test `coordsInside`;
- `addState`;
- the one-shot percent-to-pixel migration in `updateImageSize`;
- `selectRegion` and `unselectRegion`, as far as the region's own flag goes;
- the drag clamp of the view;
- `toStateJSON`, which exports the region as annotation records.

Numbers are Dafny `real`s, so every multiplication and division is exact.

The files:

- `wrappers.dfy`: `Option`, which stands for the fields that may be `null`.
- `coords.dfy` (module `Coords`): the pure coordinate arithmetic. It holds the `|| 1` scale
  default, the percent/pixel conversions with their round trips, the `Placement` value and
  `Migrate`, and the drag clamp.
- `export.dfy` (module `Export`): the export record. It holds the label state (its kind and
  its selected names), the record and its `value` map, the normalized geometry, the merge of
  one label state into a record, and the fan-out over the states (`states.map`).
- `region.dfy` (module `RectRegion`): the class `Region`. Its fields are the model's fields.
  Its mutators are methods whose field-level `modifies` clauses name exactly the fields they
  assign. The hit test and the export are functions reading the region. Lemmas follow about
  the hit test's boundary and about export records agreeing with each other.

In these places the model follows the code as written:

- `setPosition` does not clamp the width or height to be non-negative.
- `updateImageSize` does not guard zero extents. Over reals, a zero extent just yields zero
  pixels.
- The hit test ignores rotation.
- A flipped rectangle contains no point at all. Its scaled size is negative, so the strict
  interval is empty (`FlatOrFlippedContainsNothing`).
- Exporting needs a stage of non-zero size and at least one control on the owning image.
  The code reads `parent.states()[0].name` and divides by the stage size without a check, so
  these are preconditions (`CanExport`).
- The code adds a label under `value[s.type]`. The model stores `value` as a map, so a kind
  equal to a geometry key overwrites that entry, as in JavaScript. The export contracts
  state the geometry for every key other than the record's own kind.

## Model

| member | source | states |
|---|---|---|
| Coords.ScaleOr1 | src/interfaces/object/RectRegion.js:78-79 | a zero scale factor counts as 1; every other factor is used as it is; the result is never zero |
| Coords.ToPixel | src/interfaces/object/RectRegion.js:122-125 | the pixel value of a percentage of an extent; for a non-zero extent, converting it back gives the percentage; a percentage in [0,100] lands within the extent |
| Coords.ToPercent | src/interfaces/object/RectRegion.js:142-145 | the percentage of the stage extent a pixel value is; scaling it back by the extent gives the pixel value; a pixel value within the extent gives a percentage in [0,100] |
| Coords.PercentIsLinear | src/interfaces/object/RectRegion.js:144-145 | the percentage of a scaled pixel value is the scaled percentage, for a non-zero extent |
| Coords.ToPercentUnique | src/interfaces/object/RectRegion.js:142-145 | the percentage of a pixel value is the only value that converts back to it |
| Coords.Migrate | src/interfaces/object/RectRegion.js:121-127 | the result is always tagged as pixels; a pixel placement is returned unchanged; for a percentage placement, each migrated coordinate is, as a percentage of its display extent, the original value, and a zero extent gives zero pixels on that axis |
| Coords.MigrateOnce | src/interfaces/object/RectRegion.js:114-127 | a second migration, with any sizes, leaves the once-migrated placement unchanged |
| Coords.DragBound | src/interfaces/object/RectRegion.js:246-256 | each clamped coordinate is the least value that is non-negative and no smaller than the dragged one |
| Coords.DragBoundIdempotent | src/interfaces/object/RectRegion.js:246-256 | clamping twice is clamping once; a position with both coordinates non-negative is kept |
| Export.NormalizedValue | src/interfaces/object/RectRegion.js:141-147 | the value has exactly the keys x, y, width, height, rotation, all numbers; converted back to pixels of the same stage they give the origin and the scaled size; rotation is passed through |
| Export.WithLabel | src/interfaces/object/RectRegion.js:157-161 | the record takes the state's kind as its type and holds the selected names under that kind; every other value entry and every other field is kept |
| Export.FanOut | src/interfaces/object/RectRegion.js:156-163 | one record per state, in state order, the i-th being the base record labelled with the i-th state |
| Export.MigrateThenExport | src/interfaces/object/RectRegion.js:121-146 | a percentage placement migrated with the stage size as display size, exported unscaled, gives back its original x, y, width and height, with rotation unchanged |
| Export.ExportScalesWidthOnly | src/interfaces/object/RectRegion.js:144-145 | a non-zero scaleX multiplies the exported width by scaleX and leaves the other geometry entries as they are at scale 1 |
| RectRegion.Region.constructor | src/interfaces/object/RectRegion.js:24-57 | the region holds the given snapshot fields, the given or null image sizes, and no selection; a missing scale becomes 1, a missing rotation 0 and a missing coordinate tag pixels |
| RectRegion.Region.CoordsInside | src/interfaces/object/RectRegion.js:74-84 | true exactly when the point lies strictly between the origin and origin plus scaled size on both axes, with scale defaulting to 1 |
| RectRegion.Region.UnselectRegion | src/interfaces/object/RectRegion.js:68-72 | the region's selection flag is false; nothing else of the region changes |
| RectRegion.Region.SelectRegion | src/interfaces/object/RectRegion.js:86-90 | the region's selection flag is true; nothing else of the region changes |
| RectRegion.Region.SetPosition | src/interfaces/object/RectRegion.js:92-99 | x, y, width, height and rotation become the given values; scale, states, coordinate tag and all other fields are unchanged |
| RectRegion.Region.SetScale | src/interfaces/object/RectRegion.js:101-104 | scaleX and scaleY become the given values; placement, rotation, states and everything else are unchanged |
| RectRegion.Region.AddState | src/interfaces/object/RectRegion.js:106-108 | with a state list, the state is appended at the end, the list grows by one and earlier states keep their places; without one the push fails and nothing changes |
| RectRegion.Region.UpdateImageSize | src/interfaces/object/RectRegion.js:114-128 | the four sizes are recorded; the placement becomes Migrate of the old one (rescaled once if in percentages, untouched if in pixels); the tag ends as pixels; scale, rotation and states are unchanged |
| RectRegion.Region.BaseRecord | src/interfaces/object/RectRegion.js:134-153 | the record carries the region's id, the first control's name, the image's name and value, the normalization if present, type "rectangle", and a value holding exactly the normalized geometry |
| RectRegion.Region.ToStateJSON | src/interfaces/object/RectRegion.js:130-167 | with a non-empty state list: exactly one record per state, in order, typed by the state's kind and holding its selected names, each sharing id, from-name, to-name, source, normalization and the normalized geometry; otherwise one record of type "rectangle" whose value holds only the geometry |
| RectRegion.EdgesAreOutside | src/interfaces/object/RectRegion.js:81 | points on any of the four edges are not inside |
| RectRegion.ZeroScaleIsUnitScale | src/interfaces/object/RectRegion.js:78-81 | with zero scales the hit test uses the unscaled width and height |
| RectRegion.FlatOrFlippedContainsNothing | src/interfaces/object/RectRegion.js:76-83 | a region with a non-positive scaled width or height contains no point |
| RectRegion.ExportRecordsAgree | src/interfaces/object/RectRegion.js:134-163 | any two records of one export share id, from-name, to-name, source, normalization and every geometry entry neither kind overwrites |
| RectRegion.MigratedRegionExportsPercentages | src/interfaces/object/RectRegion.js:121-146 | an unscaled region obtained by migrating a percentage placement at the stage size exports its original percentages (the region-level form of Export.MigrateThenExport) |

## Left out

- The React/Konva view `HtxRectangleView` (lines 177-292) is rendering glue and is not part of this model. That covers drawing, the cursor changes on hover and click, the stroke and highlight presentation props, and the transform and drag callbacks, which only forward to `setPosition` and `setScale`. The one exception is the drag clamp, which is `DragBound`.
- The `wp` and `hp` values computed in the view are never used and are not modelled.
- `setFill` writes a field `fill` that the model does not declare. It has no behaviour to state and is not modelled.
- The parent image is passed in rather than looked up with `getParentOfType`. It arrives as an `ImageParent` value with its name, value, stage size and control names.
- The completion store reached through `getRoot` is left out. It is only the target of the selection notifications described below.
- `Registry.addTag`, which registers the tag with the view, is left out.
- The mixins composed in by `types.compose` (`RegionsMixin`, `NormalizationMixin`) are not modelled as such. The two fields of theirs that this file uses, `selected` and `normalization`, are declared on `Region` itself. `normalization` is an opaque `Option<string>` given to the constructor and copied into every record.
- `pid` defaults to a `guidGenerator` id in the source. That is random, so here the caller supplies it.
- The notifications `selectRegion` and `unselectRegion` send to the completion store (`setHighlightedNode`) and to the parent image (`setSelected`) are not modelled. They update stores outside the region. Only the region's own `selected` flag is modelled. The `highlighted` flag belongs to the mixin and is not part of this model.
- The label state models (labels, rating, rectangle labels) are defined in other files and are not part of this model. A state is seen only through its `type` and the result of `getSelectedNames()`.
- Numbers are IEEE doubles in the source and exact reals here. Rounding, NaN and infinities are not modelled. A NaN scale, which `|| 1` also maps to 1, is one of the things this leaves out.
- RectRegion.Region.ToStateJSON: the source leaves a zero stage size and an image without controls unguarded. The model states both as the precondition `CanExport` rather than modelling the non-finite numbers or the thrown error. The same precondition is on `BaseRecord` and `ExportedGeometry`.
- Export.NormalizedValue: for the same reason it requires a non-zero stage width and height.
- Normalization is included when it is present (`Some`). The JavaScript truthiness test would also drop an empty string; the model does not capture that case.
- The constant `type: "rectangleregion"` is not modelled. The style fields (opacity, stroke width and colours) are carried in the `style` field, and no operation of the core reads or changes them.
