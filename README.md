# Bounding-box annotation engine: a Dafny model

This project models the interaction core of a browser tool for drawing,
editing and tagging rectangular bounding boxes over an image. A box is an
annotation record with geometry, a tag (Button, Input, Radio or Dropdown),
an id and a source (drawn by hand, or proposed by an LLM prediction
service). The model covers four parts:

- **The canvas handlers** (`AnnotationCanvas`). Mouse-down starts a
  rubber-band rectangle. Mouse-move stretches it, with no normalising and
  no clamping. Mouse-up commits it only when both extents exceed 10 in
  absolute value. The committed box is normalised and clamped to the image
  in four steps. The canvas also handles click-to-select, deletion by
  double-click or the Delete key, drag, and resize with a floor of 10.
  `Canvas` is a class holding the drawing state (`drawing`, `newRect`). It
  changes the application's `annotations` and `selectedId` through a shared
  `App.App` object, which stands for the setters React hands the canvas.
- **The application state** (`App`). A prediction answer replaces every
  LLM record with the new batch and keeps the other records in order. A
  failed request changes nothing. The tag selector retags the selected
  record. The selected record is found as the first one with the selected
  id. The download produces the export projection.
- **The geometry and export utilities** (`AnnotationUtils`).
  Intersection-over-union is computed over `real` with exact division. The
  export projection keeps `x, y, width, height, tag` and drops `id` and
  `source`.
- **Shared pieces** (`Annotations`, `Seqs`, `Wrappers`). These hold the
  record types, the "update by id" (`map`) and "remove by id" (`filter`)
  patterns, the generic order-preserving `Filter`, and the store invariant
  that ids are unique.

`Scenarios` drives both classes through concrete event sequences. It
covers: a 150 × 80 draw on an 800 × 600 image; a backwards draw; a band
exactly 10 wide; a band past the image edge; a 5 × 3 gesture; select,
retag and delete; and an empty prediction answer over two manual and
three predicted records.

Coordinates are `real`. Image sizes are natural numbers of pixels. Ids are
strings supplied by the caller. The JavaScript truthiness of `selectedId`
and `image` is modelled exactly: null and `""` are falsy.

The code does not have the following behaviours, and the model does not
add them:
- a newly drawn box is not auto-selected;
- clicking a box always selects it (no toggle);
- there is no Escape handler and no pointer-leave commit;
- dragging does not clamp to the image, and resizing does not clamp either;
- deletion always clears the selection, even when another record was selected;
- the minimum-size test runs on the raw band before clamping, so a box
  committed on an image narrower than 10 px can be narrower than 10;
- loading a new image does not clear the records or the selection;
- a prediction merge that removes the selected LLM record leaves
  `selectedId` pointing at nothing. `SelectedAnnotation` then yields none
  (`RetagSpec` states that retagging is then a no-op).

## Model

| member | source | states |
|---|---|---|
| `AnnotationCanvas.Canvas.constructor` | src/components/AnnotationCanvas.tsx:29-33 | the canvas starts not drawing, with no band, over the given store and tag list |
| `AnnotationCanvas.Canvas.HandleMouseDown` | src/components/AnnotationCanvas.tsx:35-49 | while drawing, or on a press that lands on a record, nothing changes; otherwise the band becomes a 0 × 0 rectangle at the pointer, drawing starts and the selection is cleared; the records are untouched |
| `AnnotationCanvas.Canvas.HandleMouseMove` | src/components/AnnotationCanvas.tsx:51-61 | while drawing, the band keeps its origin and its extents become pointer minus origin, possibly negative and unclamped; otherwise it is a no-op |
| `AnnotationCanvas.Canvas.HandleMouseUp` | src/components/AnnotationCanvas.tsx:63-92 | exactly one record is appended iff a band exists and both absolute extents are strictly greater than 10; that record is the normalised band, clamped when the image is known, with the first tag, the fresh id and source manual; the previous records stay in order; afterwards there is no band and no drawing, whether or not anything was committed; selection unchanged; ids stay unique |
| `AnnotationCanvas.Normalize` | src/components/AnnotationCanvas.tsx:65-70 | the normalised box has non-negative extents equal to the absolute extents and spans the same pair of x corners and y corners as the band |
| `AnnotationCanvas.NormalizeKeepsNormal` | src/components/AnnotationCanvas.tsx:65-70 | a box whose extents are already non-negative is unchanged |
| `AnnotationCanvas.ClampInside` | src/components/AnnotationCanvas.tsx:73-77 | for a box with non-negative extents, the four-step clamp gives x ≥ 0, y ≥ 0, non-negative extents, x + width ≤ image width and y + height ≤ image height |
| `AnnotationCanvas.ClampKeepsInside` | src/components/AnnotationCanvas.tsx:73-77 | a box already inside the image comes out unchanged |
| `AnnotationCanvas.ClampIdempotent` | src/components/AnnotationCanvas.tsx:73-77 | clamping a clamped box changes nothing |
| `AnnotationCanvas.ClampKeepsFittingSize` | src/components/AnnotationCanvas.tsx:73-77 | an extent that fits in the image is kept, so the box is moved, not shrunk; an extent larger than the image becomes the image's, starting at 0 |
| `AnnotationCanvas.MeetsMinimumSize` | src/components/AnnotationCanvas.tsx:64 | the commit test, both absolute extents strictly above 10; no contract of its own; `HandleMouseUp` states when it commits |
| `AnnotationCanvas.ClampToImage` | src/components/AnnotationCanvas.tsx:73-77 | the four clamp steps; no contract of its own; `ClampInside`, `ClampKeepsInside`, `ClampIdempotent` and `ClampKeepsFittingSize` characterise it, and `HandleMouseUp` runs the steps in source order against it |
| `AnnotationCanvas.CommittedBox` | src/components/AnnotationCanvas.tsx:64-78 | the committed geometry has non-negative extents; with the image loaded it lies inside the image, and equals the normalised band when that already fits; without the image it is the normalised band |
| `AnnotationCanvas.NewRecord` | src/components/AnnotationCanvas.tsx:80-88 | the appended record; no contract of its own; `CommittedBox` states its geometry and `HandleMouseUp` its tag, id and source |
| `AnnotationCanvas.Canvas.HandleRectClick` | src/components/AnnotationCanvas.tsx:94-96 | the clicked record's id becomes the selection |
| `AnnotationCanvas.Canvas.HandleDelete` | src/components/AnnotationCanvas.tsx:98-101 | the records become those without the id, in order, and the selection is cleared |
| `Annotations.OtherThan` | src/components/AnnotationCanvas.tsx:99 | the delete test on one record; no contract of its own; `RemoveIdSpec` characterises the filter built from it |
| `Annotations.RemoveId` | src/components/AnnotationCanvas.tsx:99 | the delete filter; no contract of its own; `RemoveIdSpec` characterises it |
| `Annotations.RemoveIdSpec` | src/components/AnnotationCanvas.tsx:99 | after removal the records are exactly the previous ones with another id, in the same relative order (removal distributes over concatenation); no record and no lookup finds the id; ids stay unique; with no record carrying the id nothing changes |
| `AnnotationCanvas.Canvas.HandleKeyDown` | src/components/AnnotationCanvas.tsx:104-112 | the key "Delete" with a non-empty selected id deletes that id and clears the selection; any other key, or a null or empty selection, changes nothing |
| `AnnotationCanvas.MoveTo` | src/components/AnnotationCanvas.tsx:116 | the position overwrite of one record; no contract of its own; `DragSpec` characterises its use |
| `AnnotationCanvas.DragMoved` | src/components/AnnotationCanvas.tsx:116 | the drag update of the store; no contract of its own; `DragSpec` characterises it |
| `AnnotationCanvas.DragSpec` | src/components/AnnotationCanvas.tsx:115-117 | a drag sets x and y of the records with the id, unclamped; every other field of those records and every other record is unchanged; ids stay unique |
| `AnnotationCanvas.Canvas.HandleDragMove` | src/components/AnnotationCanvas.tsx:115-117 | the store becomes the drag update of the old store; ids stay unique |
| `AnnotationCanvas.Reshape` | src/components/AnnotationCanvas.tsx:125-131 | the geometry overwrite of one record with the floor of 10; no contract of its own; `TransformSpec` characterises its use |
| `AnnotationCanvas.Transformed` | src/components/AnnotationCanvas.tsx:123-133 | the resize update of the store; no contract of its own; `TransformSpec` characterises it |
| `AnnotationCanvas.TransformSpec` | src/components/AnnotationCanvas.tsx:119-133 | a resize gives the records with the id the node's position and scaled size, each extent the scaled extent when that is at least 10 and exactly 10 otherwise; tag, id and source are kept; other records are unchanged |
| `AnnotationCanvas.Canvas.HandleTransform` | src/components/AnnotationCanvas.tsx:119-133 | the store becomes the resize update of the old store; ids stay unique |
| `Annotations.UpdateById` | src/components/AnnotationCanvas.tsx:116 | the id-guarded map keeps the length of the store |
| `Annotations.UpdateKeepsIds` | src/App.tsx:100 | an id-guarded map whose update keeps ids keeps every record's id and the id set, so uniqueness survives; with no record carrying the id it is the identity |
| `Annotations.UpdateThenFind` | src/App.tsx:98-101 | the first record with the id after an id-guarded map is the update of the first record with the id before it |
| `Annotations.FindById` | src/App.tsx:98 | none iff no record has the id; otherwise a record with that id at some index before which no record has the id |
| `Annotations.UniqueAppend` | src/components/AnnotationCanvas.tsx:80-88 | appending records whose ids are disjoint from the store's keeps ids unique |
| `Annotations.FilterKeepsUnique` | src/App.tsx:68 | filtering never creates a duplicate id and never adds an id |
| `Seqs.Filter` | src/App.tsx:68 | the filtered sequence is no longer than the input and contains exactly the input's elements that satisfy the predicate |
| `Seqs.FilterConcat` | src/App.tsx:68 | filtering a concatenation is the concatenation of the filtered parts, so relative order is kept |
| `Seqs.FilterKeepsAll` | src/App.tsx:68 | a sequence whose every element passes is returned unchanged |
| `Seqs.FilterDropsAll` | src/App.tsx:68 | a sequence no element of which passes filters to empty |
| `App.BatchOf` | src/App.tsx:62 | the answer's batch, empty when the field is missing; no contract of its own; `HandlePredict` and `MergeEmptyBatch` state its use |
| `App.NotLlm` | src/App.tsx:68 | the merge's filter test, source other than llm; no contract of its own; `MergeKeepsManual` characterises the filter built from it |
| `App.Tagged` | src/App.tsx:62-66 | one stored record per batch entry |
| `App.TaggedAllLlm` | src/App.tsx:62-66 | every record made from a batch has source llm |
| `App.MergePrediction` | src/App.tsx:67-70 | the merge; no contract of its own; `MergeKeepsManual`, `MergeReplacesLlm`, `MergeSupersedes` and `MergeUnique` characterise it |
| `App.MergeKeepsManual` | src/App.tsx:67-70 | after a merge the non-llm records are exactly the previous non-llm records, unchanged and in order |
| `App.MergeReplacesLlm` | src/App.tsx:62-70 | after a merge the llm records are exactly the batch in batch order, each with its supplied id, source llm and the entry's geometry and tag |
| `App.MergeEmptyBatch` | src/App.tsx:62-70 | an empty batch removes every llm record and keeps the manual ones |
| `App.MergeSupersedes` | src/App.tsx:67-70 | merging a second batch after a first gives the same store as merging only the second |
| `App.MergeUnique` | src/App.tsx:62-70 | with batch ids that are pairwise distinct and unused by the records the merge keeps, a merge keeps ids unique |
| `App.MergeExportIgnoresIds` | src/App.tsx:38-41 | the exported document after a merge does not depend on the ids assigned to the batch |
| `App.App.constructor` | src/App.tsx:21-24 | the application starts with no image, an empty file name, no records and no selection |
| `App.App.HandleImageUpload` | src/App.tsx:27-35 | a picked file sets the file name and the image; records and selection are kept; no file changes nothing |
| `Annotations.Truthy` | src/components/AnnotationCanvas.tsx:106 | JavaScript truthiness of an optional string, also the image guard at src/App.tsx:52; no contract of its own; `HandleKeyDown` and `HandlePredict` state its use |
| `App.App.HandlePredict` | src/App.tsx:51-80 | with a loaded image and a successful answer, the store becomes the merge of the old store with the answer's annotations (empty when the field is missing); with no image, an error status or a network failure the store is unchanged; ids stay unique |
| `App.SelectedAnnotation` | src/App.tsx:98 | none when nothing is selected or no record has the selected id; otherwise a record with that id at some index before which no record has it |
| `App.Retag` | src/App.tsx:100 | the retag map; no contract of its own; `RetagSpec` characterises it |
| `App.SetTag` | src/App.tsx:100 | the tag overwrite of one record; no contract of its own; `RetagSpec` characterises its use |
| `App.RetagSpec` | src/App.tsx:99-101 | retagging changes only the tag field, and only on records whose id is the selected one, to the new tag; with no match it is the identity; ids stay unique; the selected record afterwards is the old one with the new tag |
| `App.App.OnTagChange` | src/App.tsx:99-101 | the store becomes the retag of the old store for the current selection; ids stay unique |
| `App.App.HandleDownload` | src/App.tsx:37-41 | the document carries the file name and, per record in store order, exactly its x, y, width, height and tag |
| `AnnotationUtils.Project` | src/utils/annotationUtils.ts:6 | the per-record projection, also used at src/App.tsx:40; no contract of its own; `ExportForgetsIdentity` and `HandleDownload` state what it keeps |
| `AnnotationUtils.ExportAnnotations` | src/utils/annotationUtils.ts:3-9 | the exported document carries the file name and one entry per record |
| `AnnotationUtils.ExportForgetsIdentity` | src/utils/annotationUtils.ts:3-7 | two stores export identically iff they have the same length and their records agree everywhere except in id and source |
| `AnnotationUtils.ExportConcat` | src/utils/annotationUtils.ts:6 | the export of a concatenation is the concatenation of the exports, so length and order are kept |
| `AnnotationUtils.OverlapX` | src/utils/annotationUtils.ts:12-16 | the shared length along x is never negative |
| `AnnotationUtils.OverlapY` | src/utils/annotationUtils.ts:13-16 | the shared length along y is never negative |
| `AnnotationUtils.Intersection` | src/utils/annotationUtils.ts:12-16 | the intersection area is never negative |
| `AnnotationUtils.Area` | src/utils/annotationUtils.ts:17-18 | width times height of one box; no contract of its own; `IouSelf`, `IntersectionBounded` and `IouBounds` state its use |
| `AnnotationUtils.UnionArea` | src/utils/annotationUtils.ts:19 | the denominator, both areas minus the intersection; no contract of its own; `Iou` states that the ratio is defined exactly where it is non-zero, and `IouBounds` that it is at least the intersection for boxes of non-negative extent |
| `AnnotationUtils.Iou` | src/utils/annotationUtils.ts:11-19 | the ratio is defined iff the union area is non-zero; where the code divides by zero it is none |
| `AnnotationUtils.IouDisjoint` | src/utils/annotationUtils.ts:12-19 | boxes separated along an axis have intersection 0, and ratio 0 whenever the union is non-zero |
| `AnnotationUtils.IouSymmetric` | src/utils/annotationUtils.ts:11-19 | intersection and ratio do not depend on argument order |
| `AnnotationUtils.IouSelf` | src/utils/annotationUtils.ts:16-19 | a box with positive width and height overlaps itself in its own area, ratio 1 |
| `AnnotationUtils.IouSelfNegativeBox` | src/utils/annotationUtils.ts:16-19 | a box with both extents negative has positive area yet ratio 0 with itself, so positive extents are needed for the ratio 1 |
| `AnnotationUtils.IntersectionBounded` | src/utils/annotationUtils.ts:12-18 | for boxes of non-negative extent the intersection is at most each box's area |
| `AnnotationUtils.IouBounds` | src/utils/annotationUtils.ts:16-19 | for boxes of non-negative extent and non-zero union the ratio is defined and lies in [0, 1] |

## Left out

- Rendering: the JSX, the Konva stage and layer props, stroke and dash styling, and the whole tag selector component (src/components/TagSelector.tsx). These draw the state and hold no logic.
- `getScaledDimensions`: display scaling with a float ratio and `Math.round`.
- Coordinate units: the pointer parameters of the mouse handlers are what the stage's `getPointerPosition` returns, which for an image larger than 900 × 700 is in scaled stage pixels, while the drag and resize positions and the clamp's image size are in image pixels. The model treats all coordinates as one unit and does not tell these apart.
- Browser and network I/O: `fetch`, `res.json()`, `res.text()`, `alert`, `FileReader`, `Blob`, object URLs and the download anchor. The prediction request is a finished `PredictResponse`. The picked file arrives already read as a data URL. The download stops at the `ExportData` value.
- JSON formatting of the export and the `-annotations.json` file name derived by regular expression. Only the projection is modelled.
- Id generation from `Date.now()` and `Math.random()`. Ids are parameters.
- `AnnotationCanvas.Canvas.HandleMouseUp`: requires the supplied id to be absent from the store. The source draws it from a clock and a random number and does not check.
- `App.App.HandlePredict`: requires the supplied batch ids to be pairwise distinct and absent from the records the merge keeps. The source builds each id as `llm-`, the batch index, `-` and a random suffix, so the index makes them pairwise distinct and the `llm-` prefix keeps them apart from every `manual-` id; the model does not build the id strings and takes both facts as a precondition.
- Reading Konva node values (`getPointerPosition`, `e.target.x()`, `scaleX()` and so on). The hit test `className === 'Rect'` is the `onAnnotation` flag. The canvas takes these as parameters.
- Resetting the resized node's scale to 1 after a transform is a Konva node update, not store state.
- React plumbing: `useEffect` listener registration, `useCallback` and `isLoading` gating of the predict button. Each handler runs atomically on the current state. The model therefore does not capture stale closures, where a canvas handler acts on the `annotations` prop it captured, nor the asynchronous gap before a prediction is applied.
- `AnnotationCanvas.Canvas.constructor`: requires a non-empty tag list. The only caller passes the four tags; with an empty list the source would commit an undefined tag.
- The server's batch entries are typed `PredictedBox` values. The source spreads whatever fields the server sends, so extra or missing fields are not modelled.
- Floating point: coordinates are exact reals. NaN, infinities and rounding are not modelled, except that `Iou` yields none where the source divides by zero.
