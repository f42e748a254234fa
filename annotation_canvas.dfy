/** The drawing surface's event handlers (src/components/AnnotationCanvas.tsx):
    rubber-band drawing with normalise-and-clamp on commit, selection,
    deletion, drag and resize. */
module AnnotationCanvas {
  import opened Wrappers
  import opened Annotations
  import opened AnnotationUtils
  import App

  /** The smallest extent a drawn box must exceed to be kept, and the floor
      a resized box's extents are raised to. */
  const MinSize: real := 10.0

  /** Pixel dimensions of the loaded image. */
  datatype ImageSize = ImageSize(width: nat, height: nat)

  function Abs(v: real): real { if v < 0.0 then -v else v }

  /** The commit test of the mouse-up handler; an extent of exactly
      `MinSize` fails it. */
  predicate MeetsMinimumSize(r: Rect) {
    Abs(r.width) > MinSize && Abs(r.height) > MinSize
  }

  /** Flips a negative extent so that the box starts at its smaller corner.
      The result spans the same corners as the input. */
  function Normalize(r: Rect): (n: Rect)
    ensures n.width >= 0.0 && n.height >= 0.0
    ensures {n.x, n.x + n.width} == {r.x, r.x + r.width}
    ensures {n.y, n.y + n.height} == {r.y, r.y + r.height}
    ensures n.width == Abs(r.width) && n.height == Abs(r.height)
  {
    Rect(Min(r.x, r.x + r.width), Min(r.y, r.y + r.height), Abs(r.width), Abs(r.height))
  }

  /** A box with non-negative extents is already normalised. */
  lemma NormalizeKeepsNormal(r: Rect)
    requires r.width >= 0.0 && r.height >= 0.0
    ensures Normalize(r) == r
  {}

  /** The box lies within the image. */
  predicate Inside(r: Rect, img: ImageSize) {
    && 0.0 <= r.x && 0.0 <= r.y && 0.0 <= r.width && 0.0 <= r.height
    && r.x + r.width <= img.width as real && r.y + r.height <= img.height as real
  }

  /** The four successive updates of the mouse-up handler: shift the origin
      towards the image, then trim what still sticks out. */
  function ClampToImage(r: Rect, img: ImageSize): Rect {
    var w, h := img.width as real, img.height as real;
    var x := Max(0.0, Min(r.x, w - r.width));
    var y := Max(0.0, Min(r.y, h - r.height));
    Rect(x, y, Min(r.width, w - x), Min(r.height, h - y))
  }

  /** A normalised box comes out of the clamp inside the image. */
  lemma ClampInside(r: Rect, img: ImageSize)
    requires r.width >= 0.0 && r.height >= 0.0
    ensures Inside(ClampToImage(r, img), img)
  {}

  /** A box already inside the image is left as it is. */
  lemma ClampKeepsInside(r: Rect, img: ImageSize)
    requires Inside(r, img)
    ensures ClampToImage(r, img) == r
  {}

  /** Clamping twice is clamping once. */
  lemma ClampIdempotent(r: Rect, img: ImageSize)
    requires r.width >= 0.0 && r.height >= 0.0
    ensures ClampToImage(ClampToImage(r, img), img) == ClampToImage(r, img)
  {
    ClampInside(r, img);
    ClampKeepsInside(ClampToImage(r, img), img);
  }

  /** The clamp moves a box rather than shrinking it whenever the box fits:
      an extent no larger than the image is kept, a larger one becomes the
      image's, starting at 0. */
  lemma ClampKeepsFittingSize(r: Rect, img: ImageSize)
    requires r.width >= 0.0 && r.height >= 0.0
    ensures var c := ClampToImage(r, img);
            && (r.width <= img.width as real ==> c.width == r.width)
            && (r.width > img.width as real ==> c.x == 0.0 && c.width == img.width as real)
            && (r.height <= img.height as real ==> c.height == r.height)
            && (r.height > img.height as real ==> c.y == 0.0 && c.height == img.height as real)
  {}

  /** The box a mouse-up commits: normalised, and clamped when the image has
      loaded. */
  function CommittedBox(r: Rect, img: Option<ImageSize>): (b: Rect)
    ensures b.width >= 0.0 && b.height >= 0.0
    ensures img.Some? ==> Inside(b, img.value)
    ensures img.None? ==> b == Normalize(r)
    ensures img.Some? && Inside(Normalize(r), img.value) ==> b == Normalize(r)
  {
    var n := Normalize(r);
    if img.Some? then
      ClampInside(n, img.value);
      ClampToImage(n, img.value)
    else n
  }

  /** The record a commit appends. */
  function NewRecord(r: Rect, img: Option<ImageSize>, tag: Tag, id: Id): Annotation {
    var b := CommittedBox(r, img);
    Annotation(b.x, b.y, b.width, b.height, tag, id, Manual)
  }

  function MoveTo(x: real, y: real): Annotation -> Annotation {
    (a: Annotation) => a.(x := x, y := y)
  }

  /** The drag handler's update: the records with the id get the node's
      position, unclamped. */
  function DragMoved(s: seq<Annotation>, id: Id, x: real, y: real): seq<Annotation> {
    UpdateById(s, id, MoveTo(x, y))
  }

  /** Dragging moves the records with the id to the given position and
      changes nothing else. */
  lemma DragSpec(s: seq<Annotation>, id: Id, x: real, y: real)
    ensures |DragMoved(s, id, x, y)| == |s|
    ensures forall i :: 0 <= i < |s| ==> DragMoved(s, id, x, y)[i].(x := s[i].x, y := s[i].y) == s[i]
    ensures forall i :: 0 <= i < |s| && s[i].id == id ==>
              DragMoved(s, id, x, y)[i].x == x && DragMoved(s, id, x, y)[i].y == y
    ensures forall i :: 0 <= i < |s| && s[i].id != id ==> DragMoved(s, id, x, y)[i] == s[i]
    ensures UniqueIds(s) ==> UniqueIds(DragMoved(s, id, x, y))
  {
    UpdateKeepsIds(s, id, MoveTo(x, y));
  }

  /** The resize handler's new geometry for a node at (nodeX, nodeY) of size
      nodeWidth × nodeHeight scaled by (scaleX, scaleY). */
  function Reshape(nodeX: real, nodeY: real, nodeWidth: real, nodeHeight: real,
                   scaleX: real, scaleY: real): Annotation -> Annotation
  {
    (a: Annotation) => a.(x := nodeX, y := nodeY,
                          width := Max(MinSize, nodeWidth * scaleX),
                          height := Max(MinSize, nodeHeight * scaleY))
  }

  function Transformed(s: seq<Annotation>, id: Id, nodeX: real, nodeY: real,
                       nodeWidth: real, nodeHeight: real, scaleX: real, scaleY: real): seq<Annotation>
  {
    UpdateById(s, id, Reshape(nodeX, nodeY, nodeWidth, nodeHeight, scaleX, scaleY))
  }

  /** Resizing gives the records with the id the node's position and its
      scaled size raised to at least `MinSize`, keeps their tag, id and
      source, and leaves every other record alone. */
  lemma TransformSpec(s: seq<Annotation>, id: Id, nodeX: real, nodeY: real,
                      nodeWidth: real, nodeHeight: real, scaleX: real, scaleY: real)
    ensures var r := Transformed(s, id, nodeX, nodeY, nodeWidth, nodeHeight, scaleX, scaleY);
            && |r| == |s|
            && (forall i :: 0 <= i < |s| && s[i].id != id ==> r[i] == s[i])
            && (forall i :: 0 <= i < |s| && s[i].id == id ==>
                  && r[i].x == nodeX && r[i].y == nodeY
                  && r[i].width >= MinSize && r[i].height >= MinSize
                  && (nodeWidth * scaleX >= MinSize ==> r[i].width == nodeWidth * scaleX)
                  && (nodeWidth * scaleX < MinSize ==> r[i].width == MinSize)
                  && (nodeHeight * scaleY >= MinSize ==> r[i].height == nodeHeight * scaleY)
                  && (nodeHeight * scaleY < MinSize ==> r[i].height == MinSize)
                  && r[i].tag == s[i].tag && r[i].id == s[i].id && r[i].source == s[i].source)
            && (UniqueIds(s) ==> UniqueIds(r))
  {
    UpdateKeepsIds(s, id, Reshape(nodeX, nodeY, nodeWidth, nodeHeight, scaleX, scaleY));
  }

  /** The canvas component: its own drawing state, and the application's
      records and selection, which it changes through the setters it is
      given. */
  class Canvas {
    const app: App.App
    const tags: seq<Tag>
    var drawing: bool
    var newRect: Option<Rect>

    /** A rubber band exists exactly while drawing, the tag list has a first
        entry, and the store keeps its ids unique. */
    ghost predicate Valid()
      reads this, app
    {
      && |tags| > 0
      && (drawing <==> newRect.Some?)
      && app.Valid()
    }

    constructor (app: App.App, tags: seq<Tag>)
      requires |tags| > 0 && app.Valid()
      ensures Valid()
      ensures this.app == app && this.tags == tags && !drawing && newRect == None
    {
      this.app := app;
      this.tags := tags;
      drawing := false;
      newRect := None;
    }

    /** Pressing the button starts a zero-sized rubber band at the pointer
        and clears the selection, unless a band is already being drawn or
        the press landed on a record. */
    method HandleMouseDown(onAnnotation: bool, px: real, py: real)
      requires Valid()
      modifies this, app`selectedId
      ensures Valid()
      ensures if old(drawing) || onAnnotation
              then drawing == old(drawing) && newRect == old(newRect) && app.selectedId == old(app.selectedId)
              else drawing && newRect == Some(Rect(px, py, 0.0, 0.0)) && app.selectedId == None
      ensures app.annotations == old(app.annotations)
    {
      if drawing {
        return;
      }
      if !onAnnotation {
        newRect := Some(Rect(px, py, 0.0, 0.0));
        drawing := true;
        app.selectedId := None;
      }
    }

    /** Moving the pointer while drawing stretches the band from its fixed
        origin to the pointer, possibly to negative extents and beyond the
        image; otherwise nothing happens. */
    method HandleMouseMove(px: real, py: real)
      requires Valid()
      modifies this`newRect
      ensures Valid()
      ensures if old(drawing) && old(newRect).Some?
              then newRect == Some(Rect(old(newRect).value.x, old(newRect).value.y,
                                        px - old(newRect).value.x, py - old(newRect).value.y))
              else newRect == old(newRect)
    {
      if !drawing || newRect.None? {
        return;
      }
      var r := newRect.value;
      newRect := Some(r.(width := px - r.x, height := py - r.y));
    }

    /** Releasing the button ends the band. A band whose extents both exceed
        `MinSize` in absolute value is appended as a manual record with the
        first tag and the supplied id, normalised and, once the image has
        loaded, clamped to it. */
    method HandleMouseUp(img: Option<ImageSize>, freshId: Id)
      requires Valid()
      requires freshId !in IdSet(app.annotations)
      modifies this, app`annotations
      ensures Valid()
      ensures !drawing && newRect == None
      ensures app.annotations ==
                if old(drawing) && old(newRect).Some? && MeetsMinimumSize(old(newRect).value)
                then old(app.annotations) + [NewRecord(old(newRect).value, img, tags[0], freshId)]
                else old(app.annotations)
      ensures app.selectedId == old(app.selectedId)
    {
      if drawing && newRect.Some? && Abs(newRect.value.width) > 10.0 && Abs(newRect.value.height) > 10.0 {
        var r := newRect.value;
        var finalRect := Rect(Min(r.x, r.x + r.width), Min(r.y, r.y + r.height),
                              Abs(r.width), Abs(r.height));
        if img.Some? {
          var w, h := img.value.width as real, img.value.height as real;
          finalRect := finalRect.(x := Max(0.0, Min(finalRect.x, w - finalRect.width)));
          finalRect := finalRect.(y := Max(0.0, Min(finalRect.y, h - finalRect.height)));
          finalRect := finalRect.(width := Min(finalRect.width, w - finalRect.x));
          finalRect := finalRect.(height := Min(finalRect.height, h - finalRect.y));
        }
        var record := Annotation(finalRect.x, finalRect.y, finalRect.width, finalRect.height,
                                 tags[0], freshId, Manual);
        assert record == NewRecord(r, img, tags[0], freshId);
        assert IdSet([record]) == {freshId};
        UniqueAppend(app.annotations, [record]);
        app.annotations := app.annotations + [record];
      }
      drawing := false;
      newRect := None;
    }

    /** Clicking or tapping a record selects it. */
    method HandleRectClick(id: Id)
      requires Valid()
      modifies app`selectedId
      ensures Valid()
      ensures app.selectedId == Some(id)
    {
      app.selectedId := Some(id);
    }

    /** Removes every record with the id and clears the selection, whichever
        record was selected. */
    method HandleDelete(id: Id)
      requires Valid()
      modifies app`annotations, app`selectedId
      ensures Valid()
      ensures app.annotations == RemoveId(old(app.annotations), id)
      ensures app.selectedId == None
    {
      RemoveIdSpec(app.annotations, id);
      app.annotations := RemoveId(app.annotations, id);
      app.selectedId := None;
    }

    /** The Delete key deletes the selected record when a (non-empty) id is
        selected; any other key, or no selection, changes nothing. */
    method HandleKeyDown(key: string)
      requires Valid()
      modifies app`annotations, app`selectedId
      ensures Valid()
      ensures if key == "Delete" && Truthy(old(app.selectedId))
              then app.annotations == RemoveId(old(app.annotations), old(app.selectedId).value) &&
                   app.selectedId == None
              else app.annotations == old(app.annotations) && app.selectedId == old(app.selectedId)
    {
      if key == "Delete" && Truthy(app.selectedId) {
        HandleDelete(app.selectedId.value);
      }
    }

    /** Dragging a record writes the node's position into it. */
    method HandleDragMove(id: Id, nodeX: real, nodeY: real)
      requires Valid()
      modifies app`annotations
      ensures Valid()
      ensures app.annotations == DragMoved(old(app.annotations), id, nodeX, nodeY)
    {
      DragSpec(app.annotations, id, nodeX, nodeY);
      app.annotations := DragMoved(app.annotations, id, nodeX, nodeY);
    }

    /** The end of a resize writes the node's position and scaled size into
        the record, each extent raised to at least `MinSize`. */
    method HandleTransform(id: Id, nodeX: real, nodeY: real, nodeWidth: real, nodeHeight: real,
                           scaleX: real, scaleY: real)
      requires Valid()
      modifies app`annotations
      ensures Valid()
      ensures app.annotations ==
                Transformed(old(app.annotations), id, nodeX, nodeY, nodeWidth, nodeHeight, scaleX, scaleY)
    {
      TransformSpec(app.annotations, id, nodeX, nodeY, nodeWidth, nodeHeight, scaleX, scaleY);
      app.annotations := Transformed(app.annotations, id, nodeX, nodeY, nodeWidth, nodeHeight, scaleX, scaleY);
    }
  }
}
