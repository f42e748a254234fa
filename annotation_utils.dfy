/** Overlap metric and export projection (src/utils/annotationUtils.ts). */
module AnnotationUtils {
  import opened Wrappers
  import opened Annotations

  function Max(a: real, b: real): real { if a >= b then a else b }
  function Min(a: real, b: real): real { if a <= b then a else b }

  /** Length of the shared stretch of the two boxes along x, 0 when they do
      not meet. */
  function OverlapX(a: Rect, b: Rect): (r: real)
    ensures r >= 0.0
  {
    Max(0.0, Min(a.x + a.width, b.x + b.width) - Max(a.x, b.x))
  }

  function OverlapY(a: Rect, b: Rect): (r: real)
    ensures r >= 0.0
  {
    Max(0.0, Min(a.y + a.height, b.y + b.height) - Max(a.y, b.y))
  }

  /** Area of the overlap of two boxes. */
  function Intersection(a: Rect, b: Rect): (r: real)
    ensures r >= 0.0
  {
    NonNegProduct(OverlapX(a, b), OverlapY(a, b));
    OverlapX(a, b) * OverlapY(a, b)
  }

  lemma NonNegProduct(p: real, q: real)
    requires p >= 0.0 && q >= 0.0
    ensures p * q >= 0.0
  {}

  function Area(r: Rect): real { r.width * r.height }

  /** The denominator of the ratio: both areas minus the shared part. */
  function UnionArea(a: Rect, b: Rect): real {
    Area(a) + Area(b) - Intersection(a, b)
  }

  /** Intersection over union. Where the union is zero the source divides
      by zero and gets NaN or an infinity; that is `None` here. */
  function Iou(a: Rect, b: Rect): (r: Option<real>)
    ensures r.Some? <==> UnionArea(a, b) != 0.0
  {
    if UnionArea(a, b) == 0.0 then None
    else Some(Intersection(a, b) / UnionArea(a, b))
  }

  /** Two boxes separated along one axis share nothing, so their ratio is 0
      wherever it is defined. */
  lemma IouDisjoint(a: Rect, b: Rect)
    requires a.x + a.width <= b.x || b.x + b.width <= a.x ||
             a.y + a.height <= b.y || b.y + b.height <= a.y
    ensures Intersection(a, b) == 0.0
    ensures UnionArea(a, b) != 0.0 ==> Iou(a, b) == Some(0.0)
  {}

  /** The ratio does not depend on the order of its arguments. */
  lemma IouSymmetric(a: Rect, b: Rect)
    ensures Intersection(a, b) == Intersection(b, a)
    ensures Iou(a, b) == Iou(b, a)
  {}

  /** A box with positive width and height overlaps itself completely. */
  lemma IouSelf(a: Rect)
    requires a.width > 0.0 && a.height > 0.0
    ensures Intersection(a, a) == Area(a)
    ensures Iou(a, a) == Some(1.0)
  {
    assert OverlapX(a, a) == a.width && OverlapY(a, a) == a.height;
    PositiveProduct(a.width, a.height);
    assert UnionArea(a, a) == Area(a);
    SelfRatio(Area(a));
  }

  lemma SelfRatio(u: real)
    requires u != 0.0
    ensures u / u == 1.0
  {}

  lemma PositiveProduct(p: real, q: real)
    requires p > 0.0 && q > 0.0
    ensures p * q > 0.0
  {}

  /** Positive area alone is not enough for `IouSelf`: a box with both
      extents negative has positive area but no overlap with itself. */
  lemma IouSelfNegativeBox(a: Rect)
    requires a.width < 0.0 && a.height < 0.0
    ensures Area(a) > 0.0
    ensures Iou(a, a) == Some(0.0)
  {
    PositiveProduct(-a.width, -a.height);
    assert OverlapX(a, a) == 0.0;
    assert Intersection(a, a) == 0.0;
  }

  lemma MulMonotone(p: real, q: real, p': real, q': real)
    requires 0.0 <= p <= p' && 0.0 <= q <= q'
    ensures p * q <= p' * q'
  {
    assert p * q <= p' * q;
    assert p' * q <= p' * q';
  }

  /** The overlap is no larger than either box, for boxes of non-negative
      extent. */
  lemma IntersectionBounded(a: Rect, b: Rect)
    requires a.width >= 0.0 && a.height >= 0.0 && b.width >= 0.0 && b.height >= 0.0
    ensures Intersection(a, b) <= Area(a) && Intersection(a, b) <= Area(b)
  {
    var ox, oy := OverlapX(a, b), OverlapY(a, b);
    assert ox <= a.width && ox <= b.width;
    assert oy <= a.height && oy <= b.height;
    MulMonotone(ox, oy, a.width, a.height);
    MulMonotone(ox, oy, b.width, b.height);
  }

  lemma RatioInUnit(i: real, u: real)
    requires 0.0 <= i <= u && u > 0.0
    ensures 0.0 <= i / u <= 1.0
  {}

  /** For boxes of non-negative extent the ratio, where defined, lies in
      [0, 1]. */
  lemma IouBounds(a: Rect, b: Rect)
    requires a.width >= 0.0 && a.height >= 0.0 && b.width >= 0.0 && b.height >= 0.0
    requires UnionArea(a, b) != 0.0
    ensures Iou(a, b).Some?
    ensures 0.0 <= Iou(a, b).value <= 1.0
  {
    IntersectionBounded(a, b);
    RatioInUnit(Intersection(a, b), UnionArea(a, b));
  }

  /** One exported entry: the geometry and the tag, without id and source. */
  datatype ExportRecord = ExportRecord(x: real, y: real, width: real, height: real, tag: Tag)

  /** The document written by the download: the image's file name and the
      projected records. */
  datatype ExportData = ExportData(imageFilename: string, annotations: seq<ExportRecord>)

  function Project(a: Annotation): ExportRecord {
    ExportRecord(a.x, a.y, a.width, a.height, a.tag)
  }

  /** The export projection, before JSON formatting. */
  function ExportAnnotations(filename: string, anns: seq<Annotation>): (d: ExportData)
    ensures d.imageFilename == filename
    ensures |d.annotations| == |anns|
  {
    ExportData(filename, seq(|anns|, i requires 0 <= i < |anns| => Project(anns[i])))
  }

  /** Records that differ only in id and source export identically, and
      records that export identically differ at most in id and source. */
  lemma ExportForgetsIdentity(filename: string, s: seq<Annotation>, t: seq<Annotation>)
    ensures ExportAnnotations(filename, s) == ExportAnnotations(filename, t) <==>
            |s| == |t| && forall i :: 0 <= i < |s| ==> s[i].(id := t[i].id, source := t[i].source) == t[i]
  {
    var es, et := ExportAnnotations(filename, s).annotations, ExportAnnotations(filename, t).annotations;
    if |s| == |t| && forall i :: 0 <= i < |s| ==> s[i].(id := t[i].id, source := t[i].source) == t[i] {
      forall i | 0 <= i < |s| ensures es[i] == et[i] {
        assert s[i].(id := t[i].id, source := t[i].source) == t[i];
      }
    }
    if es == et {
      forall i | 0 <= i < |s| ensures s[i].(id := t[i].id, source := t[i].source) == t[i] {
        assert es[i] == et[i];
      }
    }
  }

  /** Exporting a concatenation exports the parts in order. */
  lemma ExportConcat(filename: string, s: seq<Annotation>, t: seq<Annotation>)
    ensures ExportAnnotations(filename, s + t).annotations ==
            ExportAnnotations(filename, s).annotations + ExportAnnotations(filename, t).annotations
  {}
}
