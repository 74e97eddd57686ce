/**
 The annotation layout of `draw_face_boxes`: for every face with a positive
 width and height, a five-pass outline, a "Face #N" label tag just above the
 box and a numbered circular marker at the box centre. Only coordinates are
 modelled; text measurement is a parameter.
 */
module Annotation {
  import opened FaceData
  import opened SeqFacts

  datatype Point = Point(x: int, y: int)

  /** What a rectangle is drawn for: the face outline or the label tag's background. */
  datatype Style = Outline | LabelTag

  /** One drawing call on the image copy. */
  datatype Primitive =
    | Rectangle(topLeft: Point, bottomRight: Point, style: Style)
    | Text(origin: Point, content: string, fontSize: nat)
    | Ellipse(topLeft: Point, bottomRight: Point)

  /** Width and height of a string's bounding box, as `textbbox` measures them. */
  datatype Extent = Extent(width: nat, height: nat)

  /** Text measurement: the extent of a string set in a font of the given size. */
  type TextMetrics = (string, nat) -> Extent

  /** Number of outline passes drawn around each face. */
  const OutlinePasses: nat := 5
  /** Font size of the "Face #N" label. */
  const LabelFontSize: nat := 20
  /** Font size of the number inside the marker. */
  const NumberFontSize: nat := 40

  function Max(a: int, b: int): (m: int)
    ensures m >= a && m >= b && (m == a || m == b)
  {
    if a >= b then a else b
  }

  /** The character of a decimal digit. */
  function DigitChar(d: nat): (c: char)
    requires d < 10
    ensures '0' <= c <= '9' && c as int - '0' as int == d
  {
    ('0' as int + d) as char
  }

  /** `str(n)`: the decimal digits of `n`, most significant first. */
  function DecimalString(n: nat): (s: string)
    ensures |s| >= 1
    ensures forall i :: 0 <= i < |s| ==> '0' <= s[i] <= '9'
    ensures s[0] == '0' ==> n == 0
  {
    if n < 10 then [DigitChar(n)]
    else DecimalString(n / 10) + [DigitChar(n % 10)]
  }

  /** The number a string of decimal digits denotes. */
  function DigitsValue(s: string): nat
    requires forall i :: 0 <= i < |s| ==> '0' <= s[i] <= '9'
  {
    if s == [] then 0
    else DigitsValue(s[..|s| - 1]) * 10 + (s[|s| - 1] as int - '0' as int)
  }

  /** Reading back the decimal string of `n` gives `n`. */
  lemma {:induction false} DecimalStringRoundTrip(n: nat)
    ensures DigitsValue(DecimalString(n)) == n
  {
    var s := DecimalString(n);
    if n >= 10 {
      DecimalStringRoundTrip(n / 10);
      assert s[..|s| - 1] == DecimalString(n / 10);
    }
  }

  /** The label text `f"Face #{n}"`. */
  function FaceLabel(n: nat): (s: string)
    ensures |s| > 6 && s[..6] == "Face #"
    ensures forall i :: 6 <= i < |s| ==> '0' <= s[i] <= '9'
    ensures DigitsValue(s[6..]) == n
  {
    DecimalStringRoundTrip(n);
    assert ("Face #" + DecimalString(n))[6..] == DecimalString(n);
    "Face #" + DecimalString(n)
  }

  /** Different face numbers get different labels. */
  lemma FaceLabelsDistinct(n: nat, m: nat)
    requires n != m
    ensures FaceLabel(n) != FaceLabel(m)
  {
    assert DigitsValue(FaceLabel(n)[6..]) == n;
    assert DigitsValue(FaceLabel(m)[6..]) == m;
  }

  /** A region is drawn only when its width and height are both positive. */
  predicate Drawable(r: Region) {
    r.w > 0 && r.h > 0
  }

  /** Outline pass `t`: the face box grown by `t` pixels on every side. */
  function OutlinePass(r: Region, t: int): Primitive {
    Rectangle(Point(r.x - t, r.y - t), Point(r.x + r.w + t, r.y + r.h + t), Outline)
  }

  /** The first `passes` outline passes, innermost first. */
  function Outlines(r: Region, passes: nat): (s: seq<Primitive>)
    ensures |s| == passes
    ensures forall t :: 0 <= t < passes ==> s[t] == OutlinePass(r, t)
  {
    if passes == 0 then [] else Outlines(r, passes - 1) + [OutlinePass(r, passes - 1)]
  }

  /** The label tag of face `n`: its background rectangle, then its text. */
  function LabelTagFor(r: Region, n: nat, measure: TextMetrics): seq<Primitive> {
    var e := measure(FaceLabel(n), LabelFontSize);
    var lx := r.x;
    var ly := Max(0, r.y - e.height - 10);
    [Rectangle(Point(lx - 5, ly - 5), Point(lx + e.width + 10, ly + e.height + 5), LabelTag),
     Text(Point(lx, ly), FaceLabel(n), LabelFontSize)]
  }

  /** The marker of face `n`: a circle at the box centre, then the number inside it. */
  function MarkerFor(r: Region, n: nat, measure: TextMetrics): seq<Primitive> {
    var cx := r.x + r.w / 2;
    var cy := r.y + r.h / 2;
    var e := measure(DecimalString(n), NumberFontSize);
    var radius := Max(e.width, e.height) / 2 + 10;
    [Ellipse(Point(cx - radius, cy - radius), Point(cx + radius, cy + radius)),
     Text(Point(cx - e.width / 2, cy - e.height / 2), DecimalString(n), NumberFontSize)]
  }

  /**
   Everything drawn for face number `n` with region `r`, in drawing order:
   nothing for a degenerate region, otherwise five outline passes, the label
   tag's background and text, the marker circle and the marker number.
   */
  function FaceDrawing(r: Region, n: nat, measure: TextMetrics): (d: seq<Primitive>)
    ensures !Drawable(r) ==> d == []
    ensures Drawable(r) ==> |d| == OutlinePasses + 4
  {
    if Drawable(r) then Outlines(r, OutlinePasses) + LabelTagFor(r, n, measure) + MarkerFor(r, n, measure)
    else []
  }

  /** Outline pass `t` of a drawn face spans `(x - t, y - t)` to `(x + w + t, y + h + t)`. */
  lemma OutlineGeometry(r: Region, n: nat, measure: TextMetrics)
    requires Drawable(r)
    ensures
      var d := FaceDrawing(r, n, measure);
      forall t :: 0 <= t < OutlinePasses ==>
        && d[t].Rectangle? && d[t].style == Outline
        && d[t].topLeft == Point(r.x - t, r.y - t)
        && d[t].bottomRight == Point(r.x + r.w + t, r.y + r.h + t)
  {
  }

  /**
   The label tag of a drawn face: its text starts at the box's left edge, just
   above the box or clamped to the image's top edge, and its background
   encloses the measured text with a margin of at least 5 pixels.
   */
  lemma LabelTagGeometry(r: Region, n: nat, measure: TextMetrics)
    requires Drawable(r)
    ensures
      var d := FaceDrawing(r, n, measure);
      var e := measure(FaceLabel(n), LabelFontSize);
      var tag := d[OutlinePasses];
      var tagText := d[OutlinePasses + 1];
      var o := tagText.origin;
      && tagText.Text? && tagText.content == FaceLabel(n) && tagText.fontSize == LabelFontSize
      && o.x == r.x
      && o.y == Max(0, r.y - e.height - 10)
      && o.y >= 0
      && (o.y == 0 || o.y + e.height + 10 == r.y)
      && tag.Rectangle? && tag.style == LabelTag
      && tag.topLeft == Point(o.x - 5, o.y - 5)
      && tag.bottomRight == Point(o.x + e.width + 10, o.y + e.height + 5)
  {
  }

  /**
   The marker of a drawn face: a circle centred in the box with radius
   `max(nw, nh) // 2 + 10`, so at least 10, whose bounding square contains the
   measured box of the number drawn in it.
   */
  lemma MarkerGeometry(r: Region, n: nat, measure: TextMetrics)
    requires Drawable(r)
    ensures
      var d := FaceDrawing(r, n, measure);
      var e := measure(DecimalString(n), NumberFontSize);
      var circle := d[OutlinePasses + 2];
      var number := d[OutlinePasses + 3];
      var cx := r.x + r.w / 2;
      var cy := r.y + r.h / 2;
      var radius := Max(e.width, e.height) / 2 + 10;
      && r.x <= cx < r.x + r.w && r.y <= cy < r.y + r.h
      && circle.Ellipse? && radius >= 10
      && circle.topLeft == Point(cx - radius, cy - radius)
      && circle.bottomRight == Point(cx + radius, cy + radius)
      && number.Text? && number.content == DecimalString(n) && number.fontSize == NumberFontSize
      && number.origin == Point(cx - e.width / 2, cy - e.height / 2)
      && circle.topLeft.x <= number.origin.x && number.origin.x + e.width <= circle.bottomRight.x
      && circle.topLeft.y <= number.origin.y && number.origin.y + e.height <= circle.bottomRight.y
  {
  }

  /** The number of faces whose region is drawn. */
  function DrawnCount(faces: seq<FaceRecord>): (c: nat)
    ensures c <= |faces|
  {
    if faces == [] then 0
    else DrawnCount(faces[..|faces| - 1]) + (if Drawable(RegionOf(faces[|faces| - 1])) then 1 else 0)
  }

  /**
   Everything drawn for the faces in order, face `i` (0-based) numbered
   `i + 1` whether or not its region is drawn.
   */
  function Layout(faces: seq<FaceRecord>, measure: TextMetrics): (prims: seq<Primitive>)
    ensures |prims| == (OutlinePasses + 4) * DrawnCount(faces)
  {
    if faces == [] then []
    else
      var n := |faces|;
      Layout(faces[..n - 1], measure) + FaceDrawing(RegionOf(faces[n - 1]), n, measure)
  }

  /** The layout of a prefix of the faces is a prefix of the layout. */
  lemma {:induction false} LayoutPrefix(faces: seq<FaceRecord>, i: nat, measure: TextMetrics)
    requires i <= |faces|
    ensures |Layout(faces[..i], measure)| <= |Layout(faces, measure)|
    ensures Layout(faces[..i], measure) == Layout(faces, measure)[..|Layout(faces[..i], measure)|]
  {
    if i < |faces| {
      var pre := faces[..|faces| - 1];
      assert faces[..i] == pre[..i];
      LayoutPrefix(pre, i, measure);
      var earlier := Layout(pre, measure);
      assert Layout(faces, measure) == earlier + FaceDrawing(RegionOf(faces[|faces| - 1]), |faces|, measure);
      PrefixOfConcat(earlier, FaceDrawing(RegionOf(faces[|faces| - 1]), |faces|, measure), |Layout(faces[..i], measure)|);
    } else {
      assert faces[..i] == faces;
    }
  }

  /**
   Numbering: the primitives of face `j` (0-based) are exactly
   `FaceDrawing(region of face j, j + 1)`, placed after those of the drawn
   faces before it, so a skipped region still takes up its number.
   */
  lemma LayoutFace(faces: seq<FaceRecord>, j: nat, measure: TextMetrics)
    requires j < |faces|
    ensures var lo := (OutlinePasses + 4) * DrawnCount(faces[..j]);
            var hi := (OutlinePasses + 4) * DrawnCount(faces[..j + 1]);
            lo <= hi <= |Layout(faces, measure)| &&
            Layout(faces, measure)[lo..hi] == FaceDrawing(RegionOf(faces[j]), j + 1, measure)
  {
    var prefix := faces[..j + 1];
    assert prefix[..j] == faces[..j];
    assert Layout(prefix, measure)
      == Layout(faces[..j], measure) + FaceDrawing(RegionOf(faces[j]), j + 1, measure);
    LayoutPrefix(faces, j + 1, measure);
  }

  /**
   The drawing surface of the image copy: the primitives drawn on it so far,
   in drawing order.
   */
  class Canvas {
    var drawn: seq<Primitive>

    constructor ()
      ensures drawn == []
    {
      drawn := [];
    }

    method DrawRectangle(topLeft: Point, bottomRight: Point, style: Style)
      modifies this
      ensures drawn == old(drawn) + [Rectangle(topLeft, bottomRight, style)]
    {
      drawn := drawn + [Rectangle(topLeft, bottomRight, style)];
    }

    method DrawText(origin: Point, content: string, fontSize: nat)
      modifies this
      ensures drawn == old(drawn) + [Text(origin, content, fontSize)]
    {
      drawn := drawn + [Text(origin, content, fontSize)];
    }

    method DrawEllipse(topLeft: Point, bottomRight: Point)
      modifies this
      ensures drawn == old(drawn) + [Ellipse(topLeft, bottomRight)]
    {
      drawn := drawn + [Ellipse(topLeft, bottomRight)];
    }
  }

  /** Draws the outline passes of a face box, innermost first. */
  method DrawOutline(canvas: Canvas, region: Region)
    modifies canvas
    ensures canvas.drawn == old(canvas.drawn) + Outlines(region, OutlinePasses)
  {
    var x, y, w, h := region.x, region.y, region.w, region.h;
    for thickness := 0 to OutlinePasses
      invariant canvas.drawn == old(canvas.drawn) + Outlines(region, thickness)
    {
      canvas.DrawRectangle(Point(x - thickness, y - thickness),
                           Point(x + w + thickness, y + h + thickness), Outline);
    }
  }

  /** Draws the "Face #N" tag: the background sized from the measured text, then the text. */
  method DrawLabelTag(canvas: Canvas, region: Region, faceNum: nat, measure: TextMetrics)
    modifies canvas
    ensures canvas.drawn == old(canvas.drawn) + LabelTagFor(region, faceNum, measure)
  {
    var labelText := FaceLabel(faceNum);
    var bbox := measure(labelText, LabelFontSize);
    var textWidth, textHeight := bbox.width, bbox.height;
    var labelX := region.x;
    var labelY := Max(0, region.y - textHeight - 10);
    canvas.DrawRectangle(Point(labelX - 5, labelY - 5),
                         Point(labelX + textWidth + 10, labelY + textHeight + 5), LabelTag);
    canvas.DrawText(Point(labelX, labelY), labelText, LabelFontSize);
  }

  /** Draws the marker: a circle at the box centre sized from the measured number, then the number. */
  method DrawMarker(canvas: Canvas, region: Region, faceNum: nat, measure: TextMetrics)
    modifies canvas
    ensures canvas.drawn == old(canvas.drawn) + MarkerFor(region, faceNum, measure)
  {
    var centerX := region.x + region.w / 2;
    var centerY := region.y + region.h / 2;
    var numStr := DecimalString(faceNum);
    var numBox := measure(numStr, NumberFontSize);
    var numWidth, numHeight := numBox.width, numBox.height;
    var circleRadius := Max(numWidth, numHeight) / 2 + 10;
    canvas.DrawEllipse(Point(centerX - circleRadius, centerY - circleRadius),
                       Point(centerX + circleRadius, centerY + circleRadius));
    canvas.DrawText(Point(centerX - numWidth / 2, centerY - numHeight / 2), numStr, NumberFontSize);
  }

  /** Draws the outline, label tag and marker of a drawn face, in that order. */
  method DrawFace(canvas: Canvas, region: Region, faceNum: nat, measure: TextMetrics)
    requires Drawable(region)
    modifies canvas
    ensures canvas.drawn == old(canvas.drawn) + FaceDrawing(region, faceNum, measure)
  {
    DrawOutline(canvas, region);
    DrawLabelTag(canvas, region, faceNum, measure);
    DrawMarker(canvas, region, faceNum, measure);
  }

  /**
   `draw_face_boxes`: numbers the faces from 1, skips regions without a
   positive width and height, and draws the outline, label tag and marker of
   every other face on a fresh canvas. Returns what was drawn.
   */
  method DrawFaceBoxes(results: seq<FaceRecord>, measure: TextMetrics) returns (prims: seq<Primitive>)
    ensures prims == Layout(results, measure)
  {
    var canvas := new Canvas();
    var faceNum: nat := 0;
    for i := 0 to |results|
      invariant faceNum == i
      invariant canvas.drawn == Layout(results[..i], measure)
    {
      faceNum := faceNum + 1;
      var region := RegionOf(results[i]);
      if region.w > 0 && region.h > 0 {
        DrawFace(canvas, region, faceNum, measure);
      }
      assert results[..i + 1][..i] == results[..i];
      assert Layout(results[..i + 1], measure)
        == Layout(results[..i], measure) + FaceDrawing(region, faceNum, measure);
    }
    assert results[..|results|] == results;
    prims := canvas.drawn;
  }
}
