/**
 * The overlay renderer of backend/static/js/canvas.js: a canvas the size of
 * the source image, the source drawn at the origin, then for every detection
 * (centre x, y and size w, h) a stroked rectangle and, for a labelled one,
 * a label background and the label text above the box.
 */
module Canvas {
  import opened Wrappers

  /** One detection as the browser receives it. JSON numbers are modelled as reals. */
  datatype Box = Box(x: real, y: real, w: real, h: real, kind: Option<string>)

  datatype Color = Green | Black

  /**
   * What the renderer asks of the browser: the natural size of the picture a
   * data URL decodes to (`img.width`, `img.height` once `onload` fires), and
   * the width of a text in the label font (`measureText(...).width`).
   */
  datatype Browser = Browser(naturalSize: string -> (nat, nat), textWidth: string -> real)

  /** The drawing calls the renderer makes on its 2D context, with the style in force. */
  datatype DrawOp =
    | DrawImage(src: string, x: real, y: real)
    | StrokeRect(x: real, y: real, w: real, h: real, color: Color, lineWidth: nat)
    | FillRect(x: real, y: real, w: real, h: real, color: Color)
    | FillText(text: string, x: real, y: real, color: Color)

  /** The result of `canvas.toDataURL()` with its default type (PNG): the canvas size and what was drawn. */
  datatype Png = Png(width: nat, height: nat, ops: seq<DrawOp>)

  /** The stroke style set once before the boxes are drawn. */
  const StrokeColor: Color := Green
  const LineWidth: nat := 3

  /** Label geometry: background 25 above the box top, 20 high, text width plus 8 wide; text 4 right of the box edge and 8 above its top. */
  const LabelRise: real := 25.0
  const LabelHeight: real := 20.0
  const LabelPadding: real := 8.0
  const TextInset: real := 4.0
  const TextRise: real := 8.0

  /** JavaScript truthiness of `detection.type`: present and not the empty string. */
  predicate HasLabel(b: Box)
  {
    b.kind.Some? && b.kind.value != ""
  }

  /** The upper-left corner of the rectangle for a centre-based box. */
  function CornerX(b: Box): real { b.x - b.w / 2.0 }
  function CornerY(b: Box): real { b.y - b.h / 2.0 }

  /** The drawing calls for one box; `measure` is the context's `measureText(...).width` for the fixed font. */
  function BoxOps(b: Box, measure: string -> real): seq<DrawOp>
  {
    var rectX := CornerX(b);
    var rectY := CornerY(b);
    [StrokeRect(rectX, rectY, b.w, b.h, StrokeColor, LineWidth)]
    + if HasLabel(b) then
        [FillRect(rectX, rectY - LabelRise, measure(b.kind.value) + LabelPadding, LabelHeight, Green),
         FillText(b.kind.value, rectX + TextInset, rectY - TextRise, Black)]
      else []
  }

  /** The drawing calls for a list of boxes, box after box in input order. */
  function OverlayOps(boxes: seq<Box>, measure: string -> real): (ops: seq<DrawOp>)
    ensures |boxes| <= |ops| <= 3 * |boxes|
    ensures boxes != [] ==> ops[0] == StrokeFor(boxes[0])
  {
    if boxes == [] then [] else BoxOps(boxes[0], measure) + OverlayOps(boxes[1..], measure)
  }

  /**
   * The picture the renderer returns for the image behind `src`: a canvas of
   * that image's natural size, the image drawn at the origin, then the boxes.
   * A null detection list is `None`.
   */
  function Render(src: string, browser: Browser, detections: Option<seq<Box>>): (png: Png)
    ensures (png.width, png.height) == browser.naturalSize(src)
    ensures |png.ops| >= 1 && png.ops[0] == DrawImage(src, 0.0, 0.0)
  {
    var (width, height) := browser.naturalSize(src);
    Png(width, height, [DrawImage(src, 0.0, 0.0)] + if detections.Some? then OverlayOps(detections.value, browser.textWidth) else [])
  }

  /** The rectangles stroked by a list of drawing calls, in order. */
  function Strokes(ops: seq<DrawOp>): seq<DrawOp>
  {
    if ops == [] then []
    else (if ops[0].StrokeRect? then [ops[0]] else []) + Strokes(ops[1..])
  }

  /** The labels written by a list of drawing calls, in order. */
  function Texts(ops: seq<DrawOp>): seq<string>
  {
    if ops == [] then []
    else (if ops[0].FillText? then [ops[0].text] else []) + Texts(ops[1..])
  }

  /** The labels of a list of boxes that have one, in order. */
  function Labels(boxes: seq<Box>): seq<string>
  {
    if boxes == [] then []
    else (if HasLabel(boxes[0]) then [boxes[0].kind.value] else []) + Labels(boxes[1..])
  }

  lemma StrokesAppend(a: seq<DrawOp>, b: seq<DrawOp>)
    ensures Strokes(a + b) == Strokes(a) + Strokes(b)
  {
    if a != [] {
      assert (a + b)[1..] == a[1..] + b;
      StrokesAppend(a[1..], b);
    } else {
      assert a + b == b;
    }
  }

  lemma TextsAppend(a: seq<DrawOp>, b: seq<DrawOp>)
    ensures Texts(a + b) == Texts(a) + Texts(b)
  {
    if a != [] {
      assert (a + b)[1..] == a[1..] + b;
      TextsAppend(a[1..], b);
    } else {
      assert a + b == b;
    }
  }

  /** The rectangle stroked for a box: corner (x - w/2, y - h/2), size (w, h), common style. */
  function StrokeFor(b: Box): DrawOp
  {
    StrokeRect(b.x - b.w / 2.0, b.y - b.h / 2.0, b.w, b.h, Green, 3)
  }

  /**
   * Exactly one stroke per box, in input order, each at the box's corner with
   * the box's size and the same colour and width; no box is rejected,
   * whatever the sign of its size.
   */
  lemma {:induction false} OneStrokePerBox(boxes: seq<Box>, measure: string -> real)
    ensures |Strokes(OverlayOps(boxes, measure))| == |boxes|
    ensures forall k :: 0 <= k < |boxes| ==> Strokes(OverlayOps(boxes, measure))[k] == StrokeFor(boxes[k])
  {
    if boxes != [] {
      var b := boxes[0];
      var labelOps := if HasLabel(b) then
          [FillRect(CornerX(b), CornerY(b) - LabelRise, measure(b.kind.value) + LabelPadding, LabelHeight, Green),
           FillText(b.kind.value, CornerX(b) + TextInset, CornerY(b) - TextRise, Black)]
        else [];
      assert BoxOps(b, measure) == [StrokeFor(b)] + labelOps;
      StrokesAppend([StrokeFor(b)], labelOps);
      assert Strokes([StrokeFor(b)]) == [StrokeFor(b)] by {
        assert [StrokeFor(b)][1..] == [];
      }
      assert Strokes(labelOps) == [] by {
        if HasLabel(b) {
          assert labelOps[1..][1..] == [];
        }
      }
      StrokesAppend(BoxOps(b, measure), OverlayOps(boxes[1..], measure));
      OneStrokePerBox(boxes[1..], measure);
    }
  }

  /** A label is written exactly for each box whose `type` is truthy, in input order. */
  lemma {:induction false} LabelsOnlyWhenTyped(boxes: seq<Box>, measure: string -> real)
    ensures Texts(OverlayOps(boxes, measure)) == Labels(boxes)
  {
    if boxes != [] {
      var b := boxes[0];
      TextsAppend(BoxOps(b, measure), OverlayOps(boxes[1..], measure));
      if HasLabel(b) {
        var bg := FillRect(CornerX(b), CornerY(b) - LabelRise, measure(b.kind.value) + LabelPadding, LabelHeight, Green);
        var tx := FillText(b.kind.value, CornerX(b) + TextInset, CornerY(b) - TextRise, Black);
        assert BoxOps(b, measure) == [StrokeFor(b), bg, tx];
        assert [StrokeFor(b), bg, tx][1..] == [bg, tx];
        assert [bg, tx][1..] == [tx];
        assert [tx][1..] == [];
        assert Texts([tx]) == [b.kind.value];
        assert Texts([bg, tx]) == Texts([tx]);
        assert Texts([StrokeFor(b), bg, tx]) == Texts([bg, tx]);
      } else {
        assert BoxOps(b, measure) == [StrokeFor(b)];
        assert [StrokeFor(b)][1..] == [];
        assert Texts(BoxOps(b, measure)) == [];
      }
      LabelsOnlyWhenTyped(boxes[1..], measure);
    }
  }

  /**
   * Every label background is filled green and every label text black: the
   * fill style is reset before each of them.
   */
  lemma {:induction false} LabelColors(boxes: seq<Box>, measure: string -> real)
    ensures forall op :: op in OverlayOps(boxes, measure) && op.FillRect? ==> op.color == Green
    ensures forall op :: op in OverlayOps(boxes, measure) && op.FillText? ==> op.color == Black
    ensures forall op :: op in OverlayOps(boxes, measure) ==> !op.DrawImage?
  {
    if boxes != [] {
      LabelColors(boxes[1..], measure);
    }
  }

  /** A null or empty detection list gives the base image alone, at the source's size. */
  lemma NoBoxesBaseImageOnly(src: string, browser: Browser)
    ensures var (width, height) := browser.naturalSize(src);
      && Render(src, browser, None) == Png(width, height, [DrawImage(src, 0.0, 0.0)])
      && Render(src, browser, Some([])) == Png(width, height, [DrawImage(src, 0.0, 0.0)])
  {
  }

  /**
   * A labelled box: the background starts at the box's left edge, ends 5
   * above its top edge and is 8 wider than the measured text; the text sits
   * 4 inside the left edge and 8 above the top edge, so on the background.
   * An unlabelled box gets the stroke alone.
   */
  lemma LabelAboveBox(b: Box, measure: string -> real)
    ensures !HasLabel(b) ==> BoxOps(b, measure) == [StrokeFor(b)]
    ensures HasLabel(b) ==>
      var ops := BoxOps(b, measure);
      && |ops| == 3 && ops[0] == StrokeFor(b) && ops[1].FillRect? && ops[2].FillText?
      && ops[1].x == CornerX(b) && ops[1].y + ops[1].h == CornerY(b) - 5.0
      && ops[1].w == measure(b.kind.value) + 8.0
      && ops[2].text == b.kind.value && ops[2].x == ops[1].x + 4.0
      && ops[1].y < ops[2].y <= ops[1].y + ops[1].h
  {
  }

  /** The worked example: centre (100, 50), size (20, 10) is stroked at (90, 45, 20, 10). */
  lemma WorkedExample(kind: Option<string>)
    ensures StrokeFor(Box(100.0, 50.0, 20.0, 10.0, kind)) == StrokeRect(90.0, 45.0, 20.0, 10.0, Green, 3)
  {
  }

  /**
   * The renderer: a canvas of the source's size, the source drawn first at
   * the origin, then each detection in order. The context's fill style is
   * local state that each label switches from green to black.
   */
  method DrawDetectionsOnImage(imageDataUrl: string, detections: Option<seq<Box>>, browser: Browser)
    returns (png: Png)
    ensures png == Render(imageDataUrl, browser, detections)
  {
    var (width, height) := browser.naturalSize(imageDataUrl);
    var measure := browser.textWidth;
    var ops := [DrawImage(imageDataUrl, 0.0, 0.0)];
    var fillStyle := Green;
    if detections.Some? && |detections.value| > 0 {
      var boxes := detections.value;
      var i := 0;
      while i < |boxes|
        invariant 0 <= i <= |boxes|
        invariant ops + OverlayOps(boxes[i..], measure) == [DrawImage(imageDataUrl, 0.0, 0.0)] + OverlayOps(boxes, measure)
      {
        var d := boxes[i];
        var rectX := d.x - d.w / 2.0;
        var rectY := d.y - d.h / 2.0;
        var step := [StrokeRect(rectX, rectY, d.w, d.h, StrokeColor, LineWidth)];
        if HasLabel(d) {
          fillStyle := Green;
          step := step + [FillRect(rectX, rectY - LabelRise, measure(d.kind.value) + LabelPadding, LabelHeight, fillStyle)];
          fillStyle := Black;
          step := step + [FillText(d.kind.value, rectX + TextInset, rectY - TextRise, fillStyle)];
        }
        assert step == BoxOps(d, measure);
        assert boxes[i..] == [d] + boxes[i + 1..];
        ops := ops + step;
        i := i + 1;
      }
      assert boxes[i..] == [];
    }
    png := Png(width, height, ops);
  }
}
