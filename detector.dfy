/**
 * The detection engine of backend/engine/detector.py: subject
 * normalisation, the image shape check, and the conversion of each face
 * location (top, right, bottom, left) into a centre-based box. The face
 * locations that `face_recognition.face_locations` finds are an input.
 */
module Detector {
  import opened Wrappers
  import Canvas

  /** Python's `str.isspace` on the ASCII characters. */
  predicate IsSpace(c: char)
  {
    c == ' ' || c == '\t' || c == '\n' || c == '\r' || c as int == 11 || c as int == 12
  }

  function TrimStart(s: string): (r: string)
    ensures |r| <= |s| && r == s[|s| - |r|..]
    ensures r != [] ==> !IsSpace(r[0])
  {
    if s != [] && IsSpace(s[0]) then TrimStart(s[1..]) else s
  }

  function TrimEnd(s: string): (r: string)
    ensures |r| <= |s| && r == s[..|r|]
    ensures r != [] ==> !IsSpace(r[|r| - 1])
  {
    if s != [] && IsSpace(s[|s| - 1]) then TrimEnd(s[..|s| - 1]) else s
  }

  /** `s.strip()`, on ASCII whitespace. */
  function Strip(s: string): string
  {
    TrimEnd(TrimStart(s))
  }

  /** `s.lower()`, on the ASCII letters. */
  function Lower(s: string): (r: string)
    ensures |r| == |s|
  {
    seq(|s|, i requires 0 <= i < |s| => if 'A' <= s[i] <= 'Z' then (s[i] as int + 32) as char else s[i])
  }

  /**
   * `_normalize_subject(subject)`: an absent or empty subject, "face" or
   * "faces" in any case and with surrounding whitespace, and every other
   * subject all normalise to "face".
   */
  function NormalizeSubject(subject: Option<string>): (r: string)
    ensures r == "face"
  {
    if subject.None? || subject.value == "" then "face"
    else
      var s := Lower(Strip(subject.value));
      if s == "face" || s == "faces" then "face"
      else "face"
  }

  /** Python's `round` on a number: to the nearest integer, ties to the even one. */
  function RoundHalfEven(q: real): (r: int)
    ensures -0.5 <= r as real - q <= 0.5
    ensures (r as real - q == 0.5 || r as real - q == -0.5) ==> r % 2 == 0
    ensures q == q.Floor as real ==> r == q.Floor
  {
    var fl := q.Floor;
    var frac := q - fl as real;
    if frac < 0.5 then fl
    else if frac > 0.5 then fl + 1
    else if fl % 2 == 0 then fl
    else fl + 1
  }

  /** One entry of `face_locations`: pixel coordinates (top, right, bottom, left). */
  datatype FaceLocation = FaceLocation(top: int, right: int, bottom: int, left: int)

  /** `{type, x, y, w, h}` with (x, y) the centre of the box. */
  datatype DetectionBox = DetectionBox(kind: string, x: int, y: int, w: int, h: int)

  /** The `ValueError` raised for an image that is not (H, W, 3). */
  datatype DetectError = ValueError(shape: seq<nat>)

  /** The box the loop appends for one face location. */
  function CenterBox(loc: FaceLocation): (b: DetectionBox)
    ensures b.kind == "face" && b.w == loc.right - loc.left && b.h == loc.bottom - loc.top
    ensures -0.5 <= b.x as real - (loc.left as real + b.w as real / 2.0) <= 0.5
    ensures -0.5 <= b.y as real - (loc.top as real + b.h as real / 2.0) <= 0.5
  {
    var w := loc.right - loc.left;
    var h := loc.bottom - loc.top;
    DetectionBox("face",
      RoundHalfEven(loc.left as real + w as real / 2.0),
      RoundHalfEven(loc.top as real + h as real / 2.0),
      w, h)
  }

  /**
   * The box has the location's width and height, and its centre lies within
   * half a pixel of the exact centre; for an even width (height) it is the
   * exact centre, so centre minus half the size gives back left (top).
   */
  lemma CenterBoxGeometry(loc: FaceLocation)
    ensures var b := CenterBox(loc);
      && b.kind == "face" && b.w == loc.right - loc.left && b.h == loc.bottom - loc.top
      && -0.5 <= b.x as real - (loc.left as real + b.w as real / 2.0) <= 0.5
      && -0.5 <= b.y as real - (loc.top as real + b.h as real / 2.0) <= 0.5
      && (b.w % 2 == 0 ==> b.x as real - b.w as real / 2.0 == loc.left as real)
      && (b.h % 2 == 0 ==> b.y as real - b.h as real / 2.0 == loc.top as real)
  {
    var b := CenterBox(loc);
    var w := loc.right - loc.left;
    var h := loc.bottom - loc.top;
    if w % 2 == 0 {
      var c := loc.left + w / 2;
      assert loc.left as real + w as real / 2.0 == c as real;
      assert (loc.left as real + w as real / 2.0).Floor == c;
    }
    if h % 2 == 0 {
      var c := loc.top + h / 2;
      assert loc.top as real + h as real / 2.0 == c as real;
      assert (loc.top as real + h as real / 2.0).Floor == c;
    }
  }

  /** The box as the front end reads it from the JSON response. */
  function ToCanvasBox(b: DetectionBox): Canvas.Box
  {
    Canvas.Box(b.x as real, b.y as real, b.w as real, b.h as real, Some(b.kind))
  }

  /**
   * Across the API: the corner the front end strokes, centre minus half the
   * size, is the face location's (left, top) when the sizes are even, and
   * within half a pixel of it otherwise.
   */
  lemma CornerRoundTrip(loc: FaceLocation)
    ensures var c := ToCanvasBox(CenterBox(loc));
      && -0.5 <= Canvas.CornerX(c) - loc.left as real <= 0.5
      && -0.5 <= Canvas.CornerY(c) - loc.top as real <= 0.5
      && ((loc.right - loc.left) % 2 == 0 ==> Canvas.CornerX(c) == loc.left as real)
      && ((loc.bottom - loc.top) % 2 == 0 ==> Canvas.CornerY(c) == loc.top as real)
      && c.w == (loc.right - loc.left) as real && c.h == (loc.bottom - loc.top) as real
  {
    CenterBoxGeometry(loc);
  }

  /**
   * `detect(np_img, subject)` for an image of the given shape on which face
   * detection finds `faceLocations`: a `ValueError` unless the image has
   * three dimensions and three channels; otherwise one box per location,
   * in the same order.
   */
  method Detect(shape: seq<nat>, subject: Option<string>, faceLocations: seq<FaceLocation>)
    returns (r: Result<seq<DetectionBox>, DetectError>)
    ensures !(|shape| == 3 && shape[2] == 3) ==> r == Failure(ValueError(shape))
    ensures |shape| == 3 && shape[2] == 3 ==>
      && r.Success? && |r.value| == |faceLocations|
      && forall k :: 0 <= k < |faceLocations| ==> r.value[k] == CenterBox(faceLocations[k])
  {
    var normalizedSubject := NormalizeSubject(subject);
    if normalizedSubject != "face" {
      assert false;
    }
    if |shape| != 3 || shape[2] != 3 {
      return Failure(ValueError(shape));
    }
    var boxes: seq<DetectionBox> := [];
    for i := 0 to |faceLocations|
      invariant |boxes| == i
      invariant forall k :: 0 <= k < i ==> boxes[k] == CenterBox(faceLocations[k])
    {
      var loc := faceLocations[i];
      var w := loc.right - loc.left;
      var h := loc.bottom - loc.top;
      var xCenter := loc.left as real + w as real / 2.0;
      var yCenter := loc.top as real + h as real / 2.0;
      boxes := boxes + [DetectionBox("face", RoundHalfEven(xCenter), RoundHalfEven(yCenter), w, h)];
    }
    return Success(boxes);
  }
}
