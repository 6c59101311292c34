/**
 * The detection endpoint of backend/api/routes.py: POST /api/v1/detect
 * takes `{subject, image, filename, type}` and, for now, answers with one
 * dummy box centred in the image. Base64 decoding and opening the image
 * are outside the model: their outcome, the image size or an error text,
 * is an input.
 */
module Routes {
  import opened Wrappers
  import State

  /** The route the handler is registered on. */
  const DetectRoute := "/api/v1/detect"

  /** A JSON value as far as the handler looks at it. */
  datatype Json = JString(s: string) | JNull | JOther(truthy: bool)

  /**
   * What `request.get_json()` returns: nothing, an object, or another JSON
   * value (an array, a string, a number, a boolean), with its truthiness.
   */
  datatype Body = NoBody | JObject(fields: map<string, Json>) | JNonObject(truthy: bool)

  /** Base64 decoding and `Image.open(...)`: the image size, or the text of the exception. */
  datatype Decoded = Size(width: nat, height: nat) | DecodeError(text: string)

  /** One object of the response: `{type, x, y, w, h}`. */
  datatype DummyBox = DummyBox(kind: Json, x: int, y: int, w: int, h: int)

  datatype Reply = Reply(code: int, status: string, message: string, objects: seq<DummyBox>)

  /** `if not data`: no body, an empty object, or a falsy value. */
  predicate Falsy(b: Body)
  {
    b.NoBody? || (b.JObject? && b.fields == map[]) || (b.JNonObject? && !b.truthy)
  }

  /** The pieces of `s.split(",")`. */
  function SplitComma(s: string): (r: seq<string>)
    ensures |r| >= 1
    ensures ',' !in s ==> r == [s]
    decreases |s|
  {
    if ',' !in s then [s]
    else
      var i := FirstComma(s);
      [s[..i]] + SplitComma(s[i + 1..])
  }

  /** The position of the first comma. */
  function FirstComma(s: string): (i: nat)
    requires ',' in s
    ensures i < |s| && s[i] == ',' && ',' !in s[..i]
  {
    if s[0] == ',' then 0
    else
      assert ',' in s[1..] by {
        var j :| 0 <= j < |s| && s[j] == ',';
        assert s[1..][j - 1] == ',';
      }
      var i := FirstComma(s[1..]);
      assert s[..i + 1] == [s[0]] + s[1..][..i];
      i + 1
  }

  /** `data_url.split(",")[1]`: the text between the first and the second comma, or an IndexError. */
  function Payload(dataUrl: string): Option<string>
  {
    var parts := SplitComma(dataUrl);
    if |parts| >= 2 then Some(parts[1]) else None
  }

  /**
   * For a data URL "header,payload" as section 3 of RFC 2397 writes it (no
   * comma in the header, none in base64 data), the payload comes back
   * exactly; a URL without a comma has no second piece.
   */
  lemma PayloadRoundTrip(header: string, payload: string)
    requires ',' !in header && ',' !in payload
    ensures Payload(header + "," + payload) == Some(payload)
    ensures Payload(header) == None
  {
    var s := header + "," + payload;
    assert s[|header|] == ',';
    var i := FirstComma(s);
    assert s[..|header|] == header;
    assert i == |header|;
    assert s[..i] == header;
    assert s[i + 1..] == payload;
  }

  /** `data.get("subject", "face")`: the request's value, whatever it is, and "face" only when the key is absent. */
  function SubjectOf(fields: map<string, Json>): Json
  {
    if "subject" in fields then fields["subject"] else JString("face")
  }

  /** The dummy box: centre (width // 2, height // 2), size (width // 3, height // 3). */
  function CentredBox(kind: Json, width: nat, height: nat): DummyBox
  {
    DummyBox(kind, width / 2, height / 2, width / 3, height / 3)
  }

  /**
   * The box lies inside the image: its left and top edges (centre minus
   * half the size) are not negative, and its right and bottom edges do not
   * pass the width and height.
   */
  lemma CentredBoxInside(kind: Json, width: nat, height: nat)
    ensures var b := CentredBox(kind, width, height);
      && 2 * b.x - b.w >= 0 && 2 * b.x + b.w <= 2 * width
      && 2 * b.y - b.h >= 0 && 2 * b.y + b.h <= 2 * height
  {
    HalfAndThird(width);
    HalfAndThird(height);
  }

  lemma HalfAndThird(n: nat)
    ensures 2 * (n / 2) - n / 3 >= 0 && 2 * (n / 2) + n / 3 <= 2 * n
  {
    assert n == 2 * (n / 2) + n % 2;
    assert n == 3 * (n / 3) + n % 3;
  }

  const ErrorPrefix := "Detection failed: "

  /** A 400 answer for an exception with the given text. */
  function Failed(text: string): Reply
  {
    Reply(400, "error", ErrorPrefix + text, [])
  }

  /**
   * `detect()`: 400 with "No JSON body received" for a falsy body; 400 with
   * "Detection failed: ..." for a body that is not an object, a missing or
   * non-string "image", a data URL without a comma, or an image that cannot
   * be decoded; otherwise 200 with the single centred box.
   */
  function Handle(body: Body, decode: string -> Decoded): (r: Reply)
    ensures r.code == 200 || r.code == 400
    ensures r.code == 200 <==> |r.objects| == 1
    ensures r.code == 200 <==>
      && body.JObject? && "image" in body.fields && body.fields["image"].JString?
      && Payload(body.fields["image"].s).Some? && decode(Payload(body.fields["image"].s).value).Size?
  {
    if Falsy(body) then Reply(400, "error", "No JSON body received", [])
    else if body.JNonObject? then Failed("object has no attribute 'get'")
    else if "image" !in body.fields then Failed("'image'")
    else if !body.fields["image"].JString? then Failed("object has no attribute 'split'")
    else
      var payload := Payload(body.fields["image"].s);
      if payload.None? then Failed("list index out of range")
      else match decode(payload.value)
        case DecodeError(text) => Failed(text)
        case Size(width, height) =>
          Reply(200, "success", "Detection successful (dummy)", [CentredBox(SubjectOf(body.fields), width, height)])
  }

  /**
   * Every answer is either a 200 success with exactly one object, or a 400
   * error with no objects whose message is the empty-body text or starts
   * with "Detection failed: ".
   */
  lemma ReplyShapes(body: Body, decode: string -> Decoded)
    ensures var r := Handle(body, decode);
      || (r.code == 200 && r.status == "success" && |r.objects| == 1)
      || (r.code == 400 && r.status == "error" && r.objects == []
          && (r.message == "No JSON body received" || r.message[..|ErrorPrefix|] == ErrorPrefix))
    ensures Falsy(body) ==> Handle(body, decode) == Reply(400, "error", "No JSON body received", [])
  {
  }

  /**
   * A request whose data URL carries a decodable payload succeeds with the
   * box centred in the decoded image, typed by the request's subject (or
   * "face" when the key is absent).
   */
  lemma SuccessfulDetection(fields: map<string, Json>, header: string, payload: string, decode: string -> Decoded)
    requires "image" in fields && fields["image"] == JString(header + "," + payload)
    requires ',' !in header && ',' !in payload
    requires decode(payload).Size?
    ensures var r := Handle(JObject(fields), decode);
      && r.code == 200 && r.status == "success"
      && r.objects == [CentredBox(SubjectOf(fields), decode(payload).width, decode(payload).height)]
      && r.objects[0].kind == (if "subject" in fields then fields["subject"] else JString("face"))
  {
    PayloadRoundTrip(header, payload);
  }

  /**
   * The error direction for a string "image": a data URL without a comma has
   * no payload and fails with Python's IndexError text, and a payload that
   * cannot be decoded fails with the decoder's text; both are 400 answers
   * beginning "Detection failed: ".
   */
  lemma FailedDetection(fields: map<string, Json>, header: string, payload: string, decode: string -> Decoded)
    requires "image" in fields && ',' !in header && ',' !in payload
    ensures fields["image"] == JString(header) ==>
      Handle(JObject(fields), decode) == Failed("list index out of range")
    ensures fields["image"] == JString(header + "," + payload) && decode(payload).DecodeError? ==>
      Handle(JObject(fields), decode) == Failed(decode(payload).text)
    ensures Failed("list index out of range").message[..|ErrorPrefix|] == ErrorPrefix
    ensures decode(payload).DecodeError? ==> Failed(decode(payload).text).message[..|ErrorPrefix|] == ErrorPrefix
  {
    PayloadRoundTrip(header, payload);
  }

  /** Both front ends post to the route the handler is registered on. */
  lemma ClientsUseTheRoute(protocol: string, host: string)
    ensures var u := State.DetectApiUrl(State.Modular, protocol, host);
      u[|u| - |DetectRoute|..] == DetectRoute
    ensures var u := State.DetectApiUrl(State.Monolithic, protocol, host);
      u[|u| - |DetectRoute|..] == DetectRoute
  {
  }
}
