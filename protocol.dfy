/**
 * The messages the bHaptics client sends to the local driver
 * (bhaptics/better_haptic_player.py): the body positions, the request
 * dictionaries built by `register`, `submit_registered`,
 * `submit_registered_with_option`, `submit`, `submit_dot`, `submit_path`
 * and `stop_pattern`, and, as their partner, the reading of those
 * dictionaries that a receiver of the wire format performs.
 */
module Protocol {

  import opened Wrappers
  import opened JsonValues

  /** `BhapticsPosition`: where a device is worn. */
  datatype Position =
    | Vest | VestFront | VestBack | ForearmL | ForearmR | Head
    | HandL | HandR | FootL | FootR | GloveL | GloveR

  /** The enum member's `.value`, the text the driver knows it by. */
  function PositionValue(p: Position): string {
    match p
    case Vest => "Vest"
    case VestFront => "VestFront"
    case VestBack => "VestBack"
    case ForearmL => "ForearmL"
    case ForearmR => "ForearmR"
    case Head => "Head"
    case HandL => "HandL"
    case HandR => "HandR"
    case FootL => "FootL"
    case FootR => "FootR"
    case GloveL => "GloveL"
    case GloveR => "GloveR"
  }

  /** `BhapticsPosition(s)`: the member whose value is `s`, if any. */
  function PositionOf(s: string): (r: Option<Position>)
    ensures r.Some? ==> PositionValue(r.value) == s
  {
    if s == "Vest" then Some(Vest)
    else if s == "VestFront" then Some(VestFront)
    else if s == "VestBack" then Some(VestBack)
    else if s == "ForearmL" then Some(ForearmL)
    else if s == "ForearmR" then Some(ForearmR)
    else if s == "Head" then Some(Head)
    else if s == "HandL" then Some(HandL)
    else if s == "HandR" then Some(HandR)
    else if s == "FootL" then Some(FootL)
    else if s == "FootR" then Some(FootR)
    else if s == "GloveL" then Some(GloveL)
    else if s == "GloveR" then Some(GloveR)
    else None
  }

  /** Every position is found again from its value, so no two positions share a value. */
  lemma PositionValueRoundTrip(p: Position)
    ensures PositionOf(PositionValue(p)) == Some(p)
  {
  }

  // ---------------------------------------------------------------------
  // The request dictionaries, field for field and in the source's order.
  // ---------------------------------------------------------------------

  /** `{"Register": [{"Key": key, "Project": {"Tracks": tracks, "Layout": layout}}]}` */
  function RegisterRequest(key: string, tracks: Json, layout: Json): Json {
    Object(["Register"], [JArr([
      Object(["Key", "Project"], [JStr(key), Object(["Tracks", "Layout"], [tracks, layout])])])])
  }

  /** `{"Submit": [{"Type": "key", "Key": key}]}` */
  function SubmitKeyRequest(key: string): Json {
    Object(["Submit"], [JArr([Object(["Type", "Key"], [JStr("key"), JStr(key)])])])
  }

  /** `{"Submit": [{"Type": "key", "Key": key, "Parameters": {"altKey": .., "rotationOption": .., "scaleOption": ..}}]}` */
  function SubmitWithOptionRequest(key: string, altKey: string, scaleOption: Json, rotationOption: Json): Json {
    Object(["Submit"], [JArr([
      Object(["Type", "Key", "Parameters"], [JStr("key"), JStr(key),
        Object(["altKey", "rotationOption", "scaleOption"], [JStr(altKey), rotationOption, scaleOption])])])])
  }

  /** `{"Submit": [{"Type": "frame", "Key": key, "Frame": frame}]}` */
  function SubmitFrameRequest(key: string, frame: Json): Json {
    Object(["Submit"], [JArr([Object(["Type", "Key", "Frame"], [JStr("frame"), JStr(key), frame])])])
  }

  /** `{"Stop": [{"Key": key}]}` */
  function StopRequest(key: string): Json {
    Object(["Stop"], [JArr([Object(["Key"], [JStr(key)])])])
  }

  /** The frame of `submit_dot`: `{"position": .., "dotPoints": .., "durationMillis": ..}` */
  function DotFrame(position: string, dotPoints: Json, durationMillis: int): Json {
    Object(["position", "dotPoints", "durationMillis"], [JStr(position), dotPoints, JInt(durationMillis)])
  }

  /** The frame of `submit_path`: `{"position": .., "pathPoints": .., "durationMillis": ..}` */
  function PathFrame(position: string, pathPoints: Json, durationMillis: int): Json {
    Object(["position", "pathPoints", "durationMillis"], [JStr(position), pathPoints, JInt(durationMillis)])
  }

  // ---------------------------------------------------------------------
  // The receiving side: what a request means, read back from its fields.
  // ---------------------------------------------------------------------

  datatype Request =
    | Register(key: string, tracks: Json, layout: Json)
    | SubmitKey(key: string)
    | SubmitWithOption(key: string, altKey: string, scaleOption: Json, rotationOption: Json)
    | SubmitFrame(key: string, frame: Json)
    | Stop(key: string)

  datatype Frame =
    | Dots(position: string, dotPoints: Json, durationMillis: int)
    | Paths(position: string, pathPoints: Json, durationMillis: int)

  /** The dictionary the client builds for each request. */
  function RequestJson(r: Request): Json {
    match r
    case Register(k, t, l) => RegisterRequest(k, t, l)
    case SubmitKey(k) => SubmitKeyRequest(k)
    case SubmitWithOption(k, a, s, o) => SubmitWithOptionRequest(k, a, s, o)
    case SubmitFrame(k, f) => SubmitFrameRequest(k, f)
    case Stop(k) => StopRequest(k)
  }

  function FrameJson(f: Frame): Json {
    match f
    case Dots(p, pts, d) => DotFrame(p, pts, d)
    case Paths(p, pts, d) => PathFrame(p, pts, d)
  }

  /** The only element of a one-element list. */
  function Single(j: Json): (r: Option<Json>)
    ensures r.Some? <==> j.JArr? && |j.items| == 1
    ensures r.Some? ==> j == JArr([r.value])
  {
    if j.JArr? && |j.items| == 1 then Some(j.items[0]) else None
  }

  /** The entry of `{tag: [entry]}`. */
  function Entry(j: Json, tag: string): (r: Option<Json>)
    ensures r.Some? ==> j == Object([tag], [JArr([r.value])])
  {
    match Fields(j, [tag])
    case Some(vs) => Single(vs[0])
    case None => None
  }

  /** Reads a request of exactly one of the five layouts; None for anything else. */
  function ParseRequest(j: Json): Option<Request> {
    match Entry(j, "Register")
    case Some(e) =>
      (match Fields(e, ["Key", "Project"])
       case Some(vs) =>
         if vs[0].JStr? then
           (match Fields(vs[1], ["Tracks", "Layout"])
            case Some(p) => Some(Register(vs[0].s, p[0], p[1]))
            case None => None)
         else None
       case None => None)
    case None =>
      match Entry(j, "Submit")
      case Some(e) => ParseSubmit(e)
      case None =>
        match Entry(j, "Stop")
        case Some(e) =>
          (match Fields(e, ["Key"])
           case Some(vs) => if vs[0].JStr? then Some(Stop(vs[0].s)) else None
           case None => None)
        case None => None
  }

  /** Reads the entry of a Submit request: by key, by key with options, or a frame. */
  function ParseSubmit(e: Json): Option<Request> {
    match Fields(e, ["Type", "Key"])
    case Some(vs) =>
      if vs[0] == JStr("key") && vs[1].JStr? then Some(SubmitKey(vs[1].s)) else None
    case None =>
      match Fields(e, ["Type", "Key", "Parameters"])
      case Some(vs) =>
        if vs[0] == JStr("key") && vs[1].JStr? then
          (match Fields(vs[2], ["altKey", "rotationOption", "scaleOption"])
           case Some(ps) =>
             if ps[0].JStr? then Some(SubmitWithOption(vs[1].s, ps[0].s, ps[2], ps[1])) else None
           case None => None)
        else None
      case None =>
        match Fields(e, ["Type", "Key", "Frame"])
        case Some(vs) =>
          if vs[0] == JStr("frame") && vs[1].JStr? then Some(SubmitFrame(vs[1].s, vs[2])) else None
        case None => None
  }

  /** Reads a frame of either layout. */
  function ParseFrame(j: Json): Option<Frame> {
    match Fields(j, ["position", "dotPoints", "durationMillis"])
    case Some(vs) =>
      if vs[0].JStr? && vs[2].JInt? then Some(Dots(vs[0].s, vs[1], vs[2].i)) else None
    case None =>
      match Fields(j, ["position", "pathPoints", "durationMillis"])
      case Some(vs) =>
        if vs[0].JStr? && vs[2].JInt? then Some(Paths(vs[0].s, vs[1], vs[2].i)) else None
      case None => None
  }

  /** Every request builder carries its arguments unchanged under the documented field names. */
  lemma {:induction false} RequestRoundTrip(r: Request)
    ensures ParseRequest(RequestJson(r)) == Some(r)
  {
    match r
    case Register(k, t, l) =>
      var proj := Object(["Tracks", "Layout"], [t, l]);
      var e := Object(["Key", "Project"], [JStr(k), proj]);
      FieldsOfObject(["Register"], [JArr([e])]);
      FieldsOfObject(["Key", "Project"], [JStr(k), proj]);
      FieldsOfObject(["Tracks", "Layout"], [t, l]);
    case SubmitKey(k) =>
      var e := Object(["Type", "Key"], [JStr("key"), JStr(k)]);
      FieldsOfObject(["Submit"], [JArr([e])]);
      FieldsOfObject(["Type", "Key"], [JStr("key"), JStr(k)]);
    case SubmitWithOption(k, a, s, o) =>
      var ps := Object(["altKey", "rotationOption", "scaleOption"], [JStr(a), o, s]);
      var e := Object(["Type", "Key", "Parameters"], [JStr("key"), JStr(k), ps]);
      FieldsOfObject(["Submit"], [JArr([e])]);
      FieldsOfObject(["Type", "Key", "Parameters"], [JStr("key"), JStr(k), ps]);
      FieldsOfObject(["altKey", "rotationOption", "scaleOption"], [JStr(a), o, s]);
    case SubmitFrame(k, f) =>
      var e := Object(["Type", "Key", "Frame"], [JStr("frame"), JStr(k), f]);
      FieldsOfObject(["Submit"], [JArr([e])]);
      FieldsOfObject(["Type", "Key", "Frame"], [JStr("frame"), JStr(k), f]);
    case Stop(k) =>
      FieldsOfObject(["Stop"], [JArr([Object(["Key"], [JStr(k)])])]);
      FieldsOfObject(["Key"], [JStr(k)]);
  }

  /** Only the builders' own dictionaries are read as requests: the layout is exact. */
  lemma {:induction false} RequestLayoutExact(j: Json)
    requires ParseRequest(j).Some?
    ensures RequestJson(ParseRequest(j).value) == j
  {
    match Entry(j, "Register")
    case Some(e) =>
      var vs := Fields(e, ["Key", "Project"]).value;
      var p := Fields(vs[1], ["Tracks", "Layout"]).value;
      assert p == [p[0], p[1]];
      assert vs == [JStr(vs[0].s), Object(["Tracks", "Layout"], [p[0], p[1]])];
    case None =>
      match Entry(j, "Submit")
      case Some(e) => SubmitLayoutExact(e);
      case None =>
        var e := Entry(j, "Stop").value;
        var vs := Fields(e, ["Key"]).value;
        assert vs == [JStr(vs[0].s)];
  }

  lemma {:induction false} SubmitLayoutExact(e: Json)
    requires ParseSubmit(e).Some?
    ensures Object(["Submit"], [JArr([e])]) == RequestJson(ParseSubmit(e).value)
  {
    match Fields(e, ["Type", "Key"])
    case Some(vs) =>
      assert vs == [JStr("key"), JStr(vs[1].s)];
    case None =>
      match Fields(e, ["Type", "Key", "Parameters"])
      case Some(vs) =>
        var ps := Fields(vs[2], ["altKey", "rotationOption", "scaleOption"]).value;
        assert ps == [JStr(ps[0].s), ps[1], ps[2]];
        assert vs == [JStr("key"), JStr(vs[1].s), vs[2]];
      case None =>
        var vs := Fields(e, ["Type", "Key", "Frame"]).value;
        assert vs == [JStr("frame"), JStr(vs[1].s), vs[2]];
  }

  /** Both frame builders carry position, points and duration unchanged. */
  lemma {:induction false} FrameRoundTrip(f: Frame)
    ensures ParseFrame(FrameJson(f)) == Some(f)
  {
    match f
    case Dots(p, pts, d) =>
      FieldsOfObject(["position", "dotPoints", "durationMillis"], [JStr(p), pts, JInt(d)]);
    case Paths(p, pts, d) =>
      FieldsOfObject(["position", "pathPoints", "durationMillis"], [JStr(p), pts, JInt(d)]);
      assert Fields(PathFrame(p, pts, d), ["position", "dotPoints", "durationMillis"]).None? by {
        assert Names(PathFrame(p, pts, d).fields)[1] == "pathPoints";
      }
  }

  /** Two different requests never produce the same dictionary. */
  lemma RequestJsonInjective(r1: Request, r2: Request)
    requires RequestJson(r1) == RequestJson(r2)
    ensures r1 == r2
  {
    RequestRoundTrip(r1);
    RequestRoundTrip(r2);
  }
}
