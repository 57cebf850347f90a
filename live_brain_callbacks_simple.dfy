/**
 * The simple brain-view controller: the same sensor selection as the clean one, without any
 * gating, with the whole stored camera copied into the scene, and a camera capture that only
 * looks at whole camera objects.
 */
module SimpleBrainCallbacks {
  import opened Wrappers
  import opened Dicts
  import opened JsonValues
  import opened BrainVisualizer
  import opened BrainPanel
  import Clean = CleanBrainCallbacks

  datatype Plan = Halt(reply: Reply) | Build(sensors: Dict<Json>, camera: Json)

  /** `update_brain_visualization` up to building the figure. */
  function Decide(data: Json, sensor: Option<string>, quantity: Option<string>, camera: Json): (p: Plan)
    ensures p.Halt? ==> p.reply.Uncaught? || (p.reply.Reply? && p.reply.camera == camera)
    ensures p.Build? ==> p.camera == camera
  {
    if !Truthy(data) then Halt(Reply(Message(WaitingText), camera))
    else match PyIn("uid", data)
      case None => Halt(Uncaught)
      case Some(hasUid) =>
        if !hasUid then Halt(Reply(Message(WaitingText), camera))
        else if !data.JObj? then Halt(Reply(ErrorMessage, camera))
        else match SelectSensors(data.fields, sensor, quantity)
          case Placeholder(p) => Halt(Reply(p, camera))
          case Selected(s) => Build(s, camera)
  }

  /** `camera_state.copy()` when the store is truthy; only lists and dictionaries have `.copy`. */
  function CopyCamera(camera: Json): (r: Option<Option<Json>>)
    ensures Truthy(camera) && camera.JObj? ==> r == Some(Some(camera))
    ensures !Truthy(camera) ==> r == Some(None)
  {
    if !Truthy(camera) then Some(None)
    else if camera.JObj? || camera.JArr? then Some(Some(camera))
    else None
  }

  function Finish(p: Plan, built: LiveFigure): (r: Reply)
    requires p.Build?
    ensures r.Reply? && r.camera == p.camera
  {
    match built
    case Raised => Reply(ErrorMessage, p.camera)
    case Produced(f) =>
      match CopyCamera(p.camera)
      case None => Reply(ErrorMessage, p.camera)
      case Some(applied) => Reply(Scene(f, Plain, applied), p.camera)
  }

  function Respond(p: Plan, initialized: bool, assets: Option<Assets>, load: Option<Assets>): Reply
    requires initialized ==> assets.Some? && AssetsShaped(assets.value)
    requires load.Some? ==> AssetsShaped(load.value)
  {
    if p.Halt? then p.reply else Finish(p, LiveFigureSpec(initialized, assets, load, p.sensors))
  }

  method UpdateBrainVisualization(viz: Visualizer, load: Option<Assets>, data: Json, sensor: Option<string>,
                                  quantity: Option<string>, camera: Json) returns (r: Reply)
    requires viz.Valid()
    requires load.Some? ==> AssetsMeasured(load.value)
    modifies viz
    ensures viz.Valid()
    ensures r == Respond(Decide(data, sensor, quantity, camera), old(viz.initialized), old(viz.assets), load)
    ensures Decide(data, sensor, quantity, camera).Halt? ==>
      viz.initialized == old(viz.initialized) && viz.assets == old(viz.assets) && viz.fig == old(viz.fig)
    ensures var p := Decide(data, sensor, quantity, camera);
      p.Build? ==>
        (viz.initialized, viz.assets) == InitAfter(old(viz.initialized), old(viz.assets), load) &&
        var built := LiveFigureSpec(old(viz.initialized), old(viz.assets), load, p.sensors);
        viz.fig == if viz.initialized && built.Produced? then Some(built.figure) else old(viz.fig)
  {
    var p := Decide(data, sensor, quantity, camera);
    if p.Halt? {
      return p.reply;
    }
    var built := viz.CreateLiveBrainFigure(p.sensors, load);
    r := Finish(p, built);
  }

  /** There is no skip path: every call, timer ticks included, yields a figure or raises. */
  lemma NeverNoUpdate(data: Json, sensor: Option<string>, quantity: Option<string>, camera: Json,
                      initialized: bool, assets: Option<Assets>, load: Option<Assets>)
    requires initialized ==> assets.Some? && AssetsShaped(assets.value)
    requires load.Some? ==> AssetsShaped(load.value)
    ensures var r := Respond(Decide(data, sensor, quantity, camera), initialized, assets, load);
      r != NoUpdate && (r.Reply? ==> r.camera == camera)
  {
    var p := Decide(data, sensor, quantity, camera);
    if p.Build? {
      assert Respond(p, initialized, assets, load) == Finish(p, LiveFigureSpec(initialized, assets, load, p.sensors));
    }
  }

  /** The clean variant, in contrast, does skip: a live tick while interacting. */
  lemma OnlyCleanSkips(data: Json, sensor: Option<string>, quantity: Option<string>, camera: Json)
    ensures Clean.Decide(Some("timer"), data, sensor, quantity, JNull, camera, Clean.GateState(true, JNum(0.0))) == Clean.Halt(NoUpdate)
  {
    assert Get(Clean.GateState(true, JNum(0.0)).fields, "is_interacting") == JBool(true);
  }

  /** A non-empty stored camera dictionary is put into the scene as it is, unfiltered. */
  lemma CameraCopiedVerbatim(p: Plan, initialized: bool, assets: Option<Assets>, load: Option<Assets>)
    requires p.Build? && p.camera.JObj? && Truthy(p.camera)
    requires initialized ==> assets.Some? && AssetsShaped(assets.value)
    requires load.Some? ==> AssetsShaped(load.value)
    ensures var r := Respond(p, initialized, assets, load);
      r.Reply? && r.camera == p.camera && (r.panel.Scene? || r.panel == ErrorMessage) &&
      (r.panel.Scene? ==> r.panel.camera == Some(p.camera))
  {
  }

  /** Data without "uid" (or no data) shows the waiting placeholder. */
  lemma WaitingWithoutUid(fields: Dict<Json>, sensor: Option<string>, quantity: Option<string>, camera: Json)
    requires "uid" !in Keys(fields)
    ensures Decide(JObj(fields), sensor, quantity, camera) == Halt(Reply(Message(WaitingText), camera))
    ensures Decide(JNull, sensor, quantity, camera) == Halt(Reply(Message(WaitingText), camera))
  {
  }

  /**
   * With no timeline store and no interaction, the clean controller selects exactly what this
   * one selects: the same placeholders and the same snapshot to build.
   */
  lemma SameSelectionAsClean(trig: Option<string>, data: Json, sensor: Option<string>, quantity: Option<string>, camera: Json)
    ensures var c := Clean.Decide(trig, data, sensor, quantity, JNull, camera, JNull);
            var s := Decide(data, sensor, quantity, camera);
      (c.Halt? <==> s.Halt?) && (c.Halt? ==> c.reply == s.reply) && (c.Build? ==> c.sensors == s.sensors)
  {
    var live := JStr("live");
    Clean.LiveWithoutTimeline();
    assert Clean.Suppress(trig, live, JNull, JNull) == None;
    assert Clean.Decide(trig, data, sensor, quantity, JNull, camera, JNull) == Clean.Render(data, sensor, quantity, live, JNull, camera);
  }

  // ---------------------------------------------------------------------------
  // Camera capture

  /** The camera object of a relayout event: 'scene.camera', else 'scene' → 'camera', else `None`. */
  function CameraData(relayout: Json): Outcome<Json> {
    match PyIn("scene.camera", relayout)
    case None => Raises
    case Some(whole) =>
      if whole then
        match PyIndex(relayout, "scene.camera") { case Some(c) => Returns(c) case None => Raises }
      else if PyIn("scene", relayout) != Some(true) then Returns(JNull)
      else match PyIndex(relayout, "scene")
        case None => Raises
        case Some(scene) =>
          match PyIn("camera", scene)
          case None => Raises
          case Some(nested) =>
            if !nested then Returns(JNull)
            else match PyIndex(scene, "camera") { case Some(c) => Returns(c) case None => Raises }
  }

  /** `store_brain_camera_state`: a truthy camera object replaces the store, anything else keeps it. */
  function Capture(relayout: Json, current: Json): Outcome<Json> {
    if !Truthy(relayout) then Returns(current)
    else match CameraData(relayout)
      case Raises => Raises
      case Returns(c) => Returns(if Truthy(c) then c else current)
  }

  lemma CaptureWholeObject(fields: Dict<Json>, current: Json)
    requires "scene.camera" in Keys(fields)
    ensures var v := Get(fields, "scene.camera");
      Capture(JObj(fields), current) == Returns(if Truthy(v) then v else current)
  {
  }

  lemma CaptureNestedObject(fields: Dict<Json>, scene: Dict<Json>, current: Json)
    requires "scene.camera" !in Keys(fields)
    requires "scene" in Keys(fields) && Get(fields, "scene") == JObj(scene) && "camera" in Keys(scene)
    ensures var v := Get(scene, "camera");
      Capture(JObj(fields), current) == Returns(if Truthy(v) then v else current)
  {
  }

  /** Per-field keys such as 'scene.camera.eye.x' are not looked at: the store is kept. */
  lemma CaptureIgnoresDottedKeys(fields: Dict<Json>, current: Json)
    requires "scene.camera" !in Keys(fields) && "scene" !in Keys(fields)
    ensures Capture(JObj(fields), current) == Returns(current)
  {
  }

  /**
   * The two captures disagree on Plotly's whole-object camera key: this one stores the
   * object, the clean one files it under 'scene' and keeps the store.
   */
  lemma CapturesDisagreeOnWholeKey(v: Json, current: Json)
    requires Truthy(v) && Truthy(current)
    ensures Capture(JObj([("scene.camera", v)]), current) == Returns(v)
    ensures Clean.CaptureSpec(JObj([("scene.camera", v)]), current) == Returns(current)
  {
    assert "scene.camera" in Keys([("scene.camera", v)]);
    Clean.CaptureWholeCameraKeyKeeps(v, current);
  }
}
