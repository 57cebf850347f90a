/**
 * The clean brain-view controller: the interaction gate that pauses live updates while the
 * user moves the camera, the per-tick decision of what the brain graph shows, and the
 * capture of camera changes from Plotly relayout events.
 */
module CleanBrainCallbacks {
  import opened Wrappers
  import opened Dicts
  import opened JsonValues
  import opened Text
  import opened BrainVisualizer
  import opened BrainPanel

  // ---------------------------------------------------------------------------
  // Interaction gate

  /** Seconds without relayout activity after which live updates resume. */
  const Quiet: real := 2.0

  function GateState(interacting: bool, last: Json): (j: Json)
    ensures j.JObj? && Keys(j.fields) == ["is_interacting", "last_interaction"]
  {
    JObj([("is_interacting", JBool(interacting)), ("last_interaction", last)])
  }

  /** The gate state assumed when the store is empty. */
  const Idle: Json := GateState(false, JNum(0.0))

  /**
   * `handle_brain_interaction_backup` at clock reading `now`: a relayout from the graph starts
   * a pause, a timer tick ends it once more than `Quiet` seconds passed, anything else keeps it.
   */
  function Gate(trig: Option<string>, relayout: Json, state: Json, now: real): Outcome<Json> {
    var s := if Truthy(state) then state else Idle;
    if trig == Some("brain_graph") && Truthy(relayout) then Returns(GateState(true, JNum(now)))
    else if trig == Some("interaction_timer") then
      match PyGet(s, "last_interaction", JNum(0.0))
      case None => Raises
      case Some(last) =>
        match AsNumber(last)
        case None => Raises
        case Some(t) =>
          if now - t > Quiet then
            match PyGet(s, "is_interacting", JNull)
            case Some(flag) => if Truthy(flag) then Returns(GateState(false, last)) else Returns(s)
            case None => Raises
          else Returns(s)
    else Returns(s)
  }

  /** A gate state the gate can work with: empty, or a dictionary with a numeric last time. */
  predicate GateReady(state: Json) {
    !Truthy(state) ||
    (state.JObj? && ("last_interaction" in Keys(state.fields) ==> AsNumber(Get(state.fields, "last_interaction")).Some?))
  }

  lemma {:induction false} GateKeepsReady(trig: Option<string>, relayout: Json, state: Json, now: real)
    requires GateReady(state)
    ensures Gate(trig, relayout, state, now).Returns?
    ensures GateReady(Gate(trig, relayout, state, now).value)
  {
    var s := if Truthy(state) then state else Idle;
    assert GateReady(s) && s.JObj? by {
      GateStateReady(false, JNum(0.0));
    }
    var g := Gate(trig, relayout, state, now);
    if trig == Some("brain_graph") && Truthy(relayout) {
      assert g == Returns(GateState(true, JNum(now)));
      GateStateReady(true, JNum(now));
    } else if trig == Some("interaction_timer") {
      var last := PyGet(s, "last_interaction", JNum(0.0)).value;
      if "last_interaction" in Keys(s.fields) {
        assert last == Get(s.fields, "last_interaction");
      } else {
        assert last == JNum(0.0);
      }
      var t := AsNumber(last).value;
      if now - t > Quiet && Truthy(PyGet(s, "is_interacting", JNull).value) {
        assert g == Returns(GateState(false, last));
        GateStateReady(false, last);
      } else {
        assert g == Returns(s);
      }
    } else {
      assert g == Returns(s);
    }
  }

  /** A gate state written with a numeric time is one the gate can work with. */
  lemma GateStateReady(interacting: bool, last: Json)
    requires AsNumber(last).Some?
    ensures GateReady(GateState(interacting, last))
  {
    var g := GateState(interacting, last);
    GetAt(g.fields, 1);
  }

  lemma GateStartsPause(relayout: Json, state: Json, now: real)
    requires Truthy(relayout)
    ensures Gate(Some("brain_graph"), relayout, state, now) == Returns(GateState(true, JNum(now)))
  {
  }

  /**
   * While interacting, a timer tick resumes exactly when more than two seconds passed since
   * the last interaction, keeping that time; otherwise the state stays as it was.
   */
  lemma GateResumesAfterQuiet(relayout: Json, fields: Dict<Json>, t: real, now: real)
    requires "last_interaction" in Keys(fields) && Get(fields, "last_interaction") == JNum(t)
    requires "is_interacting" in Keys(fields) && Truthy(Get(fields, "is_interacting"))
    ensures now - t > Quiet ==>
      Gate(Some("interaction_timer"), relayout, JObj(fields), now) == Returns(GateState(false, JNum(t)))
    ensures now - t <= Quiet ==>
      Gate(Some("interaction_timer"), relayout, JObj(fields), now) == Returns(JObj(fields))
  {
  }

  /** Any other trigger (or a graph event without relayout data) returns the state unchanged. */
  lemma GateOtherwiseUnchanged(trig: Option<string>, relayout: Json, state: Json, now: real)
    requires trig != Some("interaction_timer")
    requires !(trig == Some("brain_graph") && Truthy(relayout))
    ensures Gate(trig, relayout, state, now) == Returns(if Truthy(state) then state else Idle)
  {
  }

  // ---------------------------------------------------------------------------
  // Controller decision

  /** Triggers that are "ticks": the update timer and the memory store. */
  predicate Tick(trig: Option<string>) {
    trig == Some("timer") || trig == Some("memory")
  }

  /** `timeline_mode.get('mode', 'live') if timeline_mode else 'live'`. */
  function ModeOf(tm: Json): (m: Option<Json>)
    ensures !Truthy(tm) ==> m == Some(JStr("live"))
    ensures Truthy(tm) && !tm.JObj? ==> m.None?
  {
    if Truthy(tm) then PyGet(tm, "mode", JStr("live")) else Some(JStr("live"))
  }

  /** `interaction_state.get('is_interacting', False)` if the state is truthy. */
  function PauseFlag(interaction: Json): (f: Option<Json>)
    ensures !Truthy(interaction) ==> f == Some(JBool(false))
  {
    if Truthy(interaction) then PyGet(interaction, "is_interacting", JBool(false)) else Some(JBool(false))
  }

  /** Historical mode shows `selected_data` when that is truthy. */
  predicate ShowsSelection(mode: Json, tm: Json) {
    mode == JStr("historical") && PyGet(tm, "selected_data", JNull).Some? && Truthy(PyGet(tm, "selected_data", JNull).value)
  }

  /** `timeline_mode.get('selected_time', 0)` as a number for `:.1f`; `None` where formatting raises. */
  function SelectedTime(tm: Json): Option<real> {
    match PyGet(tm, "selected_time", JNum(0.0))
    case Some(t) => AsNumber(t)
    case None => None
  }

  const CameraKeys: seq<string> := ["eye", "center", "up", "projection"]

  predicate IsCameraKey(k: string, v: Json) {
    k in CameraKeys
  }

  /** `{k: v for k, v in config.items() if k in [...]}` when `config` is truthy. */
  function Restrict(config: Json): (r: Option<Option<Dict<Json>>>)
    ensures r.Some? && r.value.Some? ==>
      config.JObj? && |r.value.value| > 0 &&
      forall k :: k in Keys(r.value.value) <==> k in Keys(config.fields) && k in CameraKeys
  {
    if !Truthy(config) then Some(None)
    else if !config.JObj? then None
    else
      var c := Filter(config.fields, IsCameraKey);
      if |c| > 0 then Some(Some(c)) else Some(None)
  }

  /**
   * The camera written into the new figure's scene: the store's 'camera' entry if present,
   * else the store itself if it names any camera part; `None` where the lookup raises.
   */
  function CameraToApply(camera: Json): Option<Option<Dict<Json>>> {
    if !Truthy(camera) then Some(None)
    else match PyIn("camera", camera)
      case None => None
      case Some(hasCamera) =>
        if hasCamera then
          match PyIndex(camera, "camera")
          case Some(config) => Restrict(config)
          case None => None
        else if exists i :: 0 <= i < |CameraKeys| && PyIn(CameraKeys[i], camera) == Some(true) then Restrict(camera)
        else Some(None)
  }

  /** What the controller does: answer at once, or build a figure from `sensors` and dress it. */
  datatype Plan =
    | Halt(reply: Reply)
    | Build(sensors: Dict<Json>, mark: Option<Mark>, applied: Option<Option<Dict<Json>>>, camera: Json)

  /** The title mark of the playback mode; `None` where formatting the selected time raises. */
  function MarkOf(mode: Json, tm: Json): Option<Mark> {
    if mode == JStr("historical") then
      match SelectedTime(tm) { case Some(t) => Some(HistoricalAt(t)) case None => None }
    else if mode == JStr("paused") then Some(PausedMark)
    else Some(Plain)
  }

  /**
   * The checks before any drawing: formatting the selected time of a shown selection, reading
   * the interaction flag, and skipping ticks while interacting live or while paused.
   * `None`: go on and draw.
   */
  function Suppress(trig: Option<string>, mode: Json, tm: Json, interaction: Json): Option<Reply> {
    if ShowsSelection(mode, tm) && SelectedTime(tm).None? then Some(Uncaught)
    else match PauseFlag(interaction)
      case None => Some(Uncaught)
      case Some(flag) =>
        if Truthy(flag) && Tick(trig) && mode == JStr("live") then Some(NoUpdate)
        else if mode == JStr("paused") && Tick(trig) then Some(NoUpdate)
        else None
  }

  /** The data drawn: the selected snapshot when historical mode has one, else the live data. */
  function DisplayData(mode: Json, tm: Json, data: Json): Json {
    if ShowsSelection(mode, tm) then PyGet(tm, "selected_data", JNull).value else data
  }

  /** Placeholders for missing data, the sensor selection, and the plan to build. */
  function Render(display: Json, sensor: Option<string>, quantity: Option<string>, mode: Json, tm: Json, camera: Json): (p: Plan)
    ensures p.Halt? ==> p.reply.Uncaught? || (p.reply.Reply? && p.reply.camera == camera)
    ensures p.Build? ==> p.applied == CameraToApply(camera) && p.camera == camera
  {
    if !Truthy(display) then Halt(Reply(Message(WaitingText), camera))
    else match PyIn("uid", display)
      case None => Halt(Uncaught)
      case Some(hasUid) =>
        if !hasUid then Halt(Reply(Message(WaitingText), camera))
        else if !display.JObj? then Halt(Reply(ErrorMessage, camera))
        else match SelectSensors(display.fields, sensor, quantity)
          case Placeholder(p) => Halt(Reply(p, camera))
          case Selected(s) => Build(s, MarkOf(mode, tm), CameraToApply(camera), camera)
  }

  /** The decision part of `update_brain_visualization`, up to building the figure. */
  function Decide(trig: Option<string>, data: Json, sensor: Option<string>, quantity: Option<string>,
                  tm: Json, camera: Json, interaction: Json): (p: Plan)
    ensures p.Halt? && p.reply.Reply? ==> p.reply.camera == camera
    ensures p.Build? ==> p.applied == CameraToApply(camera) && p.camera == camera
    ensures p == Halt(NoUpdate) ==> Tick(trig)
  {
    match ModeOf(tm)
    case None => Halt(Uncaught)
    case Some(mode) =>
      match Suppress(trig, mode, tm, interaction)
      case Some(r) => Halt(r)
      case None => Render(DisplayData(mode, tm, data), sensor, quantity, mode, tm, camera)
  }

  /** The reply once the figure builder produced `built` for a `Build` plan. */
  function Finish(p: Plan, built: LiveFigure): (r: Reply)
    requires p.Build?
    ensures r.Reply? && r.camera == p.camera
  {
    match built
    case Raised => Reply(ErrorMessage, p.camera)  // the builder raised inside the `try`
    case Produced(f) =>
      if p.mark.None? || p.applied.None? then Reply(ErrorMessage, p.camera)
      else Reply(Scene(f, p.mark.value, match p.applied.value { case Some(c) => Some(JObj(c)) case None => None }), p.camera)
  }

  /** The controller's reply on a visualiser in state (`initialized`, `assets`). */
  function Respond(p: Plan, initialized: bool, assets: Option<Assets>, load: Option<Assets>): Reply
    requires initialized ==> assets.Some? && AssetsShaped(assets.value)
    requires load.Some? ==> AssetsShaped(load.value)
  {
    if p.Halt? then p.reply else Finish(p, LiveFigureSpec(initialized, assets, load, p.sensors))
  }

  /** `update_brain_visualization`: decide, and build the figure on the shared visualiser. */
  method UpdateBrainVisualization(viz: Visualizer, load: Option<Assets>, trig: Option<string>, data: Json,
                                  sensor: Option<string>, quantity: Option<string>, tm: Json,
                                  camera: Json, interaction: Json) returns (r: Reply)
    requires viz.Valid()
    requires load.Some? ==> AssetsMeasured(load.value)
    modifies viz
    ensures viz.Valid()
    ensures r == Respond(Decide(trig, data, sensor, quantity, tm, camera, interaction), old(viz.initialized), old(viz.assets), load)
    ensures Decide(trig, data, sensor, quantity, tm, camera, interaction).Halt? ==>
      viz.initialized == old(viz.initialized) && viz.assets == old(viz.assets) && viz.fig == old(viz.fig)
    ensures var p := Decide(trig, data, sensor, quantity, tm, camera, interaction);
      p.Build? ==>
        (viz.initialized, viz.assets) == InitAfter(old(viz.initialized), old(viz.assets), load) &&
        var built := LiveFigureSpec(old(viz.initialized), old(viz.assets), load, p.sensors);
        viz.fig == if viz.initialized && built.Produced? then Some(built.figure) else old(viz.fig)
  {
    var p := Decide(trig, data, sensor, quantity, tm, camera, interaction);
    if p.Halt? {
      return p.reply;
    }
    var built := viz.CreateLiveBrainFigure(p.sensors, load);
    r := Finish(p, built);
  }

  // ---------------------------------------------------------------------------
  // Properties of the controller

  /** Every reply that updates the outputs writes the incoming camera store back unchanged. */
  lemma CameraStoreEchoed(trig: Option<string>, data: Json, sensor: Option<string>, quantity: Option<string>,
                          tm: Json, camera: Json, interaction: Json,
                          initialized: bool, assets: Option<Assets>, load: Option<Assets>)
    requires initialized ==> assets.Some? && AssetsShaped(assets.value)
    requires load.Some? ==> AssetsShaped(load.value)
    ensures var r := Respond(Decide(trig, data, sensor, quantity, tm, camera, interaction), initialized, assets, load);
      r.Reply? ==> r.camera == camera
  {
    var p := Decide(trig, data, sensor, quantity, tm, camera, interaction);
    if p.Build? {
      assert Respond(p, initialized, assets, load) == Finish(p, LiveFigureSpec(initialized, assets, load, p.sensors));
    }
  }

  /**
   * The controller skips an update exactly on ticks while the user interacts in live mode, or
   * in paused mode (given the stores themselves can be read).
   */
  lemma NoUpdateExactly(trig: Option<string>, data: Json, sensor: Option<string>, quantity: Option<string>,
                        tm: Json, camera: Json, interaction: Json)
    requires ModeOf(tm).Some? && PauseFlag(interaction).Some?
    requires !(ShowsSelection(ModeOf(tm).value, tm) && SelectedTime(tm).None?)
    ensures Decide(trig, data, sensor, quantity, tm, camera, interaction) == Halt(NoUpdate) <==>
      Tick(trig) && (ModeOf(tm).value == JStr("paused") ||
                     (ModeOf(tm).value == JStr("live") && Truthy(PauseFlag(interaction).value)))
  {
  }

  /** Neither a sensor, quantity or timeline change, nor historical mode, is ever skipped. */
  lemma NoUpdateOnlyOnLiveOrPausedTicks(trig: Option<string>, data: Json, sensor: Option<string>, quantity: Option<string>,
                                        tm: Json, camera: Json, interaction: Json)
    ensures Decide(trig, data, sensor, quantity, tm, camera, interaction) == Halt(NoUpdate) ==>
      Tick(trig) && ModeOf(tm).Some? && ModeOf(tm).value in {JStr("live"), JStr("paused")}
  {
  }

  /** In historical mode with a selected snapshot the live data plays no part. */
  lemma HistoricalIgnoresLiveData(trig: Option<string>, data1: Json, data2: Json, sensor: Option<string>,
                                  quantity: Option<string>, tm: Json, camera: Json, interaction: Json)
    requires ModeOf(tm) == Some(JStr("historical")) && ShowsSelection(JStr("historical"), tm)
    ensures Decide(trig, data1, sensor, quantity, tm, camera, interaction) ==
            Decide(trig, data2, sensor, quantity, tm, camera, interaction)
  {
    assert DisplayData(JStr("historical"), tm, data1) == DisplayData(JStr("historical"), tm, data2);
  }

  /** Without a truthy selection, historical mode renders the live data, marked with the selected time. */
  lemma HistoricalWithoutSelectionUsesLive(trig: Option<string>, fields: Dict<Json>, sensor: Option<string>,
                                           quantity: Option<string>, tm: Json, camera: Json, interaction: Json)
    requires ModeOf(tm) == Some(JStr("historical")) && !ShowsSelection(JStr("historical"), tm)
    requires PauseFlag(interaction).Some? && "uid" in Keys(fields)
    requires SelectSensors(fields, sensor, quantity).Selected?
    ensures Decide(trig, JObj(fields), sensor, quantity, tm, camera, interaction) ==
      Build(SelectSensors(fields, sensor, quantity).sensors, MarkOf(JStr("historical"), tm), CameraToApply(camera), camera)
  {
    var mode := JStr("historical");
    HistoricalNotSuppressed(trig, tm, interaction);
    DecideRenders(trig, JObj(fields), sensor, quantity, mode, tm, camera, interaction);
    assert DisplayData(mode, tm, JObj(fields)) == JObj(fields);
    RenderSelected(fields, sensor, quantity, mode, tm, camera);
  }

  /** Historical mode is never suppressed once the pause flag reads and a shown selection has a time. */
  lemma HistoricalNotSuppressed(trig: Option<string>, tm: Json, interaction: Json)
    requires PauseFlag(interaction).Some?
    requires ShowsSelection(JStr("historical"), tm) ==> SelectedTime(tm).Some?
    ensures Suppress(trig, JStr("historical"), tm, interaction) == None
  {
    var mode := JStr("historical");
    assert |mode.s| == 10;
    assert mode != JStr("live") && mode != JStr("paused");
  }

  /** A readable mode that nothing suppresses goes on to render the data shown in that mode. */
  lemma DecideRenders(trig: Option<string>, data: Json, sensor: Option<string>, quantity: Option<string>,
                      mode: Json, tm: Json, camera: Json, interaction: Json)
    requires ModeOf(tm) == Some(mode) && Suppress(trig, mode, tm, interaction) == None
    ensures Decide(trig, data, sensor, quantity, tm, camera, interaction) ==
      Render(DisplayData(mode, tm, data), sensor, quantity, mode, tm, camera)
  {
  }

  lemma RenderSelected(fields: Dict<Json>, sensor: Option<string>, quantity: Option<string>, mode: Json, tm: Json, camera: Json)
    requires "uid" in Keys(fields)
    requires SelectSensors(fields, sensor, quantity).Selected?
    ensures Render(JObj(fields), sensor, quantity, mode, tm, camera) ==
      Build(SelectSensors(fields, sensor, quantity).sensors, MarkOf(mode, tm), CameraToApply(camera), camera)
  {
    assert |fields| > 0 by {
      assert "uid" in Keys(fields);
    }
    assert PyIn("uid", JObj(fields)) == Some(true);
  }

  /** Data without "uid" (or no data) shows the waiting placeholder whenever an update is due. */
  lemma WaitingWithoutUid(trig: Option<string>, fields: Dict<Json>, sensor: Option<string>, quantity: Option<string>,
                          camera: Json, interaction: Json)
    requires "uid" !in Keys(fields)
    requires PauseFlag(interaction) == Some(JBool(false))
    ensures Decide(trig, JObj(fields), sensor, quantity, JNull, camera, interaction) == Halt(Reply(Message(WaitingText), camera))
    ensures Decide(trig, JNull, sensor, quantity, JNull, camera, interaction) == Halt(Reply(Message(WaitingText), camera))
  {
  }

  /** A stored 'camera' sub-dictionary wins, restricted to the four camera parts. */
  lemma NestedCameraApplied(camera: Dict<Json>, config: Dict<Json>)
    requires "camera" in Keys(camera) && Get(camera, "camera") == JObj(config)
    ensures CameraToApply(JObj(camera)).Some?
    ensures var a := CameraToApply(JObj(camera)).value;
      (a.Some? <==> exists k :: k in Keys(config) && k in CameraKeys) &&
      (a.Some? ==> forall k :: k in Keys(a.value) <==> k in Keys(config) && k in CameraKeys) &&
      (a.Some? ==> forall k :: k in Keys(a.value) ==> Get(a.value, k) == Get(config, k))
  {
    assert |camera| > 0;
    assert CameraToApply(JObj(camera)) == Restrict(JObj(config));
    RestrictDict(config);
  }

  /** Restricting a dictionary keeps exactly its camera parts, or applies nothing if it has none. */
  lemma RestrictDict(config: Dict<Json>)
    ensures Restrict(JObj(config)).Some?
    ensures var a := Restrict(JObj(config)).value;
      (a.Some? <==> exists k :: k in Keys(config) && k in CameraKeys) &&
      (a.Some? ==> forall k :: k in Keys(a.value) <==> k in Keys(config) && k in CameraKeys) &&
      (a.Some? ==> forall k :: k in Keys(a.value) ==> Get(a.value, k) == Get(config, k))
  {
    var c := Filter(config, IsCameraKey);
    if |config| == 0 {
      assert Restrict(JObj(config)) == Some(None);
    } else {
      assert Restrict(JObj(config)) == if |c| > 0 then Some(Some(c)) else Some(None);
      if exists k :: k in Keys(config) && k in CameraKeys {
        var k :| k in Keys(config) && k in CameraKeys;
        assert k in Keys(c);
      }
    }
  }

  /** Without 'camera', a store naming a camera part is applied itself, restricted to the four parts. */
  lemma FlatCameraApplied(camera: Dict<Json>, part: string)
    requires "camera" !in Keys(camera) && part in Keys(camera) && part in CameraKeys
    ensures var a := CameraToApply(JObj(camera));
      a.Some? && a.value.Some? &&
      (forall k :: k in Keys(a.value.value) <==> k in Keys(camera) && k in CameraKeys) &&
      (forall k :: k in Keys(a.value.value) ==> Get(a.value.value, k) == Get(camera, k))
  {
    var i :| 0 <= i < |CameraKeys| && CameraKeys[i] == part;
    assert PyIn(CameraKeys[i], JObj(camera)) == Some(true);
    assert part in Keys(Filter(camera, IsCameraKey));
  }

  /** A store with neither 'camera' nor any camera part applies nothing. */
  lemma UnrelatedCameraIgnored(camera: Dict<Json>)
    requires forall k :: k in Keys(camera) ==> k != "camera" && k !in CameraKeys
    ensures CameraToApply(JObj(camera)) == Some(None)
  {
    forall i | 0 <= i < |CameraKeys| ensures PyIn(CameraKeys[i], JObj(camera)) == Some(false) {
    }
  }

  /**
   * Switching display mode redraws with the camera taken from the store at that moment,
   * whatever the selection: every scene carries `CameraToApply` of the store.
   */
  lemma SceneCameraFromStore(p: Plan, initialized: bool, assets: Option<Assets>, load: Option<Assets>)
    requires p.Build? && p.applied == CameraToApply(p.camera)
    requires initialized ==> assets.Some? && AssetsShaped(assets.value)
    requires load.Some? ==> AssetsShaped(load.value)
    ensures var r := Respond(p, initialized, assets, load);
      r.Reply? && r.camera == p.camera &&
      (r.panel.Scene? ==>
         (CameraToApply(p.camera).Some? &&
          r.panel.camera == match CameraToApply(p.camera).value { case Some(c) => Some(JObj(c)) case None => None }))
  {
  }

  /**
   * Two ticks while the user holds the camera are skipped; once the gate resumed after more
   * than two seconds of quiet, the next tick redraws from the latest snapshot.
   */
  lemma TicksResumeAfterQuiet(last: real, data: Dict<Json>, sensor: Option<string>, quantity: Option<string>,
                              camera: Json, relayout: Json)
    requires "uid" in Keys(data) && SelectSensors(data, sensor, quantity).Selected?
    ensures var held := GateState(true, JNum(last));
      && Gate(Some("interaction_timer"), relayout, held, last + 0.5) == Returns(held)
      && Decide(Some("timer"), JObj(data), sensor, quantity, JNull, camera, held) == Halt(NoUpdate)
      && Decide(Some("memory"), JObj(data), sensor, quantity, JNull, camera, held) == Halt(NoUpdate)
      && Gate(Some("interaction_timer"), relayout, held, last + 2.1) == Returns(GateState(false, JNum(last)))
      && Decide(Some("timer"), JObj(data), sensor, quantity, JNull, camera, GateState(false, JNum(last))) ==
           Build(SelectSensors(data, sensor, quantity).sensors, Some(Plain), CameraToApply(camera), camera)
  {
    var held := GateState(true, JNum(last));
    var free := GateState(false, JNum(last));
    GateResumesAfterQuiet(relayout, held.fields, last, last + 0.5);
    GateResumesAfterQuiet(relayout, held.fields, last, last + 2.1);
    HeldTicksSkipped(last, data, sensor, quantity, camera);
    FreeTickRedraws(last, data, sensor, quantity, camera);
  }

  lemma HeldTicksSkipped(last: real, data: Dict<Json>, sensor: Option<string>, quantity: Option<string>, camera: Json)
    ensures var held := GateState(true, JNum(last));
      && Decide(Some("timer"), JObj(data), sensor, quantity, JNull, camera, held) == Halt(NoUpdate)
      && Decide(Some("memory"), JObj(data), sensor, quantity, JNull, camera, held) == Halt(NoUpdate)
  {
    var held := GateState(true, JNum(last));
    var live := JStr("live");
    LiveWithoutTimeline();
    GateFlag(true, last);
    assert Suppress(Some("timer"), live, JNull, held) == Some(NoUpdate);
    assert Suppress(Some("memory"), live, JNull, held) == Some(NoUpdate);
  }

  lemma FreeTickRedraws(last: real, data: Dict<Json>, sensor: Option<string>, quantity: Option<string>, camera: Json)
    requires "uid" in Keys(data) && SelectSensors(data, sensor, quantity).Selected?
    ensures Decide(Some("timer"), JObj(data), sensor, quantity, JNull, camera, GateState(false, JNum(last))) ==
      Build(SelectSensors(data, sensor, quantity).sensors, Some(Plain), CameraToApply(camera), camera)
  {
    var free := GateState(false, JNum(last));
    var live := JStr("live");
    LiveWithoutTimeline();
    FreeTickNotSuppressed(last);
    DecideRenders(Some("timer"), JObj(data), sensor, quantity, live, JNull, camera, free);
    RenderSelected(data, sensor, quantity, live, JNull, camera);
  }

  /** A timer tick while the user is not interacting is not suppressed in live mode. */
  lemma FreeTickNotSuppressed(last: real)
    ensures Suppress(Some("timer"), JStr("live"), JNull, GateState(false, JNum(last))) == None
  {
    LiveWithoutTimeline();
    GateFlag(false, last);
  }

  /** Without a timeline store the controller is live, shows the live data and marks nothing. */
  lemma LiveWithoutTimeline()
    ensures ModeOf(JNull) == Some(JStr("live"))
    ensures !ShowsSelection(JStr("live"), JNull)
    ensures forall data :: DisplayData(JStr("live"), JNull, data) == data
    ensures MarkOf(JStr("live"), JNull) == Some(Plain)
  {
  }

  /** The gate state's interaction flag reads back as written. */
  lemma GateFlag(interacting: bool, last: real)
    ensures PauseFlag(GateState(interacting, JNum(last))) == Some(JBool(interacting))
  {
    var g := GateState(interacting, JNum(last));
    GetAt(g.fields, 0);
  }

  // ---------------------------------------------------------------------------
  // Camera capture

  /**
   * `current[k1]...[kn] = value` after the walk that creates missing levels as `{}`;
   * `None` where the walk meets a value that is not a dictionary (Python raises).
   */
  function SetPath(d: Dict<Json>, path: seq<string>, v: Json): (r: Option<Dict<Json>>)
    requires |path| >= 1
    ensures r.Some? ==> path[0] in Keys(r.value)
    ensures r.Some? ==> forall k :: k in Keys(d) ==> k in Keys(r.value)
    ensures r.Some? ==> forall k :: k in Keys(r.value) ==> k in Keys(d) || k == path[0]
    decreases |path|
  {
    var k := path[0];
    if |path| == 1 then Some(Put(d, k, v))
    else
      var child := if k in Keys(d) then Get(d, k) else JObj([]);
      if !child.JObj? then None
      else match SetPath(child.fields, path[1..], v)
        case None => None
        case Some(c) => Some(Put(d, k, JObj(c)))
  }

  /** The key of a relayout entry, split into the path below 'scene.camera.'. */
  function CameraPath(key: string): (p: seq<string>)
    ensures |p| >= 1
  {
    Split(ReplaceAll(key, "scene.camera.", ""), '.')
  }

  /** The relayout entries processed in order: the camera built so far, and whether any was seen. */
  function Collect(entries: seq<(string, Json)>): Outcome<(Dict<Json>, bool)> {
    if entries == [] then Returns(([], false))
    else match Collect(entries[..|entries| - 1])
      case Raises => Raises
      case Returns(acc) =>
        var (key, value) := entries[|entries| - 1];
        if Contains(key, "scene.camera") then
          match SetPath(acc.0, CameraPath(key), value)
          case None => Raises
          case Some(c) => Returns((c, true))
        else Returns(acc)
  }

  /** What `store_brain_camera_state` returns for a relayout event. */
  function CaptureSpec(relayout: Json, current: Json): Outcome<Json> {
    if !Truthy(relayout) then Returns(current)
    else if !relayout.JObj? then Raises
    else match Collect(relayout.fields)
      case Raises => Raises
      case Returns(acc) =>
        var kept := Filter(acc.0, IsCameraKey);
        if acc.1 && |kept| > 0 then Returns(JObj(kept))
        else Returns(if Truthy(current) then current else JObj([]))
  }

  /** `store_brain_camera_state`: walk the relayout entries, building the nested camera. */
  method StoreBrainCameraState(relayout: Json, current: Json) returns (r: Outcome<Json>)
    ensures r == CaptureSpec(relayout, current)
  {
    if !Truthy(relayout) {
      return Returns(current);
    }
    if !relayout.JObj? {
      return Raises;
    }
    var entries := relayout.fields;
    var cameraData: Dict<Json> := [];
    var hasCameraData := false;
    for i := 0 to |entries|
      invariant Collect(entries[..i]) == Returns((cameraData, hasCameraData))
    {
      assert entries[..i + 1][..i] == entries[..i];
      var (key, value) := entries[i];
      if Contains(key, "scene.camera") {
        hasCameraData := true;
        var updated := SetPath(cameraData, CameraPath(key), value);
        if updated.None? {
          assert Collect(entries[..i + 1]) == Raises;
          CollectRaisesForever(entries, i + 1, |entries|);
          assert entries[..|entries|] == entries;
          return Raises;
        }
        cameraData := updated.value;
      }
    }
    assert entries[..|entries|] == entries;
    if hasCameraData {
      var kept := Filter(cameraData, IsCameraKey);
      if |kept| > 0 {
        return Returns(JObj(kept));
      }
    }
    return Returns(if Truthy(current) then current else JObj([]));
  }

  lemma {:induction false} CollectRaisesForever(es: seq<(string, Json)>, i: nat, j: nat)
    requires i <= j <= |es| && Collect(es[..i]) == Raises
    ensures Collect(es[..j]) == Raises
    decreases j - i
  {
    if i < j {
      assert es[..i + 1][..i] == es[..i];
      CollectRaisesForever(es, i + 1, j);
    }
  }

  /** The dots in the two spellings of the camera prefix. */
  lemma PrefixDots()
    ensures CountChar("scene.camera.", '.') >= 2
  {
    CountCharTwo("scene.camera.", 5, 12, '.');
  }

  /** The path of a dotted per-field key is its two parts. */
  lemma DottedKeyPath(part: string, axis: string)
    requires '.' !in part && '.' !in axis
    ensures Contains("scene.camera." + part + "." + axis, "scene.camera")
    ensures CameraPath("scene.camera." + part + "." + axis) == [part, axis]
  {
    var rest := part + "." + axis;
    assert "scene.camera." + part + "." + axis == "scene.camera." + rest;
    DottedContains(rest);
    DottedUnprefixed(part, axis);
    assert rest == part + ['.'] + axis;
    CountCharAbsent(part, '.');
    CountCharAbsent(axis, '.');
    SplitOnce(part, axis, '.');
  }

  lemma DottedContains(rest: string)
    ensures Contains("scene.camera." + rest, "scene.camera")
  {
    assert "scene.camera." + rest == "scene.camera" + ("." + rest);
    ContainsPrefix("scene.camera", "." + rest);
  }

  /** Removing the `scene.camera.` prefix from a key with one more dot leaves the rest. */
  lemma DottedUnprefixed(part: string, axis: string)
    requires '.' !in part && '.' !in axis
    ensures ReplaceAll("scene.camera." + (part + "." + axis), "scene.camera.", "") == part + "." + axis
  {
    var rest := part + "." + axis;
    CountCharAbsent(part, '.');
    CountCharAbsent(axis, '.');
    CountCharAppend(part, ".", '.');
    CountCharAppend(part + ".", axis, '.');
    assert CountChar(".", '.') == 1;
    PrefixDots();
    NotContainsByCount(rest, "scene.camera.", '.');
    ReplaceLeading("scene.camera.", rest, "");
    assert "" + rest == rest;
  }

  /** `scene.camera` itself is split into the path ["scene", "camera"]. */
  lemma WholeKeyPath()
    ensures Contains("scene.camera", "scene.camera")
    ensures CameraPath("scene.camera") == ["scene", "camera"]
  {
    WholeKeyContains();
    WholeKeyUnreplaced();
    WholeKeySplit();
  }

  lemma WholeKeyContains()
    ensures Contains("scene.camera", "scene.camera")
  {
    assert StartsWith("scene.camera", "scene.camera");
  }

  lemma WholeKeyUnreplaced()
    ensures ReplaceAll("scene.camera", "scene.camera.", "") == "scene.camera"
  {
    NotContainsLonger("scene.camera", "scene.camera.");
    ReplaceAbsent("scene.camera", "scene.camera.", "");
  }

  lemma WholeKeySplit()
    ensures Split("scene.camera", '.') == ["scene", "camera"]
  {
    CountCharAbsent("scene", '.');
    CountCharAbsent("camera", '.');
    SplitOnce("scene", "camera", '.');
    assert "scene" + ['.'] + "camera" == "scene.camera";
  }

  /** Filing `value` under two fresh levels. */
  lemma SetTwoLevels(a: string, b: string, v: Json)
    ensures SetPath([], [a, b], v) == Some([(a, JObj([(b, v)]))])
  {
    var e: Dict<Json> := [];
    assert Keys(e) == [];
    assert [a, b][0] == a && [a, b][1..] == [b];
    PutEmpty(b, v);
    assert SetPath(e, [b], v) == Some([(b, v)]);
    PutEmpty(a, JObj([(b, v)]));
  }

  /** Filing a key in an empty dictionary. */
  lemma PutEmpty(k: string, v: Json)
    ensures Put([], k, v) == [(k, v)]
  {
    var e: Dict<Json> := [];
    assert Keys(e) == [];
    assert e + [(k, v)] == [(k, v)];
  }

  /** A single relayout entry whose key mentions the camera is filed by its path. */
  lemma CollectOne(key: string, v: Json)
    requires Contains(key, "scene.camera")
    ensures Collect([(key, v)]) == match SetPath([], CameraPath(key), v) { case None => Raises case Some(c) => Returns((c, true)) }
  {
    assert [(key, v)][..0] == [];
  }

  /** `scene.camera.<part>.<axis>` becomes `{part: {axis: value}}`, replacing the store. */
  lemma CaptureDottedKey(part: string, axis: string, v: Json, current: Json)
    requires part in CameraKeys
    requires '.' !in part && '.' !in axis
    ensures CaptureSpec(JObj([("scene.camera." + part + "." + axis, v)]), current) ==
            Returns(JObj([(part, JObj([(axis, v)]))]))
  {
    var key := "scene.camera." + part + "." + axis;
    DottedKeyPath(part, axis);
    CollectOne(key, v);
    var c := [(part, JObj([(axis, v)]))];
    SetTwoLevels(part, axis, v);
    assert Collect([(key, v)]) == Returns((c, true));
    KeepOneCameraPart(part, JObj([(axis, v)]));
  }

  /** A relayout entry `scene.camera.<part>.<axis>`, as (part, axis, value). */
  type CameraEdit = (string, string, Json)

  function EditKey(e: CameraEdit): string {
    "scene.camera." + e.0 + "." + e.1
  }

  /** Neither the part nor the axis holds a dot, so the key splits back into them. */
  predicate PlainEdit(e: CameraEdit) {
    '.' !in e.0 && '.' !in e.1
  }

  /** The relayout entries of a sequence of edits, in order. */
  function EditEntries(t: seq<CameraEdit>): (es: seq<(string, Json)>)
    ensures |es| == |t| && forall i :: 0 <= i < |t| ==> es[i] == (EditKey(t[i]), t[i].2)
  {
    seq(|t|, i requires 0 <= i < |t| => (EditKey(t[i]), t[i].2))
  }

  /** The parts the edits name, in order. */
  function EditParts(t: seq<CameraEdit>): (ps: seq<string>)
    ensures |ps| == |t| && forall i :: 0 <= i < |t| ==> ps[i] == t[i].0
  {
    seq(|t|, i requires 0 <= i < |t| => t[i].0)
  }

  /** The value the last edit of (`part`, `axis`) gives, if any edit names them. */
  function LastEdit(t: seq<CameraEdit>, part: string, axis: string): Option<Json> {
    if |t| == 0 then None
    else if t[|t| - 1].0 == part && t[|t| - 1].1 == axis then Some(t[|t| - 1].2)
    else LastEdit(t[..|t| - 1], part, axis)
  }

  /** `c[part][axis]`, where both levels exist. */
  function Lookup2(c: Dict<Json>, part: string, axis: string): Option<Json> {
    var level := Lookup(c, part);
    if level.Some? && level.value.JObj? then Lookup(level.value.fields, axis) else None
  }

  /**
   * `c` is the nested camera the edits `t` describe: one dictionary per edited part, and
   * under each part the last value given for each of its edited axes.
   */
  ghost predicate BuiltFrom(c: Dict<Json>, t: seq<CameraEdit>) {
    && (forall k :: k in Keys(c) <==> k in EditParts(t))
    && (forall k :: k in Keys(c) ==> Get(c, k).JObj?)
    && (forall k, a :: Lookup2(c, k, a) == LastEdit(t, k, a))
  }

  /** `d[k] = v` read back at any key. */
  lemma LookupPut(d: Dict<Json>, k: string, v: Json, k': string)
    ensures Lookup(Put(d, k, v), k') == if k' == k then Some(v) else Lookup(d, k')
  {
  }

  /** Walking the relayout entries of any sequence of plain edits builds the camera they describe. */
  lemma {:induction false} CollectEdits(t: seq<CameraEdit>)
    requires forall i :: 0 <= i < |t| ==> PlainEdit(t[i])
    ensures Collect(EditEntries(t)).Returns?
    ensures Collect(EditEntries(t)).value.1 == (|t| > 0)
    ensures BuiltFrom(Collect(EditEntries(t)).value.0, t)
  {
    if |t| == 0 {
      CollectNoEdits(t);
    } else {
      var n := |t| - 1;
      CollectEdits(t[..n]);
      CollectEditsStep(t[..n], t[n]);
      assert t[..n] + [t[n]] == t;
    }
  }

  /** No edits: the walk builds the empty camera and sees no camera entry. */
  lemma CollectNoEdits(t: seq<CameraEdit>)
    requires |t| == 0
    ensures Collect(EditEntries(t)) == Returns(([], false))
    ensures BuiltFrom([], t)
  {
    assert EditEntries(t) == [];
    var e: Dict<Json> := [];
    assert Keys(e) == [] && EditParts(t) == [];
  }

  /** One more plain edit extends what the walk over the earlier edits built. */
  lemma CollectEditsStep(init: seq<CameraEdit>, e: CameraEdit)
    requires PlainEdit(e)
    requires Collect(EditEntries(init)).Returns? && BuiltFrom(Collect(EditEntries(init)).value.0, init)
    ensures Collect(EditEntries(init + [e])).Returns? && Collect(EditEntries(init + [e])).value.1
    ensures BuiltFrom(Collect(EditEntries(init + [e])).value.0, init + [e])
  {
    var t := init + [e];
    var n := |init|;
    var es := EditEntries(t);
    assert es[..n] == EditEntries(init);
    var acc := Collect(EditEntries(init)).value;
    DottedKeyPath(e.0, e.1);
    assert es[n] == (EditKey(e), e.2);
    EditStep(acc.0, init, e);
    CollectSnoc(es, acc, SetPath(acc.0, [e.0, e.1], e.2).value);
  }

  /** The walk over one more entry whose key mentions the camera files it by its path. */
  lemma CollectSnoc(es: seq<(string, Json)>, acc: (Dict<Json>, bool), c: Dict<Json>)
    requires |es| > 0 && Collect(es[..|es| - 1]) == Returns(acc)
    requires Contains(es[|es| - 1].0, "scene.camera")
    requires SetPath(acc.0, CameraPath(es[|es| - 1].0), es[|es| - 1].1) == Some(c)
    ensures Collect(es) == Returns((c, true))
  {
  }

  /** The level `c[part]` the walk descends into: the existing dictionary, or a fresh `{}`. */
  function Level(c: Dict<Json>, part: string): Dict<Json> {
    if part in Keys(c) && Get(c, part).JObj? then Get(c, part).fields else []
  }

  /** Where every level is a dictionary, a two-step walk files the value one level down. */
  lemma SetPathTwo(c: Dict<Json>, part: string, axis: string, v: Json)
    requires forall k :: k in Keys(c) ==> Get(c, k).JObj?
    ensures SetPath(c, [part, axis], v) == Some(Put(c, part, JObj(Put(Level(c, part), axis, v))))
  {
    assert [part, axis][1..] == [axis];
  }

  /** One more plain edit `camera[part][axis] = value` keeps the camera described by the edits. */
  lemma EditStep(c: Dict<Json>, t: seq<CameraEdit>, e: CameraEdit)
    requires BuiltFrom(c, t)
    ensures SetPath(c, [e.0, e.1], e.2).Some?
    ensures BuiltFrom(SetPath(c, [e.0, e.1], e.2).value, t + [e])
  {
    SetPathTwo(c, e.0, e.1, e.2);
    var r := Put(c, e.0, JObj(Put(Level(c, e.0), e.1, e.2)));
    EditKeys(c, t, e, r);
    EditLevels(c, e, r);
    EditLookups(c, t, e, r);
  }

  /** After the step the top-level keys are the parts named so far. */
  lemma EditKeys(c: Dict<Json>, t: seq<CameraEdit>, e: CameraEdit, r: Dict<Json>)
    requires forall k :: k in Keys(c) <==> k in EditParts(t)
    requires r == Put(c, e.0, JObj(Put(Level(c, e.0), e.1, e.2)))
    ensures forall k :: k in Keys(r) <==> k in EditParts(t + [e])
  {
    assert EditParts(t + [e]) == EditParts(t) + [e.0];
  }

  /** After the step every top-level value is still a dictionary. */
  lemma EditLevels(c: Dict<Json>, e: CameraEdit, r: Dict<Json>)
    requires forall k :: k in Keys(c) ==> Get(c, k).JObj?
    requires r == Put(c, e.0, JObj(Put(Level(c, e.0), e.1, e.2)))
    ensures forall k :: k in Keys(r) ==> Get(r, k).JObj?
  {
  }

  /** After the step every `[part][axis]` reads the last edit that names it. */
  lemma EditLookups(c: Dict<Json>, t: seq<CameraEdit>, e: CameraEdit, r: Dict<Json>)
    requires forall k :: k in Keys(c) ==> Get(c, k).JObj?
    requires forall k, a :: Lookup2(c, k, a) == LastEdit(t, k, a)
    requires r == Put(c, e.0, JObj(Put(Level(c, e.0), e.1, e.2)))
    ensures forall k, a :: Lookup2(r, k, a) == LastEdit(t + [e], k, a)
  {
    var t' := t + [e];
    assert t'[..|t'| - 1] == t;
    forall k, a
      ensures Lookup2(r, k, a) == LastEdit(t', k, a)
    {
      LookupPut(c, e.0, JObj(Put(Level(c, e.0), e.1, e.2)), k);
      if k == e.0 {
        LookupPut(Level(c, e.0), e.1, e.2, a);
        assert Lookup2(c, k, a) == Lookup(Level(c, e.0), a);
      }
    }
  }

  /**
   * A relayout made of `scene.camera.<part>.<axis>` entries under the four camera parts
   * replaces the store with the nested camera they describe: the edited parts, each holding
   * the last value given for each of its axes.
   */
  lemma CaptureEdits(fields: Dict<Json>, t: seq<CameraEdit>, current: Json)
    requires fields == EditEntries(t) && |t| > 0
    requires forall i :: 0 <= i < |t| ==> PlainEdit(t[i]) && t[i].0 in CameraKeys
    ensures var r := CaptureSpec(JObj(fields), current);
      r.Returns? && r.value.JObj? && BuiltFrom(r.value.fields, t)
  {
    CollectEdits(t);
    var c := Collect(fields).value.0;
    KeepEdited(c, t);
    CaptureCollected(fields, c, current);
  }

  /** `scene.camera.eye.x` and `scene.camera.eye.y` in one relayout land in the same `eye` level. */
  lemma CaptureTwoAxes(vx: Json, vy: Json, current: Json)
    ensures var r := CaptureSpec(JObj([("scene.camera.eye.x", vx), ("scene.camera.eye.y", vy)]), current);
      r.Returns? && r.value.JObj? &&
      (forall k :: k in Keys(r.value.fields) <==> k == "eye") &&
      Lookup2(r.value.fields, "eye", "x") == Some(vx) && Lookup2(r.value.fields, "eye", "y") == Some(vy)
  {
    var t: seq<CameraEdit> := [("eye", "x", vx), ("eye", "y", vy)];
    var fields: Dict<Json> := [("scene.camera.eye.x", vx), ("scene.camera.eye.y", vy)];
    TwoAxesEdits(t, fields, vx, vy);
    CaptureEdits(fields, t, current);
    var r := CaptureSpec(JObj(fields), current);
    ReadTwoAxes(r.value.fields, t, vx, vy);
  }

  /** A camera built from two `eye` edits has the one key `eye`, holding both axes. */
  lemma ReadTwoAxes(c: Dict<Json>, t: seq<CameraEdit>, vx: Json, vy: Json)
    requires BuiltFrom(c, t) && EditParts(t) == ["eye", "eye"]
    requires LastEdit(t, "eye", "x") == Some(vx) && LastEdit(t, "eye", "y") == Some(vy)
    ensures forall k :: k in Keys(c) <==> k == "eye"
    ensures Lookup2(c, "eye", "x") == Some(vx) && Lookup2(c, "eye", "y") == Some(vy)
  {
  }

  /** The two-axis relayout is the entry sequence of the edits `eye.x` and `eye.y`. */
  lemma TwoAxesEdits(t: seq<CameraEdit>, fields: Dict<Json>, vx: Json, vy: Json)
    requires t == [("eye", "x", vx), ("eye", "y", vy)]
    requires fields == [("scene.camera.eye.x", vx), ("scene.camera.eye.y", vy)]
    ensures fields == EditEntries(t) && EditParts(t) == ["eye", "eye"]
    ensures forall i :: 0 <= i < |t| ==> PlainEdit(t[i]) && t[i].0 in CameraKeys
    ensures LastEdit(t, "eye", "x") == Some(vx) && LastEdit(t, "eye", "y") == Some(vy)
  {
    TwoAxesEntries(t, fields, vx, vy);
    TwoAxesParts(t, vx, vy);
    TwoAxesLast(t, vx, vy);
  }

  /** The relayout keys are those the two edits spell. */
  lemma TwoAxesEntries(t: seq<CameraEdit>, fields: Dict<Json>, vx: Json, vy: Json)
    requires t == [("eye", "x", vx), ("eye", "y", vy)]
    requires fields == [("scene.camera.eye.x", vx), ("scene.camera.eye.y", vy)]
    ensures fields == EditEntries(t)
  {
    EyeKeys(vx, vy);
    assert EditEntries(t)[0] == fields[0] && EditEntries(t)[1] == fields[1];
  }

  /** Both edits name the camera part `eye`, with no dot in part or axis. */
  lemma TwoAxesParts(t: seq<CameraEdit>, vx: Json, vy: Json)
    requires t == [("eye", "x", vx), ("eye", "y", vy)]
    ensures EditParts(t) == ["eye", "eye"]
    ensures forall i :: 0 <= i < |t| ==> PlainEdit(t[i]) && t[i].0 in CameraKeys
  {
    EyeKeys(vx, vy);
  }

  /** The keys `scene.camera.eye.x` and `scene.camera.eye.y` spelled out. */
  lemma EyeKeys(vx: Json, vy: Json)
    ensures EditKey(("eye", "x", vx)) == "scene.camera.eye.x" && PlainEdit(("eye", "x", vx))
    ensures EditKey(("eye", "y", vy)) == "scene.camera.eye.y" && PlainEdit(("eye", "y", vy))
  {
  }

  /** Each axis is named by exactly one of the two edits. */
  lemma TwoAxesLast(t: seq<CameraEdit>, vx: Json, vy: Json)
    requires t == [("eye", "x", vx), ("eye", "y", vy)]
    ensures LastEdit(t, "eye", "x") == Some(vx) && LastEdit(t, "eye", "y") == Some(vy)
  {
    assert t[..1] == [("eye", "x", vx)] && t[..1][..0] == [];
  }

  /** Restricting a camera built from edits of the four parts to those parts changes nothing. */
  lemma KeepEdited(c: Dict<Json>, t: seq<CameraEdit>)
    requires BuiltFrom(c, t) && |t| > 0
    requires forall i :: 0 <= i < |t| ==> t[i].0 in CameraKeys
    ensures |Filter(c, IsCameraKey)| > 0 && BuiltFrom(Filter(c, IsCameraKey), t)
  {
    var kept := Filter(c, IsCameraKey);
    forall k | k in Keys(c)
      ensures k in CameraKeys
    {
      var i :| 0 <= i < |t| && EditParts(t)[i] == k;
    }
    assert EditParts(t)[0] in Keys(kept);
    forall k, a
      ensures Lookup2(kept, k, a) == Lookup2(c, k, a)
    {
      assert Lookup(kept, k) == Lookup(c, k);
    }
  }

  /** A walk that saw a camera key and kept some part returns the kept parts. */
  lemma CaptureCollected(fields: Dict<Json>, c: Dict<Json>, current: Json)
    requires |fields| > 0 && Collect(fields) == Returns((c, true)) && |Filter(c, IsCameraKey)| > 0
    ensures CaptureSpec(JObj(fields), current) == Returns(JObj(Filter(c, IsCameraKey)))
  {
  }

  /** A single entry under one of the four camera parts survives the restriction. */
  lemma KeepOneCameraPart(part: string, w: Json)
    requires part in CameraKeys
    ensures Filter([(part, w)], IsCameraKey) == [(part, w)]
  {
    var c: Dict<Json> := [(part, w)];
    var f := Filter(c, IsCameraKey);
    assert Keys(c) == [part];
    assert part in Keys(f);
    assert |f| <= 1;
    assert f[0] in c;
  }

  /** A single entry filed under a level other than the four camera parts is dropped. */
  lemma CaptureOtherLevelKeeps(key: string, a: string, b: string, v: Json, current: Json)
    requires Contains(key, "scene.camera") && CameraPath(key) == [a, b] && a !in CameraKeys
    ensures CaptureSpec(JObj([(key, v)]), current) == Returns(if Truthy(current) then current else JObj([]))
  {
    CollectOne(key, v);
    var c := [(a, JObj([(b, v)]))];
    SetTwoLevels(a, b, v);
  }

  /** A whole-object 'scene.camera' key is filed under 'scene' and then dropped: the store is kept. */
  lemma CaptureWholeCameraKeyKeeps(v: Json, current: Json)
    ensures CaptureSpec(JObj([("scene.camera", v)]), current) ==
            Returns(if Truthy(current) then current else JObj([]))
  {
    assert "scene" !in CameraKeys;
    WholeKeyPath();
    CaptureOtherLevelKeeps("scene.camera", "scene", "camera", v, current);
  }

  /** A captured camera replaces the store: it does not depend on what the store held. */
  lemma CaptureReplaces(relayout: Json, c1: Json, c2: Json)
    requires CaptureSpec(relayout, c1).Returns? && CaptureSpec(relayout, c1).value != c1
    requires Truthy(c1) && Truthy(c2)
    ensures CaptureSpec(relayout, c2) == CaptureSpec(relayout, c1)
  {
  }

  /** The capture returns the current store (or `{}` for an empty one), or a camera of the four parts only. */
  lemma CaptureKeepsOnlyCameraParts(relayout: Json, current: Json)
    requires CaptureSpec(relayout, current).Returns?
    ensures var r := CaptureSpec(relayout, current).value;
      r == current || r == JObj([]) ||
      (r.JObj? && |r.fields| > 0 && forall k :: k in Keys(r.fields) ==> k in CameraKeys)
  {
  }
}
