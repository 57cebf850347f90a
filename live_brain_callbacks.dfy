/**
 * The first brain-view controller: redrawn only when the memory store changes (the mode and
 * sensor selectors are read as state, so changing them alone redraws nothing); no gating,
 * no placeholders, no camera handling and no exception handling.
 */
module LiveBrainCallbacks {
  import opened Wrappers
  import opened Dicts
  import opened JsonValues
  import opened BrainVisualizer

  /** Which builder the callback calls. */
  datatype Request =
    | DefaultFigure         // `create_brain_figure()`: reference maps, base title
    | LiveFrom(data: Json)  // `create_live_brain_figure(data)`

  /** The sensor-selection rule; `Raises` where indexing the data raises. */
  function Choose(data: Json, quantity: Option<string>, sensor: Option<string>): Outcome<Request> {
    if !Truthy(data) then Returns(DefaultFigure)
    else if quantity == Some("individual") then
      match KeyIn(sensor, data)
      case None => Raises
      case Some(present) =>
        if !present then Returns(DefaultFigure)
        else if data.JObj? && sensor.Some? then
          var uid := PyGet(data, "uid", JStr("")).value;
          Returns(LiveFrom(JObj(Put([(sensor.value, Get(data.fields, sensor.value))], "uid", uid))))
        else Raises
    else Returns(LiveFrom(data))
  }

  /** The figure on a visualiser in state (`initialized`, `assets`); `Raises` escapes to Dash. */
  function Respond(req: Request, initialized: bool, assets: Option<Assets>, load: Option<Assets>): Outcome<Figure>
    requires initialized ==> assets.Some? && AssetsShaped(assets.value)
    requires load.Some? ==> AssetsShaped(load.value)
  {
    match req
    case DefaultFigure => Returns(BrainFigureSpec(InitAfter(initialized, assets, load), None, None, ""))
    case LiveFrom(data) =>
      if !data.JObj? then
        if InitAfter(initialized, assets, load).0 then Raises else Returns(Fallback)
      else match LiveFigureSpec(initialized, assets, load, data.fields)
        case Produced(f) => Returns(f)
        case Raised => Raises
  }

  method UpdateBrainVisualization(viz: Visualizer, load: Option<Assets>, data: Json,
                                  quantity: Option<string>, sensor: Option<string>) returns (r: Outcome<Figure>)
    requires viz.Valid()
    requires load.Some? ==> AssetsMeasured(load.value)
    modifies viz
    ensures viz.Valid()
    ensures Choose(data, quantity, sensor).Raises? ==>
      r.Raises? && viz.initialized == old(viz.initialized) && viz.assets == old(viz.assets) && viz.fig == old(viz.fig)
    ensures Choose(data, quantity, sensor).Returns? ==>
      r == Respond(Choose(data, quantity, sensor).value, old(viz.initialized), old(viz.assets), load) &&
      (viz.initialized, viz.assets) == InitAfter(old(viz.initialized), old(viz.assets), load) &&
      viz.fig == if viz.initialized && r.Returns? then Some(r.value) else old(viz.fig)
  {
    var c := Choose(data, quantity, sensor);
    if c.Raises? {
      return Raises;
    }
    match c.value
    case DefaultFigure =>
      var f := viz.CreateBrainFigure(None, None, "", load);
      r := Returns(f);
    case LiveFrom(d) =>
      if !d.JObj? {
        var ok := viz.LazyInit(load);
        if ok {
          return Raises;
        }
        return Returns(Fallback);
      }
      var built := viz.CreateLiveBrainFigure(d.fields, load);
      r := if built.Produced? then Returns(built.figure) else Raises;
  }

  lemma NoDataGivesDefault(data: Json, quantity: Option<string>, sensor: Option<string>)
    requires !Truthy(data)
    ensures Choose(data, quantity, sensor) == Returns(DefaultFigure)
  {
  }

  /** Individual mode hands over exactly the selected record and the uid (or ''). */
  lemma IndividualPassesRecordAndUid(fields: Dict<Json>, s: string)
    requires s in Keys(fields) && s != "uid"
    ensures Choose(JObj(fields), Some("individual"), Some(s)) ==
      Returns(LiveFrom(JObj([(s, Get(fields, s)), ("uid", Lookup(fields, "uid").GetOr(JStr("")))])))
  {
    assert |fields| > 0 by {
      assert s in Keys(fields);
    }
    assert KeyIn(Some(s), JObj(fields)) == Some(true);
    var uid := Lookup(fields, "uid").GetOr(JStr(""));
    assert PyGet(JObj(fields), "uid", JStr("")) == Some(uid);
    assert Put([(s, Get(fields, s))], "uid", uid) == [(s, Get(fields, s)), ("uid", uid)];
  }

  lemma IndividualAbsentGivesDefault(fields: Dict<Json>, s: string)
    requires s !in Keys(fields) && |fields| > 0
    ensures Choose(JObj(fields), Some("individual"), Some(s)) == Returns(DefaultFigure)
  {
  }

  /** Any other mode hands over the whole data, "uid" included. */
  lemma OtherModesPassWholeData(data: Json, quantity: Option<string>, sensor: Option<string>)
    requires Truthy(data) && quantity != Some("individual")
    ensures Choose(data, quantity, sensor) == Returns(LiveFrom(data))
  {
  }

  /** Before the assets load, every redraw is the fallback figure. */
  lemma UnloadedGivesFallback(req: Request)
    ensures Respond(req, false, None, None) == Returns(Fallback)
  {
  }
}
