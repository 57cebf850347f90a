/** The timeline's stores as first created, its three traces, and the extend payload shape. */
module SimpleTimeline {
  import opened Wrappers
  import opened Dicts
  import opened JsonValues

  /** Length of the rolling history: two minutes at one point per second. */
  const MaxPoints: int := 120

  /** The session store: five parallel lists, the session start and the history length. */
  datatype Session = Session(
    timestamps: seq<real>,
    attention: seq<real>,
    meditation: seq<real>,
    signal: seq<real>,
    history: seq<Json>,
    start: Option<real>,
    maxPoints: int)

  predicate Parallel(s: Session) {
    |s.attention| == |s.timestamps| && |s.meditation| == |s.timestamps| &&
    |s.signal| == |s.timestamps| && |s.history| == |s.timestamps|
  }

  /** A session with empty lists starting at `start`. */
  function EmptySession(start: Option<real>): (s: Session)
    ensures Parallel(s) && |s.timestamps| == 0 && s.start == start && s.maxPoints == MaxPoints
  {
    Session([], [], [], [], [], start, MaxPoints)
  }

  /** The `simple_session_data` store as the layout creates it: no session started yet. */
  function InitialSession(): Session {
    EmptySession(None)
  }

  /** The playback-mode store as the layout creates it. */
  function ModeStore(mode: string, selectedTime: Json, selectedData: Json): (j: Json)
    ensures j.JObj? && Keys(j.fields) == ["mode", "selected_time", "selected_data"]
  {
    JObj([("mode", JStr(mode)), ("selected_time", selectedTime), ("selected_data", selectedData)])
  }

  function InitialMode(): Json {
    ModeStore("live", JNull, JNull)
  }

  /** The names of the timeline's traces 0, 1 and 2. */
  const TraceNames: seq<string> := ["Attention", "Meditation", "Signal Strength"]

  /** New points for `extendData`: one x list and one y list per trace. */
  datatype ExtendData = ExtendData(x: seq<seq<real>>, y: seq<seq<real>>)

  /** `get_timeline_extend_data`: the same time for each trace, the values in trace order. */
  function GetTimelineExtendData(t: real, attention: real, meditation: real, signal: real): (e: ExtendData)
    ensures |e.x| == |e.y| == |TraceNames|
    ensures forall i :: 0 <= i < |e.x| ==> e.x[i] == [t] && |e.y[i]| == 1
  {
    ExtendData([[t], [t], [t]], [[attention], [meditation], [signal]])
  }

  /** The value a trace shows, by its name. */
  function ValueOfTrace(name: string, attention: real, meditation: real, signal: real): real {
    if name == "Attention" then attention else if name == "Meditation" then meditation else signal
  }

  /** The payload's i-th y list is the value of the trace named i-th. */
  lemma ExtendMatchesTraces(t: real, attention: real, meditation: real, signal: real, i: nat)
    requires i < |TraceNames|
    ensures GetTimelineExtendData(t, attention, meditation, signal).y[i] ==
            [ValueOfTrace(TraceNames[i], attention, meditation, signal)]
  {
  }

  lemma InitialStores()
    ensures var s := InitialSession();
      Parallel(s) && |s.timestamps| == 0 && s.start.None? && s.maxPoints == 120
    ensures InitialMode().JObj? &&
      Get(InitialMode().fields, "mode") == JStr("live") &&
      Get(InitialMode().fields, "selected_time") == JNull &&
      Get(InitialMode().fields, "selected_data") == JNull
  {
    var f := InitialMode().fields;
    GetAt(f, 0);
    GetAt(f, 1);
    GetAt(f, 2);
  }
}
