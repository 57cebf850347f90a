/**
 * The timeline's three callbacks: the rolling session buffer that every new snapshot
 * extends while the dashboard is live, the playback-mode machine driven by clicks on the
 * timeline and by the pause and resume buttons, and the `extendData` payload that adds
 * the newest point to the chart.
 */
module TimelineCallbacks {
  import opened Wrappers
  import opened Dicts
  import opened JsonValues
  import opened SimpleTimeline
  import opened Numbers

  const ResetButton: string := "simple_timeline_reset_btn"
  const TimelineGraph: string := "simple_timeline_graph"
  const PauseButton: string := "simple_timeline_pause_btn"
  const ResumeButton: string := "simple_timeline_resume_btn"

  /** The component ids differ (by length, or at their first differing letter). */
  lemma ControlNamesDistinct()
    ensures TimelineGraph != PauseButton && TimelineGraph != ResumeButton && PauseButton != ResumeButton
    ensures ResetButton != TimelineGraph && ResetButton != PauseButton && ResetButton != ResumeButton
  {
    assert |TimelineGraph| == 21 && |PauseButton| == 25 && |ResumeButton| == 26 && |ResetButton| == 25;
    assert PauseButton[16] != ResetButton[16];
  }

  function Last<T>(s: seq<T>): T
    requires |s| > 0
  {
    s[|s| - 1]
  }

  // ---------------------------------------------------------------------------------
  // Averaging the sensors of one snapshot
  // ---------------------------------------------------------------------------------

  /** One sensor record's three metrics. */
  datatype Point = Point(attention: real, meditation: real, signal: real)

  /** The records the average runs over: every entry but `uid` whose record is truthy. */
  predicate Counted(key: string, record: Json) {
    key != "uid" && Truthy(record)
  }

  /**
   * `record.get(metric, 0)` as `sum` sees it: a missing metric counts as 0; a record that
   * is not a dictionary or a value that is not a number makes the callback raise (`None`).
   */
  function MetricOf(record: Json, metric: string): (r: Option<real>)
    ensures record.JObj? && metric !in Keys(record.fields) ==> r == Some(0.0)
    ensures !record.JObj? ==> r.None?
  {
    match PyGet(record, metric, JNum(0.0))
    case None => None
    case Some(v) => AsNumber(v)
  }

  function PointOf(record: Json): (p: Option<Point>)
    ensures p.Some? <==>
      MetricOf(record, "attention").Some? && MetricOf(record, "meditation").Some? &&
      MetricOf(record, "signal_strength").Some?
    ensures p.Some? ==>
      p.value == Point(MetricOf(record, "attention").value, MetricOf(record, "meditation").value,
                       MetricOf(record, "signal_strength").value)
  {
    var a := MetricOf(record, "attention");
    var m := MetricOf(record, "meditation");
    var s := MetricOf(record, "signal_strength");
    if a.Some? && m.Some? && s.Some? then Some(Point(a.value, m.value, s.value)) else None
  }

  /** The points of the counted records of a snapshot, in order; `None` if one of them raises. */
  function Points(entries: seq<(string, Json)>): Option<seq<Point>> {
    if |entries| == 0 then Some([])
    else
      match Points(entries[..|entries| - 1])
      case None => None
      case Some(ps) =>
        var (key, record) := Last(entries);
        if !Counted(key, record) then Some(ps)
        else
          match PointOf(record)
          case None => None
          case Some(p) => Some(ps + [p])
  }

  /** Once a record has raised, no further record can bring the loop back. */
  lemma {:induction false} PointsFailForever(entries: seq<(string, Json)>, k: nat)
    requires k <= |entries| && Points(entries[..k]).None?
    ensures Points(entries).None?
    decreases |entries| - k
  {
    if k == |entries| {
      assert entries[..k] == entries;
    } else {
      assert entries[..k + 1][..k] == entries[..k];
      PointsFailForever(entries, k + 1);
    }
  }

  function Attentions(ps: seq<Point>): (xs: seq<real>)
    ensures |xs| == |ps| && forall i :: 0 <= i < |ps| ==> xs[i] == ps[i].attention
  {
    seq(|ps|, i requires 0 <= i < |ps| => ps[i].attention)
  }

  function Meditations(ps: seq<Point>): (xs: seq<real>)
    ensures |xs| == |ps| && forall i :: 0 <= i < |ps| ==> xs[i] == ps[i].meditation
  {
    seq(|ps|, i requires 0 <= i < |ps| => ps[i].meditation)
  }

  function Signals(ps: seq<Point>): (xs: seq<real>)
    ensures |xs| == |ps| && forall i :: 0 <= i < |ps| ==> xs[i] == ps[i].signal
  {
    seq(|ps|, i requires 0 <= i < |ps| => ps[i].signal)
  }

  // ---------------------------------------------------------------------------------
  // The rolling buffer
  // ---------------------------------------------------------------------------------

  /** A buffer every callback leaves behind: parallel lists no longer than the cap. */
  predicate BufferOk(s: Session) {
    Parallel(s) && s.maxPoints > 0 && |s.timestamps| <= s.maxPoints
  }

  /** Python's `l[-n:]`. */
  function PyTail<T>(l: seq<T>, n: int): (r: seq<T>)
    ensures |r| <= |l| && r == l[|l| - |r|..]
  {
    if n > 0 then (if n >= |l| then l else l[|l| - n..])
    else if -n >= |l| then []
    else l[-n..]
  }

  /** Cut every list to its last `maxPoints` entries once the timestamps outgrow the cap. */
  function Trim(s: Session): Session {
    if |s.timestamps| > s.maxPoints then
      Session(PyTail(s.timestamps, s.maxPoints), PyTail(s.attention, s.maxPoints),
              PyTail(s.meditation, s.maxPoints), PyTail(s.signal, s.maxPoints),
              PyTail(s.history, s.maxPoints), s.start, s.maxPoints)
    else s
  }

  /** The cut keeps the newest entries in order: each list becomes a suffix of itself of length at most the cap. */
  lemma TrimWindow(s: Session)
    requires Parallel(s) && s.maxPoints > 0
    ensures var r := Trim(s);
      Parallel(r) && r.start == s.start && r.maxPoints == s.maxPoints &&
      |r.timestamps| == (if |s.timestamps| > s.maxPoints then s.maxPoints else |s.timestamps|) &&
      r.timestamps == s.timestamps[|s.timestamps| - |r.timestamps|..] &&
      r.attention == s.attention[|s.attention| - |r.attention|..] &&
      r.meditation == s.meditation[|s.meditation| - |r.meditation|..] &&
      r.signal == s.signal[|s.signal| - |r.signal|..] &&
      r.history == s.history[|s.history| - |r.history|..]
  {
  }

  /** A session whose start is missing or zero is started afresh before the append. */
  predicate Started(s: Session) {
    s.start.Some? && s.start.value != 0.0
  }

  /** The session an append starts from: the given one once started, else a new one starting now. */
  function Base(s: Session, now: real): (b: Session)
    ensures b.start.Some?
  {
    if Started(s) then s else EmptySession(Some(now))
  }

  /** One more sample at time `t`: three metric values and a copy of the snapshot. */
  function Appended(s: Session, t: real, attention: real, meditation: real, signal: real, snapshot: Json): Session {
    Session(s.timestamps + [t], s.attention + [attention], s.meditation + [meditation],
            s.signal + [signal], s.history + [snapshot], s.start, s.maxPoints)
  }

  /** The sample a snapshot with points `ps` adds to `s` at clock reading `now`, before the cut. */
  function Sampled(s: Session, now: real, ps: seq<Point>, snapshot: Json): Session {
    var base := Base(s, now);
    Appended(base, now - base.start.value, Mean(Attentions(ps)), Mean(Meditations(ps)),
             Mean(Signals(ps)), snapshot)
  }

  /**
   * Whether the mode store lets live data through: a missing or empty store counts as live,
   * otherwise its `mode` must be `'live'`; a store that is not a dictionary raises.
   */
  function InLiveMode(mode: Json): (r: Option<bool>)
    ensures !Truthy(mode) ==> r == Some(true)
    ensures Truthy(mode) && mode.JObj? ==> r == Some(Lookup(mode.fields, "mode") == Some(JStr("live")))
    ensures Truthy(mode) && !mode.JObj? ==> r.None?
  {
    if !Truthy(mode) then Some(true)
    else
      match PyGet(mode, "mode", JNull)
      case None => None
      case Some(m) => Some(m == JStr("live"))
  }

  /** `update_session_data`: the new session store, or `Raises` when the callback throws. */
  function UpdateSpec(s: Session, trig: Option<string>, memory: Json, mode: Json, now: real): Outcome<Session> {
    if trig == Some(ResetButton) then Returns(EmptySession(Some(now)))
    else if !Truthy(memory) then Returns(s)
    else
      match PyIn("uid", memory)
      case None => Raises
      case Some(hasUid) =>
        if !hasUid then Returns(s)
        else
          match InLiveMode(mode)
          case None => Raises
          case Some(live) =>
            if !live then Returns(s)
            else if !memory.JObj? then Raises
            else
              match Points(memory.fields)
              case None => Raises
              case Some(ps) => Returns(Trim(Sampled(s, now, ps, memory)))
  }

  /** An empty store, a store without `uid`, or a mode other than live leaves the buffer as it was. */
  lemma UpdateSpecKeeps(s: Session, trig: Option<string>, memory: Json, mode: Json, now: real)
    requires trig != Some(ResetButton)
    requires !Truthy(memory) || PyIn("uid", memory) == Some(false) ||
             (PyIn("uid", memory) == Some(true) && InLiveMode(mode) == Some(false))
    ensures UpdateSpec(s, trig, memory, mode, now) == Returns(s)
  {
  }

  /** A store whose `uid` test, mode test or records raise makes the update raise. */
  lemma UpdateSpecRaises(s: Session, trig: Option<string>, memory: Json, mode: Json, now: real)
    requires trig != Some(ResetButton) && Truthy(memory)
    requires PyIn("uid", memory).None? ||
             (PyIn("uid", memory) == Some(true) &&
              (InLiveMode(mode).None? ||
               (InLiveMode(mode) == Some(true) && (!memory.JObj? || Points(memory.fields).None?))))
    ensures UpdateSpec(s, trig, memory, mode, now) == Raises
  {
  }

  /** Past every early return, the update appends the averaged sample and cuts the window. */
  lemma UpdateSpecSamples(s: Session, trig: Option<string>, memory: Json, mode: Json, now: real)
    requires trig != Some(ResetButton) && Truthy(memory) && PyIn("uid", memory) == Some(true)
    requires InLiveMode(mode) == Some(true) && memory.JObj? && Points(memory.fields).Some?
    ensures UpdateSpec(s, trig, memory, mode, now) == Returns(Trim(Sampled(s, now, Points(memory.fields).value, memory)))
  {
  }

  /**
   * The averaging loop of `update_session_data`: the three metric lists of the counted
   * records and their means; `ok` is false where a record makes the callback raise.
   */
  method AverageSensors(entries: seq<(string, Json)>) returns (ok: bool, avgAttention: real, avgMeditation: real, avgSignal: real)
    ensures ok <==> Points(entries).Some?
    ensures ok ==> avgAttention == Mean(Attentions(Points(entries).value)) &&
                   avgMeditation == Mean(Meditations(Points(entries).value)) &&
                   avgSignal == Mean(Signals(Points(entries).value))
  {
    var allAttention: seq<real> := [];
    var allMeditation: seq<real> := [];
    var allSignal: seq<real> := [];
    for i := 0 to |entries|
      invariant Points(entries[..i]).Some?
      invariant allAttention == Attentions(Points(entries[..i]).value)
      invariant allMeditation == Meditations(Points(entries[..i]).value)
      invariant allSignal == Signals(Points(entries[..i]).value)
    {
      var (key, record) := entries[i];
      PointsExtend(entries, i);
      if Counted(key, record) {
        var a := MetricOf(record, "attention");
        var m := MetricOf(record, "meditation");
        var g := MetricOf(record, "signal_strength");
        if a.None? || m.None? || g.None? {
          PointsFailForever(entries, i + 1);
          return false, 0.0, 0.0, 0.0;
        }
        PointColumns(Points(entries[..i]).value, PointOf(record).value);
        allAttention := allAttention + [a.value];
        allMeditation := allMeditation + [m.value];
        allSignal := allSignal + [g.value];
      }
    }
    assert entries[..|entries|] == entries;
    return true, Mean(allAttention), Mean(allMeditation), Mean(allSignal);
  }

  /** One more entry: skipped if not counted, else its point is appended or the loop raises. */
  lemma PointsExtend(entries: seq<(string, Json)>, i: nat)
    requires i < |entries| && Points(entries[..i]).Some?
    ensures var ps := Points(entries[..i]).value;
      Points(entries[..i + 1]) ==
        if !Counted(entries[i].0, entries[i].1) then Some(ps)
        else if PointOf(entries[i].1).None? then None
        else Some(ps + [PointOf(entries[i].1).value])
  {
    assert entries[..i + 1][..i] == entries[..i];
  }

  lemma PointColumns(ps: seq<Point>, p: Point)
    ensures Attentions(ps + [p]) == Attentions(ps) + [p.attention]
    ensures Meditations(ps + [p]) == Meditations(ps) + [p.meditation]
    ensures Signals(ps + [p]) == Signals(ps) + [p.signal]
  {
  }

  /** The session store. Dash keeps it in the browser; the callback rewrites its lists. */
  class SessionStore {
    var timestamps: seq<real>
    var attention: seq<real>
    var meditation: seq<real>
    var signal: seq<real>
    var history: seq<Json>
    var start: Option<real>
    var maxPoints: int

    function Snapshot(): Session
      reads this
    {
      Session(timestamps, attention, meditation, signal, history, start, maxPoints)
    }

    predicate Valid()
      reads this
    {
      BufferOk(Snapshot())
    }

    constructor ()
      ensures Valid() && Snapshot() == InitialSession()
    {
      timestamps, attention, meditation, signal, history := [], [], [], [], [];
      start, maxPoints := None, MaxPoints;
    }

    /**
     * `update_session_data`. `now` is the clock reading of this call. When the callback
     * raises (`ok` false) Dash keeps the store as it was.
     */
    method UpdateSessionData(trig: Option<string>, memory: Json, mode: Json, now: real) returns (ok: bool)
      requires Valid()
      modifies this
      ensures Valid()
      ensures ok <==> UpdateSpec(old(Snapshot()), trig, memory, mode, now).Returns?
      ensures ok ==> Snapshot() == UpdateSpec(old(Snapshot()), trig, memory, mode, now).value
      ensures !ok ==> Snapshot() == old(Snapshot())
    {
      if trig == Some(ResetButton) {
        ResetSession(now);
        return true;
      }
      if !Truthy(memory) {
        UpdateSpecKeeps(Snapshot(), trig, memory, mode, now);
        return true;
      }
      var hasUid := PyIn("uid", memory);
      if hasUid.None? {
        UpdateSpecRaises(Snapshot(), trig, memory, mode, now);
        return false;
      }
      if !hasUid.value {
        UpdateSpecKeeps(Snapshot(), trig, memory, mode, now);
        return true;
      }
      var live := InLiveMode(mode);
      if live.None? {
        UpdateSpecRaises(Snapshot(), trig, memory, mode, now);
        return false;
      }
      if !live.value {
        UpdateSpecKeeps(Snapshot(), trig, memory, mode, now);
        return true;
      }
      if !memory.JObj? {
        UpdateSpecRaises(Snapshot(), trig, memory, mode, now);
        return false;
      }
      ghost var before := Snapshot();
      ok := AppendAverage(memory.fields, memory, now);
      if ok {
        UpdateSpecSamples(before, trig, memory, mode, now);
      } else {
        UpdateSpecRaises(before, trig, memory, mode, now);
      }
    }

    /** Average the counted records of `entries` and append the sample; `ok` is false where a record raises. */
    method AppendAverage(entries: seq<(string, Json)>, memory: Json, now: real) returns (ok: bool)
      requires Valid()
      modifies this
      ensures Valid()
      ensures ok <==> Points(entries).Some?
      ensures ok ==> Snapshot() == Trim(Sampled(old(Snapshot()), now, Points(entries).value, memory))
      ensures !ok ==> Snapshot() == old(Snapshot())
    {
      var averaged, avgAttention, avgMeditation, avgSignal := AverageSensors(entries);
      if !averaged {
        return false;
      }
      AppendSample(now, avgAttention, avgMeditation, avgSignal, memory);
      return true;
    }

    /** Start the session if needed, append one sample and cut the lists to the cap. */
    method AppendSample(now: real, avgAttention: real, avgMeditation: real, avgSignal: real, memory: Json)
      requires Valid()
      modifies this
      ensures Valid()
      ensures var base := Base(old(Snapshot()), now);
        Snapshot() == Trim(Appended(base, now - base.start.value, avgAttention, avgMeditation, avgSignal, memory))
    {
      StartIfNeeded(now);
      var currentTime := now - start.value;
      AddSample(currentTime, avgAttention, avgMeditation, avgSignal, memory);
      TrimWindow(Snapshot());
      TrimToCap();
    }

    /** A missing or zero start begins a fresh session now. */
    method StartIfNeeded(now: real)
      requires Valid()
      modifies this
      ensures Parallel(Snapshot()) && maxPoints > 0
      ensures Snapshot() == Base(old(Snapshot()), now)
    {
      if !(start.Some? && start.value != 0.0) {
        ResetSession(now);
      }
    }

    /** Empty lists, the default cap, and a session started at `now`. */
    method ResetSession(now: real)
      modifies this
      ensures Valid() && Snapshot() == EmptySession(Some(now))
    {
      timestamps, attention, meditation, signal, history := [], [], [], [], [];
      start, maxPoints := Some(now), MaxPoints;
    }

    /** Append one entry to each of the five lists. */
    method AddSample(t: real, avgAttention: real, avgMeditation: real, avgSignal: real, memory: Json)
      modifies this
      ensures Snapshot() == Appended(old(Snapshot()), t, avgAttention, avgMeditation, avgSignal, memory)
    {
      timestamps := timestamps + [t];
      attention := attention + [avgAttention];
      meditation := meditation + [avgMeditation];
      signal := signal + [avgSignal];
      history := history + [memory];
    }

    /** Keep the last `maxPoints` entries of every list once the timestamps outgrow the cap. */
    method TrimToCap()
      modifies this
      ensures Snapshot() == Trim(old(Snapshot()))
    {
      if |timestamps| > maxPoints {
        timestamps := PyTail(timestamps, maxPoints);
        attention := PyTail(attention, maxPoints);
        meditation := PyTail(meditation, maxPoints);
        signal := PyTail(signal, maxPoints);
        history := PyTail(history, maxPoints);
      }
    }
  }

  // ---------------------------------------------------------------------------------
  // Properties of the buffer update
  // ---------------------------------------------------------------------------------

  /** The reset button discards the session and starts a new, empty one now. */
  lemma ResetStartsOver(s: Session, memory: Json, mode: Json, now: real)
    ensures var r := UpdateSpec(s, Some(ResetButton), memory, mode, now);
      r.Returns? && BufferOk(r.value) && |r.value.timestamps| == 0 &&
      r.value.start == Some(now) && r.value.maxPoints == 120
  {
  }

  /** A snapshot that is empty or carries no `uid` leaves the buffer as it is. */
  lemma KeptWithoutUid(s: Session, trig: Option<string>, memory: Json, mode: Json, now: real)
    requires trig != Some(ResetButton)
    requires !Truthy(memory) || (memory.JObj? && "uid" !in Keys(memory.fields))
    ensures UpdateSpec(s, trig, memory, mode, now) == Returns(s)
  {
  }

  /** Outside live mode (a mode store whose `mode` is anything but `'live'`) the buffer is frozen. */
  lemma KeptOutsideLive(s: Session, trig: Option<string>, memory: Json, mode: Json, now: real)
    requires trig != Some(ResetButton)
    requires memory.JObj? && "uid" in Keys(memory.fields)
    requires mode.JObj? && |mode.fields| > 0 && Lookup(mode.fields, "mode") != Some(JStr("live"))
    ensures UpdateSpec(s, trig, memory, mode, now) == Returns(s)
  {
  }

  /** The preconditions under which a snapshot is appended. */
  predicate Appends(trig: Option<string>, memory: Json, mode: Json) {
    trig != Some(ResetButton) && memory.JObj? && "uid" in Keys(memory.fields) &&
    InLiveMode(mode) == Some(true) && Points(memory.fields).Some?
  }

  /** Every outcome of the update is a well-formed buffer again. */
  lemma UpdateKeepsBuffer(s: Session, trig: Option<string>, memory: Json, mode: Json, now: real)
    requires BufferOk(s)
    requires UpdateSpec(s, trig, memory, mode, now).Returns?
    ensures BufferOk(UpdateSpec(s, trig, memory, mode, now).value)
  {
    if Appends(trig, memory, mode) {
      TrimWindow(Sampled(s, now, Points(memory.fields).value, memory));
    }
  }

  /**
   * Below the cap a live snapshot adds exactly one sample at the end of each list: the time
   * since the session start, the three means and the snapshot itself.
   */
  lemma AppendGrows(s: Session, trig: Option<string>, memory: Json, mode: Json, now: real)
    requires BufferOk(s) && Started(s) && |s.timestamps| < s.maxPoints
    requires Appends(trig, memory, mode)
    ensures var r := UpdateSpec(s, trig, memory, mode, now);
      var ps := Points(memory.fields).value;
      r.Returns? && r.value.start == s.start && r.value.maxPoints == s.maxPoints &&
      r.value.timestamps == s.timestamps + [now - s.start.value] &&
      r.value.attention == s.attention + [Mean(Attentions(ps))] &&
      r.value.meditation == s.meditation + [Mean(Meditations(ps))] &&
      r.value.signal == s.signal + [Mean(Signals(ps))] &&
      r.value.history == s.history + [memory]
  {
  }

  /** At the cap the oldest sample goes and the new one is appended. */
  lemma AppendDropsOldest(s: Session, trig: Option<string>, memory: Json, mode: Json, now: real)
    requires BufferOk(s) && Started(s) && |s.timestamps| == s.maxPoints
    requires Appends(trig, memory, mode)
    ensures var r := UpdateSpec(s, trig, memory, mode, now);
      var ps := Points(memory.fields).value;
      r.Returns? && |r.value.timestamps| == s.maxPoints &&
      r.value.timestamps == s.timestamps[1..] + [now - s.start.value] &&
      r.value.attention == s.attention[1..] + [Mean(Attentions(ps))] &&
      r.value.meditation == s.meditation[1..] + [Mean(Meditations(ps))] &&
      r.value.signal == s.signal[1..] + [Mean(Signals(ps))] &&
      r.value.history == s.history[1..] + [memory]
  {
    var base := Sampled(s, now, Points(memory.fields).value, memory);
    assert base.timestamps[1..] == s.timestamps[1..] + [now - s.start.value];
    assert base.attention[1..] == s.attention[1..] + [Mean(Attentions(Points(memory.fields).value))];
    assert base.meditation[1..] == s.meditation[1..] + [Mean(Meditations(Points(memory.fields).value))];
    assert base.signal[1..] == s.signal[1..] + [Mean(Signals(Points(memory.fields).value))];
    assert base.history[1..] == s.history[1..] + [memory];
  }

  /** A session without a start begins now, with this snapshot as its first sample at time 0. */
  lemma AppendStartsSession(s: Session, trig: Option<string>, memory: Json, mode: Json, now: real)
    requires !Started(s)
    requires Appends(trig, memory, mode)
    ensures var r := UpdateSpec(s, trig, memory, mode, now);
      r.Returns? && r.value.start == Some(now) && r.value.maxPoints == MaxPoints &&
      r.value.timestamps == [0.0] && r.value.history == [memory] && BufferOk(r.value)
  {
  }

  /** A record that is not a dictionary, or holds a metric that is not a number, makes the update raise. */
  lemma BadRecordRaises(s: Session, trig: Option<string>, memory: Json, mode: Json, now: real, i: nat)
    requires trig != Some(ResetButton) && memory.JObj? && "uid" in Keys(memory.fields)
    requires InLiveMode(mode) == Some(true)
    requires i < |memory.fields| && Counted(memory.fields[i].0, memory.fields[i].1)
    requires PointOf(memory.fields[i].1).None?
    ensures UpdateSpec(s, trig, memory, mode, now) == Raises
  {
    assert |memory.fields| > 0 && Truthy(memory);
    assert PyIn("uid", memory) == Some(true);
    BadRecordPoints(memory.fields, i);
  }

  /** A counted record whose metrics cannot be read makes the averaging loop raise. */
  lemma BadRecordPoints(entries: seq<(string, Json)>, i: nat)
    requires i < |entries| && Counted(entries[i].0, entries[i].1) && PointOf(entries[i].1).None?
    ensures Points(entries).None?
  {
    assert entries[..i + 1][..i] == entries[..i];
    assert Points(entries[..i + 1]).None?;
    PointsFailForever(entries, i + 1);
  }

  /** A snapshot of `uid` and a single sensor record appends exactly that record's metrics. */
  lemma OneSensorAverages(uid: Json, key: string, record: Json)
    requires key != "uid" && Truthy(record) && PointOf(record).Some?
    ensures var ps := Points([("uid", uid), (key, record)]);
      ps == Some([PointOf(record).value]) &&
      Mean(Attentions(ps.value)) == PointOf(record).value.attention &&
      Mean(Meditations(ps.value)) == PointOf(record).value.meditation &&
      Mean(Signals(ps.value)) == PointOf(record).value.signal
  {
    var entries := [("uid", uid), (key, record)];
    assert entries[..1] == [("uid", uid)];
    assert entries[..1][..0] == [];
    assert Points(entries[..1]) == Some([]);
    assert entries[..|entries| - 1] == entries[..1];
    assert Last(entries) == (key, record);
    assert Points(entries) == Some([] + [PointOf(record).value]);
    assert [] + [PointOf(record).value] == [PointOf(record).value];
    var pl := [PointOf(record).value];
    MeanOfEqual(Attentions(pl), pl[0].attention);
    MeanOfEqual(Meditations(pl), pl[0].meditation);
    MeanOfEqual(Signals(pl), pl[0].signal);
  }

  /** A snapshot with no counted record appends zeros. */
  lemma NoRecordsGiveZero(ps: seq<Point>)
    requires |ps| == 0
    ensures Mean(Attentions(ps)) == 0.0 && Mean(Meditations(ps)) == 0.0 && Mean(Signals(ps)) == 0.0
  {
  }

  // ---------------------------------------------------------------------------------
  // The extend payload
  // ---------------------------------------------------------------------------------

  /** The arguments of `extendData`: new points, the traces they go to, and how many points stay visible. */
  datatype Extend = Extend(data: ExtendData, traces: seq<int>, maxVisible: int)

  /** `update_timeline_graph`: `None` is `no_update`. */
  function UpdateTimelineGraph(s: Session, mode: Json): Outcome<Option<Extend>> {
    if |s.timestamps| == 0 then Returns(None)
    else
      match InLiveMode(mode)
      case None => Raises
      case Some(live) =>
        if !live then Returns(None)
        else if |s.attention| == 0 || |s.meditation| == 0 || |s.signal| == 0 then Raises
        else
          var t := Last(s.timestamps);
          Returns(Some(Extend(
            ExtendData([[t], [t], [t]], [[Last(s.attention)], [Last(s.meditation)], [Last(s.signal)]]),
            [0, 1, 2], 60)))
  }

  /** Nothing to extend while the buffer is empty or the mode is not live. */
  lemma GraphSkips(s: Session, mode: Json)
    requires |s.timestamps| == 0 ||
             (mode.JObj? && |mode.fields| > 0 && Lookup(mode.fields, "mode") != Some(JStr("live")))
    ensures UpdateTimelineGraph(s, mode) == Returns(None)
  {
  }

  /** In live mode the chart gets the buffer's newest point, in the traces' order, keeping 60 points. */
  lemma GraphExtendsNewest(s: Session, mode: Json)
    requires Parallel(s) && |s.timestamps| > 0 && InLiveMode(mode) == Some(true)
    ensures UpdateTimelineGraph(s, mode) == Returns(Some(Extend(
      GetTimelineExtendData(Last(s.timestamps), Last(s.attention), Last(s.meditation), Last(s.signal)),
      [0, 1, 2], 60)))
    ensures |UpdateTimelineGraph(s, mode).value.value.traces| == |TraceNames|
  {
  }

  /** The point a live snapshot appends is the point the chart is extended with next. */
  lemma AppendThenExtend(s: Session, trig: Option<string>, memory: Json, mode: Json, now: real)
    requires BufferOk(s) && Started(s) && |s.timestamps| < s.maxPoints
    requires Appends(trig, memory, mode)
    ensures var r := UpdateSpec(s, trig, memory, mode, now);
      var ps := Points(memory.fields).value;
      r.Returns? && UpdateTimelineGraph(r.value, mode) == Returns(Some(Extend(
        GetTimelineExtendData(now - s.start.value, Mean(Attentions(ps)), Mean(Meditations(ps)), Mean(Signals(ps))),
        [0, 1, 2], 60)))
  {
    AppendGrows(s, trig, memory, mode, now);
    var r := UpdateSpec(s, trig, memory, mode, now).value;
    GraphExtendsNewest(r, mode);
  }

  // ---------------------------------------------------------------------------------
  // The playback-mode machine
  // ---------------------------------------------------------------------------------

  function Abs(x: real): real {
    if x < 0.0 then -x else x
  }

  /**
   * `min(range(len(ts)), key=lambda i: abs(ts[i] - x))`: the index nearest to `x`; `min`
   * keeps the first of several equally near indices.
   */
  function NearestIndex(ts: seq<real>, x: real): (i: nat)
    requires |ts| > 0
    ensures i < |ts|
    ensures forall j :: 0 <= j < |ts| ==> Abs(ts[i] - x) <= Abs(ts[j] - x)
    ensures forall j :: 0 <= j < i ==> Abs(ts[j] - x) > Abs(ts[i] - x)
  {
    if |ts| == 1 then 0
    else
      var k := NearestIndex(ts[..|ts| - 1], x);
      if Abs(Last(ts) - x) < Abs(ts[k] - x) then |ts| - 1 else k
  }

  /** Illustration of `NearestIndex`: a click at 12.3 s over samples at 10, 12 and 13 s selects the one at 12 s. */
  lemma NearestSample()
    ensures NearestIndex([10.0, 12.0, 13.0], 12.3) == 1
  {
  }

  /** Illustration of `NearestIndex`'s tie rule: equally near samples resolve to the earlier one. */
  lemma NearestTieGoesEarlier()
    ensures NearestIndex([10.0, 12.0], 11.0) == 0
  {
  }

  /** The status badge: its text in live and paused mode, and the time it shows in historical mode. */
  datatype Badge = LiveBadge | PausedBadge | HistoricalBadge(time: real)

  const LiveText: string := "🔴 EN VIVO"
  const PausedText: string := "⏸️ PAUSADO"

  function BadgeColor(b: Badge): string {
    match b
    case LiveBadge => "success"
    case PausedBadge => "secondary"
    case HistoricalBadge(_) => "warning"
  }

  /** The new mode store and the badge. */
  datatype Controls = Controls(mode: Json, badge: Badge)

  /** `click_data['points'][0]['x']`; `None` where Python raises. */
  function ClickX(click: Json): Option<Json> {
    match PyIndex(click, "points")
    case None => None
    case Some(points) =>
      if points.JArr? && |points.items| > 0 then PyIndex(points.items[0], "x") else None
  }

  /** `new_mode.update({'mode': …, 'selected_time': …, 'selected_data': …})`. */
  function Select(f: Dict<Json>, mode: string, time: Json, data: Json): (r: Dict<Json>)
    ensures "mode" in Keys(r) && "selected_time" in Keys(r) && "selected_data" in Keys(r)
    ensures Get(r, "mode") == JStr(mode) && Get(r, "selected_time") == time && Get(r, "selected_data") == data
    ensures forall k :: k in Keys(f) ==> k in Keys(r)
    ensures forall k :: k in Keys(f) && k != "mode" && k != "selected_time" && k != "selected_data" ==>
      Get(r, k) == Get(f, k)
  {
    var withMode := Put(f, "mode", JStr(mode));
    var withTime := Put(withMode, "selected_time", time);
    var r := Put(withTime, "selected_data", data);
    assert "mode" != "selected_time" && "mode" != "selected_data" && "selected_time" != "selected_data";
    r
  }

  /** A click at `x` (the number `xv`): historical mode with the snapshot of the nearest sample, if any. */
  function Historical(f: Dict<Json>, x: Json, xv: real, s: Session): Outcome<Controls> {
    if |s.timestamps| == 0 then
      Returns(Controls(JObj(Select(f, "historical", x, JNull)), HistoricalBadge(xv)))
    else
      var i := NearestIndex(s.timestamps, xv);
      if i < |s.history| then
        Returns(Controls(JObj(Select(f, "historical", x, s.history[i])), HistoricalBadge(xv)))
      else Raises
  }

  /** `handle_timeline_controls`, over a copy of the mode store (or the default one when it is empty). */
  function HandleTimelineControls(trig: Option<string>, click: Json, mode: Json, s: Session): Outcome<Controls> {
    var m := if Truthy(mode) then mode else InitialMode();
    if !m.JObj? then Raises else Control(trig, click, m.fields, s)
  }

  /** A click on the timeline: historical mode at the clicked x, raising when it has none or it is not a number. */
  function ClickControl(click: Json, f: Dict<Json>, s: Session): Outcome<Controls> {
    match ClickX(click)
    case None => Raises
    case Some(x) =>
      match AsNumber(x)
      case None => Raises
      case Some(xv) => Historical(f, x, xv, s)
  }

  /** The controls acting on the mode store's entries `f`. */
  function Control(trig: Option<string>, click: Json, f: Dict<Json>, s: Session): Outcome<Controls> {
    if trig == Some(TimelineGraph) && Truthy(click) then ClickControl(click, f, s)
    else if trig == Some(PauseButton) then
      Returns(Controls(JObj(Select(f, "paused", JNull, JNull)), PausedBadge))
    else if trig == Some(ResumeButton) then
      Returns(Controls(JObj(Select(f, "live", JNull, JNull)), LiveBadge))
    else
      var current := Lookup(f, "mode");
      if current == Some(JStr("live")) then Returns(Controls(JObj(f), LiveBadge))
      else if current == Some(JStr("historical")) then
        match AsNumber(Lookup(f, "selected_time").GetOr(JNum(0.0)))
        case None => Raises
        case Some(t) => Returns(Controls(JObj(f), HistoricalBadge(t)))
      else Returns(Controls(JObj(f), PausedBadge))
  }

  /** The mode store a callback starts from. */
  predicate ModeStoreOk(mode: Json) {
    !Truthy(mode) || mode.JObj?
  }

  /**
   * A click on the timeline enters historical mode at the clicked time, with the snapshot of
   * the first sample nearest to it.
   */
  lemma ClickSelectsNearest(click: Json, mode: Json, s: Session, x: Json, xv: real)
    requires ModeStoreOk(mode) && Parallel(s) && |s.timestamps| > 0
    requires Truthy(click) && ClickX(click) == Some(x) && AsNumber(x) == Some(xv)
    ensures var r := HandleTimelineControls(Some(TimelineGraph), click, mode, s);
      var i := NearestIndex(s.timestamps, xv);
      r.Returns? && r.value.mode.JObj? && r.value.badge == HistoricalBadge(xv) &&
      Get(r.value.mode.fields, "mode") == JStr("historical") &&
      Get(r.value.mode.fields, "selected_time") == x &&
      Get(r.value.mode.fields, "selected_data") == s.history[i]
  {
    ClickResult(click, mode, s, x, xv);
    var m := if Truthy(mode) then mode else InitialMode();
    HistoricalSelects(m.fields, x, xv, s);
  }

  lemma HistoricalSelects(f: Dict<Json>, x: Json, xv: real, s: Session)
    requires Parallel(s) && |s.timestamps| > 0
    ensures var r := Historical(f, x, xv, s);
      var i := NearestIndex(s.timestamps, xv);
      r.Returns? && r.value.mode.JObj? && r.value.badge == HistoricalBadge(xv) &&
      Get(r.value.mode.fields, "mode") == JStr("historical") &&
      Get(r.value.mode.fields, "selected_time") == x &&
      Get(r.value.mode.fields, "selected_data") == s.history[i]
  {
  }

  lemma ClickResult(click: Json, mode: Json, s: Session, x: Json, xv: real)
    requires ModeStoreOk(mode) && Parallel(s) && |s.timestamps| > 0
    requires Truthy(click) && ClickX(click) == Some(x) && AsNumber(x) == Some(xv)
    ensures var m := if Truthy(mode) then mode else InitialMode();
      m.JObj? && HandleTimelineControls(Some(TimelineGraph), click, mode, s) == Historical(m.fields, x, xv, s)
  {
    var m := if Truthy(mode) then mode else InitialMode();
    assert m.JObj?;
    assert HandleTimelineControls(Some(TimelineGraph), click, mode, s) == Control(Some(TimelineGraph), click, m.fields, s);
    ControlClick(click, m.fields, s, x, xv);
  }

  /** A click with a numeric x goes to historical mode at that x. */
  lemma ControlClick(click: Json, f: Dict<Json>, s: Session, x: Json, xv: real)
    requires Truthy(click) && ClickX(click) == Some(x) && AsNumber(x) == Some(xv)
    ensures Control(Some(TimelineGraph), click, f, s) == Historical(f, x, xv, s)
  {
    ClickOnTimeline(click, f, s);
    ClickAt(click, f, s, x, xv);
  }

  lemma ClickOnTimeline(click: Json, f: Dict<Json>, s: Session)
    requires Truthy(click)
    ensures Control(Some(TimelineGraph), click, f, s) == ClickControl(click, f, s)
  {
  }

  lemma ClickAt(click: Json, f: Dict<Json>, s: Session, x: Json, xv: real)
    requires ClickX(click) == Some(x) && AsNumber(x) == Some(xv)
    ensures ClickControl(click, f, s) == Historical(f, x, xv, s)
  {
  }

  /** A click on an empty buffer still enters historical mode, with no snapshot. */
  lemma ClickOnEmptyBuffer(click: Json, mode: Json, s: Session, x: Json, xv: real)
    requires ModeStoreOk(mode) && |s.timestamps| == 0
    requires Truthy(click) && ClickX(click) == Some(x) && AsNumber(x) == Some(xv)
    ensures var r := HandleTimelineControls(Some(TimelineGraph), click, mode, s);
      r.Returns? && r.value.mode.JObj? &&
      Get(r.value.mode.fields, "mode") == JStr("historical") &&
      Get(r.value.mode.fields, "selected_time") == x &&
      Get(r.value.mode.fields, "selected_data") == JNull
  {
  }

  /** Pause and resume set their mode, clear both selections and keep every other key. */
  lemma PauseAndResumeClear(click: Json, mode: Json, s: Session, button: string)
    requires mode.JObj? && |mode.fields| > 0
    requires button == PauseButton || button == ResumeButton
    ensures var r := HandleTimelineControls(Some(button), click, mode, s);
      r.Returns? && r.value.mode.JObj? &&
      "mode" in Keys(r.value.mode.fields) && "selected_time" in Keys(r.value.mode.fields) &&
      "selected_data" in Keys(r.value.mode.fields) &&
      Get(r.value.mode.fields, "mode") == JStr(if button == PauseButton then "paused" else "live") &&
      Get(r.value.mode.fields, "selected_time") == JNull &&
      Get(r.value.mode.fields, "selected_data") == JNull &&
      r.value.badge == (if button == PauseButton then PausedBadge else LiveBadge) &&
      forall k :: k in Keys(mode.fields) && k != "mode" && k != "selected_time" && k != "selected_data" ==>
        k in Keys(r.value.mode.fields) && Get(r.value.mode.fields, k) == Get(mode.fields, k)
  {
    ControlNamesDistinct();
    var f := mode.fields;
    assert (if Truthy(mode) then mode else InitialMode()) == mode;
    if button == PauseButton {
      PauseSelects(click, f, s);
    } else {
      ResumeSelects(click, f, s);
    }
  }

  lemma PauseSelects(click: Json, f: Dict<Json>, s: Session)
    ensures Control(Some(PauseButton), click, f, s) == Returns(Controls(JObj(Select(f, "paused", JNull, JNull)), PausedBadge))
  {
    ControlNamesDistinct();
  }

  lemma ResumeSelects(click: Json, f: Dict<Json>, s: Session)
    ensures Control(Some(ResumeButton), click, f, s) == Returns(Controls(JObj(Select(f, "live", JNull, JNull)), LiveBadge))
  {
    ControlNamesDistinct();
    assert Some(ResumeButton) != Some(TimelineGraph) && Some(ResumeButton) != Some(PauseButton);
  }

  /** Any other trigger keeps the mode store as it is and shows the badge of its mode. */
  lemma OtherTriggersKeepMode(trig: Option<string>, click: Json, mode: Json, s: Session)
    requires mode.JObj? && |mode.fields| > 0
    requires trig != Some(PauseButton) && trig != Some(ResumeButton)
    requires trig != Some(TimelineGraph) || !Truthy(click)
    requires Lookup(mode.fields, "mode") != Some(JStr("historical"))
    ensures var r := HandleTimelineControls(trig, click, mode, s);
      r.Returns? && r.value.mode == mode &&
      r.value.badge == (if Lookup(mode.fields, "mode") == Some(JStr("live")) then LiveBadge else PausedBadge)
  {
  }

  /** With no mode store yet, a trigger other than the three controls yields the live default. */
  lemma EmptyModeStartsLive(trig: Option<string>, click: Json, s: Session)
    requires trig != Some(PauseButton) && trig != Some(ResumeButton)
    requires trig != Some(TimelineGraph) || !Truthy(click)
    ensures HandleTimelineControls(trig, click, JNull, s) == Returns(Controls(InitialMode(), LiveBadge))
  {
    InitialStores();
  }
}
