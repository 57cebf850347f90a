/**
 * What the brain-view callbacks send back to the page, and the sensor-selection rule the
 * clean and simple controller variants share.
 */
module BrainPanel {
  import opened Wrappers
  import opened Dicts
  import opened JsonValues
  import opened BrainVisualizer

  const WaitingText: string := "Esperando datos de la sesión..."
  const NoSensorsText: string := "No hay datos de sensores disponibles"
  const MissingPrefix: string := "No hay datos para: "

  /** `f"No hay datos para: {selected_sensor}"`. */
  function MissingText(sensor: Option<string>): string {
    MissingPrefix + match sensor { case Some(s) => s case None => "None" }
  }

  /** The line appended to the figure title for the playback mode. */
  datatype Mark =
    | Plain
    | HistoricalAt(t: real)  // "Modo Histórico: t=<t>s"
    | PausedMark             // "Pausado"

  /** The figure output of the brain graph. */
  datatype Panel =
    | Message(text: string)                                      // an annotation-only figure
    | ErrorMessage                                               // "Error: <exception text>"
    | Scene(figure: Figure, mark: Mark, camera: Option<Json>)    // a built brain, camera applied if any

  /** The (figure, camera store) outputs of the controller. */
  datatype Reply =
    | NoUpdate                        // `no_update, no_update`
    | Uncaught                        // an exception escapes the callback; Dash keeps both outputs
    | Reply(panel: Panel, camera: Json)

  /** The snapshot handed to the figure builder, or the placeholder shown instead. */
  datatype Selection = Selected(sensors: Dict<Json>) | Placeholder(panel: Panel)

  /** A snapshot that holds only "uid" has nothing to draw. */
  function CheckCount(d: Dict<Json>): (s: Selection)
    ensures s.Selected? <==> |d| > 1
  {
    if |d| <= 1 then Placeholder(Message(NoSensorsText)) else Selected(d)
  }

  predicate KeptInTodos(k: string, v: Json) {
    k != "uid" && v != JNull
  }

  /**
   * 'todos' keeps every non-uid entry that is not None and puts "uid" back last; any other
   * mode keeps the selected sensor and "uid", or names the missing sensor.
   */
  function SelectSensors(display: Dict<Json>, sensor: Option<string>, quantity: Option<string>): Selection
    requires "uid" in Keys(display)
  {
    var uid := Get(display, "uid");
    if quantity == Some("todos") then
      CheckCount(Put(Filter(display, KeptInTodos), "uid", uid))
    else if sensor.Some? && sensor.value in Keys(display) then
      CheckCount(Put([(sensor.value, Get(display, sensor.value))], "uid", uid))
    else
      Placeholder(Message(MissingText(sensor)))
  }

  lemma {:induction false} TodosSelection(display: Dict<Json>, sensor: Option<string>)
    requires "uid" in Keys(display)
    ensures var s := SelectSensors(display, sensor, Some("todos"));
      && (s.Selected? <==> exists k :: k in Keys(display) && KeptInTodos(k, Get(display, k)))
      && (s.Placeholder? ==> s.panel == Message(NoSensorsText))
      && (s.Selected? ==>
            && (forall k :: k in Keys(s.sensors) && k != "uid" <==> k in Keys(display) && KeptInTodos(k, Get(display, k)))
            && "uid" in Keys(s.sensors)
            && forall k :: k in Keys(s.sensors) ==> Get(s.sensors, k) == Get(display, k))
  {
    var kept := Filter(display, KeptInTodos);
    var d := Put(kept, "uid", Get(display, "uid"));
    assert SelectSensors(display, sensor, Some("todos")) == CheckCount(d);
    TodosSnapshot(display);
    TodosNonEmpty(display);
  }

  /** The 'todos' snapshot: the kept entries with "uid" appended after them. */
  lemma TodosSnapshot(display: Dict<Json>)
    requires "uid" in Keys(display)
    ensures var kept := Filter(display, KeptInTodos);
      var d := Put(kept, "uid", Get(display, "uid"));
      && |d| == |kept| + 1
      && (forall k :: k in Keys(d) && k != "uid" <==> k in Keys(display) && KeptInTodos(k, Get(display, k)))
      && "uid" in Keys(d)
      && forall k :: k in Keys(d) ==> Get(d, k) == Get(display, k)
  {
    var kept := Filter(display, KeptInTodos);
    assert "uid" !in Keys(kept);
    var d := Put(kept, "uid", Get(display, "uid"));
    assert Keys(d) == Keys(kept) + ["uid"];
  }

  /** Something is kept exactly when some non-uid entry is not None. */
  lemma TodosNonEmpty(display: Dict<Json>)
    ensures |Filter(display, KeptInTodos)| > 0 <==> exists k :: k in Keys(display) && KeptInTodos(k, Get(display, k))
  {
    var kept := Filter(display, KeptInTodos);
    if |kept| > 0 {
      GetAt(kept, 0);
      assert kept[0].0 in Keys(display) && KeptInTodos(kept[0].0, Get(display, kept[0].0));
    }
    if exists k :: k in Keys(display) && KeptInTodos(k, Get(display, k)) {
      var k :| k in Keys(display) && KeptInTodos(k, Get(display, k));
      assert k in Keys(kept);
    }
  }

  lemma IndividualSelection(display: Dict<Json>, s: string, quantity: Option<string>)
    requires "uid" in Keys(display) && quantity != Some("todos")
    ensures s in Keys(display) && s != "uid" ==>
      SelectSensors(display, Some(s), quantity) == Selected([(s, Get(display, s)), ("uid", Get(display, "uid"))])
    ensures s == "uid" ==> SelectSensors(display, Some(s), quantity) == Placeholder(Message(NoSensorsText))
    ensures s !in Keys(display) ==> SelectSensors(display, Some(s), quantity) == Placeholder(Message(MissingText(Some(s))))
  {
    if s in Keys(display) {
      var one: Dict<Json> := [(s, Get(display, s))];
      assert SelectSensors(display, Some(s), quantity) == CheckCount(Put(one, "uid", Get(display, "uid")));
      PutUid(one, s, Get(display, s), Get(display, "uid"));
    }
  }

  /** Adding 'uid' to a one-sensor selection: a second entry, or the same single 'uid' entry. */
  lemma PutUid(one: Dict<Json>, s: string, v: Json, uid: Json)
    requires one == [(s, v)]
    ensures s != "uid" ==> Put(one, "uid", uid) == [(s, v), ("uid", uid)]
    ensures s == "uid" ==> |Put(one, "uid", uid)| == 1
  {
    assert Keys(one) == [s];
  }
}
