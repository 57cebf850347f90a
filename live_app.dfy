/**
 * The callbacks of the live recording dashboard: the per-tick snapshot of every sensor's
 * readings, and the line, bar and heatmap payloads drawn from it.
 */
module LiveApp {
  import opened Wrappers
  import opened Dicts
  import opened JsonValues
  import opened ExtendData

  // ---------------------------------------------------------------------------------
  // select_quantity, on_startup, toggle_offcanvas
  // ---------------------------------------------------------------------------------

  datatype GraphBox = IndividualGraphs | AllGraphs

  /** The graphs shown and the caption above them. */
  datatype Selection = Selection(box: GraphBox, caption: Json)

  const AllSensorsCaption := "Todos los sensores"

  /** `select_quantity`: one sensor's graphs under its name, or every sensor's; nothing otherwise. */
  function SelectQuantity(qty: Json, sensor: Json): (r: Option<Selection>)
    ensures r.Some? <==> qty == JStr("individual") || qty == JStr("todos")
    ensures r.Some? ==> (r.value.box == IndividualGraphs <==> qty == JStr("individual"))
    ensures qty == JStr("individual") ==> r.value.caption == sensor
    ensures qty == JStr("todos") ==> r.value.caption == JStr(AllSensorsCaption)
  {
    if qty == JStr("individual") then Some(Selection(IndividualGraphs, sensor))
    else if qty == JStr("todos") then Some(Selection(AllGraphs, JStr(AllSensorsCaption)))
    else None
  }

  /** `on_startup`: the page title and the initial memory store of session `uid`. */
  function OnStartup(uid: string): (r: (string, Json))
    ensures |r.0| == 8 + |uid| && r.0[..8] == "session_" && r.0[8..] == uid
    ensures r.1.JObj? && Keys(r.1.fields) == ["uid"] && PyIndex(r.1, "uid") == Some(JStr(uid))
  {
    ("session_" + uid, JObj([("uid", JStr(uid))]))
  }

  /** `toggle_offcanvas`: a click flips the panel, anything falsy leaves it as it is. */
  function ToggleOffcanvas(clicks: Json, isOpen: Json): (r: Json)
    ensures Truthy(clicks) ==> r.JBool? && (Truthy(r) <==> !Truthy(isOpen))
    ensures !Truthy(clicks) ==> r == isOpen
  {
    if Truthy(clicks) then JBool(!Truthy(isOpen)) else isOpen
  }

  /** Two clicks bring the panel back to its original state. */
  lemma ToggleTwice(clicks: Json, isOpen: Json)
    requires Truthy(clicks)
    ensures Truthy(ToggleOffcanvas(clicks, ToggleOffcanvas(clicks, isOpen))) == Truthy(isOpen)
  {
  }

  // ---------------------------------------------------------------------------------
  // store_data
  // ---------------------------------------------------------------------------------

  function Min(a: nat, b: nat): (m: nat)
    ensures m <= a && m <= b && (m == a || m == b)
  {
    if a < b then a else b
  }

  /** `base` after the first `n` steps of `for k, v in zip(keys, values): d[k] = v`. */
  function PutAll(base: Dict<Json>, keys: seq<string>, values: seq<Json>, n: nat): Dict<Json>
    requires n <= |keys| && n <= |values|
  {
    if n == 0 then base else Put(PutAll(base, keys, values, n - 1), keys[n - 1], values[n - 1])
  }

  /** One sensor's record: parameter names paired with readings, up to the shorter of the two. */
  function Record(params: seq<string>, values: seq<Json>): Dict<Json> {
    PutAll([], params, values, Min(|params|, |values|))
  }

  /** Each sensor's stored record, as a store value. */
  function Records(params: seq<string>, readings: seq<seq<Json>>): (r: seq<Json>)
    ensures |r| == |readings| && forall k :: 0 <= k < |readings| ==> r[k] == JObj(Record(params, readings[k]))
  {
    seq(|readings|, k requires 0 <= k < |readings| => JObj(Record(params, readings[k])))
  }

  /** The whole snapshot: the session uid, then one record per configured sensor. */
  function Snapshot(uid: Json, sensors: seq<string>, params: seq<string>, readings: seq<seq<Json>>): Dict<Json> {
    PutAll([("uid", uid)], sensors, Records(params, readings), Min(|sensors|, |readings|))
  }

  /** The inner loop of `store_data`: one sensor's readings under the parameter-map keys. */
  method BuildRecord(params: seq<string>, values: seq<Json>) returns (rec: Dict<Json>)
    ensures rec == Record(params, values)
  {
    rec := [];
    for j := 0 to Min(|params|, |values|)
      invariant rec == PutAll([], params, values, j)
    {
      rec := Put(rec, params[j], values[j]);
    }
  }

  /**
   * `store_data`: the new memory store built from this tick's readings, one array per
   * configured sensor. `written` is whether the database insert of the readings returned
   * (the insert itself is not modelled); a store without a 'uid' or a failed insert makes
   * the callback raise.
   */
  method StoreData(data: Json, sensors: seq<string>, params: seq<string>, readings: seq<seq<Json>>, written: bool)
    returns (r: Outcome<Json>)
    ensures r.Returns? <==> PyIndex(data, "uid").Some? && written
    ensures r.Returns? ==> r.value == JObj(Snapshot(PyIndex(data, "uid").value, sensors, params, readings))
  {
    var uid := PyIndex(data, "uid");
    if uid.None? || !written {
      return Raises;
    }
    var tmp: Dict<Json> := [("uid", uid.value)];
    ghost var records := Records(params, readings);
    for k := 0 to Min(|sensors|, |readings|)
      invariant tmp == PutAll([("uid", uid.value)], sensors, records, k)
    {
      var rec := BuildRecord(params, readings[k]);
      assert records[k] == JObj(rec);
      tmp := Put(tmp, sensors[k], JObj(rec));
    }
    return Returns(JObj(tmp));
  }

  predicate Distinct(s: seq<string>) {
    forall i, j :: 0 <= i < j < |s| ==> s[i] != s[j]
  }

  /** The first `n` pairs of `zip(keys, values)`. */
  function Zip(keys: seq<string>, values: seq<Json>, n: nat): (r: seq<(string, Json)>)
    requires n <= |keys| && n <= |values|
    ensures |r| == n
  {
    if n == 0 then [] else Zip(keys, values, n - 1) + [(keys[n - 1], values[n - 1])]
  }

  /** Pair `i` of the zip is key `i` with value `i`. */
  lemma {:induction false} ZipAt(keys: seq<string>, values: seq<Json>, n: nat, i: nat)
    requires i < n <= |keys| && n <= |values|
    ensures Zip(keys, values, n)[i] == (keys[i], values[i])
  {
    if i < n - 1 {
      ZipAt(keys, values, n - 1, i);
    }
  }

  lemma {:induction false} ZipKeys(keys: seq<string>, values: seq<Json>, n: nat)
    requires n <= |keys| && n <= |values|
    ensures Keys(Zip(keys, values, n)) == keys[..n]
  {
    if n > 0 {
      ZipKeys(keys, values, n - 1);
      KeysAppend(Zip(keys, values, n - 1), [(keys[n - 1], values[n - 1])]);
      assert keys[..n] == keys[..n - 1] + [keys[n - 1]];
    }
  }

  /** With distinct new keys, the updates append: the result is `base` followed by the zip. */
  lemma PutAllAppends(base: Dict<Json>, keys: seq<string>, values: seq<Json>, n: nat)
    requires Distinct(keys) && n <= |keys| && n <= |values|
    requires forall i :: 0 <= i < |keys| ==> keys[i] !in Keys(base)
    ensures PutAll(base, keys, values, n) == base + Zip(keys, values, n)
  {
    for m := 0 to n
      invariant PutAll(base, keys, values, m) == base + Zip(keys, values, m)
    {
      NotEarlier(keys, m);
      FreshKey(base, keys, values, m);
      PutAllStep(base, keys, values, m + 1);
    }
  }

  /** In a list of distinct keys, key `n` is not among the first `n`. */
  lemma NotEarlier(keys: seq<string>, n: nat)
    requires Distinct(keys) && n < |keys|
    ensures keys[n] !in keys[..n]
  {
  }

  /** The next key is not among the keys already placed. */
  lemma FreshKey(base: Dict<Json>, keys: seq<string>, values: seq<Json>, n: nat)
    requires n < |keys| && n <= |values| && keys[n] !in Keys(base) && keys[n] !in keys[..n]
    requires PutAll(base, keys, values, n) == base + Zip(keys, values, n)
    ensures keys[n] !in Keys(PutAll(base, keys, values, n))
  {
    ZipKeys(keys, values, n);
    KeysAppend(base, Zip(keys, values, n));
  }

  /** Once the placed pairs are `base` and the zip, the next fresh pair extends the zip. */
  lemma PutAllStep(base: Dict<Json>, keys: seq<string>, values: seq<Json>, n: nat)
    requires 0 < n <= |keys| && n <= |values|
    requires keys[n - 1] !in Keys(PutAll(base, keys, values, n - 1))
    requires PutAll(base, keys, values, n - 1) == base + Zip(keys, values, n - 1)
    ensures PutAll(base, keys, values, n) == base + Zip(keys, values, n)
  {
    PutAllSnoc(base, keys, values, n);
    ZipSnoc(keys, values, n);
    SnocAssoc(base, Zip(keys, values, n - 1), (keys[n - 1], values[n - 1]));
  }

  /** A fresh key is appended after the pairs already placed. */
  lemma PutAllSnoc(base: Dict<Json>, keys: seq<string>, values: seq<Json>, n: nat)
    requires 0 < n <= |keys| && n <= |values|
    requires keys[n - 1] !in Keys(PutAll(base, keys, values, n - 1))
    ensures PutAll(base, keys, values, n) == PutAll(base, keys, values, n - 1) + [(keys[n - 1], values[n - 1])]
  {
  }

  lemma ZipSnoc(keys: seq<string>, values: seq<Json>, n: nat)
    requires 0 < n <= |keys| && n <= |values|
    ensures Zip(keys, values, n) == Zip(keys, values, n - 1) + [(keys[n - 1], values[n - 1])]
  {
  }

  lemma SnocAssoc(a: seq<(string, Json)>, b: seq<(string, Json)>, e: (string, Json))
    ensures (a + b) + [e] == a + (b + [e])
  {
  }

  lemma KeysAppend(a: seq<(string, Json)>, b: seq<(string, Json)>)
    ensures Keys(a + b) == Keys(a) + Keys(b)
  {
  }

  /** With distinct parameter names the record is the positional zip, truncated to the shorter side. */
  lemma RecordIsZip(params: seq<string>, values: seq<Json>)
    requires Distinct(params)
    ensures Record(params, values) == Zip(params, values, Min(|params|, |values|))
  {
    PutAllAppends([], params, values, Min(|params|, |values|));
  }

  /** Parameter i of a stored record is reading i, for every i the zip reaches. */
  lemma RecordGet(params: seq<string>, values: seq<Json>, i: nat)
    requires Distinct(params) && i < |params| && i < |values|
    ensures params[i] in Keys(Record(params, values)) && Get(Record(params, values), params[i]) == values[i]
  {
    RecordIsZip(params, values);
    ZipAt(params, values, Min(|params|, |values|), i);
    GetAt(Record(params, values), i);
  }

  /**
   * With distinct sensor keys other than 'uid', the snapshot is the uid followed by one
   * record per sensor, in configuration order.
   */
  lemma SnapshotIsZip(uid: Json, sensors: seq<string>, params: seq<string>, readings: seq<seq<Json>>)
    requires Distinct(sensors) && "uid" !in sensors
    ensures Snapshot(uid, sensors, params, readings)
      == [("uid", uid)] + Zip(sensors, Records(params, readings), Min(|sensors|, |readings|))
  {
    var base: Dict<Json> := [("uid", uid)];
    assert Keys(base) == ["uid"];
    PutAllAppends(base, sensors, Records(params, readings), Min(|sensors|, |readings|));
  }

  /** The snapshot keeps the incoming uid and holds one record per sensor the zip reaches. */
  lemma SnapshotShape(uid: Json, sensors: seq<string>, params: seq<string>, readings: seq<seq<Json>>, k: nat)
    requires Distinct(sensors) && "uid" !in sensors && k < |sensors| && k < |readings|
    ensures var s := Snapshot(uid, sensors, params, readings);
      Keys(s) == ["uid"] + sensors[..Min(|sensors|, |readings|)] && Get(s, "uid") == uid &&
      Get(s, sensors[k]) == JObj(Record(params, readings[k]))
  {
    var n := Min(|sensors|, |readings|);
    var records := Records(params, readings);
    var s := Snapshot(uid, sensors, params, readings);
    SnapshotIsZip(uid, sensors, params, readings);
    ZipFront(s, uid, sensors, records, n, k);
    assert records[k] == JObj(Record(params, readings[k]));
  }

  /** The keys and the first and (k+1)-th values of the uid entry followed by a zip. */
  lemma ZipFront(s: Dict<Json>, uid: Json, keys: seq<string>, values: seq<Json>, n: nat, k: nat)
    requires k < n <= |keys| && n <= |values| && s == [("uid", uid)] + Zip(keys, values, n)
    ensures Keys(s) == ["uid"] + keys[..n] && Get(s, "uid") == uid && Get(s, keys[k]) == values[k]
  {
    ZipKeys(keys, values, n);
    KeysAppend([("uid", uid)], Zip(keys, values, n));
    GetAt(s, 0);
    ZipEntry(s, uid, keys, values, n, k);
  }

  /** Sensor k's entry of the snapshot is its record. */
  lemma SnapshotGet(uid: Json, sensors: seq<string>, params: seq<string>, readings: seq<seq<Json>>, k: nat)
    requires Distinct(sensors) && "uid" !in sensors && k < |sensors| && k < |readings|
    ensures var s := Snapshot(uid, sensors, params, readings);
      sensors[k] in Keys(s) && Get(s, sensors[k]) == JObj(Record(params, readings[k]))
  {
    SnapshotIsZip(uid, sensors, params, readings);
    ZipEntry(Snapshot(uid, sensors, params, readings), uid, sensors, Records(params, readings), Min(|sensors|, |readings|), k);
  }

  lemma ZipEntry(s: Dict<Json>, uid: Json, keys: seq<string>, values: seq<Json>, n: nat, k: nat)
    requires k < n <= |keys| && n <= |values| && s == [("uid", uid)] + Zip(keys, values, n)
    ensures keys[k] in Keys(s) && Get(s, keys[k]) == values[k]
  {
    ZipAt(keys, values, n, k);
    assert s[k + 1] == (keys[k], values[k]);
    GetAt(s, k + 1);
  }

  /** The store `on_startup` writes is one `store_data` accepts, and its uid is carried on. */
  lemma StartupThenStore(uid: string, sensors: seq<string>, params: seq<string>, readings: seq<seq<Json>>)
    requires Distinct(sensors) && "uid" !in sensors
    ensures PyIndex(OnStartup(uid).1, "uid") == Some(JStr(uid))
    ensures var s := Snapshot(JStr(uid), sensors, params, readings);
      "uid" in Keys(s) && Get(s, "uid") == JStr(uid)
  {
    SnapshotIsZip(JStr(uid), sensors, params, readings);
    GetAt(Snapshot(JStr(uid), sensors, params, readings), 0);
  }

  // ---------------------------------------------------------------------------------
  // update_lines, update_bars
  // ---------------------------------------------------------------------------------

  /** `data[sensor]` as a record whose `.items()` can be read; anything else raises. */
  function SensorRecord(data: Json, sensor: Option<string>): (r: Option<Dict<Json>>)
    ensures r.Some? <==> sensor.Some? && PyIndex(data, sensor.value).Some? && PyIndex(data, sensor.value).value.JObj?
  {
    if sensor.None? then None
    else match PyIndex(data, sensor.value)
      case Some(JObj(f)) => Some(f)
      case _ => None
  }

  /** Whether `key in checked` can be asked; a missing checklist raises on the first key. */
  predicate Searchable(checked: Json) {
    !(checked.JNull? || checked.JBool? || checked.JNum?)
  }

  /** One row of a line or bar payload: the value if its key is checked, else a gap. */
  function MaskedRow(key: string, value: Json, checked: Json): seq<Json>
    requires Searchable(checked)
  {
    if PyIn(key, checked) == Some(true) then [value] else [JNull]
  }

  /** The loop shared by `update_lines` and `update_bars`. */
  method MaskRecord(rec: Dict<Json>, checked: Json) returns (r: Outcome<seq<seq<Json>>>)
    ensures r.Returns? <==> |rec| == 0 || Searchable(checked)
    ensures r.Returns? ==> |r.value| == |rec|
    ensures r.Returns? && Searchable(checked) ==>
      forall i :: 0 <= i < |rec| ==> r.value[i] == MaskedRow(rec[i].0, rec[i].1, checked)
  {
    if |rec| > 0 && !Searchable(checked) {
      return Raises;
    }
    var toPlot: seq<seq<Json>> := [];
    for i := 0 to |rec|
      invariant |toPlot| == i
      invariant forall j :: 0 <= j < i ==> toPlot[j] == MaskedRow(rec[j].0, rec[j].1, checked)
    {
      var isChecked := PyIn(rec[i].0, checked);
      if isChecked == Some(true) {
        toPlot := toPlot + [[rec[i].1]];
      } else {
        toPlot := toPlot + [[JNull]];
      }
    }
    return Returns(toPlot);
  }

  /** `update_lines`: one point per key of the selected record, all at the timer's tick. */
  method UpdateLines(sensor: Option<string>, checked: Json, timer: Json, data: Json)
    returns (r: Outcome<Extend<Json>>)
    ensures r.Returns? <==> SensorRecord(data, sensor).Some? && (|SensorRecord(data, sensor).value| == 0 || Searchable(checked))
    ensures r.Returns? ==> var rec := SensorRecord(data, sensor).value;
      |r.value.y| == |rec| && r.value.x == Column(|rec|, timer) &&
      r.value.traces == Range(0, |rec|) && r.value.maxPoints == 15
    ensures r.Returns? && Searchable(checked) ==> var rec := SensorRecord(data, sensor).value;
      forall i :: 0 <= i < |rec| ==> r.value.y[i] == MaskedRow(rec[i].0, rec[i].1, checked)
  {
    var rec := SensorRecord(data, sensor);
    if rec.None? {
      return Raises;
    }
    var toPlot := MaskRecord(rec.value, checked);
    if toPlot.Raises? {
      return Raises;
    }
    var n := |toPlot.value|;
    return Returns(Extend(Column(n, timer), toPlot.value, Range(0, n), 15));
  }

  /** `update_bars`: the same rows, bar i at x = i. */
  method UpdateBars(sensor: Option<string>, checked: Json, timer: Json, data: Json)
    returns (r: Outcome<Extend<Json>>)
    ensures r.Returns? <==> SensorRecord(data, sensor).Some? && (|SensorRecord(data, sensor).value| == 0 || Searchable(checked))
    ensures r.Returns? ==> var rec := SensorRecord(data, sensor).value;
      |r.value.y| == |rec| && r.value.traces == Range(0, |rec|) && r.value.maxPoints == 1 &&
      |r.value.x| == |rec| && forall i :: 0 <= i < |rec| ==> r.value.x[i] == [JNum(i as real)]
    ensures r.Returns? && Searchable(checked) ==> var rec := SensorRecord(data, sensor).value;
      forall i :: 0 <= i < |rec| ==> r.value.y[i] == MaskedRow(rec[i].0, rec[i].1, checked)
  {
    var rec := SensorRecord(data, sensor);
    if rec.None? {
      return Raises;
    }
    var toPlot := MaskRecord(rec.value, checked);
    if toPlot.Raises? {
      return Raises;
    }
    var n := |toPlot.value|;
    var xs := seq(n, i requires 0 <= i < n => [JNum(i as real)]);
    return Returns(Extend(xs, toPlot.value, Range(0, n), 1));
  }

  /** A snapshot `store_data` built hands `update_lines` the sensor's own record. */
  lemma StoredRecord(uid: Json, sensors: seq<string>, params: seq<string>, readings: seq<seq<Json>>, k: nat)
    requires Distinct(sensors) && "uid" !in sensors && k < |sensors| && k < |readings|
    ensures SensorRecord(JObj(Snapshot(uid, sensors, params, readings)), Some(sensors[k])) == Some(Record(params, readings[k]))
  {
    SnapshotGet(uid, sensors, params, readings, k);
  }

  /** A checklist value: the names of the checked boxes. */
  function Checklist(names: seq<string>): (j: Json)
    ensures j.JArr? && |j.items| == |names| && forall c :: 0 <= c < |names| ==> j.items[c] == JStr(names[c])
  {
    JArr(seq(|names|, c requires 0 <= c < |names| => JStr(names[c])))
  }

  /** Against a checklist, a row holds the value exactly when its key is checked. */
  lemma CheckedRow(key: string, value: Json, names: seq<string>)
    ensures MaskedRow(key, value, Checklist(names)) == if key in names then [value] else [JNull]
  {
    var items := Checklist(names).items;
    if key in names {
      var c :| 0 <= c < |names| && names[c] == key;
      assert items[c] == JStr(key);
    } else {
      assert JStr(key) !in items;
    }
  }

  /**
   * Drawn from a snapshot `store_data` built, row i of a sensor's lines and bars is its
   * reading i when parameter i is checked and a gap otherwise.
   */
  lemma StoredRowsMasked(uid: Json, sensors: seq<string>, params: seq<string>, readings: seq<seq<Json>>,
                         k: nat, names: seq<string>, i: nat)
    requires Distinct(sensors) && "uid" !in sensors && k < |sensors| && k < |readings|
    requires Distinct(params) && i < |params| && i < |readings[k]|
    ensures SensorRecord(JObj(Snapshot(uid, sensors, params, readings)), Some(sensors[k])).Some?
    ensures var rec := SensorRecord(JObj(Snapshot(uid, sensors, params, readings)), Some(sensors[k])).value;
      i < |rec| && MaskedRow(rec[i].0, rec[i].1, Checklist(names)) == if params[i] in names then [readings[k][i]] else [JNull]
  {
    StoredRecord(uid, sensors, params, readings, k);
    RecordIsZip(params, readings[k]);
    ZipAt(params, readings[k], Min(|params|, |readings[k]|), i);
    CheckedRow(params[i], readings[k][i], names);
  }

  // ---------------------------------------------------------------------------------
  // update_heatmap
  // ---------------------------------------------------------------------------------

  /** `data[key][metric]`, raising when either lookup fails. */
  function Metric(data: Json, key: string, metric: string): Option<Json> {
    match PyIndex(data, key)
    case Some(rec) => PyIndex(rec, metric)
    case None => None
  }

  /** Every configured sensor has an attention and a meditation reading. */
  predicate HeatReady(data: Json, sensors: seq<string>) {
    forall k :: 0 <= k < |sensors| ==> Metric(data, sensors[k], "attention").Some? && Metric(data, sensors[k], "meditation").Some?
  }

  /** The two heatmap cells of one sensor, `[[attention]]` then `[[meditation]]`. */
  function SensorCells(data: Json, key: string): (r: Option<seq<seq<seq<Json>>>>)
    ensures r.Some? <==> Metric(data, key, "attention").Some? && Metric(data, key, "meditation").Some?
    ensures r.Some? ==> r.value == [[[Metric(data, key, "attention").value]], [[Metric(data, key, "meditation").value]]]
  {
    var attention := Metric(data, key, "attention");
    var meditation := Metric(data, key, "meditation");
    if attention.None? || meditation.None? then None else Some([[[attention.value]], [[meditation.value]]])
  }

  /** The cells of the sensors in order, or `None` once one of them lacks a reading. */
  function Cells(data: Json, sensors: seq<string>): Option<seq<seq<seq<Json>>>> {
    if |sensors| == 0 then Some([])
    else
      match Cells(data, sensors[..|sensors| - 1])
      case None => None
      case Some(z) =>
        match SensorCells(data, sensors[|sensors| - 1])
        case None => None
        case Some(c) => Some(z + c)
  }

  /**
   * `update_heatmap`: the cells of every configured sensor, all at the timer's tick; a sensor
   * without either reading makes the callback raise.
   */
  method UpdateHeatmap(timer: Json, data: Json, sensors: seq<string>) returns (r: Outcome<HeatExtend<Json>>)
    ensures r.Returns? <==> Cells(data, sensors).Some?
    ensures r.Returns? ==> r.value.z == Cells(data, sensors).value
    ensures r.Returns? ==> r.value.y == Column(2 * |sensors|, timer) && r.value.traces == Range(0, 2 * |sensors|)
    ensures r.Returns? ==> r.value.maxPoints == 30
  {
    var toZ: seq<seq<seq<Json>>> := [];
    for k := 0 to |sensors|
      invariant Cells(data, sensors[..k]) == Some(toZ)
    {
      CellsExtend(data, sensors, k);
      var cells := SensorCells(data, sensors[k]);
      if cells.None? {
        CellsFail(data, sensors, k + 1);
        return Raises;
      }
      toZ := toZ + cells.value;
    }
    assert sensors[..|sensors|] == sensors;
    var n := 2 * |sensors|;
    return Returns(HeatExtend(toZ, Column(n, timer), Range(0, n), 30));
  }

  /** One more sensor: its two cells are appended, or the whole prefix fails. */
  lemma CellsExtend(data: Json, sensors: seq<string>, k: nat)
    requires k < |sensors| && Cells(data, sensors[..k]).Some?
    ensures Cells(data, sensors[..k + 1]) ==
      if SensorCells(data, sensors[k]).None? then None
      else Some(Cells(data, sensors[..k]).value + SensorCells(data, sensors[k]).value)
  {
    var next := sensors[..k + 1];
    assert next[..|next| - 1] == sensors[..k];
    assert next[|next| - 1] == sensors[k];
  }

  /** Once a prefix of the sensors fails, the whole list does. */
  lemma {:induction false} CellsFail(data: Json, sensors: seq<string>, k: nat)
    requires k <= |sensors| && Cells(data, sensors[..k]).None?
    ensures Cells(data, sensors).None?
    decreases |sensors| - k
  {
    if k < |sensors| {
      assert sensors[..k + 1][..k] == sensors[..k];
      CellsFail(data, sensors, k + 1);
    } else {
      assert sensors[..k] == sensors;
    }
  }

  /**
   * The cells exist exactly when every sensor has both readings; then there are two per
   * sensor, attention at 2k and meditation at 2k+1.
   */
  lemma {:induction false} CellsShape(data: Json, sensors: seq<string>)
    ensures Cells(data, sensors).Some? <==> HeatReady(data, sensors)
    ensures Cells(data, sensors).Some? ==> |Cells(data, sensors).value| == 2 * |sensors|
  {
    if |sensors| > 0 {
      CellsShape(data, sensors[..|sensors| - 1]);
      CellsStep(data, sensors);
      HeatReadyStep(data, sensors);
    }
  }

  /** The cells of a non-empty list: those of all but the last sensor, then the last one's two. */
  lemma CellsStep(data: Json, sensors: seq<string>)
    requires |sensors| > 0
    ensures var init := Cells(data, sensors[..|sensors| - 1]);
      var last := SensorCells(data, sensors[|sensors| - 1]);
      && (Cells(data, sensors).Some? <==> init.Some? && last.Some?)
      && (Cells(data, sensors).Some? ==> |Cells(data, sensors).value| == |init.value| + 2)
  {
  }

  /** One more sensor is drawable exactly when the earlier ones are and it has both readings. */
  lemma HeatReadyStep(data: Json, sensors: seq<string>)
    requires |sensors| > 0
    ensures var init := sensors[..|sensors| - 1];
      var last := sensors[|sensors| - 1];
      HeatReady(data, sensors) <==>
        HeatReady(data, init) && Metric(data, last, "attention").Some? && Metric(data, last, "meditation").Some?
  {
    var init := sensors[..|sensors| - 1];
    if HeatReady(data, sensors) {
      forall k | 0 <= k < |init|
        ensures Metric(data, init[k], "attention").Some? && Metric(data, init[k], "meditation").Some?
      {
        assert init[k] == sensors[k];
      }
    }
    if HeatReady(data, init) {
      forall k | 0 <= k < |sensors| - 1
        ensures Metric(data, sensors[k], "attention").Some? && Metric(data, sensors[k], "meditation").Some?
      {
        assert init[k] == sensors[k];
      }
    }
  }

  /** Cell 2k is sensor k's attention, cell 2k+1 its meditation. */
  lemma {:induction false} CellAt(data: Json, sensors: seq<string>, k: nat)
    requires Cells(data, sensors).Some? && k < |sensors|
    ensures 2 * k + 1 < |Cells(data, sensors).value|
    ensures Metric(data, sensors[k], "attention").Some? && Metric(data, sensors[k], "meditation").Some?
    ensures Cells(data, sensors).value[2 * k] == [[Metric(data, sensors[k], "attention").value]]
    ensures Cells(data, sensors).value[2 * k + 1] == [[Metric(data, sensors[k], "meditation").value]]
  {
    var init := sensors[..|sensors| - 1];
    CellsShape(data, init);
    CellsShape(data, sensors);
    if k < |sensors| - 1 {
      CellAt(data, init, k);
      assert init[k] == sensors[k];
    }
  }

  /**
   * A snapshot `store_data` built from parameters that name attention and meditation is
   * always drawable: cell 2k is sensor k's attention reading.
   */
  lemma StoredHeatReady(uid: Json, sensors: seq<string>, params: seq<string>, readings: seq<seq<Json>>, a: nat, m: nat)
    requires Distinct(sensors) && "uid" !in sensors && |sensors| <= |readings|
    requires Distinct(params) && a < |params| && m < |params| && params[a] == "attention" && params[m] == "meditation"
    requires forall k :: 0 <= k < |readings| ==> |readings[k]| == |params|
    ensures HeatReady(JObj(Snapshot(uid, sensors, params, readings)), sensors)
    ensures forall k :: 0 <= k < |sensors| ==>
      Metric(JObj(Snapshot(uid, sensors, params, readings)), sensors[k], "attention") == Some(readings[k][a])
  {
    var data := JObj(Snapshot(uid, sensors, params, readings));
    forall k | 0 <= k < |sensors|
      ensures Metric(data, sensors[k], "attention") == Some(readings[k][a])
      ensures Metric(data, sensors[k], "meditation") == Some(readings[k][m])
    {
      StoredMetrics(uid, sensors, params, readings, a, m, k);
    }
  }

  lemma StoredMetrics(uid: Json, sensors: seq<string>, params: seq<string>, readings: seq<seq<Json>>, a: nat, m: nat, k: nat)
    requires Distinct(sensors) && "uid" !in sensors && k < |sensors| && k < |readings|
    requires Distinct(params) && a < |params| && m < |params| && params[a] == "attention" && params[m] == "meditation"
    requires |readings[k]| == |params|
    ensures var data := JObj(Snapshot(uid, sensors, params, readings));
      Metric(data, sensors[k], "attention") == Some(readings[k][a]) &&
      Metric(data, sensors[k], "meditation") == Some(readings[k][m])
  {
    SnapshotGet(uid, sensors, params, readings, k);
    RecordGet(params, readings[k], a);
    RecordGet(params, readings[k], m);
  }
}
