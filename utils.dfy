/**
 * The helpers of the live dashboard: averaging sensor arrays, the session id taken from a
 * file name, and the factories that lay out one trace, heatmap cell or event button per
 * configured entry.
 */
module Utils {
  import opened Wrappers
  import opened Dicts
  import opened JsonValues
  import opened Text
  import opened Numbers

  // ---------------------------------------------------------------------------------
  // avg_data
  // ---------------------------------------------------------------------------------

  /** All arrays have the length of the first (numpy refuses to stack ragged arrays). */
  predicate Rectangular(arrays: seq<seq<real>>) {
    forall k :: 0 <= k < |arrays| ==> |arrays[k]| == |arrays[0]|
  }

  /** The i-th entries of all arrays. */
  function Column(arrays: seq<seq<real>>, i: nat): (c: seq<real>)
    requires Rectangular(arrays) && |arrays| > 0 && i < |arrays[0]|
    ensures |c| == |arrays| && forall k :: 0 <= k < |arrays| ==> c[k] == arrays[k][i]
  {
    seq(|arrays|, k requires 0 <= k < |arrays| => arrays[k][i])
  }

  /**
   * What `np.average(np.array(to_avg), axis=0)` gives: the entry-wise means; NaN for the
   * empty call (numpy averages an empty array, with a warning); an error for ragged arrays.
   */
  datatype Average = Means(values: seq<real>) | NotANumber | Ragged

  /**
   * `avg_data`: keeps every array (on a numeric array `.any()` is a boolean, never `None`)
   * and averages them entry by entry.
   */
  method AvgData(arrays: seq<seq<real>>) returns (r: Average)
    ensures r.NotANumber? <==> |arrays| == 0
    ensures r.Ragged? <==> |arrays| > 0 && !Rectangular(arrays)
    ensures r.Means? ==> |r.values| == |arrays[0]|
    ensures r.Means? ==> forall i :: 0 <= i < |r.values| ==> r.values[i] == Mean(Column(arrays, i))
  {
    var toAvg: seq<seq<real>> := [];
    for k := 0 to |arrays|
      invariant toAvg == arrays[..k]
    {
      toAvg := toAvg + [arrays[k]];
    }
    assert toAvg == arrays;
    if |toAvg| == 0 {
      return NotANumber;
    }
    if !Rectangular(toAvg) {
      return Ragged;
    }
    return Means(seq(|toAvg[0]|, i requires 0 <= i < |toAvg[0]| => Mean(Column(toAvg, i))));
  }

  /** The average of one array is that array, value for value. */
  lemma AverageOfOne(a: seq<real>, i: nat)
    requires i < |a|
    ensures Mean(Column([a], i)) == a[i]
  {
    MeanOfEqual(Column([a], i), a[i]);
  }

  /** Each averaged entry lies between the smallest and the largest reading at that position. */
  lemma AverageWithin(arrays: seq<seq<real>>, i: nat, lo: real, hi: real)
    requires |arrays| > 0 && Rectangular(arrays) && i < |arrays[0]|
    requires forall k :: 0 <= k < |arrays| ==> lo <= arrays[k][i] <= hi
    ensures lo <= Mean(Column(arrays, i)) <= hi
  {
    MeanWithin(Column(arrays, i), lo, hi);
  }

  // ---------------------------------------------------------------------------------
  // get_uid
  // ---------------------------------------------------------------------------------

  /** The number of digits at the start of `s`. */
  function LeadingDigits(s: string): (n: nat)
    ensures n <= |s|
    ensures forall i :: 0 <= i < n ==> IsDigit(s[i])
    ensures n < |s| ==> !IsDigit(s[n])
  {
    if |s| == 0 || !IsDigit(s[0]) then 0 else 1 + LeadingDigits(s[1..])
  }

  /** `re.findall(r"\d+", s)`: the maximal runs of digits, left to right. */
  function DigitRuns(s: string): (runs: seq<string>)
    ensures forall k :: 0 <= k < |runs| ==> |runs[k]| > 0 && forall i :: 0 <= i < |runs[k]| ==> IsDigit(runs[k][i])
    decreases |s|
  {
    if |s| == 0 then []
    else if !IsDigit(s[0]) then DigitRuns(s[1..])
    else
      var n := LeadingDigits(s);
      [s[..n]] + DigitRuns(s[n..])
  }

  /** `get_uid`. */
  function GetUid(name: string): seq<string> {
    DigitRuns(name)
  }

  /** The digits of `s` in order, everything else dropped. */
  function DigitsOf(s: string): string {
    if |s| == 0 then "" else (if IsDigit(s[0]) then [s[0]] else "") + DigitsOf(s[1..])
  }

  function Concat(parts: seq<string>): string {
    if |parts| == 0 then "" else parts[0] + Concat(parts[1..])
  }

  lemma {:induction false} DigitsOfLeading(s: string, n: nat)
    requires n <= |s| && forall i :: 0 <= i < n ==> IsDigit(s[i])
    ensures DigitsOf(s) == s[..n] + DigitsOf(s[n..])
  {
    if n > 0 {
      DigitsOfLeading(s[1..], n - 1);
      assert s[1..][n - 1..] == s[n..];
      assert [s[0]] + s[1..][..n - 1] == s[..n];
    }
  }

  /** The runs hold every digit of the name and nothing else, in order. */
  lemma {:induction false} RunsCoverDigits(s: string)
    ensures Concat(DigitRuns(s)) == DigitsOf(s)
    decreases |s|
  {
    if |s| > 0 {
      if !IsDigit(s[0]) {
        RunsCoverDigits(s[1..]);
      } else {
        var n := LeadingDigits(s);
        RunsCoverDigits(s[n..]);
        DigitsOfLeading(s, n);
        assert ([s[..n]] + DigitRuns(s[n..]))[1..] == DigitRuns(s[n..]);
      }
    }
  }

  lemma {:induction false} LeadingDigitsBefore(a: string, c: char, b: string)
    requires !IsDigit(c)
    ensures LeadingDigits(a + [c] + b) == LeadingDigits(a) <= |a|
  {
    if |a| > 0 {
      assert (a + [c] + b)[1..] == a[1..] + [c] + b;
      LeadingDigitsBefore(a[1..], c, b);
    } else {
      assert a + [c] + b == [c] + b;
    }
  }

  /** A non-digit separates runs: the runs of `a c b` are the runs of `a` followed by those of `b`. */
  lemma {:induction false} RunsSplitAtNonDigit(a: string, c: char, b: string)
    requires !IsDigit(c)
    ensures DigitRuns(a + [c] + b) == DigitRuns(a) + DigitRuns(b)
    decreases |a|
  {
    var s := a + [c] + b;
    if |a| == 0 {
      assert s == [c] + b;
      assert s[1..] == b;
    } else if !IsDigit(a[0]) {
      assert s[1..] == a[1..] + [c] + b;
      RunsSplitAtNonDigit(a[1..], c, b);
    } else {
      var n := LeadingDigits(s);
      LeadingDigitsBefore(a, c, b);
      assert s[..n] == a[..n];
      assert s[n..] == a[n..] + [c] + b;
      RunsSplitAtNonDigit(a[n..], c, b);
    }
  }

  /** A name made only of digits is a single run. */
  lemma AllDigitsOneRun(s: string)
    requires |s| > 0 && forall i :: 0 <= i < |s| ==> IsDigit(s[i])
    ensures DigitRuns(s) == [s]
  {
    var n := LeadingDigits(s);
    assert n == |s|;
    assert s[..n] == s;
  }

  // ---------------------------------------------------------------------------------
  // Factories
  // ---------------------------------------------------------------------------------

  /** One cell of the live heatmap: its column, its colour scale and its fixed z range. */
  datatype Heatmap = Heatmap(x: int, colorscale: string, zmin: int, zmax: int)

  /**
   * `heat_factory`: for i = 0, 2, 4, … below 2n - 1 an attention cell at x = i and a
   * meditation cell at x = i + 1.
   */
  method HeatFactory(sensors: seq<string>) returns (tmp: seq<Heatmap>)
    ensures |tmp| == 2 * |sensors|
    ensures forall k :: 0 <= k < |tmp| ==>
      tmp[k] == Heatmap(k, if k % 2 == 0 then "sunsetdark" else "deep", 0, 100)
  {
    tmp := [];
    var i := 0;
    while i < 2 * |sensors| - 1
      invariant 0 <= i <= 2 * |sensors| && i % 2 == 0 && |tmp| == i
      invariant forall k :: 0 <= k < |tmp| ==>
        tmp[k] == Heatmap(k, if k % 2 == 0 then "sunsetdark" else "deep", 0, 100)
    {
      EvenNext(i);
      tmp := tmp + [Heatmap(i, "sunsetdark", 0, 100)];
      tmp := tmp + [Heatmap(i + 1, "deep", 0, 100)];
      i := i + 2;
    }
  }

  datatype Button = Button(caption: string, color: string, id: string, style: Json)

  /** A Dash `Input(id, prop)`. */
  datatype InputRef = InputRef(id: string, prop: string)

  /**
   * `event_factory`: one button per event, labelled and identified by its key and styled by
   * its value, and the callback inputs: the start and end buttons, then one per event.
   */
  method EventFactory(events: Dict<Json>) returns (components: seq<Button>, inputs: seq<InputRef>)
    ensures |components| == |events| && |inputs| == 2 + |events|
    ensures inputs[0] == InputRef("inicio", "n_clicks") && inputs[1] == InputRef("final", "n_clicks")
    ensures forall k :: 0 <= k < |events| ==>
      components[k] == Button(events[k].0, "secondary", events[k].0, events[k].1) &&
      inputs[2 + k] == InputRef(events[k].0, "n_clicks")
    ensures forall j, k :: 0 <= j < k < |components| ==> components[j].id != components[k].id
  {
    components := [];
    inputs := [InputRef("inicio", "n_clicks"), InputRef("final", "n_clicks")];
    for k := 0 to |events|
      invariant |components| == k && |inputs| == 2 + k
      invariant inputs[0] == InputRef("inicio", "n_clicks") && inputs[1] == InputRef("final", "n_clicks")
      invariant forall j :: 0 <= j < k ==>
        components[j] == Button(events[j].0, "secondary", events[j].0, events[j].1) &&
        inputs[2 + j] == InputRef(events[j].0, "n_clicks")
    {
      var (key, value) := events[k];
      components := components + [Button(key, "secondary", key, value)];
      inputs := inputs + [InputRef(key, "n_clicks")];
    }
  }

  datatype TraceKind = ScatterTrace | BarTrace

  /** An empty trace named after its parameter. */
  datatype Trace = Trace(kind: TraceKind, name: string, mode: Option<string>, x: seq<real>, y: seq<real>)

  /** `scatter_factory`: one empty scatter trace per parameter, in order, drawn with `mode`. */
  method ScatterFactory(params: seq<string>, mode: string) returns (tmp: seq<Trace>)
    ensures |tmp| == |params|
    ensures forall k :: 0 <= k < |params| ==> tmp[k] == Trace(ScatterTrace, params[k], Some(mode), [], [])
  {
    tmp := [];
    for k := 0 to |params|
      invariant |tmp| == k
      invariant forall j :: 0 <= j < k ==> tmp[j] == Trace(ScatterTrace, params[j], Some(mode), [], [])
    {
      tmp := tmp + [Trace(ScatterTrace, params[k], Some(mode), [], [])];
    }
  }

  /** `bar_factory`: one empty bar trace per parameter, in order; the mode is not used. */
  method BarFactory(params: seq<string>, mode: string) returns (tmp: seq<Trace>)
    ensures |tmp| == |params|
    ensures forall k :: 0 <= k < |params| ==> tmp[k] == Trace(BarTrace, params[k], None, [], [])
  {
    tmp := [];
    for k := 0 to |params|
      invariant |tmp| == k
      invariant forall j :: 0 <= j < k ==> tmp[j] == Trace(BarTrace, params[j], None, [], [])
    {
      tmp := tmp + [Trace(BarTrace, params[k], None, [], [])];
    }
  }

  // ---------------------------------------------------------------------------------
  // Column names of the static plots
  // ---------------------------------------------------------------------------------

  /** Every parameter name with `suffix` appended. */
  function Suffixed(params: seq<string>, suffix: string): (r: seq<string>)
    ensures |r| == |params| && forall p :: 0 <= p < |params| ==> r[p] == params[p] + suffix
  {
    seq(|params|, p requires 0 <= p < |params| => params[p] + suffix)
  }

  /** The column names of the chosen sensors: sensor by sensor, each sensor's number after every parameter. */
  function ColumnNames(sensors: seq<string>, sensorsMap: Dict<int>, params: seq<string>): seq<string>
    requires forall s :: s in sensors ==> s in Keys(sensorsMap)
  {
    if |sensors| == 0 then []
    else
      ColumnNames(sensors[..|sensors| - 1], sensorsMap, params) +
      Suffixed(params, IntToString(Get(sensorsMap, sensors[|sensors| - 1])))
  }

  lemma {:induction false} ColumnNamesLength(sensors: seq<string>, sensorsMap: Dict<int>, params: seq<string>)
    requires forall s :: s in sensors ==> s in Keys(sensorsMap)
    ensures |ColumnNames(sensors, sensorsMap, params)| == |sensors| * |params|
  {
    if |sensors| > 0 {
      ColumnNamesLength(sensors[..|sensors| - 1], sensorsMap, params);
      MulStep(|sensors| - 1, |params|);
    }
  }

  /** The index gets `|params|` names per sensor; name `s·|params| + p` is parameter p of sensor s. */
  lemma {:induction false} ColumnNameAt(sensors: seq<string>, sensorsMap: Dict<int>, params: seq<string>, s: nat, p: nat)
    requires forall s :: s in sensors ==> s in Keys(sensorsMap)
    requires s < |sensors| && p < |params|
    ensures s * |params| + p < |ColumnNames(sensors, sensorsMap, params)|
    ensures ColumnNames(sensors, sensorsMap, params)[s * |params| + p] ==
      params[p] + IntToString(Get(sensorsMap, sensors[s]))
  {
    var init := sensors[..|sensors| - 1];
    if s < |init| {
      ColumnNamesSnoc(sensors, sensorsMap, params);
      ColumnNameAt(init, sensorsMap, params, s, p);
      assert init[s] == sensors[s];
      MulNonNeg(s, |params|);
      EarlierSensorAt(sensors, sensorsMap, params, s * |params| + p);
    } else {
      LastSensorAt(sensors, sensorsMap, params, s, p);
    }
  }

  /** A name of the sensors before the last keeps its position once the last sensor's block follows. */
  lemma EarlierSensorAt(sensors: seq<string>, sensorsMap: Dict<int>, params: seq<string>, i: nat)
    requires forall s :: s in sensors ==> s in Keys(sensorsMap)
    requires |sensors| > 0
    requires forall s :: s in sensors[..|sensors| - 1] ==> s in Keys(sensorsMap)
    requires i < |ColumnNames(sensors[..|sensors| - 1], sensorsMap, params)|
    ensures i < |ColumnNames(sensors, sensorsMap, params)|
    ensures ColumnNames(sensors, sensorsMap, params)[i] == ColumnNames(sensors[..|sensors| - 1], sensorsMap, params)[i]
  {
    ColumnNamesSnoc(sensors, sensorsMap, params);
  }

  /** Position `s·|params| + p`, for the last sensor s, is parameter p of that sensor. */
  lemma LastSensorAt(sensors: seq<string>, sensorsMap: Dict<int>, params: seq<string>, s: nat, p: nat)
    requires forall s :: s in sensors ==> s in Keys(sensorsMap)
    requires s + 1 == |sensors| && p < |params|
    ensures s * |params| + p < |ColumnNames(sensors, sensorsMap, params)|
    ensures ColumnNames(sensors, sensorsMap, params)[s * |params| + p] == params[p] + IntToString(Get(sensorsMap, sensors[s]))
  {
    var init := sensors[..s];
    MulNonNeg(s, |params|);
    ColumnNamesSnoc(sensors, sensorsMap, params);
    ColumnNamesLength(init, sensorsMap, params);
    LastBlockAt(ColumnNames(init, sensorsMap, params), Suffixed(params, IntToString(Get(sensorsMap, sensors[s]))), s, p, |params|);
  }

  /** The names of all sensors are those of all but the last, then the last sensor's block. */
  lemma ColumnNamesSnoc(sensors: seq<string>, sensorsMap: Dict<int>, params: seq<string>)
    requires forall s :: s in sensors ==> s in Keys(sensorsMap)
    requires |sensors| > 0
    ensures forall s :: s in sensors[..|sensors| - 1] ==> s in Keys(sensorsMap)
    ensures ColumnNames(sensors, sensorsMap, params) ==
      ColumnNames(sensors[..|sensors| - 1], sensorsMap, params) +
      Suffixed(params, IntToString(Get(sensorsMap, sensors[|sensors| - 1])))
  {
  }

  /** Position `s·m + p` of rows `0..s-1` followed by a block of `m` is entry `p` of the block. */
  lemma LastBlockAt(front: seq<string>, back: seq<string>, s: nat, p: nat, m: nat)
    requires |front| == s * m && |back| == m && p < m
    ensures s * m + p < |front + back| && (front + back)[s * m + p] == back[p]
  {
  }

  /** A prefix of sensors in the map stays in it when the next sensor is. */
  lemma PrefixInMap(sensors: seq<string>, sensorsMap: Dict<int>, i: nat)
    requires i < |sensors| && sensors[i] in Keys(sensorsMap)
    requires forall s :: s in sensors[..i] ==> s in Keys(sensorsMap)
    ensures forall s :: s in sensors[..i + 1] ==> s in Keys(sensorsMap)
  {
    assert sensors[..i + 1] == sensors[..i] + [sensors[i]];
  }

  /** `index += map(lambda x: x + suffix, params)`. */
  method ExtendSuffixed(index: seq<string>, params: seq<string>, suffix: string) returns (r: seq<string>)
    ensures r == index + Suffixed(params, suffix)
  {
    r := index;
    for p := 0 to |params|
      invariant r == index + Suffixed(params[..p], suffix)
    {
      assert Suffixed(params[..p + 1], suffix) == Suffixed(params[..p], suffix) + [params[p] + suffix];
      r := r + [params[p] + suffix];
    }
    assert params[..|params|] == params;
  }

  /**
   * The index loop of `static_line_plot_factory` and `static_heat_plot_factory`:
   * `index += map(lambda x: x + str(SENSORS_MAP[sensor]), SENSOR_PARAMS)` for each sensor;
   * a sensor missing from the map raises `KeyError`.
   */
  method ColumnIndex(sensors: seq<string>, sensorsMap: Dict<int>, params: seq<string>) returns (r: Outcome<seq<string>>)
    ensures r.Returns? <==> forall s :: s in sensors ==> s in Keys(sensorsMap)
    ensures r.Returns? ==> r.value == ColumnNames(sensors, sensorsMap, params)
  {
    var index: seq<string> := [];
    for i := 0 to |sensors|
      invariant forall s :: s in sensors[..i] ==> s in Keys(sensorsMap)
      invariant index == ColumnNames(sensors[..i], sensorsMap, params)
    {
      var sensor := sensors[i];
      if sensor !in Keys(sensorsMap) {
        assert sensor in sensors;
        return Raises;
      }
      var suffix := IntToString(Get(sensorsMap, sensor));
      index := ExtendSuffixed(index, params, suffix);
      PrefixInMap(sensors, sensorsMap, i);
      ColumnNamesSnoc(sensors[..i + 1], sensorsMap, params);
      assert sensors[..i + 1][..i] == sensors[..i];
      assert sensors[..i + 1][i] == sensor;
    }
    assert sensors[..|sensors|] == sensors;
    return Returns(index);
  }
}
