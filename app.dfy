/**
 * The first dashboard's refresh: every sensor's readings are recorded, then the selected
 * sensor's readings are masked by the parameter checklist and sent to a line and a bar graph.
 */
module App {
  import opened Wrappers
  import opened Dicts
  import opened JsonValues
  import opened ExtendData
  import opened Database

  /** `list(keys).index(sensor)`: the first position of the selected sensor; `ValueError` otherwise. */
  function IndexIn(keys: seq<string>, sensor: Option<string>): (r: Option<nat>)
    ensures r.Some? <==> sensor.Some? && sensor.value in keys
    ensures r.Some? ==> r.value < |keys| && keys[r.value] == sensor.value
    ensures r.Some? ==> forall j :: 0 <= j < r.value ==> keys[j] != sensor.value
    decreases |keys|
  {
    if sensor.None? || |keys| == 0 then None
    else if keys[0] == sensor.value then Some(0)
    else match IndexIn(keys[1..], sensor)
      case None => None
      case Some(i) => Some(i + 1)
  }

  /** The element `a[j]` of a length-`n` array denotes: negative indices count from the end. */
  function PyPos(j: int, n: nat): (r: Option<nat>)
    ensures r.Some? <==> -(n as int) <= j < n
    ensures r.Some? ==> r.value < n && (r.value == j || r.value == n + j)
  {
    if 0 <= j < n then Some(j) else if -(n as int) <= j < 0 then Some(n + j) else None
  }

  /**
   * The array after the first `n` keys of the parameter map: an unchecked key sets its
   * position to 0; a checklist that cannot be searched, or a position outside the array,
   * raises (`None`).
   */
  function MaskedUpTo(values: seq<real>, paramMap: Dict<int>, checked: Json, n: nat): (r: Option<seq<real>>)
    requires n <= |paramMap|
    ensures r.Some? ==> |r.value| == |values|
  {
    if n == 0 then Some(values)
    else
      match MaskedUpTo(values, paramMap, checked, n - 1)
      case None => None
      case Some(a) =>
        match PyIn(paramMap[n - 1].0, checked)
        case None => None
        case Some(isChecked) =>
          if isChecked then Some(a)
          else
            match PyPos(paramMap[n - 1].1, |a|)
            case None => None
            case Some(p) => Some(a[p := 0.0])
  }

  /** The whole masking loop. */
  function Masked(values: seq<real>, paramMap: Dict<int>, checked: Json): Option<seq<real>> {
    MaskedUpTo(values, paramMap, checked, |paramMap|)
  }

  /** Position `p` is the slot of some unchecked key among the first `n`. */
  predicate Zeroed(paramMap: Dict<int>, checked: Json, len: nat, n: nat, p: nat)
    requires n <= |paramMap|
  {
    exists i :: 0 <= i < n && PyIn(paramMap[i].0, checked) == Some(false) && PyPos(paramMap[i].1, len) == Some(p)
  }

  /** Once the loop raises, it does not recover. */
  lemma {:induction false} MaskFail(values: seq<real>, paramMap: Dict<int>, checked: Json, n: nat)
    requires n <= |paramMap| && MaskedUpTo(values, paramMap, checked, n).None?
    ensures Masked(values, paramMap, checked).None?
    decreases |paramMap| - n
  {
    if n < |paramMap| {
      MaskFail(values, paramMap, checked, n + 1);
    }
  }

  /** Every unchecked key's position is 0; every other position keeps its reading. */
  lemma {:induction false} MaskedAt(values: seq<real>, paramMap: Dict<int>, checked: Json, n: nat, p: nat)
    requires n <= |paramMap| && MaskedUpTo(values, paramMap, checked, n).Some? && p < |values|
    ensures MaskedUpTo(values, paramMap, checked, n).value[p]
      == if Zeroed(paramMap, checked, |values|, n, p) then 0.0 else values[p]
  {
    if n > 0 {
      MaskedAt(values, paramMap, checked, n - 1, p);
      var a := MaskedUpTo(values, paramMap, checked, n - 1).value;
      var key := paramMap[n - 1].0;
      if PyIn(key, checked) == Some(true) {
        assert Zeroed(paramMap, checked, |values|, n, p) == Zeroed(paramMap, checked, |values|, n - 1, p) by {
          if Zeroed(paramMap, checked, |values|, n, p) {
            var i :| 0 <= i < n && PyIn(paramMap[i].0, checked) == Some(false) && PyPos(paramMap[i].1, |values|) == Some(p);
            assert i < n - 1;
          }
        }
      } else {
        var q := PyPos(paramMap[n - 1].1, |a|).value;
        if p == q {
          assert Zeroed(paramMap, checked, |values|, n, p);
        } else {
          assert Zeroed(paramMap, checked, |values|, n, p) == Zeroed(paramMap, checked, |values|, n - 1, p) by {
            if Zeroed(paramMap, checked, |values|, n, p) {
              var i :| 0 <= i < n && PyIn(paramMap[i].0, checked) == Some(false) && PyPos(paramMap[i].1, |values|) == Some(p);
              assert i < n - 1;
            }
          }
        }
      }
    }
  }

  /** Key `entry.0` can be looked up in the checklist, and if unchecked its position is inside the array. */
  predicate KeyMaskable(entry: (string, int), checked: Json, len: nat) {
    PyIn(entry.0, checked).Some? && (PyIn(entry.0, checked) == Some(false) ==> PyPos(entry.1, len).Some?)
  }

  /**
   * The masking succeeds exactly when every key can be looked up in the checklist and every
   * unchecked key's position lies inside the array.
   */
  lemma {:induction false} MaskedDefined(values: seq<real>, paramMap: Dict<int>, checked: Json, n: nat)
    requires n <= |paramMap|
    ensures MaskedUpTo(values, paramMap, checked, n).Some? <==>
      forall i :: 0 <= i < n ==> KeyMaskable(paramMap[i], checked, |values|)
  {
    if n > 0 {
      MaskedDefined(values, paramMap, checked, n - 1);
    }
  }

  /** `update_graph_live`'s new points: the lines at the tick, the bars at their index. */
  datatype Payloads = Payloads(lines: Extend<real>, bars: Extend<real>)

  /** The payloads built from a masked array. */
  function PayloadsOf(toPlot: seq<real>, nIntervals: int): (r: Payloads)
    ensures r.lines.y == Rows(toPlot) && r.bars.y == Rows(toPlot)
    ensures r.lines.x == Column(|toPlot|, nIntervals as real) && r.lines.traces == Range(0, |toPlot|) && r.lines.maxPoints == 10
    ensures |r.bars.x| == |toPlot| && (forall i :: 0 <= i < |toPlot| ==> r.bars.x[i] == [i as real])
    ensures r.bars.traces == Range(|toPlot|, 2 * |toPlot|) && r.bars.maxPoints == 1
  {
    var size := |toPlot|;
    Payloads(
      Extend(Column(size, nIntervals as real), Rows(toPlot), Range(0, size), 10),
      Extend(seq(size, i requires 0 <= i < size => [i as real]), Rows(toPlot), Range(size, 2 * size), 1))
  }

  /** The masking loop, in place on the selected sensor's array. */
  method MaskInPlace(toPlot: array<real>, paramMap: Dict<int>, checked: Json) returns (ok: bool)
    modifies toPlot
    ensures ok <==> Masked(old(toPlot[..]), paramMap, checked).Some?
    ensures ok ==> toPlot[..] == Masked(old(toPlot[..]), paramMap, checked).value
  {
    ghost var values := toPlot[..];
    for i := 0 to |paramMap|
      invariant MaskedUpTo(values, paramMap, checked, i) == Some(toPlot[..])
    {
      var key := paramMap[i].0;
      var isChecked := PyIn(key, checked);
      if isChecked.None? {
        MaskFail(values, paramMap, checked, i + 1);
        return false;
      }
      if !isChecked.value {
        var pos := PyPos(paramMap[i].1, toPlot.Length);
        if pos.None? {
          MaskFail(values, paramMap, checked, i + 1);
          return false;
        }
        toPlot[pos.value] := 0.0;
      }
    }
    return true;
  }

  /**
   * `update_graph_live`: the row handed to the database holds every sensor's readings
   * unmasked; the graphs get the selected sensor's readings with unchecked parameters at 0.
   * `written` is whether the database insert returned (the insert itself is not modelled);
   * a failed insert, an unknown sensor, an unsearchable checklist or a position outside the
   * array raises.
   */
  method UpdateGraphLive(nIntervals: int, sensor: Option<string>, checked: Json,
                         sensorKeys: seq<string>, readings: seq<seq<real>>, paramMap: Dict<int>, written: bool)
    returns (recorded: seq<real>, r: Outcome<Payloads>)
    requires |readings| == |sensorKeys|
    ensures recorded == Flat(readings)
    ensures r.Returns? <==> (written && IndexIn(sensorKeys, sensor).Some? &&
      Masked(readings[IndexIn(sensorKeys, sensor).value], paramMap, checked).Some?)
    ensures r.Returns? ==>
      r.value == PayloadsOf(Masked(readings[IndexIn(sensorKeys, sensor).value], paramMap, checked).value, nIntervals)
  {
    recorded := Flatten(readings);
    if !written {
      return recorded, Raises;
    }
    var index := IndexIn(sensorKeys, sensor);
    if index.None? {
      return recorded, Raises;
    }
    var values := readings[index.value];
    var toPlot := new real[|values|](i requires 0 <= i < |values| => values[i]);
    assert toPlot[..] == values;
    var ok := MaskInPlace(toPlot, paramMap, checked);
    if !ok {
      return recorded, Raises;
    }
    r := Returns(PayloadsOf(toPlot[..], nIntervals));
  }
}
