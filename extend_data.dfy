/** The `extendData` payload of a Plotly graph: new points, the traces they go to, and a cap. */
module ExtendData {

  /** `[{"x": x, "y": y}, traces, maxPoints]`: trace `traces[i]` gains `x[i]` and `y[i]`. */
  datatype Extend<T> = Extend(x: seq<seq<T>>, y: seq<seq<T>>, traces: seq<int>, maxPoints: int)

  /** `[{"z": z, "y": y}, traces, maxPoints]`: heatmap `traces[i]` gains the cells `z[i]` at row `y[i]`. */
  datatype HeatExtend<T> = HeatExtend(z: seq<seq<seq<T>>>, y: seq<seq<T>>, traces: seq<int>, maxPoints: int)

  /** `np.arange(lo, hi)`. */
  function Range(lo: int, hi: int): (r: seq<int>)
    ensures |r| == if lo <= hi then hi - lo else 0
    ensures forall i :: 0 <= i < |r| ==> r[i] == lo + i
  {
    if lo >= hi then [] else seq(hi - lo, i requires 0 <= i < hi - lo => lo + i)
  }

  /** `np.full((n, 1), v)`: n one-element rows holding `v`. */
  function Column<T>(n: nat, v: T): (r: seq<seq<T>>)
    ensures |r| == n && forall i :: 0 <= i < n ==> r[i] == [v]
  {
    seq(n, _ => [v])
  }

  /** `a[:, np.newaxis]`: each value in a row of its own. */
  function Rows<T>(a: seq<T>): (r: seq<seq<T>>)
    ensures |r| == |a| && forall i :: 0 <= i < |a| ==> r[i] == [a[i]]
  {
    seq(|a|, i requires 0 <= i < |a| => [a[i]])
  }
}
