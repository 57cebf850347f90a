/** The first version of the sensor helpers: fetching one sensor's readings with a fallback. */
module LegacyUtils {
  import opened Wrappers

  /** The two placeholder parameters of the test sensors. */
  const TestParams: seq<string> := ["a", "b"]

  /**
   * `get_data`: the readings a sensor answered with (`None` when the request, its JSON or its
   * `data` field failed), or, on failure, one missing value per test parameter.
   */
  function GetData(response: Option<seq<real>>): (r: seq<Option<real>>)
    ensures response.Some? ==> |r| == |response.value| && forall i :: 0 <= i < |r| ==> r[i] == Some(response.value[i])
    ensures response.None? ==> |r| == |TestParams| == 2 && forall i :: 0 <= i < |r| ==> r[i].None?
  {
    match response
    case Some(values) => seq(|values|, i requires 0 <= i < |values| => Some(values[i]))
    case None => seq(|TestParams|, _ => None)
  }

  /** A sensor that answers never yields a missing value; one that does not yields nothing else. */
  lemma FallbackOnlyOnFailure(response: Option<seq<real>>)
    ensures (exists i :: 0 <= i < |GetData(response)| && GetData(response)[i].None?) <==> response.None?
  {
    var r := GetData(response);
    if response.None? {
      assert r[0].None?;
    }
  }
}
