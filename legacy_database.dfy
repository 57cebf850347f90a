/**
 * The first version of the recorder: the same header and flattening as `Database`, with the
 * sensor parameters fixed to the eleven values a headset reports.
 */
module LegacyDatabase {
  import opened Text
  import opened Database

  /** The eleven readings of one headset, in table order. */
  const SensorParams: seq<string> := [
    "signal_strength", "attention", "meditation", "delta", "theta",
    "low_alpha", "high_alpha", "low_beta", "high_beta", "low_gamma", "high_gamma"
  ]

  /** Eleven names, starting with the signal strength, attention and meditation. */
  lemma SensorParamsFixed()
    ensures |SensorParams| == 11
    ensures SensorParams[0] == "signal_strength" && SensorParams[1] == "attention" && SensorParams[2] == "meditation"
  {
  }

  function Pow10(k: nat): (p: nat)
    ensures p >= 1
  {
    if k == 0 then 1 else 10 * Pow10(k - 1)
  }

  /** A number below 10^k has at most k decimal digits. */
  lemma {:induction false} DigitCount(i: nat, k: nat)
    requires 1 <= k && i < Pow10(k)
    ensures |NatToString(i)| <= k
  {
    assert Pow10(1) == 10;
    if i >= 10 {
      DigitCount(i / 10, k - 1);
    }
  }

  lemma ParamsAreWords()
    ensures forall k :: 0 <= k < |SensorParams| ==> WordOnly(SensorParams[k]) && |SensorParams[k]| <= 15
  {
    SignalParamsAreWords();
    BandParamsAreWords();
    UpperBandParamsAreWords();
  }

  lemma SignalParamsAreWords()
    ensures WordOnly("signal_strength") && WordOnly("attention") && WordOnly("meditation")
  {
  }

  lemma BandParamsAreWords()
    ensures WordOnly("delta") && WordOnly("theta") && WordOnly("low_alpha") && WordOnly("high_alpha")
  {
  }

  lemma UpperBandParamsAreWords()
    ensures WordOnly("low_beta") && WordOnly("high_beta") && WordOnly("low_gamma") && WordOnly("high_gamma")
  {
  }

  /** Up to a million sensors, every built-in column is recognised by the placeholder pattern. */
  lemma BuiltInParamsShort(n: nat)
    requires n <= 1000000
    ensures ShortParams(n, SensorParams)
  {
    ParamsAreWords();
    assert Pow10(6) == 1000000;
    forall i | 0 <= i < n ensures |NatToString(i)| <= 6 {
      DigitCount(i, 6);
    }
  }

  /** With the built-in parameters, k sensors give 11k columns and 11k placeholders. */
  lemma BuiltInHeader(k: nat)
    requires k <= 1000000
    ensures |Columns(k, SensorParams)| == 11 * k
    ensures Sub(Join(",", Columns(k, SensorParams))) == Join(",", Repeat("?", 11 * k))
    ensures CountChar(Sub(Join(",", Columns(k, SensorParams))), '?') == 11 * k
  {
    ColumnsLength(k, SensorParams);
    BuiltInParamsShort(k);
    Placeholders(k, SensorParams);
    CountPlaceholders(11 * k);
  }
}
