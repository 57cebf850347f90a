/**
 * The recorder's table layout: the column header built from the sensors and parameters,
 * the SQL placeholder string derived from it by a regular-expression substitution, and the
 * flattening of one reading array per sensor into a single row.
 */
module Database {
  import opened Wrappers
  import opened Text
  import opened Numbers

  // ---------------------------------------------------------------------------------
  // Columns
  // ---------------------------------------------------------------------------------

  /** The quoted column name `"<param><i>"` of parameter `param` of sensor number `i`. */
  function Quote(param: string, i: nat): string {
    "\"" + param + NatToString(i) + "\""
  }

  /** The columns of sensor `i`, one per parameter, in parameter order. */
  function Quotes(params: seq<string>, i: nat): (r: seq<string>)
    ensures |r| == |params| && forall k :: 0 <= k < |params| ==> r[k] == Quote(params[k], i)
  {
    seq(|params|, k requires 0 <= k < |params| => Quote(params[k], i))
  }

  /** All columns of `n` sensors, sensor by sensor (the outer loop) and parameter by parameter. */
  function Columns(n: nat, params: seq<string>): seq<string> {
    if n == 0 then [] else Columns(n - 1, params) + Quotes(params, n - 1)
  }

  /** Every column followed by a comma, as the loop accumulates them. */
  function Terminated(cols: seq<string>): string {
    if |cols| == 0 then "" else Terminated(cols[..|cols| - 1]) + cols[|cols| - 1] + ","
  }

  /** Python's `s[:len(s)-1]`, which is `''` for the empty string. */
  function DropLast(s: string): string {
    if |s| == 0 then "" else s[..|s| - 1]
  }

  /** `len(sensors) * len(params)` columns. */
  lemma {:induction false} ColumnsLength(n: nat, params: seq<string>)
    ensures |Columns(n, params)| == n * |params|
  {
    if n > 0 {
      ColumnsLength(n - 1, params);
      MulStep(n - 1, |params|);
    }
  }

  /** Column `i·|params| + k` is parameter k of sensor i. */
  lemma {:induction false} ColumnAt(n: nat, params: seq<string>, i: nat, k: nat)
    requires i < n && k < |params|
    ensures i * |params| + k < |Columns(n, params)|
    ensures Columns(n, params)[i * |params| + k] == Quote(params[k], i)
  {
    var m := |params|;
    ColumnsLength(n, params);
    ColumnsLength(n - 1, params);
    Offset(i, k, n, m);
    if i < n - 1 {
      Offset(i, k, n - 1, m);
      ColumnAt(n - 1, params, i, k);
    } else {
      assert i * m + k == |Columns(n - 1, params)| + k;
    }
  }

  lemma {:induction false} TerminatedFront(c: string, rest: seq<string>)
    ensures Terminated([c] + rest) == c + "," + Terminated(rest)
    decreases |rest|
  {
    if |rest| > 0 {
      var init := rest[..|rest| - 1];
      assert ([c] + rest)[..|rest|] == [c] + init;
      TerminatedFront(c, init);
    } else {
      assert ([c] + rest)[..0] == [];
    }
  }

  /** Dropping the trailing comma leaves the columns joined by commas. */
  lemma {:induction false} TerminatedJoin(cols: seq<string>)
    ensures DropLast(Terminated(cols)) == Join(",", cols)
    decreases |cols|
  {
    if |cols| > 0 {
      var rest := cols[1..];
      assert cols == [cols[0]] + rest;
      TerminatedFront(cols[0], rest);
      if |rest| == 0 {
        assert Terminated(rest) == "";
      } else {
        TerminatedJoin(rest);
        var t := Terminated(rest);
        assert |t| > 0 by {
          assert t == Terminated(rest[..|rest| - 1]) + rest[|rest| - 1] + ",";
        }
        assert Terminated(cols) == cols[0] + "," + t;
        assert DropLast(Terminated(cols)) == cols[0] + "," + DropLast(t);
      }
    }
  }

  // ---------------------------------------------------------------------------------
  // re.sub(r'.\w{0,20}\d.', '?', s)
  // ---------------------------------------------------------------------------------

  /** The number of word characters at the start of `s`. */
  function WordRun(s: string): (n: nat)
    ensures n <= |s|
    ensures forall i :: 0 <= i < n ==> IsWordChar(s[i])
  {
    if |s| == 0 || !IsWordChar(s[0]) then 0 else 1 + WordRun(s[1..])
  }

  /**
   * The pattern with `\w` repeated exactly `j` times, after backtracking from larger counts:
   * the match length if `\d.` follows, else the next smaller count.
   */
  function TryWords(s: string, j: nat): (r: Option<nat>)
    ensures r.Some? ==> 3 <= r.value <= |s|
    decreases j
  {
    if 2 + j < |s| && IsDigit(s[1 + j]) && s[2 + j] != '\n' then Some(3 + j)
    else if j == 0 then None
    else TryWords(s, j - 1)
  }

  /** The length of the match of `.\w{0,20}\d.` at the start of `s`, greedy as Python's `re` is. */
  function MatchLength(s: string): (r: Option<nat>)
    ensures r.Some? ==> 3 <= r.value <= |s|
  {
    if |s| == 0 || s[0] == '\n' then None
    else
      var run := WordRun(s[1..]);
      TryWords(s, if run < 20 then run else 20)
  }

  /** `re.sub(r'.\w{0,20}\d.', '?', s)`: leftmost matches, scanning on after each one. */
  function Sub(s: string): string
    decreases |s|
  {
    if |s| == 0 then ""
    else
      match MatchLength(s)
      case Some(n) => "?" + Sub(s[n..])
      case None => [s[0]] + Sub(s[1..])
  }

  lemma {:induction false} WordRunBefore(w: string, c: char, rest: string)
    requires forall i :: 0 <= i < |w| ==> IsWordChar(w[i])
    requires !IsWordChar(c)
    ensures WordRun(w + [c] + rest) == |w|
  {
    if |w| > 0 {
      assert (w + [c] + rest)[1..] == w[1..] + [c] + rest;
      WordRunBefore(w[1..], c, rest);
    } else {
      assert w + [c] + rest == [c] + rest;
    }
  }

  /** A column body the substitution recognises: word characters ending in a digit, at most 21 long. */
  predicate Replaceable(w: string) {
    0 < |w| <= 21 && IsDigit(w[|w| - 1]) && forall i :: 0 <= i < |w| ==> IsWordChar(w[i])
  }

  /** A quoted column is matched as a whole, whatever follows it. */
  lemma QuotedMatches(w: string, rest: string)
    requires Replaceable(w)
    ensures MatchLength("\"" + w + "\"" + rest) == Some(|w| + 2)
  {
    var s := "\"" + w + "\"" + rest;
    assert s[1..] == w + ['"'] + rest;
    WordRunBefore(w, '"', rest);
    assert WordRun(s[1..]) == |w|;
    assert s[|w|] == w[|w| - 1];
    assert s[1 + |w|] == '"';
    if |w| <= 20 {
      assert !IsDigit(s[1 + |w|]);
      assert TryWords(s, |w|) == TryWords(s, |w| - 1);
      assert TryWords(s, |w| - 1) == Some(|w| + 2);
    } else {
      assert TryWords(s, 20) == Some(23);
    }
  }

  /** A quoted column followed by a comma and a quote: one `?`, then the comma. */
  lemma QuotedThenComma(w: string, t: string)
    requires Replaceable(w) && |t| > 0 && t[0] == '"'
    ensures Sub("\"" + w + "\"" + ("," + t)) == "?" + "," + Sub(t)
  {
    var s := "\"" + w + "\"" + ("," + t);
    QuotedMatches(w, "," + t);
    assert s[|w| + 2..] == "," + t;
    CommaKept(t);
  }

  /** A comma before a quote is no match start; it is kept. */
  lemma CommaKept(t: string)
    requires |t| > 0 && t[0] == '"'
    ensures Sub("," + t) == "," + Sub(t)
  {
    var s := "," + t;
    assert s[1..] == t;
    assert MatchLength(s).None?;
  }

  function Repeat(c: string, n: nat): (r: seq<string>)
    ensures |r| == n && forall i :: 0 <= i < n ==> r[i] == c
  {
    seq(n, i requires 0 <= i < n => c)
  }

  lemma {:induction false} JoinStartsWithFirst(parts: seq<string>)
    requires |parts| > 0 && |parts[0]| > 0
    ensures |Join(",", parts)| > 0 && Join(",", parts)[0] == parts[0][0]
  {
  }

  /** Each quoted column becomes one `?`; the commas stay. */
  lemma {:induction false} SubOfColumns(bodies: seq<string>)
    requires forall k :: 0 <= k < |bodies| ==> Replaceable(bodies[k])
    ensures Sub(Join(",", QuoteAll(bodies))) == Join(",", Repeat("?", |bodies|))
    decreases |bodies|
  {
    var cols := QuoteAll(bodies);
    if |bodies| == 1 {
      QuotedMatches(bodies[0], "");
      assert cols[0] + "" == cols[0];
      assert cols[0][|bodies[0]| + 2..] == "";
    } else if |bodies| > 1 {
      var rest := bodies[1..];
      assert QuoteAll(rest) == cols[1..];
      var t := Join(",", cols[1..]);
      JoinStartsWithFirst(cols[1..]);
      assert Join(",", cols) == cols[0] + ("," + t);
      QuotedThenComma(bodies[0], t);
      SubOfColumns(rest);
      assert Repeat("?", |bodies|)[1..] == Repeat("?", |rest|);
    }
  }

  function QuoteAll(bodies: seq<string>): (r: seq<string>)
    ensures |r| == |bodies| && forall k :: 0 <= k < |bodies| ==> r[k] == "\"" + bodies[k] + "\""
  {
    seq(|bodies|, k requires 0 <= k < |bodies| => "\"" + bodies[k] + "\"")
  }

  lemma QuoteAllAppend(a: seq<string>, b: seq<string>)
    ensures QuoteAll(a + b) == QuoteAll(a) + QuoteAll(b)
  {
  }

  /** The body of column `Quote(param, i)`. */
  function Body(param: string, i: nat): string {
    param + NatToString(i)
  }

  /** The bodies of all columns, in column order. */
  function Bodies(n: nat, params: seq<string>): (r: seq<string>)
    ensures QuoteAll(r) == Columns(n, params)
  {
    if n == 0 then []
    else
      var init := Bodies(n - 1, params);
      var tail := seq(|params|, k requires 0 <= k < |params| => Body(params[k], n - 1));
      QuoteAllAppend(init, tail);
      assert QuoteAll(tail) == Quotes(params, n - 1) by {
        forall k | 0 <= k < |params| ensures QuoteAll(tail)[k] == Quotes(params, n - 1)[k] {
          assert "\"" + (params[k] + NatToString(n - 1)) + "\"" == "\"" + params[k] + NatToString(n - 1) + "\"";
        }
      }
      init + tail
  }

  /** Parameters made of word characters, short enough with every sensor number for `\w{0,20}\d`. */
  predicate ShortParams(n: nat, params: seq<string>) {
    (n > 0 ==> forall k :: 0 <= k < |params| ==> WordOnly(params[k])) &&
    forall k, i :: 0 <= k < |params| && 0 <= i < n ==> |params[k]| + |NatToString(i)| <= 21
  }

  predicate WordOnly(p: string) {
    forall c :: 0 <= c < |p| ==> IsWordChar(p[c])
  }

  lemma ShortParamsFewer(n: nat, m: nat, params: seq<string>)
    requires m <= n && ShortParams(n, params)
    ensures ShortParams(m, params)
  {
    forall k, i | 0 <= k < |params| && 0 <= i < m
      ensures |params[k]| + |NatToString(i)| <= 21
    {
      assert i < n;
    }
  }

  lemma {:induction false} BodiesReplaceable(n: nat, params: seq<string>)
    requires ShortParams(n, params)
    ensures forall k :: 0 <= k < |Bodies(n, params)| ==> Replaceable(Bodies(n, params)[k])
  {
    if n > 0 {
      ShortParamsFewer(n, n - 1, params);
      BodiesReplaceable(n - 1, params);
      var tail := seq(|params|, k requires 0 <= k < |params| => Body(params[k], n - 1));
      forall k | 0 <= k < |tail| ensures Replaceable(tail[k]) {
        var w := tail[k];
        var d := NatToString(n - 1);
        assert w == params[k] + d;
        assert w[|w| - 1] == d[|d| - 1];
        forall c | 0 <= c < |w| ensures IsWordChar(w[c]) {
          if c >= |params[k]| {
            assert w[c] == d[c - |params[k]|];
          }
        }
      }
    }
  }

  /** `get_header`: the column list, and the placeholder string derived from it. */
  method GetHeader(sensors: seq<string>, params: seq<string>) returns (names: string, placeholders: string)
    ensures names == Join(",", Columns(|sensors|, params))
    ensures placeholders == Sub(names)
  {
    var header := "";
    for i := 0 to |sensors|
      invariant header == Terminated(Columns(i, params))
    {
      assert Columns(i, params) + Quotes(params[..0], i) == Columns(i, params);
      for k := 0 to |params|
        invariant header == Terminated(Columns(i, params) + Quotes(params[..k], i))
      {
        HeaderStep(Columns(i, params), params, i, k);
        header := header + Quote(params[k], i) + ",";
      }
      assert params[..|params|] == params;
    }
    TerminatedJoin(Columns(|sensors|, params));
    names := DropLast(header);
    placeholders := Sub(names);
  }

  /** The inner loop of `get_header` appends one quoted column and a comma. */
  lemma HeaderStep(cols: seq<string>, params: seq<string>, i: nat, k: nat)
    requires k < |params|
    ensures Terminated(cols + Quotes(params[..k + 1], i)) == Terminated(cols + Quotes(params[..k], i)) + Quote(params[k], i) + ","
  {
    var before := cols + Quotes(params[..k], i);
    assert cols + Quotes(params[..k + 1], i) == before + [Quote(params[k], i)];
    assert (before + [Quote(params[k], i)])[..|before|] == before;
  }

  /** One `?` per column, comma separated, when every column is recognised by the pattern. */
  lemma Placeholders(n: nat, params: seq<string>)
    requires ShortParams(n, params)
    ensures Sub(Join(",", Columns(n, params))) == Join(",", Repeat("?", n * |params|))
  {
    BodiesReplaceable(n, params);
    SubOfColumns(Bodies(n, params));
    ColumnsLength(n, params);
  }

  /** No sensors or no parameters give two empty strings. */
  lemma EmptyHeader(n: nat, params: seq<string>)
    requires n == 0 || |params| == 0
    ensures Columns(n, params) == [] && Join(",", Columns(n, params)) == "" && Sub("") == ""
  {
    ColumnsLength(n, params);
  }

  lemma {:induction false} CountPlaceholders(n: nat)
    ensures CountChar(Join(",", Repeat("?", n)), '?') == n
  {
    if n == 1 {
      assert Join(",", Repeat("?", 1)) == "?";
    } else if n > 1 {
      CountPlaceholders(n - 1);
      assert Repeat("?", n)[1..] == Repeat("?", n - 1);
      assert Join(",", Repeat("?", n)) == "?" + "," + Join(",", Repeat("?", n - 1));
      CountCharAppend("?" + ",", Join(",", Repeat("?", n - 1)), '?');
      CountCharAppend("?", ",", '?');
      assert ("?")[1..] == "";
      assert (",")[1..] == "";
    }
  }

  // ---------------------------------------------------------------------------------
  // record_data
  // ---------------------------------------------------------------------------------

  /** The arrays one after another. */
  function Flat(data: seq<seq<real>>): seq<real> {
    if |data| == 0 then [] else Flat(data[..|data| - 1]) + data[|data| - 1]
  }

  /** The flattening loop of `record_data`. */
  method Flatten(data: seq<seq<real>>) returns (toRec: seq<real>)
    ensures toRec == Flat(data)
  {
    toRec := [];
    for k := 0 to |data|
      invariant toRec == Flat(data[..k])
    {
      var arr := data[k];
      for j := 0 to |arr|
        invariant toRec == Flat(data[..k]) + arr[..j]
      {
        assert arr[..j + 1] == arr[..j] + [arr[j]];
        toRec := toRec + [arr[j]];
      }
      assert arr[..|arr|] == arr;
      assert data[..k + 1][..k] == data[..k];
    }
    assert data[..|data|] == data;
  }

  function TotalLength(data: seq<seq<real>>): nat {
    if |data| == 0 then 0 else TotalLength(data[..|data| - 1]) + |data[|data| - 1]|
  }

  /** The row holds as many values as the arrays together. */
  lemma {:induction false} FlatLength(data: seq<seq<real>>)
    ensures |Flat(data)| == TotalLength(data)
  {
    if |data| > 0 {
      FlatLength(data[..|data| - 1]);
    }
  }

  /** With `m` values per sensor, value `k·m + j` of the row is value j of sensor k. */
  lemma {:induction false} FlatUniform(data: seq<seq<real>>, m: nat, k: nat, j: nat)
    requires forall a :: 0 <= a < |data| ==> |data[a]| == m
    requires k < |data| && j < m
    ensures |Flat(data)| == |data| * m
    ensures k * m + j < |Flat(data)| && Flat(data)[k * m + j] == data[k][j]
  {
    var n := |data|;
    var init := data[..n - 1];
    FlatUniformLength(data, m);
    FlatUniformLength(init, m);
    Offset(k, j, n, m);
    if k < n - 1 {
      Offset(k, j, n - 1, m);
      FlatUniform(init, m, k, j);
    } else {
      assert k * m + j == |Flat(init)| + j;
    }
  }

  lemma {:induction false} FlatUniformLength(data: seq<seq<real>>, m: nat)
    requires forall a :: 0 <= a < |data| ==> |data[a]| == m
    ensures |Flat(data)| == |data| * m
  {
    if |data| > 0 {
      FlatUniformLength(data[..|data| - 1], m);
      MulStep(|data| - 1, m);
    }
  }

  /**
   * One array of `|params|` readings per sensor fills the row exactly: as many values as
   * the placeholder string has `?`.
   */
  lemma ValuesFillPlaceholders(data: seq<seq<real>>, params: seq<string>)
    requires ShortParams(|data|, params)
    requires forall a :: 0 <= a < |data| ==> |data[a]| == |params|
    ensures |Flat(data)| == CountChar(Sub(Join(",", Columns(|data|, params))), '?')
  {
    FlatUniformLength(data, |params|);
    Placeholders(|data|, params);
    CountPlaceholders(|data| * |params|);
  }
}
