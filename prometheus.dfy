/**
  The branching of `get_prometheus_metric` (gemini_alert.py:88-97) over an
  already-parsed reply of the Prometheus query API. The HTTP request and the
  JSON decoding are not modelled; `float()` on a string is the parameter
  `parseFloat`, which may accept or refuse any text.
*/
module Prometheus {
  import opened Common

  /** A decoded JSON value. */
  datatype Json =
    | JNull
    | JBool(b: bool)
    | JNumber(n: real)
    | JString(s: string)
    | JArray(items: seq<Json>)
    | JObject(fields: map<string, Json>)

  /** `float(text)`: the number a text spells, if any. */
  type ParseFloat = string -> Option<real>

  /** What one probe ends in: a value, Python's `None`, or an exception that escapes. */
  datatype Reading = Present(value: real) | Absent | Raised

  /** Python truthiness of a decoded JSON value. */
  predicate JsonTruthy(v: Json)
  {
    match v
    case JNull => false
    case JBool(b) => b
    case JNumber(n) => n != 0.0
    case JString(s) => s != []
    case JArray(items) => items != []
    case JObject(fields) => fields != map[]
  }

  /** `v[key]` for a string key; `None` where Python raises. */
  function Field(v: Json, key: string): Option<Json>
  {
    if v.JObject? && key in v.fields then Some(v.fields[key]) else None
  }

  /**
    `v[i]` for an integer index; `None` where Python raises. Indexing a string
    yields its one-character substring; a JSON object has only string keys, so
    an integer key is never found.
  */
  function Item(v: Json, i: nat): Option<Json>
  {
    match v
    case JArray(items) => if i < |items| then Some(items[i]) else None
    case JString(s) => if i < |s| then Some(JString([s[i]])) else None
    case _ => None
  }

  /** `float(v)`; `None` where Python raises. `float(True)` is 1.0. */
  function ToFloat(v: Json, parseFloat: ParseFloat): Option<real>
  {
    match v
    case JNumber(n) => Some(n)
    case JBool(b) => Some(if b then 1.0 else 0.0)
    case JString(s) => parseFloat(s)
    case _ => None
  }

  /** `data.get("status") == "success"`, for a reply that is an object. */
  predicate StatusIsSuccess(data: Json)
  {
    Field(data, "status") == Some(JString("success"))
  }

  /** `data["data"]["result"]`; `None` where either lookup raises. */
  function ResultOf(data: Json): Option<Json>
  {
    match Field(data, "data")
    case Some(d) => Field(d, "result")
    case None => None
  }

  /** `float(result[0]["value"][1])` inside the `try`; `None` for every exception. */
  function FirstSampleValue(result: Json, parseFloat: ParseFloat): (r: Option<real>)
    ensures r.Some? ==> result.JArray? && result.items != [] && Field(result.items[0], "value").Some?
    ensures r.Some? ==> Item(Field(result.items[0], "value").value, 1).Some?
  {
    match Item(result, 0)
    case None => None
    case Some(first) =>
      match Field(first, "value")
      case None => None
      case Some(pair) =>
        match Item(pair, 1)
        case None => None
        case Some(text) => ToFloat(text, parseFloat)
  }

  /**
    `get_prometheus_metric` after the reply is decoded. Only the conversion of
    the first sample is guarded by `try`; a reply that is not an object, or a
    successful one without `data.result`, raises out of the function.
  */
  function GetPrometheusMetric(data: Json, parseFloat: ParseFloat): (r: Reading)
    ensures r.Raised? <==> !data.JObject? || (StatusIsSuccess(data) && ResultOf(data).None?)
    ensures data.JObject? && !StatusIsSuccess(data) ==> r == Absent
    ensures ResultOf(data) == Some(JArray([])) ==> r == Absent
    ensures r.Present? ==> StatusIsSuccess(data) && ResultOf(data).Some? && JsonTruthy(ResultOf(data).value)
    ensures StatusIsSuccess(data) && ResultOf(data).Some? ==>
      (r.Present? <==> JsonTruthy(ResultOf(data).value) && FirstSampleValue(ResultOf(data).value, parseFloat).Some?)
    ensures r.Present? ==> Some(r.value) == FirstSampleValue(ResultOf(data).value, parseFloat)
  {
    if !data.JObject? then Raised
    else if !StatusIsSuccess(data) then Absent
    else
      match ResultOf(data)
      case None => Raised
      case Some(result) =>
        if !JsonTruthy(result) then Absent
        else
          match FirstSampleValue(result, parseFloat)
          case None => Absent
          case Some(x) => Present(x)
  }

  /** An instant-vector reply whose samples are `(timestamp, value text)` pairs. */
  function VectorReply(samples: seq<(real, string)>): Json
  {
    JObject(map[
      "status" := JString("success"),
      "data" := JObject(map[
        "resultType" := JString("vector"),
        "result" := JArray(seq(|samples|, k requires 0 <= k < |samples| =>
          JObject(map[
            "metric" := JObject(map[]),
            "value" := JArray([JNumber(samples[k].0), JString(samples[k].1)])
          ])))
      ])
    ])
  }

  /** An error reply of the query API. */
  function ErrorReply(errorType: string, message: string): Json
  {
    JObject(map[
      "status" := JString("error"),
      "errorType" := JString(errorType),
      "error" := JString(message)
    ])
  }

  /**
    Reading a well-formed vector reply gives back the first sample's value
    when its text parses, and `None` for an empty vector or unparsable text.
  */
  lemma VectorReplyReadsFirstSample(samples: seq<(real, string)>, parseFloat: ParseFloat)
    ensures GetPrometheusMetric(VectorReply(samples), parseFloat) ==
      if samples == [] || parseFloat(samples[0].1).None? then Absent
      else Present(parseFloat(samples[0].1).value)
  {
    var reply := VectorReply(samples);
    assert StatusIsSuccess(reply);
    var result := ResultOf(reply).value;
    if samples != [] {
      var first := Item(result, 0).value;
      assert Field(first, "value") == Some(JArray([JNumber(samples[0].0), JString(samples[0].1)]));
    }
  }

  /** An error reply reads as `None`. */
  lemma ErrorReplyIsAbsent(errorType: string, message: string, parseFloat: ParseFloat)
    ensures GetPrometheusMetric(ErrorReply(errorType, message), parseFloat) == Absent
  {
    assert Field(ErrorReply(errorType, message), "status") == Some(JString("error"));
  }

  /**
    A reply that reports success but carries no `data` field makes the
    function raise, although it is meant to answer `None` for every bad reply.
  */
  lemma SuccessWithoutDataRaises(parseFloat: ParseFloat)
    ensures GetPrometheusMetric(JObject(map["status" := JString("success")]), parseFloat) == Raised
  {
    assert ResultOf(JObject(map["status" := JString("success")])) == None;
  }

  /**
    The intended reading: every lookup of the reply is guarded, so a malformed
    reply is `None` and nothing escapes. It agrees with the function as written
    wherever that one returns, and answers `None` where that one raises.
  */
  function GetPrometheusMetricOrNone(data: Json, parseFloat: ParseFloat): (r: Option<real>)
    ensures GetPrometheusMetric(data, parseFloat).Present? ==> r == Some(GetPrometheusMetric(data, parseFloat).value)
    ensures !GetPrometheusMetric(data, parseFloat).Present? ==> r == None
  {
    if !StatusIsSuccess(data) then None
    else
      var result := ResultOf(data);
      if result.None? || !JsonTruthy(result.value) then None
      else FirstSampleValue(result.value, parseFloat)
  }
}
